/**
 * The five fixed command lines that the batch runner sends to the Azure CLI
 * (chaosazure/cli/runner.py, the private `__build_*_command` helpers).
 *
 * A command is the list of argument tokens handed to the CLI engine. The
 * builders are stated against `Parse`, an independent positional reading of
 * a token list: `ParseOfBuild` and `BuildOfParse` show that `Parse` accepts
 * exactly the lists the builders produce, so each builder's result is
 * determined token by token.
 */
module Commands {
  import opened Wrappers

  /** One CLI invocation: its argument tokens, in order. */
  type Command = seq<string>

  /** The name of the extension the runner requires before anything else. */
  const ResourceGraph: string := "resource-graph"

  /** The requests the runner itself issues, as the CLI would read them. */
  datatype Request =
    | ListExtensionsRequest
    | InstallResourceGraphRequest
    | LoginRequest(principal: string, secret: string, tenant: string)
    | SetSubscriptionRequest(subscription: string)
    | LogoutRequest

  /** Reads a token list as one of the runner's own requests, by the token at each position. */
  function Parse(t: Command): Option<Request>
  {
    if |t| == 1 && t[0] == "logout" then
      Some(LogoutRequest)
    else if |t| == 2 && t[0] == "extension" && t[1] == "list" then
      Some(ListExtensionsRequest)
    else if |t| == 4 && t[0] == "extension" && t[1] == "add" && t[2] == "--name" && t[3] == ResourceGraph then
      Some(InstallResourceGraphRequest)
    else if |t| == 4 && t[0] == "account" && t[1] == "set" && t[2] == "--subscription" then
      Some(SetSubscriptionRequest(t[3]))
    else if |t| == 8 && t[0] == "login" && t[1] == "--service-principal" && t[2] == "-u"
            && t[4] == "-p" && t[6] == "--tenant" then
      Some(LoginRequest(t[3], t[5], t[7]))
    else
      None
  }

  /** `az logout`. */
  function LogoutCommand(): Command
  {
    ["logout"]
  }

  /** `az account set --subscription <id>`. */
  function SetSubscriptionCommand(subscriptionId: string): Command
  {
    ["account", "set", "--subscription", subscriptionId]
  }

  /** `az login --service-principal -u <principal> -p <secret> --tenant <tenant>`. */
  function LoginCommand(principalId: string, secret: string, tenantId: string): Command
  {
    ["login", "--service-principal", "-u", principalId, "-p", secret, "--tenant", tenantId]
  }

  /** `az extension list`. */
  function ExtensionListCommand(): Command
  {
    ["extension", "list"]
  }

  /** `az extension add --name resource-graph`. */
  function InstallResourceGraphCommand(): Command
  {
    ["extension", "add", "--name", ResourceGraph]
  }

  /** The builder that produces each request. */
  function Build(q: Request): Command
  {
    match q
    case ListExtensionsRequest => ExtensionListCommand()
    case InstallResourceGraphRequest => InstallResourceGraphCommand()
    case LoginRequest(p, s, tid) => LoginCommand(p, s, tid)
    case SetSubscriptionRequest(id) => SetSubscriptionCommand(id)
    case LogoutRequest => LogoutCommand()
  }

  /** Each builder's command line reads back as the request it was built for. */
  lemma ParseOfBuild(q: Request)
    ensures Parse(Build(q)) == Some(q)
  {
  }

  /**
   * Every token list that `Parse` accepts is exactly the builder's output for
   * the request it denotes. With `ParseOfBuild`, `Build` and `Parse` are
   * inverse bijections between requests and the token lists `Parse` accepts,
   * so every builder returns one fixed literal list.
   */
  lemma BuildOfParse(t: Command, q: Request)
    requires Parse(t) == Some(q)
    ensures Build(q) == t
  {
  }
}
