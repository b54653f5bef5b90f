/**
 * The batch runner of chaosazure/cli/runner.py: `execute_batch` and its
 * single-command form `execute`.
 *
 * A run lists the installed CLI extensions, installs `resource-graph` when
 * no listed extension carries that name, derives the tenant id and looks up
 * the subscription, logs in, selects the subscription, runs the caller's
 * commands in order and logs out. Every step that talks to the CLI goes
 * through a `CliEngine`, and any error stops the run where it happens:
 * there is no `finally`, so a failing command also skips the logout.
 *
 * `BatchRun` is the reference for a run: the invocations the engine is asked
 * for and how the run ends, as a function of the inputs and of which
 * invocation numbers fail. `ExecuteBatch` is proved to behave exactly as
 * `BatchRun` says; the properties of runs are proved about `BatchRun` in
 * module RunnerProperties.
 */
module Runner {
  import opened Wrappers
  import opened Commands
  import opened Authority
  import opened Engine

  /** One record of `az extension list`; `name` is `None` when it has no `name` key. */
  datatype ExtensionRecord = ExtensionRecord(name: Option<string>)

  /** What the authentication context yields: principal id, secret and authority URI. */
  datatype Credential = Credential(id: string, secret: string, authUri: string)

  /** The host program's configuration: a dictionary of dictionaries of strings. */
  type Configuration = map<string, map<string, string>>

  /** The invocations a run makes, in the order the code makes them. */
  datatype Step =
    | ListStep
    | InstallStep
    | LoginStep
    | SubscriptionStep
    | CommandStep(index: nat)
    | LogoutStep

  /** Why a run stopped: the exception execute_batch lets escape. */
  datatype Error =
    | EngineFailure(step: Step)        // the CLI failed on that invocation
    | ExtensionNameMissing(index: nat) // `elem['name']` raised KeyError on that record
    | TenantSegmentMissing             // `split('/')[3]` raised IndexError
    | SubscriptionIdMissing            // `configuration['azure']['subscription_id']` raised KeyError

  datatype Outcome = Completed | Failed(error: Error)

  /** What a run asks of the engine, and how it ends. */
  datatype Run = Run(log: seq<Invocation>, outcome: Outcome)

  /**
   * The scan of the extension records after the first `i` of them: the
   * value of `is_resource_graph_extension_installed`, or the position of the
   * first record without a name.
   */
  function ScanUpTo(records: seq<ExtensionRecord>, i: nat): Result<bool, nat>
    requires i <= |records|
  {
    if i == 0 then
      Ok(false)
    else
      match ScanUpTo(records, i - 1)
      case Err(k) => Err(k)
      case Ok(installed) =>
        match records[i - 1].name
        case None => Err(i - 1)
        case Some(name) => Ok(if name == ResourceGraph then true else installed)
  }

  /** The scan over the whole list. */
  function ScanResult(records: seq<ExtensionRecord>): Result<bool, nat>
  {
    ScanUpTo(records, |records|)
  }

  /**
   * After `i` records the scan has failed exactly when one of them has no
   * name, and then at the first such one; otherwise the flag is set exactly
   * when one of them is named `resource-graph`.
   */
  lemma {:induction false} ScanMeaning(records: seq<ExtensionRecord>, i: nat)
    requires i <= |records|
    ensures ScanUpTo(records, i).Err? <==> exists k :: 0 <= k < i && records[k].name.None?
    ensures ScanUpTo(records, i).Err? ==>
              var k := ScanUpTo(records, i).error;
              k < i && records[k].name.None? && forall m :: 0 <= m < k ==> records[m].name.Some?
    ensures ScanUpTo(records, i).Ok? ==>
              (ScanUpTo(records, i).value <==>
                 exists k :: 0 <= k < i && records[k].name == Some(ResourceGraph))
  {
    if i > 0 {
      ScanMeaning(records, i - 1);
    }
  }

  /** Once the flag is set it stays set for as long as the scan goes on. */
  lemma {:induction false} ScanFlagStaysSet(records: seq<ExtensionRecord>, i: nat, j: nat)
    requires i <= j <= |records|
    requires ScanUpTo(records, i) == Ok(true)
    requires ScanUpTo(records, j).Ok?
    ensures ScanUpTo(records, j) == Ok(true)
  {
    if i < j {
      assert ScanUpTo(records, j - 1).Ok?;
      ScanFlagStaysSet(records, i, j - 1);
    }
  }

  /** Once the scan has failed it stays failed at the same record. */
  lemma {:induction false} ScanErrorSticks(records: seq<ExtensionRecord>, i: nat, j: nat)
    requires i <= j <= |records|
    requires ScanUpTo(records, i).Err?
    ensures ScanUpTo(records, j) == ScanUpTo(records, i)
  {
    if i < j {
      ScanErrorSticks(records, i, j - 1);
    }
  }

  /**
   * The `for elem in ext_list_stream_response` loop
   * (chaosazure/cli/runner.py:36, 41-43): the flag, or the first record
   * whose `name` key is missing.
   */
  method ScanExtensions(records: seq<ExtensionRecord>) returns (r: Result<bool, nat>)
    ensures r == ScanResult(records)
    ensures r.Err? ==> r.error < |records| && records[r.error].name.None?
                       && forall m :: 0 <= m < r.error ==> records[m].name.Some?
    ensures r.Ok? ==> (forall k :: 0 <= k < |records| ==> records[k].name.Some?)
                      && (r.value <==> exists k :: 0 <= k < |records| && records[k].name == Some(ResourceGraph))
  {
    var installed := false;
    var i := 0;
    while i < |records|
      invariant 0 <= i <= |records|
      invariant ScanUpTo(records, i) == Ok(installed)
    {
      if records[i].name.None? {
        ScanErrorSticks(records, i + 1, |records|);
        ScanMeaning(records, |records|);
        return Err(i);
      }
      if records[i].name.value == ResourceGraph {
        installed := true;
      }
      i := i + 1;
    }
    ScanMeaning(records, |records|);
    return Ok(installed);
  }

  /** `configuration['azure']['subscription_id']`, or `None` where Python raises KeyError. */
  function SubscriptionId(configuration: Configuration): Option<string>
  {
    if "azure" in configuration && "subscription_id" in configuration["azure"] then
      Some(configuration["azure"]["subscription_id"])
    else
      None
  }

  /** The batch commands as the engine sees them: each with the caller's `file`. */
  function BatchCalls(commands: seq<Command>, file: FileArg): seq<Invocation>
  {
    seq(|commands|, i requires 0 <= i < |commands| => Invocation(commands[i], CallerFile(file)))
  }

  /** Which invocation of a session position `j` is, for a batch of `n` commands. */
  function SessionStep(j: nat, n: nat): Step
  {
    if j == 0 then LoginStep
    else if j == 1 then SubscriptionStep
    else if j < n + 2 then CommandStep(j - 2)
    else LogoutStep
  }

  /**
   * The first of `len` consecutive invocations, numbered from `start`,
   * that fails, counted from 0.
   */
  function FirstFailure(start: nat, len: nat, failing: set<nat>): (r: Option<nat>)
    ensures r.Some? ==> r.value < len
    decreases len
  {
    if len == 0 then
      None
    else
      match FirstFailure(start, len - 1, failing)
      case Some(j) => Some(j)
      case None => if start + len - 1 in failing then Some(len - 1) else None
  }

  /**
   * `FirstFailure` finds the first failing number: every number before it
   * succeeds; and it finds none exactly when none of the `len` fails.
   */
  lemma {:induction false} FirstFailureMeaning(start: nat, len: nat, failing: set<nat>)
    ensures var r := FirstFailure(start, len, failing);
      && (r.Some? ==> r.value < len && start + r.value in failing
                      && forall n :: start <= n < start + r.value ==> n !in failing)
      && (r.None? ==> forall n :: start <= n < start + len ==> n !in failing)
    decreases len
  {
    if len > 0 {
      FirstFailureMeaning(start, len - 1, failing);
    }
  }

  /**
   * The extension check on an engine whose log holds `base` entries: the
   * listing, the scan of what it printed and, when `resource-graph` is not
   * among the names, the install. `Completed` means the session may start.
   */
  function PreconditionRun(base: nat, failing: set<nat>, extensions: seq<ExtensionRecord>): Run
  {
    var list := Invocation(ExtensionListCommand(), PrivateBuffer);
    if base in failing then
      Run([list], Failed(EngineFailure(ListStep)))
    else
      match ScanResult(extensions)
      case Err(k) => Run([list], Failed(ExtensionNameMissing(k)))
      case Ok(true) => Run([list], Completed)
      case Ok(false) =>
        var install := Invocation(InstallResourceGraphCommand(), DefaultOutput);
        Run([list, install], if base + 1 in failing then Failed(EngineFailure(InstallStep)) else Completed)
  }

  /**
   * The reference run of `execute_batch` on an engine whose log already
   * holds `base` entries and whose failing invocations are `failing`.
   */
  function BatchRun(base: nat, failing: set<nat>, configuration: Configuration, credential: Credential,
                    extensions: seq<ExtensionRecord>, commands: seq<Command>, file: FileArg): Run
  {
    var setup := PreconditionRun(base, failing, extensions);
    if setup.outcome.Failed? then
      setup
    else
      var auth := AuthRun(base + |setup.log|, failing, configuration, credential, commands, file);
      Run(setup.log + auth.log, auth.outcome)
  }

  /** The `with auth(secrets)` block: the two lookups, then the session. */
  function AuthRun(start: nat, failing: set<nat>, configuration: Configuration, credential: Credential,
                   commands: seq<Command>, file: FileArg): Run
  {
    match TenantId(credential.authUri)
    case None => Run([], Failed(TenantSegmentMissing))
    case Some(tenant) =>
      match SubscriptionId(configuration)
      case None => Run([], Failed(SubscriptionIdMissing))
      case Some(subscription) => SessionRun(start, failing, credential, tenant, subscription, commands, file)
  }

  /**
   * The login, the subscription choice, the commands and the logout, on an
   * engine whose log holds `start` entries (chaosazure/cli/runner.py:56-66).
   */
  function SessionRun(start: nat, failing: set<nat>, credential: Credential, tenant: string,
                      subscription: string, commands: seq<Command>, file: FileArg): Run
  {
    var login := Invocation(LoginCommand(credential.id, credential.secret, tenant), DefaultOutput);
    var select := Invocation(SetSubscriptionCommand(subscription), DefaultOutput);
    var logout := Invocation(LogoutCommand(), DefaultOutput);
    if start in failing then
      Run([login], Failed(EngineFailure(LoginStep)))
    else if start + 1 in failing then
      Run([login, select], Failed(EngineFailure(SubscriptionStep)))
    else
      var batch := CommandsRun(start + 2, failing, commands, file);
      if batch.outcome.Failed? then
        Run([login, select] + batch.log, batch.outcome)
      else if start + 2 + |commands| in failing then
        Run([login, select] + batch.log + [logout], Failed(EngineFailure(LogoutStep)))
      else
        Run([login, select] + batch.log + [logout], Completed)
  }

  /**
   * The `for command in commands` loop on an engine whose log holds `start`
   * entries: the commands in order, up to and including the first that fails.
   */
  function CommandsRun(start: nat, failing: set<nat>, commands: seq<Command>, file: FileArg): Run
  {
    match FirstFailure(start, |commands|, failing)
    case None => Run(BatchCalls(commands, file), Completed)
    case Some(j) => Run(BatchCalls(commands, file)[..j + 1], Failed(EngineFailure(CommandStep(j))))
  }

  /** `FirstFailure` is pinned down by the first failing number. */
  lemma FirstFailureIs(start: nat, len: nat, failing: set<nat>, j: nat)
    requires j < len && start + j in failing
    requires forall n :: start <= n < start + j ==> n !in failing
    ensures FirstFailure(start, len, failing) == Some(j)
  {
    FirstFailureMeaning(start, len, failing);
  }

  /**
   * `execute_batch(configuration, secrets, commands, file)`
   * (chaosazure/cli/runner.py:34-66). `credential` is what `auth(secrets)`
   * yields and `extensions` is what the extension-list call prints.
   */
  method ExecuteBatch(engine: CliEngine, configuration: Configuration, credential: Credential,
                      extensions: seq<ExtensionRecord>, commands: seq<Command>, file: FileArg)
    returns (outcome: Outcome)
    modifies engine
    ensures var run := BatchRun(|old(engine.log)|, engine.failing, configuration, credential,
                                extensions, commands, file);
            engine.log == old(engine.log) + run.log && outcome == run.outcome
  {
    ghost var before := engine.log;
    ghost var setup := PreconditionRun(|before|, engine.failing, extensions);
    outcome := EnsureResourceGraph(engine, extensions);
    if outcome.Completed? {
      ghost var auth := AuthRun(|before| + |setup.log|, engine.failing, configuration, credential, commands, file);
      outcome := RunAuthenticated(engine, configuration, credential, commands, file);
      assert engine.log == before + (setup.log + auth.log);
    }
  }

  /**
   * The `with auth(secrets) as cred` block (chaosazure/cli/runner.py:50-66):
   * the tenant id and the subscription id, then the session.
   */
  method RunAuthenticated(engine: CliEngine, configuration: Configuration, credential: Credential,
                          commands: seq<Command>, file: FileArg)
    returns (outcome: Outcome)
    modifies engine
    ensures var run := AuthRun(|old(engine.log)|, engine.failing, configuration, credential, commands, file);
            engine.log == old(engine.log) + run.log && outcome == run.outcome
  {
    var tenant := TenantId(credential.authUri);
    if tenant.None? {
      return Failed(TenantSegmentMissing);
    }
    var subscription := SubscriptionId(configuration);
    if subscription.None? {
      return Failed(SubscriptionIdMissing);
    }
    outcome := RunSession(engine, credential, tenant.value, subscription.value, commands, file);
  }

  /**
   * The extension check at the head of `execute_batch`
   * (chaosazure/cli/runner.py:36-48): list, scan, install if absent.
   */
  method EnsureResourceGraph(engine: CliEngine, extensions: seq<ExtensionRecord>)
    returns (outcome: Outcome)
    modifies engine
    ensures var run := PreconditionRun(|old(engine.log)|, engine.failing, extensions);
            engine.log == old(engine.log) + run.log && outcome == run.outcome
  {
    var ok := engine.Invoke(ExtensionListCommand(), PrivateBuffer);
    if !ok {
      return Failed(EngineFailure(ListStep));
    }
    var installed := ScanExtensions(extensions);
    if installed.Err? {
      return Failed(ExtensionNameMissing(installed.error));
    }
    if !installed.value {
      ok := engine.Invoke(InstallResourceGraphCommand(), DefaultOutput);
      if !ok {
        return Failed(EngineFailure(InstallStep));
      }
    }
    return Completed;
  }

  /**
   * The body of the `with auth(secrets)` block once the tenant and the
   * subscription are known (chaosazure/cli/runner.py:56-66); the first
   * failure ends it, the logout included.
   */
  method RunSession(engine: CliEngine, credential: Credential, tenant: string, subscription: string,
                    commands: seq<Command>, file: FileArg)
    returns (outcome: Outcome)
    modifies engine
    ensures var run := SessionRun(|old(engine.log)|, engine.failing, credential, tenant, subscription,
                                  commands, file);
            engine.log == old(engine.log) + run.log && outcome == run.outcome
  {
    ghost var before := engine.log;
    ghost var login := Invocation(LoginCommand(credential.id, credential.secret, tenant), DefaultOutput);
    ghost var select := Invocation(SetSubscriptionCommand(subscription), DefaultOutput);
    ghost var batch := CommandsRun(|before| + 2, engine.failing, commands, file);
    var ok := engine.Invoke(LoginCommand(credential.id, credential.secret, tenant), DefaultOutput);
    if !ok {
      return Failed(EngineFailure(LoginStep));
    }
    ok := engine.Invoke(SetSubscriptionCommand(subscription), DefaultOutput);
    if !ok {
      return Failed(EngineFailure(SubscriptionStep));
    }
    assert engine.log == before + [login, select];
    outcome := RunCommands(engine, commands, file);
    assert engine.log == before + ([login, select] + batch.log);
    if outcome.Failed? {
      return;
    }
    ok := engine.Invoke(LogoutCommand(), DefaultOutput);
    if !ok {
      return Failed(EngineFailure(LogoutStep));
    }
    return Completed;
  }

  /**
   * `for command in commands: get_default_cli().invoke(command, out_file=file)`
   * (chaosazure/cli/runner.py:62-63): no command is skipped, reordered or
   * repeated, and the first failure ends the loop.
   */
  method RunCommands(engine: CliEngine, commands: seq<Command>, file: FileArg)
    returns (outcome: Outcome)
    modifies engine
    ensures var run := CommandsRun(|old(engine.log)|, engine.failing, commands, file);
            engine.log == old(engine.log) + run.log && outcome == run.outcome
  {
    ghost var start := |engine.log|;
    ghost var calls := BatchCalls(commands, file);
    var i := 0;
    while i < |commands|
      invariant 0 <= i <= |commands|
      invariant engine.log == old(engine.log) + calls[..i]
      invariant forall n :: start <= n < start + i ==> n !in engine.failing
    {
      assert calls[..i + 1] == calls[..i] + [Invocation(commands[i], CallerFile(file))];
      var ok := engine.Invoke(commands[i], CallerFile(file));
      if !ok {
        FirstFailureIs(start, |commands|, engine.failing, i);
        return Failed(EngineFailure(CommandStep(i)));
      }
      i := i + 1;
    }
    assert calls[..i] == calls;
    FirstFailureMeaning(start, |commands|, engine.failing);
    return Completed;
  }

  /**
   * `execute(configuration, secrets, command, file)`
   * (chaosazure/cli/runner.py:28-31): a batch of the one command.
   */
  method Execute(engine: CliEngine, configuration: Configuration, credential: Credential,
                 extensions: seq<ExtensionRecord>, command: Command, file: FileArg)
    returns (outcome: Outcome)
    modifies engine
    ensures var run := BatchRun(|old(engine.log)|, engine.failing, configuration, credential,
                                extensions, [command], file);
            engine.log == old(engine.log) + run.log && outcome == run.outcome
  {
    var commandList := [command];
    outcome := ExecuteBatch(engine, configuration, credential, extensions, commandList, file);
  }
}
