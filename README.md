# chaosazure batch runner, in Dafny

This project models the command-sequencing core of `chaosazure/cli/runner.py`: `execute_batch`, its single-command form `execute`, and the five private `__build_*_command` helpers. It proves what a run asks of the Azure CLI engine.

A run of `execute_batch` does the following, in order:

- It lists the installed CLI extensions into a private `io.StringIO` buffer.
- It scans the listed records for one named `resource-graph`.
- It installs that extension when none is listed.
- Inside `with auth(secrets) as cred`, it takes the tenant id as piece 3 of `cred.auth_uri.split('/')`.
- It looks up `configuration['azure']['subscription_id']`.
- It logs in and selects the subscription.
- It runs the caller's commands in order, each with `out_file=file`.
- It logs out.

Any exception ends the run where it happens. This covers a failing CLI invocation, a record without a `name` key, a URI with too few `/`, and a missing configuration key.

Extension records are scanned to the end, as the code does. A record with no `name` raises even after `resource-graph` was seen.

Modules:

- `Wrappers` (wrappers.dfy): the `Option` and `Result` types.
- `Commands` (commands.dfy): the five builders, `Build` (which dispatches on a `Request`), and `Parse`, a reading of a token list position by position. The builders have no `ensures` of their own. They are pinned down by the two round-trip lemmas.
- `Authority` (authority.dfy): `Split`, a model of Python's `str.split` with a one-character separator, and `TenantId`.
- `Engine` (engine.dfy): the class `CliEngine`, standing in for `get_default_cli()`.
  - Its field `log` is an append-only sequence of invocations. Each invocation is a token list plus the output sink named at the call site.
  - Its constant `failing` holds the numbers of the invocations that fail. This is the failure oracle that stands for everything the real CLI may do wrong.
  - `Invoke` records the request and reports whether it failed. A failed invocation is still in the log: the request was made.
- `Runner` (runner.dfy):
  - The extension scan loop, `ScanExtensions`.
  - The reference functions `BatchRun`, `PreconditionRun`, `AuthRun`, `SessionRun` and `CommandsRun`. Given the inputs and the oracle, they give the entries appended to the log and the run's `Outcome`.
  - The methods `ExecuteBatch`, `Execute` and their stages. They change the engine and are each proved to append exactly their reference function's log and to return its outcome.
- `RunnerProperties` (properties.dfy): the properties of runs, proved about `BatchRun`.

## Logout on failure

A login/logout bracket is expected to log out even when a command inside it fails. The code has no `try`/`finally` around the command loop (chaosazure/cli/runner.py:62-66). A failing command therefore skips the rest of the batch, and it also skips the logout. This model follows the code:

- `RunnerProperties.LogoutOnlyAtTheEnd` shows that a logout is issued only when the run got to it.
- `RunnerProperties.CommandFailureSkipsLogout` states the gap for any failing batch command.
- `RunnerProperties.FirstCommandFailureLeavesSessionOpen` states it for a concrete run.

## Model

| member | source | states |
|---|---|---|
| Commands.ParseOfBuild | chaosazure/cli/runner.py:80-98 | every builder's token list reads back, position by position, as the request it builds: the fixed tokens are there and the arguments sit at their positions (subscription at 3; principal, secret and tenant at 3, 5 and 7) |
| Commands.BuildOfParse | chaosazure/cli/runner.py:80-98 | every token list read as a request is exactly that request's builder output, so each builder returns one fixed literal list |
| Authority.Split | chaosazure/cli/runner.py:53 | `split('/')` gives at least one piece, no piece holds the separator, and joining the pieces with the separator gives back the string |
| Authority.SplitCount | chaosazure/cli/runner.py:53 | there is one piece more than there are separators |
| Authority.SplitUnique | chaosazure/cli/runner.py:53 | any separator-free list of pieces that joins to the string is its split |
| Authority.SplitLeadingPiece | chaosazure/cli/runner.py:53 | a separator-free leading piece followed by a separator is the first piece, and the rest is the split of the remainder |
| Authority.TenantId | chaosazure/cli/runner.py:53 | the tenant id holds no `/` |
| Authority.TenantIdDefined | chaosazure/cli/runner.py:53 | the tenant id exists (no IndexError) exactly when the URI holds at least three `/`, that is, at least four pieces |
| Authority.TenantOfShape | chaosazure/cli/runner.py:53 | for `a/b/c/t` followed by nothing or by a `/`-led remainder, with slash-free `a`, `b`, `c`, `t`, the tenant id is `t` |
| Authority.TenantIdExample | chaosazure/cli/runner.py:53 | `https://login.example.com/TENANT123/oauth2` gives `TENANT123` |
| Engine.CliEngine.Invoke | chaosazure/cli/runner.py:39-66 | each `invoke` appends its command and sink to the log and leaves the earlier entries unchanged; it fails exactly when its number is a failing one |
| Runner.ScanMeaning | chaosazure/cli/runner.py:36-43 | after `i` records: the scan fails exactly when a record has no name, and then at the first such record; otherwise the flag is true exactly when some record is named `resource-graph` |
| Runner.ScanFlagStaysSet | chaosazure/cli/runner.py:41-43 | once the flag is true, it is still true at every later point where the scan has not failed |
| Runner.ScanErrorSticks | chaosazure/cli/runner.py:41-42 | a KeyError on a record with no name ends the scan at that record |
| Runner.ScanExtensions | chaosazure/cli/runner.py:36-43 | the loop returns either the first record without a name, all earlier ones named, or, when all are named, the flag, true exactly when some record is named `resource-graph` |
| Runner.FirstFailureMeaning | chaosazure/cli/runner.py:62-63 | the loop stops at the first failing invocation among consecutive numbers, and all earlier ones succeeded; it runs to the end exactly when none of them fails |
| Runner.EnsureResourceGraph | chaosazure/cli/runner.py:36-48 | the extension check appends the listing into the private buffer and, only when the scan found no `resource-graph`, the install; it stops at the first failure, as `PreconditionRun` says |
| Runner.RunAuthenticated | chaosazure/cli/runner.py:50-66 | with a tenant and a subscription id, the session runs; otherwise the run stops with IndexError or KeyError and nothing is invoked, as `AuthRun` says |
| Runner.RunSession | chaosazure/cli/runner.py:56-66 | appends login, subscription, the batch and logout, stopping right after the first failing invocation, as `SessionRun` says |
| Runner.RunCommands | chaosazure/cli/runner.py:62-63 | appends the commands in order, each into the caller's `file`, up to and including the first failing one, as `CommandsRun` says |
| Runner.ExecuteBatch | chaosazure/cli/runner.py:34-66 | appends to the engine log exactly the reference run `BatchRun`'s entries, and returns its outcome |
| Runner.Execute | chaosazure/cli/runner.py:28-31 | appends the same entries, and returns the same outcome, as a batch of the one command |
| RunnerProperties.CommandsRunShape | chaosazure/cli/runner.py:62-63 | the command loop invokes a prefix of the batch, in order, into `file`; a failed loop names its last command; a completed loop ran every command |
| RunnerProperties.CommandsRunEnding | chaosazure/cli/runner.py:62-63 | in the command loop the only failing invocation is the last one, and it is there exactly when the loop failed |
| RunnerProperties.SessionRunShape | chaosazure/cli/runner.py:56-66 | the session's positions: login at 0, subscription at 1, commands from 2, logout at `n + 2`; a failed session names the step of its last entry; a completed one has all `n + 3` entries |
| RunnerProperties.SessionRunEnding | chaosazure/cli/runner.py:56-66 | in the session the only failing invocation is the last one, and it is there exactly when the session failed |
| RunnerProperties.PreconditionRunShape | chaosazure/cli/runner.py:36-48 | the listing comes first; a second entry, the install, exists exactly when the listing succeeded and the scan found no `resource-graph`; the check completes exactly when no failure or KeyError happened |
| RunnerProperties.PreconditionRunEnding | chaosazure/cli/runner.py:36-48 | in the extension check the only failing invocation is the last one, and it is there exactly when the check ended by an engine failure |
| RunnerProperties.BatchRunEntersSession | chaosazure/cli/runner.py:34-66 | after a completed extension check and both lookups, a run is the check's entries followed by the session's |
| RunnerProperties.BatchRunStopsBeforeSession | chaosazure/cli/runner.py:36-54 | if the check fails or a lookup raises, the run's log is the check's alone and the run has failed |
| RunnerProperties.RunLayout | chaosazure/cli/runner.py:37-66 | every log entry by position, with `s` the number of extension-check entries (1, or 2 when the install is issued): the listing at 0, the install at 1 when issued, the login at `s`, the subscription at `s + 1`, batch command `k` at `s + 2 + k`, and the logout at `s + 2 + n` |
| RunnerProperties.StopsAtFirstFailure | chaosazure/cli/runner.py:37-66 | the only failing invocation in a run's log is its last entry, and there is one exactly when the run ended by an engine failure at the step that position names; nothing after a failure is invoked; a completed run has all `s + n + 3` entries |
| RunnerProperties.CompletedRunLog | chaosazure/cli/runner.py:37-66 | when nothing fails, the log is exactly: `extension list` into the buffer, `extension add --name resource-graph` only if absent, the login tokens, `account set --subscription <id>`, the N commands in their order into `file`, and `logout`; the run completes |
| RunnerProperties.CompletionMeansNothingFailed | chaosazure/cli/runner.py:37-66 | a completed run had a successful scan, a tenant and a subscription id, and no failing invocation |
| RunnerProperties.SubscriptionLookup | chaosazure/cli/runner.py:54-60 | after a completed extension check and a found tenant, the run raises KeyError exactly when `configuration` lacks `azure` or `azure` lacks `subscription_id`, and then invokes nothing more; otherwise the login is issued and the next entry, if any, is `account set --subscription` with `configuration['azure']['subscription_id']` |
| RunnerProperties.InstallIssuedIffAbsent | chaosazure/cli/runner.py:46-48 | the install is in the log exactly when the listing succeeded and no record is named `resource-graph`; it appears only at position 1, after the listing and before the login |
| RunnerProperties.SinkDiscipline | chaosazure/cli/runner.py:39-66 | only the listing writes into the private buffer, and only batch commands write into the caller's `file`; every other invocation names no sink |
| RunnerProperties.LogoutOnlyAtTheEnd | chaosazure/cli/runner.py:62-66 | a logout is in the log exactly when the run completed or the logout itself failed |
| RunnerProperties.CommandFailureSkipsLogout | chaosazure/cli/runner.py:62-66 | when batch command `j` fails, the log ends with that command and has no logout |
| RunnerProperties.FirstCommandFailureLeavesSessionOpen | chaosazure/cli/runner.py:56-66 | with `resource-graph` already listed and invocation 3 (the first batch command) failing, the run fails at command 0 after four invocations and never logs out |

## Left out

- `ExecutorBatchAsync` and `execute_batch_async` (chaosazure/cli/runner.py:14-25, 69-74) are left out. They are a thread and a `time.sleep`, that is, concurrency and wall-clock delay. The delayed run calls `execute_batch` with the same configuration, secrets and commands and no `file`. That run is `ExecuteBatch` with `NoFile`.
- The real Azure CLI behind `get_default_cli().invoke` is not modelled. It is `CliEngine`, with a fixed set of failing invocation numbers.
  - A failure is taken to raise out of `invoke` and end the run.
  - A failure the CLI reports only through its return value, which the code ignores, is not distinguished.
- The output of the extension listing, and the `io.StringIO` and `json.loads` that carry it, are not modelled. That output is an input: a sequence of records whose `name` is present or absent.
  - Records that are not dictionaries are not modelled.
  - JSON that does not parse is not modelled.
- What the commands print into `file` or the buffer is not modelled. A sink is only recorded.
- The `auth(secrets)` context manager is not modelled. The credential `(id, secret, auth_uri)` it yields is plain input, and its own failures are not modelled.
- A `configuration` of `None` is not modelled: the configuration is always a dictionary of dictionaries of strings.
- Logging through `logzero` is left out. It has no effect on the run.
- `execute`'s default `command=None` (chaosazure/cli/runner.py:29) is not modelled. It would pass `None` to `invoke`, and a `Command` here is always a list of strings.
