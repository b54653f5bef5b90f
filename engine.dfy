/**
 * The Azure CLI engine (`get_default_cli().invoke`) seen from the runner: an
 * object that records, in order, every command line it is asked to run
 * together with the output destination named at the call site, and that may
 * fail on any invocation. Which invocations fail is fixed when the engine is
 * created and stands for everything the real CLI might do wrong.
 */
module Engine {
  import opened Commands

  /** The `file` argument of `execute_batch`: Python's `None`, or some open file. */
  datatype FileArg = NoFile | OpenFile(handle: nat)

  /** The output destination a call site passes to `invoke`. */
  datatype Sink =
    | DefaultOutput            // no `out_file` argument at all
    | PrivateBuffer            // the runner's own `io.StringIO` capture
    | CallerFile(file: FileArg) // `out_file=file`, the caller's argument

  /** One entry of the engine's log. */
  datatype Invocation = Invocation(command: Command, sink: Sink)

  class CliEngine {
    /** Every invocation requested so far, oldest first; it only grows. */
    var log: seq<Invocation>
    /** The numbers (0-based positions in `log`) of the invocations that fail. */
    const failing: set<nat>

    constructor (failing: set<nat>)
      ensures log == [] && this.failing == failing
    {
      log := [];
      this.failing := failing;
    }

    /**
     * Runs one command. The request is recorded whether or not it fails;
     * `ok` is false when this invocation's number is one of the failing ones.
     */
    method Invoke(command: Command, sink: Sink) returns (ok: bool)
      modifies this
      ensures log == old(log) + [Invocation(command, sink)]
      ensures ok <==> |old(log)| !in failing
    {
      ok := |log| !in failing;
      log := log + [Invocation(command, sink)];
    }
  }
}
