/** The abstract service wrapper of src/services/base.py: a thread whose
    constructor runs the subclass's `setup()` and records whether it
    succeeded, and whose default `stop` clears `running` and joins the thread. */
module Services {
  import opened Strings
  import opened Ollama

  /** How the subclass's `setup()` ended: it returned a value of the given
      truthiness, or it raised an exception with the given text. */
  datatype SetupOutcome = Returned(truthy: bool) | Raised(detail: string)

  /** The log line written when `setup()` raises. */
  function SetupFailureLine(name: string, detail: string): (line: string)
    ensures StartsWith(line, "Failed to initialize ")
  {
    var rest := name + " service: " + detail;
    assert ("Failed to initialize " + rest)[..21] == "Failed to initialize ";
    "Failed to initialize " + rest
  }

  class BaseService {
    const name: string
    /** The Ollama client handed to the service, possibly none. */
    const ollama: OllamaClient?
    var initialized: bool
    var running: bool
    /** The value of `running` at each `join()` of the thread, in order. */
    ghost var joins: seq<bool>
    /** The error lines logged, in order. */
    ghost var errors: seq<string>

    /** `__init__`: the outcome of `setup()` decides `initialized`; an
        exception it raises is logged and never escapes. */
    constructor (name: string, ollama: OllamaClient?, setup: SetupOutcome)
      ensures this.name == name && this.ollama == ollama
      ensures initialized <==> setup == Returned(true)
      ensures running
      ensures joins == []
      ensures errors == (if setup.Raised? then [SetupFailureLine(name, setup.detail)] else [])
    {
      this.name := name;
      this.ollama := ollama;
      initialized := false;
      running := true;
      joins := [];
      errors := [];
      new;
      match setup
      case Returned(truthy) =>
        if truthy {
          initialized := true;
        }
      case Raised(detail) =>
        errors := errors + [SetupFailureLine(name, detail)];
    }

    /** The default `stop`: clear `running`, then join the thread. */
    method Stop()
      modifies this`running, this`joins
      ensures !running
      ensures joins == old(joins) + [false]
    {
      running := false;
      joins := joins + [running];
    }
  }
}
