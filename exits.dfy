/**
 * How a run of the reproduction pipeline ends: a return value, a `sys.exit`
 * with a category-specific code, or an exception nothing catches.
 */
module Exits {

  datatype Stage = Loading | Downloading | Configuring | Running

  /** The exceptions that escape `reproduce_command`. */
  datatype Uncaught =
    | AssertionFailed(stage: Stage)                       // an `assert isinstance(...)` of the stage
    | LookupEscaped(path: seq<string>)                    // a "not a mapping" error past `except KeyError`
    | NameError(name: string)                             // an undefined local name
    | ProcessFailed(argv: seq<string>, status: int)       // `subprocess.run(..., check=True)` on a non-zero status

  datatype Termination =
    | Returned(code: int)
    | Exited(code: int)
    | Raised(error: Uncaught)

  /** A stage either lets the pipeline go on or ends it. */
  datatype Step = Proceed | Stop(end: Termination)

  /** The process status: the interpreter exits with 1 on an uncaught exception. */
  function ExitStatus(t: Termination): int
  {
    match t
    case Returned(c) => c
    case Exited(c) => c
    case Raised(_) => 1
  }
}
