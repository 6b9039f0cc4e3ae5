/**
 * The error classes (src/types/error-types.ts) as one tagged datatype, and
 * the error handler (src/services/error-service.ts).
 */
module Errors {
  /**
   * A thrown JavaScript error. The first five constructors are
   * `WorkerManagerError` and its four subclasses; `WranglerError` extends
   * `Error` directly; `ExitError` is what the CLI framework's
   * `command.error(message, {exit})` throws; `PlainError` is any other
   * `Error` (a `TypeError`, a `RangeError`, an I/O error, ...).
   */
  datatype Failure =
    | WorkerManagerError(message: string)
    | ConfigurationError(message: string)
    | WorkerCommandError(message: string)
    | FileOperationError(message: string)
    | ServiceBindingError(message: string)
    | WranglerError(message: string, code: int, command: string, args: seq<string>)
    | ExitError(message: string, exitCode: int)
    | PlainError(name: string, message: string)
  {
    /** `error instanceof WorkerManagerError`. */
    predicate IsWorkerManagerError() {
      WorkerManagerError? || ConfigurationError? || WorkerCommandError? ||
      FileOperationError? || ServiceBindingError?
    }

    /** The `name` property each class sets in its constructor. */
    function Name(): string {
      match this
      case WorkerManagerError(_) => "WorkerManagerError"
      case ConfigurationError(_) => "ConfigurationError"
      case WorkerCommandError(_) => "WorkerCommandError"
      case FileOperationError(_) => "FileOperationError"
      case ServiceBindingError(_) => "ServiceBindingError"
      case WranglerError(_, _, _, _) => "WranglerError"
      case ExitError(_, _) => "Error"
      case PlainError(n, _) => n
    }
  }

  /** What the handler hands to the CLI framework: an exiting error or a warning. */
  datatype Report = ErrorExit(message: string, code: int) | Warning(message: string)

  /**
   * `handleError(error, exit)`. The `WranglerError` test sits inside the
   * `WorkerManagerError` test, so it never succeeds: every error that
   * exits does so with code 1, and a `WranglerError` keeps its bare message.
   */
  function HandleError(e: Failure, exit: bool): (r: Report)
    ensures r.ErrorExit? <==> exit
    ensures r.ErrorExit? ==> r.code == 1
    ensures e.ConfigurationError? ==> r.message == "Configuration Error: " + e.message
    ensures e.WorkerCommandError? ==> r.message == "Worker Command Error: " + e.message
    ensures e.FileOperationError? ==> r.message == "File Operation Error: " + e.message
    ensures e.ServiceBindingError? ==> r.message == "Service Binding Error: " + e.message
    ensures e.WorkerManagerError? ==> r.message == "WorkerManagerError: " + e.message
    ensures !e.IsWorkerManagerError() ==> r.message == e.message
  {
    var (message, code) :=
      if e.IsWorkerManagerError() then
        if e.ConfigurationError? then ("Configuration Error: " + e.message, 1)
        else if e.WorkerCommandError? then ("Worker Command Error: " + e.message, 1)
        else if e.FileOperationError? then ("File Operation Error: " + e.message, 1)
        else if e.ServiceBindingError? then ("Service Binding Error: " + e.message, 1)
        else if e.WranglerError? then
          ("Wrangler Error: " + e.message, match e case WranglerError(_, c, _, _) => c case _ => 1)
        else (e.Name() + ": " + e.message, 1)
      else (e.message, 1);
    if exit then ErrorExit(message, code) else Warning(message)
  }

  /**
   * `handleError(e)` with `exit` true ends in `command.error`, which throws:
   * the error that continues to propagate.
   */
  function Raised(e: Failure): (r: Failure)
    ensures r.ExitError? && r.exitCode == 1
    ensures !r.IsWorkerManagerError()
    ensures r.message == HandleError(e, true).message
  {
    var report := HandleError(e, true);
    ExitError(report.message, report.code)
  }

  /**
   * A thrown value that is not an `Error` is wrapped as `new Error(String(x))`
   * before it is handled (abstract-command.ts): the wrapped error keeps its
   * text and is handled as a plain error.
   */
  function WrapThrown(text: string): (e: Failure)
    ensures !e.IsWorkerManagerError() && e.message == text
    ensures HandleError(e, true) == ErrorExit(text, 1)
  {
    PlainError("Error", text)
  }

  /** A wrangler failure is reported with its bare message and exit code 1, whatever its code. */
  lemma WranglerCodeIsNotPropagated(message: string, code: int, command: string, args: seq<string>)
    ensures HandleError(WranglerError(message, code, command, args), true) == ErrorExit(message, 1)
  {
  }
}
