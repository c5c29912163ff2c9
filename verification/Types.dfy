/** The plain values every component shares: statuses, inference results, requests. */
module Types {

  datatype Option<+T> = None | Some(value: T)

  /** A `Status` of the runtime is its error code; `NoError` is success. */
  datatype ErrorCode =
    | NoError
    | InvalidStateTransition
    | QueueFull
    | QueueClosed
    | ModelNotFound
    | ModelLoadFailed
    | InferenceFailed
    | RuntimeStopped
    | InternalError
    | InsufficientMemory
    | NoFeasibleWorker
    | Cancelled
    | TimedOut
    | ContextLengthExceeded

  datatype InferenceOutput = InferenceOutput(text: string, outputTokens: nat)

  /** A default-constructed result is `InferenceResult(NoError, None)`: ok, but with no output. */
  datatype InferenceResult = InferenceResult(status: ErrorCode, output: Option<InferenceOutput>) {
    predicate Ok() { status == NoError }
  }

  const UNASSIGNED := InferenceResult(NoError, None)

  function Success(text: string, tokens: nat): InferenceResult {
    InferenceResult(NoError, Some(InferenceOutput(text, tokens)))
  }

  function Failure(code: ErrorCode): InferenceResult {
    InferenceResult(code, None)
  }

  /** The order `operator<` gives on model ids. */
  predicate StringLess(a: string, b: string) {
    if a == "" then b != ""
    else b != "" && (a[0] < b[0] || (a[0] == b[0] && StringLess(a[1..], b[1..])))
  }
}
