/** Failure-carrying values shared by every module: the Kotlin code signals
    absence with `null` and failure with exceptions; the model returns these. */
module Results {

  datatype Option<+T> = None | Some(value: T)

  /** The exceptions the modelled code throws, catches or wraps. */
  datatype Error =
    | IllegalState(message: string, cause: Option<Error>)
    | IllegalArgument(message: string)
    | NoSuchElement(message: string)
    /** An exception raised inside a call to the process engine (publish, topology, job completion). */
    | EngineFailure(message: string)
    /** An exception raised by the relational store while saving. */
    | StoreFailure(message: string)

  /** A value, or the exception that replaced it. */
  datatype Result<+T> = Success(value: T) | Failure(error: Error)

  /** Normal completion of a `Unit` function, or the exception it threw. */
  datatype Outcome = Pass | Fail(error: Error)
}
