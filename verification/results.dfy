/** Failure-carrying wrappers used throughout the model: where the command-line
    tool prints a message and exits, the model returns a `Failure` or `None`. */
module Results {

  datatype Option<+T> = None | Some(value: T)

  datatype Result<+T, +E> = Success(value: T) | Failure(error: E)

  /** The outcome of a check that has nothing to return when it passes
      (the tool's validators return `true` or a message). */
  datatype Check<+E> = Pass | Fail(reason: E)
}
