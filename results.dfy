/** Kotlin's nullable values and the two-variant `kotlin.Result` that the repository hands back. */
module Results {

  /** A Kotlin `T?`: `None` stands for `null`. */
  datatype Option<+T> = None | Some(value: T)

  /**
   * The outcome of one repository call. A failure carries the thrown exception's
   * `message`, which Kotlin types as `String?`, so it may itself be absent.
   */
  datatype Result<+T> = Success(value: T) | Failure(reason: Option<string>)
}
