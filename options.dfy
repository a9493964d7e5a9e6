/** Nullable values and pass/fail results: Java's nullable references become `Option`, and
    operations that may throw a checked exception return an `Outcome`. */
module Options {

  /** A value that may be absent; `None` stands for Java's `null`. */
  datatype Option<+T> = None | Some(value: T)

  /** The result of an operation that either completes or fails with an error. */
  datatype Outcome<+E> = Pass | Fail(error: E)
}
