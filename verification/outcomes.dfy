/** Failure-compatible wrappers and the errors the worker generator raises. */
module Outcomes {

  /** An optional value; `None` stands for JavaScript's `undefined`. */
  datatype Option<+T> = None | Some(value: T)

  /** A value or the error that aborted the computation; usable with `:-`. */
  datatype Result<+T, +E> = Success(value: T) | Failure(error: E) {

    predicate IsFailure() {
      Failure?
    }

    function PropagateFailure<U>(): Result<U, E>
      requires Failure?
    {
      Failure(error)
    }

    function Extract(): T
      requires Success?
    {
      value
    }
  }

  /** The ways generating a worker pool can fail. */
  datatype Error =
    /** The constructor was given no template (or a falsy one). */
    | MissingTemplate
    /** The options carry no `Name`, or an empty one. */
    | MissingName
    /** JavaScript would throw a `TypeError`: a property of `undefined` or
        `null` was read, a property was set on a primitive, or a value that is
        not the expected kind (a string, an array) was used as one. */
    | TypeError
    /** JavaScript would attach a named property to an array, or leave
        holes in it by writing beyond its end, which a JSON document cannot
        represent. */
    | Unrepresentable
}
