/** Option and Result, the two failure shapes the generated Rust code uses. */
module Wrappers {

  datatype Option<+T> = None | Some(value: T) {
    /** Rust's `unwrap_or`. */
    function UnwrapOr(default: T): T {
      match this
      case Some(v) => v
      case None => default
    }
  }

  /** A Rust panic, with the message it prints; the model returns it instead of unwinding. */
  datatype Panic = Panic(message: string)

  /** The panic of `Option::unwrap` on `None`. */
  const UnwrapNone: Panic := Panic("called `Option::unwrap()` on a `None` value")

  /** The panic of `Ident::new` on a string that is not an identifier. */
  const InvalidIdent: Panic := Panic("not a valid Ident")

  datatype Result<+T, +E> = Success(value: T) | Failure(error: E) {
    predicate IsFailure() {
      Failure?
    }

    function PropagateFailure<U>(): Result<U, E>
      requires Failure?
    {
      Failure(error)
    }

    function Extract(): T
      requires Success?
    {
      value
    }
  }
}
