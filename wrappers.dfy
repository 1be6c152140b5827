/** Failure-compatible wrappers used throughout the model: a Python value that may
    be `None`, and a call that either returns or raises. */
module Wrappers {

  datatype Option<+T> = None | Some(value: T) {
    predicate IsFailure() { None? }

    function PropagateFailure<U>(): Option<U>
      requires None?
    {
      None
    }

    function Extract(): T
      requires Some?
    {
      value
    }

    function GetOr(default: T): T {
      match this
      case Some(v) => v
      case None => default
    }
  }

  datatype Result<+R, +E> = Success(value: R) | Failure(error: E) {
    predicate IsFailure() { Failure? }

    function PropagateFailure<U>(): Result<U, E>
      requires Failure?
    {
      Failure(error)
    }

    function Extract(): R
      requires Success?
    {
      value
    }
  }

  /** A call that returns nothing but may raise. */
  datatype Outcome<+E> = Pass | Fail(error: E) {
    predicate IsFailure() { Fail? }

    function PropagateFailure<U>(): Result<U, E>
      requires Fail?
    {
      Failure(error)
    }
  }
}

/** The Python exceptions the core raises, with their messages. */
module Exceptions {

  datatype Error =
    | UserError(message: string)
    | ValueError(message: string)
    | RuntimeError(message: string)
    | NotImplementedError(message: string)
    | AssertionError(message: string)
    | UnexpectedModelBehavior(message: string)
    | GraphRuntimeError(message: string)
    | IndexError(message: string)
      /** A local variable read before any assignment bound it. */
    | UnboundLocalError(variable: string)
}
