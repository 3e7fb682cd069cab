/** Option and Result types shared by every module of the model.
    A Python exception raised by the workbench becomes an `Err` whose
    `Error` keeps the exception class: the property constructors catch
    `ValueError` only, so the class of an error decides what happens next. */
module Wrappers {

  datatype Option<+T> = None | Some(value: T)

  /** An attribute set from the keyword argument that was passed, or else
      to its default (the `if not hasattr(self, ...)` chains). */
  function OrElse<T>(given: Option<T>, default: T): T
  {
    if given.Some? then given.value else default
  }

  datatype Error =
    | ValueError(msg: string)
    | IndexError
    | AttributeError
    | ZeroDivisionError
    | TypeError
    | KeyError(key: string)

  datatype Result<+T> = Ok(value: T) | Err(error: Error) {
    predicate IsFailure() { Err? }

    function PropagateFailure<U>(): Result<U>
      requires Err?
    {
      Err(error)
    }

    function Extract(): T
      requires Ok?
    {
      value
    }
  }

  /** True when `e` is the Python `ValueError` carrying message `m`. */
  predicate IsValueError<T>(r: Result<T>, m: string) {
    r.Err? && r.error == ValueError(m)
  }
}
