// Option and Result: the model's stand-ins for Python's None and for an
// operation that either returns a value or raises an exception.
module Wrappers {
  datatype Option<T> = None | Some(value: T)

  /** `Err` carries the message the Python code would raise with. */
  datatype Result<T> = Ok(value: T) | Err(error: string)
  {
    predicate IsFailure() { Err? }
    function PropagateFailure<U>(): Result<U> requires Err? { Err(error) }
    function Extract(): T requires Ok? { value }
  }

  function OptionOr<T>(o: Option<T>, default: T): (r: T)
    ensures o.Some? ==> r == o.value
    ensures o.None? ==> r == default
  {
    if o.Some? then o.value else default
  }
}
