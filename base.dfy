/** Option and Result: the two failure-carrying value types used throughout the model. */
module Base {

  datatype Option<+T> = None | Some(value: T)

  /** The outcome of an operation that either produces a value or raises an exception. */
  datatype Result<+T, +E> = Ok(value: T) | Err(error: E) {
    predicate IsFailure() { Err? }

    function PropagateFailure<U>(): Result<U, E>
      requires Err?
    {
      Err(error)
    }

    function Extract(): T
      requires Ok?
    {
      value
    }
  }

  /** Python's `xs[-1]`, for a list known to be non-empty. */
  function Last<T>(xs: seq<T>): T
    requires |xs| > 0
  {
    xs[|xs| - 1]
  }

  /** Python's `xs[1:]`, which is empty for an empty list instead of failing. */
  function DropFirst<T>(xs: seq<T>): (r: seq<T>)
    ensures |xs| > 0 ==> r == xs[1..]
    ensures |xs| == 0 ==> r == []
  {
    if |xs| == 0 then [] else xs[1..]
  }
}
