/** Python's evaluation results as values: an optional value (`None` or a
    value), and the outcome of running a piece of Python code, which either
    returns a value or lets an exception propagate to its caller. */
module Py {

  datatype Option<+T> = None | Some(value: T)

  /** The built-in exceptions that the modelled code raises or catches.
      `JSONDecodeError` is a subclass of `ValueError` in Python; the source
      only ever catches the former, so the two are kept apart here. */
  datatype Exception =
    | KeyError(key: string)
    | IndexError
    | TypeError
    | ValueError
    | JSONDecodeError
    | AttributeError

  /** Either the value an expression returned, or the exception it raised. */
  datatype Outcome<+T> = Returned(value: T) | Raised(error: Exception) {

    predicate IsFailure() {
      Raised?
    }

    function PropagateFailure<U>(): Outcome<U>
      requires Raised?
    {
      Raised(error)
    }

    function Extract(): T
      requires Returned?
    {
      value
    }
  }

  function Last<T>(s: seq<T>): T
    requires |s| > 0
  {
    s[|s| - 1]
  }

  /** Python's `lst.insert(i, x)` for an index inside the list or one past its end. */
  function Insert<T>(s: seq<T>, i: nat, x: T): (r: seq<T>)
    requires i <= |s|
    ensures |r| == |s| + 1
    ensures r[i] == x
    ensures forall k :: 0 <= k < i ==> r[k] == s[k]
    ensures forall k :: i <= k < |s| ==> r[k + 1] == s[k]
  {
    s[..i] + [x] + s[i..]
  }
}
