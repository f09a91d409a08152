/** Outcomes shared by all components. */
module Wrappers {

  datatype Option<+T> = None | Some(value: T)

  /** A thrown exception is the error case. */
  datatype Result<+T, +E> = Ok(value: T) | Err(error: E)

  /** `xs` in front of a successful rest; an error stays the error. */
  function Prepend<T, E>(xs: seq<T>, r: Result<seq<T>, E>): Result<seq<T>, E> {
    match r
    case Ok(rest) => Ok(xs + rest)
    case error => error
  }

  lemma PrependTwice<T, E>(xs: seq<T>, ys: seq<T>, r: Result<seq<T>, E>)
    ensures Prepend(xs, Prepend(ys, r)) == Prepend(xs + ys, r)
    ensures Prepend([], r) == r
  {
    if r.Ok? {
      assert xs + (ys + r.value) == xs + ys + r.value;
      assert [] + r.value == r.value;
    }
  }
}
