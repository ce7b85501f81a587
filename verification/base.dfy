/** Option and Result values and the first-occurrence search shared by
    every module of the model. */
module Base {

  /** A value that may be absent: Ruby's `nil` versus a present value. */
  datatype Option<+T> = None | Some(value: T)

  /** The outcome of a step that can abort the whole run with an error. */
  datatype Result<+T, +E> = Ok(value: T) | Err(error: E)

  /** `i` is the first position of `x` in `s`. */
  predicate FirstAt<T(==)>(s: seq<T>, x: T, i: int)
  {
    0 <= i < |s| && s[i] == x && forall j :: 0 <= j < i ==> s[j] != x
  }

  /** The first position of `x` in `s`, the search Ruby's `detect` performs
      with an equality block. */
  function IndexOf<T(==)>(s: seq<T>, x: T): (r: Option<nat>)
    ensures r.None? ==> x !in s
    ensures r.Some? ==> FirstAt(s, x, r.value)
    decreases |s|
  {
    if |s| == 0 then None
    else if s[0] == x then Some(0)
    else match IndexOf(s[1..], x)
      case None => None
      case Some(i) => Some(i + 1)
  }

  /** The first position is unique, so it is the one the search finds. */
  lemma IndexOfFirst<T>(s: seq<T>, x: T, i: int)
    requires FirstAt(s, x, i)
    ensures IndexOf(s, x) == Some(i)
  {
  }
}
