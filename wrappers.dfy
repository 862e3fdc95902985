/** Small value types shared by every module of the model. */
module Wrappers {

  datatype Option<+T> = None | Some(value: T)

  datatype Result<+R, +E> = Success(value: R) | Failure(error: E)

  /** A JavaScript number as the model sees it: a finite value, or one of
      Infinity, -Infinity and NaN, which the model does not tell apart. */
  datatype Num = Finite(value: real) | NonFinite

  /** JavaScript's `a / b`: a finite quotient when `b` is non-zero, and
      Infinity, -Infinity or NaN when it is zero. */
  function Div(a: real, b: real): (q: Num)
    ensures q.Finite? <==> b != 0.0
    ensures q.Finite? ==> q.value * b == a
  {
    if b == 0.0 then NonFinite else Finite(a / b)
  }

  /** JavaScript's `a * b` where `b` may already be non-finite. */
  function MulNum(a: real, b: Num): (p: Num)
    ensures b.Finite? <==> p.Finite?
    ensures b.Finite? ==> p.value == a * b.value
  {
    match b
    case Finite(v) => Finite(a * v)
    case NonFinite => NonFinite
  }

  /** The strings of `parts` joined with `sep` between consecutive parts,
      as JavaScript's `Array.prototype.join`. */
  function Join(parts: seq<string>, sep: string): (s: string)
    ensures parts == [] ==> s == ""
    ensures |parts| == 1 ==> s == parts[0]
  {
    if parts == [] then ""
    else if |parts| == 1 then parts[0]
    else Join(parts[..|parts| - 1], sep) + sep + parts[|parts| - 1]
  }
}
