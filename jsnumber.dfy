/**
 * JavaScript numbers as far as the metrics need them. Sums and products of
 * finite values are exact reals here (rounding error is not modelled); what is
 * modelled is the behaviour of unguarded divisions: dividing by zero yields
 * Infinity, -Infinity or NaN, and those values flow on through `*`, `+`, `-`,
 * comparisons, `Math.max`, `Math.min` and `Math.round` as ECMAScript says.
 */
module JsNumber {

  datatype Num = Finite(v: real) | PosInf | NegInf | NaN

  /** `a / b` for finite operands (signed zero is not modelled: a zero divisor is +0). */
  function Div(a: real, b: real): (r: Num)
    ensures b != 0.0 <==> r.Finite?
    ensures r.Finite? ==> r.v * b == a
  {
    if b != 0.0 then Finite(a / b)
    else if a > 0.0 then PosInf
    else if a < 0.0 then NegInf
    else NaN
  }

  /** `n * k` for a positive finite constant `k`. */
  function Times(n: Num, k: real): (r: Num)
    requires k > 0.0
    ensures r.Finite? <==> n.Finite?
  {
    match n
    case Finite(v) => Finite(v * k)
    case _ => n
  }

  /** `n - c` for a finite `c`: infinities and NaN stay as they are. */
  function MinusConst(n: Num, c: real): (r: Num)
    ensures r.Finite? <==> n.Finite?
    ensures r.Finite? ==> r.v + c == n.v
    ensures !n.Finite? ==> r == n
  {
    match n
    case Finite(v) => Finite(v - c)
    case _ => n
  }

  /** `n / k` for a positive finite divisor `k`. */
  function DivPositive(n: Num, k: real): (r: Num)
    requires k > 0.0
    ensures r.Finite? <==> n.Finite?
    ensures r.Finite? ==> r.v * k == n.v
    ensures !n.Finite? ==> r == n
  {
    match n
    case Finite(v) => Finite(v / k)
    case _ => n
  }

  /** `a + b`. */
  function Plus(a: Num, b: Num): (r: Num)
    ensures a.NaN? || b.NaN? ==> r.NaN?
    ensures a.Finite? && b.Finite? ==> r == Finite(a.v + b.v)
  {
    match (a, b)
    case (Finite(x), Finite(y)) => Finite(x + y)
    case (NaN, _) => NaN
    case (_, NaN) => NaN
    case (PosInf, NegInf) => NaN
    case (NegInf, PosInf) => NaN
    case (PosInf, _) => PosInf
    case (_, PosInf) => PosInf
    case (NegInf, _) => NegInf
    case (_, NegInf) => NegInf
  }

  /** `n > c` for a finite `c`: false whenever `n` is NaN. */
  predicate Greater(n: Num, c: real)
  {
    match n
    case Finite(v) => v > c
    case PosInf => true
    case NegInf => false
    case NaN => false
  }

  /** `c < n` for a finite `c`: false whenever `n` is NaN. */
  predicate Less(c: real, n: Num)
  {
    Greater(n, c)
  }

  /** `Math.max(n, c)`: NaN if `n` is NaN. */
  function Max(n: Num, c: real): (r: Num)
    ensures n.NaN? <==> r.NaN?
    ensures !r.NaN? ==> r != NegInf
  {
    match n
    case Finite(v) => Finite(if v > c then v else c)
    case PosInf => PosInf
    case NegInf => Finite(c)
    case NaN => NaN
  }

  /** `Math.min(n, c)`: NaN if `n` is NaN. */
  function Min(n: Num, c: real): (r: Num)
    ensures n.NaN? <==> r.NaN?
    ensures !r.NaN? ==> r != PosInf
  {
    match n
    case Finite(v) => Finite(if v < c then v else c)
    case PosInf => Finite(c)
    case NegInf => NegInf
    case NaN => NaN
  }

  /** `Math.round(x)` for a finite `x`: the nearest integer, halves rounded up. */
  function RoundReal(x: real): (k: int)
    ensures x - 0.5 < k as real <= x + 0.5
  {
    (x + 0.5).Floor
  }

  /** `Math.round(n)`: non-finite values are returned unchanged. */
  function Round(n: Num): (r: Num)
    ensures n.Finite? <==> r.Finite?
    ensures n.Finite? ==> r.v == RoundReal(n.v) as real
  {
    match n
    case Finite(v) => Finite(RoundReal(v) as real)
    case _ => n
  }
}
