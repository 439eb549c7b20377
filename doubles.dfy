/**
 * Java `double` values as the indicator arrays hold them: a real number, or
 * `Double.NaN`, written `None`. IEEE comparisons involving NaN are false and
 * NaN propagates through arithmetic; these functions say so once.
 */
module Doubles {
  import opened Wrappers

  type Double = Option<real>

  function Abs(x: real): real { if x < 0.0 then -x else x }
  function Min(a: int, b: int): int { if a < b then a else b }
  function Max(a: int, b: int): int { if a < b then b else a }
  function MinReal(a: real, b: real): real { if a < b then a else b }
  function MaxReal(a: real, b: real): real { if a < b then b else a }

  /** `x < c`: false when `x` is NaN. */
  predicate Below(x: Double, c: real) { x.Some? && x.value < c }
  /** `x > c`: false when `x` is NaN. */
  predicate Above(x: Double, c: real) { x.Some? && x.value > c }
  /** `x < y`: false when either is NaN. */
  predicate Less(x: Double, y: Double) { x.Some? && y.Some? && x.value < y.value }

  function Plus(x: Double, y: Double): Double {
    if x.Some? && y.Some? then Some(x.value + y.value) else None
  }
  function Minus(x: Double, y: Double): Double {
    if x.Some? && y.Some? then Some(x.value - y.value) else None
  }
  function DivBy(x: Double, d: real): Double
    requires d != 0.0
  {
    if x.Some? then Some(x.value / d) else None
  }

  /** A `double` that may be infinite: the result of a division whose divisor may be zero. */
  datatype Extended = Finite(v: real) | PosInf | NegInf | NaN

  /** `num / den` in double arithmetic; a NaN divisor (a missing indicator value) gives NaN. */
  function Quotient(num: real, den: Double): Extended {
    if den.None? then NaN
    else if den.value != 0.0 then Finite(num / den.value)
    else if num > 0.0 then PosInf
    else if num < 0.0 then NegInf
    else NaN
  }

  /** `a - b`: opposite infinities give an infinity, equal ones NaN. */
  function Difference(a: Extended, b: Extended): Extended {
    match (a, b)
    case (NaN, _) => NaN
    case (_, NaN) => NaN
    case (Finite(x), Finite(y)) => Finite(x - y)
    case (PosInf, PosInf) => NaN
    case (NegInf, NegInf) => NaN
    case (PosInf, _) => PosInf
    case (NegInf, _) => NegInf
    case (_, PosInf) => NegInf
    case (_, NegInf) => PosInf
  }

  /** `Math.abs(a) > c`: an infinity exceeds every bound, NaN none. */
  predicate AbsAbove(a: Extended, c: real) {
    match a
    case Finite(x) => Abs(x) > c
    case PosInf => true
    case NegInf => true
    case NaN => false
  }

  /** `a < b` on non-NaN values. */
  predicate LessExt(a: Extended, b: Extended) {
    match (a, b)
    case (Finite(x), Finite(y)) => x < y
    case (NegInf, Finite(_)) => true
    case (NegInf, PosInf) => true
    case (Finite(_), PosInf) => true
    case _ => false
  }

  /** `a * k` for a positive constant `k`. */
  function Scale(a: Extended, k: real): Extended
    requires k > 0.0
  {
    if a.Finite? then Finite(a.v * k) else a
  }

  /** `a >= 0`: true for +infinity, false for NaN. */
  predicate NotNegative(a: Extended) {
    a.PosInf? || (a.Finite? && a.v >= 0.0)
  }

  /** `Math.max(a, b)`: NaN if either is NaN, otherwise the larger. */
  function MaxExt(a: Extended, b: Extended): Extended {
    if a.NaN? || b.NaN? then NaN else if LessExt(a, b) then b else a
  }

  /** The sign of a product of two signed factors. */
  lemma ProductSign(a: real, b: real)
    ensures a >= 0.0 && b >= 0.0 ==> a * b >= 0.0
    ensures a > 0.0 && b > 0.0 ==> a * b > 0.0
  {
  }

  /** A non-negative `t` of at most `p * m` gives a quotient `t / p` in [0, m]. */
  lemma QuotientBounds(t: real, p: real, m: real)
    requires p > 0.0 && 0.0 <= t <= p * m
    ensures 0.0 <= t / p <= m
  {
    var q := t / p;
    assert q * p == t;
    ProductSign(-q, p);
    assert (-q) * p == -t;
    ProductSign(q - m, p);
    assert (q - m) * p == t - p * m;
  }

  /** Sum of `s[lo..hi]`, accumulated left to right as the Java loops do. */
  function Sum(s: seq<real>, lo: int, hi: int): real
    requires 0 <= lo <= hi <= |s|
    decreases hi - lo
  {
    if lo == hi then 0.0 else Sum(s, lo, hi - 1) + s[hi - 1]
  }

  /** Sum of `s[lo..hi]` in double arithmetic: NaN as soon as one term is NaN. */
  function WindowSum(s: seq<Double>, lo: int, hi: int): Double
    requires 0 <= lo <= hi <= |s|
    decreases hi - lo
  {
    if lo == hi then Some(0.0) else Plus(WindowSum(s, lo, hi - 1), s[hi - 1])
  }

  /** A series of plain numbers seen as doubles. */
  function Lift(s: seq<real>): (r: seq<Double>)
    ensures |r| == |s| && forall i :: 0 <= i < |s| ==> r[i] == Some(s[i])
  {
    seq(|s|, i requires 0 <= i < |s| => Some(s[i]))
  }

  /** A window of plain numbers never sums to NaN, and sums to their real sum. */
  lemma {:induction false} WindowSumLift(s: seq<real>, lo: int, hi: int)
    requires 0 <= lo <= hi <= |s|
    ensures WindowSum(Lift(s), lo, hi) == Some(Sum(s, lo, hi))
    decreases hi - lo
  {
    if lo < hi {
      WindowSumLift(s, lo, hi - 1);
    }
  }

  /** A double sum is defined exactly when every term is. */
  lemma {:induction false} WindowSumDefined(s: seq<Double>, lo: int, hi: int)
    requires 0 <= lo <= hi <= |s|
    ensures WindowSum(s, lo, hi).Some? <==> forall k :: lo <= k < hi ==> s[k].Some?
    decreases hi - lo
  {
    if lo < hi {
      WindowSumDefined(s, lo, hi - 1);
    }
  }
}
