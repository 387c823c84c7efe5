/** float64 as far as the ranker depends on it: real numbers, plus the three outcomes that Go's
    floating-point division has when the divisor is zero, and the rounding used for cpu utilisation. */
module Floats {

  datatype Float = Finite(r: real) | PosInf | NegInf | NaN

  /** Go's `x / y` on float64 for finite operands and a non-negative zero. */
  function Divide(x: real, y: real): Float {
    if y != 0.0 then Finite(x / y)
    else if x > 0.0 then PosInf
    else if x < 0.0 then NegInf
    else NaN
  }

  /** Go's `a >= b` on float64: false as soon as one side is NaN. */
  predicate GreaterEq(a: Float, b: Float) {
    match (a, b)
    case (NaN, _) => false
    case (_, NaN) => false
    case (PosInf, _) => true
    case (_, NegInf) => true
    case (Finite(x), Finite(y)) => x >= y
    case _ => false
  }

  /** Go's `a > b` on float64. */
  predicate Greater(a: Float, b: Float) {
    GreaterEq(a, b) && a != b
  }

  /** math.Round: nearest integer, halves away from zero. */
  function RoundHalfAway(x: real): int {
    if x >= 0.0 then (x + 0.5).Floor else -((-x + 0.5).Floor)
  }

  /** The finite part of `round`: two decimals. */
  function RoundReal(u: real): real {
    RoundHalfAway(u * 100.0) as real / 100.0
  }

  /** `round` on float64: math.Round leaves NaN and the infinities alone. */
  function Round(f: Float): Float {
    match f
    case Finite(r) => Finite(RoundReal(r))
    case _ => f
  }

  // ----- rounding algebra

  lemma RoundHalfAwayInt(n: int)
    ensures RoundHalfAway(n as real) == n
  {
  }

  lemma RoundHalfAwayMonotone(x: real, y: real)
    requires x <= y
    ensures RoundHalfAway(x) <= RoundHalfAway(y)
  {
  }

  /** `round` is within 0.005 of its argument. */
  lemma RoundNear(u: real)
    ensures -0.005 <= RoundReal(u) - u <= 0.005
  {
  }

  lemma RoundMonotone(u: real, v: real)
    requires u <= v
    ensures RoundReal(u) <= RoundReal(v)
  {
    RoundHalfAwayMonotone(u * 100.0, v * 100.0);
  }

  lemma RoundOdd(u: real)
    ensures RoundReal(-u) == -RoundReal(u)
  {
  }

  /** Values that already have two decimals, in particular results of `round`, are fixed points. */
  lemma RoundFixesHundredths(n: int)
    ensures RoundReal(n as real / 100.0) == n as real / 100.0
  {
    assert n as real / 100.0 * 100.0 == n as real;
    RoundHalfAwayInt(n);
  }

  lemma RoundIdempotent(u: real)
    ensures RoundReal(RoundReal(u)) == RoundReal(u)
  {
    RoundFixesHundredths(RoundHalfAway(u * 100.0));
  }

  /** A rounded value that is at least another comes from an argument that is not smaller by 0.01 or more. */
  lemma RoundedOrderBoundsExact(u: real, v: real)
    requires RoundReal(u) >= RoundReal(v)
    ensures u > v - 0.01
  {
  }

  /** A number of hundredths. */
  function Hundredths(n: int): real {
    n as real / 100.0
  }

  function Abs(x: real): real {
    if x < 0.0 then -x else x
  }

  /** w has two decimals and is the nearest such number to u; of two equally near ones, the one away from zero. */
  ghost predicate IsRounded(u: real, w: real) {
    && (exists n: int :: w == Hundredths(n))
    && Abs(w - u) <= 0.005
    && (Abs(w - u) == 0.005 ==> Abs(w) > Abs(u))
  }

  /** Exactly one number satisfies this, and `round` finds it. */
  lemma RoundCharacterised(u: real, w: real)
    ensures w == RoundReal(u) <==> IsRounded(u, w)
  {
    var v := RoundReal(u);
    var m := RoundHalfAway(u * 100.0);
    assert v == Hundredths(m);
    if IsRounded(u, w) {
      var n: int :| w == Hundredths(n);
      HundredthsNearest(u, m, n);
    }
  }

  lemma HundredthsNearest(u: real, m: int, n: int)
    requires m == RoundHalfAway(u * 100.0)
    requires Abs(Hundredths(n) - u) <= 0.005
    requires Abs(Hundredths(n) - u) == 0.005 ==> Abs(Hundredths(n)) > Abs(u)
    ensures m == n
  {
    assert Hundredths(n) * 100.0 == n as real;
    var x := u * 100.0;
    assert Abs(n as real - x) <= 0.5;
    assert Abs(n as real - x) == 0.5 ==> Abs(n as real) > Abs(x);
  }

  /** The quotient is the one number that times the divisor makes the dividend. */
  lemma QuotientTimes(x: real, y: real)
    requires y != 0.0
    ensures x / y * y == x
  {
  }

  lemma QuotientUnique(a: real, x: real, y: real)
    requires y != 0.0 && a * y == x
    ensures a == x / y
  {
  }

  /** Among non-NaN values `>=` is a total preorder. */
  lemma GreaterEqTotalPreorder(a: Float, b: Float, c: Float)
    requires !a.NaN? && !b.NaN? && !c.NaN?
    ensures GreaterEq(a, a)
    ensures GreaterEq(a, b) || GreaterEq(b, a)
    ensures GreaterEq(a, b) && GreaterEq(b, c) ==> GreaterEq(a, c)
    ensures GreaterEq(a, b) && GreaterEq(b, a) ==> a == b
  {
  }
}
