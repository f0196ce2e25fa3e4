/**
 * Double-precision values as numpy and xarray treat them in the calibration code:
 * a finite value, a signed infinity or NaN.  Finite values are kept exact (rounding
 * is not modelled) and zero carries no sign.  Square roots come from a `sqrt`
 * parameter that behaves like np.sqrt on the non-negative reals.
 */
module Floats {

  datatype Float = Fin(v: real) | Inf(neg: bool) | NaN

  /** `sqrt` returns the non-negative square root of every non-negative real. */
  ghost predicate IsSqrt(sqrt: real -> real)
  {
    forall x: real :: x >= 0.0 ==> sqrt(x) >= 0.0 && sqrt(x) * sqrt(x) == x
  }

  function Neg(a: Float): Float
  {
    match a
    case Fin(x) => Fin(-x)
    case Inf(n) => Inf(!n)
    case NaN => NaN
  }

  function Add(a: Float, b: Float): Float
  {
    match (a, b)
    case (NaN, _) => NaN
    case (_, NaN) => NaN
    case (Inf(m), Inf(n)) => if m == n then a else NaN
    case (Inf(_), Fin(_)) => a
    case (Fin(_), Inf(_)) => b
    case (Fin(x), Fin(y)) => Fin(x + y)
  }

  function Sub(a: Float, b: Float): Float
  {
    Add(a, Neg(b))
  }

  function Square(a: Float): Float
  {
    match a
    case Fin(x) => Fin(x * x)
    case Inf(_) => Inf(false)
    case NaN => NaN
  }

  function Abs(a: Float): Float
  {
    match a
    case Fin(x) => Fin(if x < 0.0 then -x else x)
    case Inf(_) => Inf(false)
    case NaN => NaN
  }

  /** IEEE division: 0/0 and inf/inf are NaN, x/0 is an infinity of the sign of x. */
  function Div(a: Float, b: Float): Float
  {
    match (a, b)
    case (NaN, _) => NaN
    case (_, NaN) => NaN
    case (Inf(_), Inf(_)) => NaN
    case (Inf(n), Fin(y)) => Inf(if y < 0.0 then !n else n)
    case (Fin(_), Inf(_)) => Fin(0.0)
    case (Fin(x), Fin(y)) =>
      if y != 0.0 then Fin(x / y) else if x == 0.0 then NaN else Inf(x < 0.0)
  }

  /** np.sqrt: NaN below zero and for NaN, +inf at +inf. */
  function Sqrt(sqrt: real -> real, a: Float): Float
  {
    match a
    case Fin(x) => if x >= 0.0 then Fin(sqrt(x)) else NaN
    case Inf(n) => if n then NaN else Inf(false)
    case NaN => NaN
  }

  /** Sum of a sequence, folded from the left. */
  function Sum(s: seq<Float>): Float
  {
    if |s| == 0 then Fin(0.0) else Add(Sum(s[..|s| - 1]), s[|s| - 1])
  }

  /** The elements that are not NaN, in order. */
  function Kept(s: seq<Float>): (r: seq<Float>)
    ensures |r| <= |s|
    ensures forall i :: 0 <= i < |r| ==> !r[i].NaN? && r[i] in s
    ensures |r| == 0 <==> forall i :: 0 <= i < |s| ==> s[i].NaN?
    ensures (forall i :: 0 <= i < |s| ==> !s[i].NaN?) ==> r == s
  {
    if |s| == 0 then []
    else
      var init := Kept(s[..|s| - 1]);
      assert forall i :: 0 <= i < |s| - 1 ==> s[..|s| - 1][i] == s[i];
      assert s[..|s| - 1] + [s[|s| - 1]] == s;
      if s[|s| - 1].NaN? then init else init + [s[|s| - 1]]
  }

  /** numpy's mean: NaN for an empty sequence, and NaN propagates. */
  function Mean(s: seq<Float>): Float
  {
    if |s| == 0 then NaN else Div(Sum(s), Fin(|s| as real))
  }

  /** xarray's default mean (skipna): the mean of the non-NaN elements, NaN if there are none. */
  function NanMean(s: seq<Float>): Float
  {
    Mean(Kept(s))
  }

  /** The order of the extended reals (NaN excluded). */
  predicate Le(a: Float, b: Float)
    requires !a.NaN? && !b.NaN?
  {
    match (a, b)
    case (Inf(true), _) => true
    case (_, Inf(false)) => true
    case (Fin(x), Fin(y)) => x <= y
    case _ => false
  }

  /** A value that is no smaller than zero, or NaN: what squares, absolute values and their means give. */
  predicate NonNeg(a: Float)
  {
    a.NaN? || a == Inf(false) || (a.Fin? && a.v >= 0.0)
  }

  predicate AllFinite(s: seq<Float>)
  {
    forall i :: 0 <= i < |s| ==> s[i].Fin?
  }

  function Values(s: seq<Float>): (r: seq<real>)
    requires AllFinite(s)
    ensures |r| == |s| && forall i :: 0 <= i < |s| ==> s[i] == Fin(r[i])
  {
    seq(|s|, i requires 0 <= i < |s| => s[i].v)
  }

  function RealSum(xs: seq<real>): real
  {
    if |xs| == 0 then 0.0 else RealSum(xs[..|xs| - 1]) + xs[|xs| - 1]
  }

  function RealMean(xs: seq<real>): real
    requires |xs| > 0
  {
    RealSum(xs) / (|xs| as real)
  }

  lemma {:induction false} SumNonNeg(s: seq<Float>)
    requires forall i :: 0 <= i < |s| ==> NonNeg(s[i]) && !s[i].NaN?
    ensures NonNeg(Sum(s)) && !Sum(s).NaN?
  {
    if |s| > 0 {
      SumNonNeg(s[..|s| - 1]);
    }
  }

  lemma {:induction false} SumFinite(s: seq<Float>)
    requires AllFinite(s)
    ensures Sum(s) == Fin(RealSum(Values(s)))
  {
    if |s| > 0 {
      var init := s[..|s| - 1];
      SumFinite(init);
      assert Values(init) == Values(s)[..|s| - 1];
    }
  }

  /** The xarray mean of non-negative values is non-negative, and NaN exactly when every value is NaN. */
  lemma NanMeanNonNeg(s: seq<Float>)
    requires forall i :: 0 <= i < |s| ==> NonNeg(s[i])
    ensures NonNeg(NanMean(s))
    ensures NanMean(s).NaN? <==> forall i :: 0 <= i < |s| ==> s[i].NaN?
  {
    var k := Kept(s);
    if |k| > 0 {
      forall i | 0 <= i < |k| ensures NonNeg(k[i]) && !k[i].NaN? {
        var j :| 0 <= j < |s| && s[j] == k[i];
      }
      SumNonNeg(k);
    }
  }

  /** On finite values the xarray mean is the arithmetic mean. */
  lemma NanMeanFinite(s: seq<Float>)
    requires |s| > 0 && AllFinite(s)
    ensures NanMean(s) == Fin(RealMean(Values(s)))
  {
    assert Kept(s) == s;
    SumFinite(s);
  }

  /** A sum of non-negative values that holds +inf is +inf. */
  lemma {:induction false} SumInfinite(s: seq<Float>, j: int)
    requires forall i :: 0 <= i < |s| ==> NonNeg(s[i]) && !s[i].NaN?
    requires 0 <= j < |s| && s[j] == Inf(false)
    ensures Sum(s) == Inf(false)
  {
    var init := s[..|s| - 1];
    if j < |s| - 1 {
      SumInfinite(init, j);
    } else if |init| > 0 {
      SumNonNeg(init);
    }
  }

  /** The xarray mean of non-negative values that hold +inf and no NaN is +inf. */
  lemma NanMeanInfinite(s: seq<Float>, j: int)
    requires forall i :: 0 <= i < |s| ==> NonNeg(s[i]) && !s[i].NaN?
    requires 0 <= j < |s| && s[j] == Inf(false)
    ensures NanMean(s) == Inf(false)
  {
    assert Kept(s) == s;
    SumInfinite(s, j);
  }

  /** Negation reverses the order. */
  lemma NegLe(a: Float, b: Float)
    requires !a.NaN? && !b.NaN?
    ensures Le(a, b) <==> Le(Neg(b), Neg(a))
  {
  }
}
