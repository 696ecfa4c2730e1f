/** Mean, variance and the two ways the standard deviation is clamped: what group normalization computes. */
module GroupStatistics {
  import opened RealFunctions

  /** r_i^2 */
  function Squares(r: int -> real): int -> real { i => Times(r(i), r(i)) }

  function Mean(r: int -> real, lo: int, hi: int): real
    requires lo < hi
  {
    Ratio(Sum(r, lo, hi), (hi - lo) as real)
  }

  /** E[x^2] - E[x]^2 */
  function Variance(r: int -> real, lo: int, hi: int): real
    requires lo < hi
  {
    Ratio(Sum(Squares(r), lo, hi), (hi - lo) as real) - Times(Mean(r, lo, hi), Mean(r, lo, hi))
  }

  /** The native clamp: under the root, at eps^2. */
  function NativeStd(fns: RealFns, variance: real, eps: real): real { fns.sqrt(MaxReal(variance, Times(eps, eps))) }

  /** The kernel's clamp: of the variance at zero, then of the root at eps. */
  function KernelStd(fns: RealFns, variance: real, eps: real): real { MaxReal(fns.sqrt(MaxReal(variance, 0.0)), eps) }

  lemma SquareOrder(a: real, b: real)
    requires a >= 0.0 && b >= 0.0
    ensures a < b <==> Times(a, a) < Times(b, b)
  {
    if a < b {
      PositiveTimes(b - a, a + b);
      assert Times(b - a, a + b) == Times(b, b) - Times(a, a);
    } else if b < a {
      PositiveTimes(a - b, a + b);
      assert Times(a - b, a + b) == Times(a, a) - Times(b, b);
    }
  }

  lemma RootUnique(fns: RealFns, x: real, y: real)
    requires fns.Lawful() && x >= 0.0 && Times(x, x) == y
    ensures y >= 0.0 && fns.sqrt(y) == x
  {
    SquareSign(x);
    SqrtSquares(fns, y);
    SquareOrder(fns.sqrt(y), x);
    SquareOrder(x, fns.sqrt(y));
  }

  /** For positive eps the two clamps give the same positive standard deviation, whose square is the
      clamped variance. */
  lemma StdsAgree(fns: RealFns, variance: real, eps: real)
    requires fns.Lawful() && eps > 0.0
    ensures KernelStd(fns, variance, eps) == NativeStd(fns, variance, eps) >= eps
    ensures var s := NativeStd(fns, variance, eps); Times(s, s) == MaxReal(variance, Times(eps, eps))
  {
    PositiveTimes(eps, eps);
    var root := fns.sqrt(MaxReal(variance, 0.0));
    SqrtSquares(fns, MaxReal(variance, 0.0));
    SquareOrder(root, eps);
    SqrtSquares(fns, MaxReal(variance, Times(eps, eps)));
    RootUnique(fns, MaxReal(root, eps), MaxReal(variance, Times(eps, eps)));
  }

  // ----- deviations from the mean ----------------------------------------------------------------

  function Deviations(r: int -> real, m: real): int -> real { i => r(i) - m }

  function Constant(c: real): int -> real { i => c }

  lemma {:induction false} SumConstant(c: real, lo: int, hi: int)
    requires lo <= hi
    ensures Sum(Constant(c), lo, hi) == Times((hi - lo) as real, c)
    decreases hi - lo
  {
    if lo < hi {
      SumConstant(c, lo, hi - 1);
      TimesDistributes(c, (hi - 1 - lo) as real, 1.0);
      TimesUnits(c);
      assert (hi - lo) as real == (hi - 1 - lo) as real + 1.0;
    } else {
      TimesUnits(c);
    }
  }

  lemma MeanTimesCount(r: int -> real, lo: int, hi: int)
    requires lo < hi
    ensures Times((hi - lo) as real, Mean(r, lo, hi)) == Sum(r, lo, hi)
  {
    RatioTimes(Sum(r, lo, hi), (hi - lo) as real);
    TimesCommutes((hi - lo) as real, Mean(r, lo, hi));
  }

  /** Deviations from the mean sum to zero. */
  lemma DeviationsSumToZero(r: int -> real, lo: int, hi: int)
    requires lo < hi
    ensures Sum(Deviations(r, Mean(r, lo, hi)), lo, hi) == 0.0
  {
    var m := Mean(r, lo, hi);
    SumAdd(Deviations(r, m), Constant(m), r, lo, hi);
    SumConstant(m, lo, hi);
    MeanTimesCount(r, lo, hi);
  }

  lemma SquareOfDeviation(x: real, m: real)
    ensures Times(x, x) == Times(x - m, x - m) + (Times(2.0 * m, x - m) + Times(m, m))
  {
  }

  function CrossTerms(r: int -> real, m: real): int -> real { i => Times(2.0 * m, r(i) - m) + Times(m, m) }

  function Crosses(r: int -> real, m: real): int -> real { i => Times(2.0 * m, r(i) - m) }

  /** The squared deviations sum to count times E[x^2] - E[x]^2. */
  lemma DeviationSquares(r: int -> real, lo: int, hi: int)
    requires lo < hi
    ensures Sum(Squares(Deviations(r, Mean(r, lo, hi))), lo, hi) == Times((hi - lo) as real, Variance(r, lo, hi))
  {
    var m, n := Mean(r, lo, hi), (hi - lo) as real;
    var d := Deviations(r, m);
    forall i | lo <= i < hi
      ensures Squares(r)(i) == Squares(d)(i) + CrossTerms(r, m)(i)
    {
      SquareOfDeviation(r(i), m);
    }
    SumAdd(Squares(d), CrossTerms(r, m), Squares(r), lo, hi);
    SumAdd(Crosses(r, m), Constant(Times(m, m)), CrossTerms(r, m), lo, hi);
    SumTimes(d, Crosses(r, m), 2.0 * m, lo, hi);
    DeviationsSumToZero(r, lo, hi);
    TimesUnits(2.0 * m);
    SumConstant(Times(m, m), lo, hi);
    RatioTimes(Sum(Squares(r), lo, hi), n);
    TimesDistributes(n, Ratio(Sum(Squares(r), lo, hi), n), Times(m, m));
    TimesCommutes(n, Ratio(Sum(Squares(r), lo, hi), n));
  }

  lemma SignOfFactor(n: real, a: real)
    requires n > 0.0 && Times(n, a) >= 0.0
    ensures a >= 0.0
  {
    assert Times(n, -a) == -Times(n, a);
    if a < 0.0 {
      PositiveTimes(n, -a);
    }
  }

  /** E[x^2] - E[x]^2 is never negative. */
  lemma VarianceIsNonNegative(r: int -> real, lo: int, hi: int)
    requires lo < hi
    ensures Variance(r, lo, hi) >= 0.0
  {
    var d := Deviations(r, Mean(r, lo, hi));
    forall i | lo <= i < hi
      ensures Squares(d)(i) >= 0.0
    {
      SquareSign(d(i));
    }
    SumNonNegative(Squares(d), lo, hi);
    DeviationSquares(r, lo, hi);
    SignOfFactor((hi - lo) as real, Variance(r, lo, hi));
  }

  // ----- the normalized group --------------------------------------------------------------------

  /** (r_i - mean) / std */
  function Normalized(fns: RealFns, r: int -> real, lo: int, hi: int, eps: real): int -> real
    requires lo < hi && NativeStd(fns, Variance(r, lo, hi), eps) != 0.0
  {
    i => Ratio(r(i) - Mean(r, lo, hi), NativeStd(fns, Variance(r, lo, hi), eps))
  }

  /** A group's advantages sum to zero. */
  lemma AdvantagesSumToZero(fns: RealFns, r: int -> real, lo: int, hi: int, eps: real)
    requires fns.Lawful() && eps > 0.0 && lo < hi
    ensures NativeStd(fns, Variance(r, lo, hi), eps) != 0.0
    ensures Sum(Normalized(fns, r, lo, hi, eps), lo, hi) == 0.0
  {
    StdsAgree(fns, Variance(r, lo, hi), eps);
    var s := NativeStd(fns, Variance(r, lo, hi), eps);
    var d := Deviations(r, Mean(r, lo, hi));
    var adv := Normalized(fns, r, lo, hi, eps);
    forall i | lo <= i < hi
      ensures adv(i) == Times(Ratio(1.0, s), d(i))
    {
      RatioTimes(d(i), s);
    }
    SumTimes(d, adv, Ratio(1.0, s), lo, hi);
    DeviationsSumToZero(r, lo, hi);
    TimesUnits(Ratio(1.0, s));
  }

  /** Advantages are ordered as the rewards are. */
  lemma AdvantageOrder(fns: RealFns, r: int -> real, lo: int, hi: int, eps: real, i: int, j: int)
    requires fns.Lawful() && eps > 0.0 && lo < hi
    ensures NativeStd(fns, Variance(r, lo, hi), eps) != 0.0
    ensures Normalized(fns, r, lo, hi, eps)(i) < Normalized(fns, r, lo, hi, eps)(j) <==> r(i) < r(j)
  {
    StdsAgree(fns, Variance(r, lo, hi), eps);
    var m, s := Mean(r, lo, hi), NativeStd(fns, Variance(r, lo, hi), eps);
    RatioTimes(r(i) - m, s);
    RatioTimes(r(j) - m, s);
    var a, b := Ratio(r(i) - m, s), Ratio(r(j) - m, s);
    assert Times(b - a, s) == r(j) - r(i) by {
      TimesDistributes(s, b, a);
    }
    if b - a > 0.0 {
      PositiveTimes(b - a, s);
    } else {
      MonotoneTimes(s, b - a, 0.0);
      TimesUnits(s);
      TimesCommutes(s, b - a);
    }
  }

  lemma SquareOfRatio(a: real, s: real)
    requires s != 0.0
    ensures Times(s, s) != 0.0
    ensures Times(Ratio(a, s), Ratio(a, s)) == Times(Ratio(1.0, Times(s, s)), Times(a, a))
  {
    SquareSign(s);
    var q, w := Ratio(a, s), Times(s, s);
    RatioTimes(a, s);
    SquareOfProduct(q, s);
    RatioTimes(Times(a, a), w);
    RatioUnique(Times(q, q), Times(a, a), w);
  }

  lemma SquareOfProduct(q: real, s: real)
    ensures Times(Times(q, q), Times(s, s)) == Times(Times(q, s), Times(q, s))
  {
    assert q * q * (s * s) == (q * s) * (q * s);
  }

  /** Squared, they sum to at most the group's size: exactly it when the variance is not clamped, and
      strictly less when it is. */
  lemma AdvantageSquares(fns: RealFns, r: int -> real, lo: int, hi: int, eps: real)
    requires fns.Lawful() && eps > 0.0 && lo < hi
    ensures NativeStd(fns, Variance(r, lo, hi), eps) != 0.0
    ensures var total := Sum(Squares(Normalized(fns, r, lo, hi, eps)), lo, hi);
            && total <= (hi - lo) as real
            && (total == (hi - lo) as real <==> Variance(r, lo, hi) >= Times(eps, eps))
  {
    var v, n := Variance(r, lo, hi), (hi - lo) as real;
    StdsAgree(fns, v, eps);
    var s := NativeStd(fns, v, eps);
    var d, adv := Deviations(r, Mean(r, lo, hi)), Normalized(fns, r, lo, hi, eps);
    SquareOfRatio(0.0, s);
    forall i | lo <= i < hi
      ensures Squares(adv)(i) == Times(Ratio(1.0, Times(s, s)), Squares(d)(i))
    {
      SquareOfRatio(d(i), s);
    }
    SumTimes(Squares(d), Squares(adv), Ratio(1.0, Times(s, s)), lo, hi);
    DeviationSquares(r, lo, hi);
    VarianceIsNonNegative(r, lo, hi);
    PositiveTimes(eps, eps);
    ShareOfCount(n, v, Times(s, s));
  }

  lemma ShareOfCount(n: real, v: real, w: real)
    requires n > 0.0 && w > 0.0 && 0.0 <= v <= w
    ensures Times(Ratio(1.0, w), Times(n, v)) <= n
    ensures Times(Ratio(1.0, w), Times(n, v)) == n <==> v == w
  {
    var inv := Ratio(1.0, w);
    assert inv > 0.0;
    RatioTimes(1.0, w);
    assert Times(inv, Times(n, w)) == n by {
      TimesRegroup(inv, n, w);
      TimesUnits(n);
    }
    if v < w {
      PositiveTimes(n, w - v);
      PositiveTimes(inv, Times(n, w - v));
      TimesDistributes(n, w, v);
      TimesDistributes(inv, Times(n, w), Times(n, v));
    }
  }
}
