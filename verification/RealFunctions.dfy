/** Real arithmetic shared by every kernel model: the transcendental functions, finite sums
    over an integer range, and the extended reals in which a running maximum starts. */
module RealFunctions {

  /** The functions the kernels call. They are parameters of every theorem, constrained only by
      `Lawful`. The two laws on `exp` determine it uniquely, so the theorems speak of the real
      exponential and of nothing else. */
  datatype RealFns = RealFns(exp: real -> real, log: real -> real, sqrt: real -> real) {

    predicate AddLaw(a: real, b: real) { exp(a + b) == exp(a) * exp(b) }

    predicate TangentLaw(a: real) { exp(a) >= 1.0 + a }

    predicate LogLaw(y: real) { y > 0.0 ==> exp(log(y)) == y }

    predicate SqrtLaw(y: real) { y >= 0.0 ==> sqrt(y) >= 0.0 && sqrt(y) * sqrt(y) == y }

    ghost predicate Lawful() {
      && (forall a, b {:trigger AddLaw(a, b)} :: AddLaw(a, b))
      && (forall a {:trigger TangentLaw(a)} :: TangentLaw(a))
      && (forall y {:trigger LogLaw(y)} :: LogLaw(y))
      && (forall y {:trigger SqrtLaw(y)} :: SqrtLaw(y))
    }
  }

  lemma ExpAdd(fns: RealFns, a: real, b: real)
    requires fns.Lawful()
    ensures fns.exp(a + b) == fns.exp(a) * fns.exp(b)
  {
    assert fns.AddLaw(a, b);
  }

  lemma ExpZero(fns: RealFns)
    requires fns.Lawful()
    ensures fns.exp(0.0) == 1.0
  {
    assert fns.TangentLaw(0.0);
    var one := fns.exp(0.0);
    var zero := 0.0;
    assert fns.AddLaw(zero, zero);
    assert zero + zero == zero;
    assert one == fns.exp(zero) == one * one;
    assert one * (one - 1.0) == 0.0;
  }

  lemma ExpPositive(fns: RealFns, a: real)
    requires fns.Lawful()
    ensures fns.exp(a) > 0.0
  {
    ExpZero(fns);
    var half := fns.exp(a / 2.0);
    assert fns.exp(a) == half * half by {
      ExpAdd(fns, a / 2.0, a / 2.0);
      assert a / 2.0 + a / 2.0 == a;
    }
    assert half * half >= 0.0;
    assert fns.exp(a) * fns.exp(-a) == 1.0 by {
      ExpAdd(fns, a, -a);
      assert a + -a == 0.0;
    }
  }

  lemma ExpAtMostOne(fns: RealFns, a: real)
    requires fns.Lawful() && a <= 0.0
    ensures fns.exp(a) <= 1.0
  {
    ExpZero(fns);
    ExpPositive(fns, a);
    assert fns.TangentLaw(-a);
    assert fns.exp(a) * fns.exp(-a) == 1.0 by {
      ExpAdd(fns, a, -a);
      assert a + -a == 0.0;
    }
    MonotoneTimes(fns.exp(a), 1.0, fns.exp(-a));
    TimesUnits(fns.exp(a));
  }

  lemma ExpStrict(fns: RealFns, a: real, b: real)
    requires fns.Lawful() && a < b
    ensures fns.exp(a) < fns.exp(b)
  {
    ExpPositive(fns, a);
    assert fns.TangentLaw(b - a);
    ExpAdd(fns, a, b - a);
    assert a + (b - a) == b;
    var x, y := fns.exp(a), fns.exp(b - a);
    assert x * y > x * 1.0;
  }

  lemma ExpInjective(fns: RealFns, a: real, b: real)
    requires fns.Lawful() && fns.exp(a) == fns.exp(b)
    ensures a == b
  {
    if a < b {
      ExpStrict(fns, a, b);
    } else if b < a {
      ExpStrict(fns, b, a);
    }
  }

  lemma ExpLog(fns: RealFns, y: real)
    requires fns.Lawful() && y > 0.0
    ensures fns.exp(fns.log(y)) == y
  {
    assert fns.LogLaw(y);
  }

  lemma LogOfExp(fns: RealFns, a: real)
    requires fns.Lawful()
    ensures fns.log(fns.exp(a)) == a
  {
    ExpPositive(fns, a);
    ExpLog(fns, fns.exp(a));
    ExpInjective(fns, fns.log(fns.exp(a)), a);
  }

  /** log(exp(a) * y) == a + log(y): what lets a running maximum be added back to a log. */
  lemma LogScaled(fns: RealFns, a: real, y: real)
    requires fns.Lawful() && y > 0.0
    ensures fns.exp(a) * y > 0.0
    ensures fns.log(fns.exp(a) * y) == a + fns.log(y)
  {
    ExpPositive(fns, a);
    ExpLog(fns, y);
    ExpAdd(fns, a, fns.log(y));
    LogOfExp(fns, a + fns.log(y));
    assert fns.exp(a + fns.log(y)) == fns.exp(a) * y;
  }

  lemma SqrtSquares(fns: RealFns, y: real)
    requires fns.Lawful() && y >= 0.0
    ensures fns.sqrt(y) >= 0.0 && fns.sqrt(y) * fns.sqrt(y) == y
  {
    assert fns.SqrtLaw(y);
  }

  function MaxReal(a: real, b: real): real { if a < b then b else a }

  function MinReal(a: real, b: real): real { if a < b then a else b }

  function ClampReal(x: real, lo: real, hi: real): real { if x < lo then lo else if x > hi then hi else x }

  /** A vector, read as zero outside its range. */
  type Vec = seq<real>

  function At(a: Vec, i: int): real { if 0 <= i < |a| then a[i] else 0.0 }

  // ----- products and quotients by name ----------------------------------------------------------

  /** Lemmas that are composed state their products and quotients through these two names, so that
      equal factors give equal results without nonlinear reasoning at every use. */
  function Times(a: real, b: real): real { a * b }

  function Ratio(a: real, b: real): real
    requires b != 0.0
  {
    a / b
  }

  lemma RatioTimes(a: real, b: real)
    requires b != 0.0
    ensures Times(Ratio(a, b), b) == a
    ensures Times(Ratio(1.0, b), a) == Ratio(a, b)
  {
    assert (a / b) * b == a;
    var inv := 1.0 / b;
    assert a / b == inv * a;
  }

  lemma RatioUnique(x: real, a: real, b: real)
    requires b != 0.0 && Times(x, b) == a
    ensures x == Ratio(a, b)
  {
    RatioTimes(a, b);
    assert (x - Ratio(a, b)) * b == 0.0;
  }

  lemma TimesCommutes(a: real, b: real)
    ensures Times(a, b) == Times(b, a)
  {
  }

  lemma TimesUnits(a: real)
    ensures Times(0.0, a) == Times(a, 0.0) == 0.0
    ensures Times(1.0, a) == Times(a, 1.0) == a
  {
  }

  lemma TimesDistributes(a: real, b: real, c: real)
    ensures Times(a, b + c) == Times(a, b) + Times(a, c)
    ensures Times(a, b - c) == Times(a, b) - Times(a, c)
    ensures Times(b + c, a) == Times(b, a) + Times(c, a)
    ensures Times(b - c, a) == Times(b, a) - Times(c, a)
  {
  }

  lemma TimesRegroup(a: real, b: real, c: real)
    ensures Times(Times(a, b), c) == Times(a, Times(b, c)) == Times(b, Times(a, c))
  {
    assert (a * b) * c == a * (b * c) == b * (a * c);
  }

  lemma RatioSign(a: real, b: real)
    requires a >= 0.0 && b > 0.0
    ensures Ratio(a, b) >= 0.0
    ensures Ratio(a, b) == 0.0 <==> a == 0.0
  {
    RatioTimes(a, b);
    TimesUnits(b);
    assert Times(-Ratio(a, b), b) == -Times(Ratio(a, b), b);
    if Ratio(a, b) < 0.0 {
      PositiveTimes(-Ratio(a, b), b);
    }
  }

  lemma MonotoneTimes(p: real, a: real, b: real)
    requires p >= 0.0 && a <= b
    ensures Times(p, a) <= Times(p, b)
  {
    assert p * (b - a) >= 0.0;
  }

  lemma ExpAddTimes(fns: RealFns, a: real, b: real)
    requires fns.Lawful()
    ensures fns.exp(a + b) == Times(fns.exp(a), fns.exp(b))
  {
    ExpAdd(fns, a, b);
  }

  lemma TangentBound(fns: RealFns, log: real, u: real)
    requires fns.Lawful()
    ensures Times(fns.exp(log), 1.0 + u) <= fns.exp(log + u)
  {
    ExpPositive(fns, log);
    assert fns.TangentLaw(u);
    MonotoneTimes(fns.exp(log), 1.0 + u, fns.exp(u));
    ExpAddTimes(fns, log, u);
  }

  lemma PositiveTimes(a: real, b: real)
    requires a > 0.0 && b > 0.0
    ensures Times(a, b) > 0.0
  {
  }

  lemma SquareSign(a: real)
    ensures Times(a, a) >= 0.0
    ensures a != 0.0 ==> Times(a, a) > 0.0
  {
    if a > 0.0 {
      PositiveTimes(a, a);
    } else if a < 0.0 {
      PositiveTimes(-a, -a);
      assert Times(a, a) == Times(-a, -a);
    } else {
      TimesUnits(a);
    }
  }

  // ----- finite sums -----------------------------------------------------------------------------

  function Sum(f: int -> real, lo: int, hi: int): real
    decreases hi - lo
  {
    if hi <= lo then 0.0 else Sum(f, lo, hi - 1) + f(hi - 1)
  }

  lemma {:induction false} SumSplit(f: int -> real, lo: int, mid: int, hi: int)
    requires lo <= mid <= hi
    ensures Sum(f, lo, hi) == Sum(f, lo, mid) + Sum(f, mid, hi)
    decreases hi - mid
  {
    if mid < hi {
      SumSplit(f, lo, mid, hi - 1);
    }
  }

  lemma {:induction false} SumCong(f: int -> real, g: int -> real, lo: int, hi: int)
    requires forall i | lo <= i < hi :: f(i) == g(i)
    ensures Sum(f, lo, hi) == Sum(g, lo, hi)
    decreases hi - lo
  {
    if lo < hi {
      SumCong(f, g, lo, hi - 1);
    }
  }

  lemma {:induction false} SumScale(f: int -> real, g: int -> real, c: real, lo: int, hi: int)
    requires forall i | lo <= i < hi :: g(i) == c * f(i)
    ensures Sum(g, lo, hi) == c * Sum(f, lo, hi)
    decreases hi - lo
  {
    if lo < hi {
      SumScale(f, g, c, lo, hi - 1);
      assert c * (Sum(f, lo, hi - 1) + f(hi - 1)) == c * Sum(f, lo, hi - 1) + c * f(hi - 1);
    }
  }

  /** SumScale with the products named. */
  lemma SumTimes(f: int -> real, g: int -> real, c: real, lo: int, hi: int)
    requires forall i | lo <= i < hi :: g(i) == Times(c, f(i))
    ensures Sum(g, lo, hi) == Times(c, Sum(f, lo, hi))
  {
    SumScale(f, g, c, lo, hi);
  }

  /** A sum of factors times one step. */
  lemma SumTimesRight(factors: int -> real, terms: int -> real, n: nat, step: real)
    requires forall j | 0 <= j < n :: terms(j) == Times(factors(j), step)
    ensures Times(Sum(factors, 0, n), step) == Sum(terms, 0, n)
  {
    forall j | 0 <= j < n ensures terms(j) == Times(step, factors(j)) {
      TimesCommutes(step, factors(j));
    }
    SumTimes(factors, terms, step, 0, n);
    TimesCommutes(step, Sum(factors, 0, n));
  }

  lemma {:induction false} SumAdd(f: int -> real, g: int -> real, h: int -> real, lo: int, hi: int)
    requires forall i | lo <= i < hi :: h(i) == f(i) + g(i)
    ensures Sum(h, lo, hi) == Sum(f, lo, hi) + Sum(g, lo, hi)
    decreases hi - lo
  {
    if lo < hi {
      SumAdd(f, g, h, lo, hi - 1);
    }
  }

  lemma {:induction false} SumZero(f: int -> real, lo: int, hi: int)
    requires forall i | lo <= i < hi :: f(i) == 0.0
    ensures Sum(f, lo, hi) == 0.0
    decreases hi - lo
  {
    if lo < hi {
      SumZero(f, lo, hi - 1);
    }
  }

  lemma {:induction false} SumMono(f: int -> real, g: int -> real, lo: int, hi: int)
    requires forall i | lo <= i < hi :: f(i) <= g(i)
    ensures Sum(f, lo, hi) <= Sum(g, lo, hi)
    decreases hi - lo
  {
    if lo < hi {
      SumMono(f, g, lo, hi - 1);
    }
  }

  lemma {:induction false} SumNonNegative(f: int -> real, lo: int, hi: int)
    requires forall i | lo <= i < hi :: f(i) >= 0.0
    ensures Sum(f, lo, hi) >= 0.0
    decreases hi - lo
  {
    if lo < hi {
      SumNonNegative(f, lo, hi - 1);
    }
  }

  lemma {:induction false} SumPositive(f: int -> real, lo: int, hi: int, k: int)
    requires lo <= k < hi && f(k) > 0.0
    requires forall i | lo <= i < hi :: f(i) >= 0.0
    ensures Sum(f, lo, hi) > 0.0
  {
    SumSplit(f, lo, k, hi);
    SumSplit(f, k, k + 1, hi);
    assert Sum(f, k, k + 1) == Sum(f, k, k) + f(k);
    SumNonNegative(f, lo, k);
    SumNonNegative(f, k + 1, hi);
  }

  /** A sum whose terms vanish except at `k`. */
  lemma {:induction false} SumSingle(f: int -> real, lo: int, hi: int, k: int)
    requires forall i | lo <= i < hi && i != k :: f(i) == 0.0
    ensures Sum(f, lo, hi) == if lo <= k < hi then f(k) else 0.0
  {
    if lo <= k < hi {
      SumSplit(f, lo, k, hi);
      SumSplit(f, k, k + 1, hi);
      assert Sum(f, k, k + 1) == Sum(f, k, k) + f(k);
      SumZero(f, lo, k);
      SumZero(f, k + 1, hi);
    } else {
      SumZero(f, lo, hi);
    }
  }

  /** g is f moved by `off`, over a range of g. */
  ghost predicate IsShift<T(!new)>(f: int -> T, g: int -> T, off: int, lo: int, hi: int) {
    forall i {:trigger ShiftAt(f, g, off, i)} | lo <= i < hi :: ShiftAt(f, g, off, i)
  }

  ghost predicate ShiftAt<T>(f: int -> T, g: int -> T, off: int, i: int) { g(i) == f(i + off) }

  lemma {:induction false} SumMoved(f: int -> real, g: int -> real, off: int, n: int, lo: int, hi: int)
    requires IsShift(f, g, off, 0, n) && lo == off && hi == off + n
    ensures Sum(g, 0, n) == Sum(f, lo, hi)
    decreases n
  {
    if n > 0 {
      assert ShiftAt(f, g, off, n - 1);
      SumMoved(f, g, off, n - 1, lo, hi - 1);
    }
  }

  /** Interchange of a double sum; `rows(i)` sums row i and `cols(j)` column j of `f`. */
  lemma {:induction false} SumSwap(f: (int, int) -> real, rows: int -> real, cols: int -> real,
                                   a: int, b: int, c: int, d: int)
    requires forall i | a <= i < b :: rows(i) == Sum(RowOf(f, i), c, d)
    requires forall j | c <= j < d :: cols(j) == Sum(ColOf(f, j), a, b)
    ensures Sum(rows, a, b) == Sum(cols, c, d)
    decreases b - a
  {
    if b <= a {
      SumZero(cols, c, d);
    } else {
      var shorter := ColSums(f, a, b - 1);
      SumSwap(f, rows, shorter, a, b - 1, c, d);
      forall j | c <= j < d ensures cols(j) == shorter(j) + RowOf(f, b - 1)(j) {
        assert Sum(ColOf(f, j), a, b) == Sum(ColOf(f, j), a, b - 1) + ColOf(f, j)(b - 1);
      }
      SumAdd(shorter, RowOf(f, b - 1), cols, c, d);
    }
  }

  function RowOf(f: (int, int) -> real, i: int): int -> real { j => f(i, j) }

  function ColOf(f: (int, int) -> real, j: int): int -> real { i => f(i, j) }

  function ColSums(f: (int, int) -> real, a: int, b: int): int -> real { j => Sum(ColOf(f, j), a, b) }

  // ----- extended reals --------------------------------------------------------------------------

  /** A score or running maximum: a real, or the minus infinity of a mask or of an empty maximum. */
  datatype Ext = NegInf | Fin(value: real)

  function MaxExt(a: Ext, b: Ext): Ext {
    match (a, b)
    case (NegInf, _) => b
    case (_, NegInf) => a
    case (Fin(x), Fin(y)) => if x < y then b else a
  }

  predicate AtMost(a: Ext, b: Ext) {
    a.NegInf? || (b.Fin? && a.value <= b.value)
  }

  /** exp(a - c), with exp(-inf) = 0. The reference point is finite by type: the NaN of
      (-inf) - (-inf) cannot be expressed, so every caller proves it does not arise. */
  function ExpDiff(fns: RealFns, a: Ext, c: real): real {
    match a
    case NegInf => 0.0
    case Fin(x) => fns.exp(x - c)
  }

  lemma ExpDiffNonNegative(fns: RealFns, a: Ext, c: real)
    requires fns.Lawful()
    ensures ExpDiff(fns, a, c) >= 0.0
    ensures a.Fin? ==> ExpDiff(fns, a, c) > 0.0
  {
    if a.Fin? {
      ExpPositive(fns, a.value - c);
    }
  }

  /** Moving the reference point from c to d scales by exp(c - d). */
  lemma ExpDiffRebase(fns: RealFns, a: Ext, c: real, d: real)
    requires fns.Lawful()
    ensures ExpDiff(fns, a, d) == fns.exp(c - d) * ExpDiff(fns, a, c)
  {
    if a.Fin? {
      ExpAdd(fns, c - d, a.value - c);
      assert c - d + (a.value - c) == a.value - d;
    }
  }
}
