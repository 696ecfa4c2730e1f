/** The softmax every kernel must agree with, and the online form that streams a row in tiles. */
module Softmax {
  import opened RealFunctions

  // ----- the reference ---------------------------------------------------------------------------

  function MaxOf(z: int -> Ext, lo: int, hi: int): Ext
    decreases hi - lo
  {
    if hi <= lo then NegInf else MaxExt(MaxOf(z, lo, hi - 1), z(hi - 1))
  }

  /** j |-> exp(z_j - c) */
  function Weights(fns: RealFns, z: int -> Ext, c: real): int -> real {
    j => ExpDiff(fns, z(j), c)
  }

  function SumExp(fns: RealFns, z: int -> Ext, c: real, lo: int, hi: int): real {
    Sum(Weights(fns, z, c), lo, hi)
  }

  /** torch.logsumexp: the row maximum is subtracted first and added back to the log. */
  function LogSumExp(fns: RealFns, z: int -> Ext, lo: int, hi: int): real
    requires MaxOf(z, lo, hi).Fin?
  {
    var m := MaxOf(z, lo, hi).value;
    m + fns.log(SumExp(fns, z, m, lo, hi))
  }

  /** torch.softmax at one position, again relative to the row maximum. */
  function SoftmaxAt(fns: RealFns, z: int -> Ext, lo: int, hi: int, j: int): real
    requires fns.Lawful() && MaxOf(z, lo, hi).Fin?
  {
    var m := MaxOf(z, lo, hi).value;
    SumExpPositive(fns, z, m, lo, hi);
    ExpDiff(fns, z(j), m) / SumExp(fns, z, m, lo, hi)
  }

  // ----- facts about maxima and exponential sums -------------------------------------------------

  lemma {:induction false} MaxSplit(z: int -> Ext, lo: int, mid: int, hi: int)
    requires lo <= mid <= hi
    ensures MaxOf(z, lo, hi) == MaxExt(MaxOf(z, lo, mid), MaxOf(z, mid, hi))
    decreases hi - mid
  {
    if mid < hi {
      MaxSplit(z, lo, mid, hi - 1);
    }
  }

  lemma {:induction false} MaxCong(z: int -> Ext, w: int -> Ext, lo: int, hi: int)
    requires forall j | lo <= j < hi :: z(j) == w(j)
    ensures MaxOf(z, lo, hi) == MaxOf(w, lo, hi)
    decreases hi - lo
  {
    if lo < hi {
      MaxCong(z, w, lo, hi - 1);
    }
  }

  lemma {:induction false} MaxShift(z: int -> Ext, w: int -> Ext, off: int, lo: int, hi: int)
    requires IsShift(z, w, off, lo, hi)
    ensures MaxOf(w, lo, hi) == MaxOf(z, lo + off, hi + off)
    decreases hi - lo
  {
    if lo < hi {
      assert ShiftAt(z, w, off, hi - 1);
      MaxShift(z, w, off, lo, hi - 1);
    }
  }

  lemma {:induction false} MaxOfMasked(z: int -> Ext, lo: int, hi: int)
    requires forall j | lo <= j < hi :: z(j).NegInf?
    ensures MaxOf(z, lo, hi) == NegInf
    decreases hi - lo
  {
    if lo < hi {
      MaxOfMasked(z, lo, hi - 1);
    }
  }

  /** MaxOf is a maximum: an upper bound that is attained, finite as soon as one score is. */
  lemma {:induction false} MaxIsMaximum(z: int -> Ext, lo: int, hi: int)
    ensures forall j | lo <= j < hi :: AtMost(z(j), MaxOf(z, lo, hi))
    ensures MaxOf(z, lo, hi).Fin? ==> exists j :: lo <= j < hi && z(j) == MaxOf(z, lo, hi)
    ensures (exists j :: lo <= j < hi && z(j).Fin?) ==> MaxOf(z, lo, hi).Fin?
    decreases hi - lo
  {
    if lo < hi {
      MaxIsMaximum(z, lo, hi - 1);
      if MaxOf(z, lo, hi).Fin? {
        if MaxOf(z, lo, hi) == z(hi - 1) {
          assert lo <= hi - 1 < hi;
        } else {
          var j :| lo <= j < hi - 1 && z(j) == MaxOf(z, lo, hi - 1);
          assert lo <= j < hi && z(j) == MaxOf(z, lo, hi);
        }
      }
    }
  }

  lemma FiniteMax(z: int -> Ext, lo: int, hi: int)
    requires lo < hi && z(lo).Fin?
    ensures MaxOf(z, lo, hi).Fin?
  {
    MaxIsMaximum(z, lo, hi);
  }

  lemma WeightsNonNegative(fns: RealFns, z: int -> Ext, c: real)
    requires fns.Lawful()
    ensures forall j :: Weights(fns, z, c)(j) >= 0.0
    ensures forall j :: z(j).Fin? ==> Weights(fns, z, c)(j) > 0.0
  {
    forall j ensures Weights(fns, z, c)(j) >= 0.0 && (z(j).Fin? ==> Weights(fns, z, c)(j) > 0.0) {
      ExpDiffNonNegative(fns, z(j), c);
    }
  }

  lemma SumExpPositive(fns: RealFns, z: int -> Ext, c: real, lo: int, hi: int)
    requires fns.Lawful() && MaxOf(z, lo, hi).Fin?
    ensures SumExp(fns, z, c, lo, hi) > 0.0
  {
    MaxIsMaximum(z, lo, hi);
    var k :| lo <= k < hi && z(k) == MaxOf(z, lo, hi);
    WeightsNonNegative(fns, z, c);
    SumPositive(Weights(fns, z, c), lo, hi, k);
  }

  lemma SumExpOfMasked(fns: RealFns, z: int -> Ext, c: real, lo: int, hi: int)
    requires forall j | lo <= j < hi :: z(j).NegInf?
    ensures SumExp(fns, z, c, lo, hi) == 0.0
  {
    SumZero(Weights(fns, z, c), lo, hi);
  }

  lemma SumExpRebase(fns: RealFns, z: int -> Ext, c: real, d: real, lo: int, hi: int)
    requires fns.Lawful()
    ensures SumExp(fns, z, d, lo, hi) == fns.exp(c - d) * SumExp(fns, z, c, lo, hi)
  {
    forall j | lo <= j < hi
      ensures Weights(fns, z, d)(j) == fns.exp(c - d) * Weights(fns, z, c)(j)
    {
      ExpDiffRebase(fns, z(j), c, d);
    }
    SumScale(Weights(fns, z, c), Weights(fns, z, d), fns.exp(c - d), lo, hi);
  }

  /** The maximum that LogSumExp subtracts cancels: exp(lse) is the plain sum of exponentials. */
  lemma LogSumExpMeaning(fns: RealFns, z: int -> Ext, lo: int, hi: int)
    requires fns.Lawful() && MaxOf(z, lo, hi).Fin?
    ensures SumExp(fns, z, 0.0, lo, hi) > 0.0
    ensures LogSumExp(fns, z, lo, hi) == fns.log(SumExp(fns, z, 0.0, lo, hi))
    ensures fns.exp(LogSumExp(fns, z, lo, hi)) == SumExp(fns, z, 0.0, lo, hi)
  {
    var m := MaxOf(z, lo, hi).value;
    SumExpPositive(fns, z, m, lo, hi);
    SumExpPositive(fns, z, 0.0, lo, hi);
    SumExpRebase(fns, z, m, 0.0, lo, hi);
    var shifted, plain := SumExp(fns, z, m, lo, hi), SumExp(fns, z, 0.0, lo, hi);
    assert plain == fns.exp(m) * shifted by {
      assert m - 0.0 == m;
    }
    LogScaled(fns, m, shifted);
    assert fns.log(plain) == m + fns.log(shifted);
    ExpLog(fns, SumExp(fns, z, 0.0, lo, hi));
  }

  /** The three ways the repository writes a softmax weight are one number:
      relative to the row maximum, relative to any other reference point, and as exp(z_j - lse). */
  lemma SoftmaxForms(fns: RealFns, z: int -> Ext, lo: int, hi: int, c: real, j: int)
    requires fns.Lawful() && MaxOf(z, lo, hi).Fin?
    ensures SumExp(fns, z, c, lo, hi) > 0.0
    ensures SoftmaxAt(fns, z, lo, hi, j) == ExpDiff(fns, z(j), c) / SumExp(fns, z, c, lo, hi)
    ensures SoftmaxAt(fns, z, lo, hi, j) == ExpDiff(fns, z(j), LogSumExp(fns, z, lo, hi))
  {
    var m := MaxOf(z, lo, hi).value;
    SumExpPositive(fns, z, m, lo, hi);
    RebasedQuotient(fns, z, lo, hi, m, c, j);
    var lse := LogSumExp(fns, z, lo, hi);
    RebasedQuotient(fns, z, lo, hi, m, lse, j);
    assert SumExp(fns, z, lse, lo, hi) == 1.0 by {
      LogSumExpMeaning(fns, z, lo, hi);
      SumExpRebase(fns, z, 0.0, lse, lo, hi);
      ExpAdd(fns, 0.0 - lse, lse);
      assert 0.0 - lse + lse == 0.0;
      ExpZero(fns);
    }
  }

  lemma RebasedQuotient(fns: RealFns, z: int -> Ext, lo: int, hi: int, c: real, d: real, j: int)
    requires fns.Lawful() && MaxOf(z, lo, hi).Fin?
    ensures SumExp(fns, z, c, lo, hi) > 0.0 && SumExp(fns, z, d, lo, hi) > 0.0
    ensures ExpDiff(fns, z(j), c) / SumExp(fns, z, c, lo, hi)
            == ExpDiff(fns, z(j), d) / SumExp(fns, z, d, lo, hi)
  {
    SumExpPositive(fns, z, c, lo, hi);
    SumExpPositive(fns, z, d, lo, hi);
    SumExpRebase(fns, z, c, d, lo, hi);
    ExpDiffRebase(fns, z(j), c, d);
    ExpPositive(fns, c - d);
    ScaledQuotient(ExpDiff(fns, z(j), c), SumExp(fns, z, c, lo, hi), fns.exp(c - d));
  }

  lemma ScaledQuotient(a: real, b: real, k: real)
    requires b > 0.0 && k > 0.0
    ensures k * b != 0.0
    ensures (k * a) / (k * b) == a / b
  {
    assert k * b > 0.0;
    var q := a / b;
    assert q * b == a;
    assert q * (k * b) == k * a by {
      assert q * (k * b) == k * (q * b);
    }
  }

  /** A row's softmax weights are nonnegative and sum to one. */
  lemma SoftmaxSumsToOne(fns: RealFns, z: int -> Ext, lo: int, hi: int, p: int -> real)
    requires fns.Lawful() && MaxOf(z, lo, hi).Fin?
    requires forall j | lo <= j < hi :: p(j) == SoftmaxAt(fns, z, lo, hi, j)
    ensures Sum(p, lo, hi) == 1.0
    ensures forall j | lo <= j < hi :: p(j) >= 0.0
  {
    var m := MaxOf(z, lo, hi).value;
    SumExpPositive(fns, z, m, lo, hi);
    forall j | lo <= j < hi ensures p(j) == Normalized(fns, z, m, lo, hi)(j) && p(j) >= 0.0 {
      SoftmaxTerm(fns, z, lo, hi, j);
    }
    SumCong(p, Normalized(fns, z, m, lo, hi), lo, hi);
    NormalizedSumsToOne(fns, z, m, lo, hi);
  }

  function Normalized(fns: RealFns, z: int -> Ext, c: real, lo: int, hi: int): int -> real
    requires SumExp(fns, z, c, lo, hi) > 0.0
  {
    j => (1.0 / SumExp(fns, z, c, lo, hi)) * Weights(fns, z, c)(j)
  }

  lemma NormalizedSumsToOne(fns: RealFns, z: int -> Ext, c: real, lo: int, hi: int)
    requires SumExp(fns, z, c, lo, hi) > 0.0
    ensures Sum(Normalized(fns, z, c, lo, hi), lo, hi) == 1.0
  {
    var total := SumExp(fns, z, c, lo, hi);
    SumScale(Weights(fns, z, c), Normalized(fns, z, c, lo, hi), 1.0 / total, lo, hi);
    RatioTimes(1.0, total);
  }

  lemma SoftmaxTerm(fns: RealFns, z: int -> Ext, lo: int, hi: int, j: int)
    requires fns.Lawful() && MaxOf(z, lo, hi).Fin?
    ensures var m := MaxOf(z, lo, hi).value;
            && SumExp(fns, z, m, lo, hi) > 0.0
            && SoftmaxAt(fns, z, lo, hi, j) == (1.0 / SumExp(fns, z, m, lo, hi)) * Weights(fns, z, m)(j) >= 0.0
  {
    var m := MaxOf(z, lo, hi).value;
    SumExpPositive(fns, z, m, lo, hi);
    ExpDiffNonNegative(fns, z(j), m);
    InverseTimes(ExpDiff(fns, z(j), m), SumExp(fns, z, m, lo, hi));
  }

  lemma InverseTimes(a: real, b: real)
    requires b > 0.0 && a >= 0.0
    ensures (1.0 / b) * a == a / b >= 0.0
  {
    assert (a / b) * b == a;
    assert a / b == (1.0 / b) * a;
    assert 1.0 / b > 0.0;
  }

  // ----- the online form -------------------------------------------------------------------------

  /** The streaming state after the scores in [lo, n): the exact maximum, and the sum of
      exponentials relative to it. */
  ghost predicate OnlineInv(fns: RealFns, z: int -> Ext, lo: int, n: int, m: Ext, s: real) {
    && m == MaxOf(z, lo, n)
    && s == (match m case NegInf => 0.0 case Fin(c) => SumExp(fns, z, c, lo, n))
  }

  /** One tile of the online softmax, as every streaming kernel writes it: the new maximum, then
      the old sum rescaled plus the tile's own exponentials. */
  function FoldTile(fns: RealFns, z: int -> Ext, a: int, b: int, m: Ext, s: real): (Ext, real)
    requires MaxExt(m, MaxOf(z, a, b)).Fin?
  {
    var newMax := MaxExt(m, MaxOf(z, a, b));
    (newMax, Times(s, ExpDiff(fns, m, newMax.value)) + SumExp(fns, z, newMax.value, a, b))
  }

  lemma FoldTileKeeps(fns: RealFns, z: int -> Ext, lo: int, a: int, b: int, m: Ext, s: real)
    requires fns.Lawful() && lo <= a <= b
    requires OnlineInv(fns, z, lo, a, m, s)
    requires MaxExt(m, MaxOf(z, a, b)).Fin?
    ensures var (m', s') := FoldTile(fns, z, a, b, m, s); OnlineInv(fns, z, lo, b, m', s')
  {
    MaxSplit(z, lo, a, b);
    var newMax := MaxExt(m, MaxOf(z, a, b)).value;
    RescaledPrefix(fns, z, lo, a, m, s, newMax);
    var (m', s') := FoldTile(fns, z, a, b, m, s);
    assert m' == MaxOf(z, lo, b) == Fin(newMax);
    assert s' == SumExp(fns, z, newMax, lo, a) + SumExp(fns, z, newMax, a, b);
    SumSplit(Weights(fns, z, newMax), lo, a, b);
  }

  /** The rescaled running sum is the prefix's sum relative to the new maximum. */
  lemma RescaledPrefix(fns: RealFns, z: int -> Ext, lo: int, n: int, m: Ext, s: real, c: real)
    requires fns.Lawful() && OnlineInv(fns, z, lo, n, m, s)
    ensures Times(s, ExpDiff(fns, m, c)) == SumExp(fns, z, c, lo, n)
  {
    match m
    case Fin(prev) => SumExpRebase(fns, z, prev, c, lo, n);
    case NegInf =>
      forall j | lo <= j < n ensures z(j).NegInf? {
        MaxIsMaximum(z, lo, n);
      }
      SumExpOfMasked(fns, z, c, lo, n);
  }

  /** Folding a tile that is a shifted view of a row is folding that part of the row. */
  lemma FoldTileShift(fns: RealFns, z: int -> Ext, tile: int -> Ext, off: int, len: nat, m: Ext, s: real)
    requires IsShift(z, tile, off, 0, len)
    requires MaxExt(m, MaxOf(tile, 0, len)).Fin?
    ensures MaxOf(tile, 0, len) == MaxOf(z, off, off + len)
    ensures FoldTile(fns, tile, 0, len, m, s) == FoldTile(fns, z, off, off + len, m, s)
  {
    MaxShift(z, tile, off, 0, len);
    var c := MaxExt(m, MaxOf(z, off, off + len)).value;
    forall j | 0 <= j < len ensures ShiftAt(Weights(fns, z, c), Weights(fns, tile, c), off, j) {
      assert ShiftAt(z, tile, off, j);
    }
    SumMoved(Weights(fns, z, c), Weights(fns, tile, c), off, len, off, off + len);
  }

  /** Folding a tile has brought the state up to the first n scores of the row. */
  ghost predicate TileFolded(fns: RealFns, z: int -> Ext, tile: int -> Ext, block: nat, n: nat, m: Ext, s: real) {
    && MaxExt(m, MaxOf(tile, 0, block)).Fin?
    && var (m', s') := FoldTile(fns, tile, 0, block, m, s); m'.Fin? && OnlineInv(fns, z, 0, n, m', s')
  }

  /** One tile of a row padded with minus infinity: its first lane is a real score. */
  lemma PaddedTileKeeps(fns: RealFns, z: int -> Ext, tile: int -> Ext, start: nat, block: nat, m: Ext, s: real)
    requires fns.Lawful() && block > 0 && tile(0).Fin? && IsShift(z, tile, start, 0, block)
    requires OnlineInv(fns, z, 0, start, m, s)
    ensures TileFolded(fns, z, tile, block, start + block, m, s)
  {
    MaxIsMaximum(tile, 0, block);
    FoldTileShift(fns, z, tile, start, block, m, s);
    FoldTileKeeps(fns, z, 0, start, start + block, m, s);
  }

  /** At the end of the row the state is the reference log-sum-exp. */
  lemma OnlineGivesLse(fns: RealFns, z: int -> Ext, lo: int, n: int, m: Ext, s: real)
    requires OnlineInv(fns, z, lo, n, m, s) && m.Fin?
    ensures m.value + fns.log(s) == LogSumExp(fns, z, lo, n)
  {
  }

  /** Masked scores past the end of a row change neither its maximum nor its sums. */
  lemma MaskedTail(fns: RealFns, z: int -> Ext, lo: int, n: int, n': int)
    requires lo <= n <= n'
    requires forall j | n <= j < n' :: z(j).NegInf?
    ensures MaxOf(z, lo, n') == MaxOf(z, lo, n)
    ensures forall c :: SumExp(fns, z, c, lo, n') == SumExp(fns, z, c, lo, n)
  {
    MaxSplit(z, lo, n, n');
    MaxOfMasked(z, n, n');
    forall c ensures SumExp(fns, z, c, lo, n') == SumExp(fns, z, c, lo, n) {
      SumSplit(Weights(fns, z, c), lo, n, n');
      SumExpOfMasked(fns, z, c, n, n');
    }
  }
}
