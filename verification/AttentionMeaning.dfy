/** Attention in terms of its inputs: what one score is, what one output element of the op is, and the flash
    launch against the op on the same tensors. */
module AttentionMeaning {
  import opened Options
  import opened RealFunctions
  import opened Integers
  import opened Softmax
  import opened Attention
  import opened FlashForward
  import opened FlashForwardGrid

  // ----- one score -------------------------------------------------------------------------------

  /** Rows that are zero outside column d have one product, times the scale. */
  lemma ScoreOfColumn(q: Mat, k: Mat, dim: nat, scale: real, i: int, j: int, d: nat)
    requires d < dim && forall e | 0 <= e < dim && e != d :: q(i, e) == 0.0 || k(j, e) == 0.0
    ensures Score(q, k, dim, scale, i, j) == q(i, d) * k(j, d) * scale
  {
    SumSingle(DotTerms(q, i, k, j), 0, dim, d);
  }

  function MinusMat(a: Mat, b: Mat): Mat { (i, d) => a(i, d) - b(i, d) }

  /** A score is additive in the query, and so it is in the key, since query and key can be exchanged. */
  lemma ScoreSubtracts(a: Mat, b: Mat, k: Mat, dim: nat, scale: real, i: int, j: int)
    ensures Score(MinusMat(a, b), k, dim, scale, i, j)
         == Score(a, k, dim, scale, i, j) - Score(b, k, dim, scale, i, j)
    ensures Score(k, a, dim, scale, j, i) == Score(a, k, dim, scale, i, j)
  {
    forall d | 0 <= d < dim
      ensures DotTerms(a, i, k, j)(d) == DotTerms(b, i, k, j)(d) + DotTerms(MinusMat(a, b), i, k, j)(d)
    {
      TimesDistributes(k(j, d), a(i, d), b(i, d));
    }
    SumAdd(DotTerms(b, i, k, j), DotTerms(MinusMat(a, b), i, k, j), DotTerms(a, i, k, j), 0, dim);
    TimesDistributes(scale, Sum(DotTerms(b, i, k, j), 0, dim), Sum(DotTerms(MinusMat(a, b), i, k, j), 0, dim));
    SumCong(DotTerms(k, j, a, i), DotTerms(a, i, k, j), 0, dim);
  }

  // ----- one element of the op -------------------------------------------------------------------

  /** The arguments of one head. */
  datatype HeadCall = HeadCall(q: Head, k: Head, v: Head, dim: nat, causal: bool, scale: real,
                               mask: Option<seq<bool>>) {
    predicate Valid() { IsHead(q, |q|, dim) && IsHead(k, |k|, dim) && IsHead(v, |k|, dim) }

    /** Key j counts for query i: the padding mask marks it, and under a causal mask it is not later, the last
        query standing at the last key. */
    predicate Visible(i: nat, j: int) {
      && 0 <= j < |k| && (causal ==> j + |q| <= i + |k|)
      && (mask.Some? ==> j < |mask.value| && mask.value[j])
    }

    function Products(i: nat, j: nat): int -> real
      requires Valid() && i < |q| && j < |k|
    {
      d => if 0 <= d < dim then q[i][d] * k[j][d] else 0.0
    }

    /** q_i . k_j * scale */
    function Scaled(i: nat, j: nat): real
      requires Valid() && i < |q| && j < |k|
    {
      Sum(Products(i, j), 0, dim) * scale
    }

    /** exp of it, for the keys that count. */
    function Mass(fns: RealFns, i: nat): int -> real
      requires Valid() && i < |q|
    {
      j => if Visible(i, j) then fns.exp(Scaled(i, j)) else 0.0
    }

    /** The same, times column d of the values. */
    function Moment(fns: RealFns, i: nat, d: nat): int -> real
      requires Valid() && i < |q| && d < dim
    {
      j => if Visible(i, j) then Mass(fns, i)(j) * v[j][d] else 0.0
    }

    /** The weighted mean of the visible values. A query with no visible key gives zero under a padding mask and
        over an empty key axis, and NaN otherwise. */
    function Element(fns: RealFns, i: nat, d: nat): Num
      requires Valid() && i < |q| && d < dim
    {
      if Sum(Mass(fns, i), 0, |k|) != 0.0 then
        Real(Sum(Moment(fns, i, d), 0, |k|) / Sum(Mass(fns, i), 0, |k|))
      else if mask.Some? || |k| == 0 then Real(0.0)
      else NaN
    }

    function Row(i: nat): int -> Ext {
      ScoreRow(MatOf(q), MatOf(k), dim, scale, i, CausalLimit(causal, |q|, |k|, i), KeepOf(mask))
    }
  }

  lemma RowIs(c: HeadCall, i: nat, j: nat)
    requires c.Valid() && i < |c.q| && j < |c.k|
    ensures c.Row(i)(j) == if c.Visible(i, j) then Fin(c.Scaled(i, j)) else NegInf
  {
    forall d | 0 <= d < c.dim ensures DotTerms(MatOf(c.q), i, MatOf(c.k), j)(d) == c.Products(i, j)(d) {
      assert Elem(c.q, i, d) == c.q[i][d] && Elem(c.k, j, d) == c.k[j][d];
    }
    SumCong(DotTerms(MatOf(c.q), i, MatOf(c.k), j), c.Products(i, j), 0, c.dim);
    assert KeepOf(c.mask)(j) == (c.mask.Some? ==> j < |c.mask.value| && c.mask.value[j]);
  }

  lemma WeightIs(c: HeadCall, fns: RealFns, i: nat, j: nat)
    requires c.Valid() && i < |c.q| && j < |c.k|
    ensures c.Row(i)(j).Fin? <==> c.Visible(i, j)
    ensures Weights(fns, c.Row(i), 0.0)(j) == c.Mass(fns, i)(j)
  {
    RowIs(c, i, j);
    assert c.Scaled(i, j) - 0.0 == c.Scaled(i, j);
  }

  /** One output element of one head is the mean of the visible values, weighted by exp of their scaled dot
      products; the weights are positive in sum exactly when some key counts. */
  lemma HeadElement(c: HeadCall, fns: RealFns, i: nat, d: nat)
    requires fns.Lawful() && c.Valid() && i < |c.q| && d < c.dim
    ensures AttendHead(fns, c.q, c.k, c.v, c.dim, c.causal, c.scale, c.mask)[i][d] == c.Element(fns, i, d)
    ensures Sum(c.Mass(fns, i), 0, |c.k|) >= 0.0
    ensures Sum(c.Mass(fns, i), 0, |c.k|) > 0.0 <==> exists j :: c.Visible(i, j)
  {
    var z, n, col := c.Row(i), |c.k|, Column(MatOf(c.v), d);
    forall j: nat | j < n
      ensures z(j).Fin? <==> c.Visible(i, j)
      ensures Weights(fns, z, 0.0)(j) == c.Mass(fns, i)(j)
      ensures WeightedTerms(fns, z, 0.0, col)(j) == c.Moment(fns, i, d)(j)
    {
      WeightIs(c, fns, i, j);
    }
    if j :| c.Visible(i, j) {
      MaxIsMaximum(z, 0, n);
      AttendQuotient(fns, z, n, col, 0.0);
      SumCong(Weights(fns, z, 0.0), c.Mass(fns, i), 0, n);
      SumCong(WeightedTerms(fns, z, 0.0, col), c.Moment(fns, i, d), 0, n);
    } else {
      MaxOfMasked(z, 0, n);
      SumZero(c.Mass(fns, i), 0, n);
    }
  }

  /** The scale of a call: the one given, or the inverse of a square root of the head dimension. */
  predicate ScaleIs(scale: Option<real>, dim: nat, s: real) {
    if scale.Some? then s == scale.value else s > 0.0 && s * s * (dim as real) == 1.0
  }

  lemma ScaleOfIs(fns: RealFns, scale: Option<real>, dim: nat, s: real)
    requires fns.Lawful() && dim > 0 && ScaleIs(scale, dim, s)
    ensures ScaleOf(fns, scale, dim) == s
  {
    if scale.None? {
      var root := fns.sqrt(dim as real);
      SqrtSquares(fns, dim as real);
      RootPositive(fns, dim);
      OneOverRoot(root, s);
    }
  }

  lemma OneOverRoot(root: real, s: real)
    requires root > 0.0 && s > 0.0 && s * s * (root * root) == 1.0
    ensures s == 1.0 / root
  {
    var p := s * root;
    assert p > 0.0;
    assert p * p == s * s * (root * root);
    assert (p - 1.0) * (p + 1.0) == 0.0;
    assert p == 1.0;
    assert (s - 1.0 / root) * root == 0.0;
  }

  /** NativeAttentionOp.forward, element by element: query head h over key and value head h / (Hq / Hkv). */
  lemma ForwardElement(fns: RealFns, q: seq<Head>, k: seq<Head>, v: seq<Head>, dim: nat, causal: bool,
                       scale: Option<real>, mask: Option<seq<bool>>, s: real, h: nat, i: nat, d: nat)
    requires fns.Lawful() && dim > 0 && |k| > 0 && |v| == |k| && |q| % |k| == 0 && h < |q| && ScaleIs(scale, dim, s)
    requires |q| / |k| > 0 && h / (|q| / |k|) < |k|
    requires var g := h / (|q| / |k|);
             HeadCall(q[h], k[g], v[g], dim, causal, s, mask).Valid() && i < |q[h]| && d < dim
    ensures Forward(fns, q, k, v, dim, causal, scale, mask).Success?
    ensures var g := h / (|q| / |k|);
            Forward(fns, q, k, v, dim, causal, scale, mask).value[h][i][d]
            == HeadCall(q[h], k[g], v[g], dim, causal, s, mask).Element(fns, i, d)
  {
    var c := HeadCall(q[h], k[h / (|q| / |k|)], v[h / (|q| / |k|)], dim, causal, s, mask);
    ForwardHead(fns, q, k, v, dim, causal, scale, mask, h);
    ScaleOfIs(fns, scale, dim, s);
    HeadElement(c, fns, i, d);
  }

  /** The op refuses exactly the head counts that do not divide, and returns a row of the value dimension for
      every query otherwise. */
  lemma ForwardFailsIff(fns: RealFns, q: seq<Head>, k: seq<Head>, v: seq<Head>, dim: nat, causal: bool,
                        scale: Option<real>, mask: Option<seq<bool>>)
    requires fns.Lawful() && dim > 0 && |q| > 0 && |k| > 0 && |v| == |k|
    ensures Forward(fns, q, k, v, dim, causal, scale, mask).Failure? <==> |q| % |k| != 0
    ensures |q| % |k| == 0 ==>
      var out := Forward(fns, q, k, v, dim, causal, scale, mask).value;
      && |out| == |q|
      && forall h, i | 0 <= h < |q| && 0 <= i < |q[h]| :: |out[h]| == |q[h]| && |out[h][i]| == dim
  {
    if |q| % |k| == 0 {
      forall h | 0 <= h < |q| ensures |Forward(fns, q, k, v, dim, causal, scale, mask).value[h]| == |q[h]| {
        ForwardHead(fns, q, k, v, dim, causal, scale, mask, h);
      }
    }
  }

  // ----- the flash launch on tensors -------------------------------------------------------------

  /** The buffers hold the heads one after the other. */
  ghost predicate HoldsHeads(a: Mat, t: seq<Head>, s: nat, dim: nat) {
    forall h, i, d | 0 <= h < |t| && 0 <= i < s && 0 <= d < dim && i < |t[h]| && d < |t[h][i]| ::
      HoldsEntry(a, t, s, h, i, d)
  }

  ghost predicate HoldsEntry(a: Mat, t: seq<Head>, s: nat, h: nat, i: nat, d: nat)
    requires h < |t| && i < |t[h]| && d < |t[h][i]|
  {
    a(h * s + i, d) == t[h][i][d]
  }

  /** On q, k and v of one head count, the flash launch stores the elements of NativeAttentionOp on the same
      tensors, in any order of its programs, whenever its blocks divide the length. */
  lemma FlashIsNativeOp(x: Batch, order: seq<nat>, c: Cell, q: seq<Head>, k: seq<Head>, v: seq<Head>,
                        h: nat, i: nat, d: nat)
    requires x.Valid() && x.dim > 0 && x.Grid().IsRun(order) && |q| == |k| == |v| == x.heads
    requires IsTensor(q, x.nCtx, x.dim) && IsTensor(k, x.nCtx, x.dim) && IsTensor(v, x.nCtx, x.dim)
    requires HoldsHeads(x.q, q, x.nCtx, x.dim) && HoldsHeads(x.k, k, x.nCtx, x.dim) && HoldsHeads(x.v, v, x.nCtx, x.dim)
    requires x.nCtx % x.blockM == 0 && (x.causal || x.nCtx % x.blockN == 0)
    requires h < x.heads && i < x.nCtx && d < x.dim
    ensures |FlashForwardGrid.AfterRun(x, order, h * x.nCtx + i, c).out| == x.dim
    ensures Real(FlashForwardGrid.AfterRun(x, order, h * x.nCtx + i, c).out[d])
         == Forward(x.fns, q, k, v, x.dim, x.causal, Some(x.scale), None).value[h][i][d]
         == HeadCall(q[h], k[h], v[h], x.dim, x.causal, x.scale, None).Element(x.fns, i, d)
  {
    var row, head := h * x.nCtx + i, x.Head(h);
    assert row == Span(h, x.nCtx) + i;
    SpanAdds(h, 1, x.nCtx);
    SpanAdds(h + 1, x.heads - (h + 1), x.nCtx);
    EuclideanRest(row, x.nCtx, h, i);
    RowIsNaive(x, order, row, c);
    forall r, e | 0 <= r < x.nCtx && 0 <= e < x.dim
      ensures head.q(r, e) == q[h][r][e] && head.k(r, e) == k[h][r][e] && head.v(r, e) == v[h][r][e]
    {
      assert HoldsEntry(x.q, q, x.nCtx, h, r, e) && HoldsEntry(x.k, k, x.nCtx, h, r, e);
      assert HoldsEntry(x.v, v, x.nCtx, h, r, e);
    }
    NaiveIsNativeOp(head, q[h], k[h], v[h], i, d);
    ForwardElement(x.fns, q, k, v, x.dim, x.causal, Some(x.scale), None, x.scale, h, i, d);
    ForwardHead(x.fns, q, k, v, x.dim, x.causal, Some(x.scale), None, h);
  }
}
