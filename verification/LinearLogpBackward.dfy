/** Gradients of the linear log-probability: the token-chunked backward, its vocabulary-sharded twin,
    and what makes them the gradients. */
module LinearLogpBackward {
  import opened Integers
  import opened RealFunctions
  import opened Softmax
  import opened VocabPartition
  import opened LinearLogp

  /** Tokens with their targets and incoming gradients. */
  datatype Batch = Batch(hidden: seq<Vec>, targets: seq<int>, grad: seq<real>) {
    predicate Valid() { |hidden| == |targets| == |grad| }
  }

  // ----- the reference ---------------------------------------------------------------------------

  function Prob(fns: RealFns, head: LmHead, h: Vec, j: int): real
    requires fns.Lawful() && head.Vocab() > 0
  {
    FiniteMax(head.Logits(h), 0, head.Vocab());
    SoftmaxAt(fns, head.Logits(h), 0, head.Vocab(), j)
  }

  /** g * (onehot - softmax): the gradient of g * logp with respect to logit j. */
  function Dz(fns: RealFns, head: LmHead, h: Vec, t: int, g: real, j: int): real
    requires fns.Lawful() && head.Vocab() > 0
  {
    Times((if j == t then 1.0 else 0.0) - Prob(fns, head, h, j), g)
  }

  function HiddenTerms(fns: RealFns, head: LmHead, h: Vec, t: int, g: real, d: int): int -> real
    requires fns.Lawful() && head.Vocab() > 0
  {
    j => Times(Dz(fns, head, h, t, g, j), At(RowAt(head.weight, j), d))
  }

  function GradHidden(fns: RealFns, head: LmHead, h: Vec, t: int, g: real, d: int): real
    requires fns.Lawful() && head.Vocab() > 0
  {
    Sum(HiddenTerms(fns, head, h, t, g, d), 0, head.Vocab())
  }

  function WeightTerms(fns: RealFns, head: LmHead, batch: Batch, j: int, d: int): int -> real
    requires fns.Lawful() && head.Vocab() > 0 && batch.Valid()
  {
    i => if 0 <= i < |batch.hidden| then
           Times(Dz(fns, head, batch.hidden[i], batch.targets[i], batch.grad[i], j), At(batch.hidden[i], d))
         else 0.0
  }

  function BiasTerms(fns: RealFns, head: LmHead, batch: Batch, j: int): int -> real
    requires fns.Lawful() && head.Vocab() > 0 && batch.Valid()
  {
    i => if 0 <= i < |batch.hidden| then Dz(fns, head, batch.hidden[i], batch.targets[i], batch.grad[i], j) else 0.0
  }

  function GradWeight(fns: RealFns, head: LmHead, batch: Batch, j: int, d: int): real
    requires fns.Lawful() && head.Vocab() > 0 && batch.Valid()
  {
    Sum(WeightTerms(fns, head, batch, j, d), 0, |batch.hidden|)
  }

  function GradBias(fns: RealFns, head: LmHead, batch: Batch, j: int): real
    requires fns.Lawful() && head.Vocab() > 0 && batch.Valid()
  {
    Sum(BiasTerms(fns, head, batch, j), 0, |batch.hidden|)
  }

  // ----- the chunked loop ------------------------------------------------------------------------

  /** How a backward recomputes dz: from the chunk's own softmax, or from the saved global lse of a
      vocabulary-sharded forward. */
  datatype Mode = OwnSoftmax | GlobalLse(lse: seq<real>, vocabStart: int)

  ghost predicate Ready(fns: RealFns, head: LmHead, batch: Batch, mode: Mode) {
    && fns.Lawful() && head.Valid() && head.Vocab() > 0 && batch.Valid()
    && (mode.GlobalLse? ==> |mode.lse| == |batch.hidden|)
    && (mode.OwnSoftmax? ==> InRange(batch.targets, head.Vocab()))
  }

  function Negated(fns: RealFns, head: LmHead, h: Vec, mode: Mode, lse: real, j: int): real
    requires fns.Lawful() && head.Vocab() > 0
  {
    if mode.OwnSoftmax? then -Prob(fns, head, h, j) else -fns.exp(head.Logit(h, j) - lse)
  }

  /** One row of dz: the negated probabilities, the target's entry incremented, then scaled. A shard that
      does not own the target adds zero at the clamped index. */
  function DzRow(fns: RealFns, head: LmHead, batch: Batch, mode: Mode, i: nat): Vec
    requires Ready(fns, head, batch, mode) && i < |batch.hidden|
  {
    var h, t, v := batch.hidden[i], batch.targets[i], head.Vocab();
    var lse := if mode.GlobalLse? then mode.lse[i] else 0.0;
    var negated := seq(v, j => Negated(fns, head, h, mode, lse, j));
    var local := if mode.GlobalLse? then t - mode.vocabStart else t;
    var owns := 0 <= local < v;
    var safe := Clamp(local, 0, MaxInt(v - 1, 0));
    var hit := negated[safe := negated[safe] + if owns then 1.0 else 0.0];
    seq(v, j requires 0 <= j < |hit| => Times(hit[j], batch.grad[i]))
  }

  function DzAt(fns: RealFns, head: LmHead, batch: Batch, mode: Mode, i: int, j: int): real
    requires Ready(fns, head, batch, mode)
  {
    if 0 <= i < |batch.hidden| then At(DzRow(fns, head, batch, mode, i), j) else 0.0
  }

  function HTerms(fns: RealFns, head: LmHead, batch: Batch, mode: Mode, i: int, d: int): int -> real
    requires Ready(fns, head, batch, mode)
  {
    j => Times(DzAt(fns, head, batch, mode, i, j), At(RowAt(head.weight, j), d))
  }

  function WTerms(fns: RealFns, head: LmHead, batch: Batch, mode: Mode, j: int, d: int): int -> real
    requires Ready(fns, head, batch, mode)
  {
    i => Times(DzAt(fns, head, batch, mode, i, j), At(RowAt(batch.hidden, i), d))
  }

  function BTerms(fns: RealFns, head: LmHead, batch: Batch, mode: Mode, j: int): int -> real
    requires Ready(fns, head, batch, mode)
  {
    i => DzAt(fns, head, batch, mode, i, j)
  }

  /** dz @ weight, one row. */
  function HiddenRow(fns: RealFns, head: LmHead, batch: Batch, mode: Mode, dim: nat, i: int): Vec
    requires Ready(fns, head, batch, mode)
  {
    seq(dim, d => Sum(HTerms(fns, head, batch, mode, i, d), 0, head.Vocab()))
  }

  /** dz^T @ x over the tokens [0, n), one row. */
  function WeightRow(fns: RealFns, head: LmHead, batch: Batch, mode: Mode, dim: nat, j: int, n: int): Vec
    requires Ready(fns, head, batch, mode)
  {
    seq(dim, d => Sum(WTerms(fns, head, batch, mode, j, d), 0, n))
  }

  /** The chunk's own dz^T @ x, added to a row of grad_w. */
  function AddWeightRow(fns: RealFns, head: LmHead, batch: Batch, mode: Mode, j: int, i0: int, i1: int, row: Vec): Vec
    requires Ready(fns, head, batch, mode)
  {
    seq(|row|, d requires 0 <= d < |row| => row[d] + Sum(WTerms(fns, head, batch, mode, j, d), i0, i1))
  }

  lemma AddWeightRowExtends(fns: RealFns, head: LmHead, batch: Batch, mode: Mode, dim: nat, j: int, i0: nat, i1: nat)
    requires Ready(fns, head, batch, mode) && i0 <= i1
    ensures AddWeightRow(fns, head, batch, mode, j, i0, i1, WeightRow(fns, head, batch, mode, dim, j, i0))
            == WeightRow(fns, head, batch, mode, dim, j, i1)
    ensures Sum(BTerms(fns, head, batch, mode, j), 0, i0) + Sum(BTerms(fns, head, batch, mode, j), i0, i1)
            == Sum(BTerms(fns, head, batch, mode, j), 0, i1)
  {
    var before, after := WeightRow(fns, head, batch, mode, dim, j, i0), WeightRow(fns, head, batch, mode, dim, j, i1);
    var added := AddWeightRow(fns, head, batch, mode, j, i0, i1, before);
    forall d | 0 <= d < dim ensures added[d] == after[d] {
      SumSplit(WTerms(fns, head, batch, mode, j, d), 0, i0, i1);
    }
    assert added == after;
    SumSplit(BTerms(fns, head, batch, mode, j), 0, i0, i1);
  }

  /** chunked_linear_logp_backward, and tensor_parallel_linear_logp_backward on one rank before its
      all-reduce: for every chunk budget the buffers end as the whole-batch products. */
  method ChunkedBackward(fns: RealFns, head: LmHead, batch: Batch, mode: Mode, dim: nat, chunkElems: nat)
    returns (gradH: seq<Vec>, gradW: seq<Vec>, gradB: Vec)
    requires Ready(fns, head, batch, mode)
    ensures |gradH| == |batch.hidden| && |gradW| == |gradB| == head.Vocab()
    ensures forall i | 0 <= i < |gradH| :: gradH[i] == HiddenRow(fns, head, batch, mode, dim, i)
    ensures forall j | 0 <= j < |gradW| :: gradW[j] == WeightRow(fns, head, batch, mode, dim, j, |batch.hidden|)
    ensures forall j | 0 <= j < |gradB| :: gradB[j] == Sum(BTerms(fns, head, batch, mode, j), 0, |batch.hidden|)
  {
    var n, v := |batch.hidden|, head.Vocab();
    var h := new Vec[n](i => []);
    var w := new Vec[v](j => seq(dim, d => 0.0));
    var b := new real[v](j => 0.0);
    var chunk := MaxInt(1, MinInt(n, chunkElems / v));
    var i0 := 0;
    while i0 < n
      invariant 0 <= i0 <= n
      invariant forall i | 0 <= i < i0 :: h[i] == HiddenRow(fns, head, batch, mode, dim, i)
      invariant forall j | 0 <= j < v :: w[j] == WeightRow(fns, head, batch, mode, dim, j, i0)
      invariant forall j | 0 <= j < v :: b[j] == Sum(BTerms(fns, head, batch, mode, j), 0, i0)
    {
      var i1 := MinInt(i0 + chunk, n);
      forall j | 0 <= j < v
        ensures AddWeightRow(fns, head, batch, mode, j, i0, i1, WeightRow(fns, head, batch, mode, dim, j, i0))
                == WeightRow(fns, head, batch, mode, dim, j, i1)
        ensures Sum(BTerms(fns, head, batch, mode, j), 0, i0) + Sum(BTerms(fns, head, batch, mode, j), i0, i1)
                == Sum(BTerms(fns, head, batch, mode, j), 0, i1)
      {
        AddWeightRowExtends(fns, head, batch, mode, dim, j, i0, i1);
      }
      forall i | i0 <= i < i1 {
        h[i] := HiddenRow(fns, head, batch, mode, dim, i);
      }
      forall j | 0 <= j < v {
        w[j] := AddWeightRow(fns, head, batch, mode, j, i0, i1, w[j]);
      }
      forall j | 0 <= j < v {
        b[j] := b[j] + Sum(BTerms(fns, head, batch, mode, j), i0, i1);
      }
      i0 := i1;
    }
    gradH, gradW, gradB := h[..], w[..], b[..];
  }

  // ----- the loop against the reference ----------------------------------------------------------

  /** On one device, dz is g * (onehot - softmax). */
  lemma OwnDz(fns: RealFns, head: LmHead, batch: Batch, i: nat, j: nat)
    requires Ready(fns, head, batch, OwnSoftmax) && i < |batch.hidden| && j < head.Vocab()
    ensures DzAt(fns, head, batch, OwnSoftmax, i, j)
         == Dz(fns, head, batch.hidden[i], batch.targets[i], batch.grad[i], j)
  {
    var h, t := batch.hidden[i], batch.targets[i];
    assert 0 <= t < head.Vocab();
    assert Negated(fns, head, h, OwnSoftmax, 0.0, j) == -Prob(fns, head, h, j);
  }

  ghost predicate LseSaved(fns: RealFns, whole: LmHead, batch: Batch, lse: seq<real>) {
    && batch.Valid() && |lse| == |batch.hidden| && whole.Vocab() > 0
    && forall i | 0 <= i < |lse| :: IsLse(fns, whole, batch.hidden[i], lse[i])
  }

  predicate IsLse(fns: RealFns, whole: LmHead, h: Vec, lse: real) {
    whole.Vocab() > 0 && lse == LogSumExpOf(fns, whole, h)
  }

  /** One rank of an accepted group, with the saved global lse. */
  ghost predicate OnShard(fns: RealFns, whole: LmHead, r: Shard, batch: Batch, lse: seq<real>) {
    && whole.Valid() && 0 <= r.0 < r.1 <= whole.Vocab() && LseSaved(fns, whole, batch, lse)
    && Ready(fns, ShardHead(whole, r), batch, GlobalLse(lse, r.0))
  }

  /** On a shard, dz from the global lse is the whole head's dz over the shard's range. */
  lemma ShardDz(fns: RealFns, whole: LmHead, r: Shard, batch: Batch, lse: seq<real>, i: nat, j: nat)
    requires OnShard(fns, whole, r, batch, lse) && i < |batch.hidden| && j < r.1 - r.0
    ensures DzAt(fns, ShardHead(whole, r), batch, GlobalLse(lse, r.0), i, j)
            == Dz(fns, whole, batch.hidden[i], batch.targets[i], batch.grad[i], r.0 + j)
  {
    ShardNegated(fns, whole, r, batch, lse, i, j);
  }

  /** exp(z - lse) on a shard is the whole head's probability. */
  lemma ShardNegated(fns: RealFns, whole: LmHead, r: Shard, batch: Batch, lse: seq<real>, i: nat, j: nat)
    requires OnShard(fns, whole, r, batch, lse) && i < |batch.hidden| && j < r.1 - r.0
    ensures Negated(fns, ShardHead(whole, r), batch.hidden[i], GlobalLse(lse, r.0), lse[i], j)
        == -Prob(fns, whole, batch.hidden[i], r.0 + j)
  {
    SliceLogit(whole, batch.hidden[i], r.0, r.1, j);
    ProbIsExp(fns, whole, batch.hidden[i], r.0 + j);
  }

  /** For every chunk budget the one-device backward is the whole-batch g * (onehot - softmax) gradient. */
  lemma ChunkedIsReference(fns: RealFns, head: LmHead, batch: Batch, dim: nat)
    requires Ready(fns, head, batch, OwnSoftmax)
    ensures forall i, d | 0 <= i < |batch.hidden| && 0 <= d < dim ::
      HiddenRow(fns, head, batch, OwnSoftmax, dim, i)[d]
      == GradHidden(fns, head, batch.hidden[i], batch.targets[i], batch.grad[i], d)
    ensures forall j, d | 0 <= j < head.Vocab() && 0 <= d < dim ::
      WeightRow(fns, head, batch, OwnSoftmax, dim, j, |batch.hidden|)[d] == GradWeight(fns, head, batch, j, d)
    ensures forall j | 0 <= j < head.Vocab() ::
      Sum(BTerms(fns, head, batch, OwnSoftmax, j), 0, |batch.hidden|) == GradBias(fns, head, batch, j)
  {
    forall i, d | 0 <= i < |batch.hidden| && 0 <= d < dim
      ensures HiddenRow(fns, head, batch, OwnSoftmax, dim, i)[d]
              == GradHidden(fns, head, batch.hidden[i], batch.targets[i], batch.grad[i], d)
    {
      forall j | 0 <= j < head.Vocab()
        ensures HTerms(fns, head, batch, OwnSoftmax, i, d)(j)
                == HiddenTerms(fns, head, batch.hidden[i], batch.targets[i], batch.grad[i], d)(j)
      {
        OwnDz(fns, head, batch, i, j);
      }
      SumCong(HTerms(fns, head, batch, OwnSoftmax, i, d),
              HiddenTerms(fns, head, batch.hidden[i], batch.targets[i], batch.grad[i], d), 0, head.Vocab());
    }
    forall j, d | 0 <= j < head.Vocab() && 0 <= d < dim
      ensures WeightRow(fns, head, batch, OwnSoftmax, dim, j, |batch.hidden|)[d] == GradWeight(fns, head, batch, j, d)
    {
      forall i | 0 <= i < |batch.hidden|
        ensures WTerms(fns, head, batch, OwnSoftmax, j, d)(i) == WeightTerms(fns, head, batch, j, d)(i)
      {
        OwnDz(fns, head, batch, i, j);
      }
      SumCong(WTerms(fns, head, batch, OwnSoftmax, j, d), WeightTerms(fns, head, batch, j, d), 0, |batch.hidden|);
    }
    forall j | 0 <= j < head.Vocab()
      ensures Sum(BTerms(fns, head, batch, OwnSoftmax, j), 0, |batch.hidden|) == GradBias(fns, head, batch, j)
    {
      forall i | 0 <= i < |batch.hidden|
        ensures BTerms(fns, head, batch, OwnSoftmax, j)(i) == BiasTerms(fns, head, batch, j)(i)
      {
        OwnDz(fns, head, batch, i, j);
      }
      SumCong(BTerms(fns, head, batch, OwnSoftmax, j), BiasTerms(fns, head, batch, j), 0, |batch.hidden|);
    }
  }

  /** chunked_linear_logp_backward on one device. */
  method OneDeviceBackward(fns: RealFns, head: LmHead, batch: Batch, dim: nat, chunkElems: nat)
    returns (gradH: seq<Vec>, gradW: seq<Vec>, gradB: Vec)
    requires Ready(fns, head, batch, OwnSoftmax)
    ensures |gradH| == |batch.hidden| && |gradW| == |gradB| == head.Vocab()
    ensures forall i | 0 <= i < |gradH| :: |gradH[i]| == dim
    ensures forall j | 0 <= j < |gradW| :: |gradW[j]| == dim
    ensures forall i, d | 0 <= i < |gradH| && 0 <= d < dim ::
      gradH[i][d] == GradHidden(fns, head, batch.hidden[i], batch.targets[i], batch.grad[i], d)
    ensures forall j, d | 0 <= j < |gradW| && 0 <= d < dim :: gradW[j][d] == GradWeight(fns, head, batch, j, d)
    ensures forall j | 0 <= j < |gradB| :: gradB[j] == GradBias(fns, head, batch, j)
  {
    gradH, gradW, gradB := ChunkedBackward(fns, head, batch, OwnSoftmax, dim, chunkElems);
    ChunkedIsReference(fns, head, batch, dim);
  }

  // ----- vocabulary shards -----------------------------------------------------------------------

  lemma ShardWeightTerm(fns: RealFns, whole: LmHead, r: Shard, batch: Batch, lse: seq<real>, j: nat, d: nat, i: nat)
    requires OnShard(fns, whole, r, batch, lse) && j < r.1 - r.0 && i < |batch.hidden|
    ensures BTerms(fns, ShardHead(whole, r), batch, GlobalLse(lse, r.0), j)(i)
         == BiasTerms(fns, whole, batch, r.0 + j)(i)
    ensures WTerms(fns, ShardHead(whole, r), batch, GlobalLse(lse, r.0), j, d)(i)
        == WeightTerms(fns, whole, batch, r.0 + j, d)(i)
  {
    ShardDz(fns, whole, r, batch, lse, i, j);
  }

  /** A shard's weight and bias gradients are the rows of the unsharded ones over its range. */
  lemma ShardWeightGradient(fns: RealFns, whole: LmHead, r: Shard, batch: Batch, lse: seq<real>, j: nat, d: nat)
    requires OnShard(fns, whole, r, batch, lse) && j < r.1 - r.0
    ensures Sum(WTerms(fns, ShardHead(whole, r), batch, GlobalLse(lse, r.0), j, d), 0, |batch.hidden|)
            == GradWeight(fns, whole, batch, r.0 + j, d)
    ensures Sum(BTerms(fns, ShardHead(whole, r), batch, GlobalLse(lse, r.0), j), 0, |batch.hidden|)
            == GradBias(fns, whole, batch, r.0 + j)
  {
    var part, mode, n := ShardHead(whole, r), GlobalLse(lse, r.0), |batch.hidden|;
    forall i | 0 <= i < n
      ensures BTerms(fns, part, batch, mode, j)(i) == BiasTerms(fns, whole, batch, r.0 + j)(i)
      ensures WTerms(fns, part, batch, mode, j, d)(i) == WeightTerms(fns, whole, batch, r.0 + j, d)(i)
    {
      ShardWeightTerm(fns, whole, r, batch, lse, j, d, i);
    }
    SumCong(BTerms(fns, part, batch, mode, j), BiasTerms(fns, whole, batch, r.0 + j), 0, n);
    SumCong(WTerms(fns, part, batch, mode, j, d), WeightTerms(fns, whole, batch, r.0 + j, d), 0, n);
  }

  lemma ShardHiddenTerm(fns: RealFns, whole: LmHead, r: Shard, batch: Batch, lse: seq<real>, i: nat, d: nat, j: nat)
    requires OnShard(fns, whole, r, batch, lse) && i < |batch.hidden| && j < r.1 - r.0
    ensures ShiftAt(HiddenTerms(fns, whole, batch.hidden[i], batch.targets[i], batch.grad[i], d),
                    HTerms(fns, ShardHead(whole, r), batch, GlobalLse(lse, r.0), i, d), r.0, j)
  {
    ShardDz(fns, whole, r, batch, lse, i, j);
    assert RowAt(ShardHead(whole, r).weight, j) == RowAt(whole.weight, j + r.0);
  }

  /** A shard's hidden gradient is the whole head's sum restricted to its range. */
  lemma ShardHiddenGradient(fns: RealFns, whole: LmHead, r: Shard, batch: Batch, lse: seq<real>, i: nat, d: nat)
    requires OnShard(fns, whole, r, batch, lse) && i < |batch.hidden|
    ensures Sum(HTerms(fns, ShardHead(whole, r), batch, GlobalLse(lse, r.0), i, d), 0, ShardHead(whole, r).Vocab())
            == Sum(HiddenTerms(fns, whole, batch.hidden[i], batch.targets[i], batch.grad[i], d), r.0, r.1)
  {
    var part := HTerms(fns, ShardHead(whole, r), batch, GlobalLse(lse, r.0), i, d);
    var full := HiddenTerms(fns, whole, batch.hidden[i], batch.targets[i], batch.grad[i], d);
    forall j: nat | j < r.1 - r.0 ensures ShiftAt(full, part, r.0, j) {
      ShardHiddenTerm(fns, whole, r, batch, lse, i, d, j);
    }
    SumMoved(full, part, r.0, r.1 - r.0, r.0, r.1);
  }

  /** The hidden gradients of the ranks before their all-reduce. */
  ghost predicate RankHidden(fns: RealFns, whole: LmHead, batch: Batch, rs: seq<Shard>, total: seq<Vec>, dim: nat)
    requires fns.Lawful() && whole.Vocab() > 0 && batch.Valid()
  {
    |total| == |batch.hidden| && forall i | 0 <= i < |total| :: RankHiddenRow(fns, whole, batch, rs, i, total[i], dim)
  }

  ghost predicate RankHiddenRow(fns: RealFns, whole: LmHead, batch: Batch, rs: seq<Shard>, i: nat, row: Vec, dim: nat)
    requires fns.Lawful() && whole.Vocab() > 0 && batch.Valid() && i < |batch.hidden|
  {
    |row| == dim && forall d | 0 <= d < dim ::
      row[d] == RangeSum(HiddenTerms(fns, whole, batch.hidden[i], batch.targets[i], batch.grad[i], d), rs)
  }

  /** One more rank's gradient summed in by the all-reduce. */
  function AddVec(a: Vec, b: Vec): Vec { seq(|a|, d requires 0 <= d < |a| => a[d] + At(b, d)) }

  function AddRows(a: seq<Vec>, b: seq<Vec>): seq<Vec> {
    seq(|a|, i requires 0 <= i < |a| => AddVec(a[i], RowAt(b, i)))
  }

  lemma AddRankRow(fns: RealFns, whole: LmHead, r: Shard, batch: Batch, lse: seq<real>, dim: nat,
                   rs: seq<Shard>, i: nat, row: Vec)
    requires OnShard(fns, whole, r, batch, lse) && i < |batch.hidden|
    requires RankHiddenRow(fns, whole, batch, rs, i, row, dim)
    ensures RankHiddenRow(fns, whole, batch, rs + [r], i,
                          AddVec(row, HiddenRow(fns, ShardHead(whole, r), batch, GlobalLse(lse, r.0), dim, i)), dim)
  {
    forall d | 0 <= d < dim
      ensures AddVec(row, HiddenRow(fns, ShardHead(whole, r), batch, GlobalLse(lse, r.0), dim, i))[d]
              == RangeSum(HiddenTerms(fns, whole, batch.hidden[i], batch.targets[i], batch.grad[i], d), rs + [r])
    {
      ShardHiddenGradient(fns, whole, r, batch, lse, i, d);
      Snoc(HiddenTerms(fns, whole, batch.hidden[i], batch.targets[i], batch.grad[i], d), 0, rs, r);
    }
  }

  ghost predicate RankWeights(fns: RealFns, whole: LmHead, batch: Batch, r: Shard, gradW: seq<Vec>, gradB: Vec,
                              dim: nat)
    requires fns.Lawful() && whole.Vocab() > 0 && batch.Valid()
  {
    && |gradW| == |gradB| == r.1 - r.0
    && forall j | 0 <= j < |gradW| ::
         && |gradW[j]| == dim && gradB[j] == GradBias(fns, whole, batch, r.0 + j)
         && forall d | 0 <= d < dim :: gradW[j][d] == GradWeight(fns, whole, batch, r.0 + j, d)
  }

  /** One rank's backward, in terms of the whole head. */
  method RankBackward(fns: RealFns, part: LmHead, vocabStart: int, ghost whole: LmHead, ghost r: Shard,
                      batch: Batch, lse: seq<real>, dim: nat, chunkElems: nat, ghost rs: seq<Shard>, total: seq<Vec>)
    returns (gradH: seq<Vec>, gradW: seq<Vec>, gradB: Vec)
    requires OnShard(fns, whole, r, batch, lse) && part == ShardHead(whole, r) && vocabStart == r.0
    requires RankHidden(fns, whole, batch, rs, total, dim)
    ensures RankHidden(fns, whole, batch, rs + [r], gradH, dim)
    ensures RankWeights(fns, whole, batch, r, gradW, gradB, dim)
  {
    var mode := GlobalLse(lse, vocabStart);
    var h, w, b := ChunkedBackward(fns, part, batch, mode, dim, chunkElems);
    gradH, gradW, gradB := AddRows(total, h), w, b;
    forall i | 0 <= i < |gradH| ensures RankHiddenRow(fns, whole, batch, rs + [r], i, gradH[i], dim) {
      AddRankRow(fns, whole, r, batch, lse, dim, rs, i, total[i]);
    }
    forall j, d | 0 <= j < |w| && 0 <= d < dim ensures w[j][d] == GradWeight(fns, whole, batch, r.0 + j, d) {
      ShardWeightGradient(fns, whole, r, batch, lse, j, d);
    }
    forall j | 0 <= j < |w| ensures b[j] == GradBias(fns, whole, batch, r.0 + j) {
      ShardWeightGradient(fns, whole, r, batch, lse, j, 0);
    }
  }

  /** tensor_parallel_linear_logp_backward over a whole group: under an accepted partition the all-reduced
      hidden gradient is the unsharded one, and each rank holds its rows of the weight and bias gradients. */
  method TensorParallelBackward(fns: RealFns, group: Group, ghost whole: LmHead, batch: Batch, lse: seq<real>,
                                dim: nat, chunkElems: nat)
    returns (gradH: seq<Vec>, gradW: seq<seq<Vec>>, gradB: seq<Vec>)
    requires fns.Lawful() && group.Valid() && group.Holds(whole) && Accepted(group.Ranks(), whole.Vocab())
    requires LseSaved(fns, whole, batch, lse)
    ensures |gradH| == |batch.hidden| && forall i | 0 <= i < |gradH| :: |gradH[i]| == dim && forall d | 0 <= d < dim ::
      gradH[i][d] == GradHidden(fns, whole, batch.hidden[i], batch.targets[i], batch.grad[i], d)
    ensures |gradW| == |gradB| == |group.shards| && forall k | 0 <= k < |gradW| ::
      RankWeights(fns, whole, batch, Shards(group.Ranks())[k], gradW[k], gradB[k], dim)
  {
    ghost var rs := Shards(group.Ranks());
    forall k | 0 <= k < |rs|
      ensures OnShard(fns, whole, rs[k], batch, lse) && group.shards[k] == ShardHead(whole, rs[k])
          && group.starts[k] == rs[k].0
    {
      ShardReady(fns, group, whole, batch, lse, k);
    }
    gradH := seq(|batch.hidden|, i => seq(dim, d => 0.0));
    gradW, gradB := [], [];
    for k := 0 to |group.shards|
      invariant |gradW| == |gradB| == k
      invariant RankHidden(fns, whole, batch, rs[..k], gradH, dim)
      invariant forall p | 0 <= p < k :: RankWeights(fns, whole, batch, rs[p], gradW[p], gradB[p], dim)
    {
      var h, w, b := RankBackward(fns, group.shards[k], group.starts[k], whole, rs[k], batch, lse, dim, chunkElems,
          rs[..k], gradH);
      assert rs[..k + 1] == rs[..k] + [rs[k]];
      gradH, gradW, gradB := h, gradW + [w], gradB + [b];
    }
    assert rs[..|group.shards|] == rs;
    forall i, d | 0 <= i < |gradH| && 0 <= d < dim
      ensures gradH[i][d] == GradHidden(fns, whole, batch.hidden[i], batch.targets[i], batch.grad[i], d)
    {
      assert RankHiddenRow(fns, whole, batch, rs, i, gradH[i], dim);
      PartitionSums(HiddenTerms(fns, whole, batch.hidden[i], batch.targets[i], batch.grad[i], d), rs, whole.Vocab());
    }
  }

  lemma ShardReady(fns: RealFns, group: Group, whole: LmHead, batch: Batch, lse: seq<real>, k: nat)
    requires fns.Lawful() && group.Valid() && group.Holds(whole) && Accepted(group.Ranks(), whole.Vocab())
    requires LseSaved(fns, whole, batch, lse) && k < |group.shards|
    ensures var r := Shards(group.Ranks())[k];
            OnShard(fns, whole, r, batch, lse) && group.shards[k] == ShardHead(whole, r) && r.0 == group.starts[k]
  {
    assert Shards(group.Ranks())[k] == ShardOf(group.Ranks()[k]);
  }

  // ----- why these are the gradients -------------------------------------------------------------

  /** Two points in logit space: a head and a token, and another head of the same vocabulary with
      another token. */
  datatype Pair = Pair(fns: RealFns, head: LmHead, h: Vec, other: LmHead, h': Vec) {
    ghost predicate Valid() { fns.Lawful() && head.Vocab() == other.Vocab() > 0 }

    function Step(j: int): real { other.Logit(h', j) - head.Logit(h, j) }

    function MeanTerms(): int -> real
      requires Valid()
    {
      j => Times(Prob(fns, head, h, j), Step(j))
    }

    /** The softmax-weighted mean of the logit step. */
    function Mean(): real
      requires Valid()
    {
      Sum(MeanTerms(), 0, head.Vocab())
    }

    function Probs(): int -> real
      requires Valid()
    {
      j => Prob(fns, head, h, j)
    }

    /** p_j (1 + step_j - mean) */
    function TangentTerms(): int -> real
      requires Valid()
    {
      j => Times(Prob(fns, head, h, j), 1.0 + (Step(j) - Mean()))
    }

    function DirectionTerms(t: int): int -> real
      requires Valid()
    {
      j => Times(Dz(fns, head, h, t, 1.0, j), Step(j))
    }
  }

  lemma TangentSplits(p: real, a: real, mean: real)
    ensures Times(p, 1.0 + (a - mean)) == p + (Times(p, a) + Times(-mean, p))
  {
  }

  function Plus(f: int -> real, g: int -> real): int -> real { j => f(j) + g(j) }

  function Negative(c: real, f: int -> real): int -> real { j => Times(-c, f(j)) }

  lemma TangentTermSplits(x: Pair, j: int)
    requires x.Valid()
    ensures x.TangentTerms()(j) == x.Probs()(j) + Plus(x.MeanTerms(), Negative(x.Mean(), x.Probs()))(j)
  {
    TangentSplits(Prob(x.fns, x.head, x.h, j), x.Step(j), x.Mean());
  }

  lemma TangentSumsToOne(x: Pair)
    requires x.Valid()
    ensures Sum(x.Probs(), 0, x.head.Vocab()) == 1.0
    ensures Sum(x.TangentTerms(), 0, x.head.Vocab()) == 1.0
  {
    var v, probs := x.head.Vocab(), x.Probs();
    FiniteMax(x.head.Logits(x.h), 0, v);
    SoftmaxSumsToOne(x.fns, x.head.Logits(x.h), 0, v, probs);
    var centre := Plus(x.MeanTerms(), Negative(x.Mean(), probs));
    forall j ensures x.TangentTerms()(j) == probs(j) + centre(j) {
      TangentTermSplits(x, j);
    }
    SumAdd(probs, centre, x.TangentTerms(), 0, v);
    SumAdd(x.MeanTerms(), Negative(x.Mean(), probs), centre, 0, v);
    SumTimes(probs, Negative(x.Mean(), probs), -x.Mean(), 0, v);
    assert Times(-x.Mean(), 1.0) == -x.Mean();
  }

  /** exp(z'_j - lse - mean) lies above its tangent: p_j exp(step_j - mean) >= p_j (1 + step_j - mean). */
  lemma AboveTangent(x: Pair, j: int)
    requires x.Valid()
    ensures x.TangentTerms()(j)
            <= Weights(x.fns, x.other.Logits(x.h'), LogSumExpOf(x.fns, x.head, x.h) + x.Mean())(j)
  {
    var lse, mean := LogSumExpOf(x.fns, x.head, x.h), x.Mean();
    var log, u := x.head.Logit(x.h, j) - lse, x.Step(j) - mean;
    assert log + u == x.other.Logit(x.h', j) - (lse + mean);
    assert x.other.Logits(x.h')(j) == Fin(x.other.Logit(x.h', j));
    assert Weights(x.fns, x.other.Logits(x.h'), lse + mean)(j) == x.fns.exp(x.other.Logit(x.h', j) - (lse + mean));
    ProbIsExp(x.fns, x.head, x.h, j);
    TangentBound(x.fns, log, u);
  }

  lemma ProbIsExp(fns: RealFns, head: LmHead, h: Vec, j: int)
    requires fns.Lawful() && head.Vocab() > 0
    ensures Prob(fns, head, h, j) == fns.exp(head.Logit(h, j) - LogSumExpOf(fns, head, h))
  {
    FiniteMax(head.Logits(h), 0, head.Vocab());
    SoftmaxForms(fns, head.Logits(h), 0, head.Vocab(), 0.0, j);
  }

  /** log-sum-exp lies above its tangent plane. */
  lemma LseAboveTangent(x: Pair)
    requires x.Valid()
    ensures LogSumExpOf(x.fns, x.other, x.h') >= LogSumExpOf(x.fns, x.head, x.h) + x.Mean()
  {
    var v, z, c := x.head.Vocab(), x.other.Logits(x.h'), LogSumExpOf(x.fns, x.head, x.h) + x.Mean();
    forall j | 0 <= j < v ensures x.TangentTerms()(j) <= Weights(x.fns, z, c)(j) {
      AboveTangent(x, j);
    }
    SumMono(x.TangentTerms(), Weights(x.fns, z, c), 0, v);
    TangentSumsToOne(x);
    FiniteMax(x.other.Logits(x.h'), 0, v);
    var lse' := LogSumExpOf(x.fns, x.other, x.h');
    MassIsExp(x.fns, z, v, c, lse');
    if lse' < c {
      ExpStrict(x.fns, lse' - c, 0.0);
      ExpZero(x.fns);
    }
  }

  lemma MassIsExp(fns: RealFns, z: int -> Ext, v: nat, c: real, lse: real)
    requires fns.Lawful() && MaxOf(z, 0, v).Fin? && lse == LogSumExp(fns, z, 0, v)
    ensures SumExp(fns, z, c, 0, v) == fns.exp(lse - c)
  {
    LogSumExpMeaning(fns, z, 0, v);
    SumExpRebase(fns, z, 0.0, c, 0, v);
    ExpAdd(fns, 0.0 - c, lse);
    assert 0.0 - c + lse == lse - c;
  }

  lemma DirectionSplits(hit: real, p: real, a: real)
    ensures Times(Times(hit - p, 1.0), a) == Times(hit, a) + Times(-1.0, Times(p, a))
  {
  }

  function HitTerms(x: Pair, t: int): int -> real { j => Times(if j == t then 1.0 else 0.0, x.Step(j)) }

  /** dz is the gradient: logp is concave in the logits, and onehot - softmax is its supergradient. For
      every other head and token, logp changes by at most the inner product with dz, so no other vector
      can be the gradient of this differentiable function. */
  lemma DzIsSupergradient(x: Pair, t: nat)
    requires x.Valid() && t < x.head.Vocab()
    ensures NativeLogp(x.fns, x.other, x.h', t)
            <= NativeLogp(x.fns, x.head, x.h, t) + Sum(x.DirectionTerms(t), 0, x.head.Vocab())
  {
    var v := x.head.Vocab();
    var minus := Negative(1.0, x.MeanTerms());
    forall j ensures x.DirectionTerms(t)(j) == HitTerms(x, t)(j) + minus(j) {
      DirectionSplits(if j == t then 1.0 else 0.0, Prob(x.fns, x.head, x.h, j), x.Step(j));
    }
    SumAdd(HitTerms(x, t), minus, x.DirectionTerms(t), 0, v);
    SumTimes(x.MeanTerms(), minus, -1.0, 0, v);
    forall j | 0 <= j < v && j != t ensures HitTerms(x, t)(j) == 0.0 {
      TimesUnits(x.Step(j));
    }
    SumSingle(HitTerms(x, t), 0, v, t);
    LseAboveTangent(x);
  }

  /** Every dz row sums to zero: adding a constant to all logits changes no log-probability. */
  lemma DzSumsToZero(fns: RealFns, head: LmHead, h: Vec, t: nat, g: real, row: int -> real)
    requires fns.Lawful() && t < head.Vocab()
    requires forall j | 0 <= j < head.Vocab() :: row(j) == Dz(fns, head, h, t, g, j)
    ensures Sum(row, 0, head.Vocab()) == 0.0
  {
    var x := Pair(fns, head, h, head, h);
    TangentSumsToOne(x);
    forall j | 0 <= j < head.Vocab() ensures row(j) == OneHot(t, g)(j) + Negative(g, x.Probs())(j) {
      DzSplits(j == t, Prob(fns, head, h, j), g);
    }
    HitsMinusProbs(x.Probs(), row, head.Vocab(), t, g);
  }

  function OneHot(t: int, g: real): int -> real { j => if j == t then g else 0.0 }

  /** g at one entry less g times weights that sum to one is a row that sums to zero. */
  lemma HitsMinusProbs(probs: int -> real, row: int -> real, v: nat, t: int, g: real)
    requires 0 <= t < v && Sum(probs, 0, v) == 1.0
    requires forall j | 0 <= j < v :: row(j) == OneHot(t, g)(j) + Negative(g, probs)(j)
    ensures Sum(row, 0, v) == 0.0
  {
    SumAdd(OneHot(t, g), Negative(g, probs), row, 0, v);
    SumSingle(OneHot(t, g), 0, v, t);
    SumTimes(probs, Negative(g, probs), -g, 0, v);
    assert Times(-g, 1.0) == -g;
  }

  lemma DzSplits(hit: bool, p: real, g: real)
    ensures Times((if hit then 1.0 else 0.0) - p, g) == (if hit then g else 0.0) + Times(-g, p)
  {
  }
}
