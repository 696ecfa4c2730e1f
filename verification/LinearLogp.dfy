/** Selected log-probabilities of a linear LM head: the naive reference, the vocabulary-streaming form,
    and the tensor-parallel merge of vocabulary shards. */
module LinearLogp {
  import opened Integers
  import opened Options
  import opened RealFunctions
  import opened Softmax
  import opened VocabPartition

  // ----- the reference ---------------------------------------------------------------------------

  function RowAt(m: seq<Vec>, j: int): Vec { if 0 <= j < |m| then m[j] else [] }

  function ProductTerms(a: Vec, b: Vec): int -> real { d => Times(At(a, d), At(b, d)) }

  function Dot(a: Vec, b: Vec): real { Sum(ProductTerms(a, b), 0, |a|) }

  /** An LM head, or one vocabulary shard of it. */
  datatype LmHead = LmHead(weight: seq<Vec>, bias: Option<Vec>) {
    predicate Valid() { bias.Some? ==> |bias.value| == |weight| }

    function Vocab(): nat { |weight| }

    /** _linear_logits, one entry. */
    function Logit(h: Vec, j: int): real {
      Dot(h, RowAt(weight, j)) + if bias.Some? then At(bias.value, j) else 0.0
    }

    function Logits(h: Vec): int -> Ext { j => Fin(Logit(h, j)) }

    /** Rows [v0, v1) of the weight and bias. */
    function Slice(v0: nat, v1: nat): LmHead
      requires Valid() && v0 <= v1 <= Vocab()
    {
      LmHead(weight[v0..v1], if bias.Some? then Some(bias.value[v0..v1]) else None)
    }
  }

  lemma SliceLogit(head: LmHead, h: Vec, v0: nat, v1: nat, j: int)
    requires head.Valid() && v0 <= v1 <= head.Vocab() && 0 <= j < v1 - v0
    ensures head.Slice(v0, v1).Logits(h)(j) == head.Logits(h)(v0 + j)
  {
  }

  function LogSumExpOf(fns: RealFns, head: LmHead, h: Vec): real
    requires head.Vocab() > 0
  {
    FiniteMax(head.Logits(h), 0, head.Vocab());
    LogSumExp(fns, head.Logits(h), 0, head.Vocab())
  }

  /** NativeLinearLogpOp.apply for one token: log_softmax, then gather. */
  function NativeLogp(fns: RealFns, head: LmHead, h: Vec, t: int): real
    requires head.Vocab() > 0
  {
    head.Logit(h, t) - LogSumExpOf(fns, head, h)
  }

  // ----- the streaming statistics of one shard ---------------------------------------------------

  /** Per-token running state: maximum, rescaled sum, target logit, and how many tiles owned the target. */
  datatype Stat = Stat(max: Ext, sum: real, target: real, owners: nat)

  /** One vocabulary tile [v0, v1) of the shard, for one token. */
  function TileStep(fns: RealFns, head: LmHead, h: Vec, t: int, vocabStart: int, v0: nat, v1: nat, st: Stat): Stat
    requires head.Valid() && v0 < v1 <= head.Vocab()
  {
    FiniteMax(head.Slice(v0, v1).Logits(h), 0, v1 - v0);
    var tile := head.Slice(v0, v1);
    var (newMax, newSum) := FoldTile(fns, tile.Logits(h), 0, v1 - v0, st.max, st.sum);
    var ownsTarget := vocabStart + v0 <= t < vocabStart + v1;
    var safe := Clamp(t - (vocabStart + v0), 0, MaxInt(v1 - v0 - 1, 0));
    Stat(newMax, newSum,
         if ownsTarget then tile.Logit(h, safe) else st.target,
         st.owners + if ownsTarget then 1 else 0)
  }

  /** What the state says after the tiles covering [0, n) of the shard. */
  ghost predicate StatInv(fns: RealFns, head: LmHead, h: Vec, t: int, vocabStart: int, n: nat, st: Stat) {
    && OnlineInv(fns, head.Logits(h), 0, n, st.max, st.sum)
    && st.target == (if vocabStart <= t < vocabStart + n then head.Logit(h, t - vocabStart) else 0.0)
    && st.owners == (if vocabStart <= t < vocabStart + n then 1 else 0)
  }

  lemma SliceIsShift(head: LmHead, h: Vec, v0: nat, v1: nat)
    requires head.Valid() && v0 <= v1 <= head.Vocab()
    ensures IsShift(head.Logits(h), head.Slice(v0, v1).Logits(h), v0, 0, v1 - v0)
  {
    forall j | 0 <= j < v1 - v0 ensures ShiftAt(head.Logits(h), head.Slice(v0, v1).Logits(h), v0, j) {
      SliceLogit(head, h, v0, v1, j);
    }
  }

  lemma TileFolds(fns: RealFns, head: LmHead, h: Vec, v0: nat, v1: nat, max: Ext, sum: real)
    requires fns.Lawful() && head.Valid() && v0 < v1 <= head.Vocab()
    requires OnlineInv(fns, head.Logits(h), 0, v0, max, sum)
    ensures MaxOf(head.Slice(v0, v1).Logits(h), 0, v1 - v0).Fin?
    ensures var (max', sum') := FoldTile(fns, head.Slice(v0, v1).Logits(h), 0, v1 - v0, max, sum);
            OnlineInv(fns, head.Logits(h), 0, v1, max', sum')
  {
    var tile, z := head.Slice(v0, v1).Logits(h), head.Logits(h);
    SliceIsShift(head, h, v0, v1);
    FiniteMax(head.Slice(v0, v1).Logits(h), 0, v1 - v0);
    FoldTileShift(fns, z, tile, v0, v1 - v0, max, sum);
    FoldTileKeeps(fns, z, 0, v0, v1, max, sum);
  }

  /** A tile's own logits are the shard's logits shifted, so folding it extends the prefix. */
  lemma TileStepKeeps(fns: RealFns, head: LmHead, h: Vec, t: int, vocabStart: int, v0: nat, v1: nat, st: Stat)
    requires fns.Lawful() && head.Valid() && v0 < v1 <= head.Vocab()
    requires StatInv(fns, head, h, t, vocabStart, v0, st)
    ensures StatInv(fns, head, h, t, vocabStart, v1, TileStep(fns, head, h, t, vocabStart, v0, v1, st))
  {
    TileFolds(fns, head, h, v0, v1, st.max, st.sum);
    TileTarget(head, h, v0, v1, t - vocabStart);
  }

  lemma TileTarget(head: LmHead, h: Vec, v0: nat, v1: nat, local: int)
    requires head.Valid() && v0 < v1 <= head.Vocab()
    ensures v0 <= local < v1 ==> head.Slice(v0, v1).Logit(h, local - v0) == head.Logit(h, local)
  {
    if v0 <= local < v1 {
      SliceLogit(head, h, v0, v1, local - v0);
    }
  }

  function TileAll(fns: RealFns, head: LmHead, hidden: seq<Vec>, targets: seq<int>, vocabStart: int,
                   v0: nat, v1: nat, stats: seq<Stat>): seq<Stat>
    requires head.Valid() && v0 < v1 <= head.Vocab() && |hidden| == |targets| == |stats|
  {
    seq(|stats|, i requires 0 <= i < |stats| =>
      TileStep(fns, head, hidden[i], targets[i], vocabStart, v0, v1, stats[i]))
  }

  ghost predicate AllStats(fns: RealFns, head: LmHead, hidden: seq<Vec>, targets: seq<int>, vocabStart: int,
                           n: nat, stats: seq<Stat>)
    requires |hidden| == |targets|
  {
    && |stats| == |hidden|
    && forall i | 0 <= i < |stats| :: StatInv(fns, head, hidden[i], targets[i], vocabStart, n, stats[i])
  }

  /** _chunked_local_linear_logp_stats: the statistics are those of the whole shard, for every tile budget. */
  method ChunkedLocalStats(fns: RealFns, head: LmHead, hidden: seq<Vec>, targets: seq<int>, vocabStart: int,
                           chunkElems: nat) returns (stats: seq<Stat>)
    requires fns.Lawful() && head.Valid() && |hidden| == |targets|
    ensures AllStats(fns, head, hidden, targets, vocabStart, head.Vocab(), stats)
  {
    var n, localVocab := |hidden|, head.Vocab();
    stats := seq(n, i => Stat(NegInf, 0.0, 0.0, 0));
    var vocabChunk := MaxInt(1, MinInt(localVocab, chunkElems / MaxInt(n, 1)));
    var v0 := 0;
    while v0 < localVocab
      invariant 0 <= v0 <= localVocab
      invariant AllStats(fns, head, hidden, targets, vocabStart, v0, stats)
    {
      var v1 := MinInt(v0 + vocabChunk, localVocab);
      forall i | 0 <= i < n
        ensures StatInv(fns, head, hidden[i], targets[i], vocabStart, v1,
                        TileStep(fns, head, hidden[i], targets[i], vocabStart, v0, v1, stats[i]))
      {
        TileStepKeeps(fns, head, hidden[i], targets[i], vocabStart, v0, v1, stats[i]);
      }
      stats := TileAll(fns, head, hidden, targets, vocabStart, v0, v1, stats);
      v0 := v1;
    }
  }

  // ----- merging the ranks -----------------------------------------------------------------------

  /** What a rank contributes to the merge: its local lse and the target logit it owns, or zero. */
  datatype Local = Local(lse: real, target: real)

  function LocalOf(fns: RealFns, st: Stat): Local
    requires st.max.Fin?
  {
    Local(st.max.value + fns.log(st.sum), st.target)
  }

  function Lses(locals: seq<Local>): int -> Ext { k => Fin(if 0 <= k < |locals| then locals[k].lse else 0.0) }

  function TargetTerms(locals: seq<Local>): int -> real { k => if 0 <= k < |locals| then locals[k].target else 0.0 }

  /** _merge_tp_local_logp on the gathered pairs: (log_prob, global_lse). */
  function Merge(fns: RealFns, locals: seq<Local>): (real, real)
    requires |locals| > 0
  {
    if |locals| <= 1 then (locals[0].target - locals[0].lse, locals[0].lse)
    else
      FiniteMax(Lses(locals), 0, |locals|);
      var lse := LogSumExp(fns, Lses(locals), 0, |locals|);
      (Sum(TargetTerms(locals), 0, |locals|) - lse, lse)
  }

  function ShardHead(head: LmHead, r: Shard): LmHead
    requires head.Valid() && 0 <= r.0 <= r.1 <= head.Vocab()
  {
    head.Slice(r.0, r.1)
  }

  /** The logit of the target and zero elsewhere: what summing owned target logits adds up. */
  function TargetOnly(head: LmHead, h: Vec, t: int): int -> real { j => if j == t then head.Logit(h, j) else 0.0 }

  /** One rank's pair, in terms of the whole head's logits over its range. */
  ghost predicate LocalOver(fns: RealFns, head: LmHead, h: Vec, t: int, r: Shard, local: Local) {
    && fns.exp(local.lse) == SumExp(fns, head.Logits(h), 0.0, r.0, r.1)
    && local.target == Sum(TargetOnly(head, h, t), r.0, r.1)
  }

  /** The exponential mass of a shard's own logits is that of its range of the whole row. */
  lemma ShardMass(fns: RealFns, head: LmHead, h: Vec, r: Shard)
    requires head.Valid() && 0 <= r.0 < r.1 <= head.Vocab()
    ensures SumExp(fns, ShardHead(head, r).Logits(h), 0.0, 0, r.1 - r.0) == SumExp(fns, head.Logits(h), 0.0, r.0, r.1)
  {
    var part, z := ShardHead(head, r).Logits(h), head.Logits(h);
    forall j | 0 <= j < r.1 - r.0 ensures ShiftAt(Weights(fns, z, 0.0), Weights(fns, part, 0.0), r.0, j) {
      SliceLogit(head, h, r.0, r.1, j);
    }
    SumMoved(Weights(fns, z, 0.0), Weights(fns, part, 0.0), r.0, r.1 - r.0, r.0, r.1);
  }

  /** A rank that streamed its own shard holds the exponential mass and the target logit of its range. */
  lemma StreamedLocal(fns: RealFns, head: LmHead, h: Vec, t: int, r: Shard, st: Stat)
    requires fns.Lawful() && head.Valid() && 0 <= r.0 < r.1 <= head.Vocab()
    requires StatInv(fns, ShardHead(head, r), h, t, r.0, r.1 - r.0, st)
    ensures st.max.Fin? && LocalOver(fns, head, h, t, r, LocalOf(fns, st))
  {
    var part := ShardHead(head, r).Logits(h);
    var size := r.1 - r.0;
    FiniteMax(ShardHead(head, r).Logits(h), 0, size);
    OnlineGivesLse(fns, part, 0, size, st.max, st.sum);
    LogSumExpMeaning(fns, part, 0, size);
    ShardMass(fns, head, h, r);
    SumSingle(TargetOnly(head, h, t), r.0, r.1, t);
    if r.0 <= t < r.1 {
      SliceLogit(head, h, r.0, r.1, t - r.0);
    }
  }

  ghost predicate LocalsOver(fns: RealFns, head: LmHead, h: Vec, t: int, rs: seq<Shard>, locals: seq<Local>) {
    |locals| == |rs| && forall k | 0 <= k < |rs| :: LocalOver(fns, head, h, t, rs[k], locals[k])
  }

  lemma OneRank(fns: RealFns, locals: seq<Local>, k: nat)
    requires k < |locals|
    ensures Weights(fns, Lses(locals), 0.0)(k) == fns.exp(locals[k].lse)
  {
    assert Lses(locals)(k) == Fin(locals[k].lse);
    assert locals[k].lse - 0.0 == locals[k].lse;
  }

  /** Summing over ranks is summing over their ranges. */
  lemma RankSums(fns: RealFns, head: LmHead, h: Vec, t: int, rs: seq<Shard>, locals: seq<Local>, n: nat)
    requires LocalsOver(fns, head, h, t, rs, locals) && n <= |rs|
    ensures SumExp(fns, Lses(locals), 0.0, 0, n) == RangeSum(Weights(fns, head.Logits(h), 0.0), rs[..n])
    ensures Sum(TargetTerms(locals), 0, n) == RangeSum(TargetOnly(head, h, t), rs[..n])
  {
    forall k | 0 <= k < n
      ensures Weights(fns, Lses(locals), 0.0)(k) == Sum(Weights(fns, head.Logits(h), 0.0), rs[k].0, rs[k].1)
      ensures TargetTerms(locals)(k) == Sum(TargetOnly(head, h, t), rs[k].0, rs[k].1)
    {
      assert LocalOver(fns, head, h, t, rs[k], locals[k]);
      OneRank(fns, locals, k);
    }
    SumOfRanges(Weights(fns, Lses(locals), 0.0), Weights(fns, head.Logits(h), 0.0), rs, n);
    SumOfRanges(TargetTerms(locals), TargetOnly(head, h, t), rs, n);
  }

  /** Merging the ranks of an accepted partition gives exactly the unsharded log-sum-exp, and the
      unsharded log-probability of every target in the vocabulary. A target outside it silently
      scores as a logit of zero. */
  lemma MergedIsNative(fns: RealFns, head: LmHead, h: Vec, t: int, rs: seq<Shard>, locals: seq<Local>)
    requires fns.Lawful() && head.Valid() && |rs| > 0 && IsPartition(rs, head.Vocab())
    requires LocalsOver(fns, head, h, t, rs, locals)
    ensures head.Vocab() > 0
    ensures Merge(fns, locals).1 == LogSumExpOf(fns, head, h)
    ensures 0 <= t < head.Vocab() ==> Merge(fns, locals).0 == NativeLogp(fns, head, h, t)
    ensures !(0 <= t < head.Vocab()) ==> Merge(fns, locals).0 == -LogSumExpOf(fns, head, h)
  {
    var v, z := head.Vocab(), head.Logits(h);
    OwnerCounts(rs, rs[0].0, 0);
    FiniteMax(head.Logits(h), 0, v);
    RankSums(fns, head, h, t, rs, locals, |rs|);
    assert rs[..|rs|] == rs;
    PartitionSums(Weights(fns, z, 0.0), rs, v);
    PartitionSums(TargetOnly(head, h, t), rs, v);
    SumSingle(TargetOnly(head, h, t), 0, v, t);
    MergeIsSum(fns, locals);
    LogSumExpMeaning(fns, z, 0, v);
  }

  /** With one rank or many, the merge takes the log of the summed exponentials. */
  lemma MergeIsSum(fns: RealFns, locals: seq<Local>)
    requires fns.Lawful() && |locals| > 0
    ensures SumExp(fns, Lses(locals), 0.0, 0, |locals|) > 0.0
    ensures Merge(fns, locals).1 == fns.log(SumExp(fns, Lses(locals), 0.0, 0, |locals|))
    ensures Merge(fns, locals).0 == Sum(TargetTerms(locals), 0, |locals|) - Merge(fns, locals).1
  {
    FiniteMax(Lses(locals), 0, |locals|);
    LogSumExpMeaning(fns, Lses(locals), 0, |locals|);
    if |locals| == 1 {
      OneRank(fns, locals, 0);
      assert SumExp(fns, Lses(locals), 0.0, 0, 1)
          == Sum(Weights(fns, Lses(locals), 0.0), 0, 0) + fns.exp(locals[0].lse);
      LogOfExp(fns, locals[0].lse);
      assert Sum(TargetTerms(locals), 0, 1) == Sum(TargetTerms(locals), 0, 0) + locals[0].target;
    }
  }

  // ----- the sharded forward pass of a whole group -----------------------------------------------

  datatype Forward =
    | Logps(logp: seq<real>, lse: seq<real>) | BadPartition(verdict: Verdict) | TargetOutOfRange | NotOneOwner

  /** The head as the ranks of one group hold it. */
  datatype Group = Group(shards: seq<LmHead>, starts: seq<int>, declared: seq<Option<int>>) {
    predicate Valid() {
      && |shards| == |starts| == |declared| > 0
      && forall k | 0 <= k < |shards| :: shards[k].Valid()
    }

    function Ranks(): seq<Rank>
      requires Valid()
    {
      seq(|shards|, k requires 0 <= k < |shards| => Rank(starts[k], shards[k].Vocab(), declared[k]))
    }

    /** If the partition is accepted, every rank holds its own rows of `whole`. */
    ghost predicate Holds(whole: LmHead)
      requires Valid()
    {
      && whole.Valid()
      && forall v | Accepted(Ranks(), v) ::
           v == whole.Vocab() && forall k | 0 <= k < |shards| ::
             0 <= starts[k] && starts[k] + shards[k].Vocab() <= v
                 && shards[k] == whole.Slice(starts[k], starts[k] + shards[k].Vocab())
    }
  }

  predicate InRange(targets: seq<int>, v: int) { forall i | 0 <= i < |targets| :: 0 <= targets[i] < v }

  function LocalsAt(fns: RealFns, stats: seq<seq<Stat>>, i: nat): seq<Local>
    requires forall k | 0 <= k < |stats| :: i < |stats[k]| && stats[k][i].max.Fin?
  {
    seq(|stats|, k requires 0 <= k < |stats| => LocalOf(fns, stats[k][i]))
  }

  /** The all-reduced owner count of token i. */
  function OwnerTotal(stats: seq<seq<Stat>>, i: nat): nat
    requires forall k | 0 <= k < |stats| :: i < |stats[k]|
  {
    if |stats| == 0 then 0 else OwnerTotal(stats[..|stats| - 1], i) + stats[|stats| - 1][i].owners
  }

  ghost predicate RankStats(fns: RealFns, group: Group, hidden: seq<Vec>, targets: seq<int>, stats: seq<seq<Stat>>)
    requires group.Valid() && |hidden| == |targets|
  {
    && |stats| <= |group.shards|
    && forall k | 0 <= k < |stats| ::
         AllStats(fns, group.shards[k], hidden, targets, group.starts[k], group.shards[k].Vocab(), stats[k])
  }

  lemma {:induction false} OwnerTotalCounts(stats: seq<seq<Stat>>, rs: seq<Shard>, i: nat, t: int)
    requires |stats| <= |rs|
    requires forall k | 0 <= k < |stats| :: i < |stats[k]| && stats[k][i].owners == if Owns(rs[k], t) then 1 else 0
    ensures OwnerTotal(stats, i) == Owners(rs[..|stats|], t)
    decreases |stats|
  {
    if |stats| > 0 {
      var n := |stats| - 1;
      OwnerTotalCounts(stats[..n], rs, i, t);
      OwnersStep(rs, n, t);
    }
  }

  /** The reduced owner count is the number of shards that own the target: the second check of the
      source cannot fail once the partition and the targets have been accepted. */
  lemma OwnerTotalIsOwners(fns: RealFns, group: Group, hidden: seq<Vec>, targets: seq<int>,
                           stats: seq<seq<Stat>>, i: nat)
    requires group.Valid() && |hidden| == |targets| && i < |hidden| && RankStats(fns, group, hidden, targets, stats)
    ensures forall k | 0 <= k < |stats| :: i < |stats[k]|
    ensures OwnerTotal(stats, i) == Owners(Shards(group.Ranks())[..|stats|], targets[i])
  {
    forall k | 0 <= k < |stats|
      ensures i < |stats[k]| && stats[k][i].owners == if Owns(Shards(group.Ranks())[k], targets[i]) then 1 else 0
    {
      RankOwner(fns, group, hidden, targets, stats, k, i);
    }
    OwnerTotalCounts(stats, Shards(group.Ranks()), i, targets[i]);
  }

  lemma RankOwner(fns: RealFns, group: Group, hidden: seq<Vec>, targets: seq<int>, stats: seq<seq<Stat>>,
                  n: nat, i: nat)
    requires group.Valid() && |hidden| == |targets| && i < |hidden| && RankStats(fns, group, hidden, targets, stats)
        && n < |stats|
    ensures i < |stats[n]|
    ensures stats[n][i].owners
         == if group.starts[n] <= targets[i] < group.starts[n] + group.shards[n].Vocab() then 1 else 0
  {
    assert AllStats(fns, group.shards[n], hidden, targets, group.starts[n], group.shards[n].Vocab(), stats[n]);
    assert StatInv(fns, group.shards[n], hidden[i], targets[i], group.starts[n], group.shards[n].Vocab(), stats[n][i]);
  }

  /** The gathered pairs of one token cover the ranks' ranges of the whole head. */
  lemma GatheredLocals(fns: RealFns, group: Group, whole: LmHead, hidden: seq<Vec>, targets: seq<int>,
                       stats: seq<seq<Stat>>, i: nat, v: int)
    requires fns.Lawful() && group.Valid() && group.Holds(whole) && Accepted(group.Ranks(), v)
    requires |hidden| == |targets| && i < |hidden| && |stats| == |group.shards|
    requires RankStats(fns, group, hidden, targets, stats)
    ensures forall k | 0 <= k < |stats| :: i < |stats[k]| && stats[k][i].max.Fin?
    ensures LocalsOver(fns, whole, hidden[i], targets[i], Shards(group.Ranks()), LocalsAt(fns, stats, i))
  {
    var rs := Shards(group.Ranks());
    forall k | 0 <= k < |stats|
      ensures i < |stats[k]| && stats[k][i].max.Fin?
      ensures LocalOver(fns, whole, hidden[i], targets[i], rs[k], LocalOf(fns, stats[k][i]))
    {
      assert StatInv(fns, group.shards[k], hidden[i], targets[i], group.starts[k], group.shards[k].Vocab(),
                     stats[k][i]);
      StreamedLocal(fns, whole, hidden[i], targets[i], rs[k], stats[k][i]);
    }
  }

  function ExpectedLogp(fns: RealFns, whole: LmHead, h: Vec, t: int): real
    requires whole.Vocab() > 0
  {
    if 0 <= t < whole.Vocab() then NativeLogp(fns, whole, h, t) else -LogSumExpOf(fns, whole, h)
  }

  /** The forward pass of _TensorParallelLinearLogpFunction, run by a whole group. It succeeds exactly on
      an accepted partition (and, when targets are validated, in-range targets), and then returns the
      unsharded log-probabilities. */
  method TensorParallelForward(fns: RealFns, group: Group, ghost whole: LmHead, hidden: seq<Vec>, targets: seq<int>,
                               validateTargets: bool, chunkElems: nat) returns (res: Forward)
    requires fns.Lawful() && group.Valid() && group.Holds(whole) && |hidden| == |targets|
    ensures res.Logps? <==>
      && (exists v :: Accepted(group.Ranks(), v))
      && (validateTargets ==> forall i | 0 <= i < |hidden| :: 0 <= targets[i] < whole.Vocab())
    ensures res.Logps? ==> |res.logp| == |res.lse| == |hidden| && forall i | 0 <= i < |hidden| ::
      && whole.Vocab() > 0 && res.lse[i] == LogSumExpOf(fns, whole, hidden[i])
      && res.logp[i] == if 0 <= targets[i] < whole.Vocab() then NativeLogp(fns, whole, hidden[i], targets[i])
                        else -res.lse[i]
    ensures !res.NotOneOwner?
  {
    var verdict := Validate(group.Ranks(), 0);
    if !verdict.Valid? {
      return BadPartition(verdict);
    }
    var v := verdict.vocab;
    assert Accepted(group.Ranks(), v) && v == whole.Vocab();
    if validateTargets && !InRange(targets, v) {
      return TargetOutOfRange;
    }
    var stats: seq<seq<Stat>> := [];
    for k := 0 to |group.shards|
      invariant |stats| == k && RankStats(fns, group, hidden, targets, stats)
    {
      var s := ChunkedLocalStats(fns, group.shards[k], hidden, targets, group.starts[k], chunkElems);
      stats := stats + [s];
    }
    forall i | 0 <= i < |hidden|
      ensures TokenReady(fns, whole, hidden[i], targets[i], stats, i, validateTargets)
    {
      TokenMerged(fns, group, whole, hidden, targets, stats, v, i, validateTargets);
    }
    res := MergeAll(fns, whole, hidden, targets, validateTargets, stats);
    forall i | 0 <= i < |hidden|
      ensures whole.Vocab() > 0 && res.lse[i] == LogSumExpOf(fns, whole, hidden[i])
      ensures res.logp[i] == ExpectedLogp(fns, whole, hidden[i], targets[i])
    {
      assert TokenDone(fns, whole, hidden[i], targets[i], res.logp[i], res.lse[i]);
    }
  }

  /** Every rank of an accepted group has scored every token. */
  ghost predicate Scored(fns: RealFns, group: Group, whole: LmHead, hidden: seq<Vec>, targets: seq<int>,
                         stats: seq<seq<Stat>>, v: int) {
    && fns.Lawful() && group.Valid() && group.Holds(whole) && |hidden| == |targets|
    && Accepted(group.Ranks(), v)
    && |stats| == |group.shards| && RankStats(fns, group, hidden, targets, stats)
  }

  lemma OneOwnerInRange(fns: RealFns, group: Group, whole: LmHead, hidden: seq<Vec>, targets: seq<int>,
                        stats: seq<seq<Stat>>, v: int, i: nat)
    requires Scored(fns, group, whole, hidden, targets, stats, v) && i < |hidden| && 0 <= targets[i] < v
    ensures forall k | 0 <= k < |stats| :: i < |stats[k]|
    ensures OwnerTotal(stats, i) == 1
  {
    OwnerTotalIsOwners(fns, group, hidden, targets, stats, i);
    var rs := Shards(group.Ranks());
    assert rs[..|stats|] == rs;
  }

  lemma TokenMerged(fns: RealFns, group: Group, whole: LmHead, hidden: seq<Vec>, targets: seq<int>,
                    stats: seq<seq<Stat>>, v: int, i: nat, validate: bool)
    requires Scored(fns, group, whole, hidden, targets, stats, v) && i < |hidden|
    requires validate ==> 0 <= targets[i] < v
    ensures TokenReady(fns, whole, hidden[i], targets[i], stats, i, validate)
  {
    GatheredLocals(fns, group, whole, hidden, targets, stats, i, v);
    MergedToken(fns, group, whole, hidden, targets, stats, v, i);
    if validate {
      OneOwnerInRange(fns, group, whole, hidden, targets, stats, v, i);
    }
  }

  lemma MergedToken(fns: RealFns, group: Group, whole: LmHead, hidden: seq<Vec>, targets: seq<int>,
                    stats: seq<seq<Stat>>, v: int, i: nat)
    requires Scored(fns, group, whole, hidden, targets, stats, v) && i < |hidden|
    requires forall k | 0 <= k < |stats| :: i < |stats[k]| && stats[k][i].max.Fin?
    ensures |stats| > 0
    ensures TokenDone(fns, whole, hidden[i], targets[i], Merge(fns, LocalsAt(fns, stats, i)).0,
                      Merge(fns, LocalsAt(fns, stats, i)).1)
  {
    GatheredLocals(fns, group, whole, hidden, targets, stats, i, v);
    MergedIsNative(fns, whole, hidden[i], targets[i], Shards(group.Ranks()), LocalsAt(fns, stats, i));
  }

  ghost predicate TokenDone(fns: RealFns, whole: LmHead, h: Vec, t: int, logp: real, lse: real) {
    whole.Vocab() > 0 && logp == ExpectedLogp(fns, whole, h, t) && lse == LogSumExpOf(fns, whole, h)
  }

  ghost predicate TokenReady(fns: RealFns, whole: LmHead, h: Vec, t: int, stats: seq<seq<Stat>>, i: nat,
                             validate: bool) {
    && |stats| > 0
    && (forall k | 0 <= k < |stats| :: i < |stats[k]| && stats[k][i].max.Fin?)
    && (validate ==> OwnerTotal(stats, i) == 1)
    && TokenDone(fns, whole, h, t, Merge(fns, LocalsAt(fns, stats, i)).0, Merge(fns, LocalsAt(fns, stats, i)).1)
  }

  /** The owner check and the merge, token by token. */
  method MergeAll(fns: RealFns, ghost whole: LmHead, hidden: seq<Vec>, targets: seq<int>,
                  validateTargets: bool, stats: seq<seq<Stat>>) returns (res: Forward)
    requires |hidden| == |targets|
    requires forall i | 0 <= i < |hidden| :: TokenReady(fns, whole, hidden[i], targets[i], stats, i, validateTargets)
    ensures res.Logps? && |res.logp| == |res.lse| == |hidden|
    ensures forall i | 0 <= i < |hidden| :: TokenDone(fns, whole, hidden[i], targets[i], res.logp[i], res.lse[i])
  {
    var logp, lse: seq<real> := [], [];
    for i := 0 to |hidden|
      invariant |logp| == |lse| == i
      invariant forall j | 0 <= j < i :: TokenDone(fns, whole, hidden[j], targets[j], logp[j], lse[j])
    {
      assert TokenReady(fns, whole, hidden[i], targets[i], stats, i, validateTargets);
      if validateTargets && OwnerTotal(stats, i) != 1 {
        assert false;
        return NotOneOwner;
      }
      var pair := Merge(fns, LocalsAt(fns, stats, i));
      logp, lse := logp + [pair.0], lse + [pair.1];
    }
    res := Logps(logp, lse);
  }
}
