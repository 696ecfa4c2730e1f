/** The training batch built from a scored payload, and the scores that reach each of its tokens. */
module RolloutBatch {
  import opened Integers
  import opened RolloutPayload
  import opened RolloutInputs

  // ----- the match checks ------------------------------------------------------------------------

  predicate RewardsMatch(candidates: seq<seq<seq<int>>>, rewards: seq<seq<real>>) {
    |candidates| == |rewards| && forall g | 0 <= g < |candidates| :: |candidates[g]| == |rewards[g]|
  }

  predicate LogpsMatch(candidates: seq<seq<seq<int>>>, logps: seq<seq<seq<real>>>, maxLen: nat) {
    && |candidates| == |logps|
    && (forall g | 0 <= g < |candidates| :: |candidates[g]| == |logps[g]|)
    && (forall g, k | 0 <= g < |candidates| && 0 <= k < |candidates[g]| ::
        MinInt(|candidates[g][k]|, maxLen) <= |logps[g][k]|)
  }

  // ----- the batch -------------------------------------------------------------------------------

  datatype TrainConfig = TrainConfig(completionLen: nat, minCompletionLen: nat, vocabSize: nat)

  function BatchLen(cfg: TrainConfig, flat: seq<seq<int>>): nat {
    MaxInt(cfg.minCompletionLen, MinInt(cfg.completionLen, Longest(flat)))
  }

  /** The batch's per-token and per-row data. */
  datatype Batch = Batch(tokenIds: array2<int>, mask: array2<bool>, refLogps: array2<real>, rewards: seq<real>,
      groupIds: seq<nat>)

  function SumMod(tokens: seq<int>, vocab: nat): int
    requires vocab > 0
  {
    if |tokens| == 0 then 0 else SumMod(tokens[..|tokens| - 1], vocab) + tokens[|tokens| - 1] % vocab
  }

  /** The stand-in reward used when the payload has none. */
  function ProxyReward(tokens: seq<int>, vocab: nat): real
    requires vocab > 0
  {
    if tokens == [] then 0.0 else SumMod(tokens, vocab) as real / (MaxInt(|tokens|, 1) * MaxInt(vocab - 1, 1)) as real
  }

  function GroupIdsOf(groups: seq<seq<seq<int>>>): seq<nat> {
    if |groups| == 0 then []
    else GroupIdsOf(groups[..|groups| - 1]) + seq(|groups[|groups| - 1]|, _ => |groups| - 1)
  }

  ghost predicate RowOf(b: Batch, cfg: TrainConfig, r: nat, tokens: seq<int>, logps: seq<real>, len: nat)
    requires cfg.vocabSize > 0
    requires b.tokenIds.Length0 == b.mask.Length0 == b.refLogps.Length0 && r < b.tokenIds.Length0
    requires b.tokenIds.Length1 == b.mask.Length1 == b.refLogps.Length1 == len
    reads b.tokenIds, b.mask, b.refLogps
  {
    forall t | 0 <= t < len ::
      && b.tokenIds[r, t] == (if t < |tokens| then tokens[t] % cfg.vocabSize else 0)
      && b.mask[r, t] == (t < |tokens|)
      && b.refLogps[r, t] == (if t < |logps| then logps[t] else 0.0)
  }

  ghost predicate SizedAs(b: Batch, rows: nat, len: nat) {
    && b.tokenIds.Length0 == b.mask.Length0 == b.refLogps.Length0 == rows
    && b.tokenIds.Length1 == b.mask.Length1 == b.refLogps.Length1 == len
  }

  function Clipped(tokens: seq<int>, len: nat, vocab: nat): seq<int>
    requires vocab > 0
  {
    seq(MinInt(|tokens|, len), t requires 0 <= t < |tokens| => tokens[t] % vocab)
  }

  /** One row of the batch, written into zero-filled tensors. */
  method WriteBatchRow(b: Batch, cfg: TrainConfig, r: nat, tokens: seq<int>, logps: seq<real>, len: nat)
    requires cfg.vocabSize > 0 && SizedAs(b, b.mask.Length0, len) && r < b.mask.Length0
    requires RowOf(b, cfg, r, [], [], len)
    modifies b.tokenIds, b.mask, b.refLogps
    ensures RowOf(b, cfg, r, tokens, logps, len)
    ensures forall i, t | 0 <= i < b.mask.Length0 && 0 <= t < len :: i != r ==>
              b.tokenIds[i, t] == old(b.tokenIds[i, t]) && b.mask[i, t] == old(b.mask[i, t])
                  && b.refLogps[i, t] == old(b.refLogps[i, t])
  {
    var clipped := Clipped(tokens, len, cfg.vocabSize);
    WriteSlice(b.tokenIds, r, 0, clipped);
    WriteSlice(b.mask, r, 0, Ones(|clipped|));
    WriteSlice(b.refLogps, r, 0, logps[..MinInt(|logps|, len)]);
  }

  /** The rows of _batch_from_candidate_groups, flattened; without payload logps every row's list is empty.
      Some candidate has tokens, so the mask is never empty unless it has no columns at all. */
  method FillBatch(flat: seq<seq<int>>, logps: seq<seq<real>>, cfg: TrainConfig, rewards: seq<real>,
      groupIds: seq<nat>) returns (b: Batch)
    requires cfg.vocabSize > 0 && |logps| == |flat| && exists r :: 0 <= r < |flat| && flat[r] != []
    ensures SizedAs(b, |flat|, BatchLen(cfg, flat)) && b.rewards == rewards && b.groupIds == groupIds
    ensures forall r | 0 <= r < |flat| :: RowOf(b, cfg, r, flat[r], logps[r], BatchLen(cfg, flat))
  {
    var longest := MaxLength(flat);
    var len := MaxInt(cfg.minCompletionLen, MinInt(cfg.completionLen, longest));
    var tokenIds := new int[|flat|, len]((r, t) => 0);
    var mask := new bool[|flat|, len]((r, t) => false);
    var refLogps := new real[|flat|, len]((r, t) => 0.0);
    b := Batch(tokenIds, mask, refLogps, rewards, groupIds);
    for r := 0 to |flat|
      invariant SizedAs(b, |flat|, len)
      invariant forall i | 0 <= i < r :: RowOf(b, cfg, i, flat[i], logps[i], len)
      invariant forall i | r <= i < |flat| :: RowOf(b, cfg, i, [], [], len)
    {
      label before:
      WriteBatchRow(b, cfg, r, flat[r], logps[r], len);
      forall i | 0 <= i < |flat| && i != r
        ensures r < i ==> RowOf(b, cfg, i, [], [], len)
        ensures i < r ==> RowOf(b, cfg, i, flat[i], logps[i], len)
      {
        assert r < i ==> old@before(RowOf(b, cfg, i, [], [], len));
        assert i < r ==> old@before(RowOf(b, cfg, i, flat[i], logps[i], len));
      }
    }
  }

  function Proxies(flat: seq<seq<int>>, vocab: nat): seq<real>
    requires vocab > 0
  {
    seq(|flat|, r requires 0 <= r < |flat| => ProxyReward(flat[r], vocab))
  }

  function NoLogps(n: nat): seq<seq<real>> { seq(n, _ => []) }

  lemma FlatSnoc<T>(groups: seq<seq<T>>, g: nat)
    requires g < |groups|
    ensures Flat(groups[..g + 1]) == Flat(groups[..g]) + groups[g]
  {
    assert groups[..g + 1][..g] == groups[..g];
  }

  /** Walks groups and candidates with one running row, picking each candidate's own value. */
  method Gather<T>(groups: seq<seq<seq<int>>>, values: seq<seq<T>>) returns (flat: seq<T>)
    requires SameShape(groups, values)
    ensures flat == Flat(values) && |flat| == |Flat(groups)|
  {
    flat := [];
    for g := 0 to |groups|
      invariant flat == Flat(values[..g]) && |flat| == |Flat(groups[..g])|
    {
      for k := 0 to |groups[g]|
        invariant flat == Flat(values[..g]) + values[g][..k] && |flat| == |Flat(groups[..g])| + k
      {
        flat := flat + [values[g][k]];
      }
      FlatSnoc(values, g);
      FlatSnoc(groups, g);
    }
    assert values[..|values|] == values && groups[..|groups|] == groups;
  }

  method GroupIds(groups: seq<seq<seq<int>>>) returns (ids: seq<nat>)
    ensures ids == GroupIdsOf(groups)
  {
    ids := [];
    for g := 0 to |groups|
      invariant ids == GroupIdsOf(groups[..g])
    {
      assert groups[..g + 1][..g] == groups[..g];
      ids := ids + seq(|groups[g]|, _ => g);
    }
    assert groups[..|groups|] == groups;
  }

  /** The batch is as long as its longest row, within the configured bounds; the lower one wins. */
  lemma BatchLenIsLongest(cfg: TrainConfig, flat: seq<seq<int>>)
    ensures BatchLen(cfg, flat) >= cfg.minCompletionLen
    ensures forall r | 0 <= r < |flat| ::
      |flat[r]| <= BatchLen(cfg, flat) || cfg.completionLen <= BatchLen(cfg, flat)
    ensures BatchLen(cfg, flat) > cfg.minCompletionLen ==>
      BatchLen(cfg, flat) <= cfg.completionLen && exists r :: 0 <= r < |flat| && |flat[r]| >= BatchLen(cfg, flat)
  {
    forall r | 0 <= r < |flat| ensures |flat[r]| <= Longest(flat) {
      LongestCovers(flat, r);
    }
    if BatchLen(cfg, flat) > cfg.minCompletionLen {
      var r := LongestAttained(flat);
    }
  }

  /** Every row of the batch knows the group its candidate came from. */
  lemma {:induction false} RowOfGroup(groups: seq<seq<seq<int>>>, g: nat, k: nat)
    requires g < |groups| && k < |groups[g]|
    ensures |GroupIdsOf(groups)| == |Flat(groups)| > |Flat(groups[..g])| + k
    ensures Flat(groups)[|Flat(groups[..g])| + k] == groups[g][k] && GroupIdsOf(groups)[|Flat(groups[..g])| + k] == g
    decreases |groups|
  {
    var front := groups[..|groups| - 1];
    FlatAt(groups, g, k);
    GroupIdsCount(front);
    if g < |front| {
      RowOfGroup(front, g, k);
      assert front[..g] == groups[..g];
    }
  }

  lemma {:induction false} GroupIdsCount(groups: seq<seq<seq<int>>>)
    ensures |GroupIdsOf(groups)| == |Flat(groups)|
    decreases |groups|
  {
    if |groups| > 0 {
      GroupIdsCount(groups[..|groups| - 1]);
    }
  }

  /** The stand-in reward is the mean token id, each modulo the vocabulary, as a share of the largest id. */
  lemma ProxyIsMeanShare(tokens: seq<int>, vocab: nat)
    requires vocab > 0
    ensures tokens == [] ==> ProxyReward(tokens, vocab) == 0.0
    ensures 0.0 <= ProxyReward(tokens, vocab) <= 1.0
    ensures vocab > 1 ==> ProxyReward(tokens, vocab) * (|tokens| * (vocab - 1)) as real == SumMod(tokens, vocab) as real
    ensures forall t :: SumMod([t], vocab) == t % vocab && 0 <= SumMod([t], vocab) < vocab
    ensures forall more :: SumMod(tokens + more, vocab) == SumMod(tokens, vocab) + SumMod(more, vocab)
  {
    forall t ensures SumMod([t], vocab) == t % vocab {
      assert [t][..0] == [];
    }
    forall more ensures SumMod(tokens + more, vocab) == SumMod(tokens, vocab) + SumMod(more, vocab) {
      SumModAppends(tokens, more, vocab);
    }
    SumModBounds(tokens, vocab);
    if tokens != [] {
      var total, top := SumMod(tokens, vocab), |tokens| * MaxInt(vocab - 1, 1);
      assert top > 0 && |tokens| * (vocab - 1) <= top;
      ShareOfTop(total, top);
    }
  }

  lemma ShareOfTop(total: int, top: int)
    requires 0 <= total <= top && top > 0
    ensures 0.0 <= total as real / top as real <= 1.0 && total as real / top as real * top as real == total as real
  {
    var q := total as real / top as real;
    assert q * top as real == total as real;
    assert (1.0 - q) * top as real >= 0.0;
  }

  lemma {:induction false} SumModBounds(tokens: seq<int>, vocab: nat)
    requires vocab > 0
    ensures 0 <= SumMod(tokens, vocab) <= |tokens| * (vocab - 1)
    decreases |tokens|
  {
    if |tokens| > 0 {
      SumModBounds(tokens[..|tokens| - 1], vocab);
      assert |tokens| * (vocab - 1) == (|tokens| - 1) * (vocab - 1) + (vocab - 1);
    }
  }

  lemma {:induction false} SumModAppends(a: seq<int>, b: seq<int>, vocab: nat)
    requires vocab > 0
    ensures SumMod(a + b, vocab) == SumMod(a, vocab) + SumMod(b, vocab)
    decreases |b|
  {
    if |b| == 0 {
      assert a + b == a;
    } else {
      assert (a + b)[..|a + b| - 1] == a + b[..|b| - 1];
      SumModAppends(a, b[..|b| - 1], vocab);
    }
  }

  /** The batch of a rollout payload: its rewards and logps are used exactly when they match its candidates. */
  method BatchOf(q: Payload, cfg: TrainConfig) returns (b: Batch)
    requires cfg.vocabSize > 0 && exists r :: 0 <= r < |Flat(GroupsIn(q, Tokens))| && Flat(GroupsIn(q, Tokens))[r] != []
    ensures
      var candidates := GroupsIn(q, Tokens);
      var flat := Flat(candidates);
      var logps := if LogpsMatch(candidates, GroupsIn(q, Logps), cfg.completionLen) then Flat(GroupsIn(q, Logps))
          else NoLogps(|flat|);
      && SizedAs(b, |flat|, BatchLen(cfg, flat)) && b.groupIds == GroupIdsOf(candidates)
      && b.rewards == (if RewardsMatch(candidates, GroupsIn(q, Reward)) then Flat(GroupsIn(q, Reward))
          else Proxies(flat, cfg.vocabSize))
      && |logps| == |flat| && forall r | 0 <= r < |flat| :: RowOf(b, cfg, r, flat[r], logps[r], BatchLen(cfg, flat))
  {
    var candidates := Extract(q, Tokens);
    var rewardGroups := Extract(q, Reward);
    var logpGroups := Extract(q, Logps);
    var flat := Flatten(candidates);
    var rewards := Proxies(flat, cfg.vocabSize);
    if RewardsMatch(candidates, rewardGroups) {
      rewards := Gather(candidates, rewardGroups);
    }
    var logps := NoLogps(|flat|);
    if LogpsMatch(candidates, logpGroups, cfg.completionLen) {
      logps := Gather(candidates, logpGroups);
    }
    var ids := GroupIds(candidates);
    b := FillBatch(flat, logps, cfg, rewards, ids);
  }
}
