/** From rollout payload to training batch: every score lands on the token it was computed for. */
module RolloutAlignment {
  import opened Integers
  import opened Options
  import opened RolloutPayload
  import opened RolloutScores
  import opened RolloutInputs
  import opened RolloutBatch

  // ----- the attachment loops --------------------------------------------------------------------

  /** One group: every candidate with tokens consumes the next value. */
  method AttachToMembers<T>(cs: seq<Candidate>, put: (Candidate, T) -> Candidate, values: seq<T>, start: nat)
    returns (res: Result<(seq<Candidate>, nat)>)
    requires start <= |values|
    ensures
      if start + Used(cs) > |values| then res == TooFewValues
      else res == Ok((Attached(cs, put, values, start), start + Used(cs)))
  {
    var updated: seq<Candidate> := [];
    var index := start;
    for k := 0 to |cs|
      invariant index == start + Used(cs[..k]) <= |values| && updated == Attached(cs[..k], put, values, start)
    {
      assert cs[..k + 1][..k] == cs[..k];
      MoreUsed(cs, k + 1);
      if TokenIds(cs[k]) == [] {
        updated := updated + [cs[k]];
      } else {
        if index >= |values| {
          return TooFewValues;
        }
        updated := updated + [put(cs[k], values[index])];
        index := index + 1;
      }
    }
    assert cs[..|cs|] == cs;
    res := Ok((updated, index));
  }

  /** _attach_rewards_to_grouped_outputs and its twin for reference logps, threading one index. */
  method AttachToGroupedOutputs<T>(es: seq<Entry>, put: (Candidate, T) -> Candidate, values: seq<T>)
    returns (res: Result<(seq<Entry>, nat)>)
    ensures if UsedIn(es) > |values| then res == TooFewValues
            else res == Ok((AttachedEntries(es, put, values), UsedIn(es)))
  {
    var updated: seq<Entry> := [];
    var index: nat := 0;
    for e := 0 to |es|
      invariant index == UsedIn(es[..e]) <= |values| && updated == AttachedEntries(es[..e], put, values)
    {
      assert es[..e + 1][..e] == es[..e];
      UsedGrows(es, e + 1);
      var r := AttachToMembers(Members(es[e]), put, values, index);
      if r.TooFewValues? {
        return TooFewValues;
      }
      updated := updated + [if es[e].Group? then Group(r.value.0) else Single(r.value.0[0])];
      index := r.value.1;
    }
    assert es[..|es|] == es;
    res := Ok((updated, index));
  }

  lemma {:induction false} MoreUsed(cs: seq<Candidate>, k: nat)
    requires k <= |cs|
    ensures Used(cs[..k]) <= Used(cs)
    decreases |cs| - k
  {
    if k < |cs| {
      assert cs[..k + 1][..k] == cs[..k];
      MoreUsed(cs, k + 1);
    } else {
      assert cs[..k] == cs;
    }
  }

  lemma {:induction false} UsedGrows(es: seq<Entry>, k: nat)
    requires k <= |es|
    ensures UsedIn(es[..k]) <= UsedIn(es)
    decreases |es| - k
  {
    if k < |es| {
      assert es[..k + 1][..k] == es[..k];
      UsedGrows(es, k + 1);
    } else {
      assert es[..k] == es;
    }
  }

  /** The attachment to the first list that takes any value. */
  method AttachToPayload<T>(p: Payload, put: (Candidate, T) -> Candidate, values: seq<T>) returns (res: Result<Payload>)
    ensures res == Attach(p, put, values)
  {
    if |values| == 0 {
      return Ok(p);
    }
    if p.normalized.Some? {
      var r := AttachToGroupedOutputs(p.normalized.value, put, values);
      if r.TooFewValues? {
        return TooFewValues;
      }
      if r.value.1 != 0 {
        return if r.value.1 != |values| then CountMismatch else Ok(p.(normalized := Some(r.value.0)));
      }
    }
    if p.outputs.Some? {
      var r := AttachToGroupedOutputs(p.outputs.value, put, values);
      if r.TooFewValues? {
        return TooFewValues;
      }
      if r.value.1 != 0 {
        return if r.value.1 != |values| then CountMismatch else Ok(p.(outputs := Some(r.value.0)));
      }
    }
    res := Ok(p);
  }

  /** attach_stateless_scores_to_payload */
  method AttachBoth(p: Payload, rewards: seq<real>, rows: seq<seq<real>>) returns (res: Result<Payload>)
    ensures res == AttachScores(p, rewards, rows)
  {
    res := AttachToPayload(p, PutReward, rewards);
    if res.Ok? {
      res := AttachToPayload(res.value, PutLogps, rows);
    }
  }

  // ----- the same candidates everywhere ----------------------------------------------------------

  lemma {:induction false} CollectRecords(cs: seq<Candidate>)
    ensures TokensOf(Collect(cs, RecordOf)) == Collect(cs, Tokens)
    ensures forall r | 0 <= r < |Collect(cs, RecordOf)| :: Collect(cs, RecordOf)[r].tokens != []
    decreases |cs|
  {
    if |cs| > 0 {
      CollectRecords(cs[..|cs| - 1]);
    }
  }

  lemma TokensOfAppend(a: seq<Record>, b: seq<Record>)
    ensures TokensOf(a + b) == TokensOf(a) + TokensOf(b)
  {
  }

  lemma {:induction false} GroupRecords(es: seq<Entry>)
    ensures TokensOf(Flat(Groups(es, RecordOf))) == Flat(Groups(es, Tokens))
    ensures Groups(es, RecordOf) == [] <==> Groups(es, Tokens) == []
    ensures forall r | 0 <= r < |Flat(Groups(es, RecordOf))| :: Flat(Groups(es, RecordOf))[r].tokens != []
    decreases |es|
  {
    if |es| > 0 {
      var front, last := es[..|es| - 1], Members(es[|es| - 1]);
      GroupRecords(front);
      CollectRecords(last);
      PushFlat(Groups(front, RecordOf), Collect(last, RecordOf));
      PushFlat(Groups(front, Tokens), Collect(last, Tokens));
      TokensOfAppend(Flat(Groups(front, RecordOf)), Collect(last, RecordOf));
    }
  }

  /** The input builder's rows are the batch builder's rows: the same candidates in the same order. */
  lemma RecordsAreCandidates(p: Payload)
    ensures TokensOf(RecordsOf(p)) == Flat(GroupsIn(p, Tokens))
    ensures forall r | 0 <= r < |RecordsOf(p)| :: RecordsOf(p)[r].tokens != []
  {
    if p.normalized.Some? {
      GroupRecords(p.normalized.value);
    }
    if p.outputs.Some? {
      GroupRecords(p.outputs.value);
    }
  }

  // ----- where the scores land -------------------------------------------------------------------

  /** The rows the scorer hands back. */
  function Rows(records: seq<Record>, l: Layout, logp: (int, int, int) -> real): seq<seq<real>> {
    seq(|records|, r requires 0 <= r < |records| => LogpRow(records[r], l.promptLen, l.completionLen, logp, r))
  }

  /** The reference logp of token t of row r: the logits of the position before its column, at the token. */
  function ScoreOf(records: seq<Record>, l: Layout, logp: (int, int, int) -> real, r: nat, t: nat): real
    requires r < |records| && t < |records[r].tokens|
  {
    logp(r, l.promptLen + t - 1, records[r].tokens[t])
  }

  /** Every row keeps as many tokens as the trainer's match check asks for. */
  predicate Matched(records: seq<Record>, l: Layout, cfg: TrainConfig) {
    forall r | 0 <= r < |records| :: MinInt(|records[r].tokens|, cfg.completionLen) <= Kept(records[r], l.completionLen)
  }

  /** Every token of the training batch was scored. */
  predicate Covered(records: seq<Record>, l: Layout, cfg: TrainConfig) {
    forall r | 0 <= r < |records| ::
      MinInt(|records[r].tokens|, BatchLen(cfg, TokensOf(records))) <= Kept(records[r], l.completionLen)
  }

  /** The match check reads the row lengths only: it passes exactly when every row keeps enough. */
  predicate LongEnough(lists: seq<seq<int>>, logps: seq<seq<real>>, maxLen: nat)
    requires |lists| == |logps|
  {
    forall r | 0 <= r < |lists| :: MinInt(|lists[r]|, maxLen) <= |logps[r]|
  }

  lemma LongEnoughAppends(a: seq<seq<int>>, b: seq<seq<int>>, x: seq<seq<real>>, y: seq<seq<real>>, maxLen: nat)
    requires |a| == |x| && |b| == |y|
    ensures LongEnough(a + b, x + y, maxLen) <==> LongEnough(a, x, maxLen) && LongEnough(b, y, maxLen)
  {
    assert forall r | 0 <= r < |a| :: (a + b)[r] == a[r] && (x + y)[r] == x[r];
    assert forall r | 0 <= r < |b| :: (a + b)[|a| + r] == b[r] && (x + y)[|a| + r] == y[r];
  }

  lemma {:induction false} FlatMatch(candidates: seq<seq<seq<int>>>, logps: seq<seq<seq<real>>>, maxLen: nat)
    requires SameShape(candidates, logps)
    ensures |Flat(candidates)| == |Flat(logps)|
    ensures LogpsMatch(candidates, logps, maxLen) <==> LongEnough(Flat(candidates), Flat(logps), maxLen)
    decreases |candidates|
  {
    if |candidates| > 0 {
      var n := |candidates| - 1;
      var (c, l) := (candidates[..n], logps[..n]);
      FlatMatch(c, l, maxLen);
      assert LogpsMatch(candidates, logps, maxLen) <==>
          LogpsMatch(c, l, maxLen) && LongEnough(candidates[n], logps[n], maxLen);
      LongEnoughAppends(Flat(c), candidates[n], Flat(l), logps[n], maxLen);
    }
  }

  /** The trainer's check passes exactly when every row keeps enough tokens. */
  lemma MatchIff(p: Payload, q: Payload, rewards: seq<real>, l: Layout, logp: (int, int, int) -> real, cfg: TrainConfig)
    requires Landed(p, q, rewards, Rows(RecordsOf(p), l, logp))
    ensures LogpsMatch(GroupsIn(q, Tokens), GroupsIn(q, Logps), cfg.completionLen) <==> Matched(RecordsOf(p), l, cfg)
    ensures RewardsMatch(GroupsIn(q, Tokens), GroupsIn(q, Reward))
  {
    RecordsAreCandidates(p);
    FlatMatch(GroupsIn(q, Tokens), GroupsIn(q, Logps), cfg.completionLen);
    var records := RecordsOf(p);
    assert forall r | 0 <= r < |records| ::
        TokensOf(records)[r] == records[r].tokens && |Rows(records, l, logp)[r]| == Kept(records[r], l.completionLen);
  }

  /** A batch whose rows carry their own candidate's tokens, reward and, where scored, reference logps. */
  ghost predicate Aligned(b: Batch, records: seq<Record>, l: Layout, logp: (int, int, int) -> real,
      rewards: seq<real>, cfg: TrainConfig)
    requires cfg.vocabSize > 0
    reads b.tokenIds, b.mask, b.refLogps
  {
    var len := BatchLen(cfg, TokensOf(records));
    && SizedAs(b, |records|, len) && b.rewards == rewards
    && forall r, t | 0 <= r < |records| && 0 <= t < len ::
         && b.mask[r, t] == (t < |records[r].tokens|)
         && b.tokenIds[r, t] == (if t < |records[r].tokens| then records[r].tokens[t] % cfg.vocabSize else 0)
         && b.refLogps[r, t] == (if Matched(records, l, cfg) && t < Kept(records[r], l.completionLen)
                                 then ScoreOf(records, l, logp, r, t) else 0.0)
  }

  lemma RowsAlign(b: Batch, records: seq<Record>, l: Layout, logp: (int, int, int) -> real, rewards: seq<real>,
      cfg: TrainConfig)
    requires cfg.vocabSize > 0 && b.rewards == rewards
    requires SizedAs(b, |records|, BatchLen(cfg, TokensOf(records)))
    requires forall r | 0 <= r < |records| ::
               RowOf(b, cfg, r, TokensOf(records)[r],
                     if Matched(records, l, cfg) then Rows(records, l, logp)[r] else [],
                     BatchLen(cfg, TokensOf(records)))
    ensures Aligned(b, records, l, logp, rewards, cfg)
  {
    forall r, t | 0 <= r < |records| && 0 <= t < BatchLen(cfg, TokensOf(records))
      ensures b.mask[r, t] == (t < |records[r].tokens|)
      ensures b.tokenIds[r, t] == (if t < |records[r].tokens| then records[r].tokens[t] % cfg.vocabSize else 0)
      ensures b.refLogps[r, t] == (if Matched(records, l, cfg) && t < Kept(records[r], l.completionLen)
                                   then ScoreOf(records, l, logp, r, t) else 0.0)
    {
      assert TokensOf(records)[r] == records[r].tokens;
    }
  }

  /** Every token the mask marks holds the score it was given, at its own id, in a row with its own reward. */
  ghost predicate EveryTokenScored(b: Batch, records: seq<Record>, l: Layout, logp: (int, int, int) -> real,
      rewards: seq<real>, vocab: nat)
    requires vocab > 0
    reads b.tokenIds, b.mask, b.refLogps
  {
    && SizedAs(b, |records|, b.mask.Length1) && |b.rewards| == |rewards| == |records|
    && forall r, t | 0 <= r < b.mask.Length0 && 0 <= t < b.mask.Length1 && b.mask[r, t] ::
         && t < |records[r].tokens|
         && b.tokenIds[r, t] == records[r].tokens[t] % vocab
         && b.refLogps[r, t] == ScoreOf(records, l, logp, r, t)
         && b.rewards[r] == rewards[r]
  }

  /** Limits under which no token of the batch goes without a score. */
  predicate LimitsFit(build: BuildConfig, train: TrainConfig) {
    && train.minCompletionLen <= train.completionLen
    && (build.limit.None? || build.limit.value >= train.completionLen)
  }

  /** A payload of flat mappings, the case documented for rollouts that carry their own scores. */
  ghost predicate FlatPayload(p: Payload) {
    && (p.normalized.Some? ==> AllFlat(p.normalized.value))
    && (p.outputs.Some? ==> AllFlat(p.outputs.value))
  }

  ghost predicate AllFlat(es: seq<Entry>) {
    forall k, c | 0 <= k < |es| && c in Members(es[k]) :: FlatCandidate(c)
  }

  lemma FlatPayloadIsClean(p: Payload)
    requires FlatPayload(p)
    ensures CleanPayload(p)
  {
    forall c | FlatCandidate(c) ensures Clean(c) {
      FlatIsClean(c);
    }
  }

  lemma FlatIsScored(p: Payload, b: Batch, build: BuildConfig, train: TrainConfig,
      logp: (int, int, int) -> real, rewards: seq<real>)
    requires train.vocabSize > 0 && Accepted(build) && |rewards| == |RecordsOf(p)|
    requires forall r | 0 <= r < |RecordsOf(p)| :: RecordsOf(p)[r].tokens != []
    requires CleanPayload(p) ==>
               Aligned(b, RecordsOf(p), LayoutOf(RecordsOf(p), build), logp, rewards, train)
    ensures FlatPayload(p) && LimitsFit(build, train) ==>
              EveryTokenScored(b, RecordsOf(p), LayoutOf(RecordsOf(p), build), logp, rewards, train.vocabSize)
  {
    if FlatPayload(p) && LimitsFit(build, train) {
      FlatPayloadIsClean(p);
      EveryTokenIsScored(RecordsOf(p), build, train);
    }
  }

  /** Scoring a rollout and batching it for training. None stands for an exception, or for a payload left
      without candidates. A clean payload yields a batch if and only if the configuration is accepted, there
      are candidates, completions do not start in the first column, and there is one reward per row; and then
      the batch is aligned. With flat candidates and fitting limits every masked token has its own score and
      its row's reward. */
  method ScoreAndBatch(p: Payload, build: BuildConfig, train: TrainConfig, logp: (int, int, int) -> real,
                       rewards: seq<real>)
    returns (res: Option<Batch>)
    requires train.vocabSize > 0
    ensures CleanPayload(p) ==>
              (res.Some? <==>
                 && Accepted(build) && RecordsOf(p) != [] && PromptLen(RecordsOf(p), build) >= 1
                 && |rewards| == |RecordsOf(p)|)
    ensures CleanPayload(p) && res.Some? ==>
              Aligned(res.value, RecordsOf(p), LayoutOf(RecordsOf(p), build), logp, rewards, train)
    ensures res.Some? ==> Accepted(build)
    ensures res.Some? && FlatPayload(p) && LimitsFit(build, train) ==>
              EveryTokenScored(res.value, RecordsOf(p), LayoutOf(RecordsOf(p), build), logp, rewards, train.vocabSize)
  {
    ghost var records := RecordsOf(p);
    RecordsAreCandidates(p);
    var outcome := Build(p, build);
    if !outcome.Built? {
      return None;
    }
    var l := outcome.layout;
    var rows := ScoreRows(outcome.inputs, l, RecordsOf(p), logp);
    if rows.None? || |rewards| != |rows.value| {
      return None;
    }
    CleanAttaches(p, rewards, rows.value);
    var scored := AttachBoth(p, rewards, rows.value);
    if !scored.Ok? {
      return None;
    }
    var q := scored.value;
    RecordsAreCandidates(q);
    if RecordsOf(q) == [] {
      return None;
    }
    assert Flat(GroupsIn(q, Tokens))[0] == TokensOf(RecordsOf(q))[0] != [];
    var b := BatchOf(q, train);
    if CleanPayload(p) {
      MatchIff(p, q, rewards, l, logp, train);
      RowsAlign(b, records, l, logp, rewards, train);
    }
    FlatIsScored(p, b, build, train, logp, rewards);
    res := Some(b);
  }

  lemma CleanAttaches(p: Payload, rewards: seq<real>, rows: seq<seq<real>>)
    requires |rewards| == |rows| == |RecordsOf(p)| > 0 && forall r | 0 <= r < |rows| :: rows[r] != []
    ensures CleanPayload(p) ==>
              var r := AttachScores(p, rewards, rows); r.Ok? && Landed(p, r.value, rewards, rows)
    ensures CleanPayload(p) ==> TokensOf(RecordsOf(AttachScores(p, rewards, rows).value)) == TokensOf(RecordsOf(p))
  {
    RecordsAreCandidates(p);
    if CleanPayload(p) {
      ScoresLand(p, rewards, rows);
      RecordsAreCandidates(AttachScores(p, rewards, rows).value);
    }
  }

  /** Scores the inputs and reads the rows back; None when a completion starts in the first column. */
  method ScoreRows(x: Inputs, l: Layout, records: seq<Record>, logp: (int, int, int) -> real)
      returns (rows: Option<seq<seq<real>>>)
    requires AllBuilt(x, l, records) && records != [] && l.completionLen >= 1
    requires forall r | 0 <= r < |records| :: records[r].tokens != []
    ensures rows.Some? <==> l.promptLen >= 1
    ensures rows.Some? ==> rows.value == Rows(records, l, logp) && forall r | 0 <= r < |records| :: rows.value[r] != []
  {
    forall r | 0 <= r < |records|
      ensures x.completion[r, 0] == (l.promptLen == 0)
    {
      assert RowBuilt(x, l, records[r], r);
      assert x.completion[r, 0] == ActiveAt(records[r], l.promptLen, l.completionLen, 0);
    }
    assert x.completion[0, 0] == (l.promptLen == 0);
    var ok, result := ScoreReference(x.ids, None, x.completion, logp);
    if !ok {
      return None;
    }
    var values := ActiveRows(result, x.completion, records, l.promptLen, l.completionLen, l.pad, logp);
    assert values == Rows(records, l, logp);
    rows := Some(values);
  }

  // ----- when every token of the batch has its score ---------------------------------------------

  /** The trainer accepts the logps if and only if the builder's limit is absent, or is at least what each
      row shows within the trainer's length. */
  lemma AcceptedIff(records: seq<Record>, build: BuildConfig, train: TrainConfig)
    requires Accepted(build) && forall r | 0 <= r < |records| :: records[r].tokens != []
    ensures Matched(records, LayoutOf(records, build), train) <==>
      build.limit.None? || forall r | 0 <= r < |records| ::
          MinInt(|records[r].tokens|, train.completionLen) <= build.limit.value
  {
    KeptIs(records, build);
  }

  lemma KeptIs(records: seq<Record>, build: BuildConfig)
    requires Accepted(build) && forall r | 0 <= r < |records| :: records[r].tokens != []
    ensures forall r | 0 <= r < |records| :: Kept(records[r], CompletionLen(records, build)) ==
              if build.limit.Some? then MinInt(|records[r].tokens|, build.limit.value) else |records[r].tokens|
  {
    forall r | 0 <= r < |records|
      ensures |records[r].tokens| <= Longest(TokensOf(records))
    {
      LongestCovers(TokensOf(records), r);
      assert TokensOf(records)[r] == records[r].tokens;
    }
  }

  /** Every active token of the batch was scored if and only if the limit is absent, or covers each row's
      share of the batch length. */
  lemma CoveredIff(records: seq<Record>, build: BuildConfig, train: TrainConfig)
    requires Accepted(build) && forall r | 0 <= r < |records| :: records[r].tokens != []
    ensures Covered(records, LayoutOf(records, build), train) <==>
      build.limit.None? || forall r | 0 <= r < |records| ::
          MinInt(|records[r].tokens|, BatchLen(train, TokensOf(records))) <= build.limit.value
  {
    KeptIs(records, build);
  }

  /** With a minimum length within the maximum, and a limit that is absent or at least the maximum, the
      trainer accepts the logps and every active token has its own. */
  lemma EveryTokenIsScored(records: seq<Record>, build: BuildConfig, train: TrainConfig)
    requires Accepted(build) && forall r | 0 <= r < |records| :: records[r].tokens != []
    requires LimitsFit(build, train)
    ensures Matched(records, LayoutOf(records, build), train) && Covered(records, LayoutOf(records, build), train)
  {
    AcceptedIff(records, build, train);
    CoveredIff(records, build, train);
  }

  /** With a minimum above the maximum the check can pass while active tokens have no score: three tokens,
      a limit and a maximum of one, a minimum of three. */
  lemma AcceptedButUncovered(record: Record, build: BuildConfig)
    requires |record.tokens| == 3 && build == BuildConfig(Some(1), 0, Some(1))
    ensures Matched([record], LayoutOf([record], build), TrainConfig(1, 3, 2))
    ensures !Covered([record], LayoutOf([record], build), TrainConfig(1, 3, 2))
  {
    var records := [record];
    assert TokensOf(records) == [record.tokens];
    assert [record.tokens][..0] == [];
    assert Longest([record.tokens]) == 3;
    assert records[0] == record;
  }
}
