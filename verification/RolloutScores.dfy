/** Attaching rewards and reference logps to a payload, and extracting them again. */
module RolloutScores {
  import opened Options
  import opened RolloutPayload

  // ----- which candidates return what is attached to them ----------------------------------------

  /** A candidate without tokens carries no scores of its own. One with tokens keeps them when it becomes a
      mapping, and has no nested scores in front of its own. */
  predicate Clean(c: Candidate) {
    if TokenIds(c) == [] then Reward(c).None? && LogpList(c) == []
    else TokenIds(AsMapping(c)) == TokenIds(c) && RewardOfAny(c.nested).None? && LogpsOfAny(c.nested) == []
  }

  /** A flat mapping whose scores are absent unless it has tokens. */
  predicate FlatCandidate(c: Candidate) {
    c.Item? && c.kind.AMapping? && c.nested == []
    && (ListOr(c.tokens) == [] ==>
          (forall k | k in REWARD_KEYS :: k !in c.rewards) && (forall k | k in LOGP_KEYS :: k !in c.logps))
  }

  lemma {:induction false} NoKey<T>(keys: seq<string>, m: map<string, T>)
    requires forall k | k in keys :: k !in m
    ensures FirstKey(keys, m).None?
    decreases |keys|
  {
    if |keys| > 0 {
      assert keys[0] in keys;
      NoKey(keys[1..], m);
    }
  }

  lemma FlatIsClean(c: Candidate)
    requires FlatCandidate(c)
    ensures Clean(c)
  {
    if ListOr(c.tokens) == [] {
      NoKey(REWARD_KEYS, c.rewards);
      NoKey(LOGP_KEYS, c.logps);
    }
  }

  lemma PutRewardLands(c: Candidate, r: real)
    requires Clean(c) && TokenIds(c) != []
    ensures var d := PutReward(c, r);
            && Reward(d) == Some(r) && TokenIds(d) == TokenIds(c) && Clean(d)
  {
  }

  lemma PutLogpsLands(c: Candidate, row: seq<real>)
    requires Clean(c) && TokenIds(c) != [] && row != []
    ensures var d := PutLogps(c, row);
            && Logps(d) == Some(row) && TokenIds(d) == TokenIds(c) && Reward(d) == Reward(c) && Clean(d)
  {
  }

  lemma TokenlessYieldsNothing(c: Candidate)
    requires Clean(c) && Tokens(c).None?
    ensures Reward(c).None? && Logps(c).None?
  {
  }

  ghost predicate EachClean(cs: seq<Candidate>) { forall c | c in cs :: Clean(c) }

  ghost predicate AllClean(es: seq<Entry>) { forall k | 0 <= k < |es| :: EachClean(Members(es[k])) }

  lemma RewardsTransparent(cs: seq<Candidate>, rewards: seq<real>)
    requires EachClean(cs)
    ensures Transparent(cs, PutReward, Reward, rewards) && Untouched(cs, PutReward, Tokens, rewards)
  {
    forall c | c in cs && Tokens(c).None?
      ensures Reward(c).None?
    {
      TokenlessYieldsNothing(c);
    }
    forall c, j | c in cs && Tokens(c).Some? && 0 <= j < |rewards|
      ensures Reward(PutReward(c, rewards[j])) == Some(rewards[j]) && Tokens(PutReward(c, rewards[j])) == Tokens(c)
    {
      PutRewardLands(c, rewards[j]);
    }
  }

  lemma LogpsTransparent(cs: seq<Candidate>, rows: seq<seq<real>>)
    requires EachClean(cs) && forall k | 0 <= k < |rows| :: rows[k] != []
    ensures Transparent(cs, PutLogps, Logps, rows)
    ensures Untouched(cs, PutLogps, Tokens, rows) && Untouched(cs, PutLogps, Reward, rows)
  {
    forall c | c in cs && Tokens(c).None?
      ensures Logps(c).None?
    {
      TokenlessYieldsNothing(c);
    }
    forall c, j | c in cs && Tokens(c).Some? && 0 <= j < |rows|
      ensures Logps(PutLogps(c, rows[j])) == Some(rows[j]) && Tokens(PutLogps(c, rows[j])) == Tokens(c)
              && Reward(PutLogps(c, rows[j])) == Reward(c)
    {
      PutLogpsLands(c, rows[j]);
    }
  }

  ghost predicate CleanPayload(p: Payload) {
    && (p.normalized.Some? ==> AllClean(p.normalized.value))
    && (p.outputs.Some? ==> AllClean(p.outputs.value))
  }

  // ----- one list --------------------------------------------------------------------------------

  /** The two attachments, as one value to reason about at a time. */
  datatype Scores = Rewards(rewards: seq<real>) | Rows(rows: seq<seq<real>>)

  lemma {:induction false} CountsAgree(es: seq<Entry>)
    ensures UsedIn(es) == |Flat(Groups(es, Tokens))|
    ensures UsedIn(es) == 0 <==> Groups(es, Tokens) == []
    decreases |es|
  {
    if |es| > 0 {
      CountsAgree(es[..|es| - 1]);
      PushFlat(Groups(es[..|es| - 1], Tokens), Collect(Members(es[|es| - 1]), Tokens));
    }
  }

  ghost predicate Silent<T>(cs: seq<Candidate>, get: Candidate -> Option<T>) {
    forall c | c in cs && Tokens(c).None? :: get(c).None?
  }

  lemma {:induction false} NothingCollected<T>(cs: seq<Candidate>, get: Candidate -> Option<T>)
    requires Used(cs) == 0 && Silent(cs, get)
    ensures Collect(cs, get) == []
    decreases |cs|
  {
    if |cs| > 0 {
      assert cs[|cs| - 1] in cs;
      NothingCollected(cs[..|cs| - 1], get);
    }
  }

  /** A list none of whose candidates has tokens yields no scores either. */
  lemma {:induction false} NothingGrouped<T>(es: seq<Entry>, get: Candidate -> Option<T>)
    requires UsedIn(es) == 0
    requires forall k | 0 <= k < |es| :: Silent(Members(es[k]), get)
    ensures Groups(es, get) == []
    decreases |es|
  {
    if |es| > 0 {
      NothingGrouped(es[..|es| - 1], get);
      NothingCollected(Members(es[|es| - 1]), get);
    }
  }

  lemma {:induction false} AttachedFrom<T>(cs: seq<Candidate>, put: (Candidate, T) -> Candidate, values: seq<T>,
      i: nat, c: Candidate)
    requires i + Used(cs) <= |values| && c in Attached(cs, put, values, i)
    ensures (c in cs && Tokens(c).None?) || exists d, k ::
        d in cs && Tokens(d).Some? && 0 <= k < |values| && c == put(d, values[k])
    decreases |cs|
  {
    var front, last := cs[..|cs| - 1], cs[|cs| - 1];
    assert last in cs;
    if c in Attached(front, put, values, i) {
      AttachedFrom(front, put, values, i, c);
    }
  }

  lemma {:induction false} AttachedMember<T>(es: seq<Entry>, put: (Candidate, T) -> Candidate, values: seq<T>, k: nat)
    requires UsedIn(es) <= |values| && k < |es|
    ensures exists i: nat :: i + Used(Members(es[k])) <= |values|
                             && Members(AttachedEntries(es, put, values)[k]) == Attached(Members(es[k]), put, values, i)
    decreases |es|
  {
    AttachedSplits(es, put, values);
    var n := |es| - 1;
    if k < n {
      AttachedMember(es[..n], put, values, k);
      assert AttachedEntries(es, put, values)[k] == AttachedEntries(es[..n], put, values)[k];
    } else {
      assert UsedIn(es[..n]) + Used(Members(es[k])) <= |values|;
    }
  }

  lemma RewardsKeepClean(es: seq<Entry>, rewards: seq<real>)
    requires AllClean(es) && UsedIn(es) <= |rewards|
    ensures AllClean(AttachedEntries(es, PutReward, rewards))
  {
    var r := AttachedEntries(es, PutReward, rewards);
    forall k, c | 0 <= k < |r| && c in Members(r[k])
      ensures Clean(c)
    {
      AttachedMember(es, PutReward, rewards, k);
      var i: nat :| i + Used(Members(es[k])) <= |rewards|
                    && Members(AttachedEntries(es, PutReward, rewards)[k])
                        == Attached(Members(es[k]), PutReward, rewards, i);
      AttachedFrom(Members(es[k]), PutReward, rewards, i, c);
      if !(c in Members(es[k]) && Tokens(c).None?) {
        var d, j :| d in Members(es[k]) && Tokens(d).Some? && 0 <= j < |rewards| && c == PutReward(d, rewards[j]);
        PutRewardLands(d, rewards[j]);
      }
    }
  }

  /** Attaching rewards to one list of clean candidates: the tokens stay, the rewards come back in order. */
  lemma RewardsLand(es: seq<Entry>, rewards: seq<real>)
    requires AllClean(es) && UsedIn(es) == |rewards|
    ensures var r := AttachedEntries(es, PutReward, rewards);
            && AllClean(r) && Groups(r, Tokens) == Groups(es, Tokens) && UsedIn(r) == |rewards|
            && SameShape(Groups(r, Reward), Groups(es, Tokens)) && Flat(Groups(r, Reward)) == rewards
  {
    forall k | 0 <= k < |es|
      ensures Transparent(Members(es[k]), PutReward, Reward, rewards)
          && Untouched(Members(es[k]), PutReward, Tokens, rewards)
    {
      RewardsTransparent(Members(es[k]), rewards);
    }
    RewardsKeepClean(es, rewards);
    AttachedGroupsKeep(es, PutReward, Tokens, rewards);
    AttachedGroups(es, PutReward, Reward, rewards);
    assert rewards[..|rewards|] == rewards;
    CountsAgree(es);
    CountsAgree(AttachedEntries(es, PutReward, rewards));
  }

  /** Attaching logp rows: the tokens and the rewards stay, the rows come back in order. */
  lemma LogpsLand(es: seq<Entry>, rows: seq<seq<real>>)
    requires AllClean(es) && UsedIn(es) <= |rows| && forall k | 0 <= k < |rows| :: rows[k] != []
    ensures var r := AttachedEntries(es, PutLogps, rows);
            && Groups(r, Tokens) == Groups(es, Tokens) && Groups(r, Reward) == Groups(es, Reward)
            && SameShape(Groups(r, Logps), Groups(es, Tokens)) && Flat(Groups(r, Logps)) == rows[..UsedIn(es)]
  {
    forall k | 0 <= k < |es|
      ensures Transparent(Members(es[k]), PutLogps, Logps, rows)
      ensures Untouched(Members(es[k]), PutLogps, Tokens, rows) && Untouched(Members(es[k]), PutLogps, Reward, rows)
    {
      LogpsTransparent(Members(es[k]), rows);
    }
    AttachedGroupsKeep(es, PutLogps, Tokens, rows);
    AttachedGroupsKeep(es, PutLogps, Reward, rows);
    AttachedGroups(es, PutLogps, Logps, rows);
  }

  // ----- the payload -----------------------------------------------------------------------------

  /** The list the candidates come from: the first with any tokens. */
  predicate FromNormalized(p: Payload) { p.normalized.Some? && UsedIn(p.normalized.value) > 0 }

  function CandidateCount(p: Payload): nat { |Flat(GroupsIn(p, Tokens))| }

  lemma CleanElsewhere(p: Payload)
    requires CleanPayload(p) && p.normalized.Some? && UsedIn(p.normalized.value) == 0
    ensures Groups(p.normalized.value, Tokens) == [] && Groups(p.normalized.value, Reward) == []
        && Groups(p.normalized.value, Logps) == []
  {
    var es := p.normalized.value;
    forall k | 0 <= k < |es|
      ensures Silent(Members(es[k]), Reward) && Silent(Members(es[k]), Logps)
    {
      forall c | c in Members(es[k]) && Tokens(c).None?
        ensures Reward(c).None? && Logps(c).None?
      {
        TokenlessYieldsNothing(c);
      }
    }
    NothingGrouped(p.normalized.value, Tokens);
    NothingGrouped(p.normalized.value, Reward);
    NothingGrouped(p.normalized.value, Logps);
  }

  function Chosen(p: Payload): seq<Entry>
    requires FromNormalized(p) || p.outputs.Some?
  {
    if FromNormalized(p) then p.normalized.value else p.outputs.value
  }

  function Replaced(p: Payload, es: seq<Entry>): Payload {
    if FromNormalized(p) then p.(normalized := Some(es)) else p.(outputs := Some(es))
  }

  lemma ChosenHolds(p: Payload)
    requires CandidateCount(p) > 0
    ensures FromNormalized(p) || p.outputs.Some?
    ensures UsedIn(Chosen(p)) == CandidateCount(p) && GroupsIn(p, Tokens) == Groups(Chosen(p), Tokens)
  {
    if p.normalized.Some? {
      CountsAgree(p.normalized.value);
    }
    if p.outputs.Some? {
      CountsAgree(p.outputs.value);
    }
  }

  /** Attaching to the payload replaces exactly the list its candidates come from. */
  lemma AttachReplaces<T>(p: Payload, put: (Candidate, T) -> Candidate, values: seq<T>)
    requires |values| == CandidateCount(p) > 0
    ensures FromNormalized(p) || p.outputs.Some?
    ensures UsedIn(Chosen(p)) == |values|
    ensures Attach(p, put, values) == Ok(Replaced(p, AttachedEntries(Chosen(p), put, values)))
  {
    ChosenHolds(p);
  }

  /** The extractors read a replaced list, when the list before it is silent. */
  lemma ReplacedGroups<T>(p: Payload, es: seq<Entry>, get: Candidate -> Option<T>)
    requires Groups(es, get) != []
    requires !FromNormalized(p) && p.normalized.Some? ==> Groups(p.normalized.value, get) == []
    ensures GroupsIn(Replaced(p, es), get) == Groups(es, get)
  {
  }

  /** attach_stateless_scores_to_payload: the rewards first, then the logp rows. */
  function AttachScores(p: Payload, rewards: seq<real>, rows: seq<seq<real>>): Result<Payload> {
    var rewarded := Attach(p, PutReward, rewards);
    if rewarded.Ok? then Attach(rewarded.value, PutLogps, rows) else rewarded
  }

  /** What the extractors return from a scored payload: the original token groups, and rewards and logp rows
      of the same shape holding exactly the attached values in candidate order. */
  predicate Landed(p: Payload, q: Payload, rewards: seq<real>, rows: seq<seq<real>>) {
    && GroupsIn(q, Tokens) == GroupsIn(p, Tokens)
    && SameShape(GroupsIn(q, Reward), GroupsIn(p, Tokens)) && Flat(GroupsIn(q, Reward)) == rewards
    && SameShape(GroupsIn(q, Logps), GroupsIn(p, Tokens)) && Flat(GroupsIn(q, Logps)) == rows
  }

  /** The list a payload's candidates come from is clean, and the list before it is silent. */
  lemma CleanChoice(p: Payload)
    requires CleanPayload(p) && CandidateCount(p) > 0
    ensures FromNormalized(p) || p.outputs.Some?
    ensures AllClean(Chosen(p)) && UsedIn(Chosen(p)) == CandidateCount(p)
    ensures GroupsIn(p, Tokens) == Groups(Chosen(p), Tokens)
    ensures Groups(Chosen(p), Tokens) != []
    ensures !FromNormalized(p) && p.normalized.Some? ==>
              var es := p.normalized.value;
              Groups(es, Tokens) == [] && Groups(es, Reward) == [] && Groups(es, Logps) == []
  {
    ChosenHolds(p);
    CountsAgree(Chosen(p));
    if !FromNormalized(p) && p.normalized.Some? {
      CleanElsewhere(p);
    }
  }

  /** The payload between the two attachments. */
  function Between(p: Payload, rewards: seq<real>): Payload
    requires FromNormalized(p) || p.outputs.Some?
    requires UsedIn(Chosen(p)) <= |rewards|
  {
    Replaced(p, AttachedEntries(Chosen(p), PutReward, rewards))
  }

  /** The updated list: clean, with the same tokens, and with the rewards in order. */
  lemma ChosenRewarded(p: Payload, rewards: seq<real>)
    requires CleanPayload(p) && |rewards| == CandidateCount(p) > 0
    ensures FromNormalized(p) || p.outputs.Some?
    ensures UsedIn(Chosen(p)) == |rewards|
    ensures var es := AttachedEntries(Chosen(p), PutReward, rewards);
            && AllClean(es) && Groups(es, Tokens) == GroupsIn(p, Tokens) && UsedIn(es) == |rewards|
            && SameShape(Groups(es, Reward), GroupsIn(p, Tokens)) && Flat(Groups(es, Reward)) == rewards
  {
    CleanChoice(p);
    RewardsLand(Chosen(p), rewards);
  }

  lemma RewardsAttached(p: Payload, rewards: seq<real>)
    requires CleanPayload(p) && |rewards| == CandidateCount(p) > 0
    ensures FromNormalized(p) || p.outputs.Some?
    ensures UsedIn(Chosen(p)) == |rewards| && Attach(p, PutReward, rewards) == Ok(Between(p, rewards))
    ensures var q := Between(p, rewards);
            && CandidateCount(q) == |rewards| && (FromNormalized(q) || q.outputs.Some?)
            && Chosen(q) == AttachedEntries(Chosen(p), PutReward, rewards)
  {
    CleanChoice(p);
    AttachReplaces(p, PutReward, rewards);
    ChosenRewarded(p, rewards);
    var es := AttachedEntries(Chosen(p), PutReward, rewards);
    CountsAgree(es);
    ReplacedGroups(p, es, Tokens);
  }

  /** Scores attached to a clean payload are extracted again, each from its own candidate. */
  lemma ScoresLand(p: Payload, rewards: seq<real>, rows: seq<seq<real>>)
    requires CleanPayload(p) && |rewards| == |rows| == CandidateCount(p) > 0
    requires forall k | 0 <= k < |rows| :: rows[k] != []
    ensures AttachScores(p, rewards, rows).Ok? && Landed(p, AttachScores(p, rewards, rows).value, rewards, rows)
  {
    ChosenRewarded(p, rewards);
    RewardsAttached(p, rewards);
    var es := AttachedEntries(Chosen(p), PutReward, rewards);
    AttachReplaces(Between(p, rewards), PutLogps, rows);
    LogpsLand(es, rows);
    var scored := AttachedEntries(es, PutLogps, rows);
    assert Replaced(Between(p, rewards), scored) == Replaced(p, scored);
    CleanChoice(p);
    ReplacedGroups(p, scored, Tokens);
    ReplacedGroups(p, scored, Reward);
    ReplacedGroups(p, scored, Logps);
  }
}
