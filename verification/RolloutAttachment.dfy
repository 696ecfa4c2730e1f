/** Attaching rewards and then reference logps to one payload: when candidates keep their tokens through it,
    what the second attachment does to a payload whose candidates did not, and when everything comes back. */
module RolloutAttachment {
  import opened Options
  import opened RolloutPayload
  import opened RolloutScores
  import opened RolloutRoundTrip

  // ----- the tokens of a list after an attachment ------------------------------------------------

  /** What a candidate yields once a value has made it a mapping; without tokens it takes none. */
  function TokensAsMapping(c: Candidate): Option<seq<int>> {
    if Tokens(c).None? then None else NonEmpty(TokenIds(AsMapping(c)))
  }

  function LogpsAsMapping(c: Candidate): Option<seq<real>> {
    if Tokens(c).None? then Logps(c) else NonEmpty(LogpList(AsMapping(c)))
  }

  /** The candidate has the same tokens once it is a mapping. */
  predicate KeepsTokens(c: Candidate) { Tokens(c).Some? ==> TokenIds(AsMapping(c)) == TokenIds(c) }

  ghost predicate GroupKeepsTokens(cs: seq<Candidate>) { forall c | c in cs :: KeepsTokens(c) }

  ghost predicate ListKeepsTokens(es: seq<Entry>) { forall k | 0 <= k < |es| :: GroupKeepsTokens(Members(es[k])) }

  lemma ReadAfterReward(cs: seq<Candidate>, rewards: seq<real>)
    ensures ReadsAs(cs, PutReward, Tokens, TokensAsMapping, rewards)
    ensures ReadsAs(cs, PutReward, Logps, LogpsAsMapping, rewards)
  {
    forall c, k | c in cs && Tokens(c).Some? && 0 <= k < |rewards|
      ensures Tokens(PutReward(c, rewards[k])) == TokensAsMapping(c)
      ensures Logps(PutReward(c, rewards[k])) == LogpsAsMapping(c)
    {
      RewardedReads(c, rewards[k]);
    }
  }

  lemma RewardedReads(c: Candidate, r: real)
    requires Tokens(c).Some?
    ensures Tokens(PutReward(c, r)) == TokensAsMapping(c) && Logps(PutReward(c, r)) == LogpsAsMapping(c)
  {
  }

  lemma RowedReads(c: Candidate, row: seq<real>)
    requires Tokens(c).Some?
    ensures Tokens(PutLogps(c, row)) == TokensAsMapping(c)
  {
  }

  /** The tokens and logps of a list whose candidates have taken rewards. */
  lemma AfterRewards(es: seq<Entry>, rewards: seq<real>)
    requires UsedIn(es) <= |rewards|
    ensures Groups(AttachedEntries(es, PutReward, rewards), Tokens) == Groups(es, TokensAsMapping)
    ensures Groups(AttachedEntries(es, PutReward, rewards), Logps) == Groups(es, LogpsAsMapping)
    ensures UsedIn(AttachedEntries(es, PutReward, rewards)) == KeptIn(es)
  {
    forall k | 0 <= k < |es|
      ensures ReadsAs(Members(es[k]), PutReward, Tokens, TokensAsMapping, rewards)
      ensures ReadsAs(Members(es[k]), PutReward, Logps, LogpsAsMapping, rewards)
    {
      ReadAfterReward(Members(es[k]), rewards);
    }
    AttachedGroupsRead(es, PutReward, Tokens, TokensAsMapping, rewards);
    AttachedGroupsRead(es, PutReward, Logps, LogpsAsMapping, rewards);
    CountsAgree(AttachedEntries(es, PutReward, rewards));
  }

  lemma AfterRows(es: seq<Entry>, rows: seq<seq<real>>)
    requires UsedIn(es) <= |rows|
    ensures Groups(AttachedEntries(es, PutLogps, rows), Tokens) == Groups(es, TokensAsMapping)
  {
    forall k | 0 <= k < |es| ensures ReadsAs(Members(es[k]), PutLogps, Tokens, TokensAsMapping, rows) {
      forall c, j | c in Members(es[k]) && Tokens(c).Some? && 0 <= j < |rows|
        ensures Tokens(PutLogps(c, rows[j])) == TokensAsMapping(c)
      {
        RowedReads(c, rows[j]);
      }
    }
    AttachedGroupsRead(es, PutLogps, Tokens, TokensAsMapping, rows);
  }

  // ----- exactly when a list keeps its tokens ----------------------------------------------------

  /** How many candidates of a list still have tokens as mappings. */
  function KeptIn(es: seq<Entry>): nat { |Flat(Groups(es, TokensAsMapping))| }

  /** Concatenations of parts that are no longer agree only if the parts do. */
  lemma ConcatParts<T>(a: seq<T>, b: seq<T>, c: seq<T>, d: seq<T>)
    requires |a| <= |c| && |b| <= |d|
    ensures a + b == c + d <==> a == c && b == d
  {
    if a + b == c + d {
      assert |a| == |c|;
      assert a == (a + b)[..|a|] && c == (c + d)[..|a|];
      assert b == (a + b)[|a|..] && d == (c + d)[|a|..];
    }
  }

  /** What the last candidate of a group adds. */
  function LastOf<T>(o: Option<T>): seq<T> { if o.Some? then [o.value] else [] }

  lemma LastKept(c: Candidate)
    ensures |LastOf(TokensAsMapping(c))| <= |LastOf(Tokens(c))|
    ensures LastOf(TokensAsMapping(c)) == LastOf(Tokens(c)) <==> KeepsTokens(c)
  {
    if Tokens(c).Some? && LastOf(TokensAsMapping(c)) == LastOf(Tokens(c)) {
      assert LastOf(TokensAsMapping(c))[0] == LastOf(Tokens(c))[0];
    }
  }

  lemma {:induction false} GroupKeepsIff(cs: seq<Candidate>)
    ensures |Collect(cs, TokensAsMapping)| <= |Collect(cs, Tokens)|
    ensures Collect(cs, TokensAsMapping) == Collect(cs, Tokens) <==> GroupKeepsTokens(cs)
    decreases |cs|
  {
    if |cs| > 0 {
      var front, last := cs[..|cs| - 1], cs[|cs| - 1];
      assert cs == front + [last];
      GroupKeepsIff(front);
      LastKept(last);
      ConcatParts(Collect(front, TokensAsMapping), LastOf(TokensAsMapping(last)), Collect(front, Tokens),
                  LastOf(Tokens(last)));
    }
  }

  lemma {:induction false} FlatKeepsIff(es: seq<Entry>)
    ensures KeptIn(es) <= |Flat(Groups(es, Tokens))|
    ensures Flat(Groups(es, TokensAsMapping)) == Flat(Groups(es, Tokens)) <==> ListKeepsTokens(es)
    decreases |es|
  {
    if |es| > 0 {
      var front, last := es[..|es| - 1], Members(es[|es| - 1]);
      FlatKeepsIff(front);
      GroupKeepsIff(last);
      KeepsSplits(es);
      FlatSplits(es, TokensAsMapping);
      FlatSplits(es, Tokens);
      ConcatParts(Flat(Groups(front, TokensAsMapping)), Collect(last, TokensAsMapping), Flat(Groups(front, Tokens)),
                  Collect(last, Tokens));
    }
  }

  lemma FlatSplits<T>(es: seq<Entry>, get: Candidate -> Option<T>)
    requires |es| > 0
    ensures Flat(Groups(es, get)) == Flat(Groups(es[..|es| - 1], get)) + Collect(Members(es[|es| - 1]), get)
  {
    PushFlat(Groups(es[..|es| - 1], get), Collect(Members(es[|es| - 1]), get));
  }

  lemma KeepsSplits(es: seq<Entry>)
    requires |es| > 0
    ensures ListKeepsTokens(es) <==> ListKeepsTokens(es[..|es| - 1]) && GroupKeepsTokens(Members(es[|es| - 1]))
  {
    assert forall k | 0 <= k < |es| - 1 :: es[..|es| - 1][k] == es[k];
  }

  lemma {:induction false} KeptGroups(es: seq<Entry>)
    requires ListKeepsTokens(es)
    ensures Groups(es, TokensAsMapping) == Groups(es, Tokens)
    decreases |es|
  {
    if |es| > 0 {
      KeptGroups(es[..|es| - 1]);
      GroupKeepsIff(Members(es[|es| - 1]));
    }
  }

  /** A list yields the same token groups after taking rewards if and only if every candidate keeps its own. */
  lemma ListTokensIff(es: seq<Entry>, rewards: seq<real>)
    requires UsedIn(es) <= |rewards|
    ensures Groups(AttachedEntries(es, PutReward, rewards), Tokens) == Groups(es, Tokens) <==> ListKeepsTokens(es)
  {
    AfterRewards(es, rewards);
    FlatKeepsIff(es);
    if ListKeepsTokens(es) {
      KeptGroups(es);
    }
  }

  /** A list none of whose candidates loses its tokens altogether keeps its shape. */
  lemma {:induction false} KeptShape(es: seq<Entry>)
    ensures KeptIn(es) <= UsedIn(es)
    ensures KeptIn(es) == UsedIn(es) ==> SameShape(Groups(es, TokensAsMapping), Groups(es, Tokens))
    decreases |es|
  {
    if |es| > 0 {
      var front, last := es[..|es| - 1], Members(es[|es| - 1]);
      KeptShape(front);
      GroupKeepsIff(last);
      PushFlat(Groups(front, TokensAsMapping), Collect(last, TokensAsMapping));
    }
  }

  // ----- exactly when a payload keeps its tokens -------------------------------------------------

  /** The list a payload's candidates come from. */
  function Own(p: Payload): seq<Entry>
    requires CandidateCount(p) > 0
  {
    ChosenHolds(p);
    Chosen(p)
  }

  /** All candidates of the normalized outputs lose their tokens, and the outputs are read in their place. */
  predicate FallsThrough(p: Payload)
    requires CandidateCount(p) > 0
  {
    FromNormalized(p) && p.outputs.Some? && KeptIn(Own(p)) == 0
  }

  /** The payload once its rewards are attached. */
  lemma Rewarded(p: Payload, rewards: seq<real>)
    requires |rewards| == CandidateCount(p) > 0
    ensures UsedIn(Own(p)) == |rewards|
    ensures Attach(p, PutReward, rewards) == Ok(Replaced(p, AttachedEntries(Own(p), PutReward, rewards)))
    ensures UsedIn(AttachedEntries(Own(p), PutReward, rewards)) == KeptIn(Own(p)) <= |rewards|
    ensures Groups(AttachedEntries(Own(p), PutReward, rewards), Tokens) == Groups(Own(p), TokensAsMapping)
    ensures GroupsIn(p, Tokens) == Groups(Own(p), Tokens) != []
  {
    ChosenHolds(p);
    AttachReplaces(p, PutReward, rewards);
    AfterRewards(Own(p), rewards);
    KeptShape(Own(p));
    CountsAgree(Own(p));
  }

  /** The tokens extracted afterwards. */
  lemma TokensAfter(p: Payload, rewards: seq<real>)
    requires |rewards| == CandidateCount(p) > 0
    ensures Attach(p, PutReward, rewards).Ok?
    ensures GroupsIn(Attach(p, PutReward, rewards).value, Tokens)
         == if FromNormalized(p) && KeptIn(Own(p)) == 0 then
              (if p.outputs.Some? then Groups(p.outputs.value, Tokens) else [])
            else Groups(Own(p), TokensAsMapping)
  {
    Rewarded(p, rewards);
    CountsAgree(AttachedEntries(Own(p), PutReward, rewards));
    if p.normalized.Some? {
      CountsAgree(p.normalized.value);
    }
  }

  /** Attaching rewards leaves the token groups of a payload as they were if and only if every candidate keeps
      its tokens as a mapping, or all lose them and the outputs happen to hold the same groups. */
  lemma TokensSurviveIff(p: Payload, rewards: seq<real>)
    requires |rewards| == CandidateCount(p) > 0
    ensures Attach(p, PutReward, rewards).Ok?
    ensures GroupsIn(Attach(p, PutReward, rewards).value, Tokens) == GroupsIn(p, Tokens) <==>
            || ListKeepsTokens(Own(p))
            || (FallsThrough(p) && Groups(p.outputs.value, Tokens) == GroupsIn(p, Tokens))
  {
    Rewarded(p, rewards);
    TokensAfter(p, rewards);
    ListTokensIff(Own(p), rewards);
    FlatKeepsIff(Own(p));
    CountsAgree(Own(p));
  }

  // ----- candidates that keep their tokens -------------------------------------------------------

  ghost predicate SameShows(d: Candidate, c: Candidate) { forall row :: RowShows(d, row) == RowShows(c, row) }

  lemma PutRewardKeeps(c: Candidate, r: real)
    requires KeepsTokens(c) && Tokens(c).Some?
    ensures var d := PutReward(c, r);
            && Tokens(d) == Tokens(c) && KeepsTokens(d) && d.Item? && d.kind.AMapping?
            && SameShows(d, c)
  {
  }

  lemma PutLogpsKeeps(d: Candidate, row: seq<real>)
    requires d.Item? && d.kind.AMapping?
    ensures Tokens(PutLogps(d, row)) == Tokens(d) && Reward(PutLogps(d, row)) == Reward(d)
  {
  }

  /** A list after its rewards are attached: its candidates with tokens are mappings. */
  ghost predicate Mapped(cs: seq<Candidate>) { forall c | c in cs && Tokens(c).Some? :: c.Item? && c.kind.AMapping? }

  lemma {:induction false} RewardedMapped(cs: seq<Candidate>, rewards: seq<real>, i: nat)
    requires i + Used(cs) <= |rewards| && GroupKeepsTokens(cs)
    ensures Used(Attached(cs, PutReward, rewards, i)) == Used(cs) && Mapped(Attached(cs, PutReward, rewards, i))
    decreases |cs|
  {
    if |cs| > 0 {
      var front, r := cs[..|cs| - 1], Attached(cs, PutReward, rewards, i);
      RewardedMapped(front, rewards, i);
      RewardedLast(cs, rewards, i);
      MappedSnoc(Attached(front, PutReward, rewards, i), r[|r| - 1], r);
    }
  }

  lemma MappedSnoc(front: seq<Candidate>, last: Candidate, all: seq<Candidate>)
    requires all == front + [last] && Mapped(front) && (Tokens(last).Some? ==> last.Item? && last.kind.AMapping?)
    ensures Mapped(all) && Used(all) == Used(front) + if Tokens(last).Some? then 1 else 0
  {
    assert all[..|all| - 1] == front;
  }

  lemma {:induction false} RewardedReturns(cs: seq<Candidate>, rewards: seq<real>, rows: seq<seq<real>>, i: nat)
    requires i + Used(cs) <= |rewards| == |rows| && GroupKeepsTokens(cs)
    requires Used(Attached(cs, PutReward, rewards, i)) == Used(cs)
    ensures AllReturn(Attached(cs, PutReward, rewards, i), Logps, RowShows, rows, i)
        <==> AllReturn(cs, Logps, RowShows, rows, i)
    decreases |cs|
  {
    if |cs| > 0 {
      var front, last, r := cs[..|cs| - 1], cs[|cs| - 1], Attached(cs, PutReward, rewards, i);
      RewardedMapped(front, rewards, i);
      RewardedLast(cs, rewards, i);
      RewardedReturns(front, rewards, rows, i);
      if Tokens(last).Some? {
        assert RowShows(r[|r| - 1], rows[i + Used(front)]) == RowShows(last, rows[i + Used(front)]);
      }
    }
  }

  lemma RewardedLast(cs: seq<Candidate>, rewards: seq<real>, i: nat)
    requires |cs| > 0 && i + Used(cs) <= |rewards| && GroupKeepsTokens(cs)
    ensures var r, front := Attached(cs, PutReward, rewards, i), cs[..|cs| - 1];
            && r == Attached(front, PutReward, rewards, i) + [r[|r| - 1]]
            && r[..|r| - 1] == Attached(front, PutReward, rewards, i)
            && Used(cs) == Used(front) + (if Tokens(cs[|cs| - 1]).Some? then 1 else 0)
            && Tokens(r[|r| - 1]) == Tokens(cs[|cs| - 1])
            && (if Tokens(r[|r| - 1]).Some? then
                  r[|r| - 1].Item? && r[|r| - 1].kind.AMapping? && SameShows(r[|r| - 1], cs[|cs| - 1])
                else r[|r| - 1] == cs[|cs| - 1])
  {
    var front, last := cs[..|cs| - 1], cs[|cs| - 1];
    assert last in cs;
    AttachedLast(cs, PutReward, rewards, i);
    if Tokens(last).Some? {
      PutRewardKeeps(last, rewards[i + Used(front)]);
    }
  }

  lemma {:induction false} RewardedList(es: seq<Entry>, rewards: seq<real>, rows: seq<seq<real>>)
    requires UsedIn(es) <= |rewards| == |rows| && ListKeepsTokens(es)
    ensures var r := AttachedEntries(es, PutReward, rewards);
            && UsedIn(r) == UsedIn(es) && (forall k | 0 <= k < |r| :: Mapped(Members(r[k])))
            && (ListReturns(r, Logps, RowShows, rows) <==> ListReturns(es, Logps, RowShows, rows))
    decreases |es|
  {
    if |es| > 0 {
      var front, last := es[..|es| - 1], es[|es| - 1];
      AttachedSplits(es, PutReward, rewards);
      RewardedList(front, rewards, rows);
      RewardedMapped(Members(last), rewards, UsedIn(front));
      RewardedReturns(Members(last), rewards, rows, UsedIn(front));
      var r := AttachedEntries(es, PutReward, rewards);
      assert forall k | 0 <= k < |front| :: r[k] == r[..|r| - 1][k];
    }
  }

  lemma MappedStay(es: seq<Entry>, rows: seq<seq<real>>)
    requires UsedIn(es) <= |rows| && forall k | 0 <= k < |es| :: Mapped(Members(es[k]))
    ensures Groups(AttachedEntries(es, PutLogps, rows), Tokens) == Groups(es, Tokens)
    ensures Groups(AttachedEntries(es, PutLogps, rows), Reward) == Groups(es, Reward)
  {
    forall k | 0 <= k < |es|
      ensures Untouched(Members(es[k]), PutLogps, Tokens, rows) && Untouched(Members(es[k]), PutLogps, Reward, rows)
    {
      forall c, j | c in Members(es[k]) && Tokens(c).Some? && 0 <= j < |rows|
        ensures Tokens(PutLogps(c, rows[j])) == Tokens(c) && Reward(PutLogps(c, rows[j])) == Reward(c)
      {
        PutLogpsKeeps(c, rows[j]);
      }
    }
    AttachedGroupsKeep(es, PutLogps, Tokens, rows);
    AttachedGroupsKeep(es, PutLogps, Reward, rows);
  }

  /** The payload once the rewards are attached: the same list is chosen, with as many candidates. */
  lemma RewardedPayload(p: Payload, rewards: seq<real>, rows: seq<seq<real>>)
    requires |rewards| == |rows| == CandidateCount(p) > 0 && ListKeepsTokens(Own(p))
    ensures Attach(p, PutReward, rewards).Ok?
    ensures var q := Attach(p, PutReward, rewards).value;
            && UsedIn(Own(p)) == |rewards|
            && CandidateCount(q) == |rows| && GroupsIn(q, Tokens) == GroupsIn(p, Tokens)
            && FromNormalized(q) == FromNormalized(p)
            && Own(q) == AttachedEntries(Own(p), PutReward, rewards)
  {
    Rewarded(p, rewards);
    TokensSurviveIff(p, rewards);
    KeptGroups(Own(p));
    CountsAgree(Own(p));
  }

  lemma LogpsAfterRewards(p: Payload, rewards: seq<real>, rows: seq<seq<real>>)
    requires |rewards| == |rows| == CandidateCount(p) > 0 && ListKeepsTokens(Own(p))
    ensures Attach(p, PutReward, rewards).Ok? && CandidateCount(Attach(p, PutReward, rewards).value) == |rows|
    ensures ComesBack(Attach(p, PutReward, rewards).value, Logps, RowShows, rows) <==>
            ComesBack(p, Logps, RowShows, rows)
  {
    Rewarded(p, rewards);
    RewardedPayload(p, rewards, rows);
    RewardedList(Own(p), rewards, rows);
  }

  /** Then both attachments succeed, and everything comes back if and only if each kind of score would alone. */
  lemma KeptScoresIff(p: Payload, rewards: seq<real>, rows: seq<seq<real>>)
    requires |rewards| == |rows| == CandidateCount(p) > 0 && ListKeepsTokens(Own(p))
    ensures AttachScores(p, rewards, rows).Ok?
    ensures Landed(p, AttachScores(p, rewards, rows).value, rewards, rows) <==>
            ComesBack(p, Reward, RewardShows, rewards) && ComesBack(p, Logps, RowShows, rows)
  {
    RewardedPayload(p, rewards, rows);
    var mid := Attach(p, PutReward, rewards).value;
    RewardsReturnIff(p, rewards);
    LogpsReturnIff(mid, rows);
    LogpsAfterRewards(p, rewards, rows);
    AttachReplaces(mid, PutLogps, rows);
    RewardedList(Own(p), rewards, rows);
    MappedStay(Own(mid), rows);
    SecondKeeps(mid, AttachedEntries(Own(mid), PutLogps, rows));
  }

  /** Replacing the chosen list by one that yields the same leaves what is extracted. */
  lemma SecondKeeps(mid: Payload, es: seq<Entry>)
    requires CandidateCount(mid) > 0 && (FromNormalized(mid) || mid.outputs.Some?)
    requires Groups(es, Tokens) == Groups(Chosen(mid), Tokens) && Groups(es, Reward) == Groups(Chosen(mid), Reward)
    ensures GroupsIn(Replaced(mid, es), Tokens) == GroupsIn(mid, Tokens)
    ensures GroupsIn(Replaced(mid, es), Reward) == GroupsIn(mid, Reward)
  {
  }

  // ----- candidates that lose them ---------------------------------------------------------------

  /** After the rewards a candidate with tokens is a mapping, whatever it was before. */
  lemma MappedAfter(es: seq<Entry>, rewards: seq<real>)
    requires UsedIn(es) <= |rewards|
    ensures forall k | 0 <= k < |es| :: Mapped(Members(AttachedEntries(es, PutReward, rewards)[k]))
  {
    forall k | 0 <= k < |es| ensures Mapped(Members(AttachedEntries(es, PutReward, rewards)[k])) {
      AttachedMember(es, PutReward, rewards, k);
      var i: nat :| i + Used(Members(es[k])) <= |rewards|
                    && Members(AttachedEntries(es, PutReward, rewards)[k])
                       == Attached(Members(es[k]), PutReward, rewards, i);
      GroupMapped(Members(es[k]), rewards, i);
    }
  }

  lemma GroupMapped(cs: seq<Candidate>, rewards: seq<real>, i: nat)
    requires i + Used(cs) <= |rewards|
    ensures Mapped(Attached(cs, PutReward, rewards, i))
  {
    forall c | c in Attached(cs, PutReward, rewards, i) && Tokens(c).Some? ensures c.Item? && c.kind.AMapping? {
      AttachedFrom(cs, PutReward, rewards, i, c);
    }
  }

  /** When every candidate still has tokens, but not all the same, both attachments succeed and the tokens
      extracted are not those that were scored. */
  lemma ChangedTokens(p: Payload, rewards: seq<real>, rows: seq<seq<real>>)
    requires |rewards| == |rows| == CandidateCount(p) > 0
    requires KeptIn(Own(p)) == CandidateCount(p) && !ListKeepsTokens(Own(p))
    ensures AttachScores(p, rewards, rows).Ok?
    ensures GroupsIn(AttachScores(p, rewards, rows).value, Tokens) == Groups(Own(p), TokensAsMapping)
    ensures Groups(Own(p), TokensAsMapping) != GroupsIn(p, Tokens)
  {
    Rewarded(p, rewards);
    TokensAfter(p, rewards);
    FlatKeepsIff(Own(p));
    var mid, es := Attach(p, PutReward, rewards).value, AttachedEntries(Own(p), PutReward, rewards);
    assert CandidateCount(mid) == |rows|;
    assert Own(mid) == es;
    AttachReplaces(mid, PutLogps, rows);
    MappedAfter(Own(p), rewards);
    MappedStay(es, rows);
    SecondTokens(mid, AttachedEntries(es, PutLogps, rows));
  }

  lemma SecondTokens(mid: Payload, es: seq<Entry>)
    requires CandidateCount(mid) > 0 && Groups(es, Tokens) == Groups(Own(mid), Tokens)
    ensures GroupsIn(Replaced(mid, es), Tokens) == GroupsIn(mid, Tokens)
  {
    ChosenHolds(mid);
  }

  /** Attaching to a payload whose normalized outputs, if any, take nothing. */
  lemma AttachSkips<T>(p: Payload, put: (Candidate, T) -> Candidate, values: seq<T>)
    requires values != [] && (p.normalized.Some? ==> UsedIn(p.normalized.value) == 0)
    ensures p.outputs.None? || UsedIn(p.outputs.value) == 0 ==> Attach(p, put, values) == Ok(p)
    ensures p.outputs.Some? && UsedIn(p.outputs.value) > |values| ==> Attach(p, put, values) == TooFewValues
    ensures p.outputs.Some? && 0 < UsedIn(p.outputs.value) < |values| ==> Attach(p, put, values) == CountMismatch
    ensures p.outputs.Some? && UsedIn(p.outputs.value) == |values| ==>
              Attach(p, put, values) == Ok(p.(outputs := Some(AttachedEntries(p.outputs.value, put, values))))
  {
  }

  /** Some but not all candidates have lost their tokens: the logps find fewer candidates than rows. */
  lemma SomeLost(p: Payload, rewards: seq<real>, rows: seq<seq<real>>)
    requires |rewards| == |rows| == CandidateCount(p) > 0 && 0 < KeptIn(Own(p)) < CandidateCount(p)
    ensures AttachScores(p, rewards, rows) == CountMismatch
  {
    Rewarded(p, rewards);
    var mid := Attach(p, PutReward, rewards).value;
    if !FromNormalized(p) {
      AttachSkips(mid, PutLogps, rows);
    }
  }

  /** All have lost them and nothing is read in their place: the logps are dropped without an error. */
  lemma AllLost(p: Payload, rewards: seq<real>, rows: seq<seq<real>>)
    requires |rewards| == |rows| == CandidateCount(p) > 0
    requires KeptIn(Own(p)) == 0 && (FallsThrough(p) ==> UsedIn(p.outputs.value) == 0)
    ensures AttachScores(p, rewards, rows) == Attach(p, PutReward, rewards)
    ensures AttachScores(p, rewards, rows).Ok? && GroupsIn(AttachScores(p, rewards, rows).value, Tokens) == []
  {
    Rewarded(p, rewards);
    TokensAfter(p, rewards);
    CountsAgree(AttachedEntries(Own(p), PutReward, rewards));
    AttachSkips(Attach(p, PutReward, rewards).value, PutLogps, rows);
    if FallsThrough(p) {
      CountsAgree(p.outputs.value);
    }
  }

  /** The payload when the logps go to the outputs instead. */
  function Rerouted(p: Payload, rewards: seq<real>, rows: seq<seq<real>>): Payload
    requires |rewards| == |rows| == CandidateCount(p) > 0 && FallsThrough(p) && UsedIn(p.outputs.value) == |rows|
  {
    Rewarded(p, rewards);
    Payload(Some(AttachedEntries(Own(p), PutReward, rewards)), Some(AttachedEntries(p.outputs.value, PutLogps, rows)))
  }

  /** All have lost them and the outputs are read in their place: the logps go to candidates that were not the
      ones scored, or raise when those are more or fewer. */
  lemma FellThrough(p: Payload, rewards: seq<real>, rows: seq<seq<real>>)
    requires |rewards| == |rows| == CandidateCount(p) > 0 && FallsThrough(p) && UsedIn(p.outputs.value) > 0
    ensures AttachScores(p, rewards, rows)
         == if UsedIn(p.outputs.value) > |rows| then TooFewValues
            else if UsedIn(p.outputs.value) < |rows| then CountMismatch
            else Ok(Rerouted(p, rewards, rows))
  {
    Rewarded(p, rewards);
    AttachSkips(Attach(p, PutReward, rewards).value, PutLogps, rows);
  }

  /** What comes back then: the tokens if the outputs' candidates, as mappings, have the same ones; the rewards
      from the normalized outputs; the logps from a tokenless candidate there, or else from the outputs. */
  predicate ReroutedBack(p: Payload, rewards: seq<real>, rows: seq<seq<real>>)
    requires |rewards| == |rows| == CandidateCount(p) > 0 && FallsThrough(p) && UsedIn(p.outputs.value) == |rows|
    requires UsedIn(Own(p)) == |rewards|
  {
    && Groups(p.outputs.value, TokensAsMapping) == GroupsIn(p, Tokens)
    && ListReturns(Own(p), Reward, RewardShows, rewards)
    && if Groups(Own(p), LogpsAsMapping) != [] then
         Holds(Groups(Own(p), LogpsAsMapping), GroupsIn(p, Tokens), rows)
       else ListReturns(p.outputs.value, Logps, RowShows, rows)
  }

  lemma ReroutedGroups(p: Payload, rewards: seq<real>, rows: seq<seq<real>>)
    requires |rewards| == |rows| == CandidateCount(p) > 0 && FallsThrough(p) && UsedIn(p.outputs.value) == |rows|
    ensures UsedIn(Own(p)) == |rewards|
    ensures var q, es, outs := Rerouted(p, rewards, rows), Own(p), p.outputs.value;
            && GroupsIn(q, Tokens) == Groups(outs, TokensAsMapping)
            && GroupsIn(q, Reward) == Groups(AttachedEntries(es, PutReward, rewards), Reward)
            && GroupsIn(q, Logps) == if Groups(es, LogpsAsMapping) != [] then Groups(es, LogpsAsMapping)
                                     else Groups(AttachedEntries(outs, PutLogps, rows), Logps)
  {
    Rewarded(p, rewards);
    CountsAgree(AttachedEntries(Own(p), PutReward, rewards));
    AfterRewards(Own(p), rewards);
    AfterRows(p.outputs.value, rows);
    RewardsPresent(Own(p), rewards);
  }

  lemma RewardsPresent(es: seq<Entry>, rewards: seq<real>)
    requires 0 < UsedIn(es) <= |rewards|
    ensures Groups(AttachedEntries(es, PutReward, rewards), Reward) != []
  {
    RewardsCharacterized(rewards);
    ListYieldsEnough(es, PutReward, Reward, RewardShows, rewards);
  }

  lemma SameShapes<S, T, U>(a: seq<seq<S>>, b: seq<seq<T>>, c: seq<seq<U>>)
    requires SameShape(b, c)
    ensures SameShape(a, b) <==> SameShape(a, c)
  {
  }

  lemma ReroutedIff(p: Payload, rewards: seq<real>, rows: seq<seq<real>>)
    requires |rewards| == |rows| == CandidateCount(p) > 0 && FallsThrough(p) && UsedIn(p.outputs.value) == |rows|
    ensures UsedIn(Own(p)) == |rewards|
    ensures Landed(p, Rerouted(p, rewards, rows), rewards, rows) <==> ReroutedBack(p, rewards, rows)
  {
    ReroutedGroups(p, rewards, rows);
    var es, outs := Own(p), p.outputs.value;
    Rewarded(p, rewards);
    RewardsCharacterized(rewards);
    ListHoldsIff(es, PutReward, Reward, RewardShows, rewards);
    ListLogpsIff(outs, rows);
    if Groups(outs, TokensAsMapping) == GroupsIn(p, Tokens) {
      KeptShape(outs);
      SameShapes(Groups(AttachedEntries(outs, PutLogps, rows), Logps), Groups(outs, TokensAsMapping),
                 Groups(outs, Tokens));
    }
  }

  // ----- both attachments, for every payload -----------------------------------------------------

  /** Every candidate keeps its tokens and each kind of score would come back alone; or all lose them, and the
      outputs stand in for them in every respect. */
  ghost predicate AllComeBack(p: Payload, rewards: seq<real>, rows: seq<seq<real>>)
    requires |rewards| == |rows| == CandidateCount(p) > 0 && UsedIn(Own(p)) == |rewards|
  {
    if ListKeepsTokens(Own(p)) then
      ComesBack(p, Reward, RewardShows, rewards) && ComesBack(p, Logps, RowShows, rows)
    else
      FallsThrough(p) && UsedIn(p.outputs.value) == |rows| && ReroutedBack(p, rewards, rows)
  }

  /** attach_stateless_scores_to_payload, rewards first and logps second: it returns, and tokens, rewards and
      logps are all extracted again as they were scored, if and only if `AllComeBack`. */
  lemma ScoresReturnIff(p: Payload, rewards: seq<real>, rows: seq<seq<real>>)
    requires |rewards| == |rows| == CandidateCount(p) > 0
    ensures UsedIn(Own(p)) == |rewards|
    ensures AttachScores(p, rewards, rows).Ok? && Landed(p, AttachScores(p, rewards, rows).value, rewards, rows)
            <==> AllComeBack(p, rewards, rows)
  {
    Rewarded(p, rewards);
    if ListKeepsTokens(Own(p)) {
      KeptScoresIff(p, rewards, rows);
    } else if KeptIn(Own(p)) == CandidateCount(p) {
      ChangedTokens(p, rewards, rows);
    } else if KeptIn(Own(p)) > 0 {
      SomeLost(p, rewards, rows);
    } else if FallsThrough(p) && UsedIn(p.outputs.value) > 0 {
      FellThrough(p, rewards, rows);
      if UsedIn(p.outputs.value) == |rows| {
        ReroutedIff(p, rewards, rows);
      }
    } else {
      AllLost(p, rewards, rows);
    }
  }

  // ----- inputs that fail ------------------------------------------------------------------------

  function Object(tokens: seq<int>): Candidate { Item(Slotted, [], Some(tokens), map[], map[], map[]) }

  lemma WrappedObject(tokens: seq<int>, reward: real)
    requires tokens != []
    ensures Tokens(Object(tokens)) == Some(tokens) && Tokens(PutReward(Object(tokens), reward)).None?
  {
    var d := PutReward(Object(tokens), reward);
    assert TokenIds(d) == [];
  }

  lemma AttachedToOne<T>(c: Candidate, put: (Candidate, T) -> Candidate, v: T)
    requires Tokens(c).Some?
    ensures UsedIn([Single(c)]) == 1 && AttachedEntries([Single(c)], put, [v]) == [Single(put(c, v))]
  {
    var es, cs := [Single(c)], [c];
    assert es[..0] == [] && cs[..0] == [];
    assert Collect(cs[..0], Tokens) == [] && UsedIn(es[..0]) == 0;
    assert Used(cs) == 1;
    assert Attached(cs, put, [v], 0) == [put(c, v)];
  }

  /** Values for a payload of one list without candidates go nowhere. */
  lemma NothingToAttach<T>(es: seq<Entry>, put: (Candidate, T) -> Candidate, values: seq<T>)
    requires UsedIn(es) == 0 && values != []
    ensures Attach(Payload(None, Some(es)), put, values) == Ok(Payload(None, Some(es)))
  {
  }

  lemma AllToOne<T>(c: Candidate, put: (Candidate, T) -> Candidate, v: T)
    requires Tokens(c).Some?
    ensures Attach(Payload(None, Some([Single(c)])), put, [v]) == Ok(Payload(None, Some([Single(put(c, v))])))
  {
    AttachedToOne(c, put, v);
  }

  /** An object without a dictionary is wrapped whole when its reward is attached, and its tokens are gone: the
      logps then find no candidate, and no error is raised. */
  lemma WrappedObjectLosesTokens(tokens: seq<int>, reward: real, row: seq<real>)
    requires tokens != []
    ensures var p, d := Payload(None, Some([Single(Object(tokens))])), PutReward(Object(tokens), reward);
            && GroupsIn(p, Tokens) == [[tokens]]
            && AttachScores(p, [reward], [row]) == Ok(Payload(None, Some([Single(d)])))
            && GroupsIn(Payload(None, Some([Single(d)])), Tokens) == []
  {
    var c, d := Object(tokens), PutReward(Object(tokens), reward);
    WrappedObject(tokens, reward);
    OneCandidate(c, Tokens);
    OneCandidate(d, Tokens);
    AllToOne(c, PutReward, reward);
    CountsAgree([Single(d)]);
    NothingToAttach([Single(d)], PutLogps, [row]);
  }

  /** The same object in the normalized outputs before a mapping with the same tokens in the outputs: its tokens
      are lost and the same ones are read elsewhere. */
  lemma SameTokensElsewhere(tokens: seq<int>, reward: real)
    requires tokens != []
    ensures var p := Payload(Some([Single(Object(tokens))]), Some([Single(Unscored(tokens))]));
            && CandidateCount(p) == 1 && FallsThrough(p) && !ListKeepsTokens(Own(p))
            && Attach(p, PutReward, [reward]).Ok?
            && GroupsIn(Attach(p, PutReward, [reward]).value, Tokens) == GroupsIn(p, Tokens) == [[tokens]]
  {
    var c, u := Object(tokens), Unscored(tokens);
    var p := Payload(Some([Single(c)]), Some([Single(u)]));
    WrappedObject(tokens, reward);
    SimpleCandidates(tokens, reward);
    RewardedReads(c, reward);
    OneCandidate(c, Tokens);
    OneCandidate(c, TokensAsMapping);
    OneCandidate(u, Tokens);
    FlatOne(tokens);
    CountsAgree([Single(c)]);
    FlatKeepsIff([Single(c)]);
    TokensSurviveIff(p, [reward]);
  }
}
