/** Exactly when the scores attached to a payload are the ones extracted from it again. */
module RolloutRoundTrip {
  import opened Options
  import opened RolloutPayload
  import opened RolloutScores

  // ----- one candidate ---------------------------------------------------------------------------

  /** No nested output holds a reward, or the one found there happens to be the attached one. */
  predicate RewardShows(c: Candidate, r: real) {
    c.Item? && (RewardOfAny(AsMapping(c).nested).None? || RewardOfAny(AsMapping(c).nested) == Some(r))
  }

  /** The same for a row of logps; an empty row is never found again. */
  predicate RowShows(c: Candidate, row: seq<real>) {
    c.Item? && row != [] && (LogpsOfAny(AsMapping(c).nested) == [] || LogpsOfAny(AsMapping(c).nested) == row)
  }

  /** `shows` says when a candidate returns the value put into it, and it always returns some value. */
  ghost predicate Characterizes<T(!new)>(put: (Candidate, T) -> Candidate, get: Candidate -> Option<T>,
      shows: (Candidate, T) -> bool, values: seq<T>) {
    forall c, k {:trigger Characterized(put, get, shows, c, values[k])} | 0 <= k < |values| ::
      Characterized(put, get, shows, c, values[k])
  }

  ghost predicate Characterized<T>(put: (Candidate, T) -> Candidate, get: Candidate -> Option<T>,
      shows: (Candidate, T) -> bool, c: Candidate, v: T) {
    Tokens(c).Some? ==> (shows(c, v) <==> get(put(c, v)) == Some(v)) && get(put(c, v)).Some?
  }

  lemma RewardsCharacterized(rewards: seq<real>)
    ensures Characterizes(PutReward, Reward, RewardShows, rewards)
  {
  }

  lemma RowsCharacterized(rows: seq<seq<real>>)
    requires [] !in rows
    ensures Characterizes(PutLogps, Logps, RowShows, rows)
  {
  }

  // ----- one group -------------------------------------------------------------------------------

  predicate AllReturn<T>(cs: seq<Candidate>, get: Candidate -> Option<T>, shows: (Candidate, T) -> bool,
                         values: seq<T>, i: nat)
    requires i + Used(cs) <= |values|
  {
    if |cs| == 0 then true
    else
      var front, last := cs[..|cs| - 1], cs[|cs| - 1];
      && AllReturn(front, get, shows, values, i)
      && (if Tokens(last).None? then get(last).None? else shows(last, values[i + Used(front)]))
  }

  lemma {:induction false} AtLeastOneEach<T(!new)>(cs: seq<Candidate>, put: (Candidate, T) -> Candidate,
      get: Candidate -> Option<T>, shows: (Candidate, T) -> bool, values: seq<T>, i: nat)
    requires i + Used(cs) <= |values| && Characterizes(put, get, shows, values)
    ensures |Collect(Attached(cs, put, values, i), get)| >= Used(cs)
    decreases |cs|
  {
    if |cs| > 0 {
      var front, last := cs[..|cs| - 1], cs[|cs| - 1];
      AtLeastOneEach(front, put, get, shows, values, i);
      AttachedLast(cs, put, values, i);
      if Tokens(last).Some? {
        assert Characterized(put, get, shows, last, values[i + Used(front)]);
      }
    }
  }

  lemma LastCollected<T>(cs: seq<Candidate>, put: (Candidate, T) -> Candidate, get: Candidate -> Option<T>,
      values: seq<T>, i: nat)
    requires |cs| > 0 && i + Used(cs) <= |values|
    ensures var front, last := cs[..|cs| - 1], cs[|cs| - 1];
            var updated := if Tokens(last).Some? then put(last, values[i + Used(front)]) else last;
            Collect(Attached(cs, put, values, i), get)
            == Collect(Attached(front, put, values, i), get) + if get(updated).Some? then [get(updated).value] else []
  {
    AttachedLast(cs, put, values, i);
  }

  /** One more candidate: the prefix matches, and the last one returns its own. */
  lemma LastReturnsIff<T(!new)>(cs: seq<Candidate>, put: (Candidate, T) -> Candidate, get: Candidate -> Option<T>,
      shows: (Candidate, T) -> bool, values: seq<T>, i: nat)
    requires |cs| > 0 && i + Used(cs) <= |values| && Characterizes(put, get, shows, values)
    ensures var front, last := cs[..|cs| - 1], cs[|cs| - 1];
            IsSlice(Collect(Attached(cs, put, values, i), get), values, i, Used(cs)) <==>
            && IsSlice(Collect(Attached(front, put, values, i), get), values, i, Used(front))
            && (if Tokens(last).None? then get(last).None? else shows(last, values[i + Used(front)]))
  {
    var front, last := cs[..|cs| - 1], cs[|cs| - 1];
    var k := i + Used(front);
    AtLeastOneEach(front, put, get, shows, values, i);
    LastCollected(cs, put, get, values, i);
    if Tokens(last).Some? {
      assert Characterized(put, get, shows, last, values[k]);
      AppendSlice(Collect(Attached(front, put, values, i), get), get(put(last, values[k])).value, values, i, k);
    }
  }

  /** The values extracted from a list of candidates are the attached ones, in order, if and only if every
      candidate returns its own. */
  lemma {:induction false} GroupReturnsIff<T(!new)>(cs: seq<Candidate>, put: (Candidate, T) -> Candidate,
      get: Candidate -> Option<T>, shows: (Candidate, T) -> bool, values: seq<T>, i: nat)
    requires i + Used(cs) <= |values| && Characterizes(put, get, shows, values)
    ensures IsSlice(Collect(Attached(cs, put, values, i), get), values, i, Used(cs)) <==>
            AllReturn(cs, get, shows, values, i)
    decreases |cs|
  {
    if |cs| > 0 {
      GroupReturnsIff(cs[..|cs| - 1], put, get, shows, values, i);
      LastReturnsIff(cs, put, get, shows, values, i);
    }
  }

  // ----- one list --------------------------------------------------------------------------------

  predicate ListReturns<T>(es: seq<Entry>, get: Candidate -> Option<T>, shows: (Candidate, T) -> bool,
                           values: seq<T>)
    requires UsedIn(es) <= |values|
  {
    if |es| == 0 then true
    else
      var front, last := es[..|es| - 1], es[|es| - 1];
      ListReturns(front, get, shows, values) && AllReturn(Members(last), get, shows, values, UsedIn(front))
  }

  /** What a list must yield: one group for each group of candidates, as long as it, holding the values. */
  predicate Holds<T(==)>(groups: seq<seq<T>>, candidates: seq<seq<seq<int>>>, values: seq<T>) {
    SameShape(groups, candidates) && Flat(groups) == values
  }

  lemma {:induction false} ListYieldsEnough<T(!new)>(es: seq<Entry>, put: (Candidate, T) -> Candidate,
      get: Candidate -> Option<T>, shows: (Candidate, T) -> bool, values: seq<T>)
    requires UsedIn(es) <= |values| && Characterizes(put, get, shows, values)
    ensures |Flat(Groups(AttachedEntries(es, put, values), get))| >= UsedIn(es)
    decreases |es|
  {
    if |es| > 0 {
      var front, last := es[..|es| - 1], Members(es[|es| - 1]);
      FlatOfLast(es, put, get, values);
      ListYieldsEnough(front, put, get, shows, values);
      AtLeastOneEach(last, put, get, shows, values, UsedIn(front));
    }
  }

  /** What the last entry adds to the values a list yields. */
  lemma FlatOfLast<T>(es: seq<Entry>, put: (Candidate, T) -> Candidate, get: Candidate -> Option<T>, values: seq<T>)
    requires |es| > 0 && UsedIn(es) <= |values|
    ensures var front, last := es[..|es| - 1], Members(es[|es| - 1]);
            && UsedIn(es) == UsedIn(front) + Used(last)
            && Flat(Groups(AttachedEntries(es, put, values), get))
               == Flat(Groups(AttachedEntries(front, put, values), get))
                  + Collect(Attached(last, put, values, UsedIn(front)), get)
  {
    AttachedSplits(es, put, values);
    var r := AttachedEntries(es, put, values);
    PushFlat(Groups(r[..|r| - 1], get), Collect(Members(r[|r| - 1]), get));
  }

  lemma {:induction false} ListFlatIff<T(!new)>(es: seq<Entry>, put: (Candidate, T) -> Candidate,
      get: Candidate -> Option<T>, shows: (Candidate, T) -> bool, values: seq<T>)
    requires UsedIn(es) <= |values| && Characterizes(put, get, shows, values)
    ensures IsSlice(Flat(Groups(AttachedEntries(es, put, values), get)), values, 0, UsedIn(es)) <==>
            ListReturns(es, get, shows, values)
    decreases |es|
  {
    if |es| > 0 {
      var front, last := es[..|es| - 1], Members(es[|es| - 1]);
      FlatOfLast(es, put, get, values);
      ListFlatIff(front, put, get, shows, values);
      LastEntryParts(es, put, get, shows, values);
      GroupReturnsIff(last, put, get, shows, values, UsedIn(front));
    }
  }

  /** One more entry: the prefix matches, and the last entry yields the values that follow it. */
  lemma LastEntryParts<T(!new)>(es: seq<Entry>, put: (Candidate, T) -> Candidate, get: Candidate -> Option<T>,
      shows: (Candidate, T) -> bool, values: seq<T>)
    requires |es| > 0 && UsedIn(es) <= |values| && Characterizes(put, get, shows, values)
    ensures var front, last := es[..|es| - 1], Members(es[|es| - 1]);
            && UsedIn(es) == UsedIn(front) + Used(last)
            && (IsSlice(Flat(Groups(AttachedEntries(es, put, values), get)), values, 0, UsedIn(es)) <==>
                  && IsSlice(Flat(Groups(AttachedEntries(front, put, values), get)), values, 0, UsedIn(front))
                  && IsSlice(Collect(Attached(last, put, values, UsedIn(front)), get), values, UsedIn(front),
                             Used(last)))
  {
    var front, last := es[..|es| - 1], Members(es[|es| - 1]);
    FlatOfLast(es, put, get, values);
    ListYieldsEnough(front, put, get, shows, values);
    AtLeastOneEach(last, put, get, shows, values, UsedIn(front));
    PrefixParts(Flat(Groups(AttachedEntries(front, put, values), get)),
                Collect(Attached(last, put, values, UsedIn(front)), get), values, UsedIn(front), Used(last));
  }

  /** When every candidate returns its own, the groups have the candidates' shape. */
  lemma {:induction false} ListShape<T(!new)>(es: seq<Entry>, put: (Candidate, T) -> Candidate,
      get: Candidate -> Option<T>, shows: (Candidate, T) -> bool, values: seq<T>)
    requires UsedIn(es) <= |values| && Characterizes(put, get, shows, values) && ListReturns(es, get, shows, values)
    ensures SameShape(Groups(AttachedEntries(es, put, values), get), Groups(es, Tokens))
    decreases |es|
  {
    if |es| > 0 {
      var front, last := es[..|es| - 1], es[|es| - 1];
      AttachedSplits(es, put, values);
      ListShape(front, put, get, shows, values);
      GroupReturnsIff(Members(last), put, get, shows, values, UsedIn(front));
    }
  }

  lemma ListHoldsIff<T(!new)>(es: seq<Entry>, put: (Candidate, T) -> Candidate, get: Candidate -> Option<T>,
      shows: (Candidate, T) -> bool, values: seq<T>)
    requires UsedIn(es) == |values| && Characterizes(put, get, shows, values)
    ensures Holds(Groups(AttachedEntries(es, put, values), get), Groups(es, Tokens), values) <==>
            ListReturns(es, get, shows, values)
  {
    ListFlatIff(es, put, get, shows, values);
    if ListReturns(es, get, shows, values) {
      ListShape(es, put, get, shows, values);
    }
  }

  // ----- the payload -----------------------------------------------------------------------------

  /** The list before the candidates' own still yields something, which the extractors prefer. */
  predicate Hidden<T>(p: Payload, get: Candidate -> Option<T>) {
    !FromNormalized(p) && p.normalized.Some? && |Groups(p.normalized.value, get)| > 0
  }

  /** The list of the candidates returns every value; or an earlier list hides it, whose own values happen to
      be the same ones in the same shape. */
  predicate ComesBack<T(==)>(p: Payload, get: Candidate -> Option<T>, shows: (Candidate, T) -> bool, values: seq<T>)
    requires |values| == CandidateCount(p) > 0
  {
    ChosenHolds(p);
    if Hidden(p, get) then Holds(Groups(p.normalized.value, get), GroupsIn(p, Tokens), values)
    else ListReturns(Chosen(p), get, shows, values)
  }

  /** Attached values, extracted again: the candidates' shape, and every value in candidate order. */
  predicate Returned<T(==)>(p: Payload, put: (Candidate, T) -> Candidate, get: Candidate -> Option<T>,
      values: seq<T>) {
    var q := Attach(p, put, values);
    q.Ok? && Holds(GroupsIn(q.value, get), GroupsIn(p, Tokens), values)
  }

  /** After attaching, the extractors read the updated list or the one that hides it. */
  lemma ReadFrom<T>(p: Payload, es: seq<Entry>, get: Candidate -> Option<T>)
    requires CandidateCount(p) > 0 && Groups(es, get) != []
    ensures GroupsIn(Replaced(p, es), get)
         == if Hidden(p, get) then Groups(p.normalized.value, get) else Groups(es, get)
  {
  }

  lemma AttachReturnsIff<T(!new)>(p: Payload, put: (Candidate, T) -> Candidate, get: Candidate -> Option<T>,
      shows: (Candidate, T) -> bool, values: seq<T>)
    requires |values| == CandidateCount(p) > 0 && Characterizes(put, get, shows, values)
    ensures Returned(p, put, get, values) <==> ComesBack(p, get, shows, values)
  {
    ChosenHolds(p);
    AttachReplaces(p, put, values);
    var list := Chosen(p);
    ListHoldsIff(list, put, get, shows, values);
    ListYieldsEnough(list, put, get, shows, values);
    ReadFrom(p, AttachedEntries(list, put, values), get);
  }

  /** Attached rewards: the groups extracted afterwards have the candidates' shape and hold the rewards in
      candidate order, if and only if no reward in a nested output, in a candidate without tokens, or in a
      list before the candidates' own is found in their place. */
  lemma RewardsReturnIff(p: Payload, rewards: seq<real>)
    requires |rewards| == CandidateCount(p) > 0
    ensures Returned(p, PutReward, Reward, rewards) <==> ComesBack(p, Reward, RewardShows, rewards)
  {
    RewardsCharacterized(rewards);
    AttachReturnsIff(p, PutReward, Reward, RewardShows, rewards);
  }

  lemma {:induction false} RowsCollected(cs: seq<Candidate>)
    ensures [] !in Collect(cs, Logps)
    decreases |cs|
  {
    if |cs| > 0 {
      RowsCollected(cs[..|cs| - 1]);
    }
  }

  /** No extracted row is empty. */
  lemma {:induction false} RowsGrouped(es: seq<Entry>)
    ensures [] !in Flat(Groups(es, Logps))
    decreases |es|
  {
    if |es| > 0 {
      RowsGrouped(es[..|es| - 1]);
      RowsCollected(Members(es[|es| - 1]));
      PushFlat(Groups(es[..|es| - 1], Logps), Collect(Members(es[|es| - 1]), Logps));
    }
  }

  /** A candidate of a list that returns every value: silent without tokens, else showing some value. */
  predicate Fine<T>(c: Candidate, get: Candidate -> Option<T>, shows: (Candidate, T) -> bool, values: seq<T>) {
    if Tokens(c).None? then get(c).None? else exists k | 0 <= k < |values| :: shows(c, values[k])
  }

  lemma {:induction false} MembersAreFine<T>(cs: seq<Candidate>, get: Candidate -> Option<T>,
      shows: (Candidate, T) -> bool, values: seq<T>, i: nat, c: Candidate)
    requires i + Used(cs) <= |values| && AllReturn(cs, get, shows, values, i) && c in cs
    ensures Fine(c, get, shows, values)
    decreases |cs|
  {
    var front, last := cs[..|cs| - 1], cs[|cs| - 1];
    if c in front {
      MembersAreFine(front, get, shows, values, i, c);
    } else if Tokens(c).Some? {
      assert shows(c, values[i + Used(front)]);
    }
  }

  lemma {:induction false} EntriesAreFine<T>(es: seq<Entry>, get: Candidate -> Option<T>,
      shows: (Candidate, T) -> bool, values: seq<T>, e: nat, c: Candidate)
    requires UsedIn(es) <= |values| && ListReturns(es, get, shows, values) && e < |es| && c in Members(es[e])
    ensures Fine(c, get, shows, values)
    decreases |es|
  {
    var front, last := es[..|es| - 1], es[|es| - 1];
    if e < |es| - 1 {
      EntriesAreFine(front, get, shows, values, e, c);
    } else {
      MembersAreFine(Members(last), get, shows, values, UsedIn(front), c);
    }
  }

  lemma {:induction false} MembersUseNonEmpty(cs: seq<Candidate>, rows: seq<seq<real>>, i: nat)
    requires i + Used(cs) <= |rows| && AllReturn(cs, Logps, RowShows, rows, i)
    ensures forall k | i <= k < i + Used(cs) :: rows[k] != []
    decreases |cs|
  {
    if |cs| > 0 {
      MembersUseNonEmpty(cs[..|cs| - 1], rows, i);
    }
  }

  lemma {:induction false} ListUsesNonEmpty(es: seq<Entry>, rows: seq<seq<real>>)
    requires UsedIn(es) <= |rows| && ListReturns(es, Logps, RowShows, rows)
    ensures forall k | 0 <= k < UsedIn(es) :: rows[k] != []
    decreases |es|
  {
    if |es| > 0 {
      ListUsesNonEmpty(es[..|es| - 1], rows);
      MembersUseNonEmpty(Members(es[|es| - 1]), rows, UsedIn(es[..|es| - 1]));
    }
  }

  lemma GroupsInRows(p: Payload)
    ensures [] !in Flat(GroupsIn(p, Logps))
  {
    if p.normalized.Some? {
      RowsGrouped(p.normalized.value);
    }
    if p.outputs.Some? {
      RowsGrouped(p.outputs.value);
    }
  }

  /** One list: attached logps come back if and only if every candidate returns its own; an empty row never does. */
  lemma ListLogpsIff(es: seq<Entry>, rows: seq<seq<real>>)
    requires UsedIn(es) == |rows|
    ensures Holds(Groups(AttachedEntries(es, PutLogps, rows), Logps), Groups(es, Tokens), rows) <==>
            ListReturns(es, Logps, RowShows, rows)
  {
    if [] in rows {
      RowsGrouped(AttachedEntries(es, PutLogps, rows));
      if ListReturns(es, Logps, RowShows, rows) {
        ListUsesNonEmpty(es, rows);
      }
    } else {
      RowsCharacterized(rows);
      ListHoldsIff(es, PutLogps, Logps, RowShows, rows);
    }
  }

  /** Attached reference logps come back under the same condition, and an empty row never does. */
  lemma LogpsReturnIff(p: Payload, rows: seq<seq<real>>)
    requires |rows| == CandidateCount(p) > 0
    ensures Returned(p, PutLogps, Logps, rows) <==> ComesBack(p, Logps, RowShows, rows)
  {
    ChosenHolds(p);
    AttachReplaces(p, PutLogps, rows);
    if [] in rows {
      GroupsInRows(Attach(p, PutLogps, rows).value);
      if Hidden(p, Logps) {
        RowsGrouped(p.normalized.value);
      } else if ListReturns(Chosen(p), Logps, RowShows, rows) {
        ListUsesNonEmpty(Chosen(p), rows);
      }
    } else {
      RowsCharacterized(rows);
      AttachReturnsIff(p, PutLogps, Logps, RowShows, rows);
    }
  }

  // ----- payloads that return every value --------------------------------------------------------

  /** Nothing in the list of the candidates, nor in a list before it, can be found in place of a value. */
  ghost predicate Clear<T>(p: Payload, get: Candidate -> Option<T>, nested: Candidate -> Option<T>)
    requires CandidateCount(p) > 0
  {
    ChosenHolds(p);
    && !Hidden(p, get)
    && forall e, c | 0 <= e < |Chosen(p)| && c in Members(Chosen(p)[e]) :: !Obstructs(c, get, nested)
  }

  predicate Obstructs<T>(c: Candidate, get: Candidate -> Option<T>, nested: Candidate -> Option<T>) {
    if Tokens(c).None? then get(c).Some? else nested(c).Some?
  }

  function NestedReward(c: Candidate): Option<real> {
    if c.Missing? then None else RewardOfAny(AsMapping(c).nested)
  }

  function NestedLogps(c: Candidate): Option<seq<real>> {
    if c.Missing? then None else NonEmpty(LogpsOfAny(AsMapping(c).nested))
  }

  lemma {:induction false} ClearGroup<T>(cs: seq<Candidate>, get: Candidate -> Option<T>,
      shows: (Candidate, T) -> bool, values: seq<T>, i: nat)
    requires i + Used(cs) <= |values|
    requires forall c | c in cs ::
               if Tokens(c).None? then get(c).None? else forall k | 0 <= k < |values| :: shows(c, values[k])
    ensures AllReturn(cs, get, shows, values, i)
    decreases |cs|
  {
    if |cs| > 0 {
      assert cs[|cs| - 1] in cs;
      ClearGroup(cs[..|cs| - 1], get, shows, values, i);
    }
  }

  lemma {:induction false} ClearList<T>(es: seq<Entry>, get: Candidate -> Option<T>,
      shows: (Candidate, T) -> bool, values: seq<T>)
    requires UsedIn(es) <= |values|
    requires forall e, c | 0 <= e < |es| && c in Members(es[e]) ::
               if Tokens(c).None? then get(c).None? else forall k | 0 <= k < |values| :: shows(c, values[k])
    ensures ListReturns(es, get, shows, values)
    decreases |es|
  {
    if |es| > 0 {
      ClearList(es[..|es| - 1], get, shows, values);
      ClearGroup(Members(es[|es| - 1]), get, shows, values, UsedIn(es[..|es| - 1]));
    }
  }

  /** One value for every candidate. */
  function Constant<T>(n: nat, v: T): (r: seq<T>)
    ensures |r| == n && forall k | 0 <= k < n :: r[k] == v
  {
    seq(n, k => v)
  }

  /** A list in the way, or a candidate in whose place something else is found, loses some values. */
  lemma HiddenLoses<T(!new)>(p: Payload, get: Candidate -> Option<T>, shows: (Candidate, T) -> bool, v: T)
    requires CandidateCount(p) > 0 && Hidden(p, get)
    requires v !in Flat(Groups(p.normalized.value, get))
    ensures !ComesBack(p, get, shows, Constant(CandidateCount(p), v))
  {
    assert Constant(CandidateCount(p), v)[0] == v;
  }

  lemma ObstructedLoses<T(!new)>(p: Payload, get: Candidate -> Option<T>, shows: (Candidate, T) -> bool, v: T,
                                 e: nat, c: Candidate)
    requires CandidateCount(p) > 0 && !Hidden(p, get)
    requires FromNormalized(p) || p.outputs.Some?
    requires e < |Chosen(p)| && c in Members(Chosen(p)[e])
    requires if Tokens(c).None? then get(c).Some? else !shows(c, v)
    ensures !ComesBack(p, get, shows, Constant(CandidateCount(p), v))
  {
    ChosenHolds(p);
    var values := Constant(CandidateCount(p), v);
    if ListReturns(Chosen(p), get, shows, values) {
      EntriesAreFine(Chosen(p), get, shows, values, e, c);
    }
  }

  /** A payload returns whatever rewards are attached to it if and only if no tokenless candidate and no
      nested output of the candidates' own list holds a reward, and no list before it does. */
  lemma RewardsAlwaysReturnIff(p: Payload)
    requires CandidateCount(p) > 0
    ensures (forall rewards: seq<real> | |rewards| == CandidateCount(p) :: Returned(p, PutReward, Reward, rewards))
            <==> Clear(p, Reward, NestedReward)
  {
    if Clear(p, Reward, NestedReward) {
      forall rewards: seq<real> | |rewards| == CandidateCount(p)
        ensures Returned(p, PutReward, Reward, rewards)
      {
        ClearReturnsRewards(p, rewards);
      }
    } else {
      var v := LostReward(p);
      RewardsReturnIff(p, Constant(CandidateCount(p), v));
      assert |Constant(CandidateCount(p), v)| == CandidateCount(p);
    }
  }

  lemma ClearReturnsRewards(p: Payload, rewards: seq<real>)
    requires |rewards| == CandidateCount(p) > 0 && Clear(p, Reward, NestedReward)
    ensures Returned(p, PutReward, Reward, rewards)
  {
    ChosenHolds(p);
    forall e, c | 0 <= e < |Chosen(p)| && c in Members(Chosen(p)[e])
      ensures if Tokens(c).None? then Reward(c).None?
              else forall k | 0 <= k < |rewards| :: RewardShows(c, rewards[k])
    {
      assert !Obstructs(c, Reward, NestedReward);
    }
    ClearList(Chosen(p), Reward, RewardShows, rewards);
    RewardsReturnIff(p, rewards);
  }

  lemma ClearReturnsRows(p: Payload, rows: seq<seq<real>>)
    requires |rows| == CandidateCount(p) > 0 && [] !in rows && Clear(p, Logps, NestedLogps)
    ensures Returned(p, PutLogps, Logps, rows)
  {
    ChosenHolds(p);
    forall e, c | 0 <= e < |Chosen(p)| && c in Members(Chosen(p)[e])
      ensures if Tokens(c).None? then Logps(c).None? else forall k | 0 <= k < |rows| :: RowShows(c, rows[k])
    {
      assert !Obstructs(c, Logps, NestedLogps);
    }
    ClearList(Chosen(p), Logps, RowShows, rows);
    LogpsReturnIff(p, rows);
  }

  lemma LostReward(p: Payload) returns (v: real)
    requires CandidateCount(p) > 0 && !Clear(p, Reward, NestedReward)
    ensures !ComesBack(p, Reward, RewardShows, Constant(CandidateCount(p), v))
  {
    ChosenHolds(p);
    if Hidden(p, Reward) {
      v := NewReward(Flat(Groups(p.normalized.value, Reward)));
      HiddenLoses(p, Reward, RewardShows, v);
    } else {
      var e, c :| 0 <= e < |Chosen(p)| && c in Members(Chosen(p)[e]) && Obstructs(c, Reward, NestedReward);
      v := if NestedReward(c).Some? then NestedReward(c).value + 1.0 else 0.0;
      ObstructedLoses(p, Reward, RewardShows, v, e, c);
    }
  }

  /** A number that is not in the list. */
  lemma {:induction false} NewReward(list: seq<real>) returns (v: real)
    ensures v !in list && forall x | x in list :: x < v
    decreases |list|
  {
    v := 0.0;
    if |list| > 0 {
      assert list == [list[0]] + list[1..];
      v := NewReward(list[1..]);
      v := if list[0] < v then v else list[0] + 1.0;
    }
  }

  /** The same for reference logps, whose rows are not empty. */
  lemma LogpsAlwaysReturnIff(p: Payload)
    requires CandidateCount(p) > 0
    ensures (forall rows: seq<seq<real>> | |rows| == CandidateCount(p) && [] !in rows ::
               Returned(p, PutLogps, Logps, rows))
            <==> Clear(p, Logps, NestedLogps)
  {
    if Clear(p, Logps, NestedLogps) {
      forall rows: seq<seq<real>> | |rows| == CandidateCount(p) && [] !in rows
        ensures Returned(p, PutLogps, Logps, rows)
      {
        ClearReturnsRows(p, rows);
      }
    } else {
      var v := LostRow(p);
      var rows := Constant(CandidateCount(p), v);
      LogpsReturnIff(p, rows);
      assert |rows| == CandidateCount(p) && [] !in rows;
    }
  }

  lemma LostRow(p: Payload) returns (v: seq<real>)
    requires CandidateCount(p) > 0 && !Clear(p, Logps, NestedLogps)
    ensures v != [] && !ComesBack(p, Logps, RowShows, Constant(CandidateCount(p), v))
  {
    ChosenHolds(p);
    if Hidden(p, Logps) {
      v := NewRow(Flat(Groups(p.normalized.value, Logps)));
      HiddenLoses(p, Logps, RowShows, v);
    } else {
      var e, c :| 0 <= e < |Chosen(p)| && c in Members(Chosen(p)[e]) && Obstructs(c, Logps, NestedLogps);
      v := if NestedLogps(c).Some? then NestedLogps(c).value + [0.0] else [0.0];
      assert NestedLogps(c).Some? ==> |v| == |NestedLogps(c).value| + 1;
      ObstructedLoses(p, Logps, RowShows, v, e, c);
    }
  }

  /** A row longer than all in the list. */
  lemma {:induction false} NewRow(list: seq<seq<real>>) returns (v: seq<real>)
    ensures v != [] && v !in list && forall x | x in list :: |x| < |v|
    decreases |list|
  {
    v := [0.0];
    if |list| > 0 {
      assert list == [list[0]] + list[1..];
      v := NewRow(list[1..]);
      v := if |list[0]| < |v| then v else list[0] + [0.0];
    }
  }

  // ----- inputs that fail ------------------------------------------------------------------------

  /** A candidate whose nested output already holds a reward hides the attached one. */
  lemma NestedRewardHides(tokens: seq<int>, stale: real, scored: real)
    requires tokens != [] && stale != scored
    ensures var inner := Item(AMapping, [], Some(tokens), map[], map[REWARD_KEYS[0] := stale], map[]);
            var c := Item(AMapping, [inner], None, map[], map[], map[]);
            TokenIds(c) == tokens && Reward(PutReward(c, scored)) == Some(stale)
  {
    var inner := Item(AMapping, [], Some(tokens), map[], map[REWARD_KEYS[0] := stale], map[]);
    assert TokenIds(inner) == tokens && Reward(inner) == Some(stale);
  }

  function Tokenless(reward: real): Candidate { Item(AMapping, [], None, map[], map[REWARD_KEYS[0] := reward], map[]) }

  function Unscored(tokens: seq<int>): Candidate { Item(AMapping, [], Some(tokens), map[], map[], map[]) }

  lemma SimpleCandidates(tokens: seq<int>, stale: real)
    requires tokens != []
    ensures Tokens(Tokenless(stale)).None? && Reward(Tokenless(stale)) == Some(stale)
    ensures Tokens(Unscored(tokens)) == Some(tokens) && Clean(Unscored(tokens))
  {
    var c := Tokenless(stale);
    assert FirstKey(REWARD_KEYS, c.rewards) == Some(stale);
    assert TokenIds(c) == [] && Reward(c) == Some(stale);
  }

  /** A tokenless mapping in the normalized outputs with a reward of its own, before a clean flat candidate in
      the outputs: the reward is attached to the candidate, and the stale one is extracted in its place. */
  lemma StaleListHides(tokens: seq<int>, stale: real, scored: real)
    requires tokens != [] && stale != scored
    ensures var p := Payload(Some([Single(Tokenless(stale))]), Some([Single(Unscored(tokens))]));
            && CandidateCount(p) == 1 && Clean(Unscored(tokens)) && Attach(p, PutReward, [scored]).Ok?
            && GroupsIn(Attach(p, PutReward, [scored]).value, Reward) == [[stale]]
            && !Returned(p, PutReward, Reward, [scored])
  {
    var p := Payload(Some([Single(Tokenless(stale))]), Some([Single(Unscored(tokens))]));
    SimpleCandidates(tokens, stale);
    OneCandidate(Tokenless(stale), Tokens);
    OneCandidate(Unscored(tokens), Tokens);
    OneCandidate(Tokenless(stale), Reward);
    CountsAgree(p.normalized.value);
    FlatOne(tokens);
    FlatOne(stale);
    AttachReplaces(p, PutReward, [scored]);
  }

  lemma FlatOne<T>(x: T)
    ensures Flat([[x]]) == [x]
  {
    assert [[x]][..0] == [];
  }

  lemma OneCandidate<T>(c: Candidate, get: Candidate -> Option<T>)
    ensures Groups([Single(c)], get) == if get(c).Some? then [[get(c).value]] else []
  {
    var es, cs := [Single(c)], [c];
    assert es[..0] == [] && cs[..0] == [];
    assert Collect(cs[..0], get) == [] && Groups(es[..0], get) == [];
    assert Collect(cs, get) == if get(c).Some? then [get(c).value] else [];
  }
}
