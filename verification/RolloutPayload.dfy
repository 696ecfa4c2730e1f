/** Rollout payloads: candidates nested in groups, what is extracted from them, and attaching scores. */
module RolloutPayload {
  import opened Options

  datatype Result<+T> = Ok(value: T) | TooFewValues | CountMismatch

  /** How a candidate stores its fields: a mapping, an object with a dictionary, or one without. */
  datatype Kind = AMapping | AnObject | Slotted

  datatype Candidate =
    | Missing
    | Item(kind: Kind, nested: seq<Candidate>, tokens: Option<seq<int>>, prompts: map<string, seq<int>>,
           rewards: map<string, real>, logps: map<string, seq<real>>)

  /** An element of an output list: a group of candidates, or one candidate standing for its own group. */
  datatype Entry = Group(members: seq<Candidate>) | Single(candidate: Candidate)

  /** The two lists a payload may hold; None when the key is absent or not a list. */
  datatype Payload = Payload(normalized: Option<seq<Entry>>, outputs: Option<seq<Entry>>)

  const REWARD_KEYS := ["reward", "score", "scalar_reward", "reward_score"]
  const LOGP_KEYS := ["reference_logps", "ref_logps", "reference_logprobs", "ref_logprobs"]
  const PROMPT_KEYS := ["prompt_token_ids", "prompt_ids", "input_token_ids", "input_ids"]

  function FirstKey<T>(keys: seq<string>, m: map<string, T>): Option<T> {
    if |keys| == 0 then None else if keys[0] in m then Some(m[keys[0]]) else FirstKey(keys[1..], m)
  }

  function ListOr<T>(o: Option<seq<T>>): seq<T> { if o.Some? then o.value else [] }

  // ----- what one candidate yields ---------------------------------------------------------------

  /** A mapping prefers the tokens of its nested outputs; an object prefers its own. */
  function TokenIds(c: Candidate): seq<int>
    decreases c
  {
    if c.Missing? then []
    else if c.kind.AMapping? then (if TokensOfAny(c.nested) != [] then TokensOfAny(c.nested) else ListOr(c.tokens))
    else if c.tokens.Some? then c.tokens.value
    else TokensOfAny(c.nested)
  }

  function TokensOfAny(cs: seq<Candidate>): seq<int>
    decreases cs
  {
    if |cs| == 0 then [] else if TokenIds(cs[0]) != [] then TokenIds(cs[0]) else TokensOfAny(cs[1..])
  }

  function Reward(c: Candidate): Option<real>
    decreases c
  {
    if c.Missing? then None
    else if RewardOfAny(c.nested).Some? then RewardOfAny(c.nested)
    else FirstKey(REWARD_KEYS, c.rewards)
  }

  function RewardOfAny(cs: seq<Candidate>): Option<real>
    decreases cs
  {
    if |cs| == 0 then None else if Reward(cs[0]).Some? then Reward(cs[0]) else RewardOfAny(cs[1..])
  }

  function LogpList(c: Candidate): seq<real>
    decreases c
  {
    if c.Missing? then []
    else if LogpsOfAny(c.nested) != [] then LogpsOfAny(c.nested)
    else ListOr(FirstKey(LOGP_KEYS, c.logps))
  }

  function LogpsOfAny(cs: seq<Candidate>): seq<real>
    decreases cs
  {
    if |cs| == 0 then [] else if LogpList(cs[0]) != [] then LogpList(cs[0]) else LogpsOfAny(cs[1..])
  }

  function PromptIds(c: Candidate): seq<int> { if c.Missing? then [] else ListOr(FirstKey(PROMPT_KEYS, c.prompts)) }

  function NonEmpty<T(==)>(list: seq<T>): Option<seq<T>> { if list == [] then None else Some(list) }

  function Tokens(c: Candidate): Option<seq<int>> { NonEmpty(TokenIds(c)) }

  function Logps(c: Candidate): Option<seq<real>> { NonEmpty(LogpList(c)) }

  /** What the input builder takes from one candidate: its prompt and its tokens. */
  datatype Record = Record(prompt: seq<int>, tokens: seq<int>)

  function RecordOf(c: Candidate): Option<Record> {
    if TokenIds(c) == [] then None else Some(Record(PromptIds(c), TokenIds(c)))
  }

  // ----- what a list of groups yields ------------------------------------------------------------

  function Collect<T>(cs: seq<Candidate>, get: Candidate -> Option<T>): seq<T> {
    if |cs| == 0 then []
    else
      var front, last := Collect(cs[..|cs| - 1], get), get(cs[|cs| - 1]);
      if last.Some? then front + [last.value] else front
  }

  function Members(e: Entry): seq<Candidate> { if e.Group? then e.members else [e.candidate] }

  /** One list per entry, leaving out the entries that yield nothing. */
  function Groups<T>(es: seq<Entry>, get: Candidate -> Option<T>): seq<seq<T>> {
    if |es| == 0 then [] else Push(Groups(es[..|es| - 1], get), Collect(Members(es[|es| - 1]), get))
  }

  function Push<T>(groups: seq<seq<T>>, group: seq<T>): seq<seq<T>> { if |group| > 0 then groups + [group] else groups }

  function Flat<T>(groups: seq<seq<T>>): seq<T> {
    if |groups| == 0 then [] else Flat(groups[..|groups| - 1]) + groups[|groups| - 1]
  }

  function GroupsIn<T>(p: Payload, get: Candidate -> Option<T>): seq<seq<T>> {
    if p.normalized.Some? && Groups(p.normalized.value, get) != [] then Groups(p.normalized.value, get)
    else if p.outputs.Some? then Groups(p.outputs.value, get)
    else []
  }

  predicate SameShape<S, T>(a: seq<seq<S>>, b: seq<seq<T>>) {
    |a| == |b| && forall g | 0 <= g < |a| :: |a[g]| == |b[g]|
  }

  /** Flattening keeps groups one after the other. */
  lemma {:induction false} FlatAt<T>(groups: seq<seq<T>>, g: nat, k: nat)
    requires g < |groups| && k < |groups[g]|
    ensures |Flat(groups[..g])| + k < |Flat(groups)| && Flat(groups)[|Flat(groups[..g])| + k] == groups[g][k]
    decreases |groups|
  {
    var front := groups[..|groups| - 1];
    if g < |front| {
      FlatAt(front, g, k);
      assert front[..g] == groups[..g];
    }
  }

  // ----- the extraction loops ----------------------------------------------------------------------

  method CollectAll<T>(cs: seq<Candidate>, get: Candidate -> Option<T>) returns (found: seq<T>)
    ensures found == Collect(cs, get)
  {
    found := [];
    for k := 0 to |cs|
      invariant found == Collect(cs[..k], get)
    {
      assert cs[..k + 1][..k] == cs[..k];
      var value := get(cs[k]);
      if value.Some? {
        found := found + [value.value];
      }
    }
    assert cs[..|cs|] == cs;
  }

  /** Candidates, rewards and logps are extracted by one loop over the entries. */
  method ExtractGroups<T>(es: seq<Entry>, get: Candidate -> Option<T>) returns (groups: seq<seq<T>>)
    ensures groups == Groups(es, get)
  {
    groups := [];
    for e := 0 to |es|
      invariant groups == Groups(es[..e], get)
    {
      assert es[..e + 1][..e] == es[..e];
      var group := CollectAll(Members(es[e]), get);
      if |group| > 0 {
        groups := groups + [group];
      }
    }
    assert es[..|es|] == es;
  }

  /** From the normalized outputs when they yield anything, otherwise from the outputs. */
  method Extract<T>(p: Payload, get: Candidate -> Option<T>) returns (groups: seq<seq<T>>)
    ensures groups == GroupsIn(p, get)
  {
    if p.normalized.Some? {
      groups := ExtractGroups(p.normalized.value, get);
      if |groups| > 0 {
        return;
      }
    }
    groups := [];
    if p.outputs.Some? {
      groups := ExtractGroups(p.outputs.value, get);
    }
  }

  method Flatten<T>(groups: seq<seq<T>>) returns (flat: seq<T>)
    ensures flat == Flat(groups)
  {
    flat := [];
    for g := 0 to |groups|
      invariant flat == Flat(groups[..g])
    {
      assert groups[..g + 1][..g] == groups[..g];
      flat := flat + groups[g];
    }
    assert groups[..|groups|] == groups;
  }

  // ----- attaching -------------------------------------------------------------------------------

  /** The mapping an updated candidate starts from; an object without a dictionary is wrapped whole. */
  function AsMapping(c: Candidate): Candidate
    requires c.Item?
  {
    if c.kind.Slotted? then Item(AMapping, [], None, map[], map[], map[]) else c.(kind := AMapping)
  }

  function PutReward(c: Candidate, r: real): Candidate {
    if c.Missing? then c
    else
      var m := AsMapping(c);
      Item(AMapping, m.nested, m.tokens, m.prompts, m.rewards[REWARD_KEYS[0] := r], m.logps)
  }

  function PutLogps(c: Candidate, row: seq<real>): Candidate {
    if c.Missing? then c
    else
      var m := AsMapping(c);
      Item(AMapping, m.nested, m.tokens, m.prompts, m.rewards, m.logps[LOGP_KEYS[0] := row])
  }

  function Used(cs: seq<Candidate>): nat { |Collect(cs, Tokens)| }

  function Attached<T>(cs: seq<Candidate>, put: (Candidate, T) -> Candidate, values: seq<T>, i: nat):
      (r: seq<Candidate>)
    requires i + Used(cs) <= |values|
    ensures |r| == |cs|
  {
    if |cs| == 0 then []
    else
      var front, last := cs[..|cs| - 1], cs[|cs| - 1];
      Attached(front, put, values, i) + [if Tokens(last).None? then last else put(last, values[i + Used(front)])]
  }

  function UsedIn(es: seq<Entry>): nat {
    if |es| == 0 then 0 else UsedIn(es[..|es| - 1]) + Used(Members(es[|es| - 1]))
  }

  function AttachedEntries<T>(es: seq<Entry>, put: (Candidate, T) -> Candidate, values: seq<T>): (r: seq<Entry>)
    requires UsedIn(es) <= |values|
    ensures |r| == |es|
  {
    if |es| == 0 then []
    else
      var front, last := es[..|es| - 1], es[|es| - 1];
      var updated := Attached(Members(last), put, values, UsedIn(front));
      AttachedEntries(front, put, values) + [if last.Group? then Group(updated) else Single(updated[0])]
  }

  /** One list of a payload: the updated list, None when no candidate takes a value. */
  function AttachTo<T>(es: seq<Entry>, put: (Candidate, T) -> Candidate, values: seq<T>): Result<Option<seq<Entry>>> {
    if UsedIn(es) > |values| then TooFewValues
    else if UsedIn(es) == 0 then Ok(None)
    else if UsedIn(es) != |values| then CountMismatch
    else Ok(Some(AttachedEntries(es, put, values)))
  }

  /** The first list that takes any value takes them all. */
  function Attach<T>(p: Payload, put: (Candidate, T) -> Candidate, values: seq<T>): Result<Payload> {
    if values == [] then Ok(p)
    else
      var first := if p.normalized.Some? then AttachTo(p.normalized.value, put, values) else Ok(None);
      if first.TooFewValues? then TooFewValues
      else if first.CountMismatch? then CountMismatch
      else if first.value.Some? then Ok(p.(normalized := first.value))
      else
        var second := if p.outputs.Some? then AttachTo(p.outputs.value, put, values) else Ok(None);
        if second.TooFewValues? then TooFewValues
        else if second.CountMismatch? then CountMismatch
        else if second.value.Some? then Ok(p.(outputs := second.value))
        else Ok(p)
  }

  // ----- where attached values are found again ---------------------------------------------------

  /** Tokenless candidates yield nothing; the others yield exactly the value put into them. */
  ghost predicate Transparent<T(!new)>(cs: seq<Candidate>, put: (Candidate, T) -> Candidate,
      get: Candidate -> Option<T>, values: seq<T>) {
    forall c | c in cs ::
      && (Tokens(c).None? ==> get(c).None?)
      && (Tokens(c).Some? ==> forall k | 0 <= k < |values| :: get(put(c, values[k])) == Some(values[k]))
  }

  lemma AttachedLast<T>(cs: seq<Candidate>, put: (Candidate, T) -> Candidate, values: seq<T>, i: nat)
    requires |cs| > 0 && i + Used(cs) <= |values|
    ensures var r, front, last := Attached(cs, put, values, i), cs[..|cs| - 1], cs[|cs| - 1];
            && r[..|r| - 1] == Attached(front, put, values, i)
            && Used(cs) == Used(front) + (if Tokens(last).Some? then 1 else 0)
            && r[|r| - 1] == if Tokens(last).Some? then put(last, values[i + Used(front)]) else last
  {
  }

  /** Exactly the n values from position i on. */
  predicate IsSlice<T(==)>(found: seq<T>, values: seq<T>, i: nat, n: nat)
    requires i + n <= |values|
  {
    |found| == n && forall k | 0 <= k < n :: found[k] == values[i + k]
  }

  lemma AppendSlice<T>(found: seq<T>, value: T, values: seq<T>, i: nat, k: nat)
    requires i <= k < |values|
    ensures IsSlice(found + [value], values, i, k + 1 - i) <==> IsSlice(found, values, i, k - i) && value == values[k]
  {
    var longer := found + [value];
    assert |found| == k - i ==> longer[k - i] == value;
    assert forall j | 0 <= j < |found| :: longer[j] == found[j];
  }

  lemma {:induction false} AttachedCollects<T(!new)>(cs: seq<Candidate>, put: (Candidate, T) -> Candidate,
                                               get: Candidate -> Option<T>, values: seq<T>, i: nat)
    requires i + Used(cs) <= |values| && Transparent(cs, put, get, values)
    ensures IsSlice(Collect(Attached(cs, put, values, i), get), values, i, Used(cs))
    decreases |cs|
  {
    if |cs| > 0 {
      var front := cs[..|cs| - 1];
      CollectsOne(cs, put, get, values, i);
      AttachedCollects(front, put, get, values, i);
      if Tokens(cs[|cs| - 1]).Some? {
        var k := i + Used(front);
        AppendSlice(Collect(Attached(front, put, values, i), get), values[k], values, i, k);
      }
    }
  }

  /** What the last candidate adds. */
  lemma CollectsOne<T(!new)>(cs: seq<Candidate>, put: (Candidate, T) -> Candidate, get: Candidate -> Option<T>,
                             values: seq<T>, i: nat)
    requires |cs| > 0 && i + Used(cs) <= |values| && Transparent(cs, put, get, values)
    ensures var front, last := cs[..|cs| - 1], cs[|cs| - 1];
            && Used(cs) == Used(front) + (if Tokens(last).Some? then 1 else 0)
            && Transparent(front, put, get, values)
            && Collect(Attached(cs, put, values, i), get)
               == Collect(Attached(front, put, values, i), get)
                  + if Tokens(last).Some? then [values[i + Used(front)]] else []
  {
    assert cs[|cs| - 1] in cs;
    AttachedLast(cs, put, values, i);
  }

  lemma AttachedSplits<T>(es: seq<Entry>, put: (Candidate, T) -> Candidate, values: seq<T>)
    requires |es| > 0 && UsedIn(es) <= |values|
    ensures var r, front, last := AttachedEntries(es, put, values), es[..|es| - 1], es[|es| - 1];
            && UsedIn(es) == UsedIn(front) + Used(Members(last))
            && r[..|r| - 1] == AttachedEntries(front, put, values)
            && Members(r[|r| - 1]) == Attached(Members(last), put, values, UsedIn(front))
  {
  }

  lemma AttachedGroups<T(!new)>(es: seq<Entry>, put: (Candidate, T) -> Candidate, get: Candidate -> Option<T>,
                                values: seq<T>)
    requires UsedIn(es) <= |values| && forall k | 0 <= k < |es| :: Transparent(Members(es[k]), put, get, values)
    ensures SameShape(Groups(AttachedEntries(es, put, values), get), Groups(es, Tokens))
    ensures Flat(Groups(AttachedEntries(es, put, values), get)) == values[..UsedIn(es)]
  {
    AttachedSlices(es, put, get, values);
  }

  lemma {:induction false} AttachedSlices<T(!new)>(es: seq<Entry>, put: (Candidate, T) -> Candidate,
                                                   get: Candidate -> Option<T>, values: seq<T>)
    requires UsedIn(es) <= |values| && forall k | 0 <= k < |es| :: Transparent(Members(es[k]), put, get, values)
    ensures SameShape(Groups(AttachedEntries(es, put, values), get), Groups(es, Tokens))
    ensures IsSlice(Flat(Groups(AttachedEntries(es, put, values), get)), values, 0, UsedIn(es))
    decreases |es|
  {
    if |es| > 0 {
      var front, last := es[..|es| - 1], Members(es[|es| - 1]);
      AttachedPushes(es, put, get, values);
      AttachedSlices(front, put, get, values);
      AttachedCollects(last, put, get, values, UsedIn(front));
      PushSlice(Groups(AttachedEntries(front, put, values), get), Groups(front, Tokens),
                Collect(Attached(last, put, values, UsedIn(front)), get), Collect(last, Tokens), values, UsedIn(front));
    }
  }

  lemma AttachedPushes<S, T>(es: seq<Entry>, put: (Candidate, T) -> Candidate, get: Candidate -> Option<S>,
                             values: seq<T>)
    requires |es| > 0 && UsedIn(es) <= |values|
    ensures var front, last := es[..|es| - 1], es[|es| - 1];
            && UsedIn(es) == UsedIn(front) + Used(Members(last))
            && Groups(AttachedEntries(es, put, values), get)
               == Push(Groups(AttachedEntries(front, put, values), get),
                       Collect(Attached(Members(last), put, values, UsedIn(front)), get))
  {
    AttachedSplits(es, put, values);
    var r := AttachedEntries(es, put, values);
    assert Groups(r, get) == Push(Groups(r[..|r| - 1], get), Collect(Members(r[|r| - 1]), get));
  }

  lemma PushFlat<T>(groups: seq<seq<T>>, group: seq<T>)
    ensures Flat(Push(groups, group)) == Flat(groups) + group
  {
    if |group| > 0 {
      assert (groups + [group])[..|groups|] == groups;
    }
  }

  /** A concatenation of parts that are long enough is a prefix of the values exactly when both parts match. */
  lemma PrefixParts<T>(a: seq<T>, b: seq<T>, values: seq<T>, m: nat, n: nat)
    requires |a| >= m && |b| >= n && m + n <= |values|
    ensures IsSlice(a + b, values, 0, m + n) <==> IsSlice(a, values, 0, m) && IsSlice(b, values, m, n)
  {
    var all := a + b;
    assert forall k | 0 <= k < |a| :: all[k] == a[k];
    assert forall k | 0 <= k < |b| :: all[|a| + k] == b[k];
  }

  lemma PushSlice<S, T>(a: seq<seq<S>>, b: seq<seq<T>>, x: seq<S>, y: seq<T>, values: seq<S>, before: nat)
    requires before + |y| <= |values| && SameShape(a, b)
    requires IsSlice(Flat(a), values, 0, before) && IsSlice(x, values, before, |y|)
    ensures SameShape(Push(a, x), Push(b, y)) && IsSlice(Flat(Push(a, x)), values, 0, before + |y|)
  {
    PushFlat(a, x);
    PrefixParts(Flat(a), x, values, before, |y|);
  }

  /** A field that attaching does not touch is extracted as before. */
  ghost predicate Untouched<S(!new), T(!new)>(cs: seq<Candidate>, put: (Candidate, T) -> Candidate,
      get: Candidate -> Option<S>, values: seq<T>) {
    forall c | c in cs && Tokens(c).Some? :: forall k | 0 <= k < |values| :: get(put(c, values[k])) == get(c)
  }

  /** What `get` reads from a list after attaching is what `after` says of its candidates. */
  ghost predicate ReadsAs<S(!new), T(!new)>(cs: seq<Candidate>, put: (Candidate, T) -> Candidate,
      get: Candidate -> Option<S>, after: Candidate -> Option<S>, values: seq<T>) {
    forall c | c in cs ::
      if Tokens(c).None? then get(c) == after(c)
      else forall k | 0 <= k < |values| :: get(put(c, values[k])) == after(c)
  }

  lemma {:induction false} AttachedReads<S(!new), T(!new)>(cs: seq<Candidate>, put: (Candidate, T) -> Candidate,
      get: Candidate -> Option<S>, after: Candidate -> Option<S>, values: seq<T>, i: nat)
    requires i + Used(cs) <= |values| && ReadsAs(cs, put, get, after, values)
    ensures Collect(Attached(cs, put, values, i), get) == Collect(cs, after)
    decreases |cs|
  {
    if |cs| > 0 {
      var front, last := cs[..|cs| - 1], cs[|cs| - 1];
      AttachedReads(front, put, get, after, values, i);
      AttachedLast(cs, put, values, i);
      assert last in cs;
    }
  }

  lemma {:induction false} AttachedGroupsRead<S(!new), T(!new)>(es: seq<Entry>, put: (Candidate, T) -> Candidate,
      get: Candidate -> Option<S>, after: Candidate -> Option<S>, values: seq<T>)
    requires UsedIn(es) <= |values| && forall k | 0 <= k < |es| :: ReadsAs(Members(es[k]), put, get, after, values)
    ensures Groups(AttachedEntries(es, put, values), get) == Groups(es, after)
    decreases |es|
  {
    if |es| > 0 {
      var front, last := es[..|es| - 1], es[|es| - 1];
      AttachedPushes(es, put, get, values);
      AttachedGroupsRead(front, put, get, after, values);
      AttachedReads(Members(last), put, get, after, values, UsedIn(front));
    }
  }

  lemma AttachedGroupsKeep<S(!new), T(!new)>(es: seq<Entry>, put: (Candidate, T) -> Candidate,
                                             get: Candidate -> Option<S>, values: seq<T>)
    requires UsedIn(es) <= |values| && forall k | 0 <= k < |es| :: Untouched(Members(es[k]), put, get, values)
    ensures Groups(AttachedEntries(es, put, values), get) == Groups(es, get)
  {
    forall k | 0 <= k < |es| ensures ReadsAs(Members(es[k]), put, get, get, values) {
      assert Untouched(Members(es[k]), put, get, values);
    }
    AttachedGroupsRead(es, put, get, get, values);
  }
}
