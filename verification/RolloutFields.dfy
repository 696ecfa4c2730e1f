/** Which field of a candidate its tokens, prompt, reward and reference logps come from. */
module RolloutFields {
  import opened Options
  import opened RolloutPayload

  // ----- nested candidates, in order -------------------------------------------------------------

  /** The first nested candidate with tokens, |cs| when none has any. */
  ghost predicate FirstWithTokens(cs: seq<Candidate>, j: nat) {
    && j <= |cs| && (forall i | 0 <= i < j :: TokenIds(cs[i]) == [])
    && (j < |cs| ==> TokenIds(cs[j]) != [])
  }

  lemma {:induction false} NestedTokens(cs: seq<Candidate>) returns (j: nat)
    ensures FirstWithTokens(cs, j) && TokensOfAny(cs) == if j < |cs| then TokenIds(cs[j]) else []
    decreases cs
  {
    if |cs| == 0 || TokenIds(cs[0]) != [] {
      j := 0;
    } else {
      var k := NestedTokens(cs[1..]);
      j := k + 1;
      assert forall i | 0 < i < j :: cs[i] == cs[1..][i - 1];
    }
  }

  ghost predicate FirstWithReward(cs: seq<Candidate>, j: nat) {
    && j <= |cs| && (forall i | 0 <= i < j :: Reward(cs[i]).None?)
    && (j < |cs| ==> Reward(cs[j]).Some?)
  }

  lemma {:induction false} NestedReward(cs: seq<Candidate>) returns (j: nat)
    ensures FirstWithReward(cs, j) && RewardOfAny(cs) == if j < |cs| then Reward(cs[j]) else None
    decreases cs
  {
    if |cs| == 0 || Reward(cs[0]).Some? {
      j := 0;
    } else {
      var k := NestedReward(cs[1..]);
      j := k + 1;
      assert forall i | 0 < i < j :: cs[i] == cs[1..][i - 1];
    }
  }

  ghost predicate FirstWithLogps(cs: seq<Candidate>, j: nat) {
    && j <= |cs| && (forall i | 0 <= i < j :: LogpList(cs[i]) == [])
    && (j < |cs| ==> LogpList(cs[j]) != [])
  }

  lemma {:induction false} NestedLogps(cs: seq<Candidate>) returns (j: nat)
    ensures FirstWithLogps(cs, j) && LogpsOfAny(cs) == if j < |cs| then LogpList(cs[j]) else []
    decreases cs
  {
    if |cs| == 0 || LogpList(cs[0]) != [] {
      j := 0;
    } else {
      var k := NestedLogps(cs[1..]);
      j := k + 1;
      assert forall i | 0 < i < j :: cs[i] == cs[1..][i - 1];
    }
  }

  // ----- one candidate ---------------------------------------------------------------------------

  /** A mapping's tokens are those of its first nested candidate that has any, and its own otherwise. An object
      has its own whenever it holds a list, be it empty, and looks at nested candidates otherwise. */
  lemma TokensComeFrom(c: Candidate) returns (j: nat)
    requires c.Item?
    ensures FirstWithTokens(c.nested, j)
    ensures c.kind.AMapping? && j < |c.nested| ==> TokenIds(c) == TokenIds(c.nested[j])
    ensures c.kind.AMapping? && j == |c.nested| ==> TokenIds(c) == if c.tokens.Some? then c.tokens.value else []
    ensures !c.kind.AMapping? && c.tokens.Some? ==> TokenIds(c) == c.tokens.value
    ensures !c.kind.AMapping? && c.tokens.None? ==>
              TokenIds(c) == if j < |c.nested| then TokenIds(c.nested[j]) else []
  {
    j := NestedTokens(c.nested);
  }

  /** A candidate's reward is that of its first nested candidate that has one; otherwise its own under the first
      of four names. */
  lemma RewardComesFrom(c: Candidate) returns (j: nat)
    requires c.Item?
    ensures FirstWithReward(c.nested, j)
    ensures Reward(c) == if j < |c.nested| then Reward(c.nested[j])
                         else if "reward" in c.rewards then Some(c.rewards["reward"])
                         else if "score" in c.rewards then Some(c.rewards["score"])
                         else if "scalar_reward" in c.rewards then Some(c.rewards["scalar_reward"])
                         else if "reward_score" in c.rewards then Some(c.rewards["reward_score"])
                         else None
  {
    j := NestedReward(c.nested);
    FourKeys("reward", "score", "scalar_reward", "reward_score", c.rewards);
  }

  lemma LogpsComeFrom(c: Candidate) returns (j: nat)
    requires c.Item?
    ensures FirstWithLogps(c.nested, j)
    ensures LogpList(c) == if j < |c.nested| then LogpList(c.nested[j])
                           else if "reference_logps" in c.logps then c.logps["reference_logps"]
                           else if "ref_logps" in c.logps then c.logps["ref_logps"]
                           else if "reference_logprobs" in c.logps then c.logps["reference_logprobs"]
                           else if "ref_logprobs" in c.logps then c.logps["ref_logprobs"]
                           else []
  {
    j := NestedLogps(c.nested);
    FourKeys("reference_logps", "ref_logps", "reference_logprobs", "ref_logprobs", c.logps);
  }

  lemma PromptComesFrom(c: Candidate)
    requires c.Item?
    ensures PromptIds(c) == if "prompt_token_ids" in c.prompts then c.prompts["prompt_token_ids"]
                            else if "prompt_ids" in c.prompts then c.prompts["prompt_ids"]
                            else if "input_token_ids" in c.prompts then c.prompts["input_token_ids"]
                            else if "input_ids" in c.prompts then c.prompts["input_ids"]
                            else []
  {
    FourKeys("prompt_token_ids", "prompt_ids", "input_token_ids", "input_ids", c.prompts);
  }

  lemma FourKeys<T>(a: string, b: string, c: string, d: string, m: map<string, T>)
    ensures FirstKey([a, b, c, d], m) == if a in m then Some(m[a]) else if b in m then Some(m[b])
                                         else if c in m then Some(m[c]) else if d in m then Some(m[d]) else None
  {
    assert [a, b, c, d][1..] == [b, c, d] && [b, c, d][1..] == [c, d] && [c, d][1..] == [d];
    assert FirstKey([d], m) == if d in m then Some(m[d]) else None;
    assert FirstKey([c, d], m) == if c in m then Some(m[c]) else FirstKey([d], m);
    assert FirstKey([b, c, d], m) == if b in m then Some(m[b]) else FirstKey([c, d], m);
  }

  /** A missing candidate has nothing. */
  lemma MissingHasNothing(c: Candidate)
    requires c.Missing?
    ensures Tokens(c).None? && Reward(c).None? && Logps(c).None? && RecordOf(c).None?
  {
  }

  // ----- what an attachment writes ---------------------------------------------------------------

  /** Attaching sets one field under its first name and keeps the others; an object without a dictionary is
      replaced by a mapping that holds nothing else. */
  lemma AttachedFields(c: Candidate, r: real, row: seq<real>)
    requires c.Item?
    ensures var d, e := PutReward(c, r), PutLogps(c, row);
            && d.Item? && e.Item? && d.kind.AMapping? && e.kind.AMapping?
            && "reward" in d.rewards && d.rewards["reward"] == r
            && "reference_logps" in e.logps && e.logps["reference_logps"] == row
            && (forall k | k != "reward" && k in d.rewards :: k in c.rewards && d.rewards[k] == c.rewards[k])
            && (forall k | k != "reference_logps" && k in e.logps :: k in c.logps && e.logps[k] == c.logps[k])
            && (if c.kind.Slotted? then
                  d == Item(AMapping, [], None, map[], map["reward" := r], map[])
                  && e == Item(AMapping, [], None, map[], map[], map["reference_logps" := row])
                else
                  && d == c.(kind := AMapping, rewards := c.rewards["reward" := r])
                  && e == c.(kind := AMapping, logps := c.logps["reference_logps" := row]))
  {
  }
}
