/** What the GRPO loss is, in terms of the tokens, the rewards and the hyperparameters. */
module GrpoMeaning {
  import opened RealFunctions
  import opened GroupLayout
  import GroupAdvantages
  import opened RatioKl
  import opened GrpoLoss

  /** A call that returns losses: the actions are in the vocabulary and the grouping is accepted. */
  datatype Scored = Scored(fns: RealFns, x: Problem) {
    ghost predicate Valid() {
      && fns.Lawful() && x.Valid() && x.InRange() && x.clipEps >= 0.0 && ResolveIds(|x.rewards|, x.spec).Ok?
    }

    function Losses(): Losses
      requires Valid()
    {
      IdsValid(|x.rewards|, x.spec);
      NativeResult(fns, x).losses
    }

    /** The advantage of sequence s within its own group. */
    function Advantage(s: int): real
      requires Valid()
    {
      IdsValid(|x.rewards|, x.spec);
      if 0 <= s < |x.rewards| then
        GroupAdvantages.NativeAdvantage(fns, x.rewards, ResolveIds(|x.rewards|, x.spec).value, x.eps, s)
      else 0.0
    }

    predicate Active(s: int, t: int) {
      0 <= s < |x.tokens| && 0 <= t < |x.tokens[s]| && x.tokens[s][t].active
    }

    /** exp(logp - old): the policy's probability of the action over the one it was sampled with. */
    function RatioOf(s: int, t: int): real {
      if Active(s, t) && |x.tokens[s][t].policy| > 0 then
        var y := x.tokens[s][t];
        fns.exp(SelectedLogp(fns, y.policy, y.action) - y.oldLogp)
      else 0.0
    }

    /** exp(d) - d - 1 for the reference's log-probability less the policy's. */
    function KlOf(s: int, t: int): real {
      if Active(s, t) && |x.tokens[s][t].policy| > 0 && |x.tokens[s][t].reference| > 0 then
        var y := x.tokens[s][t];
        Kl(fns, SelectedLogp(fns, y.reference, y.action) - SelectedLogp(fns, y.policy, y.action))
      else 0.0
    }

    /** The ratio as far as it counts: capped above for a good sequence, and below for a bad one. */
    function Counted(s: int, t: int): real
      requires Valid()
    {
      if !Active(s, t) then 0.0
      else if Advantage(s) >= 0.0 then MinReal(RatioOf(s, t), 1.0 + x.clipEps)
      else MaxReal(RatioOf(s, t), 1.0 - x.clipEps)
    }

    ghost predicate HasActive() { exists s, t :: Active(s, t) }

    function ActiveIn(s: int): int -> real { t => if Active(s, t) then 1.0 else 0.0 }

    /** How many tokens of sequence s are active. */
    function Count(s: int): real { Sum(ActiveIn(s), 0, x.width) }

    function Counts(): int -> real { s => Count(s) }

    function CountedIn(s: int): int -> real
      requires Valid()
    {
      t => Counted(s, t)
    }

    function KlIn(s: int): int -> real { t => KlOf(s, t) }

    /** Each sequence's counted ratios, times its own advantage. */
    function Gains(): int -> real
      requires Valid()
    {
      s => Times(Sum(CountedIn(s), 0, x.width), Advantage(s))
    }

    function KlSums(): int -> real { s => Sum(KlIn(s), 0, x.width) }

    /** The active tokens of the batch. */
    function Total(): real { Sum(Counts(), 0, |x.tokens|) }
  }

  /** The call returns losses exactly when the grouping is accepted and every active action is an index of the
      vocabulary; the grouping is checked first. */
  lemma ReturnsIff(fns: RealFns, x: Problem)
    requires fns.Lawful() && x.Valid()
    ensures NativeResult(fns, x).BadSpec? <==> ResolveIds(|x.rewards|, x.spec).Err?
    ensures NativeResult(fns, x).Done? <==>
      && ResolveIds(|x.rewards|, x.spec).Ok?
      && forall s, t | 0 <= s < |x.tokens| && 0 <= t < x.width && x.tokens[s][t].active ::
           0 <= x.tokens[s][t].action < x.v
  {
    forall s, t | 0 <= s < |x.tokens| && 0 <= t < x.width
      ensures x.tokens[s][t].InRange() <==> (x.tokens[s][t].active ==> 0 <= x.tokens[s][t].action < x.v)
    {
      assert x.tokens[s][t].Valid(x.v);
    }
  }

  // ----- one token -------------------------------------------------------------------------------

  /** The clipped surrogate is the advantage times the ratio capped on one side only. */
  lemma OneSidedClip(ratio: real, adv: real, eps: real)
    requires eps >= 0.0
    ensures -MinReal(Times(ratio, adv), Times(ClampReal(ratio, 1.0 - eps, 1.0 + eps), adv))
         == -Times(if adv >= 0.0 then MinReal(ratio, 1.0 + eps) else MaxReal(ratio, 1.0 - eps), adv)
  {
    var clamped := ClampReal(ratio, 1.0 - eps, 1.0 + eps);
    var low, high := MinReal(ratio, clamped), MaxReal(ratio, clamped);
    if adv >= 0.0 {
      MonotoneTimes(adv, low, high);
    } else {
      MonotoneTimes(-adv, low, high);
      assert Times(-adv, low) == -Times(low, adv) && Times(-adv, high) == -Times(high, adv);
    }
    TimesCommutes(adv, low);
    TimesCommutes(adv, high);
  }

  lemma CellIs(y: Scored, s: nat, t: nat)
    requires y.Valid() && s < |y.x.tokens| && t < y.x.width
    ensures |y.x.tokens[s]| == y.x.width && y.x.tokens[s][t].Valid(y.x.v) && y.x.v > 0
    ensures var c := NativeCells(y.fns, y.x)[s][t];
            && c.active == y.Active(s, t)
            && (c.active ==> c.ratio == y.RatioOf(s, t) && c.kl == y.KlOf(s, t))
  {
    assert y.x.tokens[s][t].Valid(y.x.v);
    assert NativeCells(y.fns, y.x)[s][t] == NativeCell(y.fns, y.x.tokens[s][t]);
  }

  function AdvantagesOf(y: Scored): Vec
    requires y.Valid()
  {
    IdsValid(|y.x.rewards|, y.x.spec);
    NativeAdvantagesOf(y.fns, y.x, ResolveIds(|y.x.rewards|, y.x.spec).value)
  }

  lemma TokenTerm(y: Scored, s: nat, t: nat)
    requires y.Valid() && s < |y.x.tokens| && t < y.x.width
    ensures var cells := NativeCells(y.fns, y.x);
            && PolicyEntries(cells, AdvantagesOf(y), y.x.clipEps, s)(t) == -Times(y.Counted(s, t), y.Advantage(s))
            && KlEntries(cells, s)(t) == y.KlOf(s, t)
            && ActiveEntries(cells, s)(t) == y.ActiveIn(s)(t)
  {
    CellIs(y, s, t);
    assert At(AdvantagesOf(y), s) == y.Advantage(s);
    OneSidedClip(y.RatioOf(s, t), y.Advantage(s), y.x.clipEps);
    TimesUnits(y.Advantage(s));
  }

  // ----- the batch -------------------------------------------------------------------------------

  lemma RowTerms(y: Scored, s: nat)
    requires y.Valid() && s < |y.x.tokens|
    ensures var cells := NativeCells(y.fns, y.x);
            && PolicyRows(cells, AdvantagesOf(y), y.x.clipEps, y.x.width)(s) == -y.Gains()(s)
            && KlRows(cells, y.x.width)(s) == y.KlSums()(s)
            && ActiveRows(cells, y.x.width)(s) == y.Counts()(s)
  {
    var cells, w, a := NativeCells(y.fns, y.x), y.x.width, y.Advantage(s);
    forall t | 0 <= t < w
      ensures PolicyEntries(cells, AdvantagesOf(y), y.x.clipEps, s)(t) == Times(-a, y.CountedIn(s)(t))
      ensures KlEntries(cells, s)(t) == y.KlIn(s)(t) && ActiveEntries(cells, s)(t) == y.ActiveIn(s)(t)
    {
      TokenTerm(y, s, t);
      Negates(y.Counted(s, t), a);
    }
    SumTimes(y.CountedIn(s), PolicyEntries(cells, AdvantagesOf(y), y.x.clipEps, s), -a, 0, w);
    Negates(Sum(y.CountedIn(s), 0, w), a);
    SumCong(KlEntries(cells, s), y.KlIn(s), 0, w);
    SumCong(ActiveEntries(cells, s), y.ActiveIn(s), 0, w);
  }

  lemma Negates(x: real, a: real)
    ensures Times(-a, x) == -Times(x, a)
  {
  }

  lemma Sums(y: Scored)
    requires y.Valid()
    ensures var cells, n := NativeCells(y.fns, y.x), |y.x.tokens|;
            && |cells| == n
            && Sum(PolicyRows(cells, AdvantagesOf(y), y.x.clipEps, y.x.width), 0, n) == -Sum(y.Gains(), 0, n)
            && Sum(KlRows(cells, y.x.width), 0, n) == Sum(y.KlSums(), 0, n)
            && Sum(ActiveRows(cells, y.x.width), 0, n) == y.Total()
  {
    var cells, n := NativeCells(y.fns, y.x), |y.x.tokens|;
    var policy := PolicyRows(cells, AdvantagesOf(y), y.x.clipEps, y.x.width);
    forall s | 0 <= s < n
      ensures policy(s) == Times(-1.0, y.Gains()(s))
      ensures KlRows(cells, y.x.width)(s) == y.KlSums()(s) && ActiveRows(cells, y.x.width)(s) == y.Counts()(s)
    {
      RowTerms(y, s);
    }
    SumTimes(y.Gains(), policy, -1.0, 0, n);
    SumCong(KlRows(cells, y.x.width), y.KlSums(), 0, n);
    SumCong(ActiveRows(cells, y.x.width), y.Counts(), 0, n);
  }

  lemma {:induction false} CountIsWhole(f: int -> real, n: nat)
    requires forall i | 0 <= i < n :: f(i) == 0.0 || f(i) >= 1.0
    ensures Sum(f, 0, n) == 0.0 || Sum(f, 0, n) >= 1.0
    ensures (exists i :: 0 <= i < n && f(i) >= 1.0) ==> Sum(f, 0, n) >= 1.0
    decreases n
  {
    if n > 0 {
      CountIsWhole(f, n - 1);
    }
  }

  lemma TotalIsWhole(y: Scored)
    requires y.Valid()
    ensures y.Total() == 0.0 || y.Total() >= 1.0
    ensures y.HasActive() ==> y.Total() >= 1.0
  {
    forall s | 0 <= s < |y.x.tokens|
      ensures y.Counts()(s) == 0.0 || y.Counts()(s) >= 1.0
      ensures (exists t :: y.Active(s, t)) ==> y.Counts()(s) >= 1.0
    {
      CountIsWhole(y.ActiveIn(s), y.x.width);
      if t :| y.Active(s, t) {
        assert y.ActiveIn(s)(t) >= 1.0;
      }
    }
    CountIsWhole(y.Counts(), |y.x.tokens|);
    if s, t :| y.Active(s, t) {
      assert y.Counts()(s) >= 1.0;
    }
  }

  /** The losses of a batch with an active token: the policy loss is minus the mean over the active tokens of
      the one-sidedly capped ratio times the advantage of the token's own sequence, the KL loss is the mean of
      the KL terms, and the loss adds beta times it. */
  lemma LossesAreMeans(y: Scored)
    requires y.Valid() && y.HasActive()
    ensures y.Total() >= 1.0
    ensures y.Losses().policy == Ratio(-Sum(y.Gains(), 0, |y.x.tokens|), y.Total())
    ensures y.Losses().kl == Ratio(Sum(y.KlSums(), 0, |y.x.tokens|), y.Total())
    ensures y.Losses().loss == y.Losses().policy + Times(y.x.beta, y.Losses().kl)
  {
    LossesOfCells(y);
    Sums(y);
    TotalIsWhole(y);
  }

  lemma LossesOfCells(y: Scored)
    requires y.Valid()
    ensures y.Losses() == LossesOf(NativeCells(y.fns, y.x), AdvantagesOf(y), y.x.clipEps, y.x.beta, y.x.width)
  {
  }

  /** Without an active token every loss is zero. */
  lemma NoActiveTokens(y: Scored)
    requires y.Valid() && !y.HasActive()
    ensures y.Losses() == GrpoLoss.Losses(0.0, 0.0, 0.0)
  {
    Sums(y);
    forall s ensures y.Gains()(s) == 0.0 && y.KlSums()(s) == 0.0 {
      SumZero(y.CountedIn(s), 0, y.x.width);
      SumZero(y.KlIn(s), 0, y.x.width);
      TimesUnits(y.Advantage(s));
    }
    SumZero(y.Gains(), 0, |y.x.tokens|);
    SumZero(y.KlSums(), 0, |y.x.tokens|);
    var d := Denominator(NativeCells(y.fns, y.x), y.x.width);
    RatioUnique(0.0, 0.0, d);
    TimesUnits(d);
    TimesUnits(y.x.beta);
  }

  /** Each sequence's advantage, once per active token. */
  function Shares(y: Scored): int -> real
    requires y.Valid()
  {
    s => Times(y.Count(s), y.Advantage(s))
  }

  /** The token was sampled with the log-probability the policy gives it now. */
  predicate OnPolicy(y: Scored, s: int, t: int) {
    y.Active(s, t) ==>
      && |y.x.tokens[s][t].policy| > 0
      && y.x.tokens[s][t].oldLogp == SelectedLogp(y.fns, y.x.tokens[s][t].policy, y.x.tokens[s][t].action)
  }

  lemma OnPolicyRow(y: Scored, s: nat)
    requires y.Valid() && s < |y.x.tokens| && forall t :: OnPolicy(y, s, t)
    ensures y.Gains()(s) == Shares(y)(s)
  {
    forall t | 0 <= t < y.x.width ensures y.CountedIn(s)(t) == y.ActiveIn(s)(t) {
      ExpZero(y.fns);
      assert OnPolicy(y, s, t);
      assert y.Active(s, t) ==> y.RatioOf(s, t) == y.fns.exp(0.0);
    }
    SumCong(y.CountedIn(s), y.ActiveIn(s), 0, y.x.width);
  }

  /** On policy the policy loss is minus the mean advantage of the active tokens: each sequence weighs in with
      its own advantage and its own number of active tokens. */
  lemma OnPolicyLoss(y: Scored)
    requires y.Valid() && y.HasActive() && forall s, t :: OnPolicy(y, s, t)
    ensures y.Total() >= 1.0
    ensures y.Losses().policy == Ratio(-Sum(Shares(y), 0, |y.x.tokens|), y.Total())
  {
    LossesAreMeans(y);
    forall s | 0 <= s < |y.x.tokens| ensures y.Gains()(s) == Shares(y)(s) {
      OnPolicyRow(y, s);
    }
    SumCong(y.Gains(), Shares(y), 0, |y.x.tokens|);
  }

  /** The reward of one sequence is capped at 1 + eps times its advantage per active token when that is not
      negative, and at 1 - eps times it otherwise. */
  lemma GainIsCapped(y: Scored, s: nat)
    requires y.Valid() && s < |y.x.tokens|
    ensures y.Count(s) >= 0.0
    ensures y.Gains()(s) <= Times(Times(if y.Advantage(s) >= 0.0 then 1.0 + y.x.clipEps else 1.0 - y.x.clipEps,
                                        y.Count(s)), y.Advantage(s))
  {
    var a, w, caps := y.Advantage(s), y.x.width, Caps(y, s);
    var cap := if a >= 0.0 then 1.0 + y.x.clipEps else 1.0 - y.x.clipEps;
    forall t ensures caps(t) == Times(cap, y.ActiveIn(s)(t)) {
      TimesUnits(cap);
    }
    SumTimes(y.ActiveIn(s), caps, cap, 0, w);
    SumNonNegative(y.ActiveIn(s), 0, w);
    var counted := Sum(y.CountedIn(s), 0, w);
    if a >= 0.0 {
      SumMono(y.CountedIn(s), caps, 0, w);
      MonotoneTimes(a, counted, Times(cap, y.Count(s)));
      TimesCommutes(a, counted);
      TimesCommutes(a, Times(cap, y.Count(s)));
    } else {
      SumMono(caps, y.CountedIn(s), 0, w);
      MonotoneTimes(-a, Times(cap, y.Count(s)), counted);
      Negates(counted, a);
      Negates(Times(cap, y.Count(s)), a);
    }
  }

  function Caps(y: Scored, s: int): int -> real
    requires y.Valid()
  {
    t => if !y.Active(s, t) then 0.0 else if y.Advantage(s) >= 0.0 then 1.0 + y.x.clipEps else 1.0 - y.x.clipEps
  }

  /** When only one sequence has active tokens, the policy loss is its own: minus the mean of its capped ratios
      times its advantage, and never below minus the cap. */
  lemma OneSequenceLoss(y: Scored, s: nat)
    requires y.Valid() && y.HasActive() && s < |y.x.tokens| && forall r, t | y.Active(r, t) :: r == s
    ensures y.Count(s) >= 1.0
    ensures y.Losses().policy == Ratio(-Times(Sum(y.CountedIn(s), 0, y.x.width), y.Advantage(s)), y.Count(s))
    ensures y.Losses().policy
         >= -Times(if y.Advantage(s) >= 0.0 then 1.0 + y.x.clipEps else 1.0 - y.x.clipEps, y.Advantage(s))
  {
    LossesAreMeans(y);
    OnlySequence(y, s);
    GainIsCapped(y, s);
    var cap := if y.Advantage(s) >= 0.0 then 1.0 + y.x.clipEps else 1.0 - y.x.clipEps;
    MeanIsCapped(y.Gains()(s), cap, y.Count(s), y.Advantage(s));
  }

  lemma OnlySequence(y: Scored, s: nat)
    requires y.Valid() && s < |y.x.tokens| && forall r, t | y.Active(r, t) :: r == s
    ensures y.Total() == y.Count(s) && Sum(y.Gains(), 0, |y.x.tokens|) == y.Gains()(s)
  {
    forall r | r != s ensures y.Counts()(r) == 0.0 && y.Gains()(r) == 0.0 {
      SumZero(y.ActiveIn(r), 0, y.x.width);
      SumZero(y.CountedIn(r), 0, y.x.width);
      TimesUnits(y.Advantage(r));
    }
    SumSingle(y.Counts(), 0, |y.x.tokens|, s);
    SumSingle(y.Gains(), 0, |y.x.tokens|, s);
  }

  lemma MeanIsCapped(gain: real, cap: real, n: real, a: real)
    requires n > 0.0 && gain <= Times(Times(cap, n), a)
    ensures Ratio(-gain, n) >= -Times(cap, a)
  {
    var q := -gain / n;
    assert q * n == -gain;
    assert (q + cap * a) * n == -gain + cap * n * a;
  }
}
