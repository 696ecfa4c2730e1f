/** The GRPO loss end to end: the fused path against the native one. */
module GrpoLoss {
  import opened RealFunctions
  import opened GroupLayout
  import GroupAdvantages
  import opened RatioKl

  /** One call: a batch of token rows, their rewards, and the hyperparameters. */
  datatype Problem = Problem(tokens: seq<seq<Token>>, rewards: seq<real>, v: nat, width: nat, spec: Spec,
                             eps: real, clipEps: real, beta: real) {
    predicate Valid() {
      && v > 0 && eps > 0.0 && |tokens| == |rewards|
      && forall s | 0 <= s < |tokens| :: |tokens[s]| == width && forall t | 0 <= t < width :: tokens[s][t].Valid(v)
    }

    predicate InRange() { forall s, t | 0 <= s < |tokens| && 0 <= t < |tokens[s]| :: tokens[s][t].InRange() }
  }

  /** The per-token outputs of the ratio and KL op, with the mask. */
  datatype Cell = Cell(ratio: real, kl: real, active: bool)

  datatype Losses = Losses(loss: real, policy: real, kl: real)

  datatype Outcome = Done(losses: Losses) | BadSpec(error: Error) | InvalidActions

  // ----- the loss layer, shared by both paths ----------------------------------------------------

  /** -min(ratio * adv, clamp(ratio, 1 - eps, 1 + eps) * adv), with masked advantages zeroed. */
  function PolicyTerm(c: Cell, adv: real, clipEps: real): real {
    var a := if c.active then adv else 0.0;
    -MinReal(Times(c.ratio, a), Times(ClampReal(c.ratio, 1.0 - clipEps, 1.0 + clipEps), a))
  }

  /** The masked entries of one row, as terms to sum. */
  function PolicyEntries(cells: seq<seq<Cell>>, adv: Vec, clipEps: real, s: int): int -> real {
    t => if 0 <= s < |cells| && 0 <= t < |cells[s]| && cells[s][t].active
         then PolicyTerm(cells[s][t], At(adv, s), clipEps) else 0.0
  }

  function KlEntries(cells: seq<seq<Cell>>, s: int): int -> real {
    t => if 0 <= s < |cells| && 0 <= t < |cells[s]| && cells[s][t].active then cells[s][t].kl else 0.0
  }

  function ActiveEntries(cells: seq<seq<Cell>>, s: int): int -> real {
    t => if 0 <= s < |cells| && 0 <= t < |cells[s]| && cells[s][t].active then 1.0 else 0.0
  }

  function PolicyRows(cells: seq<seq<Cell>>, adv: Vec, clipEps: real, width: nat): int -> real {
    s => Sum(PolicyEntries(cells, adv, clipEps, s), 0, width)
  }

  function KlRows(cells: seq<seq<Cell>>, width: nat): int -> real { s => Sum(KlEntries(cells, s), 0, width) }

  function ActiveRows(cells: seq<seq<Cell>>, width: nat): int -> real { s => Sum(ActiveEntries(cells, s), 0, width) }

  /** The mask's count, clamped away from zero. */
  function Denominator(cells: seq<seq<Cell>>, width: nat): (d: real)
    ensures d > 0.0
  {
    MaxReal(Sum(ActiveRows(cells, width), 0, |cells|), 0.00000001)
  }

  function LossesOf(cells: seq<seq<Cell>>, adv: Vec, clipEps: real, beta: real, width: nat): Losses {
    var policy := Ratio(Sum(PolicyRows(cells, adv, clipEps, width), 0, |cells|), Denominator(cells, width));
    var kl := Ratio(Sum(KlRows(cells, width), 0, |cells|), Denominator(cells, width));
    Losses(policy + Times(beta, kl), policy, kl)
  }

  // ----- the native path -------------------------------------------------------------------------

  function NativeCell(fns: RealFns, x: Token): Cell
    requires |x.policy| > 0 && x.Valid(|x.policy|)
  {
    Cell(Native(fns, x).0, Native(fns, x).1, x.active)
  }

  function NativeCells(fns: RealFns, x: Problem): seq<seq<Cell>>
    requires x.Valid()
  {
    seq(|x.tokens|, s requires 0 <= s < |x.tokens| =>
      seq(x.width, t requires 0 <= t < x.width => NativeCell(fns, x.tokens[s][t])))
  }

  function NativeAdvantagesOf(fns: RealFns, x: Problem, ids: seq<int>): Vec
    requires fns.Lawful() && x.Valid() && |ids| == |x.rewards|
  {
    seq(|x.rewards|, i requires 0 <= i < |x.rewards| => GroupAdvantages.NativeAdvantage(fns, x.rewards, ids, x.eps, i))
  }

  /** NativeGRPOLossOp.forward: the grouping is checked first, then the active action ids. */
  function NativeResult(fns: RealFns, x: Problem): Outcome
    requires fns.Lawful() && x.Valid()
  {
    var ids := ResolveIds(|x.rewards|, x.spec);
    if ids.Err? then BadSpec(ids.error)
    else if !x.InRange() then InvalidActions
    else
      IdsValid(|x.rewards|, x.spec);
      Done(LossesOf(NativeCells(fns, x), NativeAdvantagesOf(fns, x, ids.value), x.clipEps, x.beta, x.width))
  }

  lemma IdsValid(n: nat, spec: Spec)
    requires ResolveIds(n, spec).Ok?
    ensures |ResolveIds(n, spec).value| == n && forall i | 0 <= i < n :: ResolveIds(n, spec).value[i] >= 0
  {
    if spec.boundaries.Some? {
      SizesTelescope(spec.boundaries.value);
      RepeatedLength(spec.boundaries.value);
      RepeatedNonNegative(spec.boundaries.value);
    }
  }

  lemma {:induction false} RepeatedNonNegative(b: seq<int>)
    requires SizesPositive(b)
    ensures forall i | 0 <= i < |Repeated(b)| :: Repeated(b)[i] >= 0
    decreases |b|
  {
    if |b| >= 2 {
      RepeatedNonNegative(b[..|b| - 1]);
    }
  }

  // ----- the fused path --------------------------------------------------------------------------

  function FusedCell(fns: RealFns, x: Token): Cell
    requires |x.policy| > 0 && x.Valid(|x.policy|)
  {
    Cell(Fused(fns, x).ratio, Fused(fns, x).kl, x.active)
  }

  function FusedCells(fns: RealFns, x: Problem): seq<seq<Cell>>
    requires x.Valid()
  {
    seq(|x.tokens|, s requires 0 <= s < |x.tokens| =>
      seq(x.width, t requires 0 <= t < x.width => FusedCell(fns, x.tokens[s][t])))
  }

  lemma FusedCellsAreNative(fns: RealFns, x: Problem)
    requires fns.Lawful() && x.Valid() && x.InRange()
    ensures FusedCells(fns, x) == NativeCells(fns, x)
  {
    forall s | 0 <= s < |x.tokens|
      ensures FusedCells(fns, x)[s] == NativeCells(fns, x)[s]
    {
      forall t | 0 <= t < x.width
        ensures FusedCells(fns, x)[s][t] == NativeCells(fns, x)[s][t]
      {
        assert x.tokens[s][t].InRange();
        RatioKl.FusedIsNative(fns, x.tokens[s][t]);
      }
    }
  }

  lemma FusedAdvantagesAreNative(fns: RealFns, x: Problem, adv: Vec)
    requires fns.Lawful() && x.Valid() && BuildBounds(|x.rewards|, x.spec).Ok? && |adv| == |x.rewards|
    requires var b := BuildBounds(|x.rewards|, x.spec).value.0;
             forall g | 0 <= g < |b| - 1 :: GroupAdvantages.GroupDone(fns, x.rewards, b, x.eps, g, adv)
    ensures ResolveIds(|x.rewards|, x.spec).Ok? && |ResolveIds(|x.rewards|, x.spec).value| == |x.rewards|
    ensures adv == NativeAdvantagesOf(fns, x, ResolveIds(|x.rewards|, x.spec).value)
  {
    var n := |x.rewards|;
    BoundsAcceptIff(n, x.spec);
    CutsFromBounds(n, x.spec);
    IdsValid(n, x.spec);
    var b, ids := BuildBounds(n, x.spec).value.0, ResolveIds(n, x.spec).value;
    forall i | 0 <= i < n
      ensures adv[i] == GroupAdvantages.NativeAdvantage(fns, x.rewards, ids, x.eps, i)
    {
      var g := GroupOf(b, i);
      assert GroupAdvantages.GroupDone(fns, x.rewards, b, x.eps, g, adv);
      GroupAdvantages.FusedIsNative(fns, x.rewards, x.spec, x.eps, g, i);
    }
  }

  /** One row of the ratio and KL launch. */
  method FusedRow(fns: RealFns, row: seq<Token>, v: nat, block: nat) returns (cells: seq<Cell>)
    requires fns.Lawful() && v > 0 && block > 0 && forall t | 0 <= t < |row| :: row[t].Valid(v)
    ensures |cells| == |row| && forall t | 0 <= t < |row| :: row[t].Valid(v) && cells[t] == FusedCell(fns, row[t])
  {
    cells := [];
    for t := 0 to |row|
      invariant |cells| == t && forall k | 0 <= k < t :: row[k].Valid(v) && cells[k] == FusedCell(fns, row[k])
    {
      var out := ForwardProgram(fns, row[t], v, block);
      cells := cells + [Cell(out.ratio, out.kl, row[t].active)];
    }
  }

  /** TritonGRPOLossOp.forward, for every tile width of the vocabulary loop. It differs from the native op only
      in what it accepts: wherever it accepts the grouping, it returns the native loss, policy loss and KL if and
      only if the active actions are in the vocabulary (the native op refuses the others, this one clamps). */
  method FusedForward(fns: RealFns, x: Problem, block: nat) returns (res: Outcome)
    requires fns.Lawful() && x.Valid() && block > 0
    ensures
      match BuildBounds(|x.rewards|, x.spec)
      case Err(error) => res == BadSpec(error)
      case Ok(_) =>
        && res.Done? && ResolveIds(|x.rewards|, x.spec).Ok? && |ResolveIds(|x.rewards|, x.spec).value| == |x.rewards|
        && res.losses == LossesOf(FusedCells(fns, x), NativeAdvantagesOf(fns, x, ResolveIds(|x.rewards|, x.spec).value),
                                  x.clipEps, x.beta, x.width)
        && (x.InRange() <==> res == NativeResult(fns, x))
  {
    var adv := GroupAdvantages.FusedAdvantages(fns, x.rewards, x.spec, x.eps);
    if adv.Err? {
      return BadSpec(adv.error);
    }
    FusedAdvantagesAreNative(fns, x, adv.value);
    var cells: seq<seq<Cell>> := [];
    for s := 0 to |x.tokens|
      invariant |cells| == s && forall k | 0 <= k < s :: cells[k] == FusedCells(fns, x)[k]
    {
      var row := FusedRow(fns, x.tokens[s], x.v, block);
      cells := cells + [row];
    }
    assert cells == FusedCells(fns, x);
    res := Done(LossesOf(cells, adv.value, x.clipEps, x.beta, x.width));
    if x.InRange() {
      FusedCellsAreNative(fns, x);
    }
  }

  /** NativeGRPOLossOp.forward. */
  method NativeForward(fns: RealFns, x: Problem) returns (res: Outcome)
    requires fns.Lawful() && x.Valid()
    ensures res == NativeResult(fns, x)
  {
    var ids := ResolveIds(|x.rewards|, x.spec);
    if ids.Err? {
      return BadSpec(ids.error);
    }
    IdsValid(|x.rewards|, x.spec);
    var adv := GroupAdvantages.NativeAdvantages(fns, x.rewards, ids.value, x.eps);
    if !x.InRange() {
      return InvalidActions;
    }
    assert adv == NativeAdvantagesOf(fns, x, ids.value);
    res := Done(LossesOf(NativeCells(fns, x), adv, x.clipEps, x.beta, x.width));
  }

  // ----- what the loss guarantees ----------------------------------------------------------------

  /** The mean KL is nonnegative, so with a nonnegative beta the loss is at least the policy loss. */
  lemma KlMeanIsNonNegative(fns: RealFns, x: Problem)
    requires fns.Lawful() && x.Valid() && NativeResult(fns, x).Done?
    ensures NativeResult(fns, x).losses.kl >= 0.0
    ensures x.beta >= 0.0 ==> NativeResult(fns, x).losses.loss >= NativeResult(fns, x).losses.policy
  {
    var cells := NativeCells(fns, x);
    forall s | 0 <= s < |cells|
      ensures KlRows(cells, x.width)(s) >= 0.0
    {
      forall t | 0 <= t < x.width
        ensures KlEntries(cells, s)(t) >= 0.0
      {
        NativeKlNonNegative(fns, x.tokens[s][t]);
      }
      SumNonNegative(KlEntries(cells, s), 0, x.width);
    }
    SumNonNegative(KlRows(cells, x.width), 0, |cells|);
    RatioSign(Sum(KlRows(cells, x.width), 0, |cells|), Denominator(cells, x.width));
    if x.beta >= 0.0 {
      MonotoneTimes(x.beta, 0.0, NativeResult(fns, x).losses.kl);
      TimesUnits(x.beta);
    }
  }

  lemma NativeKlNonNegative(fns: RealFns, x: Token)
    requires fns.Lawful() && |x.policy| > 0 && x.Valid(|x.policy|)
    ensures Native(fns, x).1 >= 0.0
  {
    var a := if x.active then x.action else 0;
    KlIsNonNegative(fns, if x.active then SelectedLogp(fns, x.reference, a) - SelectedLogp(fns, x.policy, a) else 0.0);
  }

  /** The clipped surrogate is pessimistic: the term is never below the unclipped one, and its reward is capped
      at (1 + eps) * adv for a good action and at (1 - eps) * adv for a bad one. */
  lemma SurrogateIsPessimistic(c: Cell, adv: real, clipEps: real)
    requires c.active && clipEps >= 0.0
    ensures PolicyTerm(c, adv, clipEps) >= -Times(c.ratio, adv)
    ensures adv >= 0.0 ==> -PolicyTerm(c, adv, clipEps) <= Times(1.0 + clipEps, adv)
    ensures adv <= 0.0 ==> -PolicyTerm(c, adv, clipEps) <= Times(1.0 - clipEps, adv)
  {
    var clamped := ClampReal(c.ratio, 1.0 - clipEps, 1.0 + clipEps);
    if adv >= 0.0 {
      MonotoneTimes(adv, clamped, 1.0 + clipEps);
      TimesCommutes(adv, clamped);
      TimesCommutes(adv, 1.0 + clipEps);
    }
    if adv <= 0.0 {
      MonotoneTimes(-adv, 1.0 - clipEps, clamped);
      assert Times(-adv, clamped) == -Times(clamped, adv);
      assert Times(-adv, 1.0 - clipEps) == -Times(1.0 - clipEps, adv);
    }
  }
}
