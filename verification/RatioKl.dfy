/** The fused policy-ratio and KL kernel: two online softmax streams per token, and its backward. */
module RatioKl {
  import opened Integers
  import opened RealFunctions
  import opened Softmax

  /** One token: its policy and reference logits, the action, whether it is active, and the old logp. */
  datatype Token = Token(policy: Vec, reference: Vec, action: int, active: bool, oldLogp: real) {
    predicate Valid(v: nat) { |policy| == |reference| == v }

    predicate InRange() { active ==> 0 <= action < |policy| }
  }

  // ----- the reference ---------------------------------------------------------------------------

  function Row(z: Vec): int -> Ext { j => Fin(At(z, j)) }

  function LogZ(fns: RealFns, z: Vec): real
    requires |z| > 0
  {
    FiniteMax(Row(z), 0, |z|);
    LogSumExp(fns, Row(z), 0, |z|)
  }

  /** log_softmax, then gather. */
  function SelectedLogp(fns: RealFns, z: Vec, a: int): real
    requires |z| > 0
  {
    At(z, a) - LogZ(fns, z)
  }

  function Kl(fns: RealFns, diff: real): real { fns.exp(diff) - diff - 1.0 }

  /** NativeRatioKLOp.forward at one token: (ratio, kl). Masked tokens gather at 0 and are then zeroed. */
  function Native(fns: RealFns, x: Token): (real, real)
    requires |x.policy| > 0 && x.Valid(|x.policy|)
  {
    var a := if x.active then x.action else 0;
    var logpPolicy, logpRef := SelectedLogp(fns, x.policy, a), SelectedLogp(fns, x.reference, a);
    var delta, diff := if x.active then logpPolicy - x.oldLogp else 0.0, if x.active then logpRef - logpPolicy else 0.0;
    (fns.exp(delta), Kl(fns, diff))
  }

  // ----- the streamed row ------------------------------------------------------------------------

  /** A row as the tiles see it: lanes at and past V are loaded as minus infinity. */
  function Padded(z: Vec): int -> Ext { j => if 0 <= j < |z| then Fin(z[j]) else NegInf }

  function Tile(z: Vec, start: nat): int -> Ext { j => if 0 <= start + j < |z| then Fin(z[start + j]) else NegInf }

  /** One tile folded into one stream. */
  lemma TileKeeps(fns: RealFns, z: Vec, start: nat, block: nat, m: Ext, s: real)
    requires fns.Lawful() && start < |z| && block > 0 && OnlineInv(fns, Padded(z), 0, start, m, s)
    ensures TileFolded(fns, Padded(z), Tile(z, start), block, start + block, m, s)
  {
    PaddedTileKeeps(fns, Padded(z), Tile(z, start), start, block, m, s);
  }

  /** Past the end of the row, the stream's state is the row's log-sum-exp. */
  lemma StreamGivesLogZ(fns: RealFns, z: Vec, n: nat, m: Ext, s: real)
    requires fns.Lawful() && 0 < |z| <= n && m.Fin? && OnlineInv(fns, Padded(z), 0, n, m, s)
    ensures m.value + fns.log(s) == LogZ(fns, z)
  {
    MaskedTail(fns, Padded(z), 0, |z|, n);
    MaxCong(Padded(z), Row(z), 0, |z|);
    SumCong(Weights(fns, Padded(z), m.value), Weights(fns, Row(z), m.value), 0, |z|);
  }

  // ----- the forward kernel ----------------------------------------------------------------------

  datatype Stored = Stored(ratio: real, kl: real, diff: real, logz: real)

  /** What the kernel stores for one token, in terms of whole-row log-sum-exps. The wrapper has clamped the
      action to the vocabulary. */
  function Fused(fns: RealFns, x: Token): Stored
    requires |x.policy| > 0 && x.Valid(|x.policy|)
  {
    if !x.active then Stored(1.0, 0.0, 0.0, 0.0)
    else
      var a := Clamp(x.action, 0, |x.policy| - 1);
      var logpPolicy, logpRef := SelectedLogp(fns, x.policy, a), SelectedLogp(fns, x.reference, a);
      Stored(fns.exp(logpPolicy - x.oldLogp), Kl(fns, logpRef - logpPolicy), logpRef - logpPolicy, LogZ(fns, x.policy))
  }

  /** One program of _ratio_kl_fwd_kernel: both rows streamed in one pass, for every tile width. */
  method ForwardProgram(fns: RealFns, x: Token, v: nat, block: nat) returns (out: Stored)
    requires fns.Lawful() && v > 0 && x.Valid(v) && block > 0
    ensures out == Fused(fns, x)
  {
    if !x.active {
      return Stored(1.0, 0.0, 0.0, 0.0);
    }
    var a := Clamp(x.action, 0, v - 1);
    var logzP, logzR := StreamRows(fns, x.policy, x.reference, v, block);
    var logpP, logpR := x.policy[a] - logzP, x.reference[a] - logzR;
    var d := logpR - logpP;
    out := Stored(fns.exp(logpP - x.oldLogp), fns.exp(d) - d - 1.0, d, logzP);
  }

  /** The one loop over vocabulary tiles, which streams the policy's and the reference's row. */
  method StreamRows(fns: RealFns, policy: Vec, reference: Vec, v: nat, block: nat) returns (logzP: real, logzR: real)
    requires fns.Lawful() && |policy| == |reference| == v > 0 && block > 0
    ensures logzP == LogZ(fns, policy) && logzR == LogZ(fns, reference)
  {
    var maxP, sumP, maxR, sumR := NegInf, 0.0, NegInf, 0.0;
    var start: nat := 0;
    while start < v
      invariant OnlineInv(fns, Padded(policy), 0, start, maxP, sumP)
      invariant OnlineInv(fns, Padded(reference), 0, start, maxR, sumR)
      invariant start > 0 ==> maxP.Fin? && maxR.Fin?
    {
      TileKeeps(fns, policy, start, block, maxP, sumP);
      TileKeeps(fns, reference, start, block, maxR, sumR);
      var (nmaxP, nsumP) := FoldTile(fns, Tile(policy, start), 0, block, maxP, sumP);
      var (nmaxR, nsumR) := FoldTile(fns, Tile(reference, start), 0, block, maxR, sumR);
      maxP, sumP, maxR, sumR := nmaxP, nsumP, nmaxR, nsumR;
      start := start + block;
    }
    StreamGivesLogZ(fns, policy, start, maxP, sumP);
    StreamGivesLogZ(fns, reference, start, maxR, sumR);
    logzP, logzR := maxP.value + fns.log(sumP), maxR.value + fns.log(sumR);
  }

  /** The kernel is the native op at every token whose active action is in the vocabulary; masked tokens give
      ratio one and KL zero whatever their logits and action hold. */
  lemma FusedIsNative(fns: RealFns, x: Token)
    requires fns.Lawful() && |x.policy| > 0 && x.Valid(|x.policy|) && x.InRange()
    ensures (Fused(fns, x).ratio, Fused(fns, x).kl) == Native(fns, x)
    ensures !x.active ==> Native(fns, x) == (1.0, 0.0)
  {
    ExpZero(fns);
  }

  /** A softmax probability of a row of logits. */
  function ActionProb(fns: RealFns, z: Vec, a: int): real
    requires fns.Lawful() && |z| > 0
  {
    FiniteMax(Row(z), 0, |z|);
    SoftmaxAt(fns, Row(z), 0, |z|, a)
  }

  lemma SelectedIsLogProb(fns: RealFns, z: Vec, a: nat)
    requires fns.Lawful() && a < |z|
    ensures fns.exp(SelectedLogp(fns, z, a)) == ActionProb(fns, z, a)
  {
    FiniteMax(Row(z), 0, |z|);
    SoftmaxForms(fns, Row(z), 0, |z|, 0.0, a);
  }

  /** What an active token's two numbers mean: the ratio is the action's policy probability over the one it was
      sampled with, and kl is r - log r - 1 for r the reference probability over the policy's. */
  lemma RatioAndKlMeaning(fns: RealFns, x: Token, r: real)
    requires fns.Lawful() && |x.policy| > 0 && x.Valid(|x.policy|) && x.active && x.InRange()
    requires r > 0.0 && Times(r, ActionProb(fns, x.policy, x.action)) == ActionProb(fns, x.reference, x.action)
    ensures Times(Native(fns, x).0, fns.exp(x.oldLogp)) == ActionProb(fns, x.policy, x.action)
    ensures Native(fns, x).1 == r - fns.log(r) - 1.0
  {
    var logp, logpRef := SelectedLogp(fns, x.policy, x.action), SelectedLogp(fns, x.reference, x.action);
    SelectedIsLogProb(fns, x.policy, x.action);
    SelectedIsLogProb(fns, x.reference, x.action);
    ExpAddTimes(fns, logp - x.oldLogp, x.oldLogp);
    assert logp - x.oldLogp + x.oldLogp == logp;
    ExpAddTimes(fns, logpRef - logp, logp);
    assert logpRef - logp + logp == logpRef;
    ExpPositive(fns, logp);
    RatioUnique(r, fns.exp(logpRef), fns.exp(logp));
    RatioUnique(fns.exp(logpRef - logp), fns.exp(logpRef), fns.exp(logp));
    LogOfExp(fns, logpRef - logp);
  }

  /** Every KL term is nonnegative, and zero exactly when the two log-probabilities agree. */
  lemma KlIsNonNegative(fns: RealFns, diff: real)
    requires fns.Lawful()
    ensures Kl(fns, diff) >= 0.0
    ensures Kl(fns, diff) == 0.0 <==> diff == 0.0
  {
    ExpZero(fns);
    if diff != 0.0 {
      AboveTangent(fns, diff / 2.0);
      assert diff / 2.0 + diff / 2.0 == diff;
    }
  }

  /** Away from zero the exponential is strictly above its tangent. */
  lemma AboveTangent(fns: RealFns, half: real)
    requires fns.Lawful() && half != 0.0
    ensures fns.exp(half + half) > 1.0 + (half + half)
  {
    ExpPositive(fns, half + half);
    assert fns.TangentLaw(half);
    ExpAddTimes(fns, half, half);
    if 1.0 + half >= 0.0 {
      SquareAboveTangent(fns.exp(half), half);
    }
  }

  lemma SquareAboveTangent(y: real, half: real)
    requires y >= 1.0 + half >= 0.0 && half != 0.0
    ensures Times(y, y) > 1.0 + (half + half)
  {
    var base := 1.0 + half;
    MonotoneTimes(y, base, y);
    MonotoneTimes(base, base, y);
    TimesCommutes(y, base);
    TimesDistributes(base, 1.0, half);
    TimesDistributes(half, 1.0, half);
    TimesUnits(base);
    TimesUnits(half);
    SquareSign(half);
  }
}
