/** The backward of the fused ratio and KL kernel: one scaled onehot-minus-softmax row per active token. */
module RatioKlBackward {
  import opened Integers
  import opened Options
  import opened RealFunctions
  import opened Softmax
  import opened LinearLogp
  import opened LinearLogpBackward
  import opened RatioKl

  /** What one program loads: the token, what its forward stored, and the two incoming gradients. */
  datatype Incoming = Incoming(x: Token, saved: Stored, gradRatio: real, gradKl: real)

  /** c = g_ratio * ratio + g_kl * (1 - exp(d)) */
  function Coefficient(fns: RealFns, y: Incoming): real {
    Times(y.gradRatio, y.saved.ratio) + Times(y.gradKl, 1.0 - fns.exp(y.saved.diff))
  }

  function GradAt(fns: RealFns, y: Incoming, c: real, a: int, j: nat): real
    requires j < |y.x.policy|
  {
    Times((if j == a then 1.0 else 0.0) - fns.exp(y.x.policy[j] - y.saved.logz), c)
  }

  /** One program of _ratio_kl_bwd_kernel, on its row of a zero-filled gradient. */
  method BackwardProgram(fns: RealFns, y: Incoming, v: nat, block: nat, grad: array2<real>, row: nat)
    requires y.x.Valid(v) && v > 0 && block > 0 && row < grad.Length0 && grad.Length1 == v
    modifies grad
    ensures forall i, j | 0 <= i < grad.Length0 && 0 <= j < v ::
              grad[i, j] == if i == row && y.x.active
                            then GradAt(fns, y, Coefficient(fns, y), Clamp(y.x.action, 0, v - 1), j)
                            else old(grad[i, j])
  {
    if y.x.active {
      var a := Clamp(y.x.action, 0, v - 1);
      var c := Times(y.gradRatio, y.saved.ratio) + Times(y.gradKl, 1.0 - fns.exp(y.saved.diff));
      var start: nat := 0;
      while start < v
        invariant forall i, j | 0 <= i < grad.Length0 && 0 <= j < v ::
                    grad[i, j] == if i == row && j < start then GradAt(fns, y, c, a, j) else old(grad[i, j])
      {
        forall j | start <= j < start + block && j < v {
          grad[row, j] := Times((if j == a then 1.0 else 0.0) - fns.exp(y.x.policy[j] - y.saved.logz), c);
        }
        start := start + block;
      }
    }
  }

  // ----- logits as a head ------------------------------------------------------------------------

  /** A row of logits is the output of a head with one weight per entry on a unit hidden state. */
  function Table(z: Vec): LmHead { LmHead(seq(|z|, j requires 0 <= j < |z| => [z[j]]), None) }

  const UNIT: Vec := [1.0]

  lemma TableLogit(z: Vec, j: int)
    requires 0 <= j < |z|
    ensures Table(z).Logit(UNIT, j) == z[j]
  {
    var f := ProductTerms(UNIT, [z[j]]);
    assert Sum(f, 0, 1) == Sum(f, 0, 0) + f(0);
    assert f(0) == Times(1.0, z[j]) == z[j];
  }

  lemma TableLse(fns: RealFns, z: Vec)
    requires |z| > 0
    ensures LogSumExpOf(fns, Table(z), UNIT) == LogZ(fns, z)
  {
    FiniteMax(Row(z), 0, |z|);
    forall j | 0 <= j < |z|
      ensures Row(z)(j) == Table(z).Logits(UNIT)(j)
    {
      TableLogit(z, j);
    }
    MaxCong(Row(z), Table(z).Logits(UNIT), 0, |z|);
    var m := MaxOf(Row(z), 0, |z|).value;
    SumCong(Weights(fns, Row(z), m), Weights(fns, Table(z).Logits(UNIT), m), 0, |z|);
  }

  /** The kernel's row is the gradient of c * logp in the logits. */
  lemma GradIsDz(fns: RealFns, y: Incoming, c: real, a: int, j: nat)
    requires fns.Lawful() && j < |y.x.policy| && y.saved.logz == LogZ(fns, y.x.policy)
    ensures GradAt(fns, y, c, a, j) == Dz(fns, Table(y.x.policy), UNIT, a, c, j)
  {
    TableLogit(y.x.policy, j);
    TableLse(fns, y.x.policy);
    ProbIsExp(fns, Table(y.x.policy), UNIT, j);
  }

  /** Each active row's gradient sums to zero over the vocabulary. */
  lemma ActiveRowSumsToZero(fns: RealFns, y: Incoming, row: int -> real)
    requires fns.Lawful() && |y.x.policy| > 0 && y.saved.logz == LogZ(fns, y.x.policy)
    requires var a := Clamp(y.x.action, 0, |y.x.policy| - 1);
             forall j | 0 <= j < |y.x.policy| :: row(j) == GradAt(fns, y, Coefficient(fns, y), a, j)
    ensures Sum(row, 0, |y.x.policy|) == 0.0
  {
    var a := Clamp(y.x.action, 0, |y.x.policy| - 1);
    var c := Coefficient(fns, y);
    forall j | 0 <= j < |y.x.policy|
      ensures row(j) == Dz(fns, Table(y.x.policy), UNIT, a, c, j)
    {
      GradIsDz(fns, y, c, a, j);
    }
    DzSumsToZero(fns, Table(y.x.policy), UNIT, a, c, row);
  }

  // ----- the coefficient is the slope in the log-probability -------------------------------------

  /** Both outputs are convex in the policy log-probability; the kernel's factors are their slopes: moving
      the log-probability by u leaves each output on or above its tangent line. */
  lemma CoefficientsAreSlopes(fns: RealFns, logp: real, oldLogp: real, logpRef: real, u: real)
    requires fns.Lawful()
    ensures fns.exp(logp + u - oldLogp) >= fns.exp(logp - oldLogp) + Times(fns.exp(logp - oldLogp), u)
    ensures Kl(fns, logpRef - (logp + u)) >= Kl(fns, logpRef - logp) + Times(1.0 - fns.exp(logpRef - logp), u)
  {
    var delta, diff := logp - oldLogp, logpRef - logp;
    TangentBound(fns, delta, u);
    assert delta + u == logp + u - oldLogp;
    TangentBound(fns, diff, -u);
    assert diff + -u == logpRef - (logp + u);
    TimesDistributes(fns.exp(delta), 1.0, u);
    TimesDistributes(fns.exp(diff), 1.0, u);
    TimesDistributes(u, 1.0, fns.exp(diff));
    TimesUnits(fns.exp(delta));
    TimesUnits(fns.exp(diff));
    TimesUnits(u);
  }

  /** The outputs of an active token as functions of its policy log-probability, weighted by the two incoming
      gradients: g_ratio * exp(logp - old) + g_kl * (exp(ref - logp) - (ref - logp) - 1). */
  function Weighted(fns: RealFns, y: Incoming, logp: real, logpRef: real): real {
    Times(y.gradRatio, fns.exp(logp - y.x.oldLogp)) + Times(y.gradKl, fns.exp(logpRef - logp) - (logpRef - logp) - 1.0)
  }

  /** The chain rule: from what the forward stored, the coefficient is the derivative of the weighted outputs in
      the policy log-probability of the action. For nonnegative incoming gradients they are convex in it, and
      moving it by any u leaves them on or above the tangent line with that slope. */
  lemma CoefficientIsChainRule(fns: RealFns, y: Incoming, u: real)
    requires fns.Lawful() && |y.x.policy| > 0 && y.x.Valid(|y.x.policy|) && y.x.active && y.x.InRange()
    requires y.saved == Fused(fns, y.x) && y.gradRatio >= 0.0 && y.gradKl >= 0.0
    ensures var logp := SelectedLogp(fns, y.x.policy, y.x.action);
            var logpRef := SelectedLogp(fns, y.x.reference, y.x.action);
            && Times(y.gradRatio, y.saved.ratio) + Times(y.gradKl, y.saved.kl) == Weighted(fns, y, logp, logpRef)
            && Weighted(fns, y, logp + u, logpRef)
               >= Weighted(fns, y, logp, logpRef) + Times(Coefficient(fns, y), u)
  {
    var logp, logpRef := SelectedLogp(fns, y.x.policy, y.x.action), SelectedLogp(fns, y.x.reference, y.x.action);
    var ratio, slope := y.saved.ratio, 1.0 - fns.exp(y.saved.diff);
    CoefficientsAreSlopes(fns, logp, y.x.oldLogp, logpRef, u);
    WeightedTangent(y.gradRatio, fns.exp(logp + u - y.x.oldLogp), ratio, ratio, u);
    WeightedTangent(y.gradKl, Kl(fns, logpRef - (logp + u)), y.saved.kl, slope, u);
    TimesDistributes(u, Times(y.gradRatio, ratio), Times(y.gradKl, slope));
  }

  /** A tangent bound times a nonnegative weight. */
  lemma WeightedTangent(g: real, after: real, before: real, slope: real, u: real)
    requires g >= 0.0 && after >= before + Times(slope, u)
    ensures Times(g, after) >= Times(g, before) + Times(Times(g, slope), u)
  {
    MonotoneTimes(g, before + Times(slope, u), after);
    TimesDistributes(g, before, Times(slope, u));
    TimesRegroup(g, slope, u);
  }

  function StepTerms(fns: RealFns, z: Vec, z': Vec, a: int): int -> real
    requires |z| > 0
  {
    j => Times((if j == a then 1.0 else 0.0) - fns.exp(At(z, j) - LogZ(fns, z)), At(z', j) - At(z, j))
  }

  lemma StepIsDirection(fns: RealFns, z: Vec, z': Vec, a: nat, j: nat)
    requires fns.Lawful() && a < |z| == |z'| && j < |z|
    ensures StepTerms(fns, z, z', a)(j) == Pair(fns, Table(z), UNIT, Table(z'), UNIT).DirectionTerms(a)(j)
  {
    TableLogit(z, j);
    TableLogit(z', j);
    TableLse(fns, z);
    ProbIsExp(fns, Table(z), UNIT, j);
    TimesUnits((if j == a then 1.0 else 0.0) - Prob(fns, Table(z), UNIT, j));
  }

  /** The selected log-probability is concave in the logits, with onehot - softmax as its supergradient. */
  lemma SelectedLogpSupergradient(fns: RealFns, z: Vec, z': Vec, a: nat)
    requires fns.Lawful() && a < |z| == |z'|
    ensures SelectedLogp(fns, z', a) <= SelectedLogp(fns, z, a) + Sum(StepTerms(fns, z, z', a), 0, |z|)
  {
    var x := Pair(fns, Table(z), UNIT, Table(z'), UNIT);
    DzIsSupergradient(x, a);
    TableLogit(z, a);
    TableLogit(z', a);
    TableLse(fns, z);
    TableLse(fns, z');
    forall j | 0 <= j < |z|
      ensures StepTerms(fns, z, z', a)(j) == x.DirectionTerms(a)(j)
    {
      StepIsDirection(fns, z, z', a, j);
    }
    SumCong(StepTerms(fns, z, z', a), x.DirectionTerms(a), 0, |z|);
  }

  /** The stored row against a change of the policy logits. */
  function RowSteps(fns: RealFns, y: Incoming, c: real, a: int, z': Vec): int -> real {
    j => if 0 <= j < |y.x.policy| then Times(GradAt(fns, y, c, a, j), At(z', j) - y.x.policy[j]) else 0.0
  }

  lemma RowStep(fns: RealFns, y: Incoming, c: real, a: nat, z': Vec, j: nat)
    requires a < |y.x.policy| == |z'| && j < |z'| && y.saved.logz == LogZ(fns, y.x.policy)
    ensures RowSteps(fns, y, c, a, z')(j) == Times(c, StepTerms(fns, y.x.policy, z', a)(j))
  {
    var d := (if j == a then 1.0 else 0.0) - fns.exp(y.x.policy[j] - LogZ(fns, y.x.policy));
    TimesRegroup(d, c, z'[j] - y.x.policy[j]);
  }

  /** The row a program stores is the coefficient's gradient in the logits: for a nonnegative coefficient and
      every other policy row, the weighted log-probability changes by at most the inner product with it. */
  lemma RowIsSupergradient(fns: RealFns, y: Incoming, c: real, a: nat, z': Vec)
    requires fns.Lawful() && a < |y.x.policy| == |z'| && c >= 0.0 && y.saved.logz == LogZ(fns, y.x.policy)
    ensures Times(c, SelectedLogp(fns, z', a))
            <= Times(c, SelectedLogp(fns, y.x.policy, a)) + Sum(RowSteps(fns, y, c, a, z'), 0, |z'|)
  {
    var z, steps := y.x.policy, StepTerms(fns, y.x.policy, z', a);
    SelectedLogpSupergradient(fns, z, z', a);
    forall j | 0 <= j < |z| ensures RowSteps(fns, y, c, a, z')(j) == Times(c, steps(j)) {
      RowStep(fns, y, c, a, z', j);
    }
    SumTimes(steps, RowSteps(fns, y, c, a, z'), c, 0, |z|);
    MonotoneTimes(c, SelectedLogp(fns, z', a), SelectedLogp(fns, z, a) + Sum(steps, 0, |z|));
    TimesDistributes(c, SelectedLogp(fns, z, a), Sum(steps, 0, |z|));
  }
}
