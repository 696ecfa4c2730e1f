/** Why the backward's references are the gradients of the forward: each is tied to the scores, weights and
    outputs the forward computes, for every other query, key and value. */
module AttentionGradient {
  import opened RealFunctions
  import opened Softmax
  import opened Attention
  import opened AttentionMeaning
  import opened FlashForward
  import opened FlashBackward
  import RatioKl
  import RatioKlBackward

  function ScoreAt(x: Launch, q: Mat, k: Mat, i: int, j: int): real { Score(q, k, x.dim, x.scale, i, j) }

  // ----- through the scores ----------------------------------------------------------------------

  /** dS_ij against the change of score j of query i when the queries become q'. */
  function QueryScoreTerms(x: Launch, dO: Mat, i: int, q': Mat): int -> real
    requires x.Valid()
  {
    j => Times(DScore(x, dO, i, j), ScoreAt(x, q', x.k, i, j) - ScoreAt(x, x.q, x.k, i, j))
  }

  function QueryStepTerms(x: Launch, dO: Mat, i: int, q': Mat): int -> real
    requires x.Valid()
  {
    d => Times(DQuery(x, dO, i, d), q'(i, d) - x.q(i, d))
  }

  /** dS_ij against the change of the score of query i and key j when the keys become k'. */
  function KeyScoreTerms(x: Launch, dO: Mat, j: int, k': Mat): int -> real
    requires x.Valid()
  {
    i => Times(DScore(x, dO, i, j), ScoreAt(x, x.q, k', i, j) - ScoreAt(x, x.q, x.k, i, j))
  }

  function KeyStepTerms(x: Launch, dO: Mat, j: int, k': Mat): int -> real
    requires x.Valid()
  {
    d => Times(DKey(x, dO, j, d), k'(j, d) - x.k(j, d))
  }

  function StepProducts(x: Launch, dO: Mat, i: int, q': Mat): (int, int) -> real
    requires x.Valid()
  {
    (j, d) => Times(Times(Times(DScore(x, dO, i, j), x.scale), x.k(j, d)), q'(i, d) - x.q(i, d))
  }

  function KeyProducts(x: Launch, dO: Mat, j: int, k': Mat): (int, int) -> real
    requires x.Valid()
  {
    (i, d) => Times(Times(Times(DScore(x, dO, i, j), x.scale), x.q(i, d)), k'(j, d) - x.k(j, d))
  }

  /** One score's change times a factor, column by column. */
  lemma ScoreStep(a: Mat, b: Mat, other: Mat, dim: nat, scale: real, i: int, j: int, g: real, terms: int -> real)
    requires forall d | 0 <= d < dim :: terms(d) == Times(Times(Times(g, scale), other(j, d)), a(i, d) - b(i, d))
    ensures Times(g, Score(a, other, dim, scale, i, j) - Score(b, other, dim, scale, i, j)) == Sum(terms, 0, dim)
  {
    var step := DotTerms(MinusMat(a, b), i, other, j);
    ScoreSubtracts(a, b, other, dim, scale, i, j);
    forall d | 0 <= d < dim ensures terms(d) == Times(Times(g, scale), step(d)) {
      TimesRegroup(Times(g, scale), other(j, d), a(i, d) - b(i, d));
      TimesCommutes(other(j, d), a(i, d) - b(i, d));
    }
    SumTimes(step, terms, Times(g, scale), 0, dim);
    TimesRegroup(g, scale, Sum(step, 0, dim));
    TimesCommutes(scale, Sum(step, 0, dim));
  }

  /** dQ is the vector-Jacobian product of the scores the forward forms: for every other query row, dS against
      the change of its scores is dQ against the change of its entries. */
  lemma QueryGradientIsVjp(x: Launch, dO: Mat, i: int, q': Mat)
    requires x.Valid()
    ensures Sum(QueryScoreTerms(x, dO, i, q'), 0, x.nCtx) == Sum(QueryStepTerms(x, dO, i, q'), 0, x.dim)
  {
    var f := StepProducts(x, dO, i, q');
    forall j | 0 <= j < x.nCtx ensures QueryScoreTerms(x, dO, i, q')(j) == Sum(RowOf(f, j), 0, x.dim) {
      ScoreStep(q', x.q, x.k, x.dim, x.scale, i, j, DScore(x, dO, i, j), RowOf(f, j));
    }
    forall d | 0 <= d < x.dim ensures QueryStepTerms(x, dO, i, q')(d) == Sum(ColOf(f, d), 0, x.nCtx) {
      SumTimesRight(DqTerms(x, dO, i, d), ColOf(f, d), x.nCtx, q'(i, d) - x.q(i, d));
    }
    SumSwap(f, QueryScoreTerms(x, dO, i, q'), QueryStepTerms(x, dO, i, q'), 0, x.nCtx, 0, x.dim);
  }

  /** And dK is, for every other key row. */
  lemma KeyGradientIsVjp(x: Launch, dO: Mat, j: int, k': Mat)
    requires x.Valid()
    ensures Sum(KeyScoreTerms(x, dO, j, k'), 0, x.nCtx) == Sum(KeyStepTerms(x, dO, j, k'), 0, x.dim)
  {
    var f := KeyProducts(x, dO, j, k');
    forall i | 0 <= i < x.nCtx ensures KeyScoreTerms(x, dO, j, k')(i) == Sum(RowOf(f, i), 0, x.dim) {
      ScoreStep(k', x.k, x.q, x.dim, x.scale, j, i, DScore(x, dO, i, j), RowOf(f, i));
      ScoreSubtracts(x.q, x.q, k', x.dim, x.scale, i, j);
      ScoreSubtracts(x.q, x.q, x.k, x.dim, x.scale, i, j);
    }
    forall d | 0 <= d < x.dim ensures KeyStepTerms(x, dO, j, k')(d) == Sum(ColOf(f, d), 0, x.nCtx) {
      SumTimesRight(DkTerms(x, dO, j, d), ColOf(f, d), x.nCtx, k'(j, d) - x.k(j, d));
    }
    SumSwap(f, KeyScoreTerms(x, dO, j, k'), KeyStepTerms(x, dO, j, k'), 0, x.nCtx, 0, x.dim);
  }

  // ----- through the values ----------------------------------------------------------------------

  /** dO_id against the change of output element (i, d) when the values become v'. */
  function OutputTerms(x: Launch, dO: Mat, d: nat, v': Mat): int -> real
    requires x.Valid()
  {
    i => Times(OutputAt(x.(v := v'), i, d) - OutputAt(x, i, d), dO(i, d))
  }

  /** An output element of a prefill, which always is a number. */
  function OutputAt(x: Launch, i: int, d: nat): real
    requires x.Valid()
  {
    if 0 <= i < x.nCtx && NaiveOutput(x, i, d).Real? then NaiveOutput(x, i, d).value else 0.0
  }

  function ValueStepTerms(x: Launch, dO: Mat, d: nat, v': Mat): int -> real
    requires x.Valid()
  {
    j => Times(DValue(x, dO, j, d), v'(j, d) - x.v(j, d))
  }

  function ValueProducts(x: Launch, dO: Mat, d: nat, v': Mat): (int, int) -> real
    requires x.Valid()
  {
    (i, j) => Times(Times(Prob(x, i, j), dO(i, d)), v'(j, d) - x.v(j, d))
  }

  function Weighted(x: Launch, i: nat, d: nat, v: Mat, g: real): int -> real
    requires x.Valid()
  {
    j => Times(Times(Prob(x, i, j), v(j, d)), g)
  }

  lemma OutputStep(x: Launch, i: nat, d: nat, v': Mat, g: real, terms: int -> real)
    requires x.Valid() && i < x.nCtx
    requires forall j | 0 <= j < x.nCtx :: terms(j) == Times(Times(Prob(x, i, j), g), v'(j, d) - x.v(j, d))
    ensures Times(OutputAt(x.(v := v'), i, d) - OutputAt(x, i, d), g) == Sum(terms, 0, x.nCtx)
  {
    var y, new', old' := x.(v := v'), Weighted(x, i, d, v', g), Weighted(x, i, d, x.v, g);
    forall j | 0 <= j < x.nCtx ensures Prob(y, i, j) == Prob(x, i, j) {
      assert NaiveScores(y, i) == NaiveScores(x, i);
    }
    OutputIsWeightedValues(y, i, d, g, new');
    OutputIsWeightedValues(x, i, d, g, old');
    forall j | 0 <= j < x.nCtx ensures new'(j) == old'(j) + terms(j) {
      WeightedStep(Prob(x, i, j), v'(j, d), x.v(j, d), g);
    }
    SumAdd(old', terms, new', 0, x.nCtx);
    TimesDistributes(g, OutputAt(y, i, d), OutputAt(x, i, d));
  }

  lemma WeightedStep(p: real, a: real, b: real, g: real)
    ensures Times(Times(p, a), g) == Times(Times(p, b), g) + Times(Times(p, g), a - b)
  {
    assert p * a * g == p * b * g + p * g * (a - b);
  }

  /** dV is the gradient of the output, which is linear in the values: for all other values, dO against the
      change of a column of the output is dV against the change of that column of the values. */
  lemma ValueGradientIsExact(x: Launch, dO: Mat, d: nat, v': Mat)
    requires x.Valid()
    ensures Sum(OutputTerms(x, dO, d, v'), 0, x.nCtx) == Sum(ValueStepTerms(x, dO, d, v'), 0, x.nCtx)
  {
    var f := ValueProducts(x, dO, d, v');
    forall i | 0 <= i < x.nCtx ensures OutputTerms(x, dO, d, v')(i) == Sum(RowOf(f, i), 0, x.nCtx) {
      OutputStep(x, i, d, v', dO(i, d), RowOf(f, i));
    }
    forall j | 0 <= j < x.nCtx ensures ValueStepTerms(x, dO, d, v')(j) == Sum(ColOf(f, j), 0, x.nCtx) {
      SumTimesRight(DvTerms(x, dO, j, d), ColOf(f, j), x.nCtx, v'(j, d) - x.v(j, d));
    }
    SumSwap(f, OutputTerms(x, dO, d, v'), ValueStepTerms(x, dO, d, v'), 0, x.nCtx, 0, x.nCtx);
  }

  // ----- through the weights ---------------------------------------------------------------------

  /** How many keys query i sees. */
  function SeenBy(x: Launch, i: nat): nat { if x.causal then i + 1 else x.nCtx }

  /** The scores of the keys query i sees. */
  function Seen(x: Launch, i: nat): Vec { seq(SeenBy(x, i), j => ScoreAt(x, x.q, x.k, i, j)) }

  lemma SeenMass(x: Launch, i: nat)
    requires x.Valid() && i < x.nCtx
    ensures |Seen(x, i)| == SeenBy(x, i) > 0
    ensures MaxOf(NaiveScores(x, i), 0, x.nCtx).Fin? && MaxOf(RatioKl.Row(Seen(x, i)), 0, SeenBy(x, i)).Fin?
    ensures SumExp(x.fns, NaiveScores(x, i), 0.0, 0, x.nCtx)
         == SumExp(x.fns, RatioKl.Row(Seen(x, i)), 0.0, 0, SeenBy(x, i))
  {
    var w, z, n := NaiveScores(x, i), RatioKl.Row(Seen(x, i)), SeenBy(x, i);
    FiniteMax(w, 0, x.nCtx);
    FiniteMax(z, 0, n);
    MaskedTail(x.fns, w, 0, n, x.nCtx);
    SumCong(Weights(x.fns, w, 0.0), Weights(x.fns, z, 0.0), 0, n);
  }

  /** The weights are the softmax of the seen scores: their logs are the selected log-probabilities. */
  lemma ProbIsSelected(x: Launch, i: nat, j: nat)
    requires x.Valid() && i < x.nCtx && j < x.nCtx
    ensures |Seen(x, i)| > 0
    ensures Prob(x, i, j)
         == if j < SeenBy(x, i) then x.fns.exp(RatioKl.SelectedLogp(x.fns, Seen(x, i), j)) else 0.0
  {
    SeenMass(x, i);
    LogSumExpMeaning(x.fns, NaiveScores(x, i), 0, x.nCtx);
    LogSumExpMeaning(x.fns, RatioKl.Row(Seen(x, i)), 0, SeenBy(x, i));
    SoftmaxForms(x.fns, NaiveScores(x, i), 0, x.nCtx, 0.0, j);
  }

  /** The change of score j against the derivative of log P_ik in it. */
  function LogWeightTerms(x: Launch, y: Launch, i: nat, k: nat): int -> real
    requires x.Valid()
  {
    j => Times(Delta(k, j) - Prob(x, i, j), ScoreAt(y, y.q, y.k, i, j) - ScoreAt(x, x.q, x.k, i, j))
  }

  /** Another launch of the same shape, with other queries, keys and scale. */
  ghost predicate OtherScores(x: Launch, y: Launch) { y == x.(q := y.q, k := y.k, scale := y.scale) }

  /** The Jacobian the reference contracts with is that of the forward's weights: log P_ik is concave in the
      scores, and delta_kj - P_ij is its supergradient, so dP_ik / dS_ij can only be P_ik (delta_kj - P_ij).
      For all other queries and keys, P_ik is at most its old value times exp of the inner product. */
  lemma WeightSupergradient(x: Launch, y: Launch, i: nat, k: nat)
    requires x.Valid() && OtherScores(x, y) && i < x.nCtx && k < x.nCtx && (x.causal ==> k <= i)
    ensures Prob(x, i, k) > 0.0
    ensures Prob(y, i, k) <= Times(Prob(x, i, k), x.fns.exp(Sum(LogWeightTerms(x, y, i, k), 0, x.nCtx)))
  {
    ProbIsSelected(x, i, k);
    ProbIsSelected(y, i, k);
    SeenSteps(x, y, i, k);
    RatioKlBackward.SelectedLogpSupergradient(x.fns, Seen(x, i), Seen(y, i), k);
    ExpPositive(x.fns, RatioKl.SelectedLogp(x.fns, Seen(x, i), k));
    ExpAtMost(x.fns, RatioKl.SelectedLogp(x.fns, Seen(y, i), k), RatioKl.SelectedLogp(x.fns, Seen(x, i), k),
              Sum(LogWeightTerms(x, y, i, k), 0, x.nCtx));
  }

  lemma ExpAtMost(fns: RealFns, a: real, b: real, step: real)
    requires fns.Lawful() && a <= b + step
    ensures fns.exp(a) <= Times(fns.exp(b), fns.exp(step))
  {
    ExpAddTimes(fns, b, step);
    if a < b + step {
      ExpStrict(fns, a, b + step);
    }
  }

  lemma SeenSteps(x: Launch, y: Launch, i: nat, k: nat)
    requires x.Valid() && OtherScores(x, y) && i < x.nCtx && k < SeenBy(x, i) <= x.nCtx
    ensures |Seen(x, i)| == |Seen(y, i)| == SeenBy(x, i) > 0
    ensures Sum(LogWeightTerms(x, y, i, k), 0, x.nCtx)
         == Sum(RatioKlBackward.StepTerms(x.fns, Seen(x, i), Seen(y, i), k), 0, SeenBy(x, i))
  {
    var n, f := SeenBy(x, i), LogWeightTerms(x, y, i, k);
    forall j: nat | j < x.nCtx
      ensures f(j) == if j < n then RatioKlBackward.StepTerms(x.fns, Seen(x, i), Seen(y, i), k)(j) else 0.0
    {
      SeenStep(x, y, i, k, j);
    }
    SumSplit(f, 0, n, x.nCtx);
    SumZero(f, n, x.nCtx);
    SumCong(f, RatioKlBackward.StepTerms(x.fns, Seen(x, i), Seen(y, i), k), 0, n);
  }

  lemma SeenStep(x: Launch, y: Launch, i: nat, k: nat, j: nat)
    requires x.Valid() && OtherScores(x, y) && i < x.nCtx && j < x.nCtx && k < SeenBy(x, i) <= x.nCtx
    ensures |Seen(x, i)| > 0
    ensures LogWeightTerms(x, y, i, k)(j)
         == if j < SeenBy(x, i) then RatioKlBackward.StepTerms(x.fns, Seen(x, i), Seen(y, i), k)(j) else 0.0
  {
    ProbIsSelected(x, i, j);
    TimesUnits(ScoreAt(y, y.q, y.k, i, j) - ScoreAt(x, x.q, x.k, i, j));
  }
}
