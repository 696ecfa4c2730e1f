/** Why the references of the linear log-probability's backward are gradients in the op's own arguments: the
    hidden states, the weight and the bias. */
module LinearLogpGradient {
  import opened RealFunctions
  import opened LinearLogp
  import opened LinearLogpBackward

  // ----- one logit -------------------------------------------------------------------------------

  /** A hidden state that is zero outside column d has one product, plus the bias. */
  lemma LogitOfColumn(head: LmHead, h: Vec, j: nat, d: nat)
    requires head.Valid() && j < head.Vocab() && d < |h| && d < |head.weight[j]|
    requires forall e | 0 <= e < |h| && e != d :: h[e] == 0.0
    ensures head.Logit(h, j) == h[d] * head.weight[j][d] + if head.bias.Some? then head.bias.value[j] else 0.0
  {
    forall e | 0 <= e < |h| && e != d ensures ProductTerms(h, head.weight[j])(e) == 0.0 {
      TimesUnits(At(head.weight[j], e));
    }
    SumSingle(ProductTerms(h, head.weight[j]), 0, |h|, d);
  }

  function Minus(a: Vec, b: Vec): Vec { seq(|a|, d requires 0 <= d < |a| => a[d] - At(b, d)) }

  /** A product of vectors is linear in either of them. */
  lemma DotSubtracts(a: Vec, b: Vec, w: Vec)
    requires |a| == |b|
    ensures Dot(Minus(a, b), w) == Dot(a, w) - Dot(b, w)
  {
    forall d | 0 <= d < |a| ensures ProductTerms(a, w)(d) == ProductTerms(b, w)(d) + ProductTerms(Minus(a, b), w)(d) {
      TimesDistributes(At(w, d), a[d], b[d]);
    }
    SumAdd(ProductTerms(b, w), ProductTerms(Minus(a, b), w), ProductTerms(a, w), 0, |a|);
  }

  // ----- in the hidden state ---------------------------------------------------------------------

  function HiddenSteps(fns: RealFns, head: LmHead, h: Vec, h': Vec, t: int, g: real): int -> real
    requires fns.Lawful() && head.Vocab() > 0
  {
    d => Times(GradHidden(fns, head, h, t, g, d), At(h', d) - At(h, d))
  }

  /** The gradient of logit j against its change, for incoming gradient g. */
  function LogitSteps(x: Pair, t: int, g: real): int -> real
    requires x.Valid()
  {
    j => Times(Dz(x.fns, x.head, x.h, t, g, j), x.Step(j))
  }

  function HiddenProducts(fns: RealFns, head: LmHead, h: Vec, h': Vec, t: int, g: real): (int, int) -> real
    requires fns.Lawful() && head.Vocab() > 0
  {
    (j, d) => Times(Times(Dz(fns, head, h, t, g, j), At(RowAt(head.weight, j), d)), At(h', d) - At(h, d))
  }

  /** g times the log-probability is bounded by its tangent plane in the logits, for a nonnegative g. */
  lemma ScaledSupergradient(x: Pair, t: nat, g: real)
    requires x.Valid() && t < x.head.Vocab() && g >= 0.0
    ensures Times(g, NativeLogp(x.fns, x.other, x.h', t))
            <= Times(g, NativeLogp(x.fns, x.head, x.h, t)) + Sum(LogitSteps(x, t, g), 0, x.head.Vocab())
  {
    var v := x.head.Vocab();
    DzIsSupergradient(x, t);
    forall j | 0 <= j < v ensures LogitSteps(x, t, g)(j) == Times(g, x.DirectionTerms(t)(j)) {
      ScaledDz((if j == t then 1.0 else 0.0) - Prob(x.fns, x.head, x.h, j), g, x.Step(j));
    }
    SumTimes(x.DirectionTerms(t), LogitSteps(x, t, g), g, 0, v);
    MonotoneTimes(g, NativeLogp(x.fns, x.other, x.h', t),
                  NativeLogp(x.fns, x.head, x.h, t) + Sum(x.DirectionTerms(t), 0, v));
    TimesDistributes(g, NativeLogp(x.fns, x.head, x.h, t), Sum(x.DirectionTerms(t), 0, v));
  }

  lemma ScaledDz(a: real, g: real, step: real)
    ensures Times(Times(a, g), step) == Times(g, Times(Times(a, 1.0), step))
  {
    TimesUnits(a);
    TimesRegroup(a, g, step);
  }

  /** A factor times the change of a product with w, column by column. */
  lemma DotStep(a: Vec, b: Vec, w: Vec, f: real, terms: int -> real)
    requires |a| == |b| && forall d | 0 <= d < |a| :: terms(d) == Times(Times(f, At(w, d)), At(a, d) - At(b, d))
    ensures Times(f, Dot(a, w) - Dot(b, w)) == Sum(terms, 0, |a|)
  {
    DotSubtracts(a, b, w);
    var step := ProductTerms(Minus(a, b), w);
    forall d | 0 <= d < |a| ensures terms(d) == Times(f, step(d)) {
      TimesRegroup(f, At(w, d), At(a, d) - At(b, d));
      TimesCommutes(At(w, d), At(a, d) - At(b, d));
    }
    SumTimes(step, terms, f, 0, |a|);
  }

  lemma LogitStep(fns: RealFns, head: LmHead, h: Vec, h': Vec, t: int, g: real, j: int)
    requires fns.Lawful() && head.Vocab() > 0 && |h| == |h'|
    ensures LogitSteps(Pair(fns, head, h, head, h'), t, g)(j)
         == Sum(RowOf(HiddenProducts(fns, head, h, h', t, g), j), 0, |h|)
  {
    DotStep(h', h, RowAt(head.weight, j), Dz(fns, head, h, t, g, j), RowOf(HiddenProducts(fns, head, h, h', t, g), j));
  }

  /** The hidden gradient is the gradient: for every other hidden state the log-probability, weighted by a
      nonnegative incoming gradient, changes by at most the inner product with it. */
  lemma HiddenSupergradient(fns: RealFns, head: LmHead, h: Vec, h': Vec, t: nat, g: real)
    requires fns.Lawful() && t < head.Vocab() && |h| == |h'| && g >= 0.0
    ensures Times(g, NativeLogp(fns, head, h', t))
            <= Times(g, NativeLogp(fns, head, h, t)) + Sum(HiddenSteps(fns, head, h, h', t, g), 0, |h|)
  {
    var x, v, f := Pair(fns, head, h, head, h'), head.Vocab(), HiddenProducts(fns, head, h, h', t, g);
    ScaledSupergradient(x, t, g);
    forall j | 0 <= j < v ensures LogitSteps(x, t, g)(j) == Sum(RowOf(f, j), 0, |h|) {
      LogitStep(fns, head, h, h', t, g, j);
    }
    forall d | 0 <= d < |h| ensures HiddenSteps(fns, head, h, h', t, g)(d) == Sum(ColOf(f, d), 0, v) {
      SumTimesRight(HiddenTerms(fns, head, h, t, g, d), ColOf(f, d), v, At(h', d) - At(h, d));
    }
    SumSwap(f, LogitSteps(x, t, g), HiddenSteps(fns, head, h, h', t, g), 0, v, 0, |h|);
  }

  // ----- in the weight and the bias --------------------------------------------------------------

  /** A batch under a head and under another of the same shape. */
  datatype Move = Move(fns: RealFns, head: LmHead, other: LmHead, batch: Batch, dim: nat) {
    ghost predicate Valid() {
      && fns.Lawful() && head.Vocab() == other.Vocab() > 0 && head.bias.Some? == other.bias.Some?
      && batch.Valid()
      && forall i | 0 <= i < |batch.hidden| ::
           |batch.hidden[i]| == dim && 0 <= batch.targets[i] < head.Vocab() && batch.grad[i] >= 0.0
    }

    function Token(i: int): Pair {
      Pair(fns, head, RowAt(batch.hidden, i), other, RowAt(batch.hidden, i))
    }

    /** The weighted log-probabilities of the batch, under either head. */
    function LogpTerms(under: LmHead): int -> real
      requires Valid() && under.Vocab() > 0
    {
      i => if 0 <= i < |batch.hidden| then
             Times(batch.grad[i], NativeLogp(fns, under, batch.hidden[i], batch.targets[i]))
           else 0.0
    }

    function DzIn(i: int, j: int): real
      requires Valid()
    {
      if 0 <= i < |batch.hidden| then Dz(fns, head, batch.hidden[i], batch.targets[i], batch.grad[i], j) else 0.0
    }

    function WeightStep(j: int, d: int): real { At(RowAt(other.weight, j), d) - At(RowAt(head.weight, j), d) }

    function BiasStep(j: int): real {
      if head.bias.Some? && other.bias.Some? then At(other.bias.value, j) - At(head.bias.value, j) else 0.0
    }

    /** The weight gradient of row j against the change of that row. */
    function EntrySteps(j: int): int -> real
      requires Valid()
    {
      d => Times(GradWeight(fns, head, batch, j, d), WeightStep(j, d))
    }

    /** Both gradients of row j against the changes of its weights and its bias. */
    function RowSteps(): int -> real
      requires Valid()
    {
      j => Sum(EntrySteps(j), 0, dim) + Times(GradBias(fns, head, batch, j), BiasStep(j))
    }

    function StepProducts(): (int, int) -> real
      requires Valid()
    {
      (i, j) => Times(DzIn(i, j), Token(i).Step(j))
    }

    function WeightProducts(j: int): (int, int) -> real
      requires Valid()
    {
      (i, d) => Times(Times(DzIn(i, j), At(RowAt(batch.hidden, i), d)), WeightStep(j, d))
    }

    function WeightParts(j: int): int -> real
      requires Valid()
    {
      i => Sum(RowOf(WeightProducts(j), i), 0, dim)
    }

    function BiasParts(j: int): int -> real
      requires Valid()
    {
      i => Times(DzIn(i, j), BiasStep(j))
    }
  }

  /** Logit j of token i moves by the change of its weights times the hidden state, and that of its bias. */
  lemma TokenStep(x: Move, i: nat, j: nat)
    requires x.Valid() && i < |x.batch.hidden|
    ensures ColOf(x.StepProducts(), j)(i) == x.WeightParts(j)(i) + x.BiasParts(j)(i)
  {
    var h, w, w' := x.batch.hidden[i], RowAt(x.head.weight, j), RowAt(x.other.weight, j);
    var f, dot, step := x.DzIn(i, j), ProductTerms(h, w), RowOf(x.WeightProducts(j), i);
    forall d | 0 <= d < x.dim ensures Times(f, ProductTerms(h, w')(d)) == Times(f, dot(d)) + step(d) {
      TimesDistributes(At(h, d), At(w', d), At(w, d));
      TimesDistributes(f, ProductTerms(h, w')(d), dot(d));
      TimesRegroup(f, At(h, d), x.WeightStep(j, d));
    }
    SumOfTimes(f, dot, ProductTerms(h, w'), step, x.dim);
    TimesDistributes(f, Dot(h, w'), Dot(h, w));
    TimesDistributes(f, Dot(h, w') - Dot(h, w), x.BiasStep(j));
  }

  lemma {:induction false} SumOfTimes(f: real, a: int -> real, b: int -> real, step: int -> real, n: nat)
    requires forall d | 0 <= d < n :: Times(f, b(d)) == Times(f, a(d)) + step(d)
    ensures Times(f, Sum(b, 0, n)) == Times(f, Sum(a, 0, n)) + Sum(step, 0, n)
    decreases n
  {
    if n > 0 {
      SumOfTimes(f, a, b, step, n - 1);
      TimesDistributes(f, Sum(a, 0, n - 1), a(n - 1));
      TimesDistributes(f, Sum(b, 0, n - 1), b(n - 1));
    } else {
      TimesUnits(f);
    }
  }

  /** Over the batch, row j's changes meet the row's gradients. */
  lemma RowStep(x: Move, j: nat)
    requires x.Valid()
    ensures Sum(ColOf(x.StepProducts(), j), 0, |x.batch.hidden|) == x.RowSteps()(j)
  {
    var n, f := |x.batch.hidden|, x.WeightProducts(j);
    forall i | 0 <= i < n ensures ColOf(x.StepProducts(), j)(i) == x.WeightParts(j)(i) + x.BiasParts(j)(i) {
      TokenStep(x, i, j);
    }
    SumAdd(x.WeightParts(j), x.BiasParts(j), ColOf(x.StepProducts(), j), 0, n);
    forall d | 0 <= d < x.dim ensures x.EntrySteps(j)(d) == Sum(ColOf(f, d), 0, n) {
      SumTimesRight(WeightTerms(x.fns, x.head, x.batch, j, d), ColOf(f, d), n, x.WeightStep(j, d));
    }
    SumSwap(f, x.WeightParts(j), x.EntrySteps(j), 0, n, 0, x.dim);
    SumTimesRight(BiasTerms(x.fns, x.head, x.batch, j), x.BiasParts(j), n, x.BiasStep(j));
  }

  /** The weight and bias gradients are the gradient: for every other head of the same shape the weighted
      log-probabilities of a batch change by at most the inner product with them. */
  lemma WeightSupergradient(x: Move)
    requires x.Valid()
    ensures Sum(x.LogpTerms(x.other), 0, |x.batch.hidden|)
            <= Sum(x.LogpTerms(x.head), 0, |x.batch.hidden|) + Sum(x.RowSteps(), 0, x.head.Vocab())
  {
    var n, v, f := |x.batch.hidden|, x.head.Vocab(), x.StepProducts();
    var bound := Plus(x.LogpTerms(x.head), RowSums(f, v));
    forall i | 0 <= i < n ensures x.LogpTerms(x.other)(i) <= bound(i) {
      ScaledSupergradient(x.Token(i), x.batch.targets[i], x.batch.grad[i]);
      SumCong(LogitSteps(x.Token(i), x.batch.targets[i], x.batch.grad[i]), RowOf(f, i), 0, v);
    }
    SumMono(x.LogpTerms(x.other), bound, 0, n);
    SumAdd(x.LogpTerms(x.head), RowSums(f, v), bound, 0, n);
    forall j | 0 <= j < v ensures x.RowSteps()(j) == Sum(ColOf(f, j), 0, n) {
      RowStep(x, j);
    }
    SumSwap(f, RowSums(f, v), x.RowSteps(), 0, n, 0, v);
  }

  function RowSums(f: (int, int) -> real, v: nat): int -> real { i => Sum(RowOf(f, i), 0, v) }
}
