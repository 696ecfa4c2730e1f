/** The backward flash-attention kernels against the vector-Jacobian product of the full softmax. */
module FlashBackward {
  import opened RealFunctions
  import opened Softmax
  import opened Attention
  import opened FlashForward
  import opened Integers

  // ----- the reference ---------------------------------------------------------------------------

  /** P: the naive softmax weights of the head. */
  function Prob(x: Launch, i: int, j: int): real
    requires x.Valid()
  {
    if 0 <= i < x.nCtx && 0 <= j < x.nCtx then
      FiniteMax(NaiveScores(x, i), 0, x.nCtx);
      SoftmaxAt(x.fns, NaiveScores(x, i), 0, x.nCtx, j)
    else 0.0
  }

  /** dP = dO V^T */
  function DProb(x: Launch, dO: Mat, i: int, j: int): real {
    Sum(DotTerms(dO, i, x.v, j), 0, x.dim)
  }

  function Delta(k: int, j: int): real { if k == j then 1.0 else 0.0 }

  /** dP_k times the softmax Jacobian entry dP_k / dS_j = P_k (delta_kj - P_j). */
  function JacobianTerms(x: Launch, dO: Mat, i: int, j: int): int -> real
    requires x.Valid()
  {
    k => Times(DProb(x, dO, i, k), Times(Prob(x, i, k), Delta(k, j) - Prob(x, i, j)))
  }

  /** dS: the gradient of the scaled scores, by the full Jacobian of the softmax. */
  function DScore(x: Launch, dO: Mat, i: int, j: int): real
    requires x.Valid()
  {
    Sum(JacobianTerms(x, dO, i, j), 0, x.nCtx)
  }

  function DvTerms(x: Launch, dO: Mat, j: int, d: int): int -> real
    requires x.Valid()
  {
    i => Times(Prob(x, i, j), dO(i, d))
  }

  function DkTerms(x: Launch, dO: Mat, j: int, d: int): int -> real
    requires x.Valid()
  {
    i => Times(Times(DScore(x, dO, i, j), x.scale), x.q(i, d))
  }

  function DqTerms(x: Launch, dO: Mat, i: int, d: int): int -> real
    requires x.Valid()
  {
    j => Times(Times(DScore(x, dO, i, j), x.scale), x.k(j, d))
  }

  function DValue(x: Launch, dO: Mat, j: int, d: int): real
    requires x.Valid()
  {
    Sum(DvTerms(x, dO, j, d), 0, x.nCtx)
  }

  function DKey(x: Launch, dO: Mat, j: int, d: int): real
    requires x.Valid()
  {
    Sum(DkTerms(x, dO, j, d), 0, x.nCtx)
  }

  function DQuery(x: Launch, dO: Mat, i: int, d: int): real
    requires x.Valid()
  {
    Sum(DqTerms(x, dO, i, d), 0, x.nCtx)
  }

  // ----- the softmax Jacobian, contracted --------------------------------------------------------

  function RowDotTerms(x: Launch, dO: Mat, i: int): int -> real
    requires x.Valid()
  {
    k => Times(Prob(x, i, k), DProb(x, dO, i, k))
  }

  /** sum_j P_ij dP_ij */
  function RowDot(x: Launch, dO: Mat, i: int): real
    requires x.Valid()
  {
    Sum(RowDotTerms(x, dO, i), 0, x.nCtx)
  }

  /** The Jacobian product collapses to P_j (dP_j - sum_k P_k dP_k). */
  lemma SoftmaxVjp(x: Launch, dO: Mat, i: nat, j: nat)
    requires x.Valid() && i < x.nCtx && j < x.nCtx
    ensures DScore(x, dO, i, j) == Times(Prob(x, i, j), DProb(x, dO, i, j) - RowDot(x, dO, i))
  {
    var diagonal, rest := DiagonalTerms(x, dO, i, j), ScaledRowDot(x, dO, i, j);
    forall k ensures JacobianTerms(x, dO, i, j)(k) == diagonal(k) + rest(k) {
      JacobianSplits(DProb(x, dO, i, k), Prob(x, i, k), Delta(k, j), Prob(x, i, j));
    }
    SumAdd(diagonal, rest, JacobianTerms(x, dO, i, j), 0, x.nCtx);
    SumSingle(diagonal, 0, x.nCtx, j);
    SumTimes(RowDotTerms(x, dO, i), rest, -Prob(x, i, j), 0, x.nCtx);
    Collected(Prob(x, i, j), DProb(x, dO, i, j), RowDot(x, dO, i));
  }

  lemma Collected(p: real, a: real, b: real)
    ensures Times(p, a) + Times(-p, b) == Times(p, a - b)
  {
  }

  function DiagonalTerms(x: Launch, dO: Mat, i: int, j: int): int -> real
    requires x.Valid()
  {
    k => if k == j then Times(Prob(x, i, k), DProb(x, dO, i, k)) else 0.0
  }

  function ScaledRowDot(x: Launch, dO: Mat, i: int, j: int): int -> real
    requires x.Valid()
  {
    k => Times(-Prob(x, i, j), Times(Prob(x, i, k), DProb(x, dO, i, k)))
  }

  lemma JacobianSplits(dp: real, pk: real, delta: real, pj: real)
    requires delta == 0.0 || delta == 1.0
    ensures Times(dp, Times(pk, delta - pj))
         == (if delta == 1.0 then Times(pk, dp) else 0.0) + Times(-pj, Times(pk, dp))
  {
  }

  // ----- delta -----------------------------------------------------------------------------------

  function OutDotTerms(out: seq<real>, dO: Mat, i: int): int -> real {
    d => if 0 <= d < |out| then Times(out[d], dO(i, d)) else 0.0
  }

  /** One row of _bwd_preprocess: sum(o * do). */
  function OutDot(out: seq<real>, dO: Mat, i: int): real {
    Sum(OutDotTerms(out, dO, i), 0, |out|)
  }

  function PairTerms(x: Launch, dO: Mat, i: int): (int, int) -> real
    requires x.Valid()
  {
    (d, j) => Times(Times(Prob(x, i, j), x.v(j, d)), dO(i, d))
  }

  /** The row sum of O dO is the row sum of P dP: interchange of a double sum. */
  lemma DeltaIsRowDot(x: Launch, dO: Mat, i: nat, c: Cell)
    requires x.Valid() && i < x.nCtx && NaiveRow(x, i, c)
    ensures OutDot(c.out, dO, i) == RowDot(x, dO, i)
  {
    var f := PairTerms(x, dO, i);
    forall d | 0 <= d < x.dim ensures OutDotTerms(c.out, dO, i)(d) == Sum(RowOf(f, d), 0, x.nCtx) {
      OutputIsWeightedValues(x, i, d, dO(i, d), RowOf(f, d));
    }
    forall j | 0 <= j < x.nCtx ensures RowDotTerms(x, dO, i)(j) == Sum(ColOf(f, j), 0, x.dim) {
      forall d | 0 <= d < x.dim ensures ColOf(f, j)(d) == Prob(x, i, j) * DotTerms(dO, i, x.v, j)(d) {
        TimesRegroup(Prob(x, i, j), x.v(j, d), dO(i, d));
        TimesCommutes(x.v(j, d), dO(i, d));
      }
      SumScale(DotTerms(dO, i, x.v, j), ColOf(f, j), Prob(x, i, j), 0, x.dim);
    }
    SumSwap(f, OutDotTerms(c.out, dO, i), RowDotTerms(x, dO, i), 0, x.dim, 0, x.nCtx);
  }

  lemma OutputIsWeightedValues(x: Launch, i: nat, d: nat, g: real, terms: int -> real)
    requires x.Valid() && i < x.nCtx
    requires forall j | 0 <= j < x.nCtx :: terms(j) == Times(Times(Prob(x, i, j), x.v(j, d)), g)
    ensures NaiveOutput(x, i, d).Real? && Times(NaiveOutput(x, i, d).value, g) == Sum(terms, 0, x.nCtx)
  {
    FiniteMax(NaiveScores(x, i), 0, x.nCtx);
    var probs := ProbTimes(x.fns, NaiveScores(x, i), x.nCtx, Column(x.v, d));
    forall j | 0 <= j < x.nCtx ensures terms(j) == g * probs(j) {
      TimesCommutes(g, probs(j));
    }
    SumScale(probs, terms, g, 0, x.nCtx);
    TimesCommutes(g, Sum(probs, 0, x.nCtx));
  }

  // ----- the kernel ------------------------------------------------------------------------------

  /** One head as the backward kernels see it: the rows the forward pass saved and, from row nCtx on, the
      memory after them; the incoming gradient; the block size, the same for queries and keys. */
  datatype Saved = Saved(x: Launch, cell: int -> Cell, dO: Mat, block: nat) {

    /** The rows are those of a right forward pass. */
    ghost predicate Valid() {
      x.Valid() && block > 0 && forall i | 0 <= i < x.nCtx :: NaiveRow(x, i, cell(i))
    }

    /** The first query row a key block starts from. */
    function Lo(startN: nat): nat { if x.causal then startN * block else 0 }

    /** Where its loop over query rows ends. */
    function End(startN: nat): int
      requires block > 0
    {
      LoopEnd(Lo(startN), x.nCtx, block)
    }
  }

  /** A quotient whose denominator is a saved sum. Only the memory after a head can hold a zero there, where
      the hardware gives no real number; zero stands in for it. */
  function OverSum(a: real, l: real): real { if l == 0.0 then 0.0 else Ratio(a, l) }

  /** p = exp(qk - m) / l, with the causal mask applied to qk. */
  function P(s: Saved, i: int, j: int): real {
    OverSum(ExpDiff(s.x.fns, s.x.Scores(i)(j), s.cell(i).m), s.cell(i).l)
  }

  /** ds = p * (dp - delta) * scale */
  function Ds(s: Saved, delta: int -> real, i: int, j: int): real {
    Times(Times(P(s, i, j), DProb(s.x, s.dO, i, j) - delta(i)), s.x.scale)
  }

  /** The per-key, per-query and per-column terms the program accumulates. */
  function DvKernel(s: Saved, j: int, d: int): int -> real {
    i => Times(P(s, i, j), s.dO(i, d))
  }

  function DkKernel(s: Saved, delta: int -> real, j: int, d: int): int -> real {
    i => Times(Ds(s, delta, i, j), s.x.q(i, d))
  }

  function DqKernel(s: Saved, delta: int -> real, i: int, d: int): int -> real {
    j => Times(Ds(s, delta, i, j), s.x.k(j, d))
  }

  // ----- the key and value rows of one program ---------------------------------------------------

  /** One key's rows of dk and dv. */
  datatype KeyGrad = KeyGrad(dk: seq<real>, dv: seq<real>)

  /** Key j once the query rows [lo, hi) are added. */
  function KeySum(s: Saved, delta: int -> real, j: int, lo: int, hi: int): KeyGrad {
    KeyGrad(seq(s.x.dim, d => Sum(DkKernel(s, delta, j, d), lo, hi)),
            seq(s.x.dim, d => Sum(DvKernel(s, j, d), lo, hi)))
  }

  predicate KeyShaped(row: KeyGrad, dim: nat) { |row.dk| == |row.dv| == dim }

  /** dk += ds^T q and dv += p^T do, for key j and the query rows [a, b). */
  function AddToKey(s: Saved, delta: int -> real, j: int, a: int, b: int, row: KeyGrad): KeyGrad
    requires KeyShaped(row, s.x.dim)
  {
    KeyGrad(seq(s.x.dim, d requires 0 <= d < s.x.dim => row.dk[d] + Sum(DkKernel(s, delta, j, d), a, b)),
            seq(s.x.dim, d requires 0 <= d < s.x.dim => row.dv[d] + Sum(DvKernel(s, j, d), a, b)))
  }

  lemma AddToKeyKeeps(s: Saved, delta: int -> real, j: int, lo: int, a: int, b: int)
    requires lo <= a <= b
    ensures AddToKey(s, delta, j, a, b, KeySum(s, delta, j, lo, a)) == KeySum(s, delta, j, lo, b)
  {
    var now, then' := AddToKey(s, delta, j, a, b, KeySum(s, delta, j, lo, a)), KeySum(s, delta, j, lo, b);
    forall d | 0 <= d < s.x.dim ensures now.dk[d] == then'.dk[d] && now.dv[d] == then'.dv[d] {
      SumSplit(DkKernel(s, delta, j, d), lo, a, b);
      SumSplit(DvKernel(s, j, d), lo, a, b);
    }
    assert now.dk == then'.dk && now.dv == then'.dv;
  }

  /** The block of keys from `first` once the query rows [lo, hi) are added. */
  ghost predicate BlockIs(s: Saved, delta: int -> real, first: nat, lo: int, hi: int, rows: seq<KeyGrad>) {
    |rows| == s.block && forall c | 0 <= c < |rows| :: rows[c] == KeySum(s, delta, first + c, lo, hi)
  }

  /** dk and dv after one iteration. */
  function AddBlock(s: Saved, delta: int -> real, first: nat, a: int, b: int, rows: seq<KeyGrad>): seq<KeyGrad>
    requires forall c | 0 <= c < |rows| :: KeyShaped(rows[c], s.x.dim)
  {
    seq(|rows|, c requires 0 <= c < |rows| => AddToKey(s, delta, first + c, a, b, rows[c]))
  }

  lemma AddBlockKeeps(s: Saved, delta: int -> real, first: nat, lo: int, a: int, b: int, rows: seq<KeyGrad>)
    requires lo <= a <= b && BlockIs(s, delta, first, lo, a, rows)
    ensures forall c | 0 <= c < |rows| :: KeyShaped(rows[c], s.x.dim)
    ensures BlockIs(s, delta, first, lo, b, AddBlock(s, delta, first, a, b, rows))
  {
    forall c | 0 <= c < |rows|
      ensures AddBlock(s, delta, first, a, b, rows)[c] == KeySum(s, delta, first + c, lo, b)
    {
      AddToKeyKeeps(s, delta, first + c, lo, a, b);
    }
  }

  // ----- the query rows of one program -----------------------------------------------------------

  /** A row of DQ after one atomic add of the contribution of the keys [a, b). */
  function AddDq(s: Saved, delta: int -> real, i: int, a: int, b: int, row: seq<real>): seq<real> {
    seq(|row|, d requires 0 <= d < |row| => row[d] + Sum(DqKernel(s, delta, i, d), a, b))
  }

  /** The rows head + [a, b) of DQ have received their part from the keys [first, first + block), the others
      none. */
  ghost predicate RowsAdded(s: Saved, delta: int -> real, head: nat, first: nat, a: int, b: int,
                            before: seq<seq<real>>, after: seq<seq<real>>)
  {
    && |before| == |after|
    && forall row | 0 <= row < |before| :: after[row] == RowAdded(s, delta, head, first, a, b, row, before[row])
  }

  function RowAdded(s: Saved, delta: int -> real, head: nat, first: nat, a: int, b: int, row: nat, r: seq<real>):
      seq<real>
  {
    if a <= row - head < b then AddDq(s, delta, row - head, first, first + s.block, r) else r
  }

  lemma RowsAddedJoin(s: Saved, delta: int -> real, head: nat, first: nat, a: int, b: int, c: int,
                      before: seq<seq<real>>, mid: seq<seq<real>>, after: seq<seq<real>>)
    requires a <= b <= c
    requires RowsAdded(s, delta, head, first, a, b, before, mid)
    requires RowsAdded(s, delta, head, first, b, c, mid, after)
    ensures RowsAdded(s, delta, head, first, a, c, before, after)
  {
  }

  /** The atomic additions of one iteration. */
  method AddRows(s: Saved, delta: int -> real, head: nat, first: nat, startM: nat, dq: array<seq<real>>)
    requires head + startM + s.block <= dq.Length
    modifies dq
    ensures RowsAdded(s, delta, head, first, startM, startM + s.block, old(dq[..]), dq[..])
  {
    var start := head + startM;
    forall row | start <= row < start + s.block {
      dq[row] := RowAdded(s, delta, head, first, startM, startM + s.block, row, dq[row]);
    }
  }

  // ----- the program -----------------------------------------------------------------------------

  /** One row of DQ, DK and DV. */
  datatype Grads = Grads(dq: seq<real>, dk: seq<real>, dv: seq<real>)

  function GradsAt(dq: array<seq<real>>, dk: array<seq<real>>, dv: array<seq<real>>, row: nat): Grads
    requires row < dq.Length == dk.Length == dv.Length
    reads dq, dk, dv
  {
    Grads(dq[row], dk[row], dv[row])
  }

  /** A row of the gradient buffers after the program of key block `startN`: it adds to the rows of DQ its
      loop visits and stores the rows of DK and DV of its block, neither checked against the head's end. */
  function StoreGrads(s: Saved, delta: int -> real, head: nat, startN: nat, row: nat, g: Grads): Grads
    requires s.block > 0
  {
    var first := startN * s.block;
    var dq := RowAdded(s, delta, head, first, s.Lo(startN), s.End(startN), row, g.dq);
    if first <= row - head < first + s.block then
      var key := KeySum(s, delta, row - head, s.Lo(startN), s.End(startN));
      Grads(dq, key.dk, key.dv)
    else Grads(dq, g.dk, g.dv)
  }

  /** _bwd_kernel: the program of key block `startN` of the head that starts at row `head` of the buffers. DQ
      is shared between programs and only ever added to. */
  method Program(s: Saved, delta: int -> real, head: nat, startN: nat, dq: array<seq<real>>,
                 dk: array<seq<real>>, dv: array<seq<real>>)
    requires s.block > 0 && dq.Length == dk.Length == dv.Length && dq != dk && dq != dv && dk != dv
    requires head + startN * s.block + s.block <= dq.Length && head + s.End(startN) <= dq.Length
    modifies dq, dk, dv
    ensures forall row: nat | row < dq.Length ::
      GradsAt(dq, dk, dv, row) == StoreGrads(s, delta, head, startN, row, old(GradsAt(dq, dk, dv, row)))
  {
    var rows := RowLoop(s, delta, head, startN, dq);
    StoreBlock(head + startN * s.block, rows, dk, dv);
    forall row: nat | row < dq.Length
      ensures GradsAt(dq, dk, dv, row) == StoreGrads(s, delta, head, startN, row, old(GradsAt(dq, dk, dv, row)))
    {
      BlockStored(s, delta, head, startN, rows, row, old(GradsAt(dq, dk, dv, row)));
    }
  }

  lemma BlockStored(s: Saved, delta: int -> real, head: nat, startN: nat, rows: seq<KeyGrad>, row: nat, g: Grads)
    requires s.block > 0 && BlockIs(s, delta, startN * s.block, s.Lo(startN), s.End(startN), rows)
    ensures var first, after := head + startN * s.block, StoreGrads(s, delta, head, startN, row, g);
            && after.dq == RowAdded(s, delta, head, startN * s.block, s.Lo(startN), s.End(startN), row, g.dq)
            && KeyGrad(after.dk, after.dv)
               == if first <= row < first + |rows| then rows[row - first] else KeyGrad(g.dk, g.dv)
  {
    var first := head + startN * s.block;
    if first <= row < first + |rows| {
      assert startN * s.block + (row - first) == row - head;
    }
  }

  lemma LoopEndAbove(start: int, bound: int, block: nat)
    requires block > 0
    ensures LoopEnd(start, bound, block) >= MaxInt(start, bound)
    ensures start < bound ==> LoopEnd(start, bound, block) >= start + block
    decreases bound - start
  {
    if start < bound {
      LoopEndAbove(start + block, bound, block);
    }
  }

  /** The loop over query rows. */
  method RowLoop(s: Saved, delta: int -> real, head: nat, startN: nat, dq: array<seq<real>>)
    returns (rows: seq<KeyGrad>)
    requires s.block > 0 && head + s.End(startN) <= dq.Length
    modifies dq
    ensures BlockIs(s, delta, startN * s.block, s.Lo(startN), s.End(startN), rows)
    ensures RowsAdded(s, delta, head, startN * s.block, s.Lo(startN), s.End(startN), old(dq[..]), dq[..])
  {
    var first, lo := startN * s.block, s.Lo(startN);
    rows := seq(s.block, c => KeyGrad(seq(s.x.dim, d => 0.0), seq(s.x.dim, d => 0.0)));
    var startM := lo;
    while startM < s.x.nCtx
      invariant lo <= startM && LoopEnd(startM, s.x.nCtx, s.block) == s.End(startN)
      invariant BlockIs(s, delta, first, lo, startM, rows)
      invariant RowsAdded(s, delta, head, first, lo, startM, old(dq[..]), dq[..])
      modifies dq
    {
      LoopEndAbove(startM, s.x.nCtx, s.block);
      ghost var mid := dq[..];
      rows := Iteration(s, delta, head, first, lo, startM, rows, dq);
      RowsAddedJoin(s, delta, head, first, lo, startM, startM + s.block, old(dq[..]), mid, dq[..]);
      startM := startM + s.block;
    }
  }

  /** One iteration: the block's rows add to dk and dv, and receive their part of dq. */
  method Iteration(s: Saved, delta: int -> real, head: nat, first: nat, ghost lo: nat, startM: nat,
                   rows: seq<KeyGrad>, dq: array<seq<real>>) returns (next: seq<KeyGrad>)
    requires lo <= startM && head + startM + s.block <= dq.Length
    requires BlockIs(s, delta, first, lo, startM, rows)
    modifies dq
    ensures BlockIs(s, delta, first, lo, startM + s.block, next)
    ensures RowsAdded(s, delta, head, first, startM, startM + s.block, old(dq[..]), dq[..])
  {
    AddBlockKeeps(s, delta, first, lo, startM, startM + s.block, rows);
    next := AddBlock(s, delta, first, startM, startM + s.block, rows);
    AddRows(s, delta, head, first, startM, dq);
  }

  /** The stores of the block's rows. */
  method StoreBlock(first: nat, rows: seq<KeyGrad>, dk: array<seq<real>>, dv: array<seq<real>>)
    requires first + |rows| <= dk.Length == dv.Length && dk != dv
    modifies dk, dv
    ensures forall row: nat | row < dk.Length ::
      KeyGrad(dk[row], dv[row])
      == if first <= row < first + |rows| then rows[row - first] else KeyGrad(old(dk[row]), old(dv[row]))
  {
    forall row | first <= row < first + |rows| {
      dk[row] := rows[row - first].dk;
    }
    forall row | first <= row < first + |rows| {
      dv[row] := rows[row - first].dv;
    }
  }

  // ----- the kernel against the reference --------------------------------------------------------

  ghost predicate DeltaIs(s: Saved, delta: int -> real)
    requires s.Valid()
  {
    forall i | 0 <= i < s.x.nCtx :: delta(i) == RowDot(s.x, s.dO, i)
  }

  /** exp(qk - M) / L is the softmax weight. */
  lemma PIsProb(s: Saved, i: nat, j: nat)
    requires s.Valid() && i < s.x.nCtx && j < s.x.nCtx
    ensures P(s, i, j) == Prob(s.x, i, j)
  {
    StoredStatsGiveWeights(s.x, i, s.cell(i), j);
    assert s.x.Scores(i)(j) == NaiveScores(s.x, i)(j);
  }

  lemma DsIsDScore(s: Saved, delta: int -> real, i: nat, j: nat)
    requires s.Valid() && DeltaIs(s, delta) && i < s.x.nCtx && j < s.x.nCtx
    ensures Ds(s, delta, i, j) == Times(DScore(s.x, s.dO, i, j), s.x.scale)
  {
    PIsProb(s, i, j);
    SoftmaxVjp(s.x, s.dO, i, j);
  }

  /** A causally masked pair contributes exactly zero to every gradient. */
  lemma MaskedPairIsZero(s: Saved, delta: int -> real, i: nat, j: nat)
    requires s.x.causal && i < j
    ensures P(s, i, j) == 0.0 && Ds(s, delta, i, j) == 0.0
    ensures forall d ::
              DvKernel(s, j, d)(i) == 0.0 && DkKernel(s, delta, j, d)(i) == 0.0 && DqKernel(s, delta, i, d)(j) == 0.0
  {
    assert s.x.Scores(i)(j).NegInf?;
    ZeroOverSum(s.cell(i).l);
    TimesUnits(DProb(s.x, s.dO, i, j) - delta(i));
    TimesUnits(s.x.scale);
    forall d
      ensures DvKernel(s, j, d)(i) == 0.0 && DkKernel(s, delta, j, d)(i) == 0.0 && DqKernel(s, delta, i, d)(j) == 0.0
    {
      TimesUnits(s.dO(i, d));
      TimesUnits(s.x.q(i, d));
      TimesUnits(s.x.k(j, d));
    }
  }

  lemma ZeroOverSum(l: real)
    ensures OverSum(0.0, l) == 0.0
  {
  }

  /** The row blocks skipped under the causal mask lose nothing: the sums from Lo are the full sums. */
  lemma KeyGradients(s: Saved, delta: int -> real, startN: nat, j: nat, d: nat)
    requires s.Valid() && DeltaIs(s, delta) && j < s.x.nCtx && startN * s.block <= j
    ensures Sum(DvKernel(s, j, d), s.Lo(startN), s.x.nCtx) == DValue(s.x, s.dO, j, d)
    ensures Sum(DkKernel(s, delta, j, d), s.Lo(startN), s.x.nCtx) == DKey(s.x, s.dO, j, d)
  {
    var lo := s.Lo(startN);
    forall i | 0 <= i < lo ensures DvKernel(s, j, d)(i) == 0.0 && DkKernel(s, delta, j, d)(i) == 0.0 {
      MaskedPairIsZero(s, delta, i, j);
    }
    SumZero(DvKernel(s, j, d), 0, lo);
    SumZero(DkKernel(s, delta, j, d), 0, lo);
    SumSplit(DvKernel(s, j, d), 0, lo, s.x.nCtx);
    SumSplit(DkKernel(s, delta, j, d), 0, lo, s.x.nCtx);
    forall i | 0 <= i < s.x.nCtx
      ensures DvKernel(s, j, d)(i) == DvTerms(s.x, s.dO, j, d)(i)
      ensures DkKernel(s, delta, j, d)(i) == DkTerms(s.x, s.dO, j, d)(i)
    {
      PIsProb(s, i, j);
      DsIsDScore(s, delta, i, j);
    }
    SumCong(DvKernel(s, j, d), DvTerms(s.x, s.dO, j, d), 0, s.x.nCtx);
    SumCong(DkKernel(s, delta, j, d), DkTerms(s.x, s.dO, j, d), 0, s.x.nCtx);
  }

  /** The contribution of key block b to DQ[i][d]. */
  function BlockSums(s: Saved, delta: int -> real, i: int, d: int): int -> real {
    b => Sum(DqKernel(s, delta, i, d), b * s.block, b * s.block + s.block)
  }

  lemma {:induction false} TilesSum(f: int -> real, tiles: int -> real, width: nat, n: nat)
    requires forall b | 0 <= b < n :: tiles(b) == Sum(f, b * width, b * width + width)
    ensures Sum(tiles, 0, n) == Sum(f, 0, n * width)
    decreases n
  {
    if n > 0 {
      TilesSum(f, tiles, width, n - 1);
      assert n * width == (n - 1) * width + width;
      assert (n - 1) * width >= 0;
      SumSplit(f, 0, (n - 1) * width, n * width);
    }
  }

  /** The contributions of all key blocks to an element of DQ are the reference gradient. */
  lemma QueryGradient(s: Saved, delta: int -> real, blocks: nat, i: nat, d: nat)
    requires s.Valid() && DeltaIs(s, delta) && i < s.x.nCtx && blocks * s.block == s.x.nCtx
    ensures Sum(BlockSums(s, delta, i, d), 0, blocks) == DQuery(s.x, s.dO, i, d)
  {
    TilesSum(DqKernel(s, delta, i, d), BlockSums(s, delta, i, d), s.block, blocks);
    forall j | 0 <= j < s.x.nCtx ensures DqKernel(s, delta, i, d)(j) == DqTerms(s.x, s.dO, i, d)(j) {
      DsIsDScore(s, delta, i, j);
    }
    SumCong(DqKernel(s, delta, i, d), DqTerms(s.x, s.dO, i, d), 0, s.x.nCtx);
  }

  /** A program that skips a row under the causal mask would have added zero to it. */
  lemma SkippedRowAddsZero(s: Saved, delta: int -> real, startN: nat, i: nat, d: nat)
    requires i < s.Lo(startN)
    ensures BlockSums(s, delta, i, d)(startN) == 0.0
  {
    var first := startN * s.block;
    forall j | first <= j < first + s.block ensures DqKernel(s, delta, i, d)(j) == 0.0 {
      MaskedPairIsZero(s, delta, i, j);
    }
    SumZero(DqKernel(s, delta, i, d), first, first + s.block);
  }
}
