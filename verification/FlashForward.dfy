/** The forward flash-attention kernel: blocks of keys stream past a block of query rows, each row
    keeping a running maximum, a running sum and an already normalised accumulator. */
module FlashForward {
  import opened Options
  import opened RealFunctions
  import opened Integers
  import opened Softmax
  import opened Attention

  // ----- one row, one key block ------------------------------------------------------------------

  datatype RowState = RowState(m: Ext, l: real, acc: seq<real>)

  function Initial(dim: nat): RowState {
    RowState(NegInf, 0.0, seq(dim, d => 0.0))
  }

  function NewMax(z: int -> Ext, a: int, b: int, m: Ext): Ext {
    MaxExt(m, MaxOf(z, a, b))
  }

  function NewSum(fns: RealFns, z: int -> Ext, a: int, b: int, m: Ext, l: real, c: real): real {
    Times(ExpDiff(fns, m, c), l) + SumExp(fns, z, c, a, b)
  }

  function ScaledTerms(fns: RealFns, z: int -> Ext, c: real, l: real, v: int -> real): int -> real
    requires l != 0.0
  {
    j => Weights(fns, z, c)(j) / l * v(j)
  }

  /** The kernel subtracts only from a finite maximum and divides only by a nonzero sum. */
  predicate StepDefined(fns: RealFns, z: int -> Ext, a: int, b: int, st: RowState) {
    && NewMax(z, a, b, st.m).Fin?
    && NewSum(fns, z, a, b, st.m, st.l, NewMax(z, a, b, st.m).value) != 0.0
  }

  /** The old accumulator rescaled by l / l' * alpha, plus the tile's normalised contribution. */
  function NewAcc(acc: real, l: real, lNew: real, alpha: real, tile: real): real
    requires lNew != 0.0
  {
    acc * (l / lNew * alpha) + tile
  }

  /** What one iteration of the key loop does to one row. */
  function Step(fns: RealFns, z: int -> Ext, v: Mat, a: int, b: int, st: RowState): RowState
    requires StepDefined(fns, z, a, b, st)
  {
    var mNew := NewMax(z, a, b, st.m);
    var alpha := ExpDiff(fns, st.m, mNew.value);
    var lNew := NewSum(fns, z, a, b, st.m, st.l, mNew.value);
    RowState(mNew, lNew, seq(|st.acc|, d requires 0 <= d < |st.acc| =>
      NewAcc(st.acc[d], st.l, lNew, alpha, Sum(ScaledTerms(fns, z, mNew.value, lNew, Column(v, d)), a, b))))
  }

  /** After the keys [0, n): the exact maximum and sum, and the attention over those keys. */
  ghost predicate RowInv(fns: RealFns, z: int -> Ext, v: Mat, dim: nat, n: int, st: RowState)
    requires fns.Lawful()
  {
    && OnlineInv(fns, z, 0, n, st.m, st.l)
    && |st.acc| == dim
    && (n > 0 ==> MaxOf(z, 0, n).Fin? && forall d | 0 <= d < dim :: st.acc[d] == Attend(fns, z, n, Column(v, d)))
    && (n == 0 ==> st == Initial(dim))
  }

  lemma StepIsDefined(fns: RealFns, z: int -> Ext, v: Mat, dim: nat, n: int, b: int, st: RowState)
    requires fns.Lawful() && 0 <= n < b && RowInv(fns, z, v, dim, n, st) && MaxOf(z, 0, b).Fin?
    ensures StepDefined(fns, z, n, b, st)
    ensures NewMax(z, n, b, st.m) == MaxOf(z, 0, b)
    ensures var c := MaxOf(z, 0, b).value; NewSum(fns, z, n, b, st.m, st.l, c) == SumExp(fns, z, c, 0, b) > 0.0
  {
    MaxSplit(z, 0, n, b);
    var c := MaxOf(z, 0, b).value;
    SumExpPositive(fns, z, c, 0, b);
    SumSplit(Weights(fns, z, c), 0, n, b);
    PrefixSum(fns, z, n, st.m, st.l, c);
  }

  lemma PrefixSum(fns: RealFns, z: int -> Ext, n: int, m: Ext, l: real, c: real)
    requires fns.Lawful() && OnlineInv(fns, z, 0, n, m, l)
    ensures Times(ExpDiff(fns, m, c), l) == SumExp(fns, z, c, 0, n)
  {
    RescaledPrefix(fns, z, 0, n, m, l, c);
    TimesCommutes(ExpDiff(fns, m, c), l);
  }

  lemma StepKeeps(fns: RealFns, z: int -> Ext, v: Mat, dim: nat, n: int, b: int, st: RowState)
    requires fns.Lawful() && 0 <= n < b && RowInv(fns, z, v, dim, n, st) && MaxOf(z, 0, b).Fin?
    ensures StepDefined(fns, z, n, b, st)
    ensures RowInv(fns, z, v, dim, b, Step(fns, z, v, n, b, st))
  {
    StepIsDefined(fns, z, v, dim, n, b, st);
    var st' := Step(fns, z, v, n, b, st);
    forall d | 0 <= d < dim ensures st'.acc[d] == Attend(fns, z, b, Column(v, d)) {
      AccumulatorStep(fns, z, v, dim, n, b, st, d);
    }
  }

  lemma AccumulatorStep(fns: RealFns, z: int -> Ext, v: Mat, dim: nat, n: int, b: int, st: RowState, d: nat)
    requires fns.Lawful() && 0 <= n < b && RowInv(fns, z, v, dim, n, st) && MaxOf(z, 0, b).Fin? && d < dim
    requires StepDefined(fns, z, n, b, st)
    ensures Step(fns, z, v, n, b, st).acc[d] == Attend(fns, z, b, Column(v, d))
  {
    StepIsDefined(fns, z, v, dim, n, b, st);
    var c, col := MaxOf(z, 0, b).value, Column(v, d);
    var alpha, l := ExpDiff(fns, st.m, c), SumExp(fns, z, c, 0, b);
    TileTerms(fns, z, c, l, col, n, b);
    PrefixRescales(fns, z, v, dim, n, st, d, c);
    SumSplit(WeightedTerms(fns, z, c, col), 0, n, b);
    AccumulatorAlgebra(st.acc[d], st.l, l, alpha, WeightedSum(fns, z, c, col, 0, n), WeightedSum(fns, z, c, col, n, b));
    AttendQuotient(fns, z, b, col, c);
  }

  lemma TileTerms(fns: RealFns, z: int -> Ext, c: real, l: real, v: int -> real, a: int, b: int)
    requires l > 0.0
    ensures Sum(ScaledTerms(fns, z, c, l, v), a, b) == Ratio(WeightedSum(fns, z, c, v, a, b), l)
  {
    forall j | a <= j < b
      ensures ScaledTerms(fns, z, c, l, v)(j) == (1.0 / l) * WeightedTerms(fns, z, c, v)(j)
    {
      QuotientTimes(Weights(fns, z, c)(j), l, v(j));
    }
    SumScale(WeightedTerms(fns, z, c, v), ScaledTerms(fns, z, c, l, v), 1.0 / l, a, b);
    QuotientTimes(WeightedSum(fns, z, c, v, a, b), l, 0.0);
  }

  lemma AccumulatorAlgebra(acc: real, l: real, lNew: real, alpha: real, prefix: real, tile: real)
    requires lNew > 0.0 && Times(alpha, Times(acc, l)) == prefix
    ensures NewAcc(acc, l, lNew, alpha, Ratio(tile, lNew)) == Ratio(prefix + tile, lNew)
  {
    var inv := 1.0 / lNew;
    assert l / lNew == l * inv;
    assert acc * (l * inv * alpha) == (alpha * (acc * l)) * inv;
    assert tile / lNew == tile * inv;
    assert (prefix + tile) / lNew == (prefix + tile) * inv;
  }

  /** alpha undoes the old maximum: the rescaled numerator of the keys already seen. */
  lemma PrefixRescales(fns: RealFns, z: int -> Ext, v: Mat, dim: nat, n: int, st: RowState, d: nat, c: real)
    requires fns.Lawful() && 0 <= n && RowInv(fns, z, v, dim, n, st) && d < dim
    ensures Times(ExpDiff(fns, st.m, c), Times(st.acc[d], st.l)) == WeightedSum(fns, z, c, Column(v, d), 0, n)
  {
    var col := Column(v, d);
    if n > 0 {
      var prev := st.m.value;
      AttendQuotient(fns, z, n, col, prev);
      RatioTimes(WeightedSum(fns, z, prev, col, 0, n), SumExp(fns, z, prev, 0, n));
      WeightedRebase(fns, z, prev, c, col, 0, n);
    }
  }

  lemma WeightedRebase(fns: RealFns, z: int -> Ext, c: real, d: real, v: int -> real, lo: int, hi: int)
    requires fns.Lawful()
    ensures WeightedSum(fns, z, d, v, lo, hi) == Times(fns.exp(c - d), WeightedSum(fns, z, c, v, lo, hi))
  {
    forall j | lo <= j < hi
      ensures WeightedTerms(fns, z, d, v)(j) == fns.exp(c - d) * WeightedTerms(fns, z, c, v)(j)
    {
      ExpDiffRebase(fns, z(j), c, d);
      TimesRegroup(fns.exp(c - d), Weights(fns, z, c)(j), v(j));
    }
    SumScale(WeightedTerms(fns, z, c, v), WeightedTerms(fns, z, d, v), fns.exp(c - d), lo, hi);
  }

  // ----- the program and its grid ----------------------------------------------------------------

  /** The scores the kernel forms for query i: a causal program masks the keys after i, and nothing
      masks a key read past the end of the head. */
  function KernelScores(q: Mat, k: Mat, dim: nat, scale: real, causal: bool, i: int): int -> Ext {
    j => if causal && !(i >= j) then NegInf else Fin(Score(q, k, dim, scale, i, j))
  }

  /** The exclusive bound of the key loop of program `startM`. */
  function LoopBound(causal: bool, nCtx: nat, blockM: nat, startM: nat): nat {
    if causal then startM * blockM + blockM else nCtx
  }

  /** Where a loop `range(start, bound, block)` leaves its position: the first one not below bound. */
  function LoopEnd(start: int, bound: int, block: nat): int
    requires block > 0
    decreases bound - start
  {
    if start >= bound then start else LoopEnd(start + block, bound, block)
  }

  /** The keys actually read: whole blocks until the bound is passed. */
  function KeysRead(bound: nat, blockN: nat): (n: nat)
    requires blockN > 0
    ensures bound <= n < bound + blockN
  {
    LoopEndIsRoundUp(0, bound, blockN);
    LoopEnd(0, bound, blockN)
  }

  /** From any block below the bound the loop ends at the bound rounded up to whole blocks. */
  lemma {:induction false} LoopEndIsRoundUp(k: nat, bound: nat, block: nat)
    requires block > 0 && k <= BlocksFor(bound, block)
    ensures LoopEnd(Span(k, block), bound, block) == RoundUp(bound, block)
    decreases BlocksFor(bound, block) - k
  {
    var blocks := BlocksFor(bound, block);
    if k < blocks {
      SpanAdds(k, blocks - 1 - k, block);
      SpanAdds(blocks - 1, 1, block);
      SpanAdds(k, 1, block);
      LoopEndIsRoundUp(k + 1, bound, block);
    }
  }

  /** The loop reads exactly up to its bound if and only if the block width divides the bound. */
  lemma KeysReadExact(bound: nat, blockN: nat)
    requires blockN > 0
    ensures KeysRead(bound, blockN) == bound <==> bound % blockN == 0
  {
    LoopEndIsRoundUp(0, bound, blockN);
    RoundUpExact(bound, blockN);
  }

  /** One query row of one head, as the kernel's inputs describe it. */
  datatype Launch = Launch(fns: RealFns, q: Mat, k: Mat, v: Mat, dim: nat, scale: real, causal: bool,
                           nCtx: nat, blockM: nat, blockN: nat) {
    ghost predicate Valid() { fns.Lawful() && blockM > 0 && blockN > 0 }

    function Scores(i: int): int -> Ext { KernelScores(q, k, dim, scale, causal, i) }

    function Keys(startM: nat): nat
      requires blockN > 0
    {
      KeysRead(LoopBound(causal, nCtx, blockM, startM), blockN)
    }

    /** Query i belongs to program startM. */
    predicate Owns(startM: nat, i: int) { startM * blockM <= i < startM * blockM + blockM }
  }

  ghost predicate RowsInv(x: Launch, first: nat, n: int, rows: seq<RowState>)
    requires x.Valid()
  {
    |rows| == x.blockM && forall r | 0 <= r < |rows| :: RowInv(x.fns, x.Scores(first + r), x.v, x.dim, n, rows[r])
  }

  lemma StepRowKeeps(x: Launch, i: nat, a: nat, row: RowState)
    requires x.Valid() && RowInv(x.fns, x.Scores(i), x.v, x.dim, a, row)
    ensures StepDefined(x.fns, x.Scores(i), a, a + x.blockN, row)
    ensures RowInv(x.fns, x.Scores(i), x.v, x.dim, a + x.blockN, Step(x.fns, x.Scores(i), x.v, a, a + x.blockN, row))
  {
    FiniteMax(x.Scores(i), 0, a + x.blockN);
    StepKeeps(x.fns, x.Scores(i), x.v, x.dim, a, a + x.blockN, row);
  }

  /** One iteration of the key loop, for all rows of the block. */
  method StepRows(x: Launch, first: nat, a: nat, rows: seq<RowState>) returns (next: seq<RowState>)
    requires x.Valid() && RowsInv(x, first, a, rows)
    ensures RowsInv(x, first, a + x.blockN, next)
  {
    next := [];
    for r := 0 to |rows|
      invariant |next| == r
      invariant forall k | 0 <= k < r :: RowInv(x.fns, x.Scores(first + k), x.v, x.dim, a + x.blockN, next[k])
    {
      StepRowKeeps(x, first + r, a, rows[r]);
      next := next + [Step(x.fns, x.Scores(first + r), x.v, a, a + x.blockN, rows[r])];
    }
  }

  /** One row of the Out, L and M buffers. */
  datatype Cell = Cell(out: seq<real>, l: real, m: real)

  /** What program `startM` computes for query i, which may lie past the end of the head. */
  function RowCell(x: Launch, startM: nat, i: int): Cell
    requires x.Valid() && x.nCtx > 0 && x.Owns(startM, i)
  {
    FiniteMax(x.Scores(i), 0, x.Keys(startM));
    var n, m := x.Keys(startM), MaxOf(x.Scores(i), 0, x.Keys(startM)).value;
    Cell(seq(x.dim, d => Attend(x.fns, x.Scores(i), n, Column(x.v, d))), SumExp(x.fns, x.Scores(i), m, 0, n), m)
  }

  /** A row of the buffers after the program of the head that starts at row `head`: the stores carry no
      bounds check, so the block writes all its rows. */
  function StoreCell(x: Launch, head: nat, startM: nat, row: nat, c: Cell): Cell
    requires x.Valid() && x.nCtx > 0
  {
    if x.Owns(startM, row - head) then RowCell(x, startM, row - head) else c
  }

  /** The buffers together with the memory after them. */
  function CellAt(out: array<seq<real>>, l: array<real>, m: array<real>, row: nat): Cell
    requires row < out.Length == l.Length == m.Length
    reads out, l, m
  {
    Cell(out[row], l[row], m[row])
  }

  /** _fwd_kernel: program `startM` of the head that starts at row `head` of the buffers. Vectors over the
      block's rows are sequences. */
  method Program(x: Launch, head: nat, startM: nat, out: array<seq<real>>, l: array<real>, m: array<real>)
    requires x.Valid() && out.Length == l.Length == m.Length && l != m
    requires startM * x.blockM < x.nCtx && head + startM * x.blockM + x.blockM <= out.Length
    modifies out, l, m
    ensures forall row: nat | row < out.Length ::
      CellAt(out, l, m, row) == StoreCell(x, head, startM, row, old(CellAt(out, l, m, row)))
  {
    var rows := KeyLoop(x, startM);
    BlockIsComputed(x, startM, rows);
    BlockStored(x, head, startM, rows);
    Store(head + startM * x.blockM, rows, out, l, m);
  }

  /** A row after a block of finished rows is stored from row `first` on. */
  function AfterStore(first: nat, rows: seq<RowState>, row: nat, c: Cell): Cell
    requires forall r | 0 <= r < |rows| :: rows[r].m.Fin?
  {
    if first <= row < first + |rows| then Finished(rows[row - first]) else c
  }

  lemma BlockStored(x: Launch, head: nat, startM: nat, rows: seq<RowState>)
    requires x.Valid() && x.nCtx > 0 && BlockComputed(x, startM, rows)
    ensures forall row: nat, c :: StoreCell(x, head, startM, row, c)
                               == AfterStore(head + startM * x.blockM, rows, row, c)
  {
    forall row: nat, c
      ensures StoreCell(x, head, startM, row, c) == AfterStore(head + startM * x.blockM, rows, row, c)
    {
      RowStored(x, head, startM, rows, row, c);
    }
  }

  lemma RowStored(x: Launch, head: nat, startM: nat, rows: seq<RowState>, row: nat, c: Cell)
    requires x.Valid() && x.nCtx > 0 && BlockComputed(x, startM, rows)
    ensures StoreCell(x, head, startM, row, c) == AfterStore(head + startM * x.blockM, rows, row, c)
  {
    var first := head + startM * x.blockM;
    if first <= row < first + |rows| {
      assert startM * x.blockM + (row - first) == row - head;
    }
  }

  /** The rows of the block are what `RowCell` says of its queries. */
  ghost predicate BlockComputed(x: Launch, startM: nat, rows: seq<RowState>)
    requires x.Valid() && x.nCtx > 0
  {
    && |rows| == x.blockM
    && forall r | 0 <= r < |rows| ::
         rows[r].m.Fin? && Finished(rows[r]) == RowCell(x, startM, startM * x.blockM + r)
  }

  lemma BlockIsComputed(x: Launch, startM: nat, rows: seq<RowState>)
    requires x.Valid() && x.nCtx > 0 && RowsInv(x, startM * x.blockM, x.Keys(startM), rows)
    ensures BlockComputed(x, startM, rows)
  {
    forall r | 0 <= r < x.blockM
      ensures rows[r].m.Fin? && Finished(rows[r]) == RowCell(x, startM, startM * x.blockM + r)
    {
      RowIsCell(x, startM, rows, r);
    }
  }

  /** The loop over key blocks. */
  method KeyLoop(x: Launch, startM: nat) returns (rows: seq<RowState>)
    requires x.Valid() && x.nCtx > 0
    ensures RowsInv(x, startM * x.blockM, x.Keys(startM), rows)
  {
    var first, hi := startM * x.blockM, LoopBound(x.causal, x.nCtx, x.blockM, startM);
    rows := seq(x.blockM, r => Initial(x.dim));
    var startN := 0;
    while startN < hi
      invariant 0 <= startN && LoopEnd(startN, hi, x.blockN) == x.Keys(startM)
      invariant RowsInv(x, first, startN, rows)
    {
      rows := StepRows(x, first, startN, rows);
      startN := startN + x.blockN;
    }
  }

  /** The block's stores to Out, L and M. */
  method Store(first: nat, rows: seq<RowState>, out: array<seq<real>>, l: array<real>, m: array<real>)
    requires out.Length == l.Length == m.Length && l != m && first + |rows| <= out.Length
    requires forall r | 0 <= r < |rows| :: rows[r].m.Fin?
    modifies out, l, m
    ensures forall row: nat | row < out.Length ::
      CellAt(out, l, m, row) == AfterStore(first, rows, row, old(CellAt(out, l, m, row)))
  {
    forall row | first <= row < first + |rows| {
      out[row] := rows[row - first].acc;
    }
    forall row | first <= row < first + |rows| {
      l[row] := rows[row - first].l;
    }
    forall row | first <= row < first + |rows| {
      m[row] := rows[row - first].m.value;
    }
  }

  function Finished(row: RowState): Cell
    requires row.m.Fin?
  {
    Cell(row.acc, row.l, row.m.value)
  }

  lemma RowIsCell(x: Launch, startM: nat, rows: seq<RowState>, r: nat)
    requires x.Valid() && x.nCtx > 0 && RowsInv(x, startM * x.blockM, x.Keys(startM), rows) && r < x.blockM
    ensures rows[r].m.Fin? && Finished(rows[r]) == RowCell(x, startM, startM * x.blockM + r)
  {
    var i := startM * x.blockM + r;
    assert RowInv(x.fns, x.Scores(i), x.v, x.dim, x.Keys(startM), rows[r]);
    assert rows[r].acc == RowCell(x, startM, i).out;
  }

  // ----- the kernel against the naive softmax ----------------------------------------------------

  /** The scores NativeAttentionOp forms for query i of a prefill. */
  function NaiveScores(x: Launch, i: int): int -> Ext {
    ScoreRow(x.q, x.k, x.dim, x.scale, i, CausalLimit(x.causal, x.nCtx, x.nCtx, i), KeepAll())
  }

  function NaiveOutput(x: Launch, i: int, d: int): Num
    requires x.fns.Lawful()
  {
    AttendRow(x.fns, NaiveScores(x, i), x.nCtx, Column(x.v, d), false)
  }

  /** A row of Out, L and M holds query i's naive attention row, softmax denominator and row maximum. */
  ghost predicate NaiveRow(x: Launch, i: nat, c: Cell)
    requires x.fns.Lawful()
  {
    && MaxOf(NaiveScores(x, i), 0, x.nCtx) == Fin(c.m)
    && c.l == SumExp(x.fns, NaiveScores(x, i), c.m, 0, x.nCtx)
    && |c.out| == x.dim
    && forall d | 0 <= d < x.dim :: Real(c.out[d]) == NaiveOutput(x, i, d)
  }

  /** Both rows of scores agree on the keys query i can see, and mask every other key they read. */
  lemma VisibleKeys(x: Launch, startM: nat, i: nat) returns (visible: nat)
    requires x.Valid() && i < x.nCtx && x.Owns(startM, i) && (x.causal || x.nCtx % x.blockN == 0)
    ensures 0 < visible <= x.nCtx && visible <= x.Keys(startM)
    ensures forall j | 0 <= j < visible :: x.Scores(i)(j) == NaiveScores(x, i)(j)
    ensures forall j | visible <= j < x.Keys(startM) :: x.Scores(i)(j).NegInf?
    ensures forall j | visible <= j < x.nCtx :: NaiveScores(x, i)(j).NegInf?
  {
    KeysReadExact(LoopBound(x.causal, x.nCtx, x.blockM, startM), x.blockN);
    visible := if x.causal then i + 1 else x.nCtx;
  }

  /** The row the kernel stores is the naive row: under a causal mask for every block size, since no
      visible key is skipped; otherwise whenever the key block divides the sequence length. */
  lemma KernelRowIsNaive(x: Launch, startM: nat, i: nat)
    requires x.Valid() && i < x.nCtx && x.Owns(startM, i) && (x.causal || x.nCtx % x.blockN == 0)
    ensures NaiveRow(x, i, RowCell(x, startM, i))
  {
    var visible := VisibleKeys(x, startM, i);
    var z, w, c := x.Scores(i), NaiveScores(x, i), RowCell(x, startM, i);
    FiniteMax(z, 0, x.Keys(startM));
    MaskedTail(x.fns, z, 0, visible, x.Keys(startM));
    MaskedTail(x.fns, w, 0, visible, x.nCtx);
    MaxCong(z, w, 0, visible);
    SumCong(Weights(x.fns, z, c.m), Weights(x.fns, w, c.m), 0, visible);
    forall d | 0 <= d < x.dim ensures Real(c.out[d]) == NaiveOutput(x, i, d) {
      var col := Column(x.v, d);
      AttendPrefix(x.fns, z, col, visible, z, col, x.Keys(startM));
      AttendPrefix(x.fns, z, col, visible, w, col, x.nCtx);
    }
  }

  /** The saved M and L give every softmax weight as exp(s - M) / L, a number in [0, 1]. */
  lemma StoredStatsGiveWeights(x: Launch, i: nat, c: Cell, j: nat)
    requires x.Valid() && j < x.nCtx && NaiveRow(x, i, c)
    ensures c.l > 0.0
    ensures Ratio(ExpDiff(x.fns, NaiveScores(x, i)(j), c.m), c.l) == SoftmaxAt(x.fns, NaiveScores(x, i), 0, x.nCtx, j)
    ensures 0.0 <= ExpDiff(x.fns, NaiveScores(x, i)(j), c.m) <= 1.0
  {
    SoftmaxForms(x.fns, NaiveScores(x, i), 0, x.nCtx, c.m, j);
    ExpDiffNonNegative(x.fns, NaiveScores(x, i)(j), c.m);
    MaxIsMaximum(NaiveScores(x, i), 0, x.nCtx);
    if NaiveScores(x, i)(j).Fin? {
      ExpAtMostOne(x.fns, NaiveScores(x, i)(j).value - c.m);
    }
  }

  /** On tensors, the naive row is the NativeAttentionOp row: whatever memory follows the head. */
  lemma NaiveIsNativeOp(x: Launch, q: Head, k: Head, v: Head, i: nat, d: nat)
    requires x.Valid() && i < x.nCtx && d < x.dim
    requires IsHead(q, x.nCtx, x.dim) && IsHead(k, x.nCtx, x.dim) && IsHead(v, x.nCtx, x.dim)
    requires forall r, e | 0 <= r < x.nCtx && 0 <= e < x.dim :: x.q(r, e) == q[r][e] && x.k(r, e) == k[r][e]
    requires forall r | 0 <= r < x.nCtx :: x.v(r, d) == v[r][d]
    ensures NaiveOutput(x, i, d) == AttendHead(x.fns, q, k, v, x.dim, x.causal, x.scale, None)[i][d]
  {
    var w := ScoreRow(MatOf(q), MatOf(k), x.dim, x.scale, i, CausalLimit(x.causal, x.nCtx, x.nCtx, i), KeepOf(None));
    forall j | 0 <= j < x.nCtx ensures NaiveScores(x, i)(j) == w(j) && Column(x.v, d)(j) == Column(MatOf(v), d)(j) {
      SumCong(DotTerms(x.q, i, x.k, j), DotTerms(MatOf(q), i, MatOf(k), j), 0, x.dim);
      assert KeepOf(None)(j) && KeepAll()(j);
      assert Score(x.q, x.k, x.dim, x.scale, i, j) == Score(MatOf(q), MatOf(k), x.dim, x.scale, i, j);
      assert Elem(v, j, d) == v[j][d];
    }
    AttendRowPrefix(x.fns, NaiveScores(x, i), Column(x.v, d), x.nCtx, w, Column(MatOf(v), d), x.nCtx, false);
  }

  // ----- scores and values with known averages ---------------------------------------------------

  /** With scale zero every visible key weighs the same, so an output element is positive exactly when a
      visible value is: here the values of column 0 are zero or one. */
  ghost predicate Flat(x: Launch) {
    x.scale == 0.0 && forall j :: x.v(j, 0) == 0.0 || x.v(j, 0) == 1.0
  }

  lemma FlatScore(x: Launch, i: int, j: int)
    requires x.scale == 0.0
    ensures Score(x.q, x.k, x.dim, x.scale, i, j) == 0.0
  {
    TimesUnits(Sum(DotTerms(x.q, i, x.k, j), 0, x.dim));
  }

  /** A naive output element over zero values is zero. */
  lemma NaiveOfZeros(x: Launch, i: nat, d: int)
    requires x.Valid() && i < x.nCtx && forall j | 0 <= j < x.nCtx :: x.v(j, d) == 0.0
    ensures NaiveOutput(x, i, d) == Real(0.0)
  {
    var w := NaiveScores(x, i);
    FiniteMax(w, 0, x.nCtx);
    SumZero(ProbTimes(x.fns, w, x.nCtx, Column(x.v, d)), 0, x.nCtx);
  }

  /** A stored row whose program reads a visible value of one is positive. */
  lemma StoredIsPositive(x: Launch, startM: nat, i: nat, j: nat)
    requires x.Valid() && Flat(x) && x.nCtx > 0 && x.dim > 0 && x.Owns(startM, i)
    requires j < x.Keys(startM) && (x.causal ==> j <= i) && x.v(j, 0) == 1.0
    ensures RowCell(x, startM, i).out[0] > 0.0
  {
    var z, n, col := x.Scores(i), x.Keys(startM), Column(x.v, 0);
    FiniteMax(z, 0, n);
    AttendQuotient(x.fns, z, n, col, 0.0);
    WeightsNonNegative(x.fns, z, 0.0);
    forall k ensures WeightedTerms(x.fns, z, 0.0, col)(k) >= 0.0 {
      assert col(k) == 0.0 || col(k) == 1.0;
    }
    SumPositive(WeightedTerms(x.fns, z, 0.0, col), 0, n, j);
    RatioSign(WeightedSum(x.fns, z, 0.0, col, 0, n), SumExp(x.fns, z, 0.0, 0, n));
  }
}
