/** The backward launch over all heads of a batch: the preprocess, then the key-block programs of every head
    in any order, over buffers that hold the heads one after the other. */
module FlashBackwardGrid {
  import opened RealFunctions
  import opened Integers
  import opened Softmax
  import opened Attention
  import opened LaunchGrid
  import opened FlashForward
  import opened FlashForwardGrid
  import opened FlashBackward

  /** The saved buffers and the incoming gradient, and the memory after them. */
  datatype SavedBatch = SavedBatch(x: Batch, cell: int -> Cell, dO: Mat, block: nat) {

    /** The saved rows are those of a right forward launch. */
    ghost predicate Valid() {
      x.Valid() && block > 0 && forall row: nat | row < x.Rows() :: RowSaved(row)
    }

    ghost predicate RowSaved(row: nat)
      requires x.Valid()
    {
      x.nCtx > 0 && NaiveCell(x, row, cell(row))
    }

    function Grid(): RowGrid { RowGrid(x.heads, x.nCtx, block) }

    function Rows(): nat { Grid().Rows() }

    function Head(h: nat): Saved {
      var base := Grid().Base(h);
      Saved(x.Head(h), CellsFrom(cell, base), RowsFrom(dO, base), block)
    }
  }

  function CellsFrom(cell: int -> Cell, base: nat): int -> Cell { i => cell(base + i) }

  function DeltaFrom(delta: Vec, base: nat): int -> real { i => At(delta, base + i) }

  lemma HeadIsValid(s: SavedBatch, h: nat)
    requires s.Valid() && h < s.x.heads
    ensures s.Head(h).Valid()
  {
    var base := s.Grid().Base(h);
    forall i | 0 <= i < s.x.nCtx ensures NaiveRow(s.x.Head(h), i, s.Head(h).cell(i)) {
      HeadRow(s.Grid(), h, i);
      assert s.RowSaved(base + i);
    }
  }

  lemma HeadRow(g: RowGrid, h: nat, i: nat)
    requires h < g.heads && i < g.length
    ensures g.Base(h) + i < g.Rows()
    ensures BlockOf(g.Base(h) + i, g.length) == h && SlotOf(g.Base(h) + i, g.length) == i
  {
    SpanAdds(h, 1, g.length);
    SpanAdds(h + 1, g.heads - (h + 1), g.length);
    EuclideanRest(g.Base(h) + i, g.length, h, i);
  }

  // ----- delta -----------------------------------------------------------------------------------

  /** The delta buffer after the preprocess, and the memory after it. */
  function DeltaAfter(s: SavedBatch, delta: Vec): (after: Vec)
    requires s.block > 0
    ensures |after| == |delta|
  {
    seq(|delta|, row requires 0 <= row < |delta| =>
      if row < s.Grid().Extent() then OutDot(s.cell(row).out, s.dO, row) else delta[row])
  }

  /** _bwd_preprocess[cdiv(seq_len, BLOCK_M), batch * heads], its programs in any order. */
  method Preprocess(s: SavedBatch, order: seq<nat>, delta: array<real>)
    requires s.block > 0 && s.Grid().IsRun(order) && delta.Length >= s.Rows() + s.block
    modifies delta
    ensures delta[..] == DeltaAfter(s, old(delta[..]))
  {
    var g := s.Grid();
    for idx := 0 to |order|
      invariant forall row | 0 <= row < delta.Length ::
        delta[row] == if LastWriter(g, order, idx, row) >= 0 then OutDot(s.cell(row).out, s.dO, row)
                      else old(delta[row])
    {
      var first := g.First(order[idx]);
      forall row | first <= row < first + s.block {
        delta[row] := OutDot(s.cell(row).out, s.dO, row);
      }
    }
    forall row: nat | row < delta.Length ensures delta[row] == DeltaAfter(s, old(delta[..]))[row] {
      CoveredIff(g, order, row);
    }
  }

  /** Every head then finds the row sums of P dP. */
  lemma DeltaIsReady(s: SavedBatch, delta: Vec, h: nat)
    requires s.Valid() && h < s.x.heads && |delta| >= s.Rows()
    ensures s.Head(h).Valid() && DeltaIs(s.Head(h), DeltaFrom(DeltaAfter(s, delta), s.Grid().Base(h)))
  {
    HeadIsValid(s, h);
    forall i | 0 <= i < s.x.nCtx
      ensures DeltaFrom(DeltaAfter(s, delta), s.Grid().Base(h))(i) == RowDot(s.Head(h).x, s.Head(h).dO, i)
    {
      RowDeltaIsReady(s, delta, h, i);
    }
  }

  lemma RowDeltaIsReady(s: SavedBatch, delta: Vec, h: nat, i: nat)
    requires s.Valid() && h < s.x.heads && |delta| >= s.Rows() && i < s.x.nCtx && s.Head(h).Valid()
    ensures At(DeltaAfter(s, delta), s.Grid().Base(h) + i) == RowDot(s.Head(h).x, s.Head(h).dO, i)
  {
    var head, base := s.Head(h), s.Grid().Base(h);
    HeadRow(s.Grid(), h, i);
    LastHeadEnds(s.Grid());
    var out := head.cell(i).out;
    SumCong(OutDotTerms(out, s.dO, base + i), OutDotTerms(out, head.dO, i), 0, |out|);
    assert s.RowSaved(base + i);
    DeltaIsRowDot(head.x, head.dO, i, head.cell(i));
  }

  // ----- the launch ------------------------------------------------------------------------------

  function ProgramGrads(s: SavedBatch, delta: Vec, p: nat, row: nat, g: Grads): Grads
    requires s.block > 0 && s.Grid().Has(p)
  {
    var h := s.Grid().HeadOf(p);
    StoreGrads(s.Head(h), DeltaFrom(delta, s.Grid().Base(h)), s.Grid().Base(h), s.Grid().BlockIn(p), row, g)
  }

  /** A row of the gradient buffers after the first n programs of a run. */
  function After(s: SavedBatch, delta: Vec, order: seq<nat>, n: nat, row: nat, g: Grads): Grads
    requires s.block > 0 && s.Grid().IsRun(order) && n <= |order|
  {
    if n == 0 then g else ProgramGrads(s, delta, order[n - 1], row, After(s, delta, order, n - 1, row, g))
  }

  function AfterRun(s: SavedBatch, delta: Vec, order: seq<nat>, row: nat, g: Grads): Grads
    requires s.block > 0 && s.Grid().IsRun(order)
  {
    After(s, DeltaAfter(s, delta), order, |order|, row, g)
  }

  /** _TritonAttention.backward: the preprocess, then the key-block programs, each launch in its own order. The
      arrays hold the buffers and at least one more block of the memory after them. */
  method Grid(s: SavedBatch, first: seq<nat>, order: seq<nat>, delta: array<real>,
              dq: array<seq<real>>, dk: array<seq<real>>, dv: array<seq<real>>)
    requires s.block > 0 && s.Grid().IsRun(first) && s.Grid().IsRun(order)
    requires delta.Length == dq.Length == dk.Length == dv.Length >= s.Rows() + s.block
    requires dq != dk && dq != dv && dk != dv
    modifies delta, dq, dk, dv
    ensures delta[..] == DeltaAfter(s, old(delta[..]))
    ensures forall row: nat | row < dq.Length ::
      GradsAt(dq, dk, dv, row) == AfterRun(s, old(delta[..]), order, row, old(GradsAt(dq, dk, dv, row)))
  {
    Preprocess(s, first, delta);
    var saved := delta[..];
    for idx := 0 to |order|
      invariant forall row: nat | row < dq.Length ::
        GradsAt(dq, dk, dv, row) == After(s, saved, order, idx, row, old(GradsAt(dq, dk, dv, row)))
      modifies dq, dk, dv
    {
      OneProgram(s, saved, order[idx], dq, dk, dv);
    }
  }

  method OneProgram(s: SavedBatch, delta: Vec, p: nat, dq: array<seq<real>>, dk: array<seq<real>>,
                    dv: array<seq<real>>)
    requires s.block > 0 && s.Grid().Has(p)
    requires dq.Length == dk.Length == dv.Length >= s.Rows() + s.block && dq != dk && dq != dv && dk != dv
    modifies dq, dk, dv
    ensures forall row: nat | row < dq.Length ::
      GradsAt(dq, dk, dv, row) == ProgramGrads(s, delta, p, row, old(GradsAt(dq, dk, dv, row)))
  {
    var g := s.Grid();
    var h := g.HeadOf(p);
    LoopEndsAt(s, h, g.BlockIn(p));
    assert g.First(p) < g.Rows();
    FlashBackward.Program(s.Head(h), DeltaFrom(delta, g.Base(h)), g.Base(h), g.BlockIn(p), dq, dk, dv);
  }

  /** Every program's loop ends at the length rounded up to whole blocks. */
  lemma LoopEndsAt(s: SavedBatch, h: nat, b: nat)
    requires s.block > 0 && b < s.Grid().Blocks()
    ensures s.Head(h).End(b) == RoundUp(s.x.nCtx, s.block)
    ensures s.Head(h).End(b) == s.x.nCtx <==> s.x.nCtx % s.block == 0
  {
    var k := if s.x.causal then b else 0;
    LoopEndIsRoundUp(k, s.x.nCtx, s.block);
    RoundUpExact(s.x.nCtx, s.block);
  }

  // ----- the rows of DQ: additions in any order --------------------------------------------------

  /** The additions one element receives, in the order `order` of the programs. */
  function SeqSum(f: int -> real, order: seq<nat>): real {
    if |order| == 0 then 0.0 else SeqSum(f, order[..|order| - 1]) + f(order[|order| - 1])
  }

  lemma {:induction false} SeqSumWithout(f: int -> real, order: seq<nat>, k: nat)
    requires k < |order|
    ensures SeqSum(f, order) == SeqSum(f, order[..k] + order[k + 1..]) + f(order[k])
    decreases |order|
  {
    var last := |order| - 1;
    if k == last {
      assert order[..k] + order[k + 1..] == order[..last];
    } else {
      SeqSumWithout(f, order[..last], k);
      var rest := order[..k] + order[k + 1..];
      assert rest[..|rest| - 1] == order[..last][..k] + order[..last][k + 1..];
      assert rest[|rest| - 1] == order[last];
    }
  }

  /** Every order of the additions gives the same sum. */
  lemma {:induction false} AnyOrderSum(f: int -> real, order: seq<nat>, n: nat)
    requires |order| == n && forall p: nat | p < n :: p in order
    ensures SeqSum(f, order) == Sum(f, 0, n)
    decreases n
  {
    if n > 0 {
      var top: nat := n - 1;
      assert top in order;
      var k :| 0 <= k < |order| && order[k] == top;
      var rest := order[..k] + order[k + 1..];
      forall p: nat | p < n - 1 ensures p in rest {
        assert p in order;
        var at :| 0 <= at < |order| && order[at] == p;
        assert if at < k then rest[at] == p else rest[at - 1] == p;
      }
      AnyOrderSum(f, rest, n - 1);
      SeqSumWithout(f, order, k);
    }
  }

  /** What program p adds to an element of DQ in head h: one block sum if the program works on that head. */
  function Part(g: RowGrid, h: nat, sums: int -> real): int -> real
    requires g.Valid()
  {
    p => if g.Number(h, 0) <= p < g.Number(h, 0) + g.Blocks() then sums(p - g.Number(h, 0)) else 0.0
  }

  /** Over a whole run the parts of one head are all its block sums. */
  lemma PartsOfHead(g: RowGrid, h: nat, sums: int -> real, order: seq<nat>)
    requires g.Valid() && h < g.heads && g.IsRun(order)
    ensures SeqSum(Part(g, h, sums), order) == Sum(sums, 0, g.Blocks())
  {
    var f, lo := Part(g, h, sums), g.Number(h, 0);
    var hi := lo + g.Blocks();
    AnyOrderSum(f, order, g.Programs());
    SpanAdds(h, 1, g.Blocks());
    SpanAdds(h + 1, g.heads - (h + 1), g.Blocks());
    SumSplit(f, 0, lo, g.Programs());
    SumSplit(f, lo, hi, g.Programs());
    SumZero(f, 0, lo);
    SumZero(f, hi, g.Programs());
    assert forall b | 0 <= b < g.Blocks() :: ShiftAt(f, sums, lo, b);
    SumMoved(f, sums, lo, g.Blocks(), lo, hi);
  }

  /** The element d of a row of DQ. */
  datatype Element = Element(h: nat, i: nat, row: nat, d: nat) {
    ghost predicate In(s: SavedBatch) {
      h < s.x.heads && i < s.x.nCtx && row == s.Grid().Base(h) + i && s.block > 0
    }

    function Sums(s: SavedBatch, delta: Vec): int -> real
      requires In(s)
    {
      BlockSums(s.Head(h), DeltaFrom(delta, s.Grid().Base(h)), i, d)
    }
  }

  /** One program adds its part to an element of DQ: when the block size divides the length its loop stays
      inside its own head, and a row it skips would have received zero. */
  lemma ProgramAddsPart(s: SavedBatch, delta: Vec, p: nat, e: Element, g: Grads)
    requires e.In(s) && s.x.nCtx % s.block == 0 && s.Grid().Has(p) && e.d < |g.dq|
    ensures var next := ProgramGrads(s, delta, p, e.row, g).dq;
            |next| == |g.dq| && next[e.d] == g.dq[e.d] + Part(s.Grid(), e.h, e.Sums(s, delta))(p)
  {
    ProgramRange(s.Grid(), p, e.h);
    if s.Grid().HeadOf(p) == e.h {
      OwnProgramAdds(s, delta, p, e, g);
    } else {
      OtherProgramAdds(s, delta, p, e, g);
    }
  }

  lemma OwnProgramAdds(s: SavedBatch, delta: Vec, p: nat, e: Element, g: Grads)
    requires e.In(s) && s.x.nCtx % s.block == 0 && s.Grid().Has(p) && e.d < |g.dq| && s.Grid().HeadOf(p) == e.h
    ensures var next := ProgramGrads(s, delta, p, e.row, g).dq;
            |next| == |g.dq| && next[e.d] == g.dq[e.d] + e.Sums(s, delta)(s.Grid().BlockIn(p))
  {
    var b := s.Grid().BlockIn(p);
    LoopEndsAt(s, e.h, b);
    if e.i < s.Head(e.h).Lo(b) {
      SkippedRowAddsZero(s.Head(e.h), DeltaFrom(delta, s.Grid().Base(e.h)), b, e.i, e.d);
    }
  }

  lemma OtherProgramAdds(s: SavedBatch, delta: Vec, p: nat, e: Element, g: Grads)
    requires e.In(s) && s.x.nCtx % s.block == 0 && s.Grid().Has(p) && s.Grid().HeadOf(p) != e.h
    ensures ProgramGrads(s, delta, p, e.row, g).dq == g.dq
  {
    LoopEndsAt(s, s.Grid().HeadOf(p), s.Grid().BlockIn(p));
    OtherHead(s.Grid(), s.Grid().HeadOf(p), e.h, e.i);
  }

  /** The rows of two heads do not meet. */
  lemma OtherHead(g: RowGrid, k: nat, h: nat, i: nat)
    requires k < g.heads && h < g.heads && k != h && i < g.length
    ensures !(g.Base(k) <= g.Base(h) + i < g.Base(k) + g.length)
  {
    HeadRow(g, h, i);
    if g.Base(k) <= g.Base(h) + i < g.Base(k) + g.length {
      HeadRow(g, k, g.Base(h) + i - g.Base(k));
    }
  }

  lemma {:induction false} DqIsPartSum(s: SavedBatch, delta: Vec, order: seq<nat>, n: nat, e: Element, g: Grads)
    requires e.In(s) && s.x.nCtx % s.block == 0 && s.Grid().IsRun(order) && n <= |order| && e.d < |g.dq|
    ensures var dq := After(s, delta, order, n, e.row, g).dq;
            |dq| == |g.dq|
            && dq[e.d] == g.dq[e.d] + SeqSum(Part(s.Grid(), e.h, e.Sums(s, delta)), order[..n])
  {
    if n > 0 {
      DqIsPartSum(s, delta, order, n - 1, e, g);
      ProgramAddsPart(s, delta, order[n - 1], e, After(s, delta, order, n - 1, e.row, g));
      SeqSumStep(Part(s.Grid(), e.h, e.Sums(s, delta)), order, n);
    }
  }

  lemma SeqSumStep(f: int -> real, order: seq<nat>, n: nat)
    requires 0 < n <= |order|
    ensures SeqSum(f, order[..n]) == SeqSum(f, order[..n - 1]) + f(order[n - 1])
  {
    assert order[..n][..n - 1] == order[..n - 1];
  }

  // ----- the rows of DK and DV: the last writer --------------------------------------------------

  lemma {:induction false} KeyIsLastWritten(s: SavedBatch, delta: Vec, order: seq<nat>, n: nat, row: nat, g: Grads)
    requires s.block > 0 && s.Grid().IsRun(order) && n <= |order|
    ensures var at, r := LastWriter(s.Grid(), order, n, row), After(s, delta, order, n, row, g);
            KeyGrad(r.dk, r.dv) == if at >= 0 then KeyWritten(s, delta, order[at], row) else KeyGrad(g.dk, g.dv)
  {
    if n > 0 {
      KeyIsLastWritten(s, delta, order, n - 1, row, g);
      ProgramStoresKey(s, delta, order[n - 1], row, After(s, delta, order, n - 1, row, g));
    }
  }

  lemma ProgramStoresKey(s: SavedBatch, delta: Vec, p: nat, row: nat, g: Grads)
    requires s.block > 0 && s.Grid().Has(p)
    ensures var r := ProgramGrads(s, delta, p, row, g);
            KeyGrad(r.dk, r.dv)
            == if s.Grid().Covers(p, row) then KeyWritten(s, delta, p, row) else KeyGrad(g.dk, g.dv)
  {
  }

  /** What a program stores in a row of DK and DV that its block covers. */
  function KeyWritten(s: SavedBatch, delta: Vec, p: nat, row: nat): KeyGrad
    requires s.block > 0 && s.Grid().Has(p) && s.Grid().Covers(p, row)
  {
    var grid := s.Grid();
    var h, b := grid.HeadOf(p), grid.BlockIn(p);
    KeySum(s.Head(h), DeltaFrom(delta, grid.Base(h)), row - grid.Base(h), s.Head(h).Lo(b), s.Head(h).End(b))
  }

  // ----- the reference gradients -----------------------------------------------------------------

  ghost predicate QueryRow(s: Saved, i: nat, dq: seq<real>)
    requires s.x.Valid()
  {
    |dq| == s.x.dim && forall d | 0 <= d < s.x.dim :: dq[d] == DQuery(s.x, s.dO, i, d)
  }

  ghost predicate KeyRow(s: Saved, j: nat, key: KeyGrad)
    requires s.x.Valid()
  {
    && |key.dk| == |key.dv| == s.x.dim
    && forall d | 0 <= d < s.x.dim :: key.dk[d] == DKey(s.x, s.dO, j, d) && key.dv[d] == DValue(s.x, s.dO, j, d)
  }

  /** A row holds all three gradients of its position in its own head. */
  ghost predicate GradsRight(s: SavedBatch, row: nat, g: Grads)
    requires s.x.Valid() && row < s.Rows()
  {
    assert s.x.nCtx > 0;
    var head, i := s.Head(BlockOf(row, s.x.nCtx)), SlotOf(row, s.x.nCtx);
    QueryRow(head, i, g.dq) && KeyRow(head, i, KeyGrad(g.dk, g.dv))
  }

  lemma QueryRowIsRight(s: SavedBatch, delta: Vec, order: seq<nat>, h: nat, i: nat, row: nat, g: Grads)
    requires s.Valid() && s.x.nCtx % s.block == 0 && s.Grid().IsRun(order)
    requires h < s.x.heads && i < s.x.nCtx && row == s.Grid().Base(h) + i && g.dq == Zeros(s.x.dim)
    requires s.Head(h).Valid() && DeltaIs(s.Head(h), DeltaFrom(delta, s.Grid().Base(h)))
    ensures QueryRow(s.Head(h), i, After(s, delta, order, |order|, row, g).dq)
  {
    var dq := After(s, delta, order, |order|, row, g).dq;
    DqIsShaped(s, delta, order, |order|, row, g);
    forall d | 0 <= d < s.x.dim ensures dq[d] == DQuery(s.Head(h).x, s.Head(h).dO, i, d) {
      var head, from := s.Head(h), DeltaFrom(delta, s.Grid().Base(h));
      DqIsPartSum(s, delta, order, |order|, Element(h, i, row, d), g);
      assert order[..|order|] == order;
      PartsOfHead(s.Grid(), h, BlockSums(head, from, i, d), order);
      RoundUpExact(s.x.nCtx, s.block);
      QueryGradient(head, from, s.Grid().Blocks(), i, d);
    }
  }

  lemma {:induction false} DqIsShaped(s: SavedBatch, delta: Vec, order: seq<nat>, n: nat, row: nat, g: Grads)
    requires s.block > 0 && s.Grid().IsRun(order) && n <= |order|
    ensures |After(s, delta, order, n, row, g).dq| == |g.dq|
  {
    if n > 0 {
      DqIsShaped(s, delta, order, n - 1, row, g);
    }
  }

  function Zeros(dim: nat): seq<real> { seq(dim, d => 0.0) }

  lemma KeyRowIsRight(s: SavedBatch, delta: Vec, order: seq<nat>, h: nat, j: nat, row: nat, g: Grads)
    requires s.Valid() && s.x.nCtx % s.block == 0 && s.Grid().IsRun(order)
    requires h < s.x.heads && j < s.x.nCtx && row == s.Grid().Base(h) + j
    requires s.Head(h).Valid() && DeltaIs(s.Head(h), DeltaFrom(delta, s.Grid().Base(h)))
    ensures var r := After(s, delta, order, |order|, row, g); KeyRow(s.Head(h), j, KeyGrad(r.dk, r.dv))
  {
    var p := KeyWriter(s, order, h, j, row);
    KeyIsLastWritten(s, delta, order, |order|, row, g);
    LoopEndsAt(s, h, s.Grid().BlockIn(p));
    KeySumIsRight(s.Head(h), DeltaFrom(delta, s.Grid().Base(h)), s.Grid().BlockIn(p), j);
  }

  /** The last writer of a key's row is a program of its own head, whose block starts at the key or before. */
  lemma KeyWriter(s: SavedBatch, order: seq<nat>, h: nat, j: nat, row: nat) returns (p: nat)
    requires s.block > 0 && s.x.nCtx % s.block == 0 && s.Grid().IsRun(order)
    requires h < s.x.heads && j < s.x.nCtx && row == s.Grid().Base(h) + j
    ensures var at := LastWriter(s.Grid(), order, |order|, row);
            at >= 0 && p == order[at] && s.Grid().Has(p) && s.Grid().HeadOf(p) == h
    ensures s.Grid().BlockIn(p) * s.block <= j
  {
    var grid := s.Grid();
    HeadRow(grid, h, j);
    RowIsCovered(grid, order, row);
    p := order[LastWriter(grid, order, |order|, row)];
    OwnRow(grid, p, row);
  }

  /** The rows a program stores for a key of its block are the reference gradients. */
  lemma KeySumIsRight(s: Saved, delta: int -> real, startN: nat, j: nat)
    requires s.Valid() && DeltaIs(s, delta) && j < s.x.nCtx && startN * s.block <= j
    ensures KeyRow(s, j, KeySum(s, delta, j, s.Lo(startN), s.x.nCtx))
  {
    forall d | 0 <= d < s.x.dim
      ensures KeySum(s, delta, j, s.Lo(startN), s.x.nCtx).dk[d] == DKey(s.x, s.dO, j, d)
      ensures KeySum(s, delta, j, s.Lo(startN), s.x.nCtx).dv[d] == DValue(s.x, s.dO, j, d)
    {
      KeyGradients(s, delta, startN, j, d);
    }
  }

  /** When the block size divides the length, every row of every head receives its reference gradients in
      every order of the programs, from DQ zero and DK and DV with any contents. */
  lemma GradsComeOutRight(s: SavedBatch, delta: Vec, order: seq<nat>, row: nat, g: Grads)
    requires s.Valid() && s.x.nCtx % s.block == 0 && s.Grid().IsRun(order) && |delta| >= s.Rows()
    requires row < s.Rows() && g.dq == Zeros(s.x.dim)
    ensures GradsRight(s, row, AfterRun(s, delta, order, row, g))
    ensures var r, head, i := AfterRun(s, delta, order, row, g), s.Head(BlockOf(row, s.x.nCtx)), SlotOf(row, s.x.nCtx);
            && |r.dq| == |r.dk| == |r.dv| == s.x.dim
            && forall d | 0 <= d < s.x.dim ::
                 && r.dq[d] == DQuery(head.x, head.dO, i, d) && r.dk[d] == DKey(head.x, head.dO, i, d)
                 && r.dv[d] == DValue(head.x, head.dO, i, d)
  {
    assert s.x.nCtx > 0;
    var h, i := BlockOf(row, s.x.nCtx), SlotOf(row, s.x.nCtx);
    BlockBelow(row, s.x.heads, s.x.nCtx);
    BlockAndSlot(row, s.x.nCtx);
    DeltaIsReady(s, delta, h);
    QueryRowIsRight(s, DeltaAfter(s, delta), order, h, i, row, g);
    KeyRowIsRight(s, DeltaAfter(s, delta), order, h, i, row, g);
  }

  /** Then nothing after the buffers changes either. */
  lemma GradStoresInside(s: SavedBatch, delta: Vec, order: seq<nat>, n: nat, row: nat, g: Grads)
    requires s.block > 0 && s.x.nCtx % s.block == 0 && s.Grid().IsRun(order) && n <= |order| && s.Rows() <= row
    ensures After(s, delta, order, n, row, g) == g
  {
    if n > 0 {
      GradStoresInside(s, delta, order, n - 1, row, g);
      var grid, p := s.Grid(), order[n - 1];
      LoopEndsAt(s, grid.HeadOf(p), grid.BlockIn(p));
      assert !grid.Covers(p, row);
    }
  }

  // ----- a length the block size does not divide -------------------------------------------------

  /** Inputs with zero scores and values. */
  function Zeroed(x: Batch): Batch { x.(scale := 0.0, v := ZeroValues()) }

  function ZeroValues(): Mat { (j, d) => 0.0 }

  ghost predicate IsZeroed(x: Batch) { x.scale == 0.0 && x.v == ZeroValues() }

  /** An incoming gradient of one in every row after the first head and of zero in it. */
  function AfterFirstHead(n: nat): Mat { (i, d) => if i < n then 0.0 else 1.0 }

  /** What a right forward pass saves for such inputs, with positive sums in the memory after it as well. */
  ghost predicate Tail(s: SavedBatch) {
    s.Valid() && IsZeroed(s.x) && s.dO == AfterFirstHead(s.x.nCtx) && forall i :: s.cell(i).l > 0.0
  }

  /** With scale zero a head's row maximum is zero. */
  lemma FlatMax(x: Launch, i: nat)
    requires x.Valid() && x.scale == 0.0 && i < x.nCtx
    ensures MaxOf(NaiveScores(x, i), 0, x.nCtx) == Fin(0.0)
    ensures SumExp(x.fns, NaiveScores(x, i), 0.0, 0, x.nCtx) > 0.0
  {
    var z := NaiveScores(x, i);
    forall j | z(j).Fin? ensures z(j) == Fin(0.0) {
      FlatScore(x, i, j);
    }
    FiniteMax(z, 0, x.nCtx);
    MaxIsMaximum(z, 0, x.nCtx);
    SumExpPositive(x.fns, z, 0.0, 0, x.nCtx);
  }

  /** Such saved rows exist for every geometry. */
  function TailCells(x: Batch): int -> Cell
    requires x.Valid()
  {
    row => Cell(Zeros(x.dim), TailMass(x, row), 0.0)
  }

  function TailMass(x: Batch, row: int): real
    requires x.Valid()
  {
    if 0 <= row < x.Rows() && x.nCtx > 0 then
      SumExp(x.fns, NaiveScores(x.Head(BlockOf(row, x.nCtx)), SlotOf(row, x.nCtx)), 0.0, 0, x.nCtx)
    else 1.0
  }

  function TailBatch(g: SavedBatch): SavedBatch
    requires g.x.Valid()
  {
    SavedBatch(Zeroed(g.x), TailCells(Zeroed(g.x)), AfterFirstHead(g.x.nCtx), g.block)
  }

  lemma TailExists(g: SavedBatch)
    requires g.x.Valid() && g.block > 0
    ensures Tail(TailBatch(g)) && SameGeometry(TailBatch(g).x, g.x)
  {
    TailCellsAreRight(TailBatch(g));
  }

  lemma TailCellsAreRight(s: SavedBatch)
    requires s.x.Valid() && s.block > 0 && IsZeroed(s.x) && s.cell == TailCells(s.x)
    ensures s.Valid()
    ensures forall i :: s.cell(i).l > 0.0
  {
    forall i ensures s.cell(i).l > 0.0 {
      if 0 <= i < s.x.Rows() && s.x.nCtx > 0 {
        TailRow(s.x, i);
      }
    }
    forall row: nat | row < s.x.Rows() ensures s.RowSaved(row) {
      TailRow(s.x, row);
    }
  }

  lemma TailRow(x: Batch, row: nat)
    requires x.Valid() && IsZeroed(x) && row < x.Rows()
    ensures x.nCtx > 0 && NaiveCell(x, row, TailCells(x)(row)) && TailCells(x)(row).l > 0.0
  {
    assert x.nCtx > 0;
    var head, i := x.Head(BlockOf(row, x.nCtx)), SlotOf(row, x.nCtx);
    FlatMax(head, i);
    forall d | 0 <= d < x.dim ensures Real(TailCells(x)(row).out[d]) == NaiveOutput(head, i, d) {
      NaiveOfZeros(head, i, d);
    }
  }

  /** The loop of head 0's last key block runs into the rows after the head, whose incoming gradient is one. */
  lemma TailValueGradient(s: SavedBatch, b: nat, j: nat)
    requires Tail(s) && s.x.heads > 0 && s.x.nCtx % s.block != 0
    requires b == s.Grid().Blocks() - 1 && j == b * s.block < s.x.nCtx && s.Head(0).Valid()
    ensures Sum(DvKernel(s.Head(0), j, 0), s.Head(0).Lo(b), s.Head(0).End(b)) > 0.0
    ensures DValue(s.Head(0).x, s.Head(0).dO, j, 0) == 0.0
  {
    var head := s.Head(0);
    LoopEndsAt(s, 0, b);
    LoopEndAbove(head.Lo(b), head.x.nCtx, head.block);
    forall i ensures DvKernel(head, j, 0)(i) >= 0.0 && (i == head.x.nCtx ==> DvKernel(head, j, 0)(i) > 0.0) {
      TailTerm(head, i, j);
    }
    SumPositive(DvKernel(head, j, 0), head.Lo(b), head.End(b), head.x.nCtx);
    forall i | 0 <= i < head.x.nCtx ensures DvTerms(head.x, head.dO, j, 0)(i) == 0.0 {
      TimesUnits(Prob(head.x, i, j));
    }
    SumZero(DvTerms(head.x, head.dO, j, 0), 0, head.x.nCtx);
  }

  lemma TailTerm(s: Saved, i: int, j: nat)
    requires s.Valid() && s.x.scale == 0.0 && j < s.x.nCtx && s.cell(i).l > 0.0
    requires s.dO(i, 0) == if i < s.x.nCtx then 0.0 else 1.0
    ensures DvKernel(s, j, 0)(i) >= 0.0
    ensures i >= s.x.nCtx ==> DvKernel(s, j, 0)(i) > 0.0
  {
    var e := ExpDiff(s.x.fns, s.x.Scores(i)(j), s.cell(i).m);
    ExpDiffNonNegative(s.x.fns, s.x.Scores(i)(j), s.cell(i).m);
    RatioSign(e, s.cell(i).l);
    TimesUnits(P(s, i, j));
  }

  /** So the row of head 0's last key block gets a wrong value gradient when head 0 runs last. */
  lemma TailIsWrong(s: SavedBatch, delta: Vec, before: Grads) returns (row: nat)
    requires Tail(s) && s.x.dim > 0 && s.x.heads > 0 && s.x.nCtx % s.block != 0
    ensures row < s.Rows()
    ensures !GradsRight(s, row, AfterRun(s, delta, HeadZeroLast(s.Grid()), row, before))
  {
    HeadIsValid(s, 0);
    var b := LastBlock(s.Grid());
    row := b * s.block;
    FirstHeadRow(s.x, row);
    TailValueGradient(s, b, row);
    TailStores(s, DeltaAfter(s, delta), b, row, before);
  }

  /** What head 0's last key block stores stays when head 0 runs last. */
  lemma TailStores(s: SavedBatch, delta: Vec, b: nat, row: nat, before: Grads)
    requires s.block > 0 && s.x.heads > 0 && s.x.nCtx > 0 && b == s.Grid().Blocks() - 1 && s.x.dim > 0
    requires b * s.block <= row < b * s.block + s.block
    ensures var order := HeadZeroLast(s.Grid());
            After(s, delta, order, |order|, row, before).dv
            == KeySum(s.Head(0), DeltaFrom(delta, s.Grid().Base(0)), row, s.Head(0).Lo(b), s.Head(0).End(b)).dv
  {
    HeadZeroRunEnds(s.Grid(), row);
    var order := HeadZeroLast(s.Grid());
    KeyIsLastWritten(s, delta, order, |order|, row, before);
  }

  // ----- exactly when the launch is right --------------------------------------------------------

  /** Whatever was saved, the gradient coming in, the memory around them, the old contents of the buffers
      (DQ zero) and the order of the programs, every row of every head receives its gradients. */
  ghost predicate AllGradsRight(g: SavedBatch)
    requires g.block > 0
  {
    forall s: SavedBatch, delta: Vec, order: seq<nat>, row: nat, before: Grads
      | && s.Valid() && SameGeometry(s.x, g.x) && s.block == g.block && s.Grid().IsRun(order)
        && |delta| >= s.Rows() + s.block && row < s.Rows() && before.dq == Zeros(s.x.dim) ::
      GradsRight(s, row, AfterRun(s, delta, order, row, before))
  }

  /** And no row of the memory after the buffers changes. */
  ghost predicate GradStoresStayInside(g: SavedBatch)
    requires g.block > 0
  {
    forall s: SavedBatch, delta: Vec, order: seq<nat>, row: nat, before: Grads
      | && s.Valid() && SameGeometry(s.x, g.x) && s.block == g.block && s.Grid().IsRun(order)
        && s.Rows() <= row < |delta| ::
      && AfterRun(s, delta, order, row, before) == before
      && DeltaAfter(s, delta)[row] == delta[row]
  }

  lemma InsideWhenDivided(g: SavedBatch)
    requires g.block > 0 && (g.x.heads == 0 || g.x.nCtx % g.block == 0)
    ensures GradStoresStayInside(g)
  {
    forall s: SavedBatch, delta: Vec, order: seq<nat>, row: nat, before: Grads
      | && s.Valid() && SameGeometry(s.x, g.x) && s.block == g.block && s.Grid().IsRun(order)
        && s.Rows() <= row < |delta|
      ensures AfterRun(s, delta, order, row, before) == before && DeltaAfter(s, delta)[row] == delta[row]
    {
      RowStaysInside(s, delta, order, row, before);
    }
  }

  lemma RowStaysInside(s: SavedBatch, delta: Vec, order: seq<nat>, row: nat, before: Grads)
    requires s.block > 0 && (s.x.heads == 0 || s.x.nCtx % s.block == 0) && s.Grid().IsRun(order)
    requires s.Rows() <= row < |delta|
    ensures AfterRun(s, delta, order, row, before) == before && DeltaAfter(s, delta)[row] == delta[row]
  {
    ExtentIsRows(s.Grid());
    if s.x.heads > 0 {
      GradStoresInside(s, DeltaAfter(s, delta), order, |order|, row, before);
    }
  }

  lemma ExtentIsRows(g: RowGrid)
    requires g.Valid() && (g.heads == 0 || g.length % g.block == 0)
    ensures g.Extent() == g.Rows() && (g.heads == 0 ==> g.Programs() == 0)
  {
    RoundUpExact(g.length, g.block);
    if g.heads > 0 {
      LastHeadEnds(g);
    }
  }

  /** The preprocess of a length the block size does not divide overwrites the row after the delta buffer. */
  lemma DeltaRunsOver(s: SavedBatch) returns (delta: Vec)
    requires s.block > 0 && s.x.heads > 0 && s.x.nCtx % s.block != 0
    ensures s.Rows() < |delta| && DeltaAfter(s, delta)[s.Rows()] != delta[s.Rows()]
  {
    var row := s.Rows();
    delta := seq(row + 1, k => OutDot(s.cell(row).out, s.dO, row) + 1.0);
    LastHeadEnds(s.Grid());
    RoundUpExact(s.x.nCtx, s.block);
  }

  /** No store of the backward launches leaves the buffers, for every input and order, if and only if the block
      size divides the length. */
  lemma GradStoresInsideIff(g: SavedBatch)
    requires g.x.Valid() && g.block > 0
    ensures GradStoresStayInside(g) <==> g.x.heads == 0 || g.x.nCtx % g.block == 0
  {
    if g.x.heads == 0 || g.x.nCtx % g.block == 0 {
      InsideWhenDivided(g);
    } else {
      var s := TailBatch(g);
      TailExists(g);
      var delta := DeltaRunsOver(s);
      var order, before := HeadZeroLast(s.Grid()), Grads([], [], []);
      var after := AfterRun(s, delta, order, s.Rows(), before);
      assert !GradStoresStayInside(g);
    }
  }

  /** The backward launch is right, for every input, memory and order, if and only if its block size divides
      the length. */
  lemma BackwardExactIff(g: SavedBatch)
    requires g.x.Valid() && g.x.dim > 0 && g.block > 0
    ensures AllGradsRight(g) <==> g.x.heads == 0 || g.x.nCtx % g.block == 0
    ensures GradStoresStayInside(g) <==> g.x.heads == 0 || g.x.nCtx % g.block == 0
  {
    GradStoresInsideIff(g);
    if g.x.heads == 0 || g.x.nCtx % g.block == 0 {
      forall s: SavedBatch, delta: Vec, order: seq<nat>, row: nat, before: Grads
        | && s.Valid() && SameGeometry(s.x, g.x) && s.block == g.block && s.Grid().IsRun(order)
          && |delta| >= s.Rows() + s.block && row < s.Rows() && before.dq == Zeros(s.x.dim)
        ensures GradsRight(s, row, AfterRun(s, delta, order, row, before))
      {
        GradsComeOutRight(s, delta, order, row, before);
      }
    } else {
      var delta, before := seq(Span(g.x.heads, g.x.nCtx) + g.block, k => 0.0), Grads(Zeros(g.x.dim), [], []);
      var s := TailBatch(g);
      TailExists(g);
      var row := TailIsWrong(s, delta, before);
      assert !AllGradsRight(g);
    }
  }
}
