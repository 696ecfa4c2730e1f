/** A two-dimensional launch (blocks, heads) over buffers that hold the rows of one head after another:
    which rows each program covers, and the orders in which the programs may run. */
module LaunchGrid {
  import opened Integers

  /** The numbers below n in some order. */
  ghost predicate IsPermutation(order: seq<nat>, n: nat) {
    && |order| == n
    && (forall k | 0 <= k < |order| :: order[k] < n)
    && (forall p: nat | p < n :: p in order)
  }

  /** The grid (cdiv(length, block), heads). Its programs are numbered head by head. */
  datatype RowGrid = RowGrid(heads: nat, length: nat, block: nat) {
    predicate Valid() { block > 0 }

    function Rows(): nat { Span(heads, length) }

    function Base(h: nat): nat { Span(h, length) }

    function Blocks(): nat
      requires Valid()
    {
      BlocksFor(length, block)
    }

    function Programs(): nat
      requires Valid()
    {
      Span(heads, Blocks())
    }

    predicate Has(p: nat)
      requires Valid()
    {
      p < Programs()
    }

    function Number(head: nat, b: nat): nat
      requires Valid()
    {
      Span(head, Blocks()) + b
    }

    function HeadOf(p: nat): (h: nat)
      requires Valid() && Has(p)
      ensures h < heads && Base(h) + length <= Rows()
    {
      assert Blocks() > 0;
      BlockBelow(p, heads, Blocks());
      var h := BlockOf(p, Blocks());
      SpanAdds(h, 1, length);
      SpanAdds(h + 1, heads - (h + 1), length);
      h
    }

    function BlockIn(p: nat): (b: nat)
      requires Valid() && Has(p)
      ensures b < Blocks() && b * block < length
      ensures length % block == 0 ==> b * block + block <= length
    {
      assert Blocks() > 0;
      BlockStarts(length, block, SlotOf(p, Blocks()));
      SlotOf(p, Blocks())
    }

    /** The row of the buffers at which a program's block starts. */
    function First(p: nat): (first: nat)
      requires Valid() && Has(p)
      ensures first < Rows()
    {
      Base(HeadOf(p)) + BlockIn(p) * block
    }

    /** The row after the last one that a program of the launch covers. */
    function Extent(): nat
      requires Valid()
    {
      if heads == 0 then 0 else Base(heads - 1) + RoundUp(length, block)
    }

    /** The rows of a program's block, which may run past the end of its head. */
    predicate Covers(p: nat, row: nat)
      requires Valid() && Has(p)
    {
      First(p) <= row < First(p) + block
    }

    /** A run of the launch: every program once, in any order. */
    ghost predicate IsRun(order: seq<nat>)
      requires Valid()
    {
      IsPermutation(order, Programs())
    }
  }

  lemma BlockStarts(n: nat, unit: nat, b: nat)
    requires unit > 0 && b < BlocksFor(n, unit)
    ensures b * unit < n
    ensures n % unit == 0 ==> b * unit + unit <= n
  {
    var blocks := BlocksFor(n, unit);
    SpanAdds(b, blocks - b, unit);
    SpanAdds(1, blocks - b - 1, unit);
    RoundUpExact(n, unit);
  }

  /** Every block of every head has a program. */
  lemma PairProgram(g: RowGrid, head: nat, b: nat)
    requires g.Valid() && head < g.heads && b < g.Blocks()
    ensures g.Has(g.Number(head, b))
    ensures g.HeadOf(g.Number(head, b)) == head && g.BlockIn(g.Number(head, b)) == b
    ensures g.First(g.Number(head, b)) == g.Base(head) + b * g.block
  {
    SpanAdds(head, 1, g.Blocks());
    SpanAdds(head + 1, g.heads - (head + 1), g.Blocks());
    EuclideanRest(g.Number(head, b), g.Blocks(), head, b);
  }

  /** The programs of one head are numbered consecutively. */
  lemma ProgramRange(g: RowGrid, p: nat, h: nat)
    requires g.Valid() && g.Has(p)
    ensures g.Blocks() > 0
    ensures g.HeadOf(p) == h <==> g.Number(h, 0) <= p < g.Number(h, 0) + g.Blocks()
    ensures g.HeadOf(p) == h ==> g.BlockIn(p) == p - g.Number(h, 0)
  {
    assert g.Blocks() > 0;
    BlockAndSlot(p, g.Blocks());
    if g.Number(h, 0) <= p < g.Number(h, 0) + g.Blocks() {
      EuclideanRest(p, g.Blocks(), h, p - g.Number(h, 0));
    }
  }

  // ----- the program that writes a row last ------------------------------------------------------

  /** The position of the last of the first n programs whose block covers the row, or -1. */
  function LastWriter(g: RowGrid, order: seq<nat>, n: nat, row: nat): (at: int)
    requires g.Valid() && g.IsRun(order) && n <= |order|
    ensures -1 <= at < n
    ensures at >= 0 ==> g.Covers(order[at], row)
    ensures forall k | at < k < n :: !g.Covers(order[k], row)
  {
    if n == 0 then -1
    else if g.Covers(order[n - 1], row) then n - 1
    else LastWriter(g, order, n - 1, row)
  }

  /** Every row of every head is covered by some program. */
  lemma RowIsCovered(g: RowGrid, order: seq<nat>, row: nat)
    requires g.Valid() && g.IsRun(order) && row < g.Rows()
    ensures LastWriter(g, order, |order|, row) >= 0
  {
    assert g.length > 0;
    var head, i := BlockOf(row, g.length), SlotOf(row, g.length);
    BlockAndSlot(row, g.length);
    BlockBelow(row, g.heads, g.length);
    var b := BlockOf(i, g.block);
    BlockAndSlot(i, g.block);
    BlockBelow(i, g.Blocks(), g.block);
    PairProgram(g, head, b);
    ProgramCovers(g, order, g.Number(head, b), row);
  }

  lemma ProgramCovers(g: RowGrid, order: seq<nat>, p: nat, row: nat)
    requires g.Valid() && g.IsRun(order) && g.Has(p) && g.Covers(p, row)
    ensures LastWriter(g, order, |order|, row) >= 0
  {
    assert p in order;
    var k :| 0 <= k < |order| && order[k] == p;
    assert g.Covers(order[k], row);
  }

  /** A block covers only rows of its own head when the block size divides the length, and a single head
      has no other rows. */
  lemma OwnRow(g: RowGrid, p: nat, row: nat)
    requires g.Valid() && g.Has(p) && g.Covers(p, row)
    requires g.length % g.block == 0 || (g.heads == 1 && row < g.Rows())
    ensures row < g.Rows() && g.length > 0
    ensures g.HeadOf(p) == BlockOf(row, g.length)
    ensures row - g.Base(g.HeadOf(p)) == SlotOf(row, g.length)
  {
    InsideHead(g, p, row);
    EuclideanRest(row, g.length, g.HeadOf(p), row - g.Base(g.HeadOf(p)));
  }

  lemma InsideHead(g: RowGrid, p: nat, row: nat)
    requires g.Valid() && g.Has(p) && g.Covers(p, row)
    requires g.length % g.block == 0 || (g.heads == 1 && row < g.Rows())
    ensures g.Base(g.HeadOf(p)) <= row < g.Base(g.HeadOf(p)) + g.length
  {
  }

  // ----- the last block of a head ----------------------------------------------------------------

  /** It starts inside its head, and ends after it unless the block size divides the length. */
  lemma LastBlock(g: RowGrid) returns (b: nat)
    requires g.Valid() && g.length > 0
    ensures b == g.Blocks() - 1 && b * g.block < g.length <= b * g.block + g.block == RoundUp(g.length, g.block)
    ensures g.length % g.block != 0 ==> g.length < b * g.block + g.block
  {
    b := g.Blocks() - 1;
    SpanAdds(b, 1, g.block);
    BlockStarts(g.length, g.block, b);
    RoundUpExact(g.length, g.block);
  }

  lemma LastHeadEnds(g: RowGrid)
    requires g.heads > 0
    ensures g.Rows() == g.Base(g.heads - 1) + g.length
  {
    SpanAdds(g.heads - 1, 1, g.length);
  }

  /** The rows some program covers are those below the extent. */
  lemma CoveredIff(g: RowGrid, order: seq<nat>, row: nat)
    requires g.Valid() && g.IsRun(order)
    ensures LastWriter(g, order, |order|, row) >= 0 <==> row < g.Extent()
  {
    var at := LastWriter(g, order, |order|, row);
    if at >= 0 {
      CoveredBelow(g, order[at], row);
    } else if row < g.Extent() {
      BelowIsCovered(g, order, row);
    }
  }

  lemma CoveredBelow(g: RowGrid, p: nat, row: nat)
    requires g.Valid() && g.Has(p) && g.Covers(p, row)
    ensures row < g.Extent()
  {
    var h, b := g.HeadOf(p), g.BlockIn(p);
    SpanAdds(h, g.heads - 1 - h, g.length);
    SpanAdds(b, 1, g.block);
    SpanAdds(b + 1, g.Blocks() - (b + 1), g.block);
  }

  lemma BelowIsCovered(g: RowGrid, order: seq<nat>, row: nat)
    requires g.Valid() && g.IsRun(order) && row < g.Extent()
    ensures LastWriter(g, order, |order|, row) >= 0
  {
    if row < g.Rows() {
      RowIsCovered(g, order, row);
    } else {
      LastHeadEnds(g);
      var b := LastBlock(g);
      PairProgram(g, g.heads - 1, b);
      ProgramCovers(g, order, g.Number(g.heads - 1, b), row);
    }
  }

  /** So the launch covers the row after the buffers unless the block size divides the length. */
  lemma LastHeadRunsOver(g: RowGrid, order: seq<nat>)
    requires g.Valid() && g.heads > 0 && g.length % g.block != 0 && g.IsRun(order)
    ensures LastWriter(g, order, |order|, g.Rows()) >= 0
  {
    LastHeadEnds(g);
    RoundUpExact(g.length, g.block);
    BelowIsCovered(g, order, g.Rows());
  }

  /** The numbers below n with the first `moved` of them at the end. */
  function Rotated(n: nat, moved: nat): seq<nat>
    requires moved <= n
  {
    seq(n, k requires 0 <= k < n => if k < n - moved then k + moved else k - (n - moved))
  }

  lemma RotatedIsPermutation(n: nat, moved: nat)
    requires moved <= n
    ensures IsPermutation(Rotated(n, moved), n)
    ensures moved > 0 ==> Rotated(n, moved)[n - 1] == moved - 1
  {
    var order := Rotated(n, moved);
    forall p: nat | p < n ensures p in order {
      assert order[if p >= moved then p - moved else p + (n - moved)] == p;
    }
  }

  /** A run that ends with the programs of head 0. */
  function HeadZeroLast(g: RowGrid): (order: seq<nat>)
    requires g.Valid() && g.heads > 0
    ensures g.IsRun(order)
    ensures g.length > 0 ==> |order| > 0 && order[|order| - 1] == g.Blocks() - 1
  {
    SpanAdds(1, g.heads - 1, g.Blocks());
    RotatedIsPermutation(g.Programs(), g.Blocks());
    Rotated(g.Programs(), g.Blocks())
  }

  /** In that run the last block of head 0 is the last writer of all its rows. */
  lemma HeadZeroRunEnds(g: RowGrid, row: nat)
    requires g.Valid() && g.heads > 0 && g.length > 0
    requires (g.Blocks() - 1) * g.block <= row < (g.Blocks() - 1) * g.block + g.block
    ensures var order := HeadZeroLast(g);
            LastWriter(g, order, |order|, row) == |order| - 1 >= 0
    ensures var p := g.Blocks() - 1;
            g.Has(p) && g.HeadOf(p) == 0 && g.BlockIn(p) == p && g.Base(0) == 0
  {
    PairProgram(g, 0, g.Blocks() - 1);
  }
}
