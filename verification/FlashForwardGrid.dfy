/** The launch of the forward kernel over all heads of a batch: every head's rows stand in one buffer,
    the programs run in any order, and their stores carry no bounds check. */
module FlashForwardGrid {
  import opened RealFunctions
  import opened Integers
  import opened Attention
  import opened LaunchGrid
  import opened FlashForward

  /** The rows of a buffer from row `base` on, and whatever memory follows it. */
  function RowsFrom(a: Mat, base: nat): Mat { (i, d) => a(base + i, d) }

  /** Contiguous q, k and v of batch * heads heads: head h starts at row h * nCtx. */
  datatype Batch = Batch(fns: RealFns, q: Mat, k: Mat, v: Mat, dim: nat, scale: real, causal: bool,
                         heads: nat, nCtx: nat, blockM: nat, blockN: nat) {
    ghost predicate Valid() { fns.Lawful() && blockM > 0 && blockN > 0 }

    function Grid(): RowGrid { RowGrid(heads, nCtx, blockM) }

    function Rows(): nat { Grid().Rows() }

    function Head(h: nat): Launch {
      var base := Grid().Base(h);
      Launch(fns, RowsFrom(q, base), RowsFrom(k, base), RowsFrom(v, base), dim, scale, causal,
             nCtx, blockM, blockN)
    }
  }

  /** What a program leaves in a row its block covers. */
  function Written(x: Batch, p: nat, row: nat): Cell
    requires x.Valid() && x.Grid().Has(p) && x.Grid().Covers(p, row)
  {
    var g := x.Grid();
    RowCell(x.Head(g.HeadOf(p)), g.BlockIn(p), row - g.Base(g.HeadOf(p)))
  }

  /** A row of the buffers, or of the memory after them, once the run is over: what its last writer stored. */
  function AfterRun(x: Batch, order: seq<nat>, row: nat, c: Cell): Cell
    requires x.Valid() && x.Grid().IsRun(order)
  {
    After(x, order, |order|, row, c)
  }

  function After(x: Batch, order: seq<nat>, n: nat, row: nat, c: Cell): Cell
    requires x.Valid() && x.Grid().IsRun(order) && n <= |order|
  {
    var at := LastWriter(x.Grid(), order, n, row);
    if at >= 0 then Written(x, order[at], row) else c
  }

  lemma AfterStep(x: Batch, order: seq<nat>, n: nat, row: nat, c: Cell)
    requires x.Valid() && x.Grid().IsRun(order) && n < |order|
    ensures var g, p := x.Grid(), order[n];
            After(x, order, n + 1, row, c)
            == StoreCell(x.Head(g.HeadOf(p)), g.Base(g.HeadOf(p)), g.BlockIn(p), row, After(x, order, n, row, c))
  {
  }

  /** The launch _fwd_kernel[cdiv(seq_len, BLOCK_M), batch * heads], its programs in any order. The arrays
      hold the buffers and at least one more block of the memory after them. */
  method Grid(x: Batch, order: seq<nat>, out: array<seq<real>>, l: array<real>, m: array<real>)
    requires x.Valid() && x.Grid().IsRun(order)
    requires out.Length == l.Length == m.Length >= x.Rows() + x.blockM && l != m
    modifies out, l, m
    ensures forall row: nat | row < out.Length ::
      CellAt(out, l, m, row) == AfterRun(x, order, row, old(CellAt(out, l, m, row)))
  {
    var g := x.Grid();
    for idx := 0 to |order|
      invariant forall row: nat | row < out.Length ::
        CellAt(out, l, m, row) == After(x, order, idx, row, old(CellAt(out, l, m, row)))
    {
      var head := g.HeadOf(order[idx]);
      assert g.First(order[idx]) < g.Rows();
      Program(x.Head(head), g.Base(head), g.BlockIn(order[idx]), out, l, m);
      forall row: nat | row < out.Length
        ensures CellAt(out, l, m, row) == After(x, order, idx + 1, row, old(CellAt(out, l, m, row)))
      {
        AfterStep(x, order, idx, row, old(CellAt(out, l, m, row)));
      }
    }
  }

  // ----- what the rows should hold ---------------------------------------------------------------

  /** The row holds the naive attention of its own head's query. */
  ghost predicate NaiveCell(x: Batch, row: nat, c: Cell)
    requires x.Valid() && x.nCtx > 0
  {
    NaiveRow(x.Head(BlockOf(row, x.nCtx)), SlotOf(row, x.nCtx), c)
  }

  /** Launches that share a geometry: one head dimension, mask, number of heads, length and block sizes. */
  ghost predicate SameGeometry(x: Batch, g: Batch) {
    x == g.(q := x.q, k := x.k, v := x.v, scale := x.scale)
  }

  /** Whatever the inputs, the memory around them, the order of the programs and the old contents of the
      buffers, every row of every head comes out naive. */
  ghost predicate RowsComeOutNaive(g: Batch)
    requires g.Valid()
  {
    forall x: Batch, order: seq<nat>, row: nat, c: Cell
      | SameGeometry(x, g) && x.Grid().IsRun(order) && row < x.Rows() ::
      x.nCtx > 0 && NaiveCell(x, row, AfterRun(x, order, row, c))
  }

  /** Whatever the inputs and the order, the memory after the buffers is left alone. */
  ghost predicate StoresStayInside(g: Batch)
    requires g.Valid()
  {
    forall x: Batch, order: seq<nat>, row: nat, c: Cell
      | SameGeometry(x, g) && x.Grid().IsRun(order) && x.Rows() <= row ::
      AfterRun(x, order, row, c) == c
  }

  lemma RowIsNaive(x: Batch, order: seq<nat>, row: nat, c: Cell)
    requires x.Valid() && x.Grid().IsRun(order) && row < x.Rows()
    requires x.heads == 1 || x.nCtx % x.blockM == 0
    requires x.causal || x.nCtx % x.blockN == 0
    ensures x.nCtx > 0 && NaiveCell(x, row, AfterRun(x, order, row, c))
  {
    var g := x.Grid();
    RowIsCovered(g, order, row);
    var p := order[LastWriter(g, order, |order|, row)];
    OwnRow(g, p, row);
    KernelRowIsNaive(x.Head(g.HeadOf(p)), g.BlockIn(p), row - g.Base(g.HeadOf(p)));
  }

  lemma RowIsUntouched(x: Batch, order: seq<nat>, row: nat, c: Cell)
    requires x.Valid() && x.Grid().IsRun(order) && x.Rows() <= row
    requires x.nCtx % x.blockM == 0
    ensures AfterRun(x, order, row, c) == c
  {
    assert LastWriter(x.Grid(), order, |order|, row) < 0;
  }

  // ----- the inputs that fail --------------------------------------------------------------------

  /** Scores zero; values one in the first head and zero in the rows after it, or the other way round. */
  function Marked(g: Batch, inFirstHead: bool): Batch {
    g.(scale := 0.0, v := (j, d) => if (j < g.nCtx) == inFirstHead then 1.0 else 0.0)
  }

  /** What the last block of head 0 stores stays in the buffers when head 0 runs last. */
  lemma HeadZeroStores(x: Batch, b: nat, row: nat, c: Cell)
    requires x.Valid() && x.heads > 0 && x.nCtx > 0 && b == x.Grid().Blocks() - 1 && x.Head(0).Owns(b, row)
    ensures AfterRun(x, HeadZeroLast(x.Grid()), row, c) == RowCell(x.Head(0), b, row)
  {
    HeadZeroRunEnds(x.Grid(), row);
  }

  /** Without a mask, a key block that runs over the length mixes the next rows into the softmax. */
  lemma KeysRunOver(g: Batch, c: Cell) returns (x: Batch, row: nat)
    requires g.Valid() && g.heads > 0 && g.dim > 0 && !g.causal && g.nCtx % g.blockN != 0
    ensures SameGeometry(x, g) && row < x.Rows() && x.nCtx > 0
    ensures !NaiveCell(x, row, AfterRun(x, HeadZeroLast(x.Grid()), row, c))
  {
    x := Marked(g, false);
    var b := LastBlock(x.Grid());
    row := b * x.blockM;
    FirstHeadRow(x, row);
    HeadZeroStores(x, b, row, c);
    KeysReadExact(x.nCtx, x.blockN);
    StoredIsPositive(x.Head(0), b, row, x.nCtx);
    NaiveOfZeros(x.Head(0), row, 0);
  }

  lemma FirstHeadRow(x: Batch, row: nat)
    requires x.heads > 0 && row < x.nCtx
    ensures row < x.Rows() && BlockOf(row, x.nCtx) == 0 && SlotOf(row, x.nCtx) == row
  {
    SpanAdds(1, x.heads - 1, x.nCtx);
    EuclideanRest(row, x.nCtx, 0, row);
  }

  /** A query block that runs over the length of head 0 overwrites the first row of head 1: the row holds
      attention over head 0's values, here positive where head 1's own attention is zero. */
  lemma NextHeadOverwritten(g: Batch, c: Cell) returns (x: Batch, b: nat)
    requires g.Valid() && g.heads > 1 && g.dim > 0 && g.nCtx % g.blockM != 0
    ensures SameGeometry(x, g) && 0 < x.nCtx < x.Rows()
    ensures b == x.Grid().Blocks() - 1 && x.Head(0).Owns(b, x.nCtx)
    ensures AfterRun(x, HeadZeroLast(x.Grid()), x.nCtx, c) == RowCell(x.Head(0), b, x.nCtx)
    ensures RowCell(x.Head(0), b, x.nCtx).out[0] > 0.0 && NaiveOutput(x.Head(1), 0, 0) == Real(0.0)
    ensures !NaiveCell(x, x.nCtx, AfterRun(x, HeadZeroLast(x.Grid()), x.nCtx, c))
  {
    x := Marked(g, true);
    b := LastBlock(x.Grid());
    HeadZeroStores(x, b, x.nCtx, c);
    StoredIsPositive(x.Head(0), b, x.nCtx, 0);
    SecondHeadIsZero(g);
    SecondHeadStarts(x);
    PositiveIsNotNaive(x.Head(1), 0, RowCell(x.Head(0), b, x.nCtx));
  }

  lemma PositiveIsNotNaive(x: Launch, i: nat, c: Cell)
    requires x.Valid() && x.dim > 0 && NaiveOutput(x, i, 0) == Real(0.0) && |c.out| > 0 && c.out[0] > 0.0
    ensures !NaiveRow(x, i, c)
  {
    var element := Real(c.out[0]);
  }

  lemma SecondHeadStarts(x: Batch)
    requires x.heads > 1 && x.nCtx > 0
    ensures x.nCtx < x.Rows() && BlockOf(x.nCtx, x.nCtx) == 1 && SlotOf(x.nCtx, x.nCtx) == 0
  {
    SpanAdds(2, x.heads - 2, x.nCtx);
    SpanAdds(1, 1, x.nCtx);
    EuclideanRest(x.nCtx, x.nCtx, 1, 0);
  }

  lemma SecondHeadIsZero(g: Batch)
    requires g.Valid() && g.nCtx > 0
    ensures NaiveOutput(Marked(g, true).Head(1), 0, 0) == Real(0.0)
  {
    var x := Marked(g, true);
    assert x.Grid().Base(1) == x.nCtx;
    NaiveOfZeros(x.Head(1), 0, 0);
  }

  // ----- exactly when the launch is right --------------------------------------------------------

  /** Every row of every head is naive, for every input, memory and order, if and only if the query block
      divides the length or there is no next head to overwrite, and the mask is causal or the key block
      divides the length. */
  lemma RowsExactIff(g: Batch)
    requires g.Valid() && g.dim > 0
    ensures RowsComeOutNaive(g) <==>
            || g.heads == 0
            || ((g.heads == 1 || g.nCtx % g.blockM == 0) && (g.causal || g.nCtx % g.blockN == 0))
  {
    var c := Cell([], 0.0, 0.0);
    if g.heads == 0 || ((g.heads == 1 || g.nCtx % g.blockM == 0) && (g.causal || g.nCtx % g.blockN == 0)) {
      forall x: Batch, order: seq<nat>, row: nat, c: Cell
        | SameGeometry(x, g) && x.Grid().IsRun(order) && row < x.Rows()
        ensures x.nCtx > 0 && NaiveCell(x, row, AfterRun(x, order, row, c))
      {
        RowIsNaive(x, order, row, c);
      }
    } else if g.heads > 1 && g.nCtx % g.blockM != 0 {
      var x, b := NextHeadOverwritten(g, c);
      assert !RowsComeOutNaive(g);
    } else {
      var x, row := KeysRunOver(g, c);
      assert !RowsComeOutNaive(g);
    }
  }

  /** No store leaves the buffers, for every input and order, if and only if the query block divides the
      length. */
  lemma StoresInsideIff(g: Batch)
    requires g.Valid()
    ensures StoresStayInside(g) <==> g.heads == 0 || g.nCtx % g.blockM == 0
  {
    if g.heads == 0 || g.nCtx % g.blockM == 0 {
      forall x: Batch, order: seq<nat>, row: nat, c: Cell
        | SameGeometry(x, g) && x.Grid().IsRun(order) && x.Rows() <= row
        ensures AfterRun(x, order, row, c) == c
      {
        if g.heads > 0 {
          RowIsUntouched(x, order, row, c);
        }
      }
    } else {
      var order := HeadZeroLast(g.Grid());
      LastHeadRunsOver(g.Grid(), order);
      var c, c' := Cell([], 0.0, 0.0), Cell([], 1.0, 0.0);
      assert SameGeometry(g, g);
      assert AfterRun(g, order, g.Rows(), c) == AfterRun(g, order, g.Rows(), c');
    }
  }

  /** The launch is right for every input, every content of memory and every order of its programs if and
      only if the query block divides the length, and so does the key block unless the mask is causal. */
  lemma ForwardExactIff(g: Batch)
    requires g.Valid() && g.dim > 0
    ensures RowsComeOutNaive(g) && StoresStayInside(g) <==>
            g.heads == 0 || (g.nCtx % g.blockM == 0 && (g.causal || g.nCtx % g.blockN == 0))
  {
    RowsExactIff(g);
    StoresInsideIff(g);
  }

  /** The blocks that _TritonAttention.forward picks. */
  function Chosen(g: Batch): Batch {
    g.(blockM := 64, blockN := if g.dim > 64 then 64 else 128)
  }

  /** With those blocks the launch is right exactly when 64 divides the length, and 128 does for unmasked
      heads of at most 64 columns. */
  lemma ChosenExactIff(g: Batch)
    requires g.fns.Lawful() && g.dim > 0 && g.heads > 0
    ensures RowsComeOutNaive(Chosen(g)) && StoresStayInside(Chosen(g)) <==>
            g.nCtx % 64 == 0 && (g.causal || g.dim > 64 || g.nCtx % 128 == 0)
  {
    ForwardExactIff(Chosen(g));
  }

  /** One hundred tokens, two heads and a causal mask under blocks of 64: the last program of head 0 stores
      rows 100 to 127, the first 28 rows of head 1. */
  lemma HundredTokens(fns: RealFns, zero: Mat, dim: nat, c: Cell) returns (x: Batch)
    requires fns.Lawful() && dim > 0
    ensures SameGeometry(x, Batch(fns, zero, zero, zero, dim, 0.0, true, 2, 100, 64, 64)) && x.Rows() == 200
    ensures AfterRun(x, HeadZeroLast(x.Grid()), 100, c) == RowCell(x.Head(0), 1, 100)
    ensures RowCell(x.Head(0), 1, 100).out[0] > 0.0 && NaiveOutput(x.Head(1), 0, 0) == Real(0.0)
  {
    var b;
    x, b := NextHeadOverwritten(Batch(fns, zero, zero, zero, dim, 0.0, true, 2, 100, 64, 64), c);
  }
}
