/** One training step of the Triton attention: the forward launch over buffers with any contents, then the
    backward launches on what it saved. */
module TrainingStep {
  import opened RealFunctions
  import opened Integers
  import opened Attention
  import opened LaunchGrid
  import opened FlashForward
  import opened FlashForwardGrid
  import opened FlashBackward
  import opened FlashBackwardGrid

  /** The inputs and the memory around them, the order of each launch's programs, the incoming gradient, and
      what the backward's own buffers hold. */
  datatype Step = Step(x: Batch, order: seq<nat>, memory: int -> Cell, dO: Mat, delta: Vec, order': seq<nat>,
                       before: int -> Grads) {

    /** A step on the geometry of g whose backward launches take blocks of the given size. */
    ghost predicate On(g: Batch, block: nat)
      requires g.Valid() && block > 0
    {
      && SameGeometry(x, g) && x.Grid().IsRun(order) && RowGrid(g.heads, g.nCtx, block).IsRun(order')
      && |delta| >= x.Rows() + block && forall row: nat | row < x.Rows() :: before(row).dq == Zeros(g.dim)
    }

    /** The backward's inputs: what the forward launch saved, and the memory around it. */
    function Saved(block: nat): SavedBatch
      requires x.Valid() && x.Grid().IsRun(order)
    {
      SavedBatch(x, SavedBy(x, order, memory), dO, block)
    }

    /** The gradient buffers after both launches. */
    function Gradients(block: nat, row: nat): Grads
      requires x.Valid() && x.Grid().IsRun(order) && block > 0 && RowGrid(x.heads, x.nCtx, block).IsRun(order')
    {
      FlashBackwardGrid.AfterRun(Saved(block), delta, order', row, before(row))
    }
  }

  /** The Out, L and M buffers that a run of the forward launch leaves. */
  function SavedBy(x: Batch, order: seq<nat>, memory: int -> Cell): int -> Cell
    requires x.Valid() && x.Grid().IsRun(order)
  {
    row => if row >= 0 then FlashForwardGrid.AfterRun(x, order, row, memory(row)) else memory(row)
  }

  /** A row inside the buffers holds its naive attention and its three gradients; a row after them keeps
      what it held. */
  ghost predicate RowRight(t: Step, g: Batch, block: nat, row: nat)
    requires g.Valid() && block > 0 && t.On(g, block)
  {
    var s := t.Saved(block);
    if row < s.Rows() then
      && t.x.nCtx > 0 && NaiveCell(t.x, row, s.cell(row))
      && GradsRight(s, row, t.Gradients(block, row))
    else
      && s.cell(row) == t.memory(row) && t.Gradients(block, row) == t.before(row)
      && (row < |t.delta| ==> DeltaAfter(s, t.delta)[row] == t.delta[row])
  }

  /** Every row of every step on that geometry is right. */
  ghost predicate StepsAreRight(g: Batch, block: nat)
    requires g.Valid() && block > 0
  {
    forall t: Step, row: nat | t.On(g, block) :: RowRight(t, g, block, row)
  }

  /** All the block sizes divide the length; the key block of the forward launch need not under a mask. */
  predicate Divides(g: Batch, block: nat)
    requires g.blockM > 0 && g.blockN > 0 && block > 0
  {
    g.nCtx % g.blockM == 0 && (g.causal || g.nCtx % g.blockN == 0) && g.nCtx % block == 0
  }

  lemma SavedIsValid(t: Step, g: Batch, block: nat)
    requires g.Valid() && block > 0 && t.On(g, block)
    requires g.nCtx % g.blockM == 0 && (g.causal || g.nCtx % g.blockN == 0)
    ensures t.Saved(block).Valid()
    ensures forall row: nat | t.x.Rows() <= row :: t.Saved(block).cell(row) == t.memory(row)
  {
    var s := t.Saved(block);
    forall row: nat | row < t.x.Rows() ensures s.RowSaved(row) {
      RowIsNaive(t.x, t.order, row, t.memory(row));
    }
    forall row: nat | t.x.Rows() <= row ensures s.cell(row) == t.memory(row) {
      RowIsUntouched(t.x, t.order, row, t.memory(row));
    }
  }

  /** Forward and backward together give every output and every gradient, and store nothing else, for both
      runs in any order, whenever the blocks of both divide the length. */
  lemma TrainingStepIsRight(t: Step, g: Batch, block: nat, row: nat)
    requires g.Valid() && block > 0 && t.On(g, block) && Divides(g, block)
    ensures RowRight(t, g, block, row)
  {
    var s := t.Saved(block);
    SavedIsValid(t, g, block);
    if row < s.Rows() {
      assert s.RowSaved(row);
      GradsComeOutRight(s, t.delta, t.order', row, t.before(row));
    } else {
      ExtentIsRows(s.Grid());
      GradStoresInside(s, DeltaAfter(s, t.delta), t.order', |t.order'|, row, t.before(row));
    }
  }

  // ----- the steps that fail ---------------------------------------------------------------------

  /** A step whose memory holds one cell everywhere. */
  function StepOver(x: Batch, order: seq<nat>, c: Cell, dO: Mat, block: nat): Step
    requires block > 0 && x.heads > 0
  {
    Step(x, order, row => c, dO, seq(x.Rows() + block, k => 0.0), HeadZeroLast(RowGrid(x.heads, x.nCtx, block)),
         row => ZeroGrads(x.dim))
  }

  function ZeroGrads(dim: nat): Grads { Grads(Zeros(dim), [], []) }

  /** A row of one forward run that does not come out as it should. */
  ghost predicate WrongRow(x: Batch, order: seq<nat>, row: nat, c: Cell)
    requires x.Valid() && x.Grid().IsRun(order)
  {
    var after := FlashForwardGrid.AfterRun(x, order, row, c);
    if row < x.Rows() then x.nCtx > 0 && !NaiveCell(x, row, after) else after != c
  }

  lemma ForwardFails(g: Batch) returns (x: Batch, order: seq<nat>, row: nat, c: Cell)
    requires g.Valid() && g.dim > 0 && g.heads > 0
    requires !(g.nCtx % g.blockM == 0 && (g.causal || g.nCtx % g.blockN == 0))
    ensures SameGeometry(x, g) && x.Grid().IsRun(order) && WrongRow(x, order, row, c)
  {
    c := Cell([], 0.0, 0.0);
    if g.nCtx % g.blockM != 0 {
      StoresInsideIff(g);
      x, order, row, c :| && SameGeometry(x, g) && x.Grid().IsRun(order) && x.Rows() <= row
                          && FlashForwardGrid.AfterRun(x, order, row, c) != c;
    } else {
      x, row := KeysRunOver(g, c);
      order := HeadZeroLast(x.Grid());
    }
  }

  /** A forward launch that goes wrong makes a step that does. */
  lemma WrongForward(g: Batch, block: nat, x: Batch, order: seq<nat>, row: nat, c: Cell)
    requires g.Valid() && block > 0 && g.heads > 0
    requires SameGeometry(x, g) && x.Grid().IsRun(order) && WrongRow(x, order, row, c)
    ensures !StepsAreRight(g, block)
  {
    var t := StepOver(x, order, c, x.v, block);
    assert t.On(g, block) && !RowRight(t, g, block, row);
  }

  /** Under a right forward launch, a backward block that does not divide the length makes a step that goes
      wrong. */
  lemma BackwardFails(g: Batch, block: nat)
    requires g.Valid() && block > 0 && g.dim > 0 && g.heads > 0
    requires g.nCtx % g.blockM == 0 && (g.causal || g.nCtx % g.blockN == 0) && g.nCtx % block != 0
    ensures !StepsAreRight(g, block)
  {
    var x := Zeroed(g);
    var t := StepOver(x, HeadZeroLast(x.Grid()), Cell([], 1.0, 0.0), AfterFirstHead(g.nCtx), block);
    SavedIsTail(t, g, block);
    var row := TailIsWrong(t.Saved(block), t.delta, ZeroGrads(x.dim));
    assert t.On(g, block) && !RowRight(t, g, block, row);
  }

  lemma SavedIsTail(t: Step, g: Batch, block: nat)
    requires g.Valid() && block > 0 && t.On(g, block)
    requires g.nCtx % g.blockM == 0 && (g.causal || g.nCtx % g.blockN == 0)
    requires IsZeroed(t.x) && t.dO == AfterFirstHead(t.x.nCtx) && forall row :: t.memory(row).l == 1.0
    ensures Tail(t.Saved(block))
  {
    var s := t.Saved(block);
    SavedIsValid(t, g, block);
    forall row ensures s.cell(row).l > 0.0 {
      if 0 <= row < t.x.Rows() {
        assert s.RowSaved(row);
        StoredStatsGiveWeights(t.x.Head(BlockOf(row, t.x.nCtx)), SlotOf(row, t.x.nCtx), s.cell(row), 0);
      }
    }
  }

  // ----- exactly when a training step is right ---------------------------------------------------

  /** Forward and backward together are right, for every input, memory and order of either launch, if and only
      if the query block of the forward divides the length, so does its key block unless the mask is causal,
      and so does the block of the backward. */
  lemma TrainingStepExactIff(g: Batch, block: nat)
    requires g.Valid() && g.dim > 0 && block > 0
    ensures StepsAreRight(g, block) <==> g.heads == 0 || Divides(g, block)
  {
    if g.heads == 0 {
      forall t: Step, row: nat | t.On(g, block) ensures RowRight(t, g, block, row) {
        NoHeads(t, g, block, row);
      }
    } else if Divides(g, block) {
      forall t: Step, row: nat | t.On(g, block) ensures RowRight(t, g, block, row) {
        TrainingStepIsRight(t, g, block, row);
      }
    } else if g.nCtx % g.blockM == 0 && (g.causal || g.nCtx % g.blockN == 0) {
      BackwardFails(g, block);
    } else {
      var x, order, row, c := ForwardFails(g);
      WrongForward(g, block, x, order, row, c);
    }
  }

  lemma NoHeads(t: Step, g: Batch, block: nat, row: nat)
    requires g.Valid() && block > 0 && t.On(g, block) && g.heads == 0
    ensures RowRight(t, g, block, row)
  {
    var s := t.Saved(block);
    ExtentIsRows(s.Grid());
    ExtentIsRows(t.x.Grid());
    assert |t.order| == 0 && |t.order'| == 0;
  }

  /** With the blocks the wrapper picks, 64 in the backward, that is when 64 divides the length, and 128 does
      for unmasked heads of at most 64 columns. */
  lemma ChosenStepExactIff(g: Batch)
    requires g.fns.Lawful() && g.dim > 0 && g.heads > 0
    ensures StepsAreRight(Chosen(g), 64) <==> g.nCtx % 64 == 0 && (g.causal || g.dim > 64 || g.nCtx % 128 == 0)
  {
    TrainingStepExactIff(Chosen(g), 64);
  }
}
