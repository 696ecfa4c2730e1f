/** The paged KV-cache reservation: block counts, the dense block table, and the addresses it gives. */
module PagedKv {
  import opened Options
  import opened Integers

  datatype Error = NoActiveToken | EmptySequence(row: nat) | TooFewBlocks(reserved: nat, required: nat)

  /** The block table and what it was laid out for. */
  datatype Reservation = Reservation(lengths: seq<nat>, blockSize: nat, reserved: nat, table: seq<seq<int>>)

  datatype Result = Reserved(value: Reservation) | Refused(error: Error)

  // ----- counts ----------------------------------------------------------------------------------

  function CountTrue(mask: seq<bool>): nat {
    if |mask| == 0 then 0 else CountTrue(mask[..|mask| - 1]) + if mask[|mask| - 1] then 1 else 0
  }

  function Lengths(masks: seq<seq<bool>>): seq<nat> {
    seq(|masks|, row requires 0 <= row < |masks| => CountTrue(masks[row]))
  }

  function Blocks(lengths: seq<nat>, blockSize: nat): seq<nat>
    requires blockSize > 0
  {
    seq(|lengths|, row requires 0 <= row < |lengths| => BlocksFor(lengths[row], blockSize))
  }

  /** The blocks handed to the rows before `row`: where its run starts. */
  function Cursor(blocks: seq<nat>, row: nat): nat
    requires row <= |blocks|
  {
    if row == 0 then 0 else Cursor(blocks, row - 1) + blocks[row - 1]
  }

  function Required(blocks: seq<nat>): nat { Cursor(blocks, |blocks|) }

  /** The block table: a run of consecutive blocks per row, then -1. */
  function Entry(blocks: seq<nat>, row: nat, column: nat): int
    requires row < |blocks|
  {
    if column < blocks[row] then Cursor(blocks, row) + column else -1
  }

  function Width(blocks: seq<nat>): nat {
    if |blocks| == 0 then 0
    else
      var front, last := Width(blocks[..|blocks| - 1]), blocks[|blocks| - 1];
      if last > front then last else front
  }

  lemma {:induction false} WidthCovers(blocks: seq<nat>, row: nat)
    requires row < |blocks|
    ensures blocks[row] <= Width(blocks)
    decreases |blocks|
  {
    if row < |blocks| - 1 {
      WidthCovers(blocks[..|blocks| - 1], row);
    }
  }

  ghost predicate IsTable(blocks: seq<nat>, table: seq<seq<int>>) {
    && |table| == |blocks|
    && forall row | 0 <= row < |table| ::
         |table[row]| == Width(blocks) && forall c | 0 <= c < Width(blocks) :: table[row][c] == Entry(blocks, row, c)
  }

  // ----- the loops -------------------------------------------------------------------------------

  method ActiveTokens(mask: seq<bool>) returns (count: nat)
    ensures count == CountTrue(mask)
  {
    count := 0;
    for k := 0 to |mask|
      invariant count == CountTrue(mask[..k])
    {
      assert mask[..k + 1][..k] == mask[..k];
      if mask[k] {
        count := count + 1;
      }
    }
    assert mask[..|mask|] == mask;
  }

  /** A sequence has as many tokens as its mask has marks. */
  lemma {:induction false} CountIsMarks(mask: seq<bool>)
    ensures CountTrue(mask) == |set k | 0 <= k < |mask| && mask[k]|
    decreases |mask|
  {
    var marks := set k | 0 <= k < |mask| && mask[k];
    if |mask| == 0 {
      assert marks == {};
    } else {
      var n := |mask| - 1;
      CountIsMarks(mask[..n]);
      var front := set k | 0 <= k < |mask[..n]| && mask[..n][k];
      assert marks == if mask[n] then front + {n} else front;
    }
  }

  /** The table is as wide as its longest run, no wider. */
  lemma {:induction false} WidthIsLongest(blocks: seq<nat>) returns (longest: nat)
    requires |blocks| > 0
    ensures longest < |blocks| && blocks[longest] == Width(blocks)
    ensures forall row | 0 <= row < |blocks| :: blocks[row] <= Width(blocks)
    decreases |blocks|
  {
    forall row | 0 <= row < |blocks| ensures blocks[row] <= Width(blocks) {
      WidthCovers(blocks, row);
    }
    var front := blocks[..|blocks| - 1];
    if |front| == 0 || blocks[|front|] == Width(blocks) {
      assert |front| == 0 ==> Width(front) == 0;
      longest := |front|;
    } else {
      longest := WidthIsLongest(front);
    }
  }

  /** Writes each row's run into a table filled with -1, advancing one cursor. */
  method FillTable(blocks: seq<nat>) returns (table: array2<int>)
    ensures table.Length0 == |blocks| && table.Length1 == Width(blocks)
    ensures forall row, c | 0 <= row < |blocks| && 0 <= c < Width(blocks) :: table[row, c] == Entry(blocks, row, c)
  {
    table := new int[|blocks|, Width(blocks)]((row, c) => -1);
    var cursor := 0;
    for row := 0 to |blocks|
      invariant cursor == Cursor(blocks, row)
      invariant forall r, c | 0 <= r < row && 0 <= c < Width(blocks) :: table[r, c] == Entry(blocks, r, c)
      invariant forall r, c | row <= r < |blocks| && 0 <= c < Width(blocks) :: table[r, c] == -1
    {
      WidthCovers(blocks, row);
      forall c | 0 <= c < blocks[row] {
        table[row, c] := cursor + c;
      }
      cursor := cursor + blocks[row];
    }
  }

  /** reserve_paged_kv_cache, from the attention mask to the block table. `kvCacheBlocks` is None when the
      configuration leaves the pool size to the scorer. */
  method Reserve(masks: seq<seq<bool>>, blockSize: nat, kvCacheBlocks: Option<nat>) returns (res: Result)
    requires blockSize > 0 && (kvCacheBlocks.Some? ==> kvCacheBlocks.value > 0)
    ensures
      var lengths := Lengths(masks);
      var blocks := Blocks(lengths, blockSize);
      if |masks| == 0 then res == Refused(NoActiveToken)
      else if 0 in lengths then res.Refused? && res.error.EmptySequence? && res.error.row < |lengths|
          && lengths[res.error.row] == 0
      else if kvCacheBlocks.Some? && kvCacheBlocks.value < Required(blocks) then
        res == Refused(TooFewBlocks(kvCacheBlocks.value, Required(blocks)))
      else
        && res.Reserved? && res.value.lengths == lengths && res.value.blockSize == blockSize
        && res.value.reserved == (if kvCacheBlocks.Some? then kvCacheBlocks.value else Required(blocks))
        && Laid(res.value)
  {
    if |masks| == 0 {
      return Refused(NoActiveToken);
    }
    var lengths: seq<nat> := [];
    for row := 0 to |masks|
      invariant |lengths| == row && forall r | 0 <= r < row :: lengths[r] == CountTrue(masks[r]) && lengths[r] > 0
    {
      var length := ActiveTokens(masks[row]);
      if length == 0 {
        assert Lengths(masks)[row] == 0;
        return Refused(EmptySequence(row));
      }
      lengths := lengths + [length];
    }
    assert lengths == Lengths(masks);
    var blocks := Blocks(lengths, blockSize);
    var required := Required(blocks);
    var reserved := if kvCacheBlocks.Some? then kvCacheBlocks.value else required;
    if reserved < required {
      return Refused(TooFewBlocks(reserved, required));
    }
    var table := FillTable(blocks);
    var rows := seq(|blocks|, r requires 0 <= r < |blocks| reads table =>
      seq(Width(blocks), c requires 0 <= c < Width(blocks) reads table => table[r, c]));
    res := Reserved(Reservation(lengths, blockSize, reserved, rows));
  }

  // ----- what the table means --------------------------------------------------------------------

  lemma {:induction false} CursorMonotone(blocks: seq<nat>, i: nat, j: nat)
    requires i <= j <= |blocks|
    ensures Cursor(blocks, i) <= Cursor(blocks, j)
    decreases j - i
  {
    if i < j {
      CursorMonotone(blocks, i, j - 1);
    }
  }

  /** No block is given out twice. */
  lemma EntriesAreDistinct(blocks: seq<nat>, row: nat, c: nat, other: nat, d: nat)
    requires row < |blocks| && other < |blocks| && c < blocks[row] && d < blocks[other]
    requires Entry(blocks, row, c) == Entry(blocks, other, d)
    ensures row == other && c == d
  {
    if row < other {
      CursorMonotone(blocks, row + 1, other);
    } else if other < row {
      CursorMonotone(blocks, other + 1, row);
    }
  }

  /** Every block below the required count is given out. */
  lemma {:induction false} EveryBlockIsUsed(blocks: seq<nat>, rows: nat, block: nat) returns (row: nat, c: nat)
    requires rows <= |blocks| && block < Cursor(blocks, rows)
    ensures row < rows && c < blocks[row] && Entry(blocks, row, c) == block
    decreases rows
  {
    if block >= Cursor(blocks, rows - 1) {
      row, c := rows - 1, block - Cursor(blocks, rows - 1);
    } else {
      row, c := EveryBlockIsUsed(blocks, rows - 1, block);
    }
  }

  /** The non-negative entries of the table are exactly the blocks [0, required). */
  lemma TableUsesExactly(blocks: seq<nat>, block: int)
    ensures 0 <= block < Required(blocks) <==>
            exists row, c :: 0 <= row < |blocks| && 0 <= c < blocks[row] && Entry(blocks, row, c) == block
  {
    if 0 <= block < Required(blocks) {
      var row, c := EveryBlockIsUsed(blocks, |blocks|, block);
    }
    forall row, c | 0 <= row < |blocks| && 0 <= c < blocks[row] && Entry(blocks, row, c) == block
      ensures 0 <= block < Required(blocks)
    {
      CursorMonotone(blocks, row + 1, |blocks|);
    }
  }

  /** Where the cache keeps one token: the block its row's table names for it, and the slot inside. */
  function Address(r: Reservation, row: nat, position: nat): (int, nat)
    requires r.blockSize > 0 && row < |r.table| && BlockOf(position, r.blockSize) < |r.table[row]|
  {
    (r.table[row][BlockOf(position, r.blockSize)], SlotOf(position, r.blockSize))
  }

  ghost predicate Laid(r: Reservation) {
    && r.blockSize > 0
    && IsTable(Blocks(r.lengths, r.blockSize), r.table)
    && Required(Blocks(r.lengths, r.blockSize)) <= r.reserved
  }

  lemma PositionHasColumn(r: Reservation, row: nat, position: nat)
    requires Laid(r) && row < |r.lengths| && position < r.lengths[row]
    ensures BlockOf(position, r.blockSize) < Blocks(r.lengths, r.blockSize)[row] <= |r.table[row]|
  {
    WidthCovers(Blocks(r.lengths, r.blockSize), row);
    BlockBelow(position, BlocksFor(r.lengths[row], r.blockSize), r.blockSize);
  }

  /** Every token of every row has an address inside the reserved pool. */
  lemma AddressInBounds(r: Reservation, row: nat, position: nat)
    requires Laid(r) && row < |r.lengths| && position < r.lengths[row]
    ensures BlockOf(position, r.blockSize) < |r.table[row]|
    ensures 0 <= Address(r, row, position).0 < r.reserved && Address(r, row, position).1 < r.blockSize
  {
    PositionHasColumn(r, row, position);
    var blocks := Blocks(r.lengths, r.blockSize);
    CursorMonotone(blocks, row + 1, |blocks|);
  }

  /** Two tokens never share an address. */
  lemma AddressesAreDistinct(r: Reservation, row: nat, position: nat, other: nat, at: nat)
    requires Laid(r) && row < |r.lengths| && position < r.lengths[row] && other < |r.lengths| && at < r.lengths[other]
    requires BlockOf(position, r.blockSize) < |r.table[row]| && BlockOf(at, r.blockSize) < |r.table[other]|
    requires Address(r, row, position) == Address(r, other, at)
    ensures row == other && position == at
  {
    PositionHasColumn(r, row, position);
    PositionHasColumn(r, other, at);
    EntriesAreDistinct(Blocks(r.lengths, r.blockSize), row, BlockOf(position, r.blockSize), other,
                       BlockOf(at, r.blockSize));
    BlockAndSlot(position, r.blockSize);
    BlockAndSlot(at, r.blockSize);
  }

  /** Tokens fill their blocks in order: a row starts at slot zero of its first block, and the next token takes the
      next slot, or slot zero of the next block when the block is full. */
  lemma AddressesAreConsecutive(r: Reservation, row: nat, position: nat)
    requires Laid(r) && row < |r.lengths| && position + 1 < r.lengths[row]
    ensures BlockOf(0, r.blockSize) < |r.table[row]| && Address(r, row, 0) == (r.table[row][0], 0)
    ensures BlockOf(position, r.blockSize) < |r.table[row]| && BlockOf(position + 1, r.blockSize) < |r.table[row]|
    ensures var (block, slot) := Address(r, row, position);
            Address(r, row, position + 1) == if slot + 1 < r.blockSize then (block, slot + 1) else (block + 1, 0)
  {
    var bs := r.blockSize;
    PositionHasColumn(r, row, 0);
    PositionHasColumn(r, row, position);
    PositionHasColumn(r, row, position + 1);
    BlockAndSlot(position, bs);
    EuclideanRest(0, bs, 0, 0);
    if SlotOf(position, bs) + 1 < bs {
      EuclideanRest(position + 1, bs, BlockOf(position, bs), SlotOf(position, bs) + 1);
    } else {
      SpanAdds(BlockOf(position, bs), 1, bs);
      EuclideanRest(position + 1, bs, BlockOf(position, bs) + 1, 0);
    }
  }

  function SumOf(lengths: seq<nat>, n: nat): nat
    requires n <= |lengths|
  {
    if n == 0 then 0 else SumOf(lengths, n - 1) + lengths[n - 1]
  }

  /** Rounding to blocks wastes less than one block per sequence. */
  lemma {:induction false} WasteIsUnderABlock(lengths: seq<nat>, blockSize: nat, rows: nat)
    requires blockSize > 0 && rows <= |lengths|
    ensures var held := Span(Cursor(Blocks(lengths, blockSize), rows), blockSize);
            SumOf(lengths, rows) <= held <= SumOf(lengths, rows) + Span(rows, blockSize - 1)
    decreases rows
  {
    if rows > 0 {
      WasteIsUnderABlock(lengths, blockSize, rows - 1);
      SpanAdds(Cursor(Blocks(lengths, blockSize), rows - 1), BlocksFor(lengths[rows - 1], blockSize), blockSize);
      SpanAdds(rows - 1, 1, blockSize - 1);
    }
  }
}
