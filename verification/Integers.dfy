/** Integer helpers: bounds, and rounding up to whole blocks from the uniqueness of Euclidean division. */
module Integers {

  function MaxInt(a: int, b: int): int { if a < b then b else a }

  function MinInt(a: int, b: int): int { if a < b then a else b }

  function Clamp(x: int, lo: int, hi: int): int { if x < lo then lo else if x > hi then hi else x }

  /** Two Euclidean decompositions of one number agree: neither quotient is below the other. */
  lemma StrictlyBelow(a: int, b: int, r: int, x: int, y: int)
    requires 0 <= x < r && 0 <= y < r && a * r + x == b * r + y
    ensures !(a < b)
  {
    var gap := b - a;
    assert gap * r == b * r - a * r == x - y;
    assert gap * r == r + (gap - 1) * r;
  }

  lemma EuclideanRest(n: int, block: nat, quotient: int, rest: int)
    requires block > 0 && n == quotient * block + rest && 0 <= rest < block
    ensures n / block == quotient && n % block == rest
  {
    assert n == (n / block) * block + n % block;
    StrictlyBelow(quotient, n / block, block, rest, n % block);
    StrictlyBelow(n / block, quotient, block, n % block, rest);
  }

  /** How many blocks of `unit` hold `n`: the integer ceiling of n / unit. */
  function BlocksFor(n: nat, unit: nat): (blocks: nat)
    requires unit > 0
    ensures n <= Span(blocks, unit) < n + unit
  {
    var blocks := (n + unit - 1) / unit;
    assert n + unit - 1 == blocks * unit + (n + unit - 1) % unit;
    blocks
  }

  function RoundUp(n: nat, unit: nat): (r: nat)
    requires unit > 0
    ensures n <= r < n + unit && r % unit == 0
  {
    EuclideanRest(Span(BlocksFor(n, unit), unit), unit, BlocksFor(n, unit), 0);
    Span(BlocksFor(n, unit), unit)
  }

  /** Rounding up changes nothing exactly when the unit divides the number. */
  lemma RoundUpExact(n: nat, unit: nat)
    requires unit > 0
    ensures RoundUp(n, unit) == n <==> n % unit == 0
  {
    var over := RoundUp(n, unit) - n;
    assert n == (n / unit) * unit + n % unit;
    if n % unit == 0 {
      EuclideanRest(RoundUp(n, unit), unit, n / unit, over);
    }
  }

  /** The size of `n` blocks. */
  function Span(n: nat, unit: nat): nat { n * unit }

  lemma SpanAdds(m: nat, n: nat, unit: nat)
    ensures Span(m + n, unit) == Span(m, unit) + Span(n, unit)
  {
  }

  /** The block and the offset of a position, which together determine it. */
  function BlockOf(position: nat, unit: nat): nat
    requires unit > 0
  {
    position / unit
  }

  function SlotOf(position: nat, unit: nat): nat
    requires unit > 0
  {
    position % unit
  }

  lemma BlockAndSlot(position: nat, unit: nat)
    requires unit > 0
    ensures position == Span(BlockOf(position, unit), unit) + SlotOf(position, unit)
  {
  }

  lemma BlockBelow(position: nat, count: nat, unit: nat)
    requires unit > 0 && position < Span(count, unit)
    ensures BlockOf(position, unit) < count
  {
    BlockAndSlot(position, unit);
    var block := BlockOf(position, unit);
    if block >= count {
      SpanAdds(count, block - count, unit);
    }
  }
}
