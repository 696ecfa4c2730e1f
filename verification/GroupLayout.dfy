/** How sequences are assigned to groups: the native op's group ids, the fused op's offsets and block. */
module GroupLayout {
  import opened Options
  import opened Integers

  /** Exactly one of the two must be given. */
  datatype Spec = Spec(samples: Option<int>, boundaries: Option<seq<int>>)

  datatype Error =
    | NotExactlyOne | TooFewSamples | NotDivisible | BadShape | NotFromZero | WrongTotal | EmptyGroup | GroupTooLarge

  datatype Result<+T> = Ok(value: T) | Err(error: Error)

  const MAX_GROUP_SIZE: nat := 1024

  // ----- the block width -------------------------------------------------------------------------

  function BitLength(n: nat): nat { if n == 0 then 0 else 1 + BitLength(n / 2) }

  /** 1 << k */
  function Shift(k: nat): nat { if k == 0 then 1 else 2 * Shift(k - 1) }

  function NextPow2(x: int): nat { if x <= 1 then 1 else Shift(BitLength(x - 1)) }

  lemma {:induction false} ShiftOfBitLength(n: nat)
    requires n > 0
    ensures BitLength(n) > 0 && Shift(BitLength(n) - 1) <= n < Shift(BitLength(n))
    decreases n
  {
    if n > 1 {
      ShiftOfBitLength(n / 2);
    } else {
      assert BitLength(0) == 0;
    }
  }

  lemma {:induction false} ShiftGrows(j: nat, k: nat)
    requires j <= k
    ensures Shift(j) <= Shift(k)
    decreases k - j
  {
    if j < k {
      ShiftGrows(j, k - 1);
    }
  }

  /** The least power of two that is at least `x`. */
  lemma NextPow2IsLeast(x: nat)
    ensures x <= NextPow2(x) && exists k :: NextPow2(x) == Shift(k)
    ensures forall k: nat :: x <= Shift(k) ==> NextPow2(x) <= Shift(k)
  {
    if x <= 1 {
      assert NextPow2(x) == Shift(0);
      forall k: nat ensures NextPow2(x) <= Shift(k) {
        ShiftGrows(0, k);
      }
    } else {
      var n := BitLength(x - 1);
      ShiftOfBitLength(x - 1);
      forall k: nat | x <= Shift(k)
        ensures NextPow2(x) <= Shift(k)
      {
        if k <= n - 1 {
          ShiftGrows(k, n - 1);
        } else {
          ShiftGrows(n, k);
        }
      }
    }
  }

  // ----- the fused op's offsets ------------------------------------------------------------------

  function MaxSize(b: seq<int>): int {
    if |b| < 2 then 0
    else
      var front, last := MaxSize(b[..|b| - 1]), b[|b| - 1] - b[|b| - 2];
      if last > front then last else front
  }

  predicate SizesPositive(b: seq<int>) { forall g | 0 <= g < |b| - 1 :: b[g + 1] - b[g] >= 1 }

  /** arange(0, n + 1, s) */
  function Multiples(n: nat, s: nat): seq<int>
    requires s > 0
  {
    seq(n / s + 1, g requires 0 <= g => Span(g, s))
  }

  /** TritonGRPOLossOp._build_bounds */
  function BuildBounds(n: nat, spec: Spec): Result<(seq<int>, int)> {
    if spec.samples.Some? == spec.boundaries.Some? then Err(NotExactlyOne)
    else if spec.samples.Some? then
      var s := spec.samples.value;
      if s < 2 then Err(TooFewSamples)
      else if n % s != 0 then Err(NotDivisible)
      else if s > MAX_GROUP_SIZE then Err(GroupTooLarge)
      else Ok((Multiples(n, s), s))
    else
      var b := spec.boundaries.value;
      if |b| < 2 then Err(BadShape)
      else if b[0] != 0 || b[|b| - 1] != n then Err(NotFromZero)
      else if !SizesPositive(b) then Err(EmptyGroup)
      else if MaxSize(b) > MAX_GROUP_SIZE then Err(GroupTooLarge)
      else Ok((b, MaxSize(b)))
  }

  // ----- the native op's ids ---------------------------------------------------------------------

  function SizesSum(b: seq<int>): int {
    if |b| < 2 then 0 else SizesSum(b[..|b| - 1]) + (b[|b| - 1] - b[|b| - 2])
  }

  /** repeat_interleave of the group index by the group sizes. */
  function Repeated(b: seq<int>): seq<int>
    requires SizesPositive(b)
  {
    if |b| < 2 then [] else Repeated(b[..|b| - 1]) + seq(b[|b| - 1] - b[|b| - 2], _ => |b| - 2)
  }

  /** NativeGRPOLossOp._resolve_group_ids */
  function ResolveIds(n: nat, spec: Spec): Result<seq<int>> {
    if spec.samples.Some? == spec.boundaries.Some? then Err(NotExactlyOne)
    else if spec.samples.Some? then
      var s := spec.samples.value;
      if s < 2 then Err(TooFewSamples)
      else if n % s != 0 then Err(NotDivisible)
      else Ok(seq(n, i requires 0 <= i => BlockOf(i, s)))
    else
      var b := spec.boundaries.value;
      if |b| < 2 then Err(BadShape)
      else if SizesSum(b) != n then Err(WrongTotal)
      else if !SizesPositive(b) then Err(EmptyGroup)
      else Ok(Repeated(b))
  }

  /** What the groups are: with samples per prompt, sequence i is in group i / s; with boundaries from zero, it is
      in the group whose two boundaries enclose it. */
  lemma GroupsAre(n: nat, spec: Spec, i: nat)
    requires ResolveIds(n, spec).Ok? && i < n
    ensures |ResolveIds(n, spec).value| == n
    ensures spec.samples.Some? ==> spec.samples.value >= 2 && ResolveIds(n, spec).value[i] == i / spec.samples.value
    ensures spec.boundaries.Some? && spec.boundaries.value[0] == 0 ==>
              var b, g := spec.boundaries.value, ResolveIds(n, spec).value[i];
              0 <= g < |b| - 1 && b[g] <= i < b[g + 1]
  {
    if spec.boundaries.Some? {
      var b := spec.boundaries.value;
      SizesTelescope(b);
      RepeatedLength(b);
      if b[0] == 0 {
        var g := GroupOf(b, i);
        RepeatedAt(b, g, i);
      }
    }
  }

  /** The native op accepts samples per prompt of two and more that divide the batch, or at least two strictly
      increasing boundaries that span it; one of the two, not both. */
  lemma AcceptsGroupingIff(n: nat, spec: Spec)
    ensures ResolveIds(n, spec).Ok? <==>
      || (spec.samples.Some? && spec.boundaries.None? && spec.samples.value >= 2 && n % spec.samples.value == 0)
      || (spec.samples.None? && spec.boundaries.Some? && |spec.boundaries.value| >= 2
          && (forall g | 0 <= g < |spec.boundaries.value| - 1 ::
                spec.boundaries.value[g] < spec.boundaries.value[g + 1])
          && spec.boundaries.value[|spec.boundaries.value| - 1] - spec.boundaries.value[0] == n)
  {
    if spec.boundaries.Some? && |spec.boundaries.value| >= 2 {
      SizesTelescope(spec.boundaries.value);
    }
  }

  // ----- the two agree ---------------------------------------------------------------------------

  lemma {:induction false} SizesTelescope(b: seq<int>)
    requires |b| > 0
    ensures SizesSum(b) == b[|b| - 1] - b[0]
    decreases |b|
  {
    if |b| >= 2 {
      SizesTelescope(b[..|b| - 1]);
    }
  }

  lemma {:induction false} RepeatedAt(b: seq<int>, g: nat, i: int)
    requires |b| >= 2 && SizesPositive(b) && g < |b| - 1 && b[g] - b[0] <= i < b[g + 1] - b[0]
    ensures |Repeated(b)| == b[|b| - 1] - b[0] && 0 <= i < |Repeated(b)| && Repeated(b)[i] == g
    decreases |b|
  {
    var front := b[..|b| - 1];
    RepeatedLength(front);
    BoundsOrdered(b, 0, g);
    if g < |b| - 2 {
      RepeatedAt(front, g, i);
    }
  }

  lemma {:induction false} RepeatedLength(b: seq<int>)
    requires |b| > 0 && SizesPositive(b)
    ensures |Repeated(b)| == b[|b| - 1] - b[0]
    decreases |b|
  {
    if |b| >= 2 {
      RepeatedLength(b[..|b| - 1]);
    }
  }

  lemma {:induction false} BoundsOrdered(b: seq<int>, g: nat, h: nat)
    requires SizesPositive(b) && g <= h < |b|
    ensures b[g] <= b[h]
    decreases h - g
  {
    if g < h {
      BoundsOrdered(b, g, h - 1);
    }
  }

  lemma {:induction false} MaxSizeBounds(b: seq<int>, g: nat)
    requires g < |b| - 1
    ensures b[g + 1] - b[g] <= MaxSize(b)
    decreases |b|
  {
    if g < |b| - 2 {
      MaxSizeBounds(b[..|b| - 1], g);
    }
  }

  /** The offsets cut [0, n) into nonempty groups no larger than `maxGroup`. */
  predicate Cuts(b: seq<int>, n: nat, maxGroup: int) {
    && |b| > 0 && b[0] == 0 && b[|b| - 1] == n && SizesPositive(b)
    && forall g | 0 <= g < |b| - 1 :: b[g + 1] - b[g] <= maxGroup
  }

  lemma CutsFromBounds(n: nat, spec: Spec)
    requires BuildBounds(n, spec).Ok?
    ensures var (b, maxGroup) := BuildBounds(n, spec).value; Cuts(b, n, maxGroup)
  {
    var (b, maxGroup) := BuildBounds(n, spec).value;
    if spec.samples.Some? {
      var s := spec.samples.value;
      BlockAndSlot(n, s);
      forall g | 0 <= g < |b| - 1
        ensures b[g + 1] - b[g] == s
      {
        SpanAdds(g, 1, s);
      }
    } else {
      forall g | 0 <= g < |b| - 1
        ensures b[g + 1] - b[g] <= maxGroup
      {
        MaxSizeBounds(b, g);
      }
    }
  }

  lemma SampleBlock(g: nat, i: nat, s: nat)
    requires s > 0 && Span(g, s) <= i < Span(g + 1, s)
    ensures BlockOf(i, s) == g
  {
    SpanAdds(g, 1, s);
    EuclideanRest(i, s, g, i - Span(g, s));
  }

  lemma BoundsInRange(b: seq<int>, n: nat, maxGroup: int, g: nat, i: int)
    requires Cuts(b, n, maxGroup) && g < |b| - 1 && b[g] <= i < b[g + 1]
    ensures 0 <= i < n
  {
    BoundsOrdered(b, 0, g);
    BoundsOrdered(b, g + 1, |b| - 1);
  }

  lemma BoundaryIds(b: seq<int>, n: nat, maxGroup: int, g: nat, i: int)
    requires |b| >= 2 && Cuts(b, n, maxGroup) && g < |b| - 1 && b[g] <= i < b[g + 1]
    ensures SizesSum(b) == n == |Repeated(b)| && 0 <= i < n && Repeated(b)[i] == g
  {
    SizesTelescope(b);
    RepeatedAt(b, g, i);
  }

  /** Whatever the fused op accepts, the native op accepts, and gives every sequence between two offsets the
      index of that group. */
  lemma IdsMatchBounds(n: nat, spec: Spec, g: nat, i: nat)
    requires BuildBounds(n, spec).Ok? && g < |BuildBounds(n, spec).value.0| - 1
    requires BuildBounds(n, spec).value.0[g] <= i < BuildBounds(n, spec).value.0[g + 1]
    ensures ResolveIds(n, spec).Ok? && |ResolveIds(n, spec).value| == n && i < n && ResolveIds(n, spec).value[i] == g
  {
    var (b, maxGroup) := BuildBounds(n, spec).value;
    CutsFromBounds(n, spec);
    BoundsInRange(b, n, maxGroup, g, i);
    if spec.samples.Some? {
      var s := spec.samples.value;
      assert b == Multiples(n, s) && b[g] == Span(g, s) && b[g + 1] == Span(g + 1, s);
      SampleBlock(g, i, s);
      assert ResolveIds(n, spec).value[i] == BlockOf(i, s);
    } else {
      BoundaryIds(b, n, maxGroup, g, i);
    }
  }

  /** The fused op accepts exactly what the native op accepts, less boundaries that do not start at zero and
      groups above the kernel's limit. */
  lemma BoundsAcceptIff(n: nat, spec: Spec)
    ensures BuildBounds(n, spec).Ok? <==>
      && ResolveIds(n, spec).Ok?
      && (spec.samples.Some? ==> spec.samples.value <= MAX_GROUP_SIZE)
      && (spec.boundaries.Some? ==> spec.boundaries.value[0] == 0 && MaxSize(spec.boundaries.value) <= MAX_GROUP_SIZE)
  {
    if spec.boundaries.Some? && |spec.boundaries.value| >= 2 {
      SizesTelescope(spec.boundaries.value);
    }
  }

  /** That limit is 1024 sequences, for samples per prompt and for every single group between boundaries. */
  lemma GroupsHoldAtMost1024(n: nat, spec: Spec)
    requires ResolveIds(n, spec).Ok?
    ensures spec.samples.Some? ==> (BuildBounds(n, spec).Ok? <==> spec.samples.value <= 1024)
    ensures spec.boundaries.Some? && spec.boundaries.value[0] == 0 ==>
              (BuildBounds(n, spec).Ok? <==>
               forall g | 0 <= g < |spec.boundaries.value| - 1 ::
                 spec.boundaries.value[g + 1] - spec.boundaries.value[g] <= 1024)
  {
    BoundsAcceptIff(n, spec);
    if spec.boundaries.Some? {
      MaxSizeIff(spec.boundaries.value, 1024);
    }
  }

  lemma {:induction false} MaxSizeIff(b: seq<int>, limit: nat)
    ensures MaxSize(b) <= limit <==> forall g | 0 <= g < |b| - 1 :: b[g + 1] - b[g] <= limit
    decreases |b|
  {
    if |b| >= 2 {
      var front := b[..|b| - 1];
      MaxSizeIff(front, limit);
      assert forall g | 0 <= g < |front| - 1 :: front[g + 1] - front[g] == b[g + 1] - b[g];
    }
  }

  /** Every sequence lies in exactly one group. */
  lemma {:induction false} GroupOf(b: seq<int>, i: int) returns (g: nat)
    requires |b| > 0 && SizesPositive(b) && b[0] <= i < b[|b| - 1]
    ensures g < |b| - 1 && b[g] <= i < b[g + 1]
    decreases |b|
  {
    if i >= b[|b| - 2] {
      g := |b| - 2;
    } else {
      g := GroupOf(b[..|b| - 1], i);
    }
  }
}
