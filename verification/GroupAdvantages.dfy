/** Group-normalized advantages: the native index_add form and the fused kernel, one program per group. */
module GroupAdvantages {
  import opened RealFunctions
  import opened GroupStatistics
  import opened GroupLayout

  function RewardRow(r: Vec): int -> real { i => At(r, i) }

  // ----- the native op ---------------------------------------------------------------------------

  /** What index_add_ has accumulated for group g from the first entries of `f`. */
  function GroupTerms(f: int -> real, ids: seq<int>, g: int): int -> real {
    i => if 0 <= i < |ids| && ids[i] == g then f(i) else 0.0
  }

  function GroupSum(f: int -> real, ids: seq<int>, g: int): real { Sum(GroupTerms(f, ids, g), 0, |ids|) }

  function GroupCount(ids: seq<int>, g: int): real { GroupSum(Constant(1.0), ids, g) }

  function NativeMean(r: Vec, ids: seq<int>, g: int): real
    requires GroupCount(ids, g) != 0.0
  {
    Ratio(GroupSum(RewardRow(r), ids, g), GroupCount(ids, g))
  }

  function NativeVariance(r: Vec, ids: seq<int>, g: int): real
    requires GroupCount(ids, g) != 0.0
  {
    Ratio(GroupSum(Squares(RewardRow(r)), ids, g), GroupCount(ids, g))
    - Times(NativeMean(r, ids, g), NativeMean(r, ids, g))
  }

  /** A group that holds a sequence has a positive count. */
  lemma CountPositive(ids: seq<int>, i: nat)
    requires i < |ids|
    ensures GroupCount(ids, ids[i]) > 0.0
  {
    SumPositive(GroupTerms(Constant(1.0), ids, ids[i]), 0, |ids|, i);
  }

  function NativeAdvantage(fns: RealFns, r: Vec, ids: seq<int>, eps: real, i: nat): real
    requires fns.Lawful() && eps > 0.0 && i < |ids|
  {
    CountPositive(ids, i);
    StdsAgree(fns, NativeVariance(r, ids, ids[i]), eps);
    Ratio(At(r, i) - NativeMean(r, ids, ids[i]), NativeStd(fns, NativeVariance(r, ids, ids[i]), eps))
  }

  /** out.index_add_(0, ids, source) on zeros. */
  method IndexAdd(f: int -> real, ids: seq<int>, groups: nat) returns (sums: array<real>)
    requires forall i | 0 <= i < |ids| :: 0 <= ids[i] < groups
    ensures fresh(sums) && sums.Length == groups && forall g | 0 <= g < groups :: sums[g] == GroupSum(f, ids, g)
  {
    sums := new real[groups](g => 0.0);
    for i := 0 to |ids|
      invariant forall g | 0 <= g < groups :: sums[g] == Sum(GroupTerms(f, ids, g), 0, i)
    {
      sums[ids[i]] := sums[ids[i]] + f(i);
    }
  }

  method GroupLimit(ids: seq<int>) returns (groups: nat)
    requires forall i | 0 <= i < |ids| :: 0 <= ids[i]
    ensures forall i | 0 <= i < |ids| :: ids[i] < groups
  {
    groups := 0;
    for i := 0 to |ids|
      invariant forall k | 0 <= k < i :: ids[k] < groups
    {
      if ids[i] >= groups {
        groups := ids[i] + 1;
      }
    }
  }

  /** One sequence, from its group's count, sum and sum of squares. */
  method NativeOne(fns: RealFns, reward: real, count: real, sum: real, squares: real, eps: real) returns (a: real)
    requires fns.Lawful() && eps > 0.0 && count > 0.0
    ensures var mean := Ratio(sum, count);
            var std := NativeStd(fns, Ratio(squares, count) - Times(mean, mean), eps);
            std != 0.0 && a == Ratio(reward - mean, std)
  {
    var mean := Ratio(sum, count);
    var variance := Ratio(squares, count) - Times(mean, mean);
    StdsAgree(fns, variance, eps);
    a := Ratio(reward - mean, NativeStd(fns, variance, eps));
  }

  /** NativeGRPOLossOp.group_advantages, after the ids are resolved. */
  method NativeAdvantages(fns: RealFns, r: Vec, ids: seq<int>, eps: real) returns (adv: Vec)
    requires fns.Lawful() && eps > 0.0 && |ids| == |r| && forall i | 0 <= i < |ids| :: 0 <= ids[i]
    ensures |adv| == |r| && forall i | 0 <= i < |r| :: adv[i] == NativeAdvantage(fns, r, ids, eps, i)
  {
    var groups := GroupLimit(ids);
    var counts := IndexAdd(Constant(1.0), ids, groups);
    var sums := IndexAdd(RewardRow(r), ids, groups);
    var squares := IndexAdd(Squares(RewardRow(r)), ids, groups);
    adv := [];
    for i := 0 to |r|
      invariant |adv| == i && forall k | 0 <= k < i :: adv[k] == NativeAdvantage(fns, r, ids, eps, k)
      modifies {}
    {
      var a := NativeAt(fns, r, ids, i, counts[ids[i]], sums[ids[i]], squares[ids[i]], eps);
      adv := adv + [a];
    }
  }

  /** Sequence i, from the totals of its own group. */
  method NativeAt(fns: RealFns, r: Vec, ids: seq<int>, i: nat, count: real, sum: real, squares: real, eps: real)
    returns (a: real)
    requires fns.Lawful() && eps > 0.0 && i < |ids| == |r| && 0 <= ids[i]
    requires count == GroupSum(Constant(1.0), ids, ids[i]) && sum == GroupSum(RewardRow(r), ids, ids[i])
    requires squares == GroupSum(Squares(RewardRow(r)), ids, ids[i])
    ensures a == NativeAdvantage(fns, r, ids, eps, i)
  {
    CountPositive(ids, i);
    a := NativeOne(fns, r[i], count, sum, squares, eps);
  }

  // ----- the kernel ------------------------------------------------------------------------------

  /** The lanes one program loads: its group's rewards, then zeros. */
  function Lanes(r: Vec, start: int, size: int): int -> real { k => if 0 <= k < size then At(r, start + k) else 0.0 }

  lemma LanesSum(r: Vec, start: nat, size: nat, block: nat)
    requires size <= block && start + size <= |r|
    ensures Sum(Lanes(r, start, size), 0, block) == Sum(RewardRow(r), start, start + size)
    ensures Sum(Squares(Lanes(r, start, size)), 0, block) == Sum(Squares(RewardRow(r)), start, start + size)
  {
    var lanes := Lanes(r, start, size);
    SumSplit(lanes, 0, size, block);
    SumZero(lanes, size, block);
    assert forall k | 0 <= k < size :: ShiftAt(RewardRow(r), lanes, start, k);
    SumMoved(RewardRow(r), lanes, start, size, start, start + size);
    SumSplit(Squares(lanes), 0, size, block);
    TimesUnits(0.0);
    SumZero(Squares(lanes), size, block);
    assert forall k | 0 <= k < size :: ShiftAt(Squares(RewardRow(r)), Squares(lanes), start, k);
    SumMoved(Squares(RewardRow(r)), Squares(lanes), start, size, start, start + size);
  }

  /** The advantage of a sequence within its own group [lo, hi). */
  function InGroup(fns: RealFns, r: Vec, lo: int, hi: int, eps: real, i: int): real
    requires fns.Lawful() && eps > 0.0 && lo < hi
  {
    StdsAgree(fns, Variance(RewardRow(r), lo, hi), eps);
    Normalized(fns, RewardRow(r), lo, hi, eps)(i)
  }

  /** One program of _group_norm_kernel, for any block that holds the group. */
  method GroupNormProgram(fns: RealFns, r: Vec, start: nat, end: nat, eps: real, block: nat, adv: array<real>)
    requires fns.Lawful() && eps > 0.0 && start < end <= |r| == adv.Length && end - start <= block
    modifies adv
    ensures forall i | 0 <= i < |r| :: adv[i] == if start <= i < end then InGroup(fns, r, start, end, eps, i)
        else old(adv[i])
  {
    var size := end - start;
    var lanes := Lanes(r, start, size);
    LanesSum(r, start, size, block);
    var count := size as real;
    var mean := Ratio(Sum(lanes, 0, block), count);
    var sqMean := Ratio(Sum(Squares(lanes), 0, block), count);
    var variance := sqMean - Times(mean, mean);
    StdsAgree(fns, variance, eps);
    var std := MaxReal(fns.sqrt(MaxReal(variance, 0.0)), eps);
    assert variance == Variance(RewardRow(r), start, end);
    forall k | 0 <= k < size {
      adv[start + k] := Ratio(lanes(k) - mean, std);
    }
  }

  /** The sequences of group g hold their advantages within it. */
  ghost predicate GroupDone(fns: RealFns, r: Vec, b: seq<int>, eps: real, g: nat, adv: Vec)
    requires fns.Lawful() && eps > 0.0 && g < |b| - 1
  {
    && 0 <= b[g] < b[g + 1] <= |r| == |adv|
    && forall i | b[g] <= i < b[g + 1] :: adv[i] == InGroup(fns, r, b[g], b[g + 1], eps, i)
  }

  /** TritonGRPOLossOp.group_advantages: a program per group, over a block wide enough for the largest. */
  method FusedAdvantages(fns: RealFns, r: Vec, spec: Spec, eps: real) returns (res: Result<Vec>)
    requires fns.Lawful() && eps > 0.0
    ensures
      match BuildBounds(|r|, spec)
      case Err(error) => res == Err(error)
      case Ok((b, _)) => res.Ok? && |res.value| == |r| && forall g | 0 <= g < |b| - 1 ::
          GroupDone(fns, r, b, eps, g, res.value)
  {
    var built := BuildBounds(|r|, spec);
    if built.Err? {
      return Err(built.error);
    }
    var (b, maxGroup) := built.value;
    CutsFromBounds(|r|, spec);
    var adv := RunGroups(fns, r, b, maxGroup, eps, NextPow2(maxGroup));
    res := Ok(adv);
  }

  /** The launch over all groups. */
  method RunGroups(fns: RealFns, r: Vec, b: seq<int>, maxGroup: int, eps: real, block: nat) returns (out: Vec)
    requires fns.Lawful() && eps > 0.0 && Cuts(b, |r|, maxGroup) && block == NextPow2(maxGroup)
    ensures |out| == |r| && forall g | 0 <= g < |b| - 1 :: GroupDone(fns, r, b, eps, g, out)
  {
    var adv := new real[|r|];
    for g := 0 to |b| - 1
      invariant forall h | 0 <= h < g :: GroupDone(fns, r, b, eps, h, adv[..])
    {
      RunGroup(fns, r, b, maxGroup, eps, block, g, adv);
    }
    out := adv[..];
  }

  /** The program of group g writes its own sequences and leaves the earlier groups as they are. */
  method RunGroup(fns: RealFns, r: Vec, b: seq<int>, maxGroup: int, eps: real, block: nat, g: nat, adv: array<real>)
    requires fns.Lawful() && eps > 0.0 && Cuts(b, |r|, maxGroup) && block == NextPow2(maxGroup) && g < |b| - 1
        && adv.Length == |r|
    requires forall h | 0 <= h < g :: GroupDone(fns, r, b, eps, h, adv[..])
    modifies adv
    ensures forall h | 0 <= h <= g :: GroupDone(fns, r, b, eps, h, adv[..])
  {
    BoundsOrdered(b, 0, g);
    BoundsOrdered(b, g + 1, |b| - 1);
    NextPow2IsLeast(maxGroup);
    ghost var before := adv[..];
    GroupNormProgram(fns, r, b[g], b[g + 1], eps, block, adv);
    forall h | 0 <= h < g
      ensures GroupDone(fns, r, b, eps, h, adv[..])
    {
      EarlierGroupKept(fns, r, b, eps, h, g, before, adv[..]);
    }
    assert GroupDone(fns, r, b, eps, g, adv[..]);
  }

  lemma EarlierGroupKept(fns: RealFns, r: Vec, b: seq<int>, eps: real, h: nat, g: nat, before: Vec, after: Vec)
    requires fns.Lawful() && eps > 0.0 && h < g < |b| - 1 && SizesPositive(b)
    requires GroupDone(fns, r, b, eps, h, before) && |after| == |r|
    requires forall i | 0 <= i < |r| && i < b[g] :: after[i] == before[i]
    ensures GroupDone(fns, r, b, eps, h, after)
  {
    BoundsOrdered(b, h + 1, g);
  }

  // ----- the two agree ---------------------------------------------------------------------------

  /** Summing over a group's ids is summing over its range. */
  lemma GroupSumIsRange(f: int -> real, ids: seq<int>, g: int, lo: nat, hi: nat)
    requires lo <= hi <= |ids| && forall i | 0 <= i < |ids| :: ids[i] == g <==> lo <= i < hi
    ensures GroupSum(f, ids, g) == Sum(f, lo, hi)
  {
    var terms := GroupTerms(f, ids, g);
    SumSplit(terms, 0, lo, |ids|);
    SumSplit(terms, lo, hi, |ids|);
    SumZero(terms, 0, lo);
    SumZero(terms, hi, |ids|);
    SumCong(terms, f, lo, hi);
  }

  lemma IdsOfGroup(n: nat, spec: Spec, g: nat)
    requires BuildBounds(n, spec).Ok? && g < |BuildBounds(n, spec).value.0| - 1
    ensures var b := BuildBounds(n, spec).value.0;
            && ResolveIds(n, spec).Ok? && |ResolveIds(n, spec).value| == n && 0 <= b[g] < b[g + 1] <= n
            && forall i | 0 <= i < n :: ResolveIds(n, spec).value[i] == g <==> b[g] <= i < b[g + 1]
  {
    var (b, maxGroup) := BuildBounds(n, spec).value;
    CutsFromBounds(n, spec);
    BoundsOrdered(b, 0, g);
    BoundsOrdered(b, g + 1, |b| - 1);
    IdsMatchBounds(n, spec, g, b[g]);
    forall i | 0 <= i < n
      ensures ResolveIds(n, spec).value[i] == g <==> b[g] <= i < b[g + 1]
    {
      var h := GroupOf(b, i);
      IdsMatchBounds(n, spec, h, i);
      if b[g] <= i < b[g + 1] {
        IdsMatchBounds(n, spec, g, i);
      }
    }
  }

  /** The kernel's advantage of every sequence is the native one, for every grouping the fused op accepts. */
  lemma FusedIsNative(fns: RealFns, r: Vec, spec: Spec, eps: real, g: nat, i: nat)
    requires fns.Lawful() && eps > 0.0 && BuildBounds(|r|, spec).Ok? && g < |BuildBounds(|r|, spec).value.0| - 1
    requires BuildBounds(|r|, spec).value.0[g] <= i < BuildBounds(|r|, spec).value.0[g + 1]
    ensures i < |r| && ResolveIds(|r|, spec).Ok? && |ResolveIds(|r|, spec).value| == |r|
    ensures var b := BuildBounds(|r|, spec).value.0;
            b[g] < b[g + 1] && InGroup(fns, r, b[g], b[g + 1], eps, i)
                == NativeAdvantage(fns, r, ResolveIds(|r|, spec).value, eps, i)
  {
    IdsOfGroup(|r|, spec, g);
    var b, ids := BuildBounds(|r|, spec).value.0, ResolveIds(|r|, spec).value;
    GroupSumIsRange(RewardRow(r), ids, g, b[g], b[g + 1]);
    GroupSumIsRange(Squares(RewardRow(r)), ids, g, b[g], b[g + 1]);
    GroupSumIsRange(Constant(1.0), ids, g, b[g], b[g + 1]);
    SumConstant(1.0, b[g], b[g + 1]);
    CountPositive(ids, i);
    TimesUnits((b[g + 1] - b[g]) as real);
  }
}
