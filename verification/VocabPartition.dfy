/** The tensor-parallel vocabulary partition: the validator every sharded call runs first, and what an
    accepted partition means for sums over the vocabulary. */
module VocabPartition {
  import opened Options
  import opened RealFunctions

  /** A half-open range of token ids. */
  type Shard = (int, int)

  predicate Owns(r: Shard, t: int) { r.0 <= t < r.1 }

  /** How many of the shards own token t. */
  function Owners(rs: seq<Shard>, t: int): nat {
    if |rs| == 0 then 0 else Owners(rs[..|rs| - 1], t) + if Owns(rs[|rs| - 1], t) then 1 else 0
  }

  predicate NonEmpty(rs: seq<Shard>) { forall k | 0 <= k < |rs| :: rs[k].0 < rs[k].1 }

  /** No shard is empty, every token of [0, v) has exactly one owner, no other token has any. */
  ghost predicate IsPartition(rs: seq<Shard>, v: int) {
    && NonEmpty(rs)
    && forall t :: Owners(rs, t) == if 0 <= t < v then 1 else 0
  }

  // ----- sorting ---------------------------------------------------------------------------------

  /** Python's order on pairs. */
  predicate Leq(a: Shard, b: Shard) { a.0 < b.0 || (a.0 == b.0 && a.1 <= b.1) }

  predicate Sorted(rs: seq<Shard>) { forall i, j | 0 <= i < j < |rs| :: Leq(rs[i], rs[j]) }

  function Insert(x: Shard, rs: seq<Shard>): seq<Shard> {
    if |rs| == 0 || Leq(rs[|rs| - 1], x) then rs + [x]
    else Insert(x, rs[..|rs| - 1]) + [rs[|rs| - 1]]
  }

  function SortShards(rs: seq<Shard>): seq<Shard> {
    if |rs| == 0 then [] else Insert(rs[|rs| - 1], SortShards(rs[..|rs| - 1]))
  }

  function RangeSum(f: int -> real, rs: seq<Shard>): real {
    if |rs| == 0 then 0.0 else RangeSum(f, rs[..|rs| - 1]) + Sum(f, rs[|rs| - 1].0, rs[|rs| - 1].1)
  }

  lemma Snoc(f: int -> real, t: int, rs: seq<Shard>, x: Shard)
    ensures Owners(rs + [x], t) == Owners(rs, t) + if Owns(x, t) then 1 else 0
    ensures RangeSum(f, rs + [x]) == RangeSum(f, rs) + Sum(f, x.0, x.1)
  {
    assert (rs + [x])[..|rs|] == rs;
  }

  lemma {:induction false} SumOfRanges(g: int -> real, f: int -> real, rs: seq<Shard>, n: nat)
    requires n <= |rs| && forall k | 0 <= k < n :: g(k) == Sum(f, rs[k].0, rs[k].1)
    ensures Sum(g, 0, n) == RangeSum(f, rs[..n])
    decreases n
  {
    if n > 0 {
      SumOfRanges(g, f, rs, n - 1);
      assert rs[..n] == rs[..n - 1] + [rs[n - 1]];
      Snoc(f, 0, rs[..n - 1], rs[n - 1]);
    }
  }

  lemma OwnersStep(rs: seq<Shard>, n: nat, t: int)
    requires n < |rs|
    ensures Owners(rs[..n + 1], t) == Owners(rs[..n], t) + if Owns(rs[n], t) then 1 else 0
  {
    assert rs[..n + 1] == rs[..n] + [rs[n]];
    Snoc(x => 0.0, t, rs[..n], rs[n]);
  }

  lemma {:induction false} InsertSorted(x: Shard, rs: seq<Shard>)
    requires Sorted(rs)
    ensures Sorted(Insert(x, rs)) && multiset(Insert(x, rs)) == multiset(rs) + multiset{x}
    decreases |rs|
  {
    if |rs| > 0 && !Leq(rs[|rs| - 1], x) {
      var front, last := rs[..|rs| - 1], rs[|rs| - 1];
      InsertSorted(x, front);
      assert rs == front + [last];
      var s := Insert(x, front);
      forall k | 0 <= k < |s| ensures Leq(s[k], last) {
        assert s[k] in multiset(s);
        assert s[k] == x || s[k] in front;
      }
    }
  }

  /** The position of insertion matters neither to owners nor to sums. */
  lemma {:induction false} InsertCounts(f: int -> real, t: int, x: Shard, rs: seq<Shard>)
    ensures Owners(Insert(x, rs), t) == Owners(rs, t) + if Owns(x, t) then 1 else 0
    ensures RangeSum(f, Insert(x, rs)) == RangeSum(f, rs) + Sum(f, x.0, x.1)
    decreases |rs|
  {
    if |rs| == 0 || Leq(rs[|rs| - 1], x) {
      Snoc(f, t, rs, x);
    } else {
      var front, last := rs[..|rs| - 1], rs[|rs| - 1];
      InsertCounts(f, t, x, front);
      Snoc(f, t, Insert(x, front), last);
    }
  }

  lemma {:induction false} SortCounts(f: int -> real, t: int, rs: seq<Shard>)
    ensures Owners(SortShards(rs), t) == Owners(rs, t)
    ensures RangeSum(f, SortShards(rs)) == RangeSum(f, rs)
    decreases |rs|
  {
    if |rs| > 0 {
      var front, last := rs[..|rs| - 1], rs[|rs| - 1];
      SortCounts(f, t, front);
      InsertCounts(f, t, last, SortShards(front));
    }
  }

  lemma {:induction false} SortSorts(rs: seq<Shard>)
    ensures Sorted(SortShards(rs)) && multiset(SortShards(rs)) == multiset(rs)
    decreases |rs|
  {
    if |rs| > 0 {
      var front, last := rs[..|rs| - 1], rs[|rs| - 1];
      SortSorts(front);
      InsertSorted(last, SortShards(front));
      assert rs == front + [last];
    }
  }

  /** Sorting the gathered ranges keeps what makes them a partition. */
  lemma SortKeeps(rs: seq<Shard>, v: int)
    ensures Sorted(SortShards(rs)) && |SortShards(rs)| == |rs|
    ensures IsPartition(SortShards(rs), v) <==> IsPartition(rs, v)
  {
    SortSorts(rs);
    assert |SortShards(rs)| == |multiset(rs)| == |rs|;
    SameElements(SortShards(rs), rs);
    forall t ensures Owners(SortShards(rs), t) == Owners(rs, t) {
      SortCounts(x => 0.0, t, rs);
    }
  }

  lemma SameElements(a: seq<Shard>, b: seq<Shard>)
    requires multiset(a) == multiset(b)
    ensures NonEmpty(a) <==> NonEmpty(b)
  {
    forall k | 0 <= k < |a| ensures a[k] in b {
      assert a[k] in multiset(a);
    }
    forall k | 0 <= k < |b| ensures b[k] in a {
      assert b[k] in multiset(b);
    }
  }

  // ----- contiguous chains -----------------------------------------------------------------------

  /** The scan's success: non-empty ranges, each starting where the previous one ended, from 0 to v. */
  predicate Chain(s: seq<Shard>, v: int) {
    if |s| == 0 then v == 0
    else
      var last := s[|s| - 1];
      last.0 < last.1 && last.1 == v && Chain(s[..|s| - 1], last.0)
  }

  lemma {:induction false} ChainIsPartition(s: seq<Shard>, v: int)
    requires Chain(s, v)
    ensures IsPartition(s, v) && v >= 0
    decreases |s|
  {
    if |s| > 0 {
      var front, last := s[..|s| - 1], s[|s| - 1];
      ChainIsPartition(front, last.0);
      assert s == front + [last];
    }
  }

  lemma {:induction false} ChainSums(f: int -> real, s: seq<Shard>, v: int)
    requires Chain(s, v)
    ensures RangeSum(f, s) == Sum(f, 0, v) && v >= 0
    decreases |s|
  {
    if |s| > 0 {
      var last := s[|s| - 1];
      ChainSums(f, s[..|s| - 1], last.0);
      SumSplit(f, 0, last.0, v);
    }
  }

  lemma {:induction false} OwnerCounts(s: seq<Shard>, t: int, k: nat)
    requires k < |s| && Owns(s[k], t)
    ensures Owners(s, t) >= 1
    decreases |s|
  {
    if k < |s| - 1 {
      OwnerCounts(s[..|s| - 1], t, k);
    }
  }

  lemma {:induction false} OwnerExists(s: seq<Shard>, t: int) returns (k: nat)
    requires Owners(s, t) >= 1
    ensures k < |s| && Owns(s[k], t)
    decreases |s|
  {
    k := |s| - 1;
    if !Owns(s[k], t) {
      k := OwnerExists(s[..k], t);
    }
  }

  /** In a sorted partition the last range ends the vocabulary and the rest partitions what precedes it. */
  lemma LastOfPartition(s: seq<Shard>, v: int)
    requires |s| > 0 && Sorted(s) && IsPartition(s, v)
    ensures s[|s| - 1].1 == v && IsPartition(s[..|s| - 1], s[|s| - 1].0)
  {
    var front, last := s[..|s| - 1], s[|s| - 1];
    assert Owners(s, last.0) == Owners(front, last.0) + 1;
    assert Owners(s, last.1 - 1) == Owners(front, last.1 - 1) + 1;
    if last.1 < v {
      assert Owners(s, last.1) == Owners(front, last.1) == 1;
      var k := OwnerExists(front, last.1);
      assert Leq(s[k], last);
      OwnerCounts(front, last.0, k);
      assert false;
    }
    forall t ensures Owners(front, t) == if 0 <= t < last.0 then 1 else 0 {
      assert Owners(s, t) == Owners(front, t) + if Owns(last, t) then 1 else 0;
    }
  }

  lemma {:induction false} PartitionIsChain(s: seq<Shard>, v: int)
    requires Sorted(s) && IsPartition(s, v) && (|s| == 0 ==> v == 0)
    ensures Chain(s, v)
    decreases |s|
  {
    if |s| > 0 {
      LastOfPartition(s, v);
      var front, last := s[..|s| - 1], s[|s| - 1];
      if |front| == 0 {
        assert Owners(front, 0) == 0 && Owners(s, last.0) == 1;
      }
      PartitionIsChain(front, last.0);
    }
  }

  /** Every prefix of a chain is a chain, ending where the next range starts. */
  lemma {:induction false} ChainPrefix(s: seq<Shard>, v: int, k: nat, e: int)
    requires Chain(s, v) && k < |s| && Chain(s[..k], e)
    ensures s[k].0 == e && s[k].0 < s[k].1
    decreases |s|
  {
    var n := |s| - 1;
    if k < n {
      assert s[..n][..k] == s[..k];
      ChainPrefix(s[..n], s[n].0, k, e);
    }
  }

  /** Sums over an accepted partition are sums over the vocabulary, whatever the rank order. */
  lemma PartitionSums(f: int -> real, rs: seq<Shard>, v: int)
    requires |rs| > 0 && IsPartition(rs, v)
    ensures RangeSum(f, rs) == Sum(f, 0, v)
  {
    SortKeeps(rs, v);
    SortCounts(f, 0, rs);
    PartitionIsChain(SortShards(rs), v);
    ChainSums(f, SortShards(rs), v);
  }

  ghost predicate Covered(rs: seq<Shard>, t: int) { exists k :: 0 <= k < |rs| && Owns(rs[k], t) }

  ghost predicate Doubled(rs: seq<Shard>, t: int) {
    exists k, l :: 0 <= k < l < |rs| && Owns(rs[k], t) && Owns(rs[l], t)
  }

  /** Exactly one owner per token, said with ranks: the shards are non-empty, no two of them share a
      token, and together they cover [0, v) and nothing else. */
  lemma PartitionMeaning(rs: seq<Shard>, v: int)
    ensures IsPartition(rs, v) <==>
      NonEmpty(rs) && (forall t :: !Doubled(rs, t)) && (forall t :: Covered(rs, t) <==> 0 <= t < v)
  {
    forall t ensures (Owners(rs, t) >= 1 <==> Covered(rs, t)) && (Owners(rs, t) >= 2 <==> Doubled(rs, t)) {
      SomeOwner(rs, t);
      TwoOwners(rs, t);
    }
  }

  lemma SomeOwner(rs: seq<Shard>, t: int)
    ensures Owners(rs, t) >= 1 <==> Covered(rs, t)
  {
    if Owners(rs, t) >= 1 {
      var k := OwnerExists(rs, t);
    }
    if k :| 0 <= k < |rs| && Owns(rs[k], t) {
      OwnerCounts(rs, t, k);
    }
  }

  lemma {:induction false} TwoOwners(rs: seq<Shard>, t: int)
    ensures Owners(rs, t) >= 2 <==> Doubled(rs, t)
    decreases |rs|
  {
    if |rs| > 0 {
      var n := |rs| - 1;
      TwoOwners(rs[..n], t);
      SomeOwner(rs[..n], t);
      if k :| 0 <= k < n && Owns(rs[..n][k], t) {
        assert Owns(rs[k], t);
      }
      if k, l :| 0 <= k < l < n && Owns(rs[..n][k], t) && Owns(rs[..n][l], t) {
        assert Owns(rs[k], t) && Owns(rs[l], t);
      }
      if k, l :| 0 <= k < l < |rs| && Owns(rs[k], t) && Owns(rs[l], t) {
        assert Owns(rs[..n][k], t);
        assert l < n ==> Owns(rs[..n][l], t);
      }
    }
  }

  // ----- the validator ---------------------------------------------------------------------------

  /** What one rank contributes: vocab_start_index, its rows, and the global size if it declares one. */
  datatype Rank = Rank(start: int, size: nat, declared: Option<int>)

  function ShardOf(r: Rank): Shard { (r.start, r.start + r.size) }

  function Shards(ranks: seq<Rank>): (rs: seq<Shard>)
    ensures |rs| == |ranks| && forall k | 0 <= k < |ranks| :: rs[k] == ShardOf(ranks[k])
  {
    seq(|ranks|, k requires 0 <= k < |ranks| => ShardOf(ranks[k]))
  }

  predicate SizesAgree(ranks: seq<Rank>, v: int) {
    forall k | 0 <= k < |ranks| :: ranks[k].declared.Some? ==> ranks[k].declared.value == v
  }

  ghost predicate Accepted(ranks: seq<Rank>, v: int) {
    |ranks| > 0 && IsPartition(Shards(ranks), v) && SizesAgree(ranks, v)
  }

  datatype Verdict = Valid(vocab: int) | EmptyShard | NotContiguous | SizeMismatch

  lemma RejectedScan(ranks: seq<Rank>, k: nat, e: int)
    requires k < |ranks| == |SortShards(Shards(ranks))| && Chain(SortShards(Shards(ranks))[..k], e)
    requires var r := SortShards(Shards(ranks))[k]; r.1 <= r.0 || r.0 != e
    ensures !exists v :: Accepted(ranks, v)
  {
    var s := SortShards(Shards(ranks));
    forall v ensures !Accepted(ranks, v) {
      if Accepted(ranks, v) {
        SortKeeps(Shards(ranks), v);
        PartitionIsChain(s, v);
        ChainPrefix(s, v, k, e);
      }
    }
  }

  /** A completed scan ends at the only vocabulary size the shards can partition. */
  lemma CompletedScan(ranks: seq<Rank>, e: int)
    requires |ranks| > 0 && Chain(SortShards(Shards(ranks)), e)
    ensures IsPartition(Shards(ranks), e)
    ensures forall v | Accepted(ranks, v) :: v == e
  {
    var s := SortShards(Shards(ranks));
    ChainIsPartition(s, e);
    SortKeeps(Shards(ranks), e);
    forall v | Accepted(ranks, v) ensures v == e {
      SortKeeps(Shards(ranks), v);
      PartitionIsChain(s, v);
    }
  }

  /** The scan over the sorted ranges. */
  method Scan(ranks: seq<Rank>) returns (verdict: Verdict)
    requires |ranks| > 0
    ensures verdict.Valid? ==> IsPartition(Shards(ranks), verdict.vocab) && forall v | Accepted(ranks, v) ::
        v == verdict.vocab
    ensures !verdict.Valid? ==> !exists v :: Accepted(ranks, v)
  {
    var ranges := SortShards(Shards(ranks));
    SortKeeps(Shards(ranks), 0);
    var expected := 0;
    for k := 0 to |ranges|
      invariant Chain(ranges[..k], expected)
    {
      var r := ranges[k];
      if r.1 <= r.0 {
        RejectedScan(ranks, k, expected);
        return EmptyShard;
      }
      if r.0 != expected {
        RejectedScan(ranks, k, expected);
        return NotContiguous;
      }
      assert ranges[..k + 1][..k] == ranges[..k];
      expected := r.1;
    }
    assert ranges[..|ranges|] == ranges;
    CompletedScan(ranks, expected);
    verdict := Valid(expected);
  }

  /** _validate_tp_vocab_partition as rank `self` runs it: sort the gathered ranges, scan them, then
      compare the gathered sizes. It accepts exactly the partitions, and returns the vocabulary size. */
  method Validate(ranks: seq<Rank>, self: nat) returns (verdict: Verdict)
    requires self < |ranks|
    ensures verdict.Valid? <==> exists v :: Accepted(ranks, v)
    ensures verdict.Valid? ==> Accepted(ranks, verdict.vocab)
  {
    verdict := Scan(ranks);
    if !verdict.Valid? {
      return;
    }
    var covered := verdict.vocab;
    for k := 0 to |ranks|
      invariant forall l | 0 <= l < k :: ranks[l].declared.Some? ==> ranks[l].declared.value == covered
    {
      if ranks[k].declared.Some? && ranks[k].declared.value != covered {
        assert forall v | Accepted(ranks, v) :: ranks[k].declared.value == v;
        return SizeMismatch;
      }
    }
    assert Accepted(ranks, covered);
    verdict := Valid(if ranks[self].declared.None? then covered else ranks[self].declared.value);
  }
}
