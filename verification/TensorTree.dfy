/** summarize_tensor_tree: counting the distinct tensors of a nested, possibly shared and possibly cyclic
    output, by a depth-first traversal with a set of visited object ids. */
module TensorTree {

  /** id(object) */
  type Id = nat

  /** What the traversal can tell about an object, in the order it asks. */
  datatype Obj =
    | NoneObject
    | Tensor(nbytes: nat)
    | MappingObject(values: seq<Id>)
    | SequenceObject(items: seq<Id>)
    | DictObject(attributes: seq<Id>)
    | Opaque

  type Heap = map<Id, Obj>

  function Children(o: Obj): seq<Id> {
    match o
    case MappingObject(values) => values
    case SequenceObject(items) => items
    case DictObject(attributes) => attributes
    case _ => []
  }

  ghost predicate Closed(h: Heap) {
    forall x, c | x in h && c in Children(h[x]) :: c in h
  }

  // ----- what should be counted ------------------------------------------------------------------

  /** A path of references from its first object to its last. */
  ghost predicate IsPath(h: Heap, path: seq<Id>) {
    && |path| > 0
    && (forall k | 0 <= k < |path| :: path[k] in h)
    && forall k | 0 <= k < |path| - 1 :: path[k + 1] in Children(h[path[k]])
  }

  ghost predicate Reaches(h: Heap, root: Id, x: Id) {
    exists path :: IsPath(h, path) && path[0] == root && path[|path| - 1] == x
  }

  ghost function Tensors(h: Heap, s: set<Id>): set<Id> { set x | x in s && x in h && h[x].Tensor? }

  ghost function ReachableTensors(h: Heap, root: Id): set<Id> {
    set x | x in h && h[x].Tensor? && Reaches(h, root, x)
  }

  function NBytes(h: Heap, x: Id): nat { if x in h && h[x].Tensor? then h[x].nbytes else 0 }

  /** Total bytes of a set of objects, each counted once. */
  ghost function TotalBytes(h: Heap, s: set<Id>): nat {
    if s == {} then 0 else var x :| x in s; NBytes(h, x) + TotalBytes(h, s - {x})
  }

  lemma {:induction false} TotalBytesWithout(h: Heap, s: set<Id>, y: Id)
    requires y in s
    ensures TotalBytes(h, s) == NBytes(h, y) + TotalBytes(h, s - {y})
    decreases |s|
  {
    var x :| x in s && TotalBytes(h, s) == NBytes(h, x) + TotalBytes(h, s - {x});
    if x != y {
      TotalBytesWithout(h, s - {x}, y);
      TotalBytesWithout(h, s - {y}, x);
      assert s - {x} - {y} == s - {y} - {x};
    }
  }

  lemma {:induction false} TotalBytesDisjoint(h: Heap, s: set<Id>, t: set<Id>)
    requires s !! t
    ensures TotalBytes(h, s + t) == TotalBytes(h, s) + TotalBytes(h, t)
    decreases |t|
  {
    if t == {} {
      assert s + t == s;
    } else {
      var y :| y in t;
      TotalBytesWithout(h, t, y);
      TotalBytesWithout(h, s + t, y);
      assert s + t - {y} == s + (t - {y});
      TotalBytesDisjoint(h, s, t - {y});
    }
  }

  /** Objects that are no tensors weigh nothing. */
  lemma {:induction false} TotalBytesOfTensors(h: Heap, s: set<Id>)
    ensures TotalBytes(h, s) == TotalBytes(h, Tensors(h, s))
    decreases |s|
  {
    if y :| y in s && y !in Tensors(h, s) {
      TotalBytesWithout(h, s, y);
      TotalBytesOfTensors(h, s - {y});
      assert Tensors(h, s - {y}) == Tensors(h, s);
    } else {
      assert Tensors(h, s) == s;
    }
  }

  // ----- paths -----------------------------------------------------------------------------------

  lemma ReachesSelf(h: Heap, x: Id)
    requires x in h
    ensures Reaches(h, x, x)
  {
    assert IsPath(h, [x]);
  }

  lemma ReachesThroughChild(h: Heap, root: Id, child: Id, x: Id)
    requires root in h && child in Children(h[root]) && Reaches(h, child, x)
    ensures Reaches(h, root, x)
  {
    var path :| IsPath(h, path) && path[0] == child && path[|path| - 1] == x;
    var longer := [root] + path;
    forall k | 0 <= k < |longer| - 1 ensures longer[k + 1] in Children(h[longer[k]]) {
      if k > 0 {
        assert path[k - 1 + 1] in Children(h[path[k - 1]]);
      }
    }
    assert IsPath(h, longer) && longer[|longer| - 1] == x;
  }

  /** What a container refers to, of whichever kind it is. */
  ghost predicate Lists(o: Obj, x: Id) {
    || (o.MappingObject? && x in o.values)
    || (o.SequenceObject? && x in o.items)
    || (o.DictObject? && x in o.attributes)
  }

  /** Every value of a mapping, item of a sequence and attribute of an object is reached from it. */
  lemma ListedIsReached(h: Heap, x: Id, y: Id)
    requires x in h && y in h && Lists(h[x], y)
    ensures Reaches(h, x, y)
    ensures h[y].Tensor? ==> y in ReachableTensors(h, x)
    ensures forall z | Reaches(h, y, z) :: Reaches(h, x, z)
  {
    ReachesSelf(h, y);
    ReachesThroughChild(h, x, y, y);
    forall z | Reaches(h, y, z) ensures Reaches(h, x, z) {
      ReachesThroughChild(h, x, y, z);
    }
  }

  /** And nothing else is: what an object reaches is itself, or is reached from something it lists. A tensor,
      None and an opaque object list nothing. */
  lemma ReachedIsListed(h: Heap, x: Id, z: Id)
    requires Reaches(h, x, z) && z != x
    ensures exists y :: y in h && x in h && Lists(h[x], y) && Reaches(h, y, z)
  {
    var path :| IsPath(h, path) && path[0] == x && path[|path| - 1] == z;
    var rest := path[1..];
    assert path[0 + 1] in Children(h[path[0]]);
    forall k | 0 <= k < |rest| - 1 ensures rest[k + 1] in Children(h[rest[k]]) {
      assert path[k + 1 + 1] in Children(h[path[k + 1]]);
    }
    assert IsPath(h, rest) && rest[|rest| - 1] == z;
    assert Reaches(h, rest[0], z);
  }

  /** One tensor weighs its own bytes. */
  lemma OneTensor(h: Heap, x: Id)
    requires x in h && h[x].Tensor?
    ensures ReachableTensors(h, x) == {x} && TotalBytes(h, {x}) == h[x].nbytes
  {
    ReachesSelf(h, x);
    forall z | z in ReachableTensors(h, x) ensures z == x {
      if z != x {
        ReachedIsListed(h, x, z);
      }
    }
    TotalBytesWithout(h, {x}, x);
    assert {x} - {x} == {};
  }

  /** A set that holds the root and is closed under references, up to None, holds all that is reachable. */
  lemma {:induction false} ClosedHoldsPath(h: Heap, s: set<Id>, path: seq<Id>, n: nat)
    requires Closed(h) && IsPath(h, path) && n < |path|
    requires path[0] in s || h[path[0]].NoneObject?
    requires ClosedIn(h, s, s)
    ensures path[n] in s || h[path[n]].NoneObject?
    decreases n
  {
    if n > 0 {
      ClosedHoldsPath(h, s, path, n - 1);
      assert path[n - 1 + 1] in Children(h[path[n - 1]]);
      if path[n - 1] in s {
        assert SeenOrNone(h, s, path[n]);
      }
    }
  }

  // ----- the traversal ---------------------------------------------------------------------------

  function SumCounts(counts: seq<(nat, nat)>): nat {
    if |counts| == 0 then 0 else SumCounts(counts[..|counts| - 1]) + counts[|counts| - 1].0
  }

  function SumBytes(counts: seq<(nat, nat)>): nat {
    if |counts| == 0 then 0 else SumBytes(counts[..|counts| - 1]) + counts[|counts| - 1].1
  }

  /** The result of visiting the objects `added`. */
  ghost predicate Counts(h: Heap, added: set<Id>, count: nat, bytes: nat) {
    count == |Tensors(h, added)| && bytes == TotalBytes(h, added)
  }

  lemma CountsAdd(h: Heap, s: set<Id>, t: set<Id>, a: nat, b: nat, c: nat, d: nat)
    requires s !! t && Counts(h, s, a, b) && Counts(h, t, c, d)
    ensures Counts(h, s + t, a + c, b + d)
  {
    assert Tensors(h, s + t) == Tensors(h, s) + Tensors(h, t);
    TotalBytesDisjoint(h, s, t);
  }

  /** Newly visited objects are reachable from where the visit started. */
  ghost predicate AllReached(h: Heap, added: set<Id>, root: Id) {
    forall x | x in added :: x in h && Reaches(h, root, x)
  }

  /** References out of visited objects lead to seen objects or to None. */
  ghost predicate ClosedIn(h: Heap, added: set<Id>, seen: set<Id>) {
    forall x, c | x in added && x in h && c in Children(h[x]) :: SeenOrNone(h, seen, c)
  }

  class Visitor {
    const heap: Heap
    var seen: set<Id>

    constructor (heap: Heap)
      ensures this.heap == heap && seen == {}
    {
      this.heap := heap;
      seen := {};
    }

    /** visit(node) */
    method Visit(node: Id) returns (count: nat, bytes: nat)
      requires Closed(heap) && node in heap && seen <= heap.Keys
      modifies this
      ensures old(seen) <= seen <= heap.Keys
      ensures heap[node].NoneObject? || node in seen
      ensures Counts(heap, seen - old(seen), count, bytes)
      ensures AllReached(heap, seen - old(seen), node)
      ensures ClosedIn(heap, seen - old(seen), seen)
      decreases heap.Keys - seen, 1
    {
      if heap[node].NoneObject? || node in seen {
        assert seen - old(seen) == {};
        return 0, 0;
      }
      seen := seen + {node};
      assert seen - old(seen) == {node};
      ReachesSelf(heap, node);
      if heap[node].Tensor? {
        OneObject(heap, node);
        return 1, heap[node].nbytes;
      }
      if heap[node].Opaque? {
        OneObject(heap, node);
        return 0, 0;
      }
      var counts := VisitChildren(node, old(seen));
      ProgressDone(heap, old(seen), seen, node, SumCounts(counts), SumBytes(counts));
      count, bytes := SumCounts(counts), SumBytes(counts);
    }

    /** The list comprehension over the children of a container that was just marked as seen. */
    method VisitChildren(node: Id, ghost before: set<Id>) returns (counts: seq<(nat, nat)>)
      requires Closed(heap) && node in heap && seen <= heap.Keys
      requires !heap[node].Tensor? && node !in before && seen == before + {node}
      modifies this
      ensures before + {node} <= seen <= heap.Keys
      ensures Progress(heap, before, seen, node, |Children(heap[node])|, SumCounts(counts), SumBytes(counts))
      decreases heap.Keys - seen, 2
    {
      var items := Children(heap[node]);
      counts := [];
      ProgressStarts(heap, before, node);
      for i := 0 to |items|
        invariant before + {node} <= seen <= heap.Keys
        invariant Progress(heap, before, seen, node, i, SumCounts(counts), SumBytes(counts))
      {
        ghost var mid := seen;
        assert items[i] in Children(heap[node]);
        var c, b := Visit(items[i]);
        VisitedMore(heap, before, mid, seen, node, i, SumCounts(counts), SumBytes(counts), c, b);
        assert (counts + [(c, b)])[..|counts|] == counts;
        counts := counts + [(c, b)];
      }
    }
  }

  /** After the first n children of a container: what was newly seen is counted, reachable from it, and
      closed, except that the container's later children may still be unseen. */
  ghost predicate Progress(h: Heap, before: set<Id>, seen: set<Id>, node: Id, n: nat, count: nat, bytes: nat)
    requires node in h && n <= |Children(h[node])|
  {
    && Counts(h, seen - before, count, bytes)
    && AllReached(h, seen - before, node)
    && ClosedIn(h, seen - before - {node}, seen)
    && forall k | 0 <= k < n :: SeenOrNone(h, seen, Children(h[node])[k])
  }

  ghost predicate SeenOrNone(h: Heap, seen: set<Id>, c: Id) { c in h && (c in seen || h[c].NoneObject?) }

  lemma ProgressStarts(h: Heap, before: set<Id>, node: Id)
    requires node in h && !h[node].Tensor? && node !in before
    ensures Progress(h, before, before + {node}, node, 0, 0, 0)
  {
    assert before + {node} - before == {node};
    OneObject(h, node);
    ReachesSelf(h, node);
  }

  lemma ProgressDone(h: Heap, before: set<Id>, seen: set<Id>, node: Id, count: nat, bytes: nat)
    requires node in h && node in seen && Progress(h, before, seen, node, |Children(h[node])|, count, bytes)
    ensures Counts(h, seen - before, count, bytes) && AllReached(h, seen - before, node)
    ensures ClosedIn(h, seen - before, seen)
  {
    forall x, c | x in seen - before && x in h && c in Children(h[x]) ensures SeenOrNone(h, seen, c) {
      if x == node {
        var k :| 0 <= k < |Children(h[node])| && Children(h[node])[k] == c;
        assert SeenOrNone(h, seen, Children(h[node])[k]);
      }
    }
  }

  lemma OneObject(h: Heap, x: Id)
    requires x in h
    ensures Counts(h, {x}, if h[x].Tensor? then 1 else 0, NBytes(h, x))
  {
    assert Tensors(h, {x}) == if h[x].Tensor? then {x} else {};
    TotalBytesWithout(h, {x}, x);
    assert {x} - {x} == {};
  }

  /** One more child visited: the counts add, and the new objects are reachable from the parent. */
  lemma VisitedMore(h: Heap, before: set<Id>, mid: set<Id>, after: set<Id>, node: Id, i: nat,
                    a: nat, b: nat, c: nat, d: nat)
    requires node in h && i < |Children(h[node])| && before + {node} <= mid <= after && node !in before
    requires Progress(h, before, mid, node, i, a, b)
    requires var child := Children(h[node])[i];
             && Counts(h, after - mid, c, d) && AllReached(h, after - mid, child) && ClosedIn(h, after - mid, after)
             && SeenOrNone(h, after, child)
    ensures Progress(h, before, after, node, i + 1, a + c, b + d)
  {
    assert after - before == (mid - before) + (after - mid);
    CountsAdd(h, mid - before, after - mid, a, b, c, d);
    forall x | x in after - mid ensures Reaches(h, node, x) {
      ReachesThroughChild(h, node, Children(h[node])[i], x);
    }
    forall k | 0 <= k < i + 1 ensures SeenOrNone(h, after, Children(h[node])[k]) {
      if k < i {
        assert SeenOrNone(h, mid, Children(h[node])[k]);
      }
    }
    forall x, y | x in after - before - {node} && x in h && y in Children(h[x]) ensures SeenOrNone(h, after, y) {
      if x in mid {
        assert x in mid - before - {node};
        assert SeenOrNone(h, mid, y);
      }
    }
  }

  datatype TensorTreeSummary = TensorTreeSummary(tensorCount: nat, totalBytes: nat)

  /** summarize_tensor_tree: on every finite object graph it terminates and counts exactly the distinct
      tensors reachable from the root, and their bytes, each once. */
  method Summarize(heap: Heap, root: Id) returns (summary: TensorTreeSummary)
    requires Closed(heap) && root in heap
    ensures summary.tensorCount == |ReachableTensors(heap, root)|
    ensures summary.totalBytes == TotalBytes(heap, ReachableTensors(heap, root))
  {
    var visitor := new Visitor(heap);
    var count, bytes := visitor.Visit(root);
    assert visitor.seen - {} == visitor.seen;
    SeenIsReachable(heap, root, visitor.seen);
    TotalBytesOfTensors(heap, visitor.seen);
    summary := TensorTreeSummary(count, bytes);
  }

  lemma SeenIsReachable(h: Heap, root: Id, seen: set<Id>)
    requires Closed(h) && root in h && seen <= h.Keys
    requires h[root].NoneObject? || root in seen
    requires AllReached(h, seen, root) && ClosedIn(h, seen, seen)
    ensures Tensors(h, seen) == ReachableTensors(h, root)
  {
    forall x | x in ReachableTensors(h, root) ensures x in seen {
      var path :| IsPath(h, path) && path[0] == root && path[|path| - 1] == x;
      ClosedHoldsPath(h, seen, path, |path| - 1);
    }
  }
}
