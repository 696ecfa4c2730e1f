/** The shared-memory transport class: its tables, and the segments it creates, maps and unlinks. */
module SharedMemoryTransport {
  import opened Options
  import opened BridgeState
  import opened SharedMemoryBridge

  /** The named segments of the node. */
  class SegmentStore {
    var contents: map<Segment, Tensor>
    var linked: set<Segment>
    ghost var unlinks: multiset<(nat, Segment)>

    constructor ()
      ensures State() == Memory(map[], {}, multiset{})
    {
      contents, linked, unlinks := map[], {}, multiset{};
    }

    ghost function State(): Memory
      reads this
    {
      Memory(contents, linked, unlinks)
    }

    method Create(s: Segment, t: Tensor)
      modifies this
      ensures contents == old(contents)[s := t] && linked == old(linked) + {s} && unlinks == old(unlinks)
    {
      contents, linked := contents[s := t], linked + {s};
    }

    method Unlink(ghost who: nat, s: Segment)
      modifies this
      ensures contents == old(contents) && linked == old(linked) - {s} && unlinks == old(unlinks) + multiset{(who, s)}
    {
      linked := linked - {s};
      unlinks := unlinks + multiset{(who, s)};
    }
  }

  class SharedMemoryTensorBridge {
    const store: SegmentStore
    ghost const who: nat
    var updates: map<Id, Record>
    var segments: map<Id, Handles>
    var owned: set<Id>
    var latestPublishedVersion: int
    var activeVersion: Option<int>
    var activeId: Option<Id>

    constructor (store: SegmentStore, ghost who: nat)
      ensures this.store == store && this.who == who && State() == NEW_PARTY
    {
      this.store, this.who := store, who;
      updates, segments, owned := map[], map[], {};
      latestPublishedVersion := -1;
      activeVersion, activeId := None, None;
    }

    ghost function State(): Party
      reads this
    {
      Party(Core(updates, latestPublishedVersion, activeVersion, activeId), segments, owned)
    }

    /** What the tensors of a held update read at this moment, through its segments. */
    function CurrentContents(id: Id): (contents: Tensors)
      reads this, store
      ensures contents == Contents(State(), store.State(), id)
    {
      if id in segments then
        map n | n in segments[id] && segments[id][n] in store.contents :: store.contents[segments[id][n]]
      else map[]
    }

    /** publish: every check before the first segment is created, then one segment per tensor. */
    method Publish(id: Id, weightVersion: int, supported: bool, model: Tensors, x: Snapshot)
        returns (outcome: Outcome, shared: SharedManifest)
      requires x.Of(model)
      modifies this, store
      ensures shared == SharedManifest(Manifest(id, weightVersion, TRANSPORT, supported, model), OwnHandles(id, model))
      ensures (State(), store.State(), outcome)
           == PublishShared(old(State()), old(store.State()), who, shared.m, x)
    {
      var m := Manifest(id, weightVersion, TRANSPORT, supported, model);
      shared := SharedManifest(m, OwnHandles(id, model));
      if !supported {
        return Raised(InvalidManifest), shared;
      }
      if weightVersion <= latestPublishedVersion {
        return Raised(VersionNotIncreasing), shared;
      }
      outcome := TakeSnapshot(id, model, x);
      if outcome.Raised? {
        return outcome, shared;
      }
      if model == map[] {
        NoSegments(old(store.State()), id);
        return Raised(NoTensors), shared;
      }
      if !x.described {
        return Raised(DescribeFailed), shared;
      }
      updates := updates[id := Record(m, Published, 0)];
      segments := segments[id := OwnHandles(id, model)];
      owned := owned + {id};
      latestPublishedVersion := weightVersion;
    }

    /** _snapshot_to_shared_memory: create a segment for every tensor and copy the tensor into it; a failure
        closes and unlinks what was created. */
    method TakeSnapshot(id: Id, model: Tensors, x: Snapshot) returns (outcome: Outcome)
      requires x.Of(model)
      modifies store
      ensures store.State()
           == if x.fault.None? then Created(old(store.State()), SegmentsOf(id, model))
              else Unlinked(Created(old(store.State()), HalfMade(id, model, x)), who, RolledBack(id, x))
      ensures outcome == if x.fault.None? then Done else Raised(SnapshotFailed)
    {
      if x.fault.None? {
        CreateAll(id, model, x.names, |x.names|);
        AllNames(id, model, x.names);
        outcome := Done;
      } else {
        FailingSnapshot(id, model, x);
        outcome := Raised(SnapshotFailed);
      }
    }

    method FailingSnapshot(id: Id, model: Tensors, x: Snapshot)
      requires x.Of(model) && x.fault.Some?
      modifies store
      ensures store.State()
           == Unlinked(Created(old(store.State()), HalfMade(id, model, x)), who, RolledBack(id, x))
    {
      ghost var before := store.State();
      CreateAll(id, model, x.names, x.fault.value.at);
      if x.fault.value.partial.Some? {
        store.Create(x.Failing(id), x.fault.value.partial.value);
      }
      FaultCreates(before, id, model, x);
      RollBack(id, x);
    }

    /** The loop over the tensors, for the first n of them. */
    method CreateAll(id: Id, model: Tensors, names: seq<Name>, n: nat)
      requires n <= |names| && Enumerates(names, model.Keys)
      modifies store
      ensures store.State() == Created(old(store.State()), SegmentsOf(id, Prefix(model, names, n)))
    {
      ghost var before := store.State();
      NoSegments(before, id);
      for k := 0 to n
        invariant store.State() == Created(before, SegmentsOf(id, Prefix(model, names, k)))
      {
        var name := names[k];
        store.Create(Segment(id, name), model[name]);
        PrefixGrows(model, names, k);
        OneMoreSegment(before, id, Prefix(model, names, k), name, model[name]);
      }
    }

    /** The handlers of a failed snapshot: the failing segment's own, then the loop over the finished ones. */
    method RollBack(id: Id, x: Snapshot)
      requires x.fault.Some? && x.fault.value.at < |x.names| && Enumerates(x.names, set n | n in x.names)
      modifies store
      ensures store.State() == Unlinked(old(store.State()), who, RolledBack(id, x))
    {
      ghost var before := store.State();
      var failing := x.Failing(id);
      var own: set<Segment> := {};
      NothingUnlinked(before, who);
      if x.fault.value.partial.Some? && failing !in x.stuck {
        store.Unlink(who, failing);
        own := {failing};
        OneMoreUnlink(before, who, {}, failing);
      }
      assert store.State() == Unlinked(before, who, own);
      var raised := CloseAll(x.Before(id), x.stuck, true);
      UnlinkTwice(before, who, own, UnlinkedBy(x.Before(id), x.stuck));
    }

    method ImportUpdate(x: SharedManifest) returns (outcome: Outcome, aliases: Handles)
      requires State().segments.Keys == State().core.updates.Keys
      modifies this
      ensures (State(), outcome) == ImportShared(old(State()), store.State(), x)
      ensures outcome.Done? ==> x.m.id in segments && aliases == segments[x.m.id]
    {
      aliases := map[];
      if x.m.id !in updates {
        var attached := AttachManifest(x);
        if attached.Raised? {
          return attached, aliases;
        }
      }
      var record := updates[x.m.id];
      if record.state.Rejected? {
        return Raised(UpdateRejected), aliases;
      }
      if record.state.Released? {
        return Raised(UpdateReleased), aliases;
      }
      if !ValidManifest(record.manifest, x.m, CurrentContents(x.m.id)) {
        return Raised(InvalidManifest), aliases;
      }
      record := record.(importCount := record.importCount + 1);
      if record.state.Published? {
        record := record.(state := Imported);
      }
      updates := updates[x.m.id := record];
      outcome, aliases := Done, segments[x.m.id];
    }

    /** _attach_shared_memory_manifest: open and check the segments one by one; any failure leaves the
        tables as they were. */
    method AttachManifest(x: SharedManifest) returns (outcome: Outcome)
      modifies this
      ensures x.m.id !in old(updates) ==> (State(), outcome) == AttachShared(old(State()), store.State(), x)
      ensures x.m.id in old(updates) ==> State() == old(State()) && outcome == Done
    {
      if x.m.id in updates {
        return Done;
      }
      if x.m.transport != TRANSPORT || x.handles.Keys != x.m.tensors.Keys {
        return Raised(AttachFailed);
      }
      var remaining := x.handles.Keys;
      while remaining != {}
        invariant remaining <= x.handles.Keys
        invariant forall n | n in x.handles && n !in remaining ::
          && x.handles[n] in store.linked && x.handles[n] in store.contents
          && store.contents[x.handles[n]] == x.m.tensors[n]
        invariant State() == old(State())
        decreases remaining
      {
        var n :| n in remaining;
        if x.handles[n] !in store.linked || x.handles[n] !in store.contents {
          return Raised(AttachFailed);
        }
        if store.contents[x.handles[n]] != x.m.tensors[n] {
          return Raised(AttachFailed);
        }
        remaining := remaining - {n};
      }
      updates := updates[x.m.id := Record(x.m, Published, 0)];
      segments := segments[x.m.id := x.handles];
      outcome := Done;
    }

    method Acknowledge(id: Id) returns (outcome: Outcome)
      modifies this
      ensures (State(), outcome) == AcknowledgeShared(old(State()), store.State(), id)
    {
      if id !in updates {
        return Raised(UnknownUpdate);
      }
      var record := updates[id];
      if record.state.Rejected? {
        return Raised(UpdateRejected);
      }
      if record.state.Released? {
        return Raised(UpdateReleased);
      }
      if record.importCount == 0 {
        return Raised(NotImported);
      }
      if !ValidManifest(record.manifest, record.manifest, CurrentContents(id)) {
        return Raised(InvalidManifest);
      }
      updates := updates[id := record.(state := Acknowledged)];
      activeVersion, activeId := Some(record.manifest.version), Some(id);
      outcome := Done;
    }

    method Reject(id: Id) returns (outcome: Outcome)
      modifies this
      ensures (State(), outcome) == RejectShared(old(State()), id)
    {
      if id !in updates {
        return Raised(UnknownUpdate);
      }
      var record := updates[id];
      if record.state.Acknowledged? {
        return Raised(AlreadyAcknowledged);
      }
      updates := updates[id := record.(state := Rejected)];
      outcome := Done;
    }

    /** release: drop the record, then close every segment, in the order of the table entry, and as the
        publisher unlink it. A close() that raises ends the loop. */
    method Release(id: Id, order: seq<Segment>, stuck: set<Segment>) returns (raised: bool)
      requires Enumerates(order, Held(State(), id))
      modifies this, store
      ensures (State(), store.State(), raised)
           == ReleaseShared(old(State()), old(store.State()), who, id, order, stuck)
    {
      if id in updates {
        updates := updates - {id};
        if activeId == Some(id) {
          activeId := None;
        }
      }
      segments := segments - {id};
      var shouldUnlink := id in owned;
      owned := owned - {id};
      raised := CloseAll(order, stuck, shouldUnlink);
    }

    method CloseOne(ghost before: Memory, order: seq<Segment>, k: nat, unlink: bool)
      requires k < |order| && forall i, j | 0 <= i < j < |order| :: order[i] != order[j]
      requires store.State() == UnlinkedUpTo(before, who, order, k, unlink)
      modifies store
      ensures store.State() == UnlinkedUpTo(before, who, order, k + 1, unlink)
    {
      if unlink {
        store.Unlink(who, order[k]);
        OneMoreFirst(before, who, order, k);
      }
    }

    /** for segment in segments: try close() finally unlink() */
    method CloseAll(order: seq<Segment>, stuck: set<Segment>, unlink: bool) returns (raised: bool)
      requires forall i, j | 0 <= i < j < |order| :: order[i] != order[j]
      modifies store
      ensures store.State()
           == if unlink then Unlinked(old(store.State()), who, UnlinkedBy(order, stuck)) else old(store.State())
      ensures raised == Raises(order, stuck)
    {
      ghost var before := store.State();
      NothingUnlinked(before, who);
      assert FirstOf(order, 0) == {};
      raised := false;
      var k := 0;
      while k < |order| && !raised
        invariant 0 <= k <= |order|
        invariant forall i | 0 <= i < (if raised then k - 1 else k) :: order[i] !in stuck
        invariant store.State() == UnlinkedUpTo(before, who, order, k, unlink)
        invariant raised ==> k > 0 && order[k - 1] in stuck
      {
        raised := order[k] in stuck;
        CloseOne(before, order, k, unlink);
        k := k + 1;
      }
      ReachedIs(order, stuck, k);
    }
  }

  ghost function UnlinkedUpTo(mem: Memory, who: nat, order: seq<Segment>, k: nat, unlink: bool): Memory
    requires k <= |order|
  {
    if unlink then Unlinked(mem, who, FirstOf(order, k)) else mem
  }

  lemma ReachedIs(order: seq<Segment>, stuck: set<Segment>, k: nat)
    requires k <= |order| && forall i | 0 <= i < k - 1 :: order[i] !in stuck
    requires k < |order| ==> k > 0 && order[k - 1] in stuck
    ensures Reached(order, stuck) == k
  {
    var n := Reached(order, stuck);
    var mine := k > 0 && order[k - 1] in stuck;
    var other := n > 0 && order[n - 1] in stuck;
  }

  /** The first n tensors. */
  function Prefix(model: Tensors, names: seq<Name>, n: nat): Tensors
    requires n <= |names|
  {
    map k | k in model && k in names[..n] :: model[k]
  }

  lemma PrefixGrows(model: Tensors, names: seq<Name>, n: nat)
    requires n < |names| && names[n] in model
    ensures Prefix(model, names, n + 1) == Prefix(model, names, n)[names[n] := model[names[n]]]
  {
    assert names[..n + 1] == names[..n] + [names[n]];
  }

  lemma AllNames(id: Id, model: Tensors, names: seq<Name>)
    requires Enumerates(names, model.Keys)
    ensures Prefix(model, names, |names|) == model
  {
    assert names[..|names|] == names;
  }

  lemma NoSegments(mem: Memory, id: Id)
    ensures forall model: Tensors, names: seq<Name> :: Prefix(model, names, 0) == map[]
    ensures Created(mem, SegmentsOf(id, map[])) == mem
  {
    assert SegmentsOf(id, map[]) == map[];
  }

  lemma InBefore(id: Id, x: Snapshot, s: Segment)
    requires x.fault.Some? && x.fault.value.at < |x.names|
    ensures s in x.Before(id) <==> s.update == id && s.name in x.names[..x.fault.value.at]
  {
    var at, order := x.fault.value.at, x.Before(id);
    if s in order {
      var k :| 0 <= k < at && order[k] == s;
      assert x.names[..at][k] == s.name;
    }
    if s.update == id && s.name in x.names[..at] {
      var k :| 0 <= k < at && x.names[..at][k] == s.name;
      assert order[k] == s;
    }
  }

  /** The segments of a failed snapshot are the finished prefix and the failing one. */
  lemma HalfMadeIs(id: Id, model: Tensors, x: Snapshot)
    requires x.Of(model) && x.fault.Some?
    ensures var done := SegmentsOf(id, Prefix(model, x.names, x.fault.value.at));
            HalfMade(id, model, x)
            == if x.fault.value.partial.Some? then done[x.Failing(id) := x.fault.value.partial.value] else done
  {
    var at, order := x.fault.value.at, x.Before(id);
    var done := SegmentsOf(id, Prefix(model, x.names, at));
    forall s ensures s in done <==> s in order && s.name in model {
      InSegments(id, Prefix(model, x.names, at), s);
      InBefore(id, x, s);
    }
  }

  lemma FaultCreates(mem: Memory, id: Id, model: Tensors, x: Snapshot)
    requires x.Of(model) && x.fault.Some?
    ensures var now := Created(mem, SegmentsOf(id, Prefix(model, x.names, x.fault.value.at)));
            Created(mem, HalfMade(id, model, x))
            == if x.fault.value.partial.None? then now
               else now.(contents := now.contents[x.Failing(id) := x.fault.value.partial.value],
                         linked := now.linked + {x.Failing(id)})
  {
    HalfMadeIs(id, model, x);
    var done := SegmentsOf(id, Prefix(model, x.names, x.fault.value.at));
    if x.fault.value.partial.Some? {
      CreatedMore(mem, done, x.Failing(id), x.fault.value.partial.value);
    }
  }

  lemma CreatedMore(mem: Memory, done: map<Segment, Tensor>, s: Segment, t: Tensor)
    ensures var now := Created(mem, done);
            Created(mem, done[s := t]) == now.(contents := now.contents[s := t], linked := now.linked + {s})
  {
  }

  lemma UnlinkTwice(mem: Memory, who: nat, a: set<Segment>, b: set<Segment>)
    requires a !! b
    ensures Unlinked(Unlinked(mem, who, a), who, b) == Unlinked(mem, who, b + a)
  {
    var first, second := set s | s in a :: (who, s), set s | s in b :: (who, s);
    assert (set s | s in b + a :: (who, s)) == second + first;
    assert first !! second;
    assert multiset(second + first) == multiset(first) + multiset(second);
  }

  lemma OneMoreSegment(mem: Memory, id: Id, done: Tensors, n: Name, t: Tensor)
    ensures var s, before := Segment(id, n), Created(mem, SegmentsOf(id, done));
            Created(mem, SegmentsOf(id, done[n := t]))
            == before.(contents := before.contents[s := t], linked := before.linked + {s})
  {
    OneMoreEntry(id, done, n, t);
    CreatedMore(mem, SegmentsOf(id, done), Segment(id, n), t);
  }

  lemma OneMoreEntry(id: Id, done: Tensors, n: Name, t: Tensor)
    ensures SegmentsOf(id, done[n := t]) == SegmentsOf(id, done)[Segment(id, n) := t]
  {
    var after, before := SegmentsOf(id, done[n := t]), SegmentsOf(id, done)[Segment(id, n) := t];
    forall s ensures s in after <==> s in before {
      InSegments(id, done, s);
      InSegments(id, done[n := t], s);
    }
  }

  lemma InSegments(id: Id, tensors: Tensors, s: Segment)
    ensures s in SegmentsOf(id, tensors) <==> s.update == id && s.name in tensors
  {
    if s.update == id && s.name in tensors {
      OwnSegments(id, tensors, s.name);
    }
  }

  lemma OneMoreFirst(mem: Memory, who: nat, order: seq<Segment>, k: nat)
    requires k < |order| && forall i, j | 0 <= i < j < |order| :: order[i] != order[j]
    ensures var now := Unlinked(mem, who, FirstOf(order, k));
            Unlinked(mem, who, FirstOf(order, k + 1))
            == now.(linked := now.linked - {order[k]}, unlinks := now.unlinks + multiset{(who, order[k])})
  {
    assert FirstOf(order, k + 1) == FirstOf(order, k) + {order[k]};
    OneMoreUnlink(mem, who, FirstOf(order, k), order[k]);
  }

  lemma OneMoreUnlink(mem: Memory, who: nat, gone: set<Segment>, s: Segment)
    requires s !in gone
    ensures Unlinked(mem, who, gone + {s})
            == Unlinked(mem, who, gone).(linked := Unlinked(mem, who, gone).linked - {s},
                                         unlinks := Unlinked(mem, who, gone).unlinks + multiset{(who, s)})
  {
    var before := set x | x in gone :: (who, x);
    assert (set x | x in gone + {s} :: (who, x)) == before + {(who, s)};
    assert (who, s) !in before;
    assert multiset(before + {(who, s)}) == multiset(before) + multiset{(who, s)};
  }
}
