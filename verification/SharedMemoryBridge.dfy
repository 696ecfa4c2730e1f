/** The shared-memory transport: several bridges over one store of named segments. A publisher owns the
    segments of its updates, consumers map them, and importing returns aliases. */
module SharedMemoryBridge {
  import opened Options
  import opened BridgeState

  const TRANSPORT := "shared-memory"

  /** A segment's system-wide name: unique to the update and tensor it was created for. */
  datatype Segment = Segment(update: Id, name: Name)

  type Handles = map<Name, Segment>

  /** A manifest with its bridge metadata; a consumer may be handed any such value. */
  datatype SharedManifest = SharedManifest(m: Manifest, handles: Handles)

  /** The operating system's segments. Contents outlive the name for whoever has the segment mapped.
      `unlinks` records every unlink call with the bridge that made it. */
  datatype Memory = Memory(contents: map<Segment, Tensor>, linked: set<Segment>, unlinks: multiset<(nat, Segment)>)

  /** One bridge: the lifecycle bookkeeping, its segment table, and the updates it published. */
  datatype Party = Party(core: Core, segments: map<Id, Handles>, owned: set<Id>)

  const NEW_PARTY := Party(START, map[], {})

  // ----- the operations, as functions ------------------------------------------------------------

  function OwnHandles(id: Id, tensors: Tensors): Handles {
    map n | n in tensors :: Segment(id, n)
  }

  function SegmentsOf(id: Id, tensors: Tensors): map<Segment, Tensor> {
    map s | s in (set n | n in tensors :: Segment(id, n)) :: tensors[s.name]
  }

  /** Each item once. */
  predicate Enumerates<T(==)>(order: seq<T>, items: set<T>) {
    && (forall i, j | 0 <= i < j < |order| :: order[i] != order[j])
    && (forall i | 0 <= i < |order| :: order[i] in items)
    && forall x | x in items :: x in order
  }

  /** How many segments a loop `for segment: try close() finally unlink()` reaches: it ends after the first
      close() that raises. */
  function Reached(order: seq<Segment>, stuck: set<Segment>): (n: nat)
    ensures n <= |order|
    ensures forall k | 0 <= k < n - 1 :: order[k] !in stuck
    ensures n < |order| ==> n > 0 && order[n - 1] in stuck
  {
    if |order| == 0 then 0 else if order[0] in stuck then 1 else 1 + Reached(order[1..], stuck)
  }

  predicate Raises(order: seq<Segment>, stuck: set<Segment>) {
    exists k | 0 <= k < |order| :: order[k] in stuck
  }

  function UnlinkedBy(order: seq<Segment>, stuck: set<Segment>): set<Segment> {
    FirstOf(order, Reached(order, stuck))
  }

  function FirstOf(order: seq<Segment>, n: nat): set<Segment>
    requires n <= |order|
  {
    set k | 0 <= k < n :: order[k]
  }

  /** A snapshot that fails at names[at]: before that tensor has a segment, or while its segment is filled,
      which leaves `partial` in it. */
  datatype Fault = Fault(at: nat, partial: Option<Tensor>)

  /** How a snapshot goes: the order of the tensors, where it fails if it does, the segments whose close()
      raises when it is rolled back, and whether the finished segments can then be described. */
  datatype Snapshot = Snapshot(names: seq<Name>, fault: Option<Fault>, stuck: set<Segment>, described: bool) {
    predicate Of(tensors: Tensors) {
      Enumerates(names, tensors.Keys) && (fault.Some? ==> fault.value.at < |names|)
    }

    /** The segments finished before the failure, in order. */
    function Before(id: Id): seq<Segment>
      requires fault.Some? && fault.value.at < |names|
    {
      seq(fault.value.at, k requires 0 <= k < fault.value.at => Segment(id, names[k]))
    }

    function Failing(id: Id): Segment
      requires fault.Some? && fault.value.at < |names|
    {
      Segment(id, names[fault.value.at])
    }
  }

  function Created(mem: Memory, segments: map<Segment, Tensor>): Memory {
    mem.(contents := mem.contents + segments, linked := mem.linked + segments.Keys)
  }

  /** The segments that exist when the snapshot fails. */
  function HalfMade(id: Id, tensors: Tensors, x: Snapshot): map<Segment, Tensor>
    requires x.Of(tensors) && x.fault.Some?
  {
    var done := map s | s in x.Before(id) && s.name in tensors :: tensors[s.name];
    if x.fault.value.partial.Some? then done[x.Failing(id) := x.fault.value.partial.value] else done
  }

  /** Those that the rollback unlinks: the failing tensor's own unless its close() raises, and the finished
      ones up to the first whose close() raises. */
  function RolledBack(id: Id, x: Snapshot): set<Segment>
    requires x.fault.Some? && x.fault.value.at < |x.names|
  {
    UnlinkedBy(x.Before(id), x.stuck)
    + if x.fault.value.partial.Some? && x.Failing(id) !in x.stuck then {x.Failing(id)} else {}
  }

  /** The checks that precede the snapshot. */
  predicate SnapshotReached(c: Core, m: Manifest) { m.supported && c.latest < m.version }

  function PublishShared(p: Party, mem: Memory, who: nat, m: Manifest, x: Snapshot): (Party, Memory, Outcome)
    requires x.Of(m.tensors)
  {
    var (core, outcome) := Publish(p.core, m);
    if SnapshotReached(p.core, m) && x.fault.Some? then
      (p, Unlinked(Created(mem, HalfMade(m.id, m.tensors, x)), who, RolledBack(m.id, x)), Raised(SnapshotFailed))
    else if outcome.Raised? then (p, mem, outcome)
    else if !x.described then (p, Created(mem, SegmentsOf(m.id, m.tensors)), Raised(DescribeFailed))
    else
      (Party(core, p.segments[m.id := OwnHandles(m.id, m.tensors)], p.owned + {m.id}),
       Created(mem, SegmentsOf(m.id, m.tensors)), Done)
  }

  predicate CanAttach(mem: Memory, x: SharedManifest) {
    && x.m.transport == TRANSPORT
    && x.handles.Keys == x.m.tensors.Keys
    && (forall n | n in x.handles :: x.handles[n] in mem.linked && x.handles[n] in mem.contents)
    && forall n | n in x.handles :: mem.contents[x.handles[n]] == x.m.tensors[n]
  }

  /** _attach_shared_memory_manifest: all segments open and hold what the manifest says, or nothing changes. */
  function AttachShared(p: Party, mem: Memory, x: SharedManifest): (Party, Outcome) {
    if !CanAttach(mem, x) then (p, Raised(AttachFailed))
    else (Party(Attach(p.core, x.m), p.segments[x.m.id := x.handles], p.owned), Done)
  }

  /** What the tensors of a held update contain now, through the mapped segments. */
  function Contents(p: Party, mem: Memory, id: Id): Tensors {
    if id in p.segments then
      map n | n in p.segments[id] && p.segments[id][n] in mem.contents :: mem.contents[p.segments[id][n]]
    else map[]
  }

  function ImportShared(p: Party, mem: Memory, x: SharedManifest): (Party, Outcome) {
    var (q, attached) := if x.m.id in p.core.updates then (p, Done) else AttachShared(p, mem, x);
    if attached.Raised? then (q, attached)
    else
      var (core, outcome) := Import(q.core, x.m, Contents(q, mem, x.m.id));
      (q.(core := core), outcome)
  }

  function AcknowledgeShared(p: Party, mem: Memory, id: Id): (Party, Outcome) {
    var (core, outcome) := Acknowledge(p.core, id, Contents(p, mem, id));
    (p.(core := core), outcome)
  }

  function RejectShared(p: Party, id: Id): (Party, Outcome) {
    var (core, outcome) := Reject(p.core, id);
    (p.(core := core), outcome)
  }

  function Unlinked(mem: Memory, who: nat, segments: set<Segment>): Memory {
    mem.(linked := mem.linked - segments, unlinks := mem.unlinks + multiset(set s | s in segments :: (who, s)))
  }

  function Held(p: Party, id: Id): set<Segment> { if id in p.segments then p.segments[id].Values else {} }

  /** release: the record and the segment table entry go first, then every segment is closed and, by the
      publisher, unlinked, until a close() raises. */
  function ReleaseShared(p: Party, mem: Memory, who: nat, id: Id, order: seq<Segment>, stuck: set<Segment>):
      (Party, Memory, bool)
  {
    (Party(Release(p.core, id), p.segments - {id}, p.owned - {id}),
     if id in p.owned then Unlinked(mem, who, UnlinkedBy(order, stuck)) else mem,
     Raises(order, stuck))
  }

  // ----- a system of bridges ---------------------------------------------------------------------

  /** Every bridge of the node, the memory they share, and which bridge published each id so far. */
  datatype World = World(parties: seq<Party>, mem: Memory, publisher: map<Id, nat>)

  datatype Event =
    | WPublish(who: nat, m: Manifest, x: Snapshot)
    | WImport(who: nat, shared: SharedManifest)
    | WAcknowledge(who: nat, id: Id)
    | WReject(who: nat, id: Id)
    | WRelease(who: nat, id: Id, order: seq<Segment>, stuck: set<Segment>)
    | WWrite(segment: Segment, tensor: Tensor)

  /** Parties exist, ids are fresh when published, and no manifest names an id before its publication. */
  predicate Allowed(w: World, e: Event) {
    match e
    case WPublish(who, m, x) =>
      who < |w.parties| && m.id !in w.publisher && m.transport == TRANSPORT && x.Of(m.tensors)
    case WImport(who, shared) => who < |w.parties| && shared.m.id in w.publisher
    case WAcknowledge(who, _) => who < |w.parties|
    case WReject(who, _) => who < |w.parties|
    case WRelease(who, id, order, _) => who < |w.parties| && Enumerates(order, Held(w.parties[who], id))
    case WWrite(segment, _) => segment in w.mem.contents
  }

  /** The publication got as far as creating segments, so its id is taken. */
  predicate MakesSegments(outcome: Outcome) {
    outcome.Done? || outcome.error.SnapshotFailed? || outcome.error.DescribeFailed?
  }

  /** One event. A write through an alias changes a segment under every bridge that maps it. */
  function StepWorld(w: World, e: Event): World
    requires Allowed(w, e)
  {
    match e
    case WPublish(who, m, x) =>
      var (p, mem, outcome) := PublishShared(w.parties[who], w.mem, who, m, x);
      World(w.parties[who := p], mem,
            if MakesSegments(outcome) then w.publisher[m.id := who] else w.publisher)
    case WImport(who, shared) => w.(parties := w.parties[who := ImportShared(w.parties[who], w.mem, shared).0])
    case WAcknowledge(who, id) => w.(parties := w.parties[who := AcknowledgeShared(w.parties[who], w.mem, id).0])
    case WReject(who, id) => w.(parties := w.parties[who := RejectShared(w.parties[who], id).0])
    case WRelease(who, id, order, stuck) =>
      var (p, mem, _) := ReleaseShared(w.parties[who], w.mem, who, id, order, stuck);
      w.(parties := w.parties[who := p], mem := mem)
    case WWrite(segment, tensor) => w.(mem := w.mem.(contents := w.mem.contents[segment := tensor]))
  }

  predicate AllowedRun(w: World, events: seq<Event>)
    decreases |events|
  {
    |events| == 0 || (Allowed(w, events[0]) && AllowedRun(StepWorld(w, events[0]), events[1..]))
  }

  function RunWorld(w: World, events: seq<Event>): World
    requires AllowedRun(w, events)
    decreases |events|
  {
    if |events| == 0 then w else RunWorld(StepWorld(w, events[0]), events[1..])
  }

  /** One bridge's tables: the lifecycle invariant, equal key sets, and ownership of published updates only. */
  predicate PartyInv(w: World, who: nat)
    requires who < |w.parties|
  {
    var p := w.parties[who];
    && Inv(p.core)
    && p.segments.Keys == p.core.updates.Keys
    && p.owned <= p.core.updates.Keys
    && p.core.updates.Keys <= w.publisher.Keys
    && forall id | id in p.owned ::
         w.publisher[id] == who && forall s | s in p.segments[id].Values :: s.update == id && s in w.mem.linked
  }

  /** Some bridge still owns the update the segment was made for. */
  predicate Owned(w: World, s: Segment) {
    && s.update in w.publisher && w.publisher[s.update] < |w.parties|
    && s.update in w.parties[w.publisher[s.update]].owned
  }

  predicate InTable(w: World, s: Segment)
    requires Owned(w, s)
  {
    var p := w.parties[w.publisher[s.update]];
    s.update in p.segments && s in p.segments[s.update].Values
  }

  /** How often its publisher has unlinked a segment. */
  function Unlinks(w: World, s: Segment): nat
    requires s.update in w.publisher
  {
    w.mem.unlinks[(w.publisher[s.update], s)]
  }

  /** Every segment ever made: while its update is owned its name is linked and stands in the publisher's
      table; afterwards either the publisher has unlinked it, exactly once, or its name is linked still. */
  predicate SegmentInv(w: World, s: Segment) {
    && s.update in w.publisher && w.publisher[s.update] < |w.parties|
    && (Owned(w, s) ==> s in w.mem.linked && InTable(w, s))
    && Unlinks(w, s) == if s in w.mem.linked then 0 else 1
  }

  /** And only the publisher of a segment ever unlinks it. */
  predicate MemoryInv(w: World) {
    && (forall s | s in w.mem.contents :: SegmentInv(w, s))
    && w.mem.linked <= w.mem.contents.Keys
    && forall u | u in w.mem.unlinks ::
         u.1 in w.mem.contents && u.1.update in w.publisher && w.publisher[u.1.update] == u.0
  }

  predicate WorldInv(w: World) {
    && (forall who | 0 <= who < |w.parties| :: PartyInv(w, who))
    && MemoryInv(w)
  }

  // ----- every step keeps the invariant ----------------------------------------------------------

  /** A party untouched by an event keeps its invariant if its own segments stay linked. */
  lemma OtherParty(w: World, w': World, other: nat)
    requires other < |w.parties| == |w'.parties| && PartyInv(w, other) && w'.parties[other] == w.parties[other]
    requires w.publisher.Keys <= w'.publisher.Keys
    requires forall id | id in w.publisher :: w'.publisher[id] == w.publisher[id]
    requires forall id, s | id in w.parties[other].owned && s in w.parties[other].segments[id].Values ::
               s in w'.mem.linked
    ensures PartyInv(w', other)
  {
  }

  lemma OwnSegments(id: Id, tensors: Tensors, n: Name)
    requires n in tensors
    ensures Segment(id, n) in SegmentsOf(id, tensors) && SegmentsOf(id, tensors)[Segment(id, n)] == tensors[n]
  {
    assert Segment(id, n) in (set k | k in tensors :: Segment(id, k));
  }

  lemma PublishKeepsParties(w: World, e: Event)
    requires WorldInv(w) && Allowed(w, e) && e.WPublish?
    ensures forall who | 0 <= who < |w.parties| :: PartyInv(StepWorld(w, e), who)
  {
    var w', p := StepWorld(w, e), w.parties[e.who];
    forall who | 0 <= who < |w.parties| ensures PartyInv(w', who) {
      assert PartyInv(w, who) && PartyInv(w, e.who);
      if who != e.who || w'.parties[who] == p {
        OldSegmentsStay(w, e, who);
        OtherParty(w, w', who);
      } else {
        PublisherParty(w, e);
      }
    }
  }

  /** A publication, failed or not, unlinks no segment made before it. */
  lemma OldSegmentsStay(w: World, e: Event, who: nat)
    requires WorldInv(w) && Allowed(w, e) && e.WPublish? && who < |w.parties|
    ensures forall id, s | id in w.parties[who].owned && id in w.parties[who].segments
                           && s in w.parties[who].segments[id].Values :: s in StepWorld(w, e).mem.linked
  {
    assert PartyInv(w, who);
    forall id, s | id in w.parties[who].owned && id in w.parties[who].segments
                   && s in w.parties[who].segments[id].Values
      ensures s in StepWorld(w, e).mem.linked
    {
      assert s.update != e.m.id && s in w.mem.linked;
      OldSegmentStays(w, e, s);
    }
  }

  lemma OldSegmentStays(w: World, e: Event, s: Segment)
    requires Allowed(w, e) && e.WPublish? && s.update != e.m.id && s in w.mem.linked
    ensures s in StepWorld(w, e).mem.linked
  {
    if e.x.fault.Some? {
      FaultSegments(e.m.id, e.m.tensors, e.x);
    }
  }

  lemma PublisherParty(w: World, e: Event)
    requires WorldInv(w) && Allowed(w, e) && e.WPublish?
    requires PublishShared(w.parties[e.who], w.mem, e.who, e.m, e.x).2.Done?
    ensures PartyInv(StepWorld(w, e), e.who)
  {
    var w', p, m := StepWorld(w, e), w.parties[e.who], e.m;
    var q := w'.parties[e.who];
    assert PartyInv(w, e.who);
    StepKeepsInv(p.core, DoPublish(m));
    forall id | id in q.owned
      ensures id in w'.publisher && id in q.segments && w'.publisher[id] == e.who
      ensures forall s | s in q.segments[id].Values :: s.update == id && s in w'.mem.linked
    {
      if id == m.id {
        forall s | s in q.segments[id].Values ensures s.update == id && s in w'.mem.linked {
          assert s in SegmentsOf(m.id, m.tensors);
        }
      } else {
        assert id in p.owned;
      }
    }
  }

  /** What a publication does to the world: segments `made` for a new id, of which `gone` are unlinked again. */
  ghost predicate Publishes(w: World, w': World, who: nat, id: Id, made: map<Segment, Tensor>, gone: set<Segment>) {
    && id !in w.publisher && who < |w.parties| == |w'.parties|
    && w'.publisher == w.publisher[id := who] && gone <= made.Keys
    && w'.mem == Unlinked(Created(w.mem, made), who, gone)
    && (forall s | s in made :: s.update == id)
    && (forall i | 0 <= i < |w.parties| && i != who :: w'.parties[i] == w.parties[i])
    && OldUpdatesStay(w.parties[who], w'.parties[who], id)
    && (id in w'.parties[who].owned ==> gone == {} && made.Keys <= Held(w'.parties[who], id))
  }

  /** The other updates of a party are owned and mapped as before. */
  ghost predicate OldUpdatesStay(p: Party, q: Party, id: Id) {
    forall k | k != id ::
      && (k in q.owned <==> k in p.owned)
      && (k in p.segments ==> k in q.segments && q.segments[k] == p.segments[k])
  }

  lemma OldSegment(w: World, w': World, who: nat, id: Id, made: map<Segment, Tensor>, gone: set<Segment>, s: Segment)
    requires MemoryInv(w) && Publishes(w, w', who, id, made, gone) && s in w.mem.contents
    ensures s.update != id && SegmentInv(w', s)
  {
    assert SegmentInv(w, s);
    var added := set x | x in gone :: (who, x);
    assert (w.publisher[s.update], s) !in added;
  }

  lemma NewSegment(w: World, w': World, who: nat, id: Id, made: map<Segment, Tensor>, gone: set<Segment>, s: Segment)
    requires MemoryInv(w) && Publishes(w, w', who, id, made, gone) && s in made
    ensures SegmentInv(w', s)
  {
    var added := set x | x in gone :: (who, x);
    assert (who, s) in added <==> s in gone;
    if (who, s) in w.mem.unlinks {
      OldSegment(w, w', who, id, made, gone, s);
      assert false;
    }
    assert w'.mem.unlinks[(who, s)] == w.mem.unlinks[(who, s)] + multiset(added)[(who, s)];
  }

  lemma PublishedKeepsMemory(w: World, w': World, who: nat, id: Id, made: map<Segment, Tensor>, gone: set<Segment>)
    requires MemoryInv(w) && Publishes(w, w', who, id, made, gone)
    ensures MemoryInv(w')
  {
    forall s | s in w'.mem.contents ensures SegmentInv(w', s) {
      if s in made {
        NewSegment(w, w', who, id, made, gone, s);
      } else {
        OldSegment(w, w', who, id, made, gone, s);
      }
    }
    var added := set x | x in gone :: (who, x);
    forall u | u in w'.mem.unlinks
      ensures u.1 in w'.mem.contents && u.1.update in w'.publisher && w'.publisher[u.1.update] == u.0
    {
      if u in w.mem.unlinks {
        OldSegment(w, w', who, id, made, gone, u.1);
      } else {
        assert u in added;
      }
    }
  }

  lemma PublishKeeps(w: World, e: Event)
    requires WorldInv(w) && Allowed(w, e) && e.WPublish?
    ensures WorldInv(StepWorld(w, e))
  {
    PublishKeepsParties(w, e);
    var w', p := StepWorld(w, e), w.parties[e.who];
    if FaultHits(w, e) {
      FaultMakes(w, e);
      PublishedKeepsMemory(w, w', e.who, e.m.id, HalfMade(e.m.id, e.m.tensors, e.x), RolledBack(e.m.id, e.x));
    } else if Publish(p.core, e.m).1.Done? {
      PublicationMakes(w, e);
      PublishedKeepsMemory(w, w', e.who, e.m.id, SegmentsOf(e.m.id, e.m.tensors), {});
    } else {
      assert w'.parties == w.parties;
    }
  }

  /** The snapshot is taken and fails. */
  predicate FaultHits(w: World, e: Event)
    requires Allowed(w, e) && e.WPublish?
  {
    SnapshotReached(w.parties[e.who].core, e.m) && e.x.fault.Some?
  }

  lemma FaultMakes(w: World, e: Event)
    requires WorldInv(w) && Allowed(w, e) && e.WPublish? && FaultHits(w, e)
    ensures Publishes(w, StepWorld(w, e), e.who, e.m.id, HalfMade(e.m.id, e.m.tensors, e.x), RolledBack(e.m.id, e.x))
  {
    assert PartyInv(w, e.who);
    FaultSegments(e.m.id, e.m.tensors, e.x);
  }

  lemma PublicationMakes(w: World, e: Event)
    requires WorldInv(w) && Allowed(w, e) && e.WPublish? && !FaultHits(w, e)
    requires Publish(w.parties[e.who].core, e.m).1.Done?
    ensures Publishes(w, StepWorld(w, e), e.who, e.m.id, SegmentsOf(e.m.id, e.m.tensors), {})
  {
    assert PartyInv(w, e.who);
    NothingUnlinked(Created(w.mem, SegmentsOf(e.m.id, e.m.tensors)), e.who);
    OwnHandleValues(e.m.id, e.m.tensors);
  }

  lemma OwnHandleValues(id: Id, tensors: Tensors)
    ensures SegmentsOf(id, tensors).Keys <= OwnHandles(id, tensors).Values
  {
    forall s | s in SegmentsOf(id, tensors) ensures s in OwnHandles(id, tensors).Values {
      assert OwnHandles(id, tensors)[s.name] == s;
    }
  }

  lemma NothingUnlinked(mem: Memory, who: nat)
    ensures Unlinked(mem, who, {}) == mem
  {
    var none: set<Segment> := {};
    assert (set s | s in none :: (who, s)) == {};
  }

  /** A failed snapshot made segments of its own update only, and unlinks only segments it made. */
  lemma FaultSegments(id: Id, tensors: Tensors, x: Snapshot)
    requires x.Of(tensors) && x.fault.Some?
    ensures forall s | s in HalfMade(id, tensors, x) :: s.update == id
    ensures RolledBack(id, x) <= HalfMade(id, tensors, x).Keys
  {
    var order := x.Before(id);
    forall s | s in UnlinkedBy(order, x.stuck) ensures s in HalfMade(id, tensors, x) {
      assert s in order && s.name in tensors;
    }
  }

  lemma ReleaseKeepsParties(w: World, e: Event)
    requires WorldInv(w) && Allowed(w, e) && e.WRelease?
    ensures forall who | 0 <= who < |w.parties| :: PartyInv(StepWorld(w, e), who)
  {
    var w', p := StepWorld(w, e), w.parties[e.who];
    assert PartyInv(w, e.who);
    StepKeepsInv(p.core, DoRelease(e.id));
    forall who | 0 <= who < |w.parties| ensures PartyInv(w', who) {
      assert PartyInv(w, who);
      var kept := w'.parties[who];
      forall id, s | id in kept.owned && id in kept.segments && s in kept.segments[id].Values
        ensures s in w'.mem.linked
      {
        assert id in w.parties[who].owned && s in w.parties[who].segments[id].Values;
        if s in UnlinkedBy(e.order, e.stuck) {
          assert s in Held(p, e.id);
        }
      }
      if who != e.who {
        OtherParty(w, w', who);
      }
    }
  }

  /** A release unlinks only segments of the released update, none of which was unlinked before. */
  lemma ReleaseKeepsMemory(w: World, e: Event)
    requires WorldInv(w) && Allowed(w, e) && e.WRelease?
    ensures MemoryInv(StepWorld(w, e))
  {
    var w', p := StepWorld(w, e), w.parties[e.who];
    assert PartyInv(w, e.who);
    forall s | s in w'.mem.contents ensures SegmentInv(w', s) {
      ReleaseKeepsSegment(w, e, s);
    }
    var added := set s | s in UnlinkedBy(e.order, e.stuck) :: (e.who, s);
    forall u | u in w'.mem.unlinks
      ensures u.1 in w'.mem.contents && u.1.update in w'.publisher && w'.publisher[u.1.update] == u.0
    {
      if u !in w.mem.unlinks {
        assert u in added && u.1 in Held(p, e.id);
      }
    }
  }

  lemma ReleaseKeepsSegment(w: World, e: Event, s: Segment)
    requires WorldInv(w) && Allowed(w, e) && e.WRelease? && s in w.mem.contents
    ensures SegmentInv(StepWorld(w, e), s)
  {
    var p := w.parties[e.who];
    assert PartyInv(w, e.who) && SegmentInv(w, s);
    var gone := UnlinkedBy(e.order, e.stuck);
    var added := set x | x in gone :: (e.who, x);
    if e.id in p.owned {
      assert (e.who, s) in added <==> s in gone;
      if s in gone {
        assert s in Held(p, e.id);
      }
    }
  }

  /** An event that touches one party's records, and maps segments for a new id at most, keeps everything. */
  lemma OnePartyChanges(w: World, w': World, who: nat)
    requires WorldInv(w) && who < |w.parties| == |w'.parties|
    requires w' == w.(parties := w.parties[who := w'.parties[who]]) && PartyInv(w', who)
    requires w'.parties[who].owned == w.parties[who].owned
    requires forall k | k in w.parties[who].segments ::
               k in w'.parties[who].segments && w'.parties[who].segments[k] == w.parties[who].segments[k]
    ensures WorldInv(w')
  {
    forall i | 0 <= i < |w.parties| ensures PartyInv(w', i) {
      assert PartyInv(w, i);
      if i != who {
        OtherParty(w, w', i);
      }
    }
    SameMemory(w, w');
  }

  lemma ImportKeeps(w: World, e: Event)
    requires WorldInv(w) && Allowed(w, e) && e.WImport?
    ensures WorldInv(StepWorld(w, e))
  {
    ImporterParty(w, e);
    OnePartyChanges(w, StepWorld(w, e), e.who);
  }

  lemma ImporterParty(w: World, e: Event)
    requires WorldInv(w) && Allowed(w, e) && e.WImport?
    ensures var p, q := w.parties[e.who], StepWorld(w, e).parties[e.who];
            && PartyInv(StepWorld(w, e), e.who) && q.owned == p.owned
            && forall k | k in p.segments :: k in q.segments && q.segments[k] == p.segments[k]
  {
    var p, m := w.parties[e.who], e.shared.m;
    assert PartyInv(w, e.who);
    ImportKeepsCore(p, w.mem, e.shared);
  }

  /** An import keeps a bridge's lifecycle invariant and equal tables, and maps segments for its own id at most. */
  lemma ImportKeepsCore(p: Party, mem: Memory, shared: SharedManifest)
    requires Inv(p.core) && p.segments.Keys == p.core.updates.Keys
    ensures var q := ImportShared(p, mem, shared).0;
            && Inv(q.core) && q.segments.Keys == q.core.updates.Keys && q.owned == p.owned
            && q.core.updates.Keys <= p.core.updates.Keys + {shared.m.id}
            && forall k | k in p.segments :: k in q.segments && q.segments[k] == p.segments[k]
  {
    var q := if shared.m.id in p.core.updates then p else AttachShared(p, mem, shared).0;
    StepKeepsInv(p.core, DoAttach(shared.m));
    StepKeepsInv(q.core, DoImport(shared.m, Contents(q, mem, shared.m.id)));
  }

  /** The memory invariant depends on the memory, the publishers, and the tables of owned updates. */
  lemma SameMemory(w: World, w': World)
    requires MemoryInv(w) && |w'.parties| == |w.parties| && w'.publisher == w.publisher
    requires w'.mem.contents.Keys == w.mem.contents.Keys
    requires w'.mem.linked == w.mem.linked && w'.mem.unlinks == w.mem.unlinks
    requires forall i | 0 <= i < |w.parties| :: w'.parties[i].owned == w.parties[i].owned
    requires forall i, k | 0 <= i < |w.parties| && k in w.parties[i].owned && k in w.parties[i].segments ::
               k in w'.parties[i].segments && w'.parties[i].segments[k] == w.parties[i].segments[k]
    ensures MemoryInv(w')
  {
    forall s | s in w'.mem.contents ensures SegmentInv(w', s) {
      assert SegmentInv(w, s);
    }
  }

  lemma AcknowledgeKeeps(w: World, e: Event)
    requires WorldInv(w) && Allowed(w, e) && e.WAcknowledge?
    ensures WorldInv(StepWorld(w, e))
  {
    var p := w.parties[e.who];
    assert PartyInv(w, e.who);
    StepKeepsInv(p.core, DoAcknowledge(e.id, Contents(p, w.mem, e.id)));
    CoreChanges(w, StepWorld(w, e), e.who);
  }

  lemma RejectKeeps(w: World, e: Event)
    requires WorldInv(w) && Allowed(w, e) && e.WReject?
    ensures WorldInv(StepWorld(w, e))
  {
    assert PartyInv(w, e.who);
    StepKeepsInv(w.parties[e.who].core, DoReject(e.id));
    CoreChanges(w, StepWorld(w, e), e.who);
  }

  lemma CoreChanges(w: World, w': World, who: nat)
    requires WorldInv(w) && who < |w.parties| == |w'.parties|
    requires w' == w.(parties := w.parties[who := w.parties[who].(core := w'.parties[who].core)])
    requires Inv(w'.parties[who].core) && w'.parties[who].core.updates.Keys == w.parties[who].core.updates.Keys
    ensures WorldInv(w')
  {
    assert PartyInv(w, who) && PartyInv(w', who);
    OnePartyChanges(w, w', who);
  }

  lemma StepKeepsWorld(w: World, e: Event)
    requires WorldInv(w) && Allowed(w, e)
    ensures WorldInv(StepWorld(w, e))
  {
    match e
    case WPublish(_, _, _) => PublishKeeps(w, e);
    case WImport(_, _) => ImportKeeps(w, e);
    case WAcknowledge(_, _) => AcknowledgeKeeps(w, e);
    case WReject(_, _) => RejectKeeps(w, e);
    case WRelease(_, _, _, _) =>
      ReleaseKeepsParties(w, e);
      ReleaseKeepsMemory(w, e);
    case WWrite(_, _) =>
      var w' := StepWorld(w, e);
      forall who | 0 <= who < |w.parties| ensures PartyInv(w', who) {
        assert PartyInv(w, who);
        OtherParty(w, w', who);
      }
      SameMemory(w, w');
  }

  /** Over every run of any number of bridges, with failing publications, raising close() calls and writes through
      aliases at any moment: every bridge keeps the lifecycle invariant and equal segment and record tables;
      a segment is linked and in its publisher's table as long as the update is owned; and an unlinked name
      was unlinked exactly once, by its publisher. */
  lemma {:induction false} EveryRunKeepsWorld(w: World, events: seq<Event>)
    requires WorldInv(w) && AllowedRun(w, events)
    ensures WorldInv(RunWorld(w, events))
    decreases |events|
  {
    if |events| > 0 {
      StepKeepsWorld(w, events[0]);
      EveryRunKeepsWorld(StepWorld(w, events[0]), events[1..]);
    }
  }

  lemma FreshWorld(n: nat)
    ensures WorldInv(World(seq(n, i => NEW_PARTY), Memory(map[], {}, multiset{}), map[]))
  {
  }

  // ----- segments that outlive their update ------------------------------------------------------

  /** A name still linked although no bridge owns its update any more: nobody will unlink it. */
  predicate Leaked(w: World, s: Segment) { s in w.mem.contents && s in w.mem.linked && !Owned(w, s) }

  ghost predicate LeakFree(w: World) { forall s | s in w.mem.contents :: !Leaked(w, s) }

  /** No close() of the loop raises, except perhaps the last. */
  predicate ClosesAll(order: seq<Segment>, stuck: set<Segment>) {
    forall k | 0 <= k < |order| - 1 :: order[k] !in stuck
  }

  /** The event unlinks everything it should: the publisher's release, the rollback of a snapshot, and a
      publication that raises after its snapshot, whose segments nobody closes. */
  predicate ClosesThrough(w: World, e: Event)
    requires Allowed(w, e)
  {
    match e
    case WPublish(who, m, x) =>
      SnapshotReached(w.parties[who].core, m) ==>
        if x.fault.Some? then
          ClosesAll(x.Before(m.id), x.stuck) && (x.fault.value.partial.Some? ==> x.Failing(m.id) !in x.stuck)
        else m.tensors == map[] || x.described
    case WRelease(who, id, order, stuck) => id in w.parties[who].owned ==> ClosesAll(order, stuck)
    case _ => true
  }

  /** The loop reaches every segment exactly when no close() before the last raises. */
  lemma {:induction false} ReachedAllIff(order: seq<Segment>, stuck: set<Segment>)
    ensures Reached(order, stuck) == |order| <==> ClosesAll(order, stuck)
    ensures Reached(order, stuck) == |order| ==> forall s | s in order :: s in UnlinkedBy(order, stuck)
  {
    var n := Reached(order, stuck);
    if 0 < n < |order| {
      assert order[n - 1] in stuck;
    }
  }

  lemma LastIsMissed(order: seq<Segment>, stuck: set<Segment>, items: set<Segment>)
    requires Enumerates(order, items) && !ClosesAll(order, stuck)
    ensures |order| > 0 && order[|order| - 1] in items && order[|order| - 1] !in UnlinkedBy(order, stuck)
  {
    ReachedAllIff(order, stuck);
  }

  /** The publisher's release, and the rollback of a snapshot, leave no name behind exactly when every
      close() but the last of the loop returns. */
  lemma ReleaseLeakFreeIff(w: World, e: Event)
    requires WorldInv(w) && LeakFree(w) && Allowed(w, e) && e.WRelease?
    ensures LeakFree(StepWorld(w, e)) <==> ClosesThrough(w, e)
  {
    var w', p := StepWorld(w, e), w.parties[e.who];
    assert PartyInv(w, e.who);
    ReachedAllIff(e.order, e.stuck);
    if ClosesThrough(w, e) {
      forall s | s in w'.mem.contents ensures !Leaked(w', s) {
        assert SegmentInv(w, s) && !Leaked(w, s);
        if Owned(w, s) && s.update == e.id {
          assert s in Held(p, e.id) || w.publisher[s.update] != e.who;
        }
      }
    } else {
      LastIsMissed(e.order, e.stuck, Held(p, e.id));
      var last := e.order[|e.order| - 1];
      assert last in w.mem.linked && last.update == e.id;
      assert Leaked(w', last);
    }
  }

  lemma FaultLeakFreeIff(w: World, e: Event)
    requires WorldInv(w) && LeakFree(w) && Allowed(w, e) && e.WPublish? && FaultHits(w, e)
    ensures LeakFree(StepWorld(w, e)) <==> ClosesThrough(w, e)
  {
    var w', order := StepWorld(w, e), e.x.Before(e.m.id);
    var made, gone := HalfMade(e.m.id, e.m.tensors, e.x), RolledBack(e.m.id, e.x);
    FaultMakes(w, e);
    assert PartyInv(w, e.who);
    HalfMadeKeys(e.m.id, e.m.tensors, e.x);
    RolledBackIff(e.m.id, e.m.tensors, e.x);
    forall s | s in w'.mem.contents ensures Leaked(w', s) <==> s in made && s !in gone {
      if s in w.mem.contents {
        OldSegment(w, w', e.who, e.m.id, made, gone, s);
        assert !Leaked(w, s);
      }
    }
  }

  /** The segments of a failed snapshot: the finished ones, and the failing one if it was created. */
  lemma HalfMadeKeys(id: Id, tensors: Tensors, x: Snapshot)
    requires x.Of(tensors) && x.fault.Some?
    ensures forall s :: s in HalfMade(id, tensors, x) <==>
                        s in x.Before(id) || (x.fault.value.partial.Some? && s == x.Failing(id))
    ensures x.Failing(id) !in x.Before(id)
    ensures Enumerates(x.Before(id), set s | s in x.Before(id))
  {
    var order := x.Before(id);
    forall s | s in order ensures s in HalfMade(id, tensors, x) {
      var k :| 0 <= k < |order| && order[k] == s;
      assert x.names[k] in tensors.Keys;
    }
  }

  /** The rollback unlinks all of them exactly when no close() before the last finished one raises and the
      failing segment's own close() returns. */
  lemma RolledBackIff(id: Id, tensors: Tensors, x: Snapshot)
    requires x.Of(tensors) && x.fault.Some?
    ensures HalfMade(id, tensors, x).Keys <= RolledBack(id, x) <==>
            ClosesAll(x.Before(id), x.stuck) && (x.fault.value.partial.Some? ==> x.Failing(id) !in x.stuck)
  {
    var order := x.Before(id);
    HalfMadeKeys(id, tensors, x);
    ReachedAllIff(order, x.stuck);
    if !ClosesAll(order, x.stuck) {
      LastIsMissed(order, x.stuck, set s | s in order);
      assert order[|order| - 1] in HalfMade(id, tensors, x);
    }
    assert forall s | s in UnlinkedBy(order, x.stuck) :: s in order;
  }

  lemma StepLeakFreeIff(w: World, e: Event)
    requires WorldInv(w) && LeakFree(w) && Allowed(w, e)
    ensures LeakFree(StepWorld(w, e)) <==> ClosesThrough(w, e)
  {
    var w' := StepWorld(w, e);
    if e.WRelease? {
      ReleaseLeakFreeIff(w, e);
    } else if e.WPublish? && FaultHits(w, e) {
      FaultLeakFreeIff(w, e);
    } else if e.WPublish? && Undescribed(w, e) {
      UndescribedLeaks(w, e);
    } else {
      forall s | s in w'.mem.contents ensures !Leaked(w', s) {
        OtherEventsLeakNothing(w, e, s);
      }
    }
  }

  /** The snapshot is complete and describing it raises. */
  predicate Undescribed(w: World, e: Event)
    requires Allowed(w, e) && e.WPublish?
  {
    Publish(w.parties[e.who].core, e.m).1.Done? && e.x.fault.None? && !e.x.described
  }

  /** Then every segment of the publication stays linked. */
  lemma UndescribedLeaks(w: World, e: Event)
    requires WorldInv(w) && Allowed(w, e) && e.WPublish? && Undescribed(w, e)
    ensures forall n | n in e.m.tensors :: Leaked(StepWorld(w, e), Segment(e.m.id, n))
    ensures !LeakFree(StepWorld(w, e))
  {
    assert PartyInv(w, e.who);
    forall n | n in e.m.tensors ensures Leaked(StepWorld(w, e), Segment(e.m.id, n)) {
      OwnSegments(e.m.id, e.m.tensors, n);
    }
    var n :| n in e.m.tensors;
    assert Leaked(StepWorld(w, e), Segment(e.m.id, n));
  }

  lemma OtherEventsLeakNothing(w: World, e: Event, s: Segment)
    requires WorldInv(w) && LeakFree(w) && Allowed(w, e) && s in StepWorld(w, e).mem.contents
    requires !e.WRelease? && (e.WPublish? ==> !FaultHits(w, e) && !Undescribed(w, e))
    ensures !Leaked(StepWorld(w, e), s)
  {
    if e.WPublish? {
      PublicationLeaksNothing(w, e, s);
    } else {
      assert SegmentInv(w, s) && !Leaked(w, s);
    }
  }

  lemma PublicationLeaksNothing(w: World, e: Event, s: Segment)
    requires WorldInv(w) && LeakFree(w) && Allowed(w, e) && s in StepWorld(w, e).mem.contents
    requires e.WPublish? && !FaultHits(w, e) && !Undescribed(w, e)
    ensures !Leaked(StepWorld(w, e), s)
  {
    if s in w.mem.contents {
      assert SegmentInv(w, s) && !Leaked(w, s);
    } else {
      assert s.update == e.m.id;
    }
  }

  /** Nobody ever unlinks a leaked segment. */
  lemma LeakedStays(w: World, e: Event, s: Segment)
    requires WorldInv(w) && Allowed(w, e) && Leaked(w, s)
    ensures Leaked(StepWorld(w, e), s)
  {
    assert SegmentInv(w, s);
    if e.WPublish? {
      LeakedThroughPublication(w, e, s);
    } else if e.WRelease? {
      LeakedThroughRelease(w, e, s);
    }
  }

  lemma LeakedThroughPublication(w: World, e: Event, s: Segment)
    requires WorldInv(w) && Allowed(w, e) && Leaked(w, s) && SegmentInv(w, s) && e.WPublish?
    ensures Leaked(StepWorld(w, e), s)
  {
    OldSegmentStays(w, e, s);
  }

  lemma LeakedThroughRelease(w: World, e: Event, s: Segment)
    requires WorldInv(w) && Allowed(w, e) && Leaked(w, s) && SegmentInv(w, s) && e.WRelease?
    ensures Leaked(StepWorld(w, e), s)
  {
    var p := w.parties[e.who];
    assert PartyInv(w, e.who);
    assert forall x | x in UnlinkedBy(e.order, e.stuck) :: x in Held(p, e.id);
    assert e.id in p.owned ==> s !in UnlinkedBy(e.order, e.stuck);
  }

  predicate RunCloses(w: World, events: seq<Event>)
    requires AllowedRun(w, events)
    decreases |events|
  {
    |events| == 0 || (ClosesThrough(w, events[0]) && RunCloses(StepWorld(w, events[0]), events[1..]))
  }

  lemma {:induction false} LeakedForever(w: World, events: seq<Event>, s: Segment)
    requires WorldInv(w) && AllowedRun(w, events) && Leaked(w, s)
    ensures Leaked(RunWorld(w, events), s)
    decreases |events|
  {
    if |events| > 0 {
      StepKeepsWorld(w, events[0]);
      LeakedStays(w, events[0], s);
      LeakedForever(StepWorld(w, events[0]), events[1..], s);
    }
  }

  /** No segment outlives its update over a run, however the bridges, failures and writes interleave, if and
      only if in every release by a publisher and every rolled-back snapshot no close() but the last raises,
      and no publication raises once its snapshot is complete. */
  lemma {:induction false} RunLeakFreeIff(w: World, events: seq<Event>)
    requires WorldInv(w) && LeakFree(w) && AllowedRun(w, events)
    ensures LeakFree(RunWorld(w, events)) <==> RunCloses(w, events)
    decreases |events|
  {
    if |events| > 0 {
      var next := StepWorld(w, events[0]);
      StepKeepsWorld(w, events[0]);
      StepLeakFreeIff(w, events[0]);
      if ClosesThrough(w, events[0]) {
        RunLeakFreeIff(next, events[1..]);
      } else {
        var s :| s in next.mem.contents && Leaked(next, s);
        LeakedForever(next, events[1..], s);
      }
    }
  }

  /** Then every segment of an update its publisher has released has been unlinked exactly once, and only by
      its publisher; every segment of an update still owned is linked and never was unlinked. */
  lemma UnlinkedExactlyOnce(w: World, events: seq<Event>, s: Segment)
    requires WorldInv(w) && LeakFree(w) && AllowedRun(w, events) && RunCloses(w, events)
    requires s in RunWorld(w, events).mem.contents
    ensures var end := RunWorld(w, events);
            && s.update in end.publisher
            && Unlinks(end, s) == (if Owned(end, s) then 0 else 1)
            && (s in end.mem.linked <==> Owned(end, s))
            && forall who | (who, s) in end.mem.unlinks :: who == end.publisher[s.update]
  {
    EveryRunKeepsWorld(w, events);
    RunLeakFreeIff(w, events);
    assert SegmentInv(RunWorld(w, events), s) && !Leaked(RunWorld(w, events), s);
  }

  const FIRST := Segment(0, "a")
  const SECOND := Segment(0, "b")

  function TwoTensors(a: Tensor, b: Tensor): Manifest { Manifest(0, 0, TRANSPORT, true, map["a" := a, "b" := b]) }

  /** One bridge publishes two tensors and releases them while the first segment's close() raises. */
  function RaisingClose(a: Tensor, b: Tensor): seq<Event> {
    [WPublish(0, TwoTensors(a, b), Snapshot(["a", "b"], None, {}, true)), WRelease(0, 0, [FIRST, SECOND], {FIRST})]
  }

  const ONE_BRIDGE := World([NEW_PARTY], Memory(map[], {}, multiset{}), map[])

  lemma TwoPublished(a: Tensor, b: Tensor)
    ensures Allowed(ONE_BRIDGE, RaisingClose(a, b)[0])
    ensures var w := StepWorld(ONE_BRIDGE, RaisingClose(a, b)[0]);
            && |w.parties| == 1 && 0 in w.parties[0].owned && 0 in w.publisher && w.publisher[0] == 0
            && Held(w.parties[0], 0) == {FIRST, SECOND} && {FIRST, SECOND} <= w.mem.linked
            && {FIRST, SECOND} <= w.mem.contents.Keys
  {
    var m := TwoTensors(a, b);
    OwnSegments(0, m.tensors, "a");
    OwnSegments(0, m.tensors, "b");
    assert OwnHandles(0, m.tensors)["a"] == FIRST && OwnHandles(0, m.tensors)["b"] == SECOND;
  }

  /** Its second name stays linked for good. */
  lemma RaisingCloseLeaks(a: Tensor, b: Tensor)
    ensures AllowedRun(ONE_BRIDGE, RaisingClose(a, b))
    ensures Leaked(RunWorld(ONE_BRIDGE, RaisingClose(a, b)), SECOND)
  {
    TwoPublished(a, b);
    var events := RaisingClose(a, b);
    var w := StepWorld(ONE_BRIDGE, events[0]);
    assert Allowed(w, events[1]);
    assert Reached([FIRST, SECOND], {FIRST}) == 1;
    assert Leaked(StepWorld(w, events[1]), SECOND);
    assert events[1..] == [events[1]] && events[1..][1..] == [];
    assert RunWorld(w, events[1..]) == StepWorld(w, events[1]);
  }

  // ----- what a consumer gets --------------------------------------------------------------------

  /** An import succeeds only if the mapped contents are what the manifest describes: a tampered segment,
      a missing name or a forged manifest is refused. */
  lemma ImportedIsManifest(p: Party, mem: Memory, x: SharedManifest)
    requires Inv(p.core) && p.segments.Keys == p.core.updates.Keys
    ensures var (q, outcome) := ImportShared(p, mem, x);
            outcome.Done? ==> x.m.id in q.segments && Contents(q, mem, x.m.id) == x.m.tensors
  {
  }

  /** A bridge that does not hold the id imports a manifest exactly when its layout is supported, it is of this
      transport, it names a segment for each of its tensors and no other, and each of those is linked and reads what
      the manifest says; otherwise nothing is attached. */
  lemma ImportAttachesIff(p: Party, mem: Memory, x: SharedManifest)
    requires x.m.id !in p.core.updates
    ensures ImportShared(p, mem, x).1.Done? <==>
      && x.m.supported && x.m.transport == "shared-memory" && x.handles.Keys == x.m.tensors.Keys
      && forall n | n in x.handles ::
           && n in x.m.tensors && x.handles[n] in mem.linked && x.handles[n] in mem.contents
           && mem.contents[x.handles[n]] == x.m.tensors[n]
    ensures ImportShared(p, mem, x).1 == Raised(AttachFailed) ==> ImportShared(p, mem, x).0 == p
  {
    if CanAttach(mem, x) {
      assert Contents(AttachShared(p, mem, x).0, mem, x.m.id) == x.m.tensors;
    }
  }

  /** Everything a publication made can be opened, and reads the published tensors. */
  lemma PublishedReads(w: World, from: nat, m: Manifest, x: Snapshot)
    requires Allowed(w, WPublish(from, m, x)) && x.fault.None? && x.described
    requires m.supported && w.parties[from].core.latest < m.version && m.tensors != map[]
    ensures var mem, handles := StepWorld(w, WPublish(from, m, x)).mem, OwnHandles(m.id, m.tensors);
            forall n | n in handles ::
              handles[n] in mem.linked && handles[n] in mem.contents && mem.contents[handles[n]] == m.tensors[n]
  {
    forall n | n in m.tensors
      ensures Segment(m.id, n) in SegmentsOf(m.id, m.tensors)
      ensures SegmentsOf(m.id, m.tensors)[Segment(m.id, n)] == m.tensors[n]
    {
      OwnSegments(m.id, m.tensors, n);
    }
  }

  /** A bridge without the id attaches a manifest whose segments all read what it says, and imports it. */
  lemma AttachedIsImported(p: Party, mem: Memory, shared: SharedManifest)
    requires CanAttach(mem, shared) && shared.m.supported && shared.m.id !in p.core.updates
    ensures var (q, outcome) := ImportShared(p, mem, shared);
            && outcome.Done? && q.core.updates[shared.m.id] == Record(shared.m, Imported, 1)
            && Contents(q, mem, shared.m.id) == shared.m.tensors
  {
    assert Contents(AttachShared(p, mem, shared).0, mem, shared.m.id) == shared.m.tensors;
  }

  /** Hand-over: what one bridge publishes, another that does not hold the id imports, from any state of
      either, and its aliases read the published tensors. */
  lemma PublishedIsImported(w: World, from: nat, to: nat, m: Manifest, x: Snapshot)
    requires WorldInv(w) && Allowed(w, WPublish(from, m, x)) && x.fault.None? && x.described
    requires to < |w.parties| && to != from
    requires m.supported && w.parties[from].core.latest < m.version && m.tensors != map[]
    ensures var w', shared := StepWorld(w, WPublish(from, m, x)), SharedManifest(m, OwnHandles(m.id, m.tensors));
            var (q, outcome) := ImportShared(w'.parties[to], w'.mem, shared);
            && outcome.Done? && q.core.updates[m.id] == Record(m, Imported, 1)
            && Contents(q, w'.mem, m.id) == m.tensors
  {
    assert PartyInv(w, to);
    PublishedReads(w, from, m, x);
    var w' := StepWorld(w, WPublish(from, m, x));
    AttachedIsImported(w'.parties[to], w'.mem, SharedManifest(m, OwnHandles(m.id, m.tensors)));
  }
}
