/** The publish / import / acknowledge / reject / release lifecycle of a weight bridge as a state
    machine, and what every run of it keeps. */
module BridgeState {
  import opened Options

  type Id = nat

  type Name = string

  /** A tensor by value. Checksums are injective, so a descriptor is as good as the tensor it describes. */
  datatype Tensor = Tensor(layout: nat, content: nat)

  type Tensors = map<Name, Tensor>

  /** The parts of a manifest the lifecycle reads; `supported` is the outcome of the layout check. */
  datatype Manifest = Manifest(id: Id, version: int, transport: string, supported: bool, tensors: Tensors)

  datatype RecordState = Published | Imported | Acknowledged | Rejected | Released

  datatype Record = Record(manifest: Manifest, state: RecordState, importCount: nat)

  datatype Error =
    | UnknownUpdate | UpdateRejected | UpdateReleased | NotImported | AlreadyAcknowledged
    | InvalidManifest | VersionNotIncreasing | NoTensors | SnapshotFailed | DescribeFailed | AttachFailed

  datatype Outcome = Done | Raised(error: Error)

  /** The bridge's bookkeeping. */
  datatype Core = Core(updates: map<Id, Record>, latest: int, activeVersion: Option<int>, activeId: Option<Id>)

  const START := Core(map[], -1, None, None)

  // ----- the operations, as functions ------------------------------------------------------------

  /** _validate_manifest: the presented manifest, the record's own and the stored contents all agree. */
  predicate ValidManifest(expected: Manifest, m: Manifest, contents: Tensors) {
    && m.supported
    && m.transport == expected.transport
    && m.version == expected.version
    && m.tensors == expected.tensors
    && contents == expected.tensors
  }

  function Publish(c: Core, m: Manifest): (Core, Outcome) {
    if !m.supported then (c, Raised(InvalidManifest))
    else if m.version <= c.latest then (c, Raised(VersionNotIncreasing))
    else if m.tensors == map[] then (c, Raised(NoTensors))
    else (c.(updates := c.updates[m.id := Record(m, Published, 0)], latest := m.version), Done)
  }

  /** A consumer that never saw the update opens it from its manifest. */
  function Attach(c: Core, m: Manifest): Core {
    if m.id in c.updates then c else c.(updates := c.updates[m.id := Record(m, Published, 0)])
  }

  /** import_update on a known record; `contents` is what its tensors hold at that moment. */
  function Import(c: Core, m: Manifest, contents: Tensors): (Core, Outcome) {
    if m.id !in c.updates then (c, Raised(UnknownUpdate))
    else
      var r := c.updates[m.id];
      if r.state.Rejected? then (c, Raised(UpdateRejected))
      else if r.state.Released? then (c, Raised(UpdateReleased))
      else if !ValidManifest(r.manifest, m, contents) then (c, Raised(InvalidManifest))
      else
        var state := if r.state.Published? then Imported else r.state;
        (c.(updates := c.updates[m.id := Record(r.manifest, state, r.importCount + 1)]), Done)
  }

  function Acknowledge(c: Core, id: Id, contents: Tensors): (Core, Outcome) {
    if id !in c.updates then (c, Raised(UnknownUpdate))
    else
      var r := c.updates[id];
      if r.state.Rejected? then (c, Raised(UpdateRejected))
      else if r.state.Released? then (c, Raised(UpdateReleased))
      else if r.importCount == 0 then (c, Raised(NotImported))
      else if !ValidManifest(r.manifest, r.manifest, contents) then (c, Raised(InvalidManifest))
      else (c.(updates := c.updates[id := r.(state := Acknowledged)],
               activeVersion := Some(r.manifest.version), activeId := Some(id)), Done)
  }

  function Reject(c: Core, id: Id): (Core, Outcome) {
    if id !in c.updates then (c, Raised(UnknownUpdate))
    else
      var r := c.updates[id];
      if r.state.Acknowledged? then (c, Raised(AlreadyAcknowledged))
      else (c.(updates := c.updates[id := r.(state := Rejected)]), Done)
  }

  function Release(c: Core, id: Id): Core {
    if id !in c.updates then c
    else c.(updates := c.updates - {id}, activeId := if c.activeId == Some(id) then None else c.activeId)
  }

  // ----- runs ------------------------------------------------------------------------------------

  /** One call on the bridge, with what it finds in the tensors it checks. */
  datatype Call =
    | DoPublish(m: Manifest)
    | DoAttach(m: Manifest)
    | DoImport(m: Manifest, contents: Tensors)
    | DoAcknowledge(id: Id, contents: Tensors)
    | DoReject(id: Id)
    | DoRelease(id: Id)

  function Step(c: Core, call: Call): Core {
    match call
    case DoPublish(m) => Publish(c, m).0
    case DoAttach(m) => Attach(c, m)
    case DoImport(m, contents) => Import(c, m, contents).0
    case DoAcknowledge(id, contents) => Acknowledge(c, id, contents).0
    case DoReject(id) => Reject(c, id).0
    case DoRelease(id) => Release(c, id)
  }

  /** Update ids are fresh: a publication never reuses the id of a held record. */
  predicate FreshId(c: Core, call: Call) { call.DoPublish? ==> call.m.id !in c.updates }

  function Run(c: Core, calls: seq<Call>): Core
    decreases |calls|
  {
    if |calls| == 0 then c else Run(Step(c, calls[0]), calls[1..])
  }

  predicate FreshRun(c: Core, calls: seq<Call>)
    decreases |calls|
  {
    |calls| == 0 || (FreshId(c, calls[0]) && FreshRun(Step(c, calls[0]), calls[1..]))
  }

  /** What a record's state says about its import count; a held record is never in the released state. */
  predicate RecordInv(r: Record) {
    && (r.state.Published? ==> r.importCount == 0)
    && (r.state.Imported? || r.state.Acknowledged? ==> r.importCount > 0)
    && !r.state.Released?
  }

  /** The lifecycle invariant: record states are consistent, records are filed under their manifest's id,
      and a set active id names an acknowledged record of the active version. */
  predicate Inv(c: Core) {
    && (forall id | id in c.updates :: RecordInv(c.updates[id]) && c.updates[id].manifest.id == id)
    && (c.activeId.Some? ==>
          && c.activeId.value in c.updates
          && c.updates[c.activeId.value].state.Acknowledged?
          && c.activeVersion == Some(c.updates[c.activeId.value].manifest.version))
  }

  lemma StepKeepsInv(c: Core, call: Call)
    requires Inv(c) && FreshId(c, call)
    ensures Inv(Step(c, call))
  {
  }

  /** The lifecycle invariant holds after every run, whatever fails along it and however the tensors are
      tampered with between calls. */
  lemma {:induction false} EveryRunKeepsInv(c: Core, calls: seq<Call>)
    requires Inv(c) && FreshRun(c, calls)
    ensures Inv(Run(c, calls))
    ensures forall id | id in Run(c, calls).updates ::
              var r := Run(c, calls).updates[id];
              r.manifest.id == id && !r.state.Released? && (r.state.Published? ==> r.importCount == 0)
              && (r.state.Imported? ==> r.importCount > 0) && (r.state.Acknowledged? ==> r.importCount > 0)
    ensures Run(c, calls).activeId.Some? ==>
              var d := Run(c, calls);
              d.activeId.value in d.updates && d.updates[d.activeId.value].state.Acknowledged?
              && d.activeVersion == Some(d.updates[d.activeId.value].manifest.version)
    decreases |calls|
  {
    if |calls| > 0 {
      StepKeepsInv(c, calls[0]);
      EveryRunKeepsInv(Step(c, calls[0]), calls[1..]);
    }
  }

  /** A rejected update stays rejected, and can be neither imported nor acknowledged, until it is released. */
  lemma {:induction false} RejectedStaysRejected(c: Core, calls: seq<Call>, id: Id)
    requires Inv(c) && FreshRun(c, calls)
    requires id in c.updates && c.updates[id].state.Rejected?
    requires forall k | 0 <= k < |calls| :: calls[k] != DoRelease(id)
    ensures id in Run(c, calls).updates && Run(c, calls).updates[id].state.Rejected?
    ensures forall m: Manifest, contents | m.id == id :: Import(Run(c, calls), m, contents).1 == Raised(UpdateRejected)
    ensures forall contents :: Acknowledge(Run(c, calls), id, contents).1 == Raised(UpdateRejected)
    ensures Run(c, calls).activeId != Some(id)
    decreases |calls|
  {
    if |calls| > 0 {
      assert calls[0] != DoRelease(id);
      StepKeepsInv(c, calls[0]);
      forall k | 0 <= k < |calls[1..]| ensures calls[1..][k] != DoRelease(id) {
        assert calls[1..][k] == calls[k + 1];
      }
      RejectedStaysRejected(Step(c, calls[0]), calls[1..], id);
    }
  }

  /** The versions of the publications that succeed along a run. */
  function PublishedVersions(c: Core, calls: seq<Call>): seq<int>
    decreases |calls|
  {
    if |calls| == 0 then []
    else
      var rest := PublishedVersions(Step(c, calls[0]), calls[1..]);
      if calls[0].DoPublish? && Publish(c, calls[0].m).1.Done? then [calls[0].m.version] + rest else rest
  }

  /** Published versions strictly increase over every run. */
  lemma {:induction false} PublishedVersionsIncrease(c: Core, calls: seq<Call>)
    ensures forall i | 0 <= i < |PublishedVersions(c, calls)| :: c.latest < PublishedVersions(c, calls)[i]
    ensures forall i, j | 0 <= i < j < |PublishedVersions(c, calls)| ::
      PublishedVersions(c, calls)[i] < PublishedVersions(c, calls)[j]
    decreases |calls|
  {
    if |calls| > 0 {
      PublishedVersionsIncrease(Step(c, calls[0]), calls[1..]);
    }
  }

  /** A publication goes through exactly when its layout is supported, its version is above every published one and
      it has tensors. Then it is held as published, without imports, and nothing else changes but the latest
      version. */
  lemma PublishGoesThroughIff(c: Core, m: Manifest)
    ensures Publish(c, m).1.Done? <==> m.supported && m.version > c.latest && |m.tensors| > 0
    ensures Publish(c, m).1.Done? ==>
              Publish(c, m).0 == c.(updates := c.updates[m.id := Record(m, Published, 0)], latest := m.version)
  {
  }

  /** A rejection goes through exactly when the record is held and not acknowledged, and changes its state only. */
  lemma RejectGoesThroughIff(c: Core, id: Id)
    ensures Reject(c, id).1.Done? <==> id in c.updates && !c.updates[id].state.Acknowledged?
    ensures Reject(c, id).1.Done? ==>
              Reject(c, id).0 == c.(updates := c.updates[id := c.updates[id].(state := Rejected)])
  {
  }

  /** An import goes through exactly when the record is held, neither rejected nor released, and the presented
      manifest has a supported layout, the record's transport, version and tensors, and the stored tensors still
      are those. Then it counts one import and changes nothing else. */
  lemma ImportGoesThroughIff(c: Core, m: Manifest, contents: Tensors)
    ensures Import(c, m, contents).1.Done? <==>
      && m.id in c.updates && !c.updates[m.id].state.Rejected? && !c.updates[m.id].state.Released?
      && m.supported && m.transport == c.updates[m.id].manifest.transport
      && m.version == c.updates[m.id].manifest.version && m.tensors == c.updates[m.id].manifest.tensors == contents
    ensures Import(c, m, contents).1.Done? ==>
      var d := Import(c, m, contents).0;
      && d == c.(updates := c.updates[m.id := d.updates[m.id]])
      && d.updates[m.id].manifest == c.updates[m.id].manifest
      && d.updates[m.id].importCount == c.updates[m.id].importCount + 1
      && !d.updates[m.id].state.Published?
      && (!c.updates[m.id].state.Published? ==> d.updates[m.id].state == c.updates[m.id].state)
  {
  }

  /** An acknowledgement goes through exactly when the record is held, neither rejected nor released, was imported,
      and its stored tensors still are those it describes. */
  lemma AcknowledgeGoesThroughIff(c: Core, id: Id, contents: Tensors)
    ensures Acknowledge(c, id, contents).1.Done? <==>
      && id in c.updates && !c.updates[id].state.Rejected? && !c.updates[id].state.Released?
      && c.updates[id].importCount > 0 && c.updates[id].manifest.supported
      && contents == c.updates[id].manifest.tensors
  {
  }

  predicate SameActive(c: Core, d: Core) { c.activeId == d.activeId && c.activeVersion == d.activeVersion }

  /** The active update changes only by a successful acknowledgement, which names the record it makes
      active, or by releasing the active update. A call that raises changes nothing at all. */
  lemma ActiveChangesOnlyBy(c: Core, call: Call)
    ensures !SameActive(c, Step(c, call)) ==>
      || (call.DoAcknowledge? && Acknowledge(c, call.id, call.contents).1.Done?
          && Step(c, call).activeId == Some(call.id))
      || (call.DoRelease? && c.activeId == Some(call.id) && Step(c, call).activeId == None)
    ensures call.DoPublish? && Publish(c, call.m).1.Raised? ==> Step(c, call) == c
    ensures call.DoImport? && Import(c, call.m, call.contents).1.Raised? ==> Step(c, call) == c
    ensures call.DoAcknowledge? && Acknowledge(c, call.id, call.contents).1.Raised? ==> Step(c, call) == c
    ensures call.DoReject? && Reject(c, call.id).1.Raised? ==> Step(c, call) == c
  {
  }

  /** Publish, import, acknowledge: the happy path activates exactly the published version. */
  lemma PublishedUpdateActivates(c: Core, m: Manifest)
    requires m.supported && c.latest < m.version && m.tensors != map[]
    ensures var published := Publish(c, m);
            var imported := Import(published.0, m, m.tensors);
            var acked := Acknowledge(imported.0, m.id, m.tensors);
            && published.1.Done? && imported.1.Done? && acked.1.Done?
            && acked.0.activeId == Some(m.id) && acked.0.activeVersion == Some(m.version)
            && Release(acked.0, m.id) == Core(c.updates - {m.id}, m.version, Some(m.version), None)
  {
  }
}
