/** The local transport class, which implements the bridge lifecycle on private clones. */
module LocalBridge {
  import opened Options
  import opened BridgeState

  /** LocalTensorCopyBridge: the record's tensors are private clones kept with it. */
  class LocalTensorCopyBridge {
    const transport: string
    var updates: map<Id, Record>
    var stored: map<Id, Tensors>
    var latestPublishedVersion: int
    var activeVersion: Option<int>
    var activeId: Option<Id>

    constructor (transport: string)
      ensures this.transport == transport
      ensures State() == START && Valid()
    {
      this.transport := transport;
      updates, stored := map[], map[];
      latestPublishedVersion := -1;
      activeVersion, activeId := None, None;
    }

    ghost function State(): Core
      reads this
    {
      Core(updates, latestPublishedVersion, activeVersion, activeId)
    }

    /** The lifecycle invariant, and clones that still are what their manifest describes. */
    ghost predicate Valid()
      reads this
    {
      && Inv(State()) && stored.Keys == updates.Keys
      && forall id | id in updates :: stored[id] == updates[id].manifest.tensors
    }

    method Publish(id: Id, weightVersion: int, supported: bool, model: Tensors)
        returns (outcome: Outcome, manifest: Manifest)
      requires Valid() && id !in updates
      modifies this
      ensures Valid()
      ensures manifest == Manifest(id, weightVersion, transport, supported, model)
      ensures (State(), outcome) == BridgeState.Publish(old(State()), manifest)
    {
      manifest := Manifest(id, weightVersion, transport, supported, model);
      if !supported {
        return Raised(InvalidManifest), manifest;
      }
      if weightVersion <= latestPublishedVersion {
        return Raised(VersionNotIncreasing), manifest;
      }
      var tensors := model;
      if tensors == map[] {
        return Raised(NoTensors), manifest;
      }
      updates := updates[id := Record(manifest, Published, 0)];
      stored := stored[id := tensors];
      latestPublishedVersion := weightVersion;
      outcome := Done;
    }

    method ImportUpdate(m: Manifest) returns (outcome: Outcome, imported: Tensors)
      requires Valid()
      modifies this
      ensures Valid()
      ensures var contents := if m.id in old(stored) then old(stored)[m.id] else map[];
              (State(), outcome) == Import(old(State()), m, contents)
      ensures outcome.Done? ==> imported == m.tensors
    {
      imported := map[];
      if m.id !in updates {
        return Raised(UnknownUpdate), imported;
      }
      var record := updates[m.id];
      if record.state.Rejected? {
        return Raised(UpdateRejected), imported;
      }
      if record.state.Released? {
        return Raised(UpdateReleased), imported;
      }
      if !ValidManifest(record.manifest, m, stored[m.id]) {
        return Raised(InvalidManifest), imported;
      }
      record := record.(importCount := record.importCount + 1);
      if record.state.Published? {
        record := record.(state := Imported);
      }
      updates := updates[m.id := record];
      outcome, imported := Done, stored[m.id];
    }

    method Acknowledge(id: Id) returns (outcome: Outcome)
      requires Valid()
      modifies this
      ensures Valid()
      ensures var contents := if id in old(stored) then old(stored)[id] else map[];
              (State(), outcome) == BridgeState.Acknowledge(old(State()), id, contents)
    {
      if id !in updates {
        return Raised(UnknownUpdate);
      }
      var record := updates[id];
      if record.state.Rejected? {
        return Raised(UpdateRejected);
      }
      if record.state.Released? {
        return Raised(UpdateReleased);
      }
      if record.importCount == 0 {
        return Raised(NotImported);
      }
      if !ValidManifest(record.manifest, record.manifest, stored[id]) {
        return Raised(InvalidManifest);
      }
      updates := updates[id := record.(state := Acknowledged)];
      activeVersion, activeId := Some(record.manifest.version), Some(id);
      outcome := Done;
    }

    method Reject(id: Id) returns (outcome: Outcome)
      requires Valid()
      modifies this
      ensures Valid()
      ensures (State(), outcome) == BridgeState.Reject(old(State()), id)
    {
      if id !in updates {
        return Raised(UnknownUpdate);
      }
      var record := updates[id];
      if record.state.Acknowledged? {
        return Raised(AlreadyAcknowledged);
      }
      updates := updates[id := record.(state := Rejected)];
      outcome := Done;
    }

    method Release(id: Id)
      requires Valid()
      modifies this
      ensures Valid()
      ensures State() == BridgeState.Release(old(State()), id)
    {
      if id !in updates {
        return;
      }
      updates, stored := updates - {id}, stored - {id};
      if activeId == Some(id) {
        activeId := None;
      }
    }
  }
}
