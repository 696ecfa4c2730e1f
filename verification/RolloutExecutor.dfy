/** The rollout executor class and the consumer bridge it drives. */
module RolloutExecutor {
  import opened Options
  import opened BridgeState
  import opened RolloutState

  /** A bridge that only consumes: attach is the transport's affair and may fail. */
  class ConsumerBridge {
    var updates: map<Id, Record>
    var activeVersion: Option<int>
    var activeId: Option<Id>

    constructor ()
      ensures State() == START
    {
      updates, activeVersion, activeId := map[], None, None;
    }

    /** A consumer publishes nothing, so its latest published version stays at its start value. */
    ghost function State(): Core
      reads this
    {
      Core(updates, START.latest, activeVersion, activeId)
    }

    /** The lifecycle invariant of the bookkeeping. */
    ghost predicate Valid()
      reads this
    {
      Inv(State())
    }

    method ImportUpdate(m: Manifest, attaches: bool, contents: Tensors) returns (outcome: Outcome)
      modifies this
      ensures old(Valid()) ==> Valid()
      ensures State() == (if m.id in old(updates) || attaches then Import(Attach(old(State()), m), m, contents).0
          else old(State()))
      ensures outcome == (if m.id in old(updates) || attaches then Import(Attach(old(State()), m), m, contents).1
          else Raised(AttachFailed))
    {
      if m.id !in updates {
        if !attaches {
          return Raised(AttachFailed);
        }
        updates := updates[m.id := Record(m, Published, 0)];
      }
      var record := updates[m.id];
      if record.state.Rejected? {
        return Raised(UpdateRejected);
      }
      if record.state.Released? {
        return Raised(UpdateReleased);
      }
      if !ValidManifest(record.manifest, m, contents) {
        return Raised(InvalidManifest);
      }
      updates := updates[m.id := Record(record.manifest,
        if record.state.Published? then Imported else record.state, record.importCount + 1)];
      outcome := Done;
    }

    method Acknowledge(id: Id, contents: Tensors) returns (outcome: Outcome)
      modifies this
      ensures old(Valid()) ==> Valid()
      ensures (State(), outcome) == BridgeState.Acknowledge(old(State()), id, contents)
    {
      if id !in updates {
        return Raised(UnknownUpdate);
      }
      var record := updates[id];
      if record.state.Rejected? {
        return Raised(UpdateRejected);
      }
      if record.state.Released? {
        return Raised(UpdateReleased);
      }
      if record.importCount == 0 {
        return Raised(NotImported);
      }
      if !ValidManifest(record.manifest, record.manifest, contents) {
        return Raised(InvalidManifest);
      }
      updates := updates[id := record.(state := Acknowledged)];
      activeVersion, activeId := Some(record.manifest.version), Some(id);
      outcome := Done;
    }

    method Reject(id: Id) returns (outcome: Outcome)
      modifies this
      ensures old(Valid()) ==> Valid()
      ensures (State(), outcome) == BridgeState.Reject(old(State()), id)
    {
      if id !in updates {
        return Raised(UnknownUpdate);
      }
      if updates[id].state.Acknowledged? {
        return Raised(AlreadyAcknowledged);
      }
      updates := updates[id := updates[id].(state := Rejected)];
      outcome := Done;
    }

    /** Drops the record first; closing its resources may then raise. */
    method Release(id: Id, completes: bool) returns (completed: bool)
      modifies this
      ensures old(Valid()) ==> Valid()
      ensures State() == BridgeState.Release(old(State()), id) && completed == completes
    {
      if id in updates {
        updates := updates - {id};
        if activeId == Some(id) {
          activeId := None;
        }
      }
      completed := completes;
    }
  }

  class RolloutExecutor {
    const bridge: ConsumerBridge
    var sharedWeights: Tensors
    var activeWeightVersion: Option<int>
    var activeWeightUpdateId: Option<Id>

    constructor (bridge: ConsumerBridge)
      requires bridge.State() == START
      ensures this.bridge == bridge && State() == IDLE
    {
      this.bridge := bridge;
      sharedWeights := map[];
      activeWeightVersion, activeWeightUpdateId := None, None;
    }

    ghost function State(): Exec
      reads this, bridge
    {
      Exec(bridge.State(), activeWeightVersion, activeWeightUpdateId, sharedWeights)
    }

    /** Executor and bridge agree on the active update, and hold nothing but it and rejected updates. */
    ghost predicate Valid()
      reads this, bridge
    {
      ExecInv(State())
    }

    /** The import, install and acknowledgement, and the rejection of an update that fails in one of them. */
    method Activate(m: Manifest, env: Env) returns (ok: bool)
      modifies bridge
      ensures var (core, active) := TryActivate(old(bridge.State()), m, env);
              && ok == active
              && bridge.State() == if active then core else BridgeState.Reject(core, m.id).0
    {
      var outcome := bridge.ImportUpdate(m, env.attaches, env.imported);
      if outcome.Done? {
        outcome := if env.installs then Done else Raised(InvalidManifest);
      }
      if outcome.Done? {
        outcome := bridge.Acknowledge(m.id, env.acknowledged);
      }
      if outcome.Raised? {
        var rejected := bridge.Reject(m.id);
      }
      ok := outcome.Done?;
    }

    /** update_weights: a switch is complete, or leaves the active update and its weights in place. */
    method UpdateWeights(m: Manifest, env: Env) returns (ok: bool)
      modifies this, bridge
      ensures (State(), ok) == RolloutState.UpdateWeights(old(State()), m, env)
      ensures old(Switches(State(), m, env)) ==>
                && activeWeightUpdateId == Some(m.id) && activeWeightVersion == Some(m.version)
                && sharedWeights == env.imported
      ensures !old(Switches(State(), m, env)) ==>
                && !ok && activeWeightUpdateId == old(activeWeightUpdateId)
                && activeWeightVersion == old(activeWeightVersion) && sharedWeights == old(sharedWeights)
      ensures old(Valid()) ==>
                (Valid() <==> !(old(Switches(State(), m, env)) && old(activeWeightUpdateId).Some?
                                && old(activeWeightUpdateId) != Some(m.id) && !env.adapterReleases))
    {
      ghost var before := State();
      SwitchesIff(before, m, env);
      if ExecInv(before) {
        UpdateKeepsIff(before, m, env);
      }
      var previous := activeWeightUpdateId;
      var active := Activate(m, env);
      if !active {
        return false;
      }
      sharedWeights := env.imported;
      activeWeightVersion := Some(m.version);
      activeWeightUpdateId := Some(m.id);
      ok := true;
      if previous.Some? && previous.value != m.id {
        ok := ReleaseWeightUpdate(previous.value, env);
      }
    }

    /** release_weights: no update is active afterwards, unless a release raises. */
    method ReleaseWeights(env: Env) returns (ok: bool)
      modifies this, bridge
      ensures (State(), ok) == RolloutState.ReleaseWeights(old(State()), env)
      ensures ok ==> activeWeightUpdateId.None?
      ensures old(Valid()) ==>
                (Valid() <==> !(old(activeWeightUpdateId).Some? && env.adapterReleases && !env.bridgeReleases))
      ensures old(Valid()) && ok ==> sharedWeights == map[]
    {
      if Valid() {
        ReleaseKeepsIff(State(), env);
      }
      if activeWeightUpdateId.None? {
        return true;
      }
      if !env.adapterReleases {
        return false;
      }
      var completed := bridge.Release(activeWeightUpdateId.value, env.bridgeReleases);
      if !completed {
        return false;
      }
      sharedWeights := map[];
      activeWeightUpdateId := None;
      ok := true;
    }

    method ReleaseWeightUpdate(id: Id, env: Env) returns (ok: bool)
      modifies this, bridge
      ensures (State(), ok) == ReleaseUpdate(old(State()), id, env)
      ensures ok ==> activeWeightUpdateId != Some(id)
      ensures old(Valid()) ==>
                (Valid() <==> !(old(activeWeightUpdateId) == Some(id) && env.adapterReleases && !env.bridgeReleases))
    {
      if Valid() {
        ReleaseUpdateKeepsIff(State(), id, env);
      }
      if !env.adapterReleases {
        return false;
      }
      var completed := bridge.Release(id, env.bridgeReleases);
      if !completed {
        return false;
      }
      if activeWeightUpdateId == Some(id) {
        sharedWeights := map[];
        activeWeightUpdateId := None;
      }
      ok := true;
    }
  }
}
