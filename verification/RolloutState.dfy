/** RolloutExecutor over a consumer bridge, as a state machine with a fault possible at every step. */
module RolloutState {
  import opened Options
  import opened BridgeState

  /** The executor's fields and its bridge's bookkeeping. */
  datatype Exec = Exec(core: Core, version: Option<int>, id: Option<Id>, weights: Tensors)

  const IDLE := Exec(START, None, None, map[])

  /** What the environment does during one call: whether the transport attaches, what the tensors hold when
      they are imported and again when they are acknowledged, whether the install adapter succeeds, and
      whether the adapter's and the bridge's release raise. A bridge release that raises has already
      dropped its record. */
  datatype Env = Env(attaches: bool, imported: Tensors, installs: bool, acknowledged: Tensors,
                     adapterReleases: bool, bridgeReleases: bool)

  /** import_update of a consumer bridge: attach an unknown update, then import it. */
  function ImportOrAttach(c: Core, m: Manifest, env: Env): (Core, Outcome) {
    if m.id !in c.updates && !env.attaches then (c, Raised(AttachFailed))
    else Import(Attach(c, m), m, env.imported)
  }

  /** The release of one update through the adapter and the bridge: (core, completed). */
  function ReleaseBoth(c: Core, id: Id, env: Env): (Core, bool) {
    if !env.adapterReleases then (c, false) else (Release(c, id), env.bridgeReleases)
  }

  /** The import / install / acknowledge sequence, and whether it went through. */
  function TryActivate(c: Core, m: Manifest, env: Env): (Core, bool) {
    var (imported, o) := ImportOrAttach(c, m, env);
    if o.Raised? || !env.installs then (imported, false)
    else
      var (acked, a) := Acknowledge(imported, m.id, env.acknowledged);
      (acked, a.Done?)
  }

  /** The record an update is checked against: the one held for its id, or its own. */
  function Expected(c: Core, m: Manifest): Manifest { if m.id in c.updates then c.updates[m.id].manifest else m }

  /** The import goes through: the update is held and neither rejected nor released, or the transport attaches
      it; and the manifest, the held record and what the tensors contain agree. */
  predicate Imports(c: Core, m: Manifest, env: Env) {
    && (if m.id in c.updates then !c.updates[m.id].state.Rejected? && !c.updates[m.id].state.Released?
        else env.attaches)
    && ValidManifest(Expected(c, m), m, env.imported)
  }

  /** The whole activation goes through: the install succeeds too, and the tensors still hold what the record
      says when the update is acknowledged. */
  predicate Switches(x: Exec, m: Manifest, env: Env) {
    && Imports(x.core, m, env) && env.installs
    && Expected(x.core, m).supported && env.acknowledged == Expected(x.core, m).tensors
  }

  lemma SwitchesIff(x: Exec, m: Manifest, env: Env)
    ensures TryActivate(x.core, m, env).1 <==> Switches(x, m, env)
  {
  }

  /** update_weights: (state, whether it returned normally). */
  function UpdateWeights(x: Exec, m: Manifest, env: Env): (Exec, bool) {
    var (core, ok) := TryActivate(x.core, m, env);
    if !ok then (x.(core := Reject(core, m.id).0), false)
    else
      var y := Exec(core, Some(m.version), Some(m.id), env.imported);
      if x.id.None? || x.id == Some(m.id) then (y, true)
      else
        var (released, completed) := ReleaseBoth(core, x.id.value, env);
        (y.(core := released), completed)
  }

  /** release_weights */
  function ReleaseWeights(x: Exec, env: Env): (Exec, bool) {
    if x.id.None? then (x, true)
    else
      var (core, completed) := ReleaseBoth(x.core, x.id.value, env);
      (if completed then x.(core := core, weights := map[], id := None) else x.(core := core), completed)
  }

  /** release_weight_update */
  function ReleaseUpdate(x: Exec, id: Id, env: Env): (Exec, bool) {
    var (core, completed) := ReleaseBoth(x.core, id, env);
    if completed && x.id == Some(id) then (x.(core := core, weights := map[], id := None), true)
    else (x.(core := core), completed)
  }

  // ----- what every call keeps -------------------------------------------------------------------

  /** A held record is the active one, acknowledged, or it is rejected. */
  predicate Settled(x: Exec, id: Id)
    requires id in x.core.updates
  {
    if x.core.activeId == Some(id) then x.core.updates[id].state.Acknowledged?
    else x.core.updates[id].state.Rejected?
  }

  /** Executor and bridge agree on the active update; every held record is the acknowledged active one or
      rejected; the weights are those of the active update, or none. */
  predicate ExecInv(x: Exec) {
    && Inv(x.core)
    && x.id == x.core.activeId && x.version == x.core.activeVersion
    && (forall id | id in x.core.updates :: Settled(x, id))
    && (x.id.Some? ==> x.weights == x.core.updates[x.id.value].manifest.tensors)
    && (x.id.None? ==> x.weights == map[])
  }

  /** The bookkeeping while an update is not activated: the active pair is as before, every other record is
      untouched, and the update's own record is acknowledged only if it was the active one already. */
  predicate Pending(x: Exec, m: Manifest, core: Core)
    requires ExecInv(x)
  {
    && Inv(core) && SameActive(core, x.core)
    && core.updates.Keys <= x.core.updates.Keys + {m.id}
    && (forall id | id in core.updates && id != m.id :: core.updates[id] == x.core.updates[id])
    && (m.id in x.core.updates ==> m.id in core.updates)
    && (m.id in core.updates ==>
          if x.core.activeId == Some(m.id) then
            core.updates[m.id].state.Acknowledged? && core.updates[m.id].manifest == x.core.updates[m.id].manifest
          else !core.updates[m.id].state.Acknowledged?)
  }

  lemma ImportKeepsPending(x: Exec, m: Manifest, env: Env)
    requires ExecInv(x)
    ensures var (core, o) := ImportOrAttach(x.core, m, env);
            && Pending(x, m, core)
            && (o.Done? ==>
                  && m.id in core.updates && core.updates[m.id].manifest.version == m.version
                  && core.updates[m.id].manifest.tensors == env.imported)
  {
    var c := Attach(x.core, m);
    StepKeepsInv(x.core, DoAttach(m));
    StepKeepsInv(c, DoImport(m, env.imported));
  }

  lemma TryActivateKeeps(x: Exec, m: Manifest, env: Env)
    requires ExecInv(x)
    ensures var (core, ok) := TryActivate(x.core, m, env);
            if !ok then Pending(x, m, core)
            else
              && Inv(core) && core.updates.Keys <= x.core.updates.Keys + {m.id} && m.id in core.updates
              && (forall id | id in core.updates && id != m.id :: core.updates[id] == x.core.updates[id])
              && core.activeId == Some(m.id) && core.activeVersion == Some(m.version)
              && core.updates[m.id].manifest.version == m.version && core.updates[m.id].manifest.tensors == env.imported
  {
    ImportKeepsPending(x, m, env);
    var (imported, o) := ImportOrAttach(x.core, m, env);
    if o.Done? && env.installs {
      AcknowledgeKeeps(x, m, imported, env.acknowledged);
    }
  }

  /** An acknowledgement of the pending update makes it the active one, or leaves it pending. */
  lemma AcknowledgeKeeps(x: Exec, m: Manifest, core: Core, t: Tensors)
    requires ExecInv(x) && Pending(x, m, core) && m.id in core.updates
    ensures var (acked, a) := Acknowledge(core, m.id, t);
            if a.Raised? then acked == core
            else
              && Inv(acked) && acked.updates.Keys == core.updates.Keys
              && (forall id | id in core.updates && id != m.id :: acked.updates[id] == core.updates[id])
              && acked.updates[m.id].manifest == core.updates[m.id].manifest
              && acked.activeId == Some(m.id) && acked.activeVersion == Some(core.updates[m.id].manifest.version)
  {
    StepKeepsInv(core, DoAcknowledge(m.id, t));
  }

  /** Rejecting what is pending settles it. */
  lemma RejectSettles(x: Exec, m: Manifest, core: Core)
    requires ExecInv(x) && Pending(x, m, core)
    ensures ExecInv(x.(core := Reject(core, m.id).0)) && SameActive(Reject(core, m.id).0, x.core)
    ensures m.id in Reject(core, m.id).0.updates && x.id != Some(m.id) ==>
              Reject(core, m.id).0.updates[m.id].state.Rejected?
  {
    StepKeepsInv(core, DoReject(m.id));
    var y := x.(core := Reject(core, m.id).0);
    forall id | id in y.core.updates
      ensures Settled(y, id)
    {
      if id != m.id {
        assert Settled(x, id);
      }
    }
  }

  /** An update that fails in import, install or acknowledge leaves the active version, the active id and
      the weights untouched, in the executor and in the bridge. */
  lemma FailedUpdateKeepsActive(x: Exec, m: Manifest, env: Env)
    requires ExecInv(x) && !Switches(x, m, env)
    ensures var (y, ok) := UpdateWeights(x, m, env);
            && !ok && ExecInv(y) && SameActive(y.core, x.core)
            && y.version == x.version && y.id == x.id && y.weights == x.weights
            && (m.id in y.core.updates && x.id != Some(m.id) ==> y.core.updates[m.id].state.Rejected?)
  {
    SwitchesIff(x, m, env);
    TryActivateKeeps(x, m, env);
    RejectSettles(x, m, TryActivate(x.core, m, env).0);
  }

  /** update_weights keeps the invariant in every case but one: the switch succeeded and the adapter then
      failed to release the superseded update, which stays acknowledged. */
  lemma UpdateKeepsIff(x: Exec, m: Manifest, env: Env)
    requires ExecInv(x)
    ensures ExecInv(UpdateWeights(x, m, env).0) <==>
      !(Switches(x, m, env) && x.id.Some? && x.id != Some(m.id) && !env.adapterReleases)
  {
    SwitchesIff(x, m, env);
    TryActivateKeeps(x, m, env);
    var (core, ok) := TryActivate(x.core, m, env);
    if !ok {
      FailedUpdateKeepsActive(x, m, env);
    } else if x.id.Some? && x.id != Some(m.id) {
      var prev := x.id.value;
      StepKeepsInv(core, DoRelease(prev));
      assert Settled(x, prev);
      assert prev in core.updates && core.updates[prev] == x.core.updates[prev];
      if !env.adapterReleases {
        assert !Settled(UpdateWeights(x, m, env).0, prev);
      }
    }
  }

  /** release_weights keeps the invariant unless the bridge raises after dropping the active record: then
      the executor still names an update the bridge has forgotten. */
  lemma ReleaseKeepsIff(x: Exec, env: Env)
    requires ExecInv(x)
    ensures ExecInv(ReleaseWeights(x, env).0) <==> !(x.id.Some? && env.adapterReleases && !env.bridgeReleases)
  {
    if x.id.Some? {
      StepKeepsInv(x.core, DoRelease(x.id.value));
    }
  }

  lemma ReleaseUpdateKeepsIff(x: Exec, id: Id, env: Env)
    requires ExecInv(x)
    ensures ExecInv(ReleaseUpdate(x, id, env).0) <==> !(x.id == Some(id) && env.adapterReleases && !env.bridgeReleases)
  {
    StepKeepsInv(x.core, DoRelease(id));
  }

  // ----- runs ------------------------------------------------------------------------------------

  datatype Command = Update(m: Manifest) | ReleaseActive | ReleaseOne(id: Id)

  function StepExec(x: Exec, cmd: Command, env: Env): Exec {
    match cmd
    case Update(m) => UpdateWeights(x, m, env).0
    case ReleaseActive => ReleaseWeights(x, env).0
    case ReleaseOne(id) => ReleaseUpdate(x, id, env).0
  }

  function RunExec(x: Exec, script: seq<(Command, Env)>): Exec
    decreases |script|
  {
    if |script| == 0 then x else RunExec(StepExec(x, script[0].0, script[0].1), script[1..])
  }

  /** The call neither fails to release the update it supersedes, nor lets the bridge forget the active update
      and then raise. */
  predicate Safe(x: Exec, cmd: Command, env: Env) {
    match cmd
    case Update(m) => !(Switches(x, m, env) && x.id.Some? && x.id != Some(m.id) && !env.adapterReleases)
    case ReleaseActive => !(x.id.Some? && env.adapterReleases && !env.bridgeReleases)
    case ReleaseOne(id) => !(x.id == Some(id) && env.adapterReleases && !env.bridgeReleases)
  }

  lemma StepKeepsIff(x: Exec, cmd: Command, env: Env)
    requires ExecInv(x)
    ensures ExecInv(StepExec(x, cmd, env)) <==> Safe(x, cmd, env)
  {
    match cmd {
      case Update(m) => UpdateKeepsIff(x, m, env);
      case ReleaseActive => ReleaseKeepsIff(x, env);
      case ReleaseOne(id) => ReleaseUpdateKeepsIff(x, id, env);
    }
  }

  /** Every state of the run keeps the invariant. */
  predicate KeptThroughout(x: Exec, script: seq<(Command, Env)>)
    decreases |script|
  {
    ExecInv(x) && (|script| > 0 ==> KeptThroughout(StepExec(x, script[0].0, script[0].1), script[1..]))
  }

  /** Every call of the run is safe in the state it meets. */
  predicate SafeThroughout(x: Exec, script: seq<(Command, Env)>)
    decreases |script|
  {
    |script| > 0 ==>
      && Safe(x, script[0].0, script[0].1)
      && SafeThroughout(StepExec(x, script[0].0, script[0].1), script[1..])
  }

  /** The executor and its bridge agree throughout a run if and only if every call of the run is safe. */
  lemma {:induction false} RunKeepsIff(x: Exec, script: seq<(Command, Env)>)
    requires ExecInv(x)
    ensures KeptThroughout(x, script) <==> SafeThroughout(x, script)
    decreases |script|
  {
    if |script| > 0 {
      var y := StepExec(x, script[0].0, script[0].1);
      StepKeepsIff(x, script[0].0, script[0].1);
      if ExecInv(y) {
        RunKeepsIff(y, script[1..]);
      }
    }
  }

  /** Release steps do not raise; everything else may. */
  predicate ReleasesComplete(script: seq<(Command, Env)>) {
    forall k | 0 <= k < |script| :: script[k].1.adapterReleases && script[k].1.bridgeReleases
  }

  /** Over every run whose release steps complete, with failures anywhere else, the executor and its bridge
      agree on the active update and hold nothing but it and rejected updates. */
  lemma {:induction false} EveryRunKeepsExec(x: Exec, script: seq<(Command, Env)>)
    requires ExecInv(x) && ReleasesComplete(script)
    ensures ExecInv(RunExec(x, script))
    decreases |script|
  {
    if |script| > 0 {
      var (cmd, env) := script[0];
      assert env.adapterReleases && env.bridgeReleases;
      StepKeepsIff(x, cmd, env);
      forall k | 0 <= k < |script[1..]| ensures script[1..][k].1.adapterReleases && script[1..][k].1.bridgeReleases {
        assert script[1..][k] == script[k + 1];
      }
      EveryRunKeepsExec(StepExec(x, cmd, env), script[1..]);
    }
  }

  /** The version is not monotone: an older update may be acknowledged after a newer one. */
  lemma OlderUpdateMayActivateLater(x: Exec, m: Manifest, env: Env)
    requires ExecInv(x) && m.supported && m.id !in x.core.updates && env.attaches && env.installs
    requires env.imported == m.tensors && env.acknowledged == m.tensors && env.adapterReleases && env.bridgeReleases
    ensures var (y, ok) := UpdateWeights(x, m, env);
            ok && y.version == Some(m.version) && y.id == Some(m.id) && y.weights == m.tensors
            && (x.id.Some? ==> x.id.value !in y.core.updates)
  {
    UpdateKeepsIff(x, m, env);
  }

  // ----- runs that break the agreement -----------------------------------------------------------

  /** An environment in which everything succeeds for tensors `t`, except the two releases as given. */
  function Smooth(t: Tensors, adapterReleases: bool, bridgeReleases: bool): Env {
    Env(true, t, true, t, adapterReleases, bridgeReleases)
  }

  function Plain(id: Id, t: Tensors): Manifest { Manifest(id, id, "shared-memory", true, t) }

  /** From the idle state, the first update is active. */
  lemma FirstUpdate(t: Tensors)
    ensures var x := StepExec(IDLE, Update(Plain(0, t)), Smooth(t, true, true));
            ExecInv(x) && x.id == Some(0) && x.core.updates.Keys == {0}
  {
    UpdateKeepsIff(IDLE, Plain(0, t), Smooth(t, true, true));
  }

  /** A second update whose adapter cannot release the first leaves the first one acknowledged beside it. */
  lemma SupersededStays(t: Tensors)
    ensures !ExecInv(RunExec(IDLE, [(Update(Plain(0, t)), Smooth(t, true, true)),
                                    (Update(Plain(1, t)), Smooth(t, false, true))]))
  {
    FirstUpdate(t);
    var x := StepExec(IDLE, Update(Plain(0, t)), Smooth(t, true, true));
    UpdateKeepsIff(x, Plain(1, t), Smooth(t, false, true));
    TwoSteps(IDLE, (Update(Plain(0, t)), Smooth(t, true, true)), (Update(Plain(1, t)), Smooth(t, false, true)));
  }

  /** A release whose bridge raises leaves the executor naming an update that the bridge no longer holds. */
  lemma ForgottenUpdate(t: Tensors)
    ensures !ExecInv(RunExec(IDLE, [(Update(Plain(0, t)), Smooth(t, true, true)),
                                    (ReleaseActive, Smooth(t, true, false))]))
    ensures !ExecInv(RunExec(IDLE, [(Update(Plain(0, t)), Smooth(t, true, true)),
                                    (ReleaseOne(0), Smooth(t, true, false))]))
  {
    FirstUpdate(t);
    var first := (Update(Plain(0, t)), Smooth(t, true, true));
    var x := StepExec(IDLE, first.0, first.1);
    ReleaseKeepsIff(x, Smooth(t, true, false));
    ReleaseUpdateKeepsIff(x, 0, Smooth(t, true, false));
    TwoSteps(IDLE, first, (ReleaseActive, Smooth(t, true, false)));
    TwoSteps(IDLE, first, (ReleaseOne(0), Smooth(t, true, false)));
  }

  lemma TwoSteps(x: Exec, a: (Command, Env), b: (Command, Env))
    ensures RunExec(x, [a, b]) == StepExec(StepExec(x, a.0, a.1), b.0, b.1)
  {
    var y := StepExec(x, a.0, a.1);
    assert [a, b][1..] == [b] && [b][1..] == [];
    assert RunExec(y, [b]) == RunExec(StepExec(y, b.0, b.1), []);
  }
}
