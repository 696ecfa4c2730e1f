/** The rollout executor with the external-storage adapter as its install adapter: when the worker's
    parameters are those of the update that the executor reports as active. */
module WorkerWeights {
  import opened Options
  import BridgeState
  import RolloutState
  import opened ParameterRebinding

  type Manifest = BridgeState.Manifest
  type Import = seq<(string, Storage)>
  type Tensors = BridgeState.Tensors

  const CUDA_VMM := "cuda-vmm"

  /** The executor, its bridge's bookkeeping, and the adapter with the worker it installs on. */
  datatype Rollout = Rollout(exec: RolloutState.Exec, adapter: Adapter)

  /** What happens around one call: on the executor's bridge as in RolloutState, and on the worker's. The
      adapter's own release logs an exception and returns. */
  datatype Surroundings = Surroundings(attaches: bool, imported: Tensors, acknowledged: Tensors,
                                       bridgeReleases: bool, workerImport: Option<Import>,
                                       workerAcknowledges: bool, workerReleases: bool)

  function CallOf(m: Manifest, e: Surroundings): InstallCall {
    InstallCall(m.id, m.version, m.supported && m.transport == CUDA_VMM, e.workerImport, e.workerAcknowledges,
                e.workerReleases, e.workerReleases)
  }

  function EnvOf(e: Surroundings, installs: bool): RolloutState.Env {
    RolloutState.Env(e.attaches, e.imported, installs, e.acknowledged, true, e.bridgeReleases)
  }

  /** update_weights: the adapter is reached when the import succeeds, and releases the superseded update once
      more when the switch is complete. */
  function Updated(j: Rollout, m: Manifest, e: Surroundings, requireAll: bool): Rollout {
    var (installed, ok) := Install(j.adapter, CallOf(m, e), requireAll);
    var env := EnvOf(e, ok);
    var exec := RolloutState.UpdateWeights(j.exec, m, env).0;
    if !RolloutState.Imports(j.exec.core, m, env) then Rollout(exec, j.adapter)
    else if RolloutState.Switches(j.exec, m, env) && j.exec.id.Some? && j.exec.id != Some(m.id) then
      Rollout(exec, Release(installed, j.exec.id.value, e.workerReleases))
    else Rollout(exec, installed)
  }

  function StepRollout(j: Rollout, cmd: RolloutState.Command, e: Surroundings, requireAll: bool): Rollout {
    match cmd
    case Update(m) => Updated(j, m, e, requireAll)
    case ReleaseActive =>
      Rollout(RolloutState.ReleaseWeights(j.exec, EnvOf(e, true)).0,
              if j.exec.id.Some? then Release(j.adapter, j.exec.id.value, e.workerReleases) else j.adapter)
    case ReleaseOne(id) =>
      Rollout(RolloutState.ReleaseUpdate(j.exec, id, EnvOf(e, true)).0, Release(j.adapter, id, e.workerReleases))
  }

  /** The adapter's bindings are sound and are those of the executor's active update: every parameter the
      update names is its alias, and every other one, or every one when none is active, is the model's own. */
  predicate Agrees(base: Named, j: Rollout) {
    Inv(base, j.adapter) && j.adapter.activeId == j.exec.id
  }

  lemma AgreesMeaning(base: Named, j: Rollout)
    requires Agrees(base, j)
    ensures j.exec.id.None? ==> j.adapter.worker.params == base
    ensures j.exec.id.Some? ==>
              && j.adapter.worker.bound.Some? && j.adapter.worker.bound.value.id == j.exec.id.value
              && forall n | n in base ::
                   j.adapter.worker.params[n] == Expected(base, j.adapter.worker.bound.value.tensors, n)
  {
  }

  /** Only a manifest of the CUDA VMM transport with a supported layout touches the worker in an update that
      switches nothing. */
  lemma OtherTransportsAreRefused(j: Rollout, m: Manifest, e: Surroundings, requireAll: bool)
    requires m.transport != "cuda-vmm" || !m.supported
    ensures Updated(j, m, e, requireAll).adapter == j.adapter
    ensures !Install(j.adapter, CallOf(m, e), requireAll).1
  {
  }

  // ----- one call --------------------------------------------------------------------------------

  /** The worker's import binds, and with requireAll names nothing the model lacks. */
  predicate Binds(params: Named, c: InstallCall, requireAll: bool) {
    Takes(params, c) && !(requireAll && NamesMore(params, c))
  }

  /** What update_weights needs to keep the worker on the executor's active update. Another update: a complete
      switch, or a failure before the previous update was released, or nothing to lose. The active update
      again: no failure after the worker's import, and an import that covers every bound parameter. */
  predicate UpdateSafe(base: Named, j: Rollout, m: Manifest, e: Surroundings, requireAll: bool) {
    var c, held := CallOf(m, e), RolloutState.Expected(j.exec.core, m);
    if !RolloutState.Imports(j.exec.core, m, EnvOf(e, true)) || !c.accepted then true
    else if j.exec.id == Some(m.id) then
      var params := j.adapter.worker.params;
      c.imported.None? || (Binds(params, c, requireAll) && CoversBound(base, params, c))
    else if Binds(base, c, requireAll) then held.supported && e.acknowledged == held.tensors
    else j.exec.id.None?
  }

  predicate Safe(base: Named, j: Rollout, cmd: RolloutState.Command, e: Surroundings, requireAll: bool) {
    match cmd
    case Update(m) => UpdateSafe(base, j, m, e, requireAll)
    case ReleaseActive => j.exec.id.Some? ==> e.bridgeReleases
    case ReleaseOne(id) => j.exec.id == Some(id) ==> e.bridgeReleases
  }

  /** An install of another update, from agreement: what the adapter holds afterwards. */
  lemma InstallAnother(base: Named, s: Adapter, c: InstallCall, requireAll: bool)
    requires Inv(base, s) && s.activeId != Some(c.id) && c.accepted
    ensures var (t, ok) := Install(s, c, requireAll);
            && Inv(base, t) && (ok <==> Binds(base, c, requireAll))
            && t.activeId == if ok then Some(c.id) else None
  {
    InstallKeeps(base, s, c, requireAll);
    if s.activeId.Some? {
      ReleaseKeeps(base, s, s.activeId.value, c.previousReleases);
    }
    TakesIff(base, ReleasePrevious(s, c).worker, c);
  }

  lemma AnotherUpdateIff(base: Named, j: Rollout, m: Manifest, e: Surroundings, requireAll: bool)
    requires Agrees(base, j) && j.exec.id != Some(m.id)
    ensures Agrees(base, Updated(j, m, e, requireAll)) <==> UpdateSafe(base, j, m, e, requireAll)
  {
    var c := CallOf(m, e);
    var (t, ok) := Install(j.adapter, c, requireAll);
    RolloutState.SwitchesIff(j.exec, m, EnvOf(e, ok));
    if c.accepted {
      InstallAnother(base, j.adapter, c, requireAll);
      if j.exec.id.Some? {
        ReleaseKeeps(base, t, j.exec.id.value, e.workerReleases);
      }
    }
  }

  lemma SameUpdateIff(base: Named, j: Rollout, m: Manifest, e: Surroundings, requireAll: bool)
    requires Agrees(base, j) && j.exec.id == Some(m.id)
    ensures Agrees(base, Updated(j, m, e, requireAll)) <==> UpdateSafe(base, j, m, e, requireAll)
  {
    var c := CallOf(m, e);
    var (t, ok) := Install(j.adapter, c, requireAll);
    RolloutState.SwitchesIff(j.exec, m, EnvOf(e, ok));
    TakesIff(base, j.adapter.worker, c);
    ReinstallKeepsIff(base, j.adapter, c, requireAll);
  }

  /** Every call keeps the worker on the executor's active update if and only if it is safe. */
  lemma StepAgreesIff(base: Named, j: Rollout, cmd: RolloutState.Command, e: Surroundings, requireAll: bool)
    requires Agrees(base, j)
    ensures Agrees(base, StepRollout(j, cmd, e, requireAll)) <==> Safe(base, j, cmd, e, requireAll)
  {
    match cmd
    case Update(m) =>
      if j.exec.id == Some(m.id) {
        SameUpdateIff(base, j, m, e, requireAll);
      } else {
        AnotherUpdateIff(base, j, m, e, requireAll);
      }
    case ReleaseActive =>
      if j.exec.id.Some? {
        ReleaseKeeps(base, j.adapter, j.exec.id.value, e.workerReleases);
      }
    case ReleaseOne(id) =>
      ReleaseKeeps(base, j.adapter, id, e.workerReleases);
  }

  // ----- runs ------------------------------------------------------------------------------------

  type Script = seq<(RolloutState.Command, Surroundings)>

  /** After the first n calls. */
  function After(j: Rollout, script: Script, n: nat, requireAll: bool): Rollout
    requires n <= |script|
  {
    if n == 0 then j
    else StepRollout(After(j, script, n - 1, requireAll), script[n - 1].0, script[n - 1].1, requireAll)
  }

  /** After every one of the first n calls, and before them. */
  predicate AgreesThroughout(base: Named, j: Rollout, script: Script, n: nat, requireAll: bool)
    requires n <= |script|
  {
    && (n > 0 ==> AgreesThroughout(base, j, script, n - 1, requireAll))
    && Agrees(base, After(j, script, n, requireAll))
  }

  /** Every one of the first n calls is safe in the state it meets. */
  predicate SafeThroughout(base: Named, j: Rollout, script: Script, n: nat, requireAll: bool)
    requires n <= |script|
  {
    n > 0 ==>
      && SafeThroughout(base, j, script, n - 1, requireAll)
      && Safe(base, After(j, script, n - 1, requireAll), script[n - 1].0, script[n - 1].1, requireAll)
  }

  /** Throughout a run the worker's parameters are those of the executor's active update if and only if every
      call of the run is safe. */
  lemma {:induction false} RunAgreesIff(base: Named, j: Rollout, script: Script, n: nat, requireAll: bool)
    requires Agrees(base, j) && n <= |script|
    ensures AgreesThroughout(base, j, script, n, requireAll) <==> SafeThroughout(base, j, script, n, requireAll)
    decreases n
  {
    if n > 0 {
      RunAgreesIff(base, j, script, n - 1, requireAll);
      var before := After(j, script, n - 1, requireAll);
      if Agrees(base, before) {
        StepAgreesIff(base, before, script[n - 1].0, script[n - 1].1, requireAll);
      }
    }
  }

  // ----- a run that fails ------------------------------------------------------------------------

  function Vmm(id: nat): Manifest { BridgeState.Manifest(id, id, CUDA_VMM, true, map[]) }

  function Around(imported: Import): Surroundings {
    Surroundings(true, map[], map[], true, Some(imported), true, true)
  }

  function IdleRollout(base: Named): Rollout {
    Rollout(RolloutState.IDLE, Adapter(Worker(base, None), None, None))
  }

  function FirstRollout(own: Storage, alias: Storage): Rollout {
    StepRollout(IdleRollout(map["w" := own]), RolloutState.Update(Vmm(0)), Around([("w", alias)]), false)
  }

  /** A first update binds its alias. */
  lemma FirstBinds(own: Storage, alias: Storage)
    requires Fits(own, alias)
    ensures var first := FirstRollout(own, alias);
            && Agrees(map["w" := own], first) && first.adapter.worker.params["w"] == alias
            && first.exec.id == Some(0) && first.exec.version == Some(0) && first.exec.core.updates.Keys == {0}
  {
    FirstIsActive(own, alias);
    var base, a := map["w" := own], Around([("w", alias)]);
    OneTensor("w", alias);
    InstallAnother(base, IdleRollout(base).adapter, CallOf(Vmm(0), a), false);
    InstallKeeps(base, IdleRollout(base).adapter, CallOf(Vmm(0), a), false);
    StepAgreesIff(base, IdleRollout(base), RolloutState.Update(Vmm(0)), a, false);
    AgreesMeaning(base, FirstRollout(own, alias));
  }

  lemma FirstIsActive(own: Storage, alias: Storage)
    requires Fits(own, alias)
    ensures var x := FirstRollout(own, alias).exec;
            x.id == Some(0) && x.version == Some(0) && x.core.updates.Keys == {0}
  {
    var base, a := map["w" := own], Around([("w", alias)]);
    InstallAnother(base, IdleRollout(base).adapter, CallOf(Vmm(0), a), false);
    RolloutState.SwitchesIff(RolloutState.IDLE, Vmm(0), EnvOf(a, true));
  }

  /** A second update whose tensor does not fit: the adapter has released the first one, so the worker is back
      on its own storage, while the executor still reports version 0 of update 0 as active. */
  lemma FailedInstallLosesWorker(own: Storage, alias: Storage, other: Storage)
    requires Fits(own, alias) && !Fits(own, other)
    ensures var base, first := map["w" := own], FirstRollout(own, alias);
            var second := StepRollout(first, RolloutState.Update(Vmm(1)), Around([("w", other)]), false);
            && second.exec.id == Some(0) && second.exec.version == Some(0)
            && second.adapter.worker.params == base && !Agrees(base, second)
  {
    FirstBinds(own, alias);
    var base, first, b := map["w" := own], FirstRollout(own, alias), Around([("w", other)]);
    assert !AllFit(base, [("w", other)]) by {
      assert [("w", other)][0].0 in base;
    }
    InstallAnother(base, first.adapter, CallOf(Vmm(1), b), false);
    InstallKeeps(base, first.adapter, CallOf(Vmm(1), b), false);
    StepAgreesIff(base, first, RolloutState.Update(Vmm(1)), b, false);
  }
}
