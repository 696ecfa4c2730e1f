/** The worker and adapter classes that rebind parameters in place, against their state functions. */
module ExternalStorageAdapter {
  import opened Options
  import opened BridgeState
  import opened ParameterRebinding

  /** A worker's model: its parameters' data, and the attributes an install leaves on it. */
  class WorkerModel {
    var params: Named
    var bound: Option<Bound>

    constructor (params: Named)
      ensures State() == Worker(params, None)
    {
      this.params, bound := params, None;
    }

    ghost function State(): Worker
      reads this
    {
      Worker(params, bound)
    }

    /** Puts originals back under the given names. */
    method Restore(names: set<Name>, originals: Named)
      modifies this`params
      ensures params == Restored(old(params), names, originals)
    {
      var rest := names;
      while rest != {}
        invariant rest <= names && params == Restored(old(params), names - rest, originals)
        decreases |rest|
      {
        var name :| name in rest;
        if name in params && name in originals {
          params := params[name := originals[name]];
        }
        rest := rest - {name};
      }
    }

    /** The install function: None when it raises. */
    method Install(c: InstallCall) returns (rebound: Option<set<Name>>)
      modifies this
      ensures (State(), rebound) == InstallOnWorker(old(State()), c)
    {
      if c.imported.None? {
        return None;
      }
      var imported := c.imported.value;
      var originals := if bound.Some? then bound.value.originals else map[];
      var names, ok, k := {}, true, 0;
      while ok && k < |imported|
        invariant 0 <= k <= |imported| && bound == old(bound)
        invariant Attempt(params, originals, names, ok) == Rebind(Start(old(State())), imported[..k])
      {
        var (name, tensor) := imported[k];
        assert imported[..k + 1][..k] == imported[..k];
        if name in params {
          if !Fits(params[name], tensor) {
            ok := false;
          } else {
            originals := SetDefault(originals, name, params[name]);
            params := params[name := tensor];
            names := names + {name};
          }
        }
        k := k + 1;
      }
      FailureStops(Start(old(State())), imported, k);
      assert imported[..|imported|] == imported;
      if ok && c.acknowledges {
        bound := Some(Bound(c.id, AsMap(imported), originals));
        rebound := Some(names);
      } else {
        Restore(names, originals);
        bound := None;
        rebound := None;
      }
    }

    /** release_worker */
    method Release(id: Id, bridgeReleases: bool)
      modifies this
      ensures State() == ReleaseOnWorker(old(State()), id, bridgeReleases)
    {
      if bound.None? || bound.value.id != id {
        return;
      }
      var originals := bound.value.originals;
      Restore(originals.Keys, originals);
      bound := if bridgeReleases then None else Some(Bound(id, map[], originals));
    }
  }

  /** Once a tensor does not fit, the remaining ones are never reached. */
  lemma {:induction false} FailureStops(a: Attempt, imported: seq<(Name, Storage)>, k: nat)
    requires k <= |imported| && (k < |imported| ==> !Rebind(a, imported[..k]).ok)
    ensures Rebind(a, imported) == Rebind(a, imported[..k])
    decreases |imported| - k
  {
    if k < |imported| {
      assert imported[..k + 1][..k] == imported[..k];
      FailureStops(a, imported, k + 1);
    } else {
      assert imported[..k] == imported;
    }
  }

  class ExternalStorageAdapter {
    const worker: WorkerModel
    const requireAllParameters: bool
    var activeUpdateId: Option<Id>
    var activeWeightVersion: Option<int>
    /** The model's own storage. */
    ghost const base: Named

    constructor (worker: WorkerModel, requireAllParameters: bool)
      ensures this.worker == worker && this.requireAllParameters == requireAllParameters && base == worker.params
      ensures activeUpdateId.None? && activeWeightVersion.None?
      ensures worker.bound.None? ==> Valid()
    {
      this.worker, this.requireAllParameters, base := worker, requireAllParameters, worker.params;
      activeUpdateId, activeWeightVersion := None, None;
    }

    ghost function State(): Adapter
      reads this, worker
    {
      Adapter(worker.State(), activeUpdateId, activeWeightVersion)
    }

    /** Every parameter is the model's own storage or the active update's alias. */
    ghost predicate Valid()
      reads this, worker
    {
      ParameterRebinding.Inv(base, State())
    }

    /** install: a new update binds exactly the parameters it names, or the call raises with every parameter on
        the model's own storage, or with nothing changed when the manifest is refused. */
    method Install(c: InstallCall) returns (ok: bool)
      modifies this, worker
      ensures (State(), ok) == ParameterRebinding.Install(old(State()), c, requireAllParameters)
      ensures old(Valid()) && old(activeUpdateId) != Some(c.id) ==>
                Transactional(base, old(State()), c, State(), ok)
    {
      ghost var before := State();
      if Valid() && before.activeId != Some(c.id) {
        InstallKeeps(base, before, c, requireAllParameters);
      }
      if !c.accepted {
        return false;
      }
      if activeUpdateId.Some? && activeUpdateId != Some(c.id) {
        Release(activeUpdateId.value, c.previousReleases);
      }
      var rebound := worker.Install(c);
      if rebound.None? {
        return false;
      }
      if requireAllParameters && Incomplete(c, rebound.value) {
        Release(c.id, c.incompleteReleases);
        return false;
      }
      activeWeightVersion, activeUpdateId := Some(c.version), Some(c.id);
      ok := true;
    }

    /** release: the active update gives every parameter its own storage back. */
    method Release(id: Id, bridgeReleases: bool)
      modifies this, worker
      ensures State() == ParameterRebinding.Release(old(State()), id, bridgeReleases)
      ensures activeUpdateId != Some(id)
      ensures old(Valid()) ==> Valid() && (old(activeUpdateId) == Some(id) ==> worker.params == base)
      ensures old(Valid()) && old(activeUpdateId) != Some(id) ==>
                activeUpdateId == old(activeUpdateId) && worker.params == old(worker.params)
    {
      if Valid() {
        ReleaseKeeps(base, State(), id, bridgeReleases);
      }
      worker.Release(id, bridgeReleases);
      if activeUpdateId == Some(id) {
        activeUpdateId := None;
      }
    }
  }
}
