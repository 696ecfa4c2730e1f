/** The external-storage adapter: rebinding a worker's parameters to imported aliases, and rolling back. */
module ParameterRebinding {
  import opened Options
  import opened BridgeState

  datatype Storage = Storage(place: int, shape: seq<nat>, dtype: string)

  type Named = map<Name, Storage>

  /** The attributes an install leaves on the model; they are set together and deleted together. */
  datatype Bound = Bound(id: Id, tensors: Named, originals: Named)

  datatype Worker = Worker(params: Named, bound: Option<Bound>)

  datatype Adapter = Adapter(worker: Worker, activeId: Option<Id>, activeVersion: Option<int>)

  /** One install call: its manifest, and what goes wrong on the way. `imported` is None when import_update
      raises; the release flags say whether the worker bridge's release returns. */
  datatype InstallCall = InstallCall(id: Id, version: int, accepted: bool, imported: Option<seq<(Name, Storage)>>,
                       acknowledges: bool, previousReleases: bool, incompleteReleases: bool)

  function AsMap(imported: seq<(Name, Storage)>): Named {
    if |imported| == 0 then map[]
    else
      var (name, tensor) := imported[|imported| - 1];
      AsMap(imported[..|imported| - 1])[name := tensor]
  }

  predicate Fits(parameter: Storage, tensor: Storage) {
    parameter.shape == tensor.shape && parameter.dtype == tensor.dtype
  }

  // ----- the worker ------------------------------------------------------------------------------

  datatype Attempt = Attempt(params: Named, originals: Named, rebound: set<Name>, ok: bool)

  function BindOne(a: Attempt, name: Name, tensor: Storage): Attempt {
    if !a.ok || name !in a.params then a
    else if !Fits(a.params[name], tensor) then a.(ok := false)
    else Attempt(a.params[name := tensor], SetDefault(a.originals, name, a.params[name]), a.rebound + {name}, true)
  }

  function SetDefault(m: Named, name: Name, s: Storage): Named { if name in m then m else m[name := s] }

  function Rebind(a: Attempt, imported: seq<(Name, Storage)>): Attempt {
    if |imported| == 0 then a
    else
      var (name, tensor) := imported[|imported| - 1];
      BindOne(Rebind(a, imported[..|imported| - 1]), name, tensor)
  }

  function Restored(params: Named, names: set<Name>, originals: Named): Named {
    map n | n in params :: if n in names && n in originals then originals[n] else params[n]
  }

  function Start(w: Worker): Attempt {
    Attempt(w.params, if w.bound.Some? then w.bound.value.originals else map[], {}, true)
  }

  /** The install function run on the worker: the new worker and the names it rebound, None if it raised. */
  function InstallOnWorker(w: Worker, c: InstallCall): (Worker, Option<set<Name>>) {
    if c.imported.None? then (w, None)
    else
      var a := Rebind(Start(w), c.imported.value);
      if a.ok && c.acknowledges then
        (Worker(a.params, Some(Bound(c.id, AsMap(c.imported.value), a.originals))), Some(a.rebound))
      else (Worker(Restored(a.params, a.rebound, a.originals), None), None)
  }

  /** release_worker: a release that raises in the bridge has restored the parameters and emptied the
      tensors, but leaves the attributes. */
  function ReleaseOnWorker(w: Worker, id: Id, bridgeReleases: bool): Worker {
    if w.bound.None? || w.bound.value.id != id then w
    else
      var b := w.bound.value;
      Worker(Restored(w.params, b.originals.Keys, b.originals),
             if bridgeReleases then None else Some(Bound(id, map[], b.originals)))
  }

  // ----- the adapter -----------------------------------------------------------------------------

  function Release(s: Adapter, id: Id, bridgeReleases: bool): Adapter {
    Adapter(ReleaseOnWorker(s.worker, id, bridgeReleases),
            if s.activeId == Some(id) then None else s.activeId, s.activeVersion)
  }

  function ReleasePrevious(s: Adapter, c: InstallCall): Adapter {
    if s.activeId.Some? && s.activeId != Some(c.id) then Release(s, s.activeId.value, c.previousReleases) else s
  }

  predicate Incomplete(c: InstallCall, rebound: set<Name>)
    requires c.imported.Some?
  {
    !(AsMap(c.imported.value).Keys <= rebound)
  }

  function Install(s: Adapter, c: InstallCall, requireAll: bool): (Adapter, bool) {
    if !c.accepted then (s, false)
    else
      var t := ReleasePrevious(s, c);
      var (w, rebound) := InstallOnWorker(t.worker, c);
      if rebound.None? then (t.(worker := w), false)
      else if requireAll && Incomplete(c, rebound.value) then
        (Release(t.(worker := w), c.id, c.incompleteReleases), false)
      else (Adapter(w, Some(c.id), Some(c.version)), true)
  }

  // ----- what rebinding keeps --------------------------------------------------------------------

  /** Saved originals are the model's own storage, and every rebound parameter has one saved. */
  predicate Recoverable(base: Named, params: Named, originals: Named) {
    && params.Keys == base.Keys
    && (forall n | n in originals :: n in base && originals[n] == base[n])
    && (forall n | n in params :: params[n] == base[n] || n in originals)
  }

  predicate Progress(base: Named, start: Named, imported: seq<(Name, Storage)>, a: Attempt) {
    && Recoverable(base, a.params, a.originals)
    && start.Keys == base.Keys
    && a.rebound <= AsMap(imported).Keys * a.params.Keys * a.originals.Keys
    && (a.ok ==> a.rebound == AsMap(imported).Keys * a.params.Keys)
    && (forall n | n in a.params && n !in a.rebound :: a.params[n] == start[n])
    && (a.ok ==> forall n | n in a.rebound :: a.params[n] == AsMap(imported)[n])
  }

  lemma BindOneRecoverable(base: Named, a: Attempt, name: Name, tensor: Storage)
    requires Recoverable(base, a.params, a.originals)
    ensures var b := BindOne(a, name, tensor);
            Recoverable(base, b.params, b.originals) && a.originals.Keys <= b.originals.Keys
  {
  }

  lemma BindOneKeeps(base: Named, start: Named, imported: seq<(Name, Storage)>, a: Attempt)
    requires |imported| > 0 && Progress(base, start, imported[..|imported| - 1], a)
    ensures var (name, tensor) := imported[|imported| - 1];
            Progress(base, start, imported, BindOne(a, name, tensor))
                && a.originals.Keys <= BindOne(a, name, tensor).originals.Keys
  {
    var (name, tensor) := imported[|imported| - 1];
    BindOneRecoverable(base, a, name, tensor);
    assert AsMap(imported) == AsMap(imported[..|imported| - 1])[name := tensor];
  }

  lemma {:induction false} RebindKeeps(base: Named, w: Worker, imported: seq<(Name, Storage)>)
    requires Recoverable(base, w.params, Start(w).originals)
    ensures Progress(base, w.params, imported, Rebind(Start(w), imported))
    ensures Start(w).originals.Keys <= Rebind(Start(w), imported).originals.Keys
    decreases |imported|
  {
    if |imported| > 0 {
      RebindKeeps(base, w, imported[..|imported| - 1]);
      BindOneKeeps(base, w.params, imported, Rebind(Start(w), imported[..|imported| - 1]));
    }
  }

  /** What holds between calls: with no active update every parameter is the model's own storage; with one,
      exactly the parameters it names are its aliases and the rest are the model's own. */
  predicate Inv(base: Named, s: Adapter) {
    && Recoverable(base, s.worker.params, Start(s.worker).originals)
    && (s.activeId.None? ==> s.worker.params == base)
    && (s.activeId.Some? ==>
          && s.worker.bound.Some? && s.worker.bound.value.id == s.activeId.value
          && forall n | n in base :: s.worker.params[n] == Expected(base, s.worker.bound.value.tensors, n))
  }

  function Expected(base: Named, tensors: Named, n: Name): Storage
    requires n in base
  {
    if n in tensors then tensors[n] else base[n]
  }

  lemma RestoreAll(base: Named, params: Named, originals: Named)
    requires Recoverable(base, params, originals)
    ensures Restored(params, originals.Keys, originals) == base
  {
  }

  /** Every release restores all originals when it names the active update, and changes no parameter that is
      not already the model's own otherwise. */
  lemma ReleaseKeeps(base: Named, s: Adapter, id: Id, bridgeReleases: bool)
    requires Inv(base, s)
    ensures Inv(base, Release(s, id, bridgeReleases))
    ensures s.activeId == Some(id) ==> Release(s, id, bridgeReleases).worker.params == base
    ensures s.activeId != Some(id) ==> Release(s, id, bridgeReleases).activeId == s.activeId
                                       && Release(s, id, bridgeReleases).worker.params == s.worker.params
  {
    if s.worker.bound.Some? && s.worker.bound.value.id == id {
      RestoreAll(base, s.worker.params, s.worker.bound.value.originals);
    }
  }

  /** An install that raises on the worker puts back exactly the parameters it had rebound. */
  lemma FailedOnWorker(base: Named, w: Worker, c: InstallCall)
    requires Recoverable(base, w.params, Start(w).originals)
    requires InstallOnWorker(w, c).1.None? && c.imported.Some?
    ensures InstallOnWorker(w, c).0.bound.None?
    ensures InstallOnWorker(w, c).0.params == Restored(w.params, Rebind(Start(w), c.imported.value).rebound, base)
  {
    RebindKeeps(base, w, c.imported.value);
  }

  lemma InstalledOnWorker(base: Named, w: Worker, c: InstallCall)
    requires Recoverable(base, w.params, Start(w).originals)
    requires InstallOnWorker(w, c).1.Some?
    ensures var y := InstallOnWorker(w, c).0;
            && Recoverable(base, y.params, Start(y).originals)
            && y.bound.Some? && y.bound.value.id == c.id && y.bound.value.tensors == AsMap(c.imported.value)
            && forall n | n in base :: y.params[n] == if n in y.bound.value.tensors then y.bound.value.tensors[n]
                else w.params[n]
  {
    RebindKeeps(base, w, c.imported.value);
  }

  /** With no update active, an install binds the named parameters or leaves the model's own storage. */
  lemma InstallFromIdle(base: Named, t: Adapter, c: InstallCall, requireAll: bool)
    requires Inv(base, t) && t.activeId.None? && c.accepted
    ensures var (u, ok) := Install(t, c, requireAll);
            && Inv(base, u)
            && (if ok then u.activeId == Some(c.id) && u.activeVersion == Some(c.version)
                           && forall n | n in base :: u.worker.params[n] == Expected(base, AsMap(c.imported.value), n)
                else u.activeId.None? && u.worker.params == base)
  {
    var (w, rebound) := InstallOnWorker(t.worker, c);
    if rebound.None? {
      if c.imported.Some? {
        FailedOnWorker(base, t.worker, c);
      }
    } else {
      InstalledOnWorker(base, t.worker, c);
      if requireAll && Incomplete(c, rebound.value) {
        RestoreAll(base, w.params, w.bound.value.originals);
      }
    }
  }

  /** An install that binds exactly the named parameters, or raises with every parameter back on the model's
      own storage, or, when the manifest is refused up front, with nothing changed. */
  ghost predicate Transactional(base: Named, s: Adapter, c: InstallCall, t: Adapter, ok: bool) {
    && Inv(base, t)
    && (ok ==> c.imported.Some? && t.activeId == Some(c.id) && t.activeVersion == Some(c.version)
               && forall n | n in base :: t.worker.params[n] == Expected(base, AsMap(c.imported.value), n))
    && (!ok && c.accepted ==> t.activeId.None? && t.worker.params == base)
    && (!c.accepted ==> !ok && t == s)
  }

  /** Installing an update that is not the active one is transactional. */
  lemma InstallKeeps(base: Named, s: Adapter, c: InstallCall, requireAll: bool)
    requires Inv(base, s) && s.activeId != Some(c.id)
    ensures var (t, ok) := Install(s, c, requireAll); Transactional(base, s, c, t, ok)
  {
    if c.accepted {
      if s.activeId.Some? {
        ReleaseKeeps(base, s, s.activeId.value, c.previousReleases);
      }
      InstallFromIdle(base, ReleasePrevious(s, c), c, requireAll);
    }
  }

  /** Every tensor that names a parameter has its shape and dtype. */
  predicate AllFit(params: Named, imported: seq<(Name, Storage)>) {
    forall k | 0 <= k < |imported| && imported[k].0 in params :: Fits(params[imported[k].0], imported[k].1)
  }

  lemma {:induction false} RebindIff(w: Worker, imported: seq<(Name, Storage)>)
    ensures Rebind(Start(w), imported).ok <==> AllFit(w.params, imported)
    ensures Rebind(Start(w), imported).params.Keys == w.params.Keys
    ensures forall n | n in w.params :: Fits(w.params[n], Rebind(Start(w), imported).params[n])
    decreases |imported|
  {
    if |imported| > 0 {
      var front := imported[..|imported| - 1];
      RebindIff(w, front);
      assert AllFit(w.params, imported) ==> AllFit(w.params, front) by {
        assert forall k | 0 <= k < |front| :: front[k] == imported[k];
      }
    }
  }

  /** That is: rebinding raises at a tensor of another shape or dtype than the parameter it names, and every
      parameter keeps its shape and dtype whatever is bound to it. */
  lemma ReboundShapes(w: Worker, imported: seq<(Name, Storage)>)
    ensures Rebind(Start(w), imported).ok <==>
      forall k | 0 <= k < |imported| && imported[k].0 in w.params ::
        && imported[k].1.shape == w.params[imported[k].0].shape
        && imported[k].1.dtype == w.params[imported[k].0].dtype
    ensures forall n | n in w.params ::
      && n in Rebind(Start(w), imported).params
      && Rebind(Start(w), imported).params[n].shape == w.params[n].shape
      && Rebind(Start(w), imported).params[n].dtype == w.params[n].dtype
  {
    RebindIff(w, imported);
  }

  /** The worker takes the import: it arrives, every tensor fits its parameter, and the acknowledgement of the
      worker's own bridge goes through. */
  predicate Takes(params: Named, c: InstallCall) {
    c.imported.Some? && AllFit(params, c.imported.value) && c.acknowledges
  }

  /** It names something the model has no parameter for. */
  predicate NamesMore(params: Named, c: InstallCall)
    requires c.imported.Some?
  {
    !(AsMap(c.imported.value).Keys <= params.Keys)
  }

  lemma TakesIff(base: Named, w: Worker, c: InstallCall)
    requires Recoverable(base, w.params, Start(w).originals)
    ensures InstallOnWorker(w, c).1.Some? <==> Takes(w.params, c)
    ensures Takes(w.params, c) ==> (Incomplete(c, InstallOnWorker(w, c).1.value) <==> NamesMore(w.params, c))
  {
    if c.imported.Some? {
      RebindIff(w, c.imported.value);
      RebindKeeps(base, w, c.imported.value);
    }
  }

  /** The import covers every parameter that does not stand on the model's own storage. */
  predicate CoversBound(base: Named, params: Named, c: InstallCall)
    requires c.imported.Some?
  {
    forall n | n in base && n in params && params[n] != base[n] :: n in AsMap(c.imported.value)
  }

  /** What installing the active update again leaves behind: nothing changed when it is refused or its import
      fails; the attributes gone and what it rebound back on the model's own storage when the worker does not
      take it; every parameter back there when it is released as incomplete; else each parameter it names on
      its alias and every other one where it was. */
  lemma ReinstallOutcome(base: Named, s: Adapter, c: InstallCall, requireAll: bool)
    requires Inv(base, s) && s.activeId == Some(c.id)
    ensures var (t, ok) := Install(s, c, requireAll);
            if !c.accepted || c.imported.None? then !ok && t == s
            else if !Takes(s.worker.params, c) then
              && !ok && t.activeId == s.activeId && t.activeVersion == s.activeVersion && t.worker.bound.None?
              && t.worker.params == Restored(s.worker.params, Rebind(Start(s.worker), c.imported.value).rebound, base)
            else if requireAll && NamesMore(s.worker.params, c) then
              !ok && t.activeId.None? && t.worker.params == base && Recoverable(base, base, Start(t.worker).originals)
            else
              && ok && t.activeId == Some(c.id) && t.activeVersion == Some(c.version)
              && t.worker.bound.Some? && t.worker.bound.value.id == c.id
              && t.worker.bound.value.tensors == AsMap(c.imported.value)
              && Recoverable(base, t.worker.params, Start(t.worker).originals)
              && forall n | n in base :: t.worker.params[n] == Expected(s.worker.params, AsMap(c.imported.value), n)
  {
    TakesIff(base, s.worker, c);
    if c.accepted && c.imported.Some? {
      var (w, rebound) := InstallOnWorker(s.worker, c);
      if rebound.None? {
        FailedOnWorker(base, s.worker, c);
      } else {
        InstalledOnWorker(base, s.worker, c);
        if requireAll && Incomplete(c, rebound.value) {
          RestoreAll(base, w.params, w.bound.value.originals);
        }
      }
    }
  }

  /** Binding over the parameters bound so far is binding over the model's own when all of those are covered. */
  lemma CoversBoundIff(base: Named, params: Named, c: InstallCall)
    requires c.imported.Some? && params.Keys == base.Keys
    ensures CoversBound(base, params, c) <==>
            forall n | n in base ::
              Expected(params, AsMap(c.imported.value), n) == Expected(base, AsMap(c.imported.value), n)
  {
  }

  /** Installing the active update again keeps the binding invariant exactly when it is refused up front, or
      its import fails, or the worker takes it and it either names more than the model has, and is then
      released, or covers every parameter bound so far. A failed import leaves the update active, so without
      that case the install is transactional, like that of any other update. */
  lemma ReinstallKeepsIff(base: Named, s: Adapter, c: InstallCall, requireAll: bool)
    requires Inv(base, s) && s.activeId == Some(c.id)
    ensures Inv(base, Install(s, c, requireAll).0) <==>
      || !c.accepted || c.imported.None?
      || (Takes(s.worker.params, c)
          && ((requireAll && NamesMore(s.worker.params, c)) || CoversBound(base, s.worker.params, c)))
    ensures Transactional(base, s, c, Install(s, c, requireAll).0, Install(s, c, requireAll).1) <==>
      || !c.accepted
      || (Takes(s.worker.params, c)
          && ((requireAll && NamesMore(s.worker.params, c)) || CoversBound(base, s.worker.params, c)))
  {
    ReinstallOutcome(base, s, c, requireAll);
    if c.imported.Some? {
      CoversBoundIff(base, s.worker.params, c);
    }
  }

  /** A call in which nothing goes wrong. */
  function Fresh(id: Id, imported: seq<(Name, Storage)>): InstallCall {
    InstallCall(id, 0, true, Some(imported), true, true, true)
  }

  /** An idle adapter binds one parameter, and installs the same update again with an import that leaves the
      parameter out: it stays on the old alias, which the adapter no longer accounts for. */
  lemma ReinstallLosesParameter(own: Storage, alias: Storage)
    requires Fits(own, alias) && own != alias
    ensures var base := map["w" := own];
            var idle := Adapter(Worker(base, None), None, None);
            var bound := Install(idle, Fresh(0, [("w", alias)]), false).0;
            && Inv(base, idle) && Inv(base, bound) && bound.activeId == Some(0)
            && !Inv(base, Install(bound, Fresh(0, []), false).0)
  {
    var base := map["w" := own];
    var idle := Adapter(Worker(base, None), None, None);
    var c := Fresh(0, [("w", alias)]);
    InstallKeeps(base, idle, c, false);
    var bound := Install(idle, c, false).0;
    OneTensor("w", alias);
    TakesIff(base, idle.worker, c);
    assert Takes(base, c);
    assert bound.worker.params["w"] == alias;
    ReinstallKeepsIff(base, bound, Fresh(0, []), false);
  }

  lemma OneTensor(name: Name, tensor: Storage)
    ensures AsMap([(name, tensor)]) == map[name := tensor]
  {
    assert [(name, tensor)][..0] == [];
  }

  // ----- every run -------------------------------------------------------------------------------

  datatype Event = DoInstall(call: InstallCall, requireAll: bool) | DoRelease(id: Id, bridgeReleases: bool)

  function Step(s: Adapter, e: Event): Adapter {
    match e
    case DoInstall(call, requireAll) => Install(s, call, requireAll).0
    case DoRelease(id, bridgeReleases) => Release(s, id, bridgeReleases)
  }

  function Run(s: Adapter, events: seq<Event>): Adapter {
    if |events| == 0 then s else Step(Run(s, events[..|events| - 1]), events[|events| - 1])
  }

  /** No event installs the update that is active when it happens. */
  predicate NeverReinstalls(s: Adapter, events: seq<Event>) {
    forall k | 0 <= k < |events| && events[k].DoInstall? :: Run(s, events[..k]).activeId != Some(events[k].call.id)
  }

  lemma {:induction false} EveryRunKeepsParameters(base: Named, events: seq<Event>)
    requires NeverReinstalls(Adapter(Worker(base, None), None, None), events)
    ensures Inv(base, Run(Adapter(Worker(base, None), None, None), events))
    decreases |events|
  {
    var s := Adapter(Worker(base, None), None, None);
    if |events| > 0 {
      var front, last := events[..|events| - 1], events[|events| - 1];
      forall k | 0 <= k < |front| && front[k].DoInstall?
        ensures Run(s, front[..k]).activeId != Some(front[k].call.id)
      {
        assert front[..k] == events[..k];
      }
      EveryRunKeepsParameters(base, front);
      match last
      case DoInstall(call, requireAll) => InstallKeeps(base, Run(s, front), call, requireAll);
      case DoRelease(id, bridgeReleases) => ReleaseKeeps(base, Run(s, front), id, bridgeReleases);
    }
  }
}
