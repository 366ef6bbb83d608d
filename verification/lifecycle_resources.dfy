/** Who owns the providers and monitors that Start builds, over all interleavings of Start and
    Shutdown and all failures. */
module LifecycleResources {
  import opened Labels
  import opened LifecycleMachine
  import opened LifecycleEpochs

  function Ids(metric: Option<nat>, trace: Option<nat>, monitor: Option<nat>): (r: set<nat>)
    ensures forall x :: x in r <==> Some(x) == metric || Some(x) == trace || Some(x) == monitor
  {
    (if metric.Some? then {metric.value} else {}) + (if trace.Some? then {trace.value} else {})
    + (if monitor.Some? then {monitor.value} else {})
  }

  predicate Apart(metric: Option<nat>, trace: Option<nat>, monitor: Option<nat>) {
    && (metric.Some? ==> metric != trace && metric != monitor)
    && (trace.Some? ==> trace != monitor)
  }

  predicate Carrying(p: Pc) {
    p.STrace? || p.SAllow? || p.SCopy? || p.SBuild? || p.SMonitor? || p.SRelock? || p.SRedrain? || p.SRecheck?
    || p.SBump? || p.SInstall?
  }

  predicate Listing(p: Pc) {
    p.DStop? || p.DWait? || p.Release?
  }

  /** The resources in a thread's hands: what its Start has built and not yet installed, or
      what is still on its list to shut down. */
  predicate Holds(p: Pc, r: nat) {
    if Carrying(p) then r in Ids(p.b.metric, p.b.trace, p.b.monitor)
    else Listing(p) && r in p.todo
  }

  predicate Neat(p: Pc) {
    && (Carrying(p) ==> Apart(p.b.metric, p.b.trace, p.b.monitor))
    && (p.STrace? ==> p.b.trace == None)
    && (p.STrace? || p.SAllow? || p.SCopy? || p.SBuild? || p.SMonitor? ==> p.b.monitor == None)
    && (Listing(p) ==> NoDup(p.todo))
  }

  predicate CoreHolds(k: Core, r: nat) {
    r in Ids(k.metric, k.trace, k.monitor)
  }

  predicate CoreEmpty(k: Core) {
    k.metric == k.trace == k.monitor == None
  }

  predicate OwnedBy(rs: seq<Resource>, r: nat, w: Owner) {
    r < |rs| && rs[r].owner == w
  }

  predicate HoldsAt(ts: seq<Pc>, t: nat, r: nat) {
    t < |ts| && Holds(ts[t], r)
  }

  /** Every resource has one owner: a thread, the Telemetry, or nobody once shut down. */
  ghost predicate OwnersOk(ts: seq<Pc>, k: Core, rs: seq<Resource>) {
    && (forall r: nat :: r < |rs| ==> rs[r].released == if rs[r].owner.Nobody? then 1 else 0)
    && (forall t: nat, r: nat :: HoldsAt(ts, t, r) <==> OwnedBy(rs, r, Thread(t)))
    && (forall r: nat :: CoreHolds(k, r) <==> OwnedBy(rs, r, Telemetry))
    && (forall t: nat :: t < |ts| ==> Neat(ts[t])) && Apart(k.metric, k.trace, k.monitor)
  }

  /** A Telemetry that is not started holds nothing, but for the moment between Shutdown's
      bump and its detachment; the current registry records with the provider it holds. */
  ghost predicate HoldingsOk(s: State) {
    && (CoreEmpty(s.core) || s.core.started || Holder(s).DDetach?)
    && (!Switching(Holder(s)) ==> s.core.registry < |s.registries| && s.registries[s.core.registry].provider == s.core.metric)
  }

  ghost predicate ResourcesOk(s: State) {
    OwnersOk(s.threads, s.core, s.resources) && HoldingsOk(s)
  }

  // ----- the ways ownership moves -----

  /** A thread's hands change and nothing else. */
  lemma Unchanged(ts: seq<Pc>, k: Core, rs: seq<Resource>, t: nat, p: Pc, k': Core)
    requires OwnersOk(ts, k, rs) && t < |ts| && Neat(p)
    requires forall r: nat :: Holds(ts[t], r) <==> Holds(p, r)
    requires k'.metric == k.metric && k'.trace == k.trace && k'.monitor == k.monitor
    ensures OwnersOk(ts[t := p], k', rs)
  {
    forall u: nat, r: nat ensures HoldsAt(ts[t := p], u, r) <==> OwnedBy(rs, r, Thread(u)) {
      assert HoldsAt(ts, u, r) <==> OwnedBy(rs, r, Thread(u));
    }
    forall r: nat ensures CoreHolds(k', r) <==> OwnedBy(rs, r, Telemetry) {
      assert CoreHolds(k, r) <==> OwnedBy(rs, r, Telemetry);
    }
  }

  /** A thread builds a resource. */
  lemma Made(ts: seq<Pc>, k: Core, rs: seq<Resource>, t: nat, p: Pc, kind: Kind)
    requires OwnersOk(ts, k, rs) && t < |ts| && Neat(p)
    requires forall r: nat :: Holds(p, r) <==> Holds(ts[t], r) || r == |rs|
    ensures OwnersOk(ts[t := p], k, rs + [Resource(kind, 0, Thread(t))])
  {
    var rs' := rs + [Resource(kind, 0, Thread(t))];
    forall u: nat, r: nat ensures HoldsAt(ts[t := p], u, r) <==> OwnedBy(rs', r, Thread(u)) {
      assert HoldsAt(ts, u, r) <==> OwnedBy(rs, r, Thread(u));
    }
    forall r: nat ensures CoreHolds(k, r) <==> OwnedBy(rs', r, Telemetry) {
      assert CoreHolds(k, r) <==> OwnedBy(rs, r, Telemetry);
    }
  }

  /** A thread shuts a resource down. */
  lemma Freed(ts: seq<Pc>, k: Core, rs: seq<Resource>, t: nat, p: Pc, x: nat)
    requires OwnersOk(ts, k, rs) && t < |ts| && Neat(p) && Holds(ts[t], x) && !Holds(p, x)
    requires forall r: nat :: r != x ==> (Holds(p, r) <==> Holds(ts[t], r))
    ensures OwnersOk(ts[t := p], k, ShutDown(rs, x))
  {
    var rs' := ShutDown(rs, x);
    assert HoldsAt(ts, t, x) <==> OwnedBy(rs, x, Thread(t));
    forall u: nat, r: nat ensures HoldsAt(ts[t := p], u, r) <==> OwnedBy(rs', r, Thread(u)) {
      assert HoldsAt(ts, u, r) <==> OwnedBy(rs, r, Thread(u));
    }
    forall r: nat ensures CoreHolds(k, r) <==> OwnedBy(rs', r, Telemetry) {
      assert CoreHolds(k, r) <==> OwnedBy(rs, r, Telemetry);
    }
  }

  lemma OwnersSet(rs: seq<Resource>, m: Option<nat>, t: Option<nat>, mon: Option<nat>, w: Owner, r: nat)
    requires r < |rs|
    ensures var q := SetOwners(rs, m, t, mon, w);
            q[r].released == rs[r].released && q[r].owner == if r in Ids(m, t, mon) then w else rs[r].owner
  {
  }

  lemma OwnedAfterSet(rs: seq<Resource>, m: Option<nat>, t: Option<nat>, mon: Option<nat>, w: Owner, r: nat, v: Owner)
    requires r in Ids(m, t, mon) ==> r < |rs|
    ensures OwnedBy(SetOwners(rs, m, t, mon, w), r, v) <==> if r in Ids(m, t, mon) then v == w else OwnedBy(rs, r, v)
  {
    if r < |rs| {
      OwnersSet(rs, m, t, mon, w, r);
    }
  }

  /** A thread's hands pass to an empty Telemetry. */
  lemma HandedOver(ts: seq<Pc>, k: Core, rs: seq<Resource>, t: nat, p: Pc, k': Core, rs': seq<Resource>)
    requires OwnersOk(ts, k, rs) && t < |ts| && CoreEmpty(k) && Carrying(ts[t])
    requires Neat(p) && forall r: nat :: !Holds(p, r)
    requires var b := ts[t].b; k'.metric == b.metric && k'.trace == b.trace && k'.monitor == b.monitor
    requires var b := ts[t].b; rs' == SetOwners(rs, b.metric, b.trace, b.monitor, Telemetry)
    ensures OwnersOk(ts[t := p], k', rs')
  {
    var b := ts[t].b;
    assert Neat(ts[t]);
    forall r: nat ensures r in Ids(b.metric, b.trace, b.monitor) <==> OwnedBy(rs, r, Thread(t)) {
      assert HoldsAt(ts, t, r) <==> OwnedBy(rs, r, Thread(t));
    }
    forall u: nat, r: nat ensures HoldsAt(ts[t := p], u, r) <==> OwnedBy(rs', r, Thread(u)) {
      assert HoldsAt(ts, u, r) <==> OwnedBy(rs, r, Thread(u));
      OwnedAfterSet(rs, b.metric, b.trace, b.monitor, Telemetry, r, Thread(u));
    }
    forall r: nat ensures CoreHolds(k', r) <==> OwnedBy(rs', r, Telemetry) {
      assert CoreHolds(k, r) <==> OwnedBy(rs, r, Telemetry);
      OwnedAfterSet(rs, b.metric, b.trace, b.monitor, Telemetry, r, Telemetry);
    }
    forall r: nat | r < |rs'| ensures rs'[r].released == if rs'[r].owner.Nobody? then 1 else 0 {
      OwnersSet(rs, b.metric, b.trace, b.monitor, Telemetry, r);
    }
  }

  /** What a Telemetry holds passes to a thread with empty hands. */
  lemma TakenOver(ts: seq<Pc>, k: Core, rs: seq<Resource>, t: nat, p: Pc, k': Core, rs': seq<Resource>)
    requires OwnersOk(ts, k, rs) && t < |ts| && CoreEmpty(k') && (forall r: nat :: !Holds(ts[t], r))
    requires Neat(p) && forall r: nat :: Holds(p, r) <==> CoreHolds(k, r)
    requires rs' == SetOwners(rs, k.metric, k.trace, k.monitor, Thread(t))
    ensures OwnersOk(ts[t := p], k', rs')
  {
    forall u: nat, r: nat ensures HoldsAt(ts[t := p], u, r) <==> OwnedBy(rs', r, Thread(u)) {
      assert HoldsAt(ts, u, r) <==> OwnedBy(rs, r, Thread(u));
      assert CoreHolds(k, r) <==> OwnedBy(rs, r, Telemetry);
      OwnedAfterSet(rs, k.metric, k.trace, k.monitor, Thread(t), r, Thread(u));
    }
    forall r: nat ensures CoreHolds(k', r) <==> OwnedBy(rs', r, Telemetry) {
      assert CoreHolds(k, r) <==> OwnedBy(rs, r, Telemetry);
      OwnedAfterSet(rs, k.metric, k.trace, k.monitor, Thread(t), r, Telemetry);
    }
    forall r: nat | r < |rs'| ensures rs'[r].released == if rs'[r].owner.Nobody? then 1 else 0 {
      assert CoreHolds(k, r) <==> OwnedBy(rs, r, Telemetry);
      OwnersSet(rs, k.metric, k.trace, k.monitor, Thread(t), r);
    }
  }

  // ----- steps -----

  lemma ListedHolds(m: Option<nat>, t: Option<nat>, mon: Option<nat>, todo: seq<nat>)
    requires Apart(m, t, mon)
    requires todo == Listed(m) + Listed(t) + Listed(mon) || (mon == None && todo == Listed(m) + Listed(t))
             || todo == Listed(mon) + Listed(m) + Listed(t)
    ensures NoDup(todo) && forall r: nat :: r in todo <==> r in Ids(m, t, mon)
  {
  }

  lemma PassingHoldings(s: State, t: nat, p: Pc, s': State)
    requires MutexOk(s) && HoldingsOk(s) && Passing(s, t, p, s')
    ensures HoldingsOk(s')
  {
    MutexMove(s, t, p, s');
  }

  lemma BuildOwners(c: Config, s: State, t: nat, ok: bool)
    requires OwnersOk(s.threads, s.core, s.resources) && t < |s.threads| && Building(s.threads[t])
    ensures var s' := ExecBuild(c, s, t, ok); OwnersOk(s'.threads, s'.core, s'.resources)
  {
    var s' := ExecBuild(c, s, t, ok);
    var q, p := s.threads[t], s'.threads[t];
    assert Neat(q);
    forall r: nat ensures Holds(q, r) ==> r < |s.resources| {
      assert HoldsAt(s.threads, t, r) <==> OwnedBy(s.resources, r, Thread(t));
    }
    if |s'.resources| > |s.resources| {
      assert Carrying(q) && q.b.metric.Some? ==> Holds(q, q.b.metric.value);
      assert Carrying(q) && q.b.trace.Some? ==> Holds(q, q.b.trace.value);
      Made(s.threads, s.core, s.resources, t, p, s'.resources[|s.resources|].kind);
    } else {
      if p.Release? && q.SMonitor? {
        ListedHolds(q.b.metric, q.b.trace, None, p.todo);
      }
      Unchanged(s.threads, s.core, s.resources, t, p, s.core);
    }
  }

  lemma StartOwners(c: Config, s: State, t: nat)
    requires ResourcesOk(s) && EpochOk(s) && Enabled(s, t) && Starting(s.threads[t])
    ensures var s' := ExecStart(c, s, t); OwnersOk(s'.threads, s'.core, s'.resources)
  {
    var s' := ExecStart(c, s, t);
    var q, p := s.threads[t], s'.threads[t];
    assert Neat(q);
    if q.SInstall? {
      assert Holder(s) == q;
      HandedOver(s.threads, s.core, s.resources, t, p, s'.core, s'.resources);
    } else {
      if p.Release? {
        ListedHolds(q.b.metric, q.b.trace, q.b.monitor, p.todo);
      }
      Unchanged(s.threads, s.core, s.resources, t, p, s'.core);
    }
  }

  lemma DetachOwners(c: Config, s: State, t: nat)
    requires OwnersOk(s.threads, s.core, s.resources) && t < |s.threads| && s.threads[t].DDetach?
    ensures var s' := ExecStop(c, s, t); OwnersOk(s'.threads, s'.core, s'.resources)
  {
    var s' := ExecStop(c, s, t);
    ListedHolds(s.core.metric, s.core.trace, s.core.monitor, s'.threads[t].todo);
    TakenOver(s.threads, s.core, s.resources, t, s'.threads[t], s'.core, s'.resources);
  }

  lemma StopOwners(c: Config, s: State, t: nat)
    requires OwnersOk(s.threads, s.core, s.resources) && t < |s.threads| && Stopping(s.threads[t])
    ensures var s' := ExecStop(c, s, t); OwnersOk(s'.threads, s'.core, s'.resources)
  {
    var s' := ExecStop(c, s, t);
    var q, p := s.threads[t], s'.threads[t];
    assert Neat(q);
    if q.DDetach? {
      DetachOwners(c, s, t);
    } else if q.Release? && q.todo != [] {
      Freed(s.threads, s.core, s.resources, t, p, q.todo[0]);
    } else {
      Unchanged(s.threads, s.core, s.resources, t, p, s'.core);
    }
  }

  lemma StartHoldings(c: Config, s: State, t: nat)
    requires HoldingsOk(s) && EpochOk(s) && Enabled(s, t) && Starting(s.threads[t])
    ensures HoldingsOk(ExecStart(c, s, t))
  {
    var s' := ExecStart(c, s, t);
    if s.threads[t].SBump? || s.threads[t].SInstall? {
      MutexMove(s, t, s'.threads[t], s');
    } else {
      StartPasses(c, s, t);
      PassingHoldings(s, t, s'.threads[t], s');
    }
  }

  lemma StopHoldings(c: Config, s: State, t: nat)
    requires HoldingsOk(s) && EpochOk(s) && Enabled(s, t) && Stopping(s.threads[t])
    ensures HoldingsOk(ExecStop(c, s, t))
  {
    var s' := ExecStop(c, s, t);
    if s.threads[t].DBump? || s.threads[t].DDetach? {
      MutexMove(s, t, s'.threads[t], s');
    } else {
      StopPasses(c, s, t);
      PassingHoldings(s, t, s'.threads[t], s');
    }
  }

  lemma GoResources(c: Config, s: State, t: nat, ok: bool)
    requires ResourcesOk(s) && EpochOk(s) && Enabled(s, t)
    ensures ResourcesOk(Exec(c, s, t, ok))
  {
    if Building(s.threads[t]) {
      BuildOwners(c, s, t, ok);
      BuildPasses(c, s, t, ok);
      PassingHoldings(s, t, ExecBuild(c, s, t, ok).threads[t], ExecBuild(c, s, t, ok));
    } else if Starting(s.threads[t]) {
      StartOwners(c, s, t);
      StartHoldings(c, s, t);
    } else if Stopping(s.threads[t]) {
      StopOwners(c, s, t);
      StopHoldings(c, s, t);
    } else {
      VisitPasses(s, t);
      PassingResources(s, t, ExecVisit(s, t).threads[t], ExecVisit(s, t));
    }
  }

  /** A thread with empty hands passes, its hands still empty. */
  lemma PassingResources(s: State, t: nat, p: Pc, s': State)
    requires ResourcesOk(s) && MutexOk(s) && Passing(s, t, p, s') && s'.resources == s.resources
    requires !Carrying(s.threads[t]) && !Listing(s.threads[t]) && !Carrying(p) && !Listing(p)
    ensures ResourcesOk(s')
  {
    Unchanged(s.threads, s.core, s.resources, t, p, s.core);
    PassingHoldings(s, t, p, s');
  }

  lemma BeginResources(s: State, t: nat, p: Pc)
    requires ResourcesOk(s) && MutexOk(s) && t < |s.threads| && s.threads[t] == Idle && Entering(p)
    ensures ResourcesOk(Goto(s, t, p))
  {
    BeginPasses(s, t, p);
    PassingResources(s, t, p, Goto(s, t, p));
  }

  lemma ResourcesStep(c: Config, s: State, a: Action)
    requires ResourcesOk(s) && EpochOk(s) && Can(s, a)
    ensures ResourcesOk(Apply(c, s, a))
  {
    match a
    case Go(t, ok) => GoResources(c, s, t, ok);
    case Start(t) => BeginResources(s, t, SLock);
    case Shutdown(t) => BeginResources(s, t, DLock);
    case Read(t) => BeginResources(s, t, RLock);
    case Allow(t) => BeginResources(s, t, ALock);
    case LoopSeesStop(_) =>
    case TakeHandle(_) =>
    case Derive(_) =>
  }

  lemma {:induction false} ResourcesRun(c: Config, tr: seq<State>, acts: seq<Action>, i: nat)
    requires IsRun(c, tr, acts) && i < |tr|
    ensures ResourcesOk(tr[i]) && EpochOk(tr[i])
  {
    EpochRun(c, tr, acts, i);
    if i > 0 {
      ResourcesRun(c, tr, acts, i - 1);
      ResourcesStep(c, tr[i - 1], acts[i - 1]);
    }
  }

  // ----- over whole runs -----

  /** Every provider and monitor that was ever built is shut down at most once; until then it
      is in the hands of exactly one call of Start or Shutdown, or held by the Telemetry. */
  lemma ReleasedOnceOrOwned(c: Config, tr: seq<State>, acts: seq<Action>, i: nat, r: nat)
    requires IsRun(c, tr, acts) && i < |tr| && r < |tr[i].resources|
    ensures tr[i].resources[r].released <= 1
    ensures tr[i].resources[r].released == 0 <==> CoreHolds(tr[i].core, r) || exists t: nat :: HoldsAt(tr[i].threads, t, r)
    ensures forall t: nat, u: nat :: HoldsAt(tr[i].threads, t, r) && HoldsAt(tr[i].threads, u, r) ==> t == u
    ensures CoreHolds(tr[i].core, r) ==> forall t: nat :: !HoldsAt(tr[i].threads, t, r)
  {
    var s := tr[i];
    ResourcesRun(c, tr, acts, i);
    assert CoreHolds(s.core, r) <==> OwnedBy(s.resources, r, Telemetry);
    if s.resources[r].owner.Thread? {
      assert HoldsAt(s.threads, s.resources[r].owner.t, r) <==> OwnedBy(s.resources, r, Thread(s.resources[r].owner.t));
    }
  }

  /** When every call has returned, whatever was built is shut down or held by a started
      Telemetry; a Telemetry that is not started holds nothing unless a writer has the mutex. */
  lemma NothingLeaks(c: Config, tr: seq<State>, acts: seq<Action>, i: nat, r: nat)
    requires IsRun(c, tr, acts) && i < |tr|
    ensures Free(tr[i]) && !tr[i].core.started ==> CoreEmpty(tr[i].core)
    ensures (forall t :: 0 <= t < |tr[i].threads| ==> tr[i].threads[t] == Idle) && r < |tr[i].resources| ==>
              tr[i].resources[r].released == 1 || (tr[i].core.started && CoreHolds(tr[i].core, r))
  {
    var s := tr[i];
    ResourcesRun(c, tr, acts, i);
    if (forall t :: 0 <= t < |s.threads| ==> s.threads[t] == Idle) && r < |s.resources| {
      ReleasedOnceOrOwned(c, tr, acts, i, r);
    }
  }

  /** A handle that passes its epoch check records with a provider that has not been shut
      down: at that moment its registry is current and the Telemetry still holds the provider. */
  lemma LiveHandleHasItsProvider(c: Config, tr: seq<State>, acts: seq<Action>, i: nat, h: nat)
    requires IsRun(c, tr, acts) && i < |tr| && h < |tr[i].handles| && Live(tr[i], tr[i].handles[h])
    ensures var s := tr[i];
            s.handles[h].registry < |s.registries|
            && var p := s.registries[s.handles[h].registry].provider;
               p.Some? ==> p.value < |s.resources| && s.resources[p.value].released == 0
  {
    var s := tr[i];
    ResourcesRun(c, tr, acts, i);
    LiveIffCurrent(c, tr, acts, i, h);
    if s.core.metric.Some? {
      assert CoreHolds(s.core, s.core.metric.value) <==> OwnedBy(s.resources, s.core.metric.value, Telemetry);
    }
  }
}
