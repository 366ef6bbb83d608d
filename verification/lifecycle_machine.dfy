/** Any number of goroutines calling Start and Shutdown on one Telemetry, and the calls that only
    visit its mutex: Meter, Registry and CardinalityStats to read, AllowSubjects to write.

    Start builds providers, cache, detector and monitor without the lock, takes the lock again,
    and installs what it built or rolls it back; Shutdown detaches under the lock and releases
    outside it. Steps end where the source takes or gives back `mu`, calls out, or bumps the
    epoch, which handles read without the lock. */
module LifecycleMachine {
  import opened Labels

  /** The configuration: which parts are enabled, the raw cap. */
  datatype Config = Config(otlp: bool, monitor: bool, detector: bool, maxCardinality: int)

  datatype Kind = MetricProvider | TraceProvider | Monitor

  /** A provider or monitor that was built, and how often it was shut down. `owner` is history. */
  datatype Resource = Resource(kind: Kind, released: nat, owner: Owner)

  datatype Owner = Telemetry | Thread(t: nat) | Nobody

  datatype Phase = NotStarted | Running | Done

  /** A detector: the cache it watches and its own cap; how often its loop was spawned and its
      stop channel closed; where the loop is. `maker`, `installed` and `stopper` are history. */
  datatype Detector = Detector(cache: nat, maxCardinality: nat, spawned: nat, stops: nat, phase: Phase,
                               maker: nat, installed: bool, stopper: Option<nat>)

  /** A published registry: its epoch, its cache, the provider its meter belongs to (None: noop). */
  datatype Registry = Registry(epoch: nat, cache: nat, provider: Option<nat>)

  /** A handle: the registry it was taken from and the epoch it carries. */
  datatype Handle = Handle(registry: nat, epoch: nat)

  /** The fields `mu` guards, without the epoch. `registry` is the index of the current one. */
  datatype Core = Core(started: bool, registry: nat, metric: Option<nat>, trace: Option<nat>,
                       monitor: Option<nat>, detector: Option<nat>)

  /** What one call of Start has built. */
  datatype Built = Built(metric: Option<nat>, trace: Option<nat>, monitor: Option<nat>, cache: nat, detector: Option<nat>)

  /** A Start whose monitor cannot bind takes the mutex once more after releasing its providers
      (`relock`), to forget a tracer provider, which is not modelled.

      To take `mu` for writing a goroutine announces itself (SLock, SRelock, DLock, ALock) and
      then waits for the readers to leave (the Drain counters). */
  datatype Pc =
    | Idle
    | SLock
    | SDrain
    | SCheck
    | SMetric
    | STrace(b: Built)
    | SAllow(b: Built)
    | SCopy(b: Built)
    | SBuild(b: Built)
    | SMonitor(b: Built)
    | SRelock(b: Built)
    | SRedrain(b: Built)
    | SRecheck(b: Built)
    | SBump(b: Built)
    | SInstall(b: Built)
    | SBind(b: Built)
    | SSpawn(b: Built)
    | DLock
    | DDrain
    | DCheck
    | DBump
    | DDetach
    | DStop(detector: Option<nat>, todo: seq<nat>)
    | DWait(d: nat, todo: seq<nat>)
    | Release(todo: seq<nat>, relock: bool)
    | RLock
    | RHold
    | ALock
    | ADrain
    | AHold

  /** `mu` is the writer that announced itself or holds the mutex; `readers` hold it for reading. */
  datatype State = State(
    threads: seq<Pc>, mu: Option<nat>, readers: set<nat>, epoch: nat, core: Core, resources: seq<Resource>, caches: seq<nat>,
    detectors: seq<Detector>, registries: seq<Registry>, handles: seq<Handle>)

  /** `newTelemetry`. */
  ghost predicate Init(s: State) {
    && (forall t :: 0 <= t < |s.threads| ==> s.threads[t] == Idle) && s.mu == None && s.readers == {} && s.epoch == 0
    && s.core == Core(false, 0, None, None, None, None)
    && s.resources == [] && s.caches == [DEFAULT_MAX_CARDINALITY] && s.detectors == []
    && s.registries == [Registry(0, 0, None)] && s.handles == []
  }

  /** `ok` is the outcome of building a provider or binding the monitor. */
  datatype Action =
    | Start(t: nat)
    | Shutdown(t: nat)
    | Read(t: nat)
    | Allow(t: nat)
    | Go(t: nat, ok: bool)
    | LoopSeesStop(d: nat)
    | TakeHandle(r: nat)
    | Derive(h: nat)

  predicate Enabled(s: State, t: nat) {
    t < |s.threads| && match s.threads[t]
                       case Idle => false
                       case SLock => s.mu == None
                       case SDrain => s.readers == {}
                       case SAllow(_) => s.mu == None
                       case SRelock(_) => s.mu == None
                       case SRedrain(_) => s.readers == {}
                       case DLock => s.mu == None
                       case DDrain => s.readers == {}
                       case RLock => s.mu == None
                       case ALock => s.mu == None
                       case ADrain => s.readers == {}
                       case DWait(d, _) => d < |s.detectors| && s.detectors[d].phase == Done
                       case _ => true
  }

  predicate Can(s: State, a: Action) {
    match a
    case Start(t) => t < |s.threads| && s.threads[t] == Idle
    case Shutdown(t) => t < |s.threads| && s.threads[t] == Idle
    case Read(t) => t < |s.threads| && s.threads[t] == Idle
    case Allow(t) => t < |s.threads| && s.threads[t] == Idle
    case Go(t, _) => Enabled(s, t)
    case LoopSeesStop(d) => d < |s.detectors| && s.detectors[d].phase == Running && s.detectors[d].stops > 0
    case TakeHandle(r) => r < |s.registries|
    case Derive(h) => h < |s.handles|
  }

  function Goto(s: State, t: nat, p: Pc): State
    requires t < |s.threads|
  {
    s.(threads := s.threads[t := p])
  }

  function Lock(s: State, t: nat, p: Pc): State
    requires t < |s.threads|
  {
    Goto(s, t, p).(mu := Some(t))
  }

  function Unlock(s: State, t: nat, p: Pc): State
    requires t < |s.threads|
  {
    Goto(s, t, p).(mu := None)
  }

  function ReadLock(s: State, t: nat, p: Pc): State
    requires t < |s.threads|
  {
    Goto(s, t, p).(readers := s.readers + {t})
  }

  function ReadUnlock(s: State, t: nat, p: Pc): State
    requires t < |s.threads|
  {
    Goto(s, t, p).(readers := s.readers - {t})
  }

  function Listed(o: Option<nat>): seq<nat> {
    if o.Some? then [o.value] else []
  }

  const NOTHING: Built := Built(None, None, None, 0, None)

  /** A new resource in the hands of thread `t`. */
  function Make(s: State, t: nat, kind: Kind): State {
    s.(resources := s.resources + [Resource(kind, 0, Thread(t))])
  }

  function SetOwner(rs: seq<Resource>, o: Option<nat>, w: Owner): (r: seq<Resource>)
    ensures |r| == |rs|
  {
    if o.Some? && o.value < |rs| then rs[o.value := rs[o.value].(owner := w)] else rs
  }

  function SetOwners(rs: seq<Resource>, metric: Option<nat>, trace: Option<nat>, monitor: Option<nat>, w: Owner): (r: seq<Resource>)
    ensures |r| == |rs|
  {
    SetOwner(SetOwner(SetOwner(rs, metric, w), trace, w), monitor, w)
  }

  // Updates of one resource or detector; `None` and unused indices change nothing.

  function ShutDown(rs: seq<Resource>, r: nat): (q: seq<Resource>)
    ensures |q| == |rs|
  {
    if r < |rs| then rs[r := rs[r].(released := rs[r].released + 1, owner := Nobody)] else rs
  }

  function SetInstalled(ds: seq<Detector>, o: Option<nat>): (q: seq<Detector>)
    ensures |q| == |ds|
  {
    if o.Some? && o.value < |ds| then ds[o.value := ds[o.value].(installed := true)] else ds
  }

  function SetStopper(ds: seq<Detector>, o: Option<nat>, t: nat): (q: seq<Detector>)
    ensures |q| == |ds|
  {
    if o.Some? && o.value < |ds| then ds[o.value := ds[o.value].(stopper := Some(t))] else ds
  }

  /** `go d.run()`. */
  function Spawn(ds: seq<Detector>, o: Option<nat>): (q: seq<Detector>)
    ensures |q| == |ds|
  {
    if o.Some? && o.value < |ds|
    then ds[o.value := ds[o.value].(spawned := ds[o.value].spawned + 1, phase := Running)] else ds
  }

  /** `close(d.stopCh)`. */
  function Close(ds: seq<Detector>, d: nat): (q: seq<Detector>)
    ensures |q| == |ds|
  {
    if d < |ds| then ds[d := ds[d].(stops := ds[d].stops + 1)] else ds
  }

  predicate Building(p: Pc) {
    p.SMetric? || p.STrace? || p.SAllow? || p.SCopy? || p.SBuild? || p.SMonitor?
  }

  /** initProviders, the copy of the allowed labels under the read lock, the cache and detector,
      which nobody else sees yet, startMonitor. */
  function ExecBuild(c: Config, s: State, t: nat, ok: bool): State
    requires t < |s.threads| && Building(s.threads[t])
  {
    match s.threads[t]
    case SMetric =>
      if !c.otlp then Goto(s, t, SAllow(NOTHING))
      else if !ok then Goto(s, t, Idle)
      else Make(Goto(s, t, STrace(NOTHING.(metric := Some(|s.resources|)))), t, MetricProvider)
    case STrace(b) =>
      if !ok then Goto(s, t, Release(Listed(b.metric), false))
      else Make(Goto(s, t, SAllow(b.(trace := Some(|s.resources|)))), t, TraceProvider)
    case SAllow(b) => ReadLock(s, t, SCopy(b))
    case SCopy(b) => ReadUnlock(s, t, SBuild(b))
    case SBuild(b) =>
      var cache := |s.caches|;
      var s1 := s.(caches := s.caches + [NormMax(c.maxCardinality)]);
      if !c.detector then Goto(s1, t, SMonitor(b.(cache := cache)))
      else Goto(s1, t, SMonitor(b.(cache := cache, detector := Some(|s.detectors|))))
           .(detectors := s.detectors + [Detector(cache, NormMax(c.maxCardinality), 0, 0, NotStarted, t, false, None)])
    case SMonitor(b) =>
      if !c.monitor then Goto(s, t, SRelock(b))
      else if !ok then Goto(s, t, Release(Listed(b.metric) + Listed(b.trace), true))
      else Make(Goto(s, t, SRelock(b.(monitor := Some(|s.resources|)))), t, Monitor)
    case _ => s
  }

  predicate Starting(p: Pc) {
    p.SLock? || p.SDrain? || p.SCheck? || p.SRelock? || p.SRedrain? || p.SRecheck? || p.SBump? || p.SInstall? || p.SBind? || p.SSpawn?
  }

  /** The two critical sections of Start and what follows them. */
  function ExecStart(c: Config, s: State, t: nat): State
    requires t < |s.threads| && Starting(s.threads[t])
  {
    match s.threads[t]
    case SLock => Lock(s, t, SDrain)
    case SDrain => Goto(s, t, SCheck)
    case SCheck => Unlock(s, t, if s.core.started then Idle else SMetric)
    case SRelock(b) => Lock(s, t, SRedrain(b))
    case SRedrain(b) => Goto(s, t, SRecheck(b))
    case SRecheck(b) =>
      if s.core.started then Unlock(s, t, Release(Listed(b.monitor) + Listed(b.metric) + Listed(b.trace), false))
      else Goto(s, t, SBump(b))
    case SBump(b) => Goto(s, t, SInstall(b)).(epoch := s.epoch + 1)
    case SInstall(b) =>
      Unlock(s, t, SBind(b))
      .(core := Core(true, |s.registries|, b.metric, b.trace, b.monitor, b.detector),
        registries := s.registries + [Registry(s.epoch, b.cache, b.metric)],
        resources := SetOwners(s.resources, b.metric, b.trace, b.monitor, Telemetry),
        detectors := SetInstalled(s.detectors, b.detector))
    case SBind(b) => Goto(s, t, SSpawn(b))
    case SSpawn(b) => Goto(s, t, Idle).(detectors := Spawn(s.detectors, b.detector))
    case _ => s
  }

  predicate Stopping(p: Pc) {
    p.DLock? || p.DDrain? || p.DCheck? || p.DBump? || p.DDetach? || p.DStop? || p.DWait? || p.Release?
  }

  /** Shutdown, and the shutting down of resources one after the other. */
  function ExecStop(c: Config, s: State, t: nat): State
    requires t < |s.threads| && Stopping(s.threads[t])
  {
    match s.threads[t]
    case DLock => Lock(s, t, DDrain)
    case DDrain => Goto(s, t, DCheck)
    case DCheck => if !s.core.started then Unlock(s, t, Idle) else Goto(s, t, DBump)
    case DBump => Goto(s, t, DDetach).(epoch := s.epoch + 1, core := s.core.(started := false))
    case DDetach =>
      var k := s.core;
      Unlock(s, t, DStop(k.detector, Listed(k.metric) + Listed(k.trace) + Listed(k.monitor)))
      .(core := Core(false, |s.registries|, None, None, None, None),
        caches := s.caches + [DEFAULT_MAX_CARDINALITY],
        registries := s.registries + [Registry(s.epoch, |s.caches|, None)],
        resources := SetOwners(s.resources, k.metric, k.trace, k.monitor, Thread(t)),
        detectors := SetStopper(s.detectors, k.detector, t))
    case DStop(d, todo) =>
      if d.None? then Goto(s, t, Release(todo, false))
      else Goto(s, t, DWait(d.value, todo)).(detectors := Close(s.detectors, d.value))
    case DWait(d, todo) => Goto(s, t, Release(todo, false))
    case Release(todo, relock) =>
      if todo == [] then Goto(s, t, if relock then ALock else Idle)
      else Goto(s, t, Release(todo[1..], relock)).(resources := ShutDown(s.resources, todo[0]))
    case _ => s
  }

  predicate Visiting(p: Pc) {
    p.RLock? || p.RHold? || p.ALock? || p.ADrain? || p.AHold?
  }

  /** The critical sections that change nothing modelled here. */
  function ExecVisit(s: State, t: nat): State
    requires t < |s.threads| && Visiting(s.threads[t])
  {
    match s.threads[t]
    case RLock => ReadLock(s, t, RHold)
    case RHold => ReadUnlock(s, t, Idle)
    case ALock => Lock(s, t, ADrain)
    case ADrain => Goto(s, t, AHold)
    case AHold => Unlock(s, t, Idle)
    case _ => s
  }

  function Exec(c: Config, s: State, t: nat, ok: bool): State
    requires t < |s.threads|
  {
    var p := s.threads[t];
    if Building(p) then ExecBuild(c, s, t, ok)
    else if Starting(p) then ExecStart(c, s, t)
    else if Stopping(p) then ExecStop(c, s, t)
    else if Visiting(p) then ExecVisit(s, t)
    else s
  }

  function Apply(c: Config, s: State, a: Action): State
    requires Can(s, a)
  {
    match a
    case Start(t) => Goto(s, t, SLock)
    case Shutdown(t) => Goto(s, t, DLock)
    case Read(t) => Goto(s, t, RLock)
    case Allow(t) => Goto(s, t, ALock)
    case Go(t, ok) => Exec(c, s, t, ok)
    case LoopSeesStop(d) => s.(detectors := s.detectors[d := s.detectors[d].(phase := Done)])
    case TakeHandle(r) => s.(handles := s.handles + [Handle(r, s.registries[r].epoch)])
    case Derive(h) => s.(handles := s.handles + [s.handles[h]])
  }

  ghost predicate IsRun(c: Config, tr: seq<State>, acts: seq<Action>) {
    && |tr| == |acts| + 1 && Init(tr[0])
    && forall i :: 0 <= i < |acts| ==> Can(tr[i], acts[i]) && tr[i + 1] == Apply(c, tr[i], acts[i])
  }
}
