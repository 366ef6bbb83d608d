/** The detector's goroutine and the agreement of its cap with the cache's, over all
    interleavings of Start and Shutdown. */
module LifecycleDetectors {
  import opened Labels
  import opened LifecycleMachine
  import opened LifecycleEpochs

  /** Start has built detector `d` and not published it. */
  predicate Unpublished(p: Pc, d: nat) {
    (p.SMonitor? || p.SRelock? || p.SRedrain? || p.SRecheck? || p.SBump? || p.SInstall?) && p.b.detector == Some(d)
  }

  /** Start has published detector `d` and not yet started its loop. */
  predicate Spawning(p: Pc, d: nat) {
    (p.SBind? || p.SSpawn?) && p.b.detector == Some(d)
  }

  /** Shutdown has taken detector `d` and not yet closed its stop channel. */
  predicate Closing(p: Pc, d: nat) {
    p.DStop? && p.detector == Some(d)
  }

  predicate Waiting(p: Pc, d: nat) {
    p.DWait? && p.d == d
  }

  /** What a thread's program counter says about a detector it deals with. */
  ghost predicate PcOk(ds: seq<Detector>, caches: seq<nat>, t: nat, p: Pc) {
    && (p.SMonitor? || p.SRelock? || p.SRedrain? || p.SRecheck? || p.SBump? || p.SInstall? ==> p.b.cache < |caches|)
    && (p.STrace? || p.SAllow? || p.SCopy? || p.SBuild? ==> p.b.detector == None)
    && (forall d: nat :: Unpublished(p, d) ==> d < |ds| && Fresh(ds[d], t) && ds[d].cache == p.b.cache)
    && (forall d: nat :: Spawning(p, d) ==> d < |ds| && ds[d].maker == t && ds[d].installed && ds[d].spawned == 0)
    && (forall d: nat :: Closing(p, d) ==> d < |ds| && ds[d].stopper == Some(t) && ds[d].stops == 0)
    && (forall d: nat :: Waiting(p, d) ==> d < |ds| && ds[d].stopper == Some(t) && ds[d].stops == 1)
  }

  predicate Fresh(x: Detector, t: nat) {
    x.maker == t && !x.installed && x.spawned == 0 && x.stops == 0 && x.stopper == None
  }

  /** A detector through its life: never spawned or stopped twice; published and not spawned
      means its maker is about to spawn it; its cap is its cache's cap. */
  ghost predicate DetectorOk(x: Detector, d: nat, ts: seq<Pc>, caches: seq<nat>) {
    && x.spawned <= 1 && x.stops <= 1
    && (x.phase == NotStarted <==> x.spawned == 0)
    && (x.phase == Done ==> x.stops == 1)
    && (x.stops > 0 || x.spawned > 0 || x.stopper.Some? ==> x.installed)
    && (x.stopper == None ==> x.stops == 0)
    && (x.installed && x.spawned == 0 ==> x.maker < |ts| && Spawning(ts[x.maker], d))
    && x.cache < |caches| && caches[x.cache] == x.maxCardinality
  }

  ghost predicate DetectorsOk(s: State) {
    && (forall t: nat :: t < |s.threads| ==> PcOk(s.detectors, s.caches, t, s.threads[t]))
    && (forall d: nat :: d < |s.detectors| ==> DetectorOk(s.detectors[d], d, s.threads, s.caches))
  }

  /** The published detector is running or about to, nobody has stopped it, and it watches the
      current registry's cache. */
  ghost predicate HeldOk(s: State) {
    && (s.core.detector.Some? ==>
          var d := s.core.detector.value;
          d < |s.detectors| && s.detectors[d].installed && s.detectors[d].stopper == None)
    && (s.core.detector.Some? && !Switching(Holder(s)) ==>
          var d := s.core.detector.value;
          s.core.registry < |s.registries| && s.detectors[d].cache == s.registries[s.core.registry].cache)
    && (s.core.detector == None || s.core.started || Holder(s).DDetach?)
    && (forall r: nat :: r < |s.registries| ==> s.registries[r].cache < |s.caches|)
  }

  ghost predicate AllOk(s: State) {
    EpochOk(s) && DetectorsOk(s) && HeldOk(s)
  }

  // ----- steps that leave the detectors alone -----

  lemma QuietDetectors(s: State, t: nat, p: Pc, s': State)
    requires DetectorsOk(s) && t < |s.threads| && s'.threads == s.threads[t := p]
    requires s'.detectors == s.detectors && s.caches <= s'.caches
    requires PcOk(s.detectors, s'.caches, t, p)
    requires forall d: nat :: Spawning(s.threads[t], d) && d < |s.detectors| && s.detectors[d].spawned == 0 ==> Spawning(p, d)
    ensures DetectorsOk(s')
  {
    forall u: nat | u < |s'.threads| ensures PcOk(s'.detectors, s'.caches, u, s'.threads[u]) {
      assert PcOk(s.detectors, s.caches, u, s.threads[u]);
    }
    forall d: nat | d < |s'.detectors| ensures DetectorOk(s'.detectors[d], d, s'.threads, s'.caches) {
      assert DetectorOk(s.detectors[d], d, s.threads, s.caches);
    }
  }

  /** A thread that deals with no detector it did not deal with before. */
  lemma Follows(ds: seq<Detector>, caches: seq<nat>, t: nat, q: Pc, p: Pc)
    requires PcOk(ds, caches, t, q)
    requires p.SMonitor? || p.SRelock? || p.SRedrain? || p.SRecheck? || p.SBump? || p.SInstall? ==> p.b.cache < |caches|
    requires p.STrace? || p.SAllow? || p.SCopy? || p.SBuild? ==> p.b.detector == None
    requires forall d: nat :: Unpublished(p, d) ==> Unpublished(q, d) && p.b.cache == q.b.cache
    requires forall d: nat :: Spawning(p, d) ==> Spawning(q, d)
    requires forall d: nat :: Closing(p, d) ==> Closing(q, d)
    requires forall d: nat :: Waiting(p, d) ==> Waiting(q, d)
    ensures PcOk(ds, caches, t, p)
  {
  }

  lemma NewDetector(c: Config, s: State, t: nat)
    requires DetectorsOk(s) && t < |s.threads| && s.threads[t].SBuild? && c.detector
    ensures DetectorsOk(ExecBuild(c, s, t, true))
  {
    var s' := ExecBuild(c, s, t, true);
    forall u: nat | u < |s'.threads| ensures PcOk(s'.detectors, s'.caches, u, s'.threads[u]) {
      assert PcOk(s.detectors, s.caches, u, s.threads[u]);
    }
    forall d: nat | d < |s'.detectors| ensures DetectorOk(s'.detectors[d], d, s'.threads, s'.caches) {
      if d < |s.detectors| {
        assert DetectorOk(s.detectors[d], d, s.threads, s.caches);
      }
    }
  }

  lemma BuildDetectors(c: Config, s: State, t: nat, ok: bool)
    requires DetectorsOk(s) && t < |s.threads| && Building(s.threads[t])
    ensures DetectorsOk(ExecBuild(c, s, t, ok))
  {
    assert PcOk(s.detectors, s.caches, t, s.threads[t]);
    if s.threads[t].SBuild? && c.detector {
      NewDetector(c, s, t);
    } else {
      var s' := ExecBuild(c, s, t, ok);
      Follows(s.detectors, s'.caches, t, s.threads[t], s'.threads[t]);
      QuietDetectors(s, t, s'.threads[t], s');
    }
  }

  lemma InstallPc(s: State, t: nat, u: nat)
    requires DetectorsOk(s) && t < |s.threads| && s.threads[t].SInstall? && u < |s.threads|
    ensures var q := s.threads[t];
            PcOk(SetInstalled(s.detectors, q.b.detector), s.caches, u, if u == t then SBind(q.b) else s.threads[u])
  {
    var b := s.threads[t].b;
    assert PcOk(s.detectors, s.caches, t, s.threads[t]);
    assert b.detector.Some? ==> Unpublished(s.threads[t], b.detector.value);
    assert PcOk(s.detectors, s.caches, u, s.threads[u]);
  }

  lemma InstallDetector(s: State, t: nat, d: nat)
    requires DetectorsOk(s) && t < |s.threads| && s.threads[t].SInstall? && d < |s.detectors|
    ensures var b := s.threads[t].b;
            DetectorOk(SetInstalled(s.detectors, b.detector)[d], d, s.threads[t := SBind(b)], s.caches)
  {
    var b := s.threads[t].b;
    assert PcOk(s.detectors, s.caches, t, s.threads[t]);
    assert b.detector.Some? ==> Unpublished(s.threads[t], b.detector.value);
    assert DetectorOk(s.detectors[d], d, s.threads, s.caches);
  }

  lemma InstallDetectors(c: Config, s: State, t: nat)
    requires DetectorsOk(s) && t < |s.threads| && s.threads[t].SInstall?
    ensures DetectorsOk(ExecStart(c, s, t))
  {
    var s' := ExecStart(c, s, t);
    forall u: nat | u < |s'.threads| ensures PcOk(s'.detectors, s'.caches, u, s'.threads[u]) {
      InstallPc(s, t, u);
    }
    forall d: nat | d < |s'.detectors| ensures DetectorOk(s'.detectors[d], d, s'.threads, s'.caches) {
      InstallDetector(s, t, d);
    }
  }

  lemma SpawnDetectors(c: Config, s: State, t: nat)
    requires DetectorsOk(s) && t < |s.threads| && s.threads[t].SSpawn?
    ensures DetectorsOk(ExecStart(c, s, t))
  {
    var s' := ExecStart(c, s, t);
    var b := s.threads[t].b;
    assert PcOk(s.detectors, s.caches, t, s.threads[t]);
    if b.detector.Some? {
      var x := b.detector.value;
      assert Spawning(s.threads[t], x);
      assert DetectorOk(s.detectors[x], x, s.threads, s.caches);
      forall u: nat | u < |s.threads| && u != t ensures !Unpublished(s.threads[u], x) && !Spawning(s.threads[u], x) {
        assert PcOk(s.detectors, s.caches, u, s.threads[u]);
      }
      forall u: nat | u < |s'.threads| ensures PcOk(s'.detectors, s'.caches, u, s'.threads[u]) {
        assert PcOk(s.detectors, s.caches, u, s.threads[u]);
      }
      forall d: nat | d < |s'.detectors| ensures DetectorOk(s'.detectors[d], d, s'.threads, s'.caches) {
        assert DetectorOk(s.detectors[d], d, s.threads, s.caches);
      }
    } else {
      QuietDetectors(s, t, Idle, s');
    }
  }

  lemma StartDetectors(c: Config, s: State, t: nat)
    requires DetectorsOk(s) && t < |s.threads| && Starting(s.threads[t])
    ensures DetectorsOk(ExecStart(c, s, t))
  {
    assert PcOk(s.detectors, s.caches, t, s.threads[t]);
    if s.threads[t].SInstall? {
      InstallDetectors(c, s, t);
    } else if s.threads[t].SSpawn? {
      SpawnDetectors(c, s, t);
    } else {
      var s' := ExecStart(c, s, t);
      Follows(s.detectors, s'.caches, t, s.threads[t], s'.threads[t]);
      QuietDetectors(s, t, s'.threads[t], s');
    }
  }

  /** What Shutdown leaves its goroutine at when it detaches. */
  function Detached(s: State): Pc {
    DStop(s.core.detector, Listed(s.core.metric) + Listed(s.core.trace) + Listed(s.core.monitor))
  }

  lemma DetachPc(s: State, t: nat, u: nat)
    requires DetectorsOk(s) && HeldOk(s) && t < |s.threads| && s.threads[t].DDetach? && u < |s.threads|
    ensures PcOk(SetStopper(s.detectors, s.core.detector, t), s.caches + [DEFAULT_MAX_CARDINALITY], u,
                 if u == t then Detached(s) else s.threads[u])
  {
    assert PcOk(s.detectors, s.caches, u, s.threads[u]);
    if s.core.detector.Some? {
      assert DetectorOk(s.detectors[s.core.detector.value], s.core.detector.value, s.threads, s.caches);
    }
  }

  lemma DetachDetector(s: State, t: nat, d: nat)
    requires DetectorsOk(s) && HeldOk(s) && t < |s.threads| && s.threads[t].DDetach? && d < |s.detectors|
    ensures DetectorOk(SetStopper(s.detectors, s.core.detector, t)[d], d, s.threads[t := Detached(s)],
                       s.caches + [DEFAULT_MAX_CARDINALITY])
  {
    assert DetectorOk(s.detectors[d], d, s.threads, s.caches);
  }

  lemma DetachDetectors(c: Config, s: State, t: nat)
    requires DetectorsOk(s) && HeldOk(s) && t < |s.threads| && s.threads[t].DDetach?
    ensures DetectorsOk(ExecStop(c, s, t))
  {
    var s' := ExecStop(c, s, t);
    forall u: nat | u < |s'.threads| ensures PcOk(s'.detectors, s'.caches, u, s'.threads[u]) {
      DetachPc(s, t, u);
    }
    forall d: nat | d < |s'.detectors| ensures DetectorOk(s'.detectors[d], d, s'.threads, s'.caches) {
      DetachDetector(s, t, d);
    }
  }

  lemma CloseDetectors(c: Config, s: State, t: nat)
    requires DetectorsOk(s) && t < |s.threads| && s.threads[t].DStop?
    ensures DetectorsOk(ExecStop(c, s, t))
  {
    var s' := ExecStop(c, s, t);
    assert PcOk(s.detectors, s.caches, t, s.threads[t]);
    if s.threads[t].detector.Some? {
      var x := s.threads[t].detector.value;
      assert Closing(s.threads[t], x);
      forall u: nat | u < |s'.threads| ensures PcOk(s'.detectors, s'.caches, u, s'.threads[u]) {
        assert PcOk(s.detectors, s.caches, u, s.threads[u]);
      }
      forall d: nat | d < |s'.detectors| ensures DetectorOk(s'.detectors[d], d, s'.threads, s'.caches) {
        assert DetectorOk(s.detectors[d], d, s.threads, s.caches);
      }
    } else {
      QuietDetectors(s, t, s'.threads[t], s');
    }
  }

  /** The program counter deals with no detector. */
  predicate Indifferent(p: Pc) {
    p == Idle || Entering(p) || Visiting(p) || p.DDrain? || p.DCheck? || p.DBump? || p.DDetach? || p.Release?
  }

  lemma IndifferentOk(ds: seq<Detector>, caches: seq<nat>, t: nat, p: Pc)
    requires Indifferent(p)
    ensures PcOk(ds, caches, t, p) && forall d: nat :: !Spawning(p, d)
  {
  }

  lemma ReleaseDetectors(c: Config, s: State, t: nat)
    requires DetectorsOk(s) && t < |s.threads| && Stopping(s.threads[t]) && !s.threads[t].DDetach? && !s.threads[t].DStop?
    ensures DetectorsOk(ExecStop(c, s, t))
  {
    IndifferentOk(s.detectors, s.caches, t, ExecStop(c, s, t).threads[t]);
    QuietDetectors(s, t, ExecStop(c, s, t).threads[t], ExecStop(c, s, t));
  }

  lemma StopDetectors(c: Config, s: State, t: nat)
    requires DetectorsOk(s) && HeldOk(s) && t < |s.threads| && Stopping(s.threads[t])
    ensures DetectorsOk(ExecStop(c, s, t))
  {
    if s.threads[t].DDetach? {
      DetachDetectors(c, s, t);
    } else if s.threads[t].DStop? {
      CloseDetectors(c, s, t);
    } else {
      ReleaseDetectors(c, s, t);
    }
  }

  lemma LoopDetectors(s: State, d: nat, s': State)
    requires DetectorsOk(s) && d < |s.detectors| && s.detectors[d].phase == Running && s.detectors[d].stops > 0
    requires s' == s.(detectors := s.detectors[d := s.detectors[d].(phase := Done)])
    ensures DetectorsOk(s')
  {
    forall u: nat | u < |s'.threads| ensures PcOk(s'.detectors, s'.caches, u, s'.threads[u]) {
      assert PcOk(s.detectors, s.caches, u, s.threads[u]);
    }
    forall x: nat | x < |s'.detectors| ensures DetectorOk(s'.detectors[x], x, s'.threads, s'.caches) {
      assert DetectorOk(s.detectors[x], x, s.threads, s.caches);
    }
  }

  // ----- the published detector -----

  lemma PassingHeld(s: State, t: nat, p: Pc, s': State)
    requires MutexOk(s) && HeldOk(s) && Passing(s, t, p, s') && s.caches <= s'.caches
    requires |s'.detectors| >= |s.detectors|
    requires forall d: nat :: d < |s.detectors| ==> SameButLoop(s.detectors[d], s'.detectors[d])
    ensures HeldOk(s')
  {
    MutexMove(s, t, p, s');
  }

  /** Only the loop's own fields differ. */
  predicate SameButLoop(x: Detector, y: Detector) {
    y.cache == x.cache && y.installed == x.installed && y.stopper == x.stopper
  }

  lemma InstallHeld(c: Config, s: State, t: nat)
    requires HeldOk(s) && t < |s.threads| && s.threads[t].SInstall?
    requires PcOk(s.detectors, s.caches, t, s.threads[t])
    ensures HeldOk(ExecStart(c, s, t))
  {
    var b := s.threads[t].b;
    assert b.detector.Some? ==> Unpublished(s.threads[t], b.detector.value);
  }

  lemma BumpHeld(s: State, t: nat, p: Pc, s': State)
    requires EpochOk(s) && HeldOk(s) && MutexMoves(s, t, p, s') && Switching(p)
    requires (s.threads[t].SBump? && p.SInstall? && s'.core == s.core)
             || (s.threads[t].DBump? && p == DDetach && s'.core == s.core.(started := false))
    requires s'.detectors == s.detectors && s'.caches == s.caches && s'.registries == s.registries
    ensures HeldOk(s')
  {
    MutexMove(s, t, p, s');
  }

  lemma StartHeld(c: Config, s: State, t: nat)
    requires AllOk(s) && Enabled(s, t) && Starting(s.threads[t])
    ensures HeldOk(ExecStart(c, s, t))
  {
    var s' := ExecStart(c, s, t);
    if s.threads[t].SInstall? {
      assert PcOk(s.detectors, s.caches, t, s.threads[t]);
      InstallHeld(c, s, t);
    } else if s.threads[t].SBump? {
      BumpHeld(s, t, s'.threads[t], s');
    } else {
      StartPasses(c, s, t);
      PassingHeld(s, t, s'.threads[t], s');
    }
  }

  lemma DetachHeld(c: Config, s: State, t: nat)
    requires AllOk(s) && t < |s.threads| && s.threads[t].DDetach?
    ensures HeldOk(ExecStop(c, s, t))
  {
  }

  lemma StopBumpHeld(c: Config, s: State, t: nat)
    requires EpochOk(s) && HeldOk(s) && t < |s.threads| && s.threads[t].DBump?
    ensures HeldOk(ExecStop(c, s, t))
  {
    BumpHeld(s, t, DDetach, ExecStop(c, s, t));
  }

  lemma StopHeld(c: Config, s: State, t: nat)
    requires AllOk(s) && Enabled(s, t) && Stopping(s.threads[t])
    ensures HeldOk(ExecStop(c, s, t))
  {
    if s.threads[t].DDetach? {
      DetachHeld(c, s, t);
    } else if s.threads[t].DBump? {
      StopBumpHeld(c, s, t);
    } else {
      StopPasses(c, s, t);
      PassingHeld(s, t, ExecStop(c, s, t).threads[t], ExecStop(c, s, t));
    }
  }

  lemma BuildHeld(c: Config, s: State, t: nat, ok: bool)
    requires MutexOk(s) && HeldOk(s) && t < |s.threads| && Building(s.threads[t])
    ensures HeldOk(ExecBuild(c, s, t, ok))
  {
    BuildPasses(c, s, t, ok);
    PassingHeld(s, t, ExecBuild(c, s, t, ok).threads[t], ExecBuild(c, s, t, ok));
  }

  /** A thread that deals with no detector passes. */
  lemma PassingAll(s: State, t: nat, p: Pc, s': State)
    requires AllOk(s) && Passing(s, t, p, s') && s'.detectors == s.detectors && s'.caches == s.caches
    requires (s.threads[t] == Idle && Entering(p)) || (Visiting(s.threads[t]) && (Visiting(p) || p == Idle))
    ensures AllOk(s')
  {
    PassingEpoch(s, t, p, s');
    IndifferentOk(s.detectors, s.caches, t, p);
    QuietDetectors(s, t, p, s');
    PassingHeld(s, t, p, s');
  }

  lemma GoAll(c: Config, s: State, t: nat, ok: bool)
    requires AllOk(s) && Enabled(s, t)
    ensures AllOk(Exec(c, s, t, ok))
  {
    GoEpoch(c, s, t, ok);
    if Building(s.threads[t]) {
      BuildDetectors(c, s, t, ok);
      BuildHeld(c, s, t, ok);
    } else if Starting(s.threads[t]) {
      StartDetectors(c, s, t);
      StartHeld(c, s, t);
    } else if Stopping(s.threads[t]) {
      StopDetectors(c, s, t);
      StopHeld(c, s, t);
    } else {
      VisitPasses(s, t);
      PassingAll(s, t, ExecVisit(s, t).threads[t], ExecVisit(s, t));
    }
  }

  lemma BeginAll(s: State, t: nat, p: Pc)
    requires AllOk(s) && t < |s.threads| && s.threads[t] == Idle && Entering(p)
    ensures AllOk(Goto(s, t, p))
  {
    BeginPasses(s, t, p);
    PassingAll(s, t, p, Goto(s, t, p));
  }

  lemma AllStep(c: Config, s: State, a: Action)
    requires AllOk(s) && Can(s, a)
    ensures AllOk(Apply(c, s, a))
  {
    match a
    case Go(t, ok) => GoAll(c, s, t, ok);
    case Start(t) => BeginAll(s, t, SLock);
    case Shutdown(t) => BeginAll(s, t, DLock);
    case Read(t) => BeginAll(s, t, RLock);
    case Allow(t) => BeginAll(s, t, ALock);
    case LoopSeesStop(d) =>
      EpochStep(c, s, a);
      LoopDetectors(s, d, Apply(c, s, a));
    case TakeHandle(_) => EpochStep(c, s, a);
    case Derive(_) => EpochStep(c, s, a);
  }

  lemma {:induction false} AllRun(c: Config, tr: seq<State>, acts: seq<Action>, i: nat)
    requires IsRun(c, tr, acts) && i < |tr|
    ensures AllOk(tr[i])
  {
    if i > 0 {
      AllRun(c, tr, acts, i - 1);
      AllStep(c, tr[i - 1], acts[i - 1]);
    }
  }

  // ----- over whole runs -----

  /** No detector's loop is spawned twice and no stop channel is closed twice. */
  lemma HandshakeAtMostOnce(c: Config, tr: seq<State>, acts: seq<Action>, i: nat, d: nat)
    requires IsRun(c, tr, acts) && i < |tr| && d < |tr[i].detectors|
    ensures tr[i].detectors[d].spawned <= 1 && tr[i].detectors[d].stops <= 1
  {
    AllRun(c, tr, acts, i);
    assert DetectorOk(tr[i].detectors[d], d, tr[i].threads, tr[i].caches);
  }

  /** The steps other goroutines still have to take before a Shutdown waiting for detector `d`
      can go on: Start binds its monitor, Start spawns the loop, the loop sees the stop. */
  function Remaining(s: State, d: nat): seq<Action>
    requires d < |s.detectors|
  {
    var x := s.detectors[d];
    if x.phase == Done then []
    else if x.phase == Running then [LoopSeesStop(d)]
    else if x.maker < |s.threads| && s.threads[x.maker].SBind? then [Go(x.maker, true), Go(x.maker, true), LoopSeesStop(d)]
    else [Go(x.maker, true), LoopSeesStop(d)]
  }

  /** The state after the actions, when each of them can happen in turn. */
  function After(c: Config, s: State, acts: seq<Action>): Option<State>
    decreases |acts|
  {
    if acts == [] then Some(s)
    else if !Can(s, acts[0]) then None
    else After(c, Apply(c, s, acts[0]), acts[1..])
  }

  /** No reachable state is stuck with Shutdown waiting on the detector, even when it slipped
      in between Start's unlock and the spawning of the loop: at most three steps of others,
      each possible in turn and none of them blocking, let it go on. */
  lemma ShutdownIsNeverStuck(c: Config, tr: seq<State>, acts: seq<Action>, i: nat, t: nat)
    requires IsRun(c, tr, acts) && i < |tr| && t < |tr[i].threads| && tr[i].threads[t].DWait?
    ensures tr[i].threads[t].d < |tr[i].detectors|
    ensures var rest := Remaining(tr[i], tr[i].threads[t].d);
            |rest| <= 3 && var r := After(c, tr[i], rest); r.Some? && Enabled(r.value, t)
  {
    var s := tr[i];
    AllRun(c, tr, acts, i);
    var d := s.threads[t].d;
    assert PcOk(s.detectors, s.caches, t, s.threads[t]) && Waiting(s.threads[t], d);
    assert DetectorOk(s.detectors[d], d, s.threads, s.caches);
    var x := s.detectors[d];
    if x.phase == Running {
      Unfold1(c, s, LoopSeesStop(d));
    } else if x.phase == NotStarted {
      var g := Go(x.maker, true);
      assert Spawning(s.threads[x.maker], d);
      if s.threads[x.maker].SBind? {
        var s1 := Apply(c, s, g);
        assert Spawning(s1.threads[x.maker], d) && s1.detectors == s.detectors;
        Unfold1(c, Apply(c, s1, g), LoopSeesStop(d));
        Unfold(c, s1, g, [LoopSeesStop(d)]);
        Unfold(c, s, g, [g, LoopSeesStop(d)]);
      } else {
        Unfold1(c, Apply(c, s, g), LoopSeesStop(d));
        Unfold(c, s, g, [LoopSeesStop(d)]);
      }
    }
  }

  lemma Unfold(c: Config, s: State, a: Action, rest: seq<Action>)
    requires Can(s, a)
    ensures After(c, s, [a] + rest) == After(c, Apply(c, s, a), rest)
  {
    assert ([a] + rest)[1..] == rest;
  }

  lemma Unfold1(c: Config, s: State, a: Action)
    requires Can(s, a)
    ensures After(c, s, [a]) == Some(Apply(c, s, a))
  {
    Unfold(c, s, a, []);
    assert [a] + [] == [a];
  }

  // ----- readers -----

  predicate HoldsRead(p: Pc) {
    p.SCopy? || p.RHold?
  }

  /** The readers are those inside a read-locked section, and no writer is past its wait then. */
  ghost predicate ReadersOk(s: State) {
    && (forall t: nat :: t in s.readers <==> ReadsAt(s.threads, t))
    && (s.readers != {} ==> Free(s))
  }

  predicate ReadsAt(ts: seq<Pc>, t: nat) {
    t < |ts| && HoldsRead(ts[t])
  }

  /** How one step moves the readers. */
  ghost predicate ReadersMove(s: State, t: nat, p: Pc, s': State)
    requires t < |s.threads|
  {
    && (if HoldsRead(p) && !HoldsRead(s.threads[t]) then s.mu == None && s'.readers == s.readers + {t}
        else if HoldsRead(s.threads[t]) && !HoldsRead(p) then s'.readers == s.readers - {t}
        else s'.readers == s.readers)
    && (Critical(p) && !Draining(p) ==>
          Critical(s.threads[t]) && (Draining(s.threads[t]) ==> s.readers == {}))
  }

  lemma BuildMovesReaders(c: Config, s: State, t: nat, ok: bool)
    requires Enabled(s, t) && Building(s.threads[t])
    ensures var s' := ExecBuild(c, s, t, ok);
            |s'.threads| == |s.threads| && ReadersMove(s, t, s'.threads[t], s')
  {
  }

  lemma StartMovesReaders(c: Config, s: State, t: nat)
    requires Enabled(s, t) && Starting(s.threads[t])
    ensures var s' := ExecStart(c, s, t);
            |s'.threads| == |s.threads| && ReadersMove(s, t, s'.threads[t], s')
  {
  }

  lemma StopMovesReaders(c: Config, s: State, t: nat)
    requires Enabled(s, t) && Stopping(s.threads[t])
    ensures var s' := ExecStop(c, s, t);
            |s'.threads| == |s.threads| && ReadersMove(s, t, s'.threads[t], s')
  {
  }

  lemma VisitMovesReaders(s: State, t: nat)
    requires Enabled(s, t) && Visiting(s.threads[t])
    ensures var s' := ExecVisit(s, t);
            |s'.threads| == |s.threads| && ReadersMove(s, t, s'.threads[t], s')
  {
  }

  lemma GoReaders(c: Config, s: State, t: nat, ok: bool)
    requires MutexOk(s) && ReadersOk(s) && Enabled(s, t)
    ensures ReadersOk(Exec(c, s, t, ok))
  {
    var s' := Exec(c, s, t, ok);
    GoMovesMutex(c, s, t, ok);
    if Building(s.threads[t]) {
      BuildMovesReaders(c, s, t, ok);
    } else if Starting(s.threads[t]) {
      StartMovesReaders(c, s, t);
    } else if Stopping(s.threads[t]) {
      StopMovesReaders(c, s, t);
    } else {
      VisitMovesReaders(s, t);
    }
    ReadersFollow(s, t, s'.threads[t], s');
  }

  lemma ReadersFollow(s: State, t: nat, p: Pc, s': State)
    requires MutexOk(s) && ReadersOk(s) && MutexMoves(s, t, p, s') && ReadersMove(s, t, p, s')
    ensures ReadersOk(s')
  {
    MutexMove(s, t, p, s');
    forall u: nat ensures u in s'.readers <==> ReadsAt(s'.threads, u) {
      assert u in s.readers <==> ReadsAt(s.threads, u);
      assert t in s.readers <==> ReadsAt(s.threads, t);
    }
  }

  lemma ReadersStep(c: Config, s: State, a: Action)
    requires MutexOk(s) && ReadersOk(s) && Can(s, a)
    ensures ReadersOk(Apply(c, s, a))
  {
    var s' := Apply(c, s, a);
    if a.Go? {
      GoReaders(c, s, a.t, a.ok);
    } else if a.Start? || a.Shutdown? || a.Read? || a.Allow? {
      ReadersFollow(s, a.t, s'.threads[a.t], s');
    }
  }

  lemma {:induction false} ReadersRun(c: Config, tr: seq<State>, acts: seq<Action>, i: nat)
    requires IsRun(c, tr, acts) && i < |tr|
    ensures ReadersOk(tr[i])
  {
    if i > 0 {
      ReadersRun(c, tr, acts, i - 1);
      EpochRun(c, tr, acts, i - 1);
      ReadersStep(c, tr[i - 1], acts[i - 1]);
    }
  }

  /** Who keeps the mutex from thread `t`: a reader, or a writer past its own wait. */
  lemma Obstacle(s: State, t: nat) returns (u: nat)
    requires MutexOk(s) && ReadersOk(s) && t < |s.threads| && s.threads[t] != Idle && !s.threads[t].DWait?
    ensures Enabled(s, u)
  {
    if Enabled(s, t) {
      u := t;
    } else if s.readers != {} {
      u :| u in s.readers;
      assert ReadsAt(s.threads, u);
    } else {
      u := s.mu.value;
    }
  }

  /** No deadlock: while some call is under way, some step can happen. */
  lemma SomethingCanHappen(c: Config, tr: seq<State>, acts: seq<Action>, i: nat, t: nat) returns (a: Action)
    requires IsRun(c, tr, acts) && i < |tr| && t < |tr[i].threads| && tr[i].threads[t] != Idle
    ensures (a.Go? || a.LoopSeesStop?) && Can(tr[i], a)
  {
    var s := tr[i];
    AllRun(c, tr, acts, i);
    ReadersRun(c, tr, acts, i);
    if s.threads[t].DWait? && !Enabled(s, t) {
      ShutdownIsNeverStuck(c, tr, acts, i, t);
      a := Remaining(s, s.threads[t].d)[0];
    } else if s.threads[t].DWait? {
      a := Go(t, true);
    } else {
      var u := Obstacle(s, t);
      a := Go(u, true);
    }
  }

  lemma CockpitOf(s: State)
    requires AllOk(s) && Free(s) && s.core.detector.Some?
    ensures var d := s.core.detector.value;
            && d < |s.detectors| && s.core.registry < |s.registries|
            && s.detectors[d].cache == s.registries[s.core.registry].cache < |s.caches|
            && s.detectors[d].maxCardinality == s.caches[s.registries[s.core.registry].cache]
  {
    var d := s.core.detector.value;
    assert DetectorOk(s.detectors[d], d, s.threads, s.caches);
  }

  /** Cockpit: whenever CardinalityStats reads the two fields and finds a detector, the detector
      watches the cache of the registry it reads along with it and reports that cache's cap as
      its own, so both branches of CardinalityStats agree. */
  lemma CockpitAgrees(c: Config, tr: seq<State>, acts: seq<Action>, i: nat)
    requires IsRun(c, tr, acts) && i < |tr| && tr[i].core.detector.Some?
    requires Free(tr[i]) || exists t: nat :: ReadsAt(tr[i].threads, t)
    ensures var s := tr[i]; var d := s.core.detector.value;
            && d < |s.detectors| && s.core.registry < |s.registries|
            && s.detectors[d].cache == s.registries[s.core.registry].cache < |s.caches|
            && s.detectors[d].maxCardinality == s.caches[s.registries[s.core.registry].cache]
  {
    AllRun(c, tr, acts, i);
    ReadersRun(c, tr, acts, i);
    CockpitOf(tr[i]);
  }
}
