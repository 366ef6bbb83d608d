/** A started Telemetry has what was configured, over all interleavings of Start and Shutdown. */
module LifecycleConfigured {
  import opened Labels
  import opened LifecycleMachine
  import opened LifecycleEpochs
  import opened LifecycleResources
  import Detectors = LifecycleDetectors

  // ----- what only grows -----

  predicate Finished(x: Detector) {
    x.stops >= 1 && x.phase == Done
  }

  /** Resources keep their kinds and stay shut down, finished detectors stay finished, caches keep
      their caps. */
  ghost predicate Kept(s: State, s': State) {
    && s.caches <= s'.caches && |s.resources| <= |s'.resources| && |s.detectors| <= |s'.detectors|
    && (forall r :: 0 <= r < |s.resources| ==>
          s'.resources[r].kind == s.resources[r].kind && s'.resources[r].released >= s.resources[r].released)
    && (forall d :: 0 <= d < |s.detectors| && Finished(s.detectors[d]) ==> Finished(s'.detectors[d]))
  }

  lemma BuildKeeps(c: Config, s: State, t: nat, ok: bool)
    requires t < |s.threads| && Building(s.threads[t])
    ensures Kept(s, ExecBuild(c, s, t, ok))
  {
  }

  lemma OwnersKeep(rs: seq<Resource>, m: Option<nat>, t: Option<nat>, mon: Option<nat>, w: Owner)
    ensures var q := SetOwners(rs, m, t, mon, w);
            forall r :: 0 <= r < |rs| ==> q[r].kind == rs[r].kind && q[r].released == rs[r].released
  {
  }

  lemma SpawnKeeps(c: Config, s: State, t: nat)
    requires Detectors.DetectorsOk(s) && t < |s.threads| && s.threads[t].SSpawn?
    ensures Kept(s, ExecStart(c, s, t))
  {
    var p := s.threads[t];
    if p.b.detector.Some? {
      var d := p.b.detector.value;
      assert Detectors.PcOk(s.detectors, s.caches, t, p) && Detectors.Spawning(p, d);
      assert Detectors.DetectorOk(s.detectors[d], d, s.threads, s.caches);
    }
  }

  lemma StartKeeps(c: Config, s: State, t: nat)
    requires Detectors.DetectorsOk(s) && t < |s.threads| && Starting(s.threads[t])
    ensures Kept(s, ExecStart(c, s, t))
  {
    var p := s.threads[t];
    if p.SSpawn? {
      SpawnKeeps(c, s, t);
    } else if p.SInstall? {
      OwnersKeep(s.resources, p.b.metric, p.b.trace, p.b.monitor, Telemetry);
    }
  }

  lemma StopKeeps(c: Config, s: State, t: nat)
    requires t < |s.threads| && Stopping(s.threads[t])
    ensures Kept(s, ExecStop(c, s, t))
  {
    if s.threads[t].DDetach? {
      OwnersKeep(s.resources, s.core.metric, s.core.trace, s.core.monitor, Thread(t));
    }
  }

  lemma StepKeeps(c: Config, s: State, a: Action)
    requires Detectors.DetectorsOk(s) && Can(s, a)
    ensures Kept(s, Apply(c, s, a))
  {
    if a.Go? {
      if Building(s.threads[a.t]) {
        BuildKeeps(c, s, a.t, a.ok);
      } else if Starting(s.threads[a.t]) {
        StartKeeps(c, s, a.t);
      } else if Stopping(s.threads[a.t]) {
        StopKeeps(c, s, a.t);
      }
    }
  }

  // ----- what a Start builds is what was configured -----

  predicate KindAt(rs: seq<Resource>, o: Option<nat>, kind: Kind) {
    o.Some? ==> o.value < |rs| && rs[o.value].kind == kind
  }

  /** Providers exist exactly when OTLP is enabled. */
  predicate ProvidersFit(c: Config, rs: seq<Resource>, metric: Option<nat>, trace: Option<nat>) {
    && (metric.Some? <==> c.otlp) && (trace.Some? <==> c.otlp)
    && KindAt(rs, metric, MetricProvider) && KindAt(rs, trace, TraceProvider)
  }

  predicate CacheFits(c: Config, caches: seq<nat>, cache: nat, detector: Option<nat>) {
    cache < |caches| && caches[cache] == NormMax(c.maxCardinality) && (detector.Some? <==> c.detector)
  }

  predicate MonitorFits(c: Config, rs: seq<Resource>, monitor: Option<nat>) {
    (monitor.Some? <==> c.monitor) && KindAt(rs, monitor, Monitor)
  }

  /** What a Start under way has built so far. */
  predicate BuiltFits(c: Config, caches: seq<nat>, rs: seq<Resource>, p: Pc) {
    && (p.STrace? ==> c.otlp && p.b.metric.Some? && KindAt(rs, p.b.metric, MetricProvider))
    && (p.SAllow? || p.SCopy? || p.SBuild? || p.SMonitor? || p.SRelock? || p.SRedrain? || p.SRecheck? || p.SBump? || p.SInstall? ==>
          ProvidersFit(c, rs, p.b.metric, p.b.trace))
    && (p.SMonitor? || p.SRelock? || p.SRedrain? || p.SRecheck? || p.SBump? || p.SInstall? ==>
          CacheFits(c, caches, p.b.cache, p.b.detector))
    && (p.SRelock? || p.SRedrain? || p.SRecheck? || p.SBump? || p.SInstall? ==> MonitorFits(c, rs, p.b.monitor))
  }

  /** A started Telemetry has what was configured; one that is not has a registry on a noop meter
      with a default cache, but for the moment in which Shutdown switches. */
  ghost predicate CoreFits(c: Config, s: State) {
    && s.core.registry < |s.registries| && s.registries[s.core.registry].cache < |s.caches|
    && (s.core.started ==>
          && ProvidersFit(c, s.resources, s.core.metric, s.core.trace)
          && MonitorFits(c, s.resources, s.core.monitor)
          && CacheFits(c, s.caches, s.registries[s.core.registry].cache, s.core.detector))
    && (!s.core.started && !Holder(s).DDetach? ==>
          s.caches[s.registries[s.core.registry].cache] == DEFAULT_MAX_CARDINALITY)
  }

  ghost predicate AllFit(c: Config, s: State) {
    CoreFits(c, s) && forall t: nat :: t < |s.threads| ==> BuiltFits(c, s.caches, s.resources, s.threads[t])
  }

  lemma FitsStill(c: Config, s: State, s': State, p: Pc)
    requires BuiltFits(c, s.caches, s.resources, p) && Kept(s, s')
    ensures BuiltFits(c, s'.caches, s'.resources, p)
  {
  }

  lemma OthersFit(c: Config, s: State, t: nat, p: Pc, s': State)
    requires AllFit(c, s) && Kept(s, s') && t < |s.threads| && s'.threads == s.threads[t := p]
    requires BuiltFits(c, s'.caches, s'.resources, p)
    ensures forall u: nat :: u < |s'.threads| ==> BuiltFits(c, s'.caches, s'.resources, s'.threads[u])
  {
    forall u: nat | u < |s'.threads| ensures BuiltFits(c, s'.caches, s'.resources, s'.threads[u]) {
      if u != t {
        FitsStill(c, s, s', s.threads[u]);
      }
    }
  }

  lemma PassingFits(c: Config, s: State, t: nat, p: Pc, s': State)
    requires AllFit(c, s) && MutexOk(s) && Passing(s, t, p, s') && Kept(s, s')
    requires BuiltFits(c, s'.caches, s'.resources, p)
    ensures AllFit(c, s')
  {
    MutexMove(s, t, p, s');
    OthersFit(c, s, t, p, s');
  }

  lemma BuildFits(c: Config, s: State, t: nat, ok: bool)
    requires t < |s.threads| && Building(s.threads[t]) && BuiltFits(c, s.caches, s.resources, s.threads[t])
    requires Neat(s.threads[t]) && Detectors.PcOk(s.detectors, s.caches, t, s.threads[t])
    ensures var s' := ExecBuild(c, s, t, ok);
            t < |s'.threads| && BuiltFits(c, s'.caches, s'.resources, s'.threads[t])
  {
  }

  lemma InstallCoreFits(c: Config, s: State, t: nat, s': State)
    requires t < |s.threads| && s.threads[t].SInstall? && s' == ExecStart(c, s, t)
    requires BuiltFits(c, s'.caches, s'.resources, s.threads[t])
    ensures CoreFits(c, s')
  {
  }

  lemma InstallFits(c: Config, s: State, t: nat, s': State)
    requires AllFit(c, s) && t < |s.threads| && s.threads[t].SInstall? && s' == ExecStart(c, s, t) && Kept(s, s')
    ensures AllFit(c, s')
  {
    FitsStill(c, s, s', s.threads[t]);
    InstallCoreFits(c, s, t, s');
    OthersFit(c, s, t, SBind(s.threads[t].b), s');
  }

  lemma StartFits(c: Config, s: State, t: nat)
    requires AllFit(c, s) && MutexOk(s) && Enabled(s, t) && Starting(s.threads[t]) && Kept(s, ExecStart(c, s, t))
    ensures AllFit(c, ExecStart(c, s, t))
  {
    var s' := ExecStart(c, s, t);
    assert BuiltFits(c, s.caches, s.resources, s.threads[t]);
    if s.threads[t].SInstall? {
      InstallFits(c, s, t, s');
    } else if s.threads[t].SBump? {
      MutexMove(s, t, s'.threads[t], s');
      OthersFit(c, s, t, s'.threads[t], s');
    } else {
      StartPasses(c, s, t);
      PassingFits(c, s, t, s'.threads[t], s');
    }
  }

  lemma StopBumpFits(c: Config, s: State, t: nat, s': State)
    requires AllFit(c, s) && MutexOk(s) && t < |s.threads| && s.threads[t].DBump? && s' == ExecStop(c, s, t) && Kept(s, s')
    ensures AllFit(c, s')
  {
    MutexMove(s, t, DDetach, s');
    OthersFit(c, s, t, DDetach, s');
  }

  lemma DetachFits(c: Config, s: State, t: nat, s': State)
    requires AllFit(c, s) && t < |s.threads| && s.threads[t].DDetach? && s' == ExecStop(c, s, t) && Kept(s, s')
    ensures AllFit(c, s')
  {
    OthersFit(c, s, t, s'.threads[t], s');
  }

  lemma StopFits(c: Config, s: State, t: nat)
    requires AllFit(c, s) && MutexOk(s) && Enabled(s, t) && Stopping(s.threads[t]) && Kept(s, ExecStop(c, s, t))
    ensures AllFit(c, ExecStop(c, s, t))
  {
    var s' := ExecStop(c, s, t);
    if s.threads[t].DBump? {
      StopBumpFits(c, s, t, s');
    } else if s.threads[t].DDetach? {
      DetachFits(c, s, t, s');
    } else {
      StopPasses(c, s, t);
      PassingFits(c, s, t, s'.threads[t], s');
    }
  }

  lemma GoFits(c: Config, s: State, t: nat, ok: bool)
    requires AllFit(c, s) && ResourcesOk(s) && Detectors.AllOk(s) && Enabled(s, t)
    ensures AllFit(c, Exec(c, s, t, ok))
  {
    var s' := Exec(c, s, t, ok);
    StepKeeps(c, s, Go(t, ok));
    if Building(s.threads[t]) {
      assert Neat(s.threads[t]) && Detectors.PcOk(s.detectors, s.caches, t, s.threads[t]);
      BuildFits(c, s, t, ok);
      BuildPasses(c, s, t, ok);
      PassingFits(c, s, t, s'.threads[t], s');
    } else if Starting(s.threads[t]) {
      StartFits(c, s, t);
    } else if Stopping(s.threads[t]) {
      StopFits(c, s, t);
    } else {
      VisitPasses(s, t);
      PassingFits(c, s, t, s'.threads[t], s');
    }
  }

  lemma StepFits(c: Config, s: State, a: Action)
    requires AllFit(c, s) && ResourcesOk(s) && Detectors.AllOk(s) && Can(s, a)
    ensures AllFit(c, Apply(c, s, a))
  {
    if a.Go? {
      GoFits(c, s, a.t, a.ok);
    } else if a.Start? || a.Shutdown? || a.Read? || a.Allow? {
      BeginPasses(s, a.t, Apply(c, s, a).threads[a.t]);
      PassingFits(c, s, a.t, Apply(c, s, a).threads[a.t], Apply(c, s, a));
    }
  }

  lemma {:induction false} FitRun(c: Config, tr: seq<State>, acts: seq<Action>, i: nat)
    requires IsRun(c, tr, acts) && i < |tr|
    ensures AllFit(c, tr[i])
  {
    if i > 0 {
      FitRun(c, tr, acts, i - 1);
      ResourcesRun(c, tr, acts, i - 1);
      Detectors.AllRun(c, tr, acts, i - 1);
      StepFits(c, tr[i - 1], acts[i - 1]);
    }
  }

  /** In every reachable state a started Telemetry holds exactly the providers, the monitor and
      the detector that were configured, each of its kind, and its registry has a cache with the
      configured cap; and while no writer is past its wait, one that is not started holds none of
      them, on a noop meter and a cache with the default cap. */
  lemma StartedAsConfigured(c: Config, tr: seq<State>, acts: seq<Action>, i: nat)
    requires IsRun(c, tr, acts) && i < |tr|
    ensures var s := tr[i]; var k := s.core;
            && k.registry < |s.registries| && s.registries[k.registry].cache < |s.caches|
            && (k.started ==>
                  && (k.metric.Some? <==> c.otlp) && (k.trace.Some? <==> c.otlp) && (k.monitor.Some? <==> c.monitor)
                  && (k.detector.Some? <==> c.detector)
                  && KindAt(s.resources, k.metric, MetricProvider) && KindAt(s.resources, k.trace, TraceProvider)
                  && KindAt(s.resources, k.monitor, Monitor)
                  && s.caches[s.registries[k.registry].cache] == NormMax(c.maxCardinality))
            && (!k.started && Free(s) ==>
                  && k.metric == k.trace == k.monitor == k.detector == s.registries[k.registry].provider == None
                  && s.caches[s.registries[k.registry].cache] == DEFAULT_MAX_CARDINALITY)
  {
    FitRun(c, tr, acts, i);
    ResourcesRun(c, tr, acts, i);
    Detectors.AllRun(c, tr, acts, i);
  }
}
