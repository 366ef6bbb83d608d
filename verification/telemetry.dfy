/** The Telemetry object with one caller at a time. LifecycleMachine has the interleavings of
    Start and Shutdown. */
module Telemetries {
  import opened Labels
  import opened AttrCaches
  import opened Registries
  import opened Instruments

  /** A metric provider, trace provider or monitor: what is left of it is its shutdown. */
  class Resource {
    var released: nat

    /** Nothing is built without being entered in `otel.made`. */
    constructor (otel: Otel)
      modifies otel`made
      ensures released == 0 && otel.made == old(otel.made) + {this}
    {
      released := 0;
      new;
      otel.made := otel.made + {this};
    }

    method ShutDown()
      modifies this
      ensures released == old(released) + 1
    {
      released := released + 1;
    }
  }

  /** The process-wide tracer provider, where null is the noop provider; and every resource
      that was ever built. */
  class Otel {
    var tracer: Resource?
    ghost var made: set<Resource>
  }

  datatype Config = Config(otlp: bool, traces: bool, monitor: bool, settings: Settings)

  /** Those of the three that exist. */
  ghost function Known(a: Resource?, b: Resource?, c: Resource?): set<Resource> {
    var three: set<Resource?> := {a, b, c};
    set r: Resource | r in three
  }

  function Exists(r: Resource?): nat {
    if r == null then 0 else 1
  }

  lemma KnownJoin(before: set<Resource>, a: Resource?, b: Resource?, c: Resource?)
    ensures (before + Known(a, b, null)) + Known(c, null, null) == before + Known(a, b, c)
  {
  }

  lemma PairSize(a: Resource?, b: Resource?)
    requires Separate(a, b, null)
    ensures |Known(a, b, null)| == Exists(a) + Exists(b)
  {
    var x: set<Resource> := if a == null then {} else {a};
    assert Known(a, b, null) == if b == null then x else x + {b};
  }

  lemma KnownSize(a: Resource?, b: Resource?, c: Resource?)
    requires Separate(a, b, c)
    ensures |Known(a, b, c)| == Exists(a) + Exists(b) + Exists(c)
  {
    PairSize(a, b);
    if c == null {
      assert Known(a, b, c) == Known(a, b, null);
    } else {
      assert Known(a, b, c) == Known(a, b, null) + {c};
    }
  }

  ghost predicate Separate(a: Resource?, b: Resource?, c: Resource?) {
    (a != null ==> a != b && a != c) && (b != null ==> b != c)
  }

  /** The allowed set holds exactly the non-empty labels asked for; none at all until something is. */
  ghost predicate Allows(allowed: Option<set<Label>>, asked: seq<Label>) {
    && (allowed.Some? <==> asked != [])
    && (allowed.Some? ==> forall l :: l in allowed.value <==> l != [] && l in asked)
  }

  /** The detector reports on this cache, against this cache's cap. */
  ghost predicate Watches(d: CardinalityDetector, cache: AttrCache)
    reads cache
  {
    d.cache == cache && d.cfg.maxCardinality == cache.maxEntries && d.cfg.denyUnknown == cache.denyUnknown
  }

  class Telemetry {
    const cfg: Config
    const otel: Otel
    const epoch: Epoch
    var started: bool
    var registry: Registry
    var shutdownFn: Resource?
    var traceShutdown: Resource?
    var monitor: Resource?
    var cardinality: CardinalityDetector?
    var traceInstalled: bool
    var allowedLabels: seq<Label>

    /** The resources the Telemetry has to shut down. */
    ghost function Owned(): set<Resource>
      reads this
    {
      Known(shutdownFn, traceShutdown, monitor)
    }

    ghost predicate Valid()
      reads this, epoch, registry.cache
    {
      && registry.epochPtr == epoch && registry.epoch == epoch.value
      && registry.maxInstruments == NormInstruments(cfg.settings.maxInstruments)
      && (started <==> epoch.value % 2 == 1)
      && (!started ==> Owned() == {} && cardinality == null && !traceInstalled)
      && Separate(shutdownFn, traceShutdown, monitor)
      && (cardinality != null ==> Watches(cardinality, registry.cache))
    }

    constructor (cfg: Config, otel: Otel)
      ensures Valid() && !started && epoch.value == 0 && this.cfg == cfg && this.otel == otel && allowedLabels == []
      ensures fresh(epoch) && fresh(registry) && fresh(registry.cache) && fresh(registry.cache.shards)
      ensures registry.Blank() && registry.cache.Valid()
      ensures registry.cache.order == [] && registry.cache.maxEntries == DEFAULT_MAX_CARDINALITY
      ensures Allows(registry.cache.allowed, [])
    {
      this.cfg, this.otel := cfg, otel;
      var e := new Epoch();
      var cache := new AttrCache(DEFAULT_MAX_CARDINALITY);
      var meter := new Meter();
      epoch := e;
      registry := new Registry(meter, cache, e, 0, cfg.settings.maxInstruments);
      started, traceInstalled, allowedLabels := false, false, [];
      shutdownFn, traceShutdown, monitor, cardinality := null, null, null, null;
    }

    /** Start fails when a provider cannot be built or the monitor cannot bind; with traces off
        the tracer provider is a noop that cannot fail. */
    predicate Fails(metricOk: bool, traceOk: bool, monitorOk: bool) {
      (cfg.otlp && !(metricOk && (traceOk || !cfg.traces))) || (cfg.monitor && !monitorOk)
    }

    /** How many resources one Start builds. */
    function Builds(metricOk: bool, traceOk: bool, monitorOk: bool): nat {
      if cfg.otlp && !metricOk then 0
      else if cfg.otlp && cfg.traces && !traceOk then 1
      else (if cfg.otlp then 2 else 0) + (if cfg.monitor && monitorOk then 1 else 0)
    }

    /** `initProviders`: both providers or an error, with the metric provider shut down again. */
    method InitProviders(metricOk: bool, traceOk: bool)
        returns (failed: bool, metric: Resource?, trace: Resource?, installed: bool, ghost built: set<Resource>)
      modifies otel
      ensures failed <==> cfg.otlp && !(metricOk && (traceOk || !cfg.traces))
      ensures otel.made == old(otel.made) + built && fresh(built)
      ensures failed ==> metric == null && trace == null && !installed && (forall r :: r in built ==> r.released == 1)
      ensures failed ==> |built| == if metricOk then 1 else 0
      ensures !failed ==> built == Known(metric, trace, null) && forall r :: r in built ==> r.released == 0
      ensures !failed ==> (metric != null <==> cfg.otlp) && (trace != null <==> cfg.otlp) && Separate(metric, trace, null)
      ensures !failed ==> installed == (cfg.otlp && cfg.traces)
      ensures otel.tracer == if installed then trace else old(otel.tracer)
    {
      failed, metric, trace, installed, built := false, null, null, false, {};
      if !cfg.otlp {
        return;
      }
      if !metricOk {
        failed := true;
        return;
      }
      var m := new Resource(otel);
      if cfg.traces && !traceOk {
        m.ShutDown();
        failed, built := true, {m};
        return;
      }
      trace := new Resource(otel);
      metric, built := m, {m, trace};
      if cfg.traces {
        otel.tracer := trace;
        installed := true;
      }
    }

    /** The middle of `Start`: the cache for the next epoch, its gate and its detector. */
    method BuildCache() returns (cache: AttrCache, detector: CardinalityDetector?)
      ensures fresh(cache) && fresh(cache.shards) && cache.Valid() && Ready(cache, detector)
      ensures cache.detector == detector && (detector != null ==> fresh(detector))
    {
      cache := new AttrCache(NormMax(cfg.settings.maxCardinality));
      cache.SetDenyUnknown(cfg.settings.denyUnknown);
      if |allowedLabels| > 0 {
        cache.Allow(allowedLabels);
      }
      detector := null;
      if cfg.settings.enable {
        var d := new CardinalityDetector(cfg.settings, cache);
        cache.SetDetector(d);
        detector := d;
      }
    }

    /** `newRegistryWithCache`. */
    method NewRegistry(cache: AttrCache, e: nat) returns (r: Registry)
      ensures fresh(r) && fresh(r.meter) && r.Blank() && r.cache == cache && r.epochPtr == epoch && r.epoch == e
      ensures r.maxInstruments == NormInstruments(cfg.settings.maxInstruments)
    {
      var meter := new Meter();
      r := new Registry(meter, cache, epoch, e, cfg.settings.maxInstruments);
    }

    /** The second locked section of `Start`. */
    method Install(metric: Resource?, trace: Resource?, mon: Resource?, installed: bool, cache: AttrCache, detector: CardinalityDetector?)
      requires Valid() && !started && cache.Valid()
      requires Separate(metric, trace, mon) && (detector != null ==> Watches(detector, cache))
      modifies this, epoch
      ensures Valid() && started && epoch.value == old(epoch.value) + 1 && allowedLabels == old(allowedLabels)
      ensures shutdownFn == metric && traceShutdown == trace && monitor == mon && traceInstalled == installed
      ensures cardinality == detector && registry.cache == cache
      ensures fresh(registry) && registry.Blank()
    {
      var e := epoch.value + 1;
      var r := NewRegistry(cache, e);
      epoch.value := e;
      shutdownFn, traceShutdown, traceInstalled := metric, trace, installed;
      registry := r;
      cardinality := detector;
      monitor := mon;
      started := true;
    }

    /** `startMonitor`. */
    method StartMonitor(metric: Resource?, trace: Resource?, installed: bool, monitorOk: bool) returns (failed: bool, mon: Resource?)
      requires Separate(metric, trace, null)
      modifies otel, Known(metric, trace, null)
      ensures failed <==> cfg.monitor && !monitorOk
      ensures mon != null <==> cfg.monitor && monitorOk
      ensures mon != null ==> fresh(mon) && mon.released == 0
      ensures otel.made == old(otel.made) + Known(mon, null, null)
      ensures otel.tracer == if failed && installed then null else old(otel.tracer)
      ensures failed ==> forall r :: r in Known(metric, trace, null) ==> r.released == old(r.released) + 1
      ensures !failed ==> forall r :: r in Known(metric, trace, null) ==> r.released == old(r.released)
    {
      failed, mon := false, null;
      if cfg.monitor {
        if !monitorOk {
          RollBack(null, metric, trace, installed);
          failed := true;
          return;
        }
        mon := new Resource(otel);
      }
    }

    /** The cache is empty, has the configured cap and gate, allows what was asked for, and is
        watched if it should be. */
    ghost predicate Ready(cache: AttrCache, detector: CardinalityDetector?)
      reads this, cache
    {
      && cache.order == [] && cache.maxEntries == NormMax(cfg.settings.maxCardinality)
      && cache.denyUnknown == cfg.settings.denyUnknown && Allows(cache.allowed, allowedLabels)
      && (detector != null <==> cfg.settings.enable) && (detector != null ==> Watches(detector, cache))
    }

    /** `Start` between its two locked sections: everything is built, or what was built is shut
        down again. */
    method Prepare(metricOk: bool, traceOk: bool, monitorOk: bool)
        returns (failed: bool, metric: Resource?, trace: Resource?, mon: Resource?, installed: bool,
                 cache: AttrCache?, detector: CardinalityDetector?, ghost built: set<Resource>)
      modifies otel
      ensures failed <==> Fails(metricOk, traceOk, monitorOk)
      ensures otel.made == old(otel.made) + built && fresh(built) && |built| == Builds(metricOk, traceOk, monitorOk)
      ensures forall r :: r in built ==> r.released == if failed then 1 else 0
      ensures failed ==> otel.tracer == if cfg.otlp && cfg.traces && metricOk && traceOk then null else old(otel.tracer)
      ensures !failed ==> built == Known(metric, trace, mon) && Separate(metric, trace, mon)
      ensures !failed ==> (metric != null <==> cfg.otlp) && (trace != null <==> cfg.otlp) && (mon != null <==> cfg.monitor)
      ensures !failed ==> installed == (cfg.otlp && cfg.traces)
      ensures !failed ==> otel.tracer == if installed then trace else old(otel.tracer)
      ensures !failed ==> cache != null && fresh(cache) && cache.Valid() && Ready(cache, detector)
    {
      failed, metric, trace, installed, built := InitProviders(metricOk, traceOk);
      mon, cache, detector := null, null, null;
      if failed {
        return;
      }
      cache, detector := BuildCache();
      failed, mon := StartMonitor(metric, trace, installed, monitorOk);
      KnownJoin(old(otel.made), metric, trace, mon);
      KnownSize(metric, trace, mon);
      built := Known(metric, trace, mon);
    }

    /** `Start`, with the outcomes of building the providers and binding the monitor as
        parameters. A failed Start leaves the Telemetry as it was and everything it built shut
        down once; a successful one owns everything it built. */
    method Start(metricOk: bool, traceOk: bool, monitorOk: bool) returns (failed: bool, ghost built: set<Resource>)
      requires Valid()
      modifies this, epoch, otel
      ensures Valid() && allowedLabels == old(allowedLabels)
      ensures old(started) ==> !failed && built == {} && unchanged(this) && unchanged(epoch) && unchanged(otel)
      ensures !old(started) ==> (failed <==> Fails(metricOk, traceOk, monitorOk))
      ensures otel.made == old(otel.made) + built && fresh(built)
      ensures !old(started) ==> |built| == Builds(metricOk, traceOk, monitorOk)
      ensures failed ==> unchanged(this) && unchanged(epoch) && forall r :: r in built ==> r.released == 1
      ensures failed ==> otel.tracer == if cfg.otlp && cfg.traces && metricOk && traceOk then null else old(otel.tracer)
      ensures !failed && !old(started) ==> forall r :: r in built ==> r.released == 0
      ensures !failed && !old(started) ==>
                && started && epoch.value == old(epoch.value) + 1 && Owned() == built
                && (shutdownFn != null <==> cfg.otlp) && (traceShutdown != null <==> cfg.otlp) && (monitor != null <==> cfg.monitor)
                && traceInstalled == (cfg.otlp && cfg.traces)
                && otel.tracer == (if traceInstalled then traceShutdown else old(otel.tracer))
      ensures !failed && !old(started) ==>
                && fresh(registry) && fresh(registry.cache) && registry.Blank() && registry.cache.Valid()
                && Ready(registry.cache, cardinality)
    {
      if started {
        return false, {};
      }
      var metric, trace, mon, installed, cache, detector;
      failed, metric, trace, mon, installed, cache, detector, built := Prepare(metricOk, traceOk, monitorOk);
      if failed {
        return;
      }
      Install(metric, trace, mon, installed, cache, detector);
    }

    /** `rollbackStart`. */
    method RollBack(mon: Resource?, metric: Resource?, trace: Resource?, installed: bool)
      requires Separate(metric, trace, mon)
      modifies Known(metric, trace, mon), otel`tracer
      ensures forall r :: r in Known(metric, trace, mon) ==> r.released == old(r.released) + 1
      ensures otel.tracer == if installed then null else old(otel.tracer)
    {
      if mon != null {
        mon.ShutDown();
      }
      if metric != null {
        metric.ShutDown();
      }
      if trace != null {
        trace.ShutDown();
      }
      if installed {
        otel.tracer := null;
      }
    }

    /** `Shutdown`: detach everything, then shut each resource down once. Only a tracer
        provider this Telemetry installed is taken away. */
    method Shutdown()
      requires Valid()
      modifies this, epoch, otel`tracer, Owned()
      ensures Valid() && !started && allowedLabels == old(allowedLabels)
      ensures !old(started) ==> unchanged(this) && unchanged(epoch) && unchanged(otel)
      ensures old(started) ==> epoch.value == old(epoch.value) + 1 && Owned() == {}
      ensures old(started) ==> forall r :: r in old(Owned()) ==> r.released == old(r.released) + 1
      ensures old(started) ==>
                && fresh(registry) && fresh(registry.cache) && registry.Blank() && registry.cache.Valid()
                && registry.cache.order == [] && registry.cache.maxEntries == DEFAULT_MAX_CARDINALITY
      ensures old(started) ==> otel.tracer == if old(traceInstalled) then null else old(otel.tracer)
    {
      if !started {
        return;
      }
      var metric, trace, mon, installed := shutdownFn, traceShutdown, monitor, traceInstalled;
      Detach();
      RollBack(mon, metric, trace, installed);
    }

    /** The locked section of `Shutdown`. */
    method Detach()
      requires Valid() && started
      modifies this, epoch
      ensures Valid() && !started && allowedLabels == old(allowedLabels)
      ensures epoch.value == old(epoch.value) + 1 && Owned() == {}
      ensures fresh(registry) && fresh(registry.cache) && registry.Blank() && registry.cache.Valid()
      ensures registry.cache.order == [] && registry.cache.maxEntries == DEFAULT_MAX_CARDINALITY
    {
      var cache := new AttrCache(DEFAULT_MAX_CARDINALITY);
      var e := epoch.value + 1;
      var r := NewRegistry(cache, e);
      started := false;
      epoch.value := e;
      cardinality := null;
      shutdownFn, traceShutdown, monitor, traceInstalled := null, null, null, false;
      registry := r;
    }

    /** `AllowSubjects`: remembered for the next Start and applied to the current cache. */
    method AllowSubjects(labels: seq<Label>)
      requires Valid()
      modifies this`allowedLabels, registry.cache`allowed
      ensures Valid() && allowedLabels == old(allowedLabels) + labels
      ensures labels == [] ==> registry.cache.allowed == old(registry.cache.allowed)
      ensures forall asked :: old(Allows(registry.cache.allowed, asked)) ==> Allows(registry.cache.allowed, asked + labels)
    {
      if |labels| == 0 {
        assert allowedLabels + labels == allowedLabels;
        assert forall asked: seq<Label> :: asked + labels == asked;
        return;
      }
      allowedLabels := allowedLabels + labels;
      registry.cache.Allow(labels);
    }

    /** `CardinalityStats`: with or without a detector it reports the current cache's fill
        against the current cache's cap. */
    method CardinalityStats() returns (snap: Snapshot)
      requires Valid() && registry.cache.Valid()
      ensures snap.cacheEntries == registry.cache.size && snap.maxCardinality == registry.cache.maxEntries
      ensures snap.utilizationPct == Utilization(registry.cache.size, registry.cache.maxEntries)
      ensures 0 <= snap.utilizationPct <= 100 && (snap.utilizationPct == 100 <==> registry.cache.size == registry.cache.maxEntries)
      ensures multiset(snap.subjects) == multiset(Joins(registry.cache.order)) && |snap.subjects| == registry.cache.size
      ensures snap.instruments == Count(registry.Stored()) && snap.maxInstruments == NormInstruments(cfg.settings.maxInstruments)
      ensures snap.denyUnknown == registry.cache.denyUnknown
    {
      var instruments := Count(registry.Stored());
      var maxInst := NormInstruments(cfg.settings.maxInstruments);
      UtilizationBounds(registry.cache.size, registry.cache.size, registry.cache.maxEntries);
      if cardinality != null {
        snap := cardinality.TakeSnapshot(instruments, maxInst);
        return;
      }
      var subjects := registry.cache.Subjects();
      snap := Snapshot(0, 0, 0, subjects, registry.cache.size, registry.cache.maxEntries,
                       Utilization(registry.cache.size, registry.cache.maxEntries), 0,
                       instruments, maxInst, registry.cache.denyUnknown);
    }
  }

  /** What a Start meets with. */
  datatype Attempt = Attempt(metricOk: bool, traceOk: bool, monitorOk: bool)

  /** How many of the attempts succeed. */
  function Successes(t: Telemetry, attempts: seq<Attempt>): nat {
    if attempts == [] then 0
    else
      var a := attempts[|attempts| - 1];
      Successes(t, attempts[..|attempts| - 1]) + if t.Fails(a.metricOk, a.traceOk, a.monitorOk) then 0 else 1
  }

  /** Start and Shutdown, Start and Shutdown, with whatever outcomes: every resource any of the
      Starts built has been shut down, once; the epoch grows by two for each Start that
      succeeded; and a tracer provider installed by somebody else survives when traces are off. */
  method Restart(t: Telemetry, attempts: seq<Attempt>)
    requires t.Valid() && !t.started
    modifies t, t.epoch, t.otel
    ensures t.Valid() && !t.started && t.Owned() == {}
    ensures t.epoch.value == old(t.epoch.value) + 2 * Successes(t, attempts)
    ensures old(t.otel.made) <= t.otel.made
    ensures forall r :: r in t.otel.made - old(t.otel.made) ==> fresh(r) && r.released == 1
    ensures !(t.cfg.otlp && t.cfg.traces) ==> t.otel.tracer == old(t.otel.tracer)
  {
    for i := 0 to |attempts|
      invariant t.Valid() && !t.started && t.epoch.value == old(t.epoch.value) + 2 * Successes(t, attempts[..i])
      invariant old(t.otel.made) <= t.otel.made
      invariant forall r :: r in t.otel.made - old(t.otel.made) ==> fresh(r) && r.released == 1
      invariant !(t.cfg.otlp && t.cfg.traces) ==> t.otel.tracer == old(t.otel.tracer)
    {
      assert attempts[..i + 1][..i] == attempts[..i];
      ghost var made := t.otel.made;
      ghost var built := StartStop(t, attempts[i]);
      forall r | r in t.otel.made - old(t.otel.made) ensures fresh(r) && r.released == 1 {
        assert r in made - old(t.otel.made) || r in built;
      }
    }
    assert attempts[..|attempts|] == attempts;
  }

  method StartStop(t: Telemetry, a: Attempt) returns (ghost built: set<Resource>)
    requires t.Valid() && !t.started
    modifies t, t.epoch, t.otel
    ensures t.Valid() && !t.started
    ensures t.epoch.value == old(t.epoch.value) + if t.Fails(a.metricOk, a.traceOk, a.monitorOk) then 0 else 2
    ensures t.otel.made == old(t.otel.made) + built && |built| == t.Builds(a.metricOk, a.traceOk, a.monitorOk)
    ensures fresh(built) && forall r :: r in built ==> r.released == 1
    ensures !(t.cfg.otlp && t.cfg.traces) ==> t.otel.tracer == old(t.otel.tracer)
  {
    var failed;
    failed, built := t.Start(a.metricOk, a.traceOk, a.monitorOk);
    t.Shutdown();
  }
}
