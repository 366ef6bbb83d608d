/** What a call of Start has done by the time it returns, over all interleavings. */
module LifecycleStarts {
  import opened Labels
  import opened LifecycleMachine
  import opened LifecycleEpochs
  import opened LifecycleConfigured
  import opened LifecycleCalls

  /** The Telemetry was found started, under the mutex. */
  predicate FoundStarted(s: State, t: nat) {
    s.mu == Some(t) && s.core.started
  }

  /** A provider could not be built, or the monitor could not bind its address. */
  predicate Fails(c: Config, p: Pc, a: Action) {
    a.Go? && !a.ok && ((p.SMetric? && c.otlp) || p.STrace? || (p.SMonitor? && c.monitor))
  }

  /** At action `x` thread `t` gives its Start up, for one of the two reasons. */
  predicate GivesUp(c: Config, tr: seq<State>, acts: seq<Action>, x: nat, t: nat) {
    && x < |acts| && x < |tr| && t < |tr[x].threads| && Own(acts[x], t)
    && (FoundStarted(tr[x], t) || Fails(c, tr[x].threads[t], acts[x]))
  }

  /** The Telemetry is started with what was configured, under a new registry that carries the
      epoch and records with its provider. */
  ghost predicate StartsUp(c: Config, s: State, s': State) {
    var k := s'.core;
    && !s.core.started && k.started && k.registry == |s.registries| && |s'.registries| == k.registry + 1
    && s'.registries[k.registry].epoch == s'.epoch && s'.registries[k.registry].provider == k.metric
    && ProvidersFit(c, s'.resources, k.metric, k.trace) && MonitorFits(c, s'.resources, k.monitor)
    && CacheFits(c, s'.caches, s'.registries[k.registry].cache, k.detector)
  }

  ghost predicate StartsUpAt(c: Config, tr: seq<State>, acts: seq<Action>, x: nat, t: nat) {
    x < |acts| && x + 1 < |tr| && Own(acts[x], t) && StartsUp(c, tr[x], tr[x + 1])
  }

  /** None of thread `t`'s steps from `b` to `x` touched the Telemetry or its epoch. */
  ghost predicate Untouched(tr: seq<State>, acts: seq<Action>, b: nat, x: nat, t: nat)
    requires x < |tr| && x <= |acts|
  {
    forall k: nat | b < k < x && Own(acts[k], t) :: tr[k + 1].core == tr[k].core && tr[k + 1].epoch == tr[k].epoch
  }

  /** Before the bump. */
  predicate Preparing(p: Pc) {
    p.SLock? || p.SDrain? || p.SCheck? || Building(p) || p.SRelock? || p.SRedrain? || p.SRecheck? || p.SBump?
  }

  predicate GivingUp(p: Pc) {
    p.Release? || p.ALock? || p.ADrain? || p.AHold? || p == Idle
  }

  /** The new detector's loop is still to be spawned, or has been. */
  predicate SpawnPending(p: Pc, k: Core) {
    (p.SBind? || p.SSpawn?) && p.b.detector == k.detector
  }

  predicate Spawned(ds: seq<Detector>, k: Core) {
    k.detector.Some? ==> k.detector.value < |ds| && ds[k.detector.value].spawned == 1
  }

  ghost predicate GaveUp(c: Config, tr: seq<State>, acts: seq<Action>, b: nat, x: nat, t: nat) {
    exists k: nat | k < x :: b < k && GivesUp(c, tr, acts, k, t)
  }

  /** What a Start under way at state `x`, or returned by then, has behind it. */
  ghost predicate StartStory(c: Config, tr: seq<State>, acts: seq<Action>, b: nat, x: nat, t: nat)
    requires x < |tr| == |acts| + 1
  {
    && t < |tr[x].threads|
    && var p := tr[x].threads[t];
       || (Preparing(p) && Untouched(tr, acts, b, x, t))
       || (GivingUp(p) && Untouched(tr, acts, b, x, t) && GaveUp(c, tr, acts, b, x, t))
       || p.SInstall?
       || exists k: nat | k < x :: b < k && StartsUpAt(c, tr, acts, k, t)
                                   && (SpawnPending(p, tr[k + 1].core) || (p == Idle && Spawned(tr[x].detectors, tr[k + 1].core)))
  }

  // ----- one step of the call's own -----

  lemma PreparingStep(c: Config, s: State, t: nat, ok: bool)
    requires EpochOk(s) && Enabled(s, t) && Preparing(s.threads[t]) && !s.threads[t].SBump?
    ensures var s' := Exec(c, s, t, ok); var p' := s'.threads[t];
            && |s'.threads| == |s.threads| && s'.core == s.core && s'.epoch == s.epoch
            && (Preparing(p') || (GivingUp(p') && (FoundStarted(s, t) || Fails(c, s.threads[t], Go(t, ok)))))
  {
    if Building(s.threads[t]) {
      BuildPasses(c, s, t, ok);
    } else {
      StartPasses(c, s, t);
    }
  }

  lemma GivingUpStep(c: Config, s: State, t: nat, ok: bool)
    requires Enabled(s, t) && GivingUp(s.threads[t])
    ensures var s' := Exec(c, s, t, ok);
            |s'.threads| == |s.threads| && s'.core == s.core && s'.epoch == s.epoch && GivingUp(s'.threads[t])
  {
  }

  lemma InstallStep(c: Config, s: State, t: nat)
    requires EpochOk(s) && AllFit(c, s) && Enabled(s, t) && s.threads[t].SInstall? && Kept(s, ExecStart(c, s, t))
    ensures var s' := ExecStart(c, s, t);
            t < |s'.threads| && StartsUp(c, s, s') && SpawnPending(s'.threads[t], s'.core)
  {
    assert Holder(s) == s.threads[t];
    FitsStill(c, s, ExecStart(c, s, t), s.threads[t]);
  }

  lemma SpawnStep(c: Config, s: State, t: nat, k: Core)
    requires Detectors.DetectorsOk(s) && Enabled(s, t) && SpawnPending(s.threads[t], k)
    ensures var s' := ExecStart(c, s, t); var p' := s'.threads[t];
            |s'.threads| == |s.threads| && (SpawnPending(p', k) || (p' == Idle && Spawned(s'.detectors, k)))
  {
    var p := s.threads[t];
    assert Detectors.PcOk(s.detectors, s.caches, t, p);
    if p.SSpawn? && p.b.detector.Some? {
      assert Detectors.Spawning(p, p.b.detector.value);
    }
  }

  // ----- the story goes on -----

  lemma UntouchedOn(tr: seq<State>, acts: seq<Action>, b: nat, x: nat, t: nat)
    requires x + 1 < |tr| && x < |acts| && Untouched(tr, acts, b, x, t)
    requires Own(acts[x], t) ==> tr[x + 1].core == tr[x].core && tr[x + 1].epoch == tr[x].epoch
    ensures Untouched(tr, acts, b, x + 1, t)
  {
  }

  lemma OwnPreparing(c: Config, tr: seq<State>, acts: seq<Action>, b: nat, x: nat, t: nat)
    requires b < x < |acts| && |tr| == |acts| + 1 && Own(acts[x], t) && EpochOk(tr[x]) && Enabled(tr[x], t)
    requires tr[x + 1] == Apply(c, tr[x], acts[x])
    requires Preparing(tr[x].threads[t]) && Untouched(tr, acts, b, x, t)
    ensures StartStory(c, tr, acts, b, x + 1, t)
  {
    if !tr[x].threads[t].SBump? {
      PreparingStep(c, tr[x], t, acts[x].ok);
      UntouchedOn(tr, acts, b, x, t);
      if !Preparing(tr[x + 1].threads[t]) {
        assert GivesUp(c, tr, acts, x, t);
      }
    }
  }

  lemma OwnGivingUp(c: Config, tr: seq<State>, acts: seq<Action>, b: nat, x: nat, t: nat)
    requires b < x < |acts| && |tr| == |acts| + 1 && Own(acts[x], t) && Enabled(tr[x], t)
    requires tr[x + 1] == Apply(c, tr[x], acts[x])
    requires GivingUp(tr[x].threads[t]) && Untouched(tr, acts, b, x, t) && GaveUp(c, tr, acts, b, x, t)
    ensures StartStory(c, tr, acts, b, x + 1, t)
  {
    GivingUpStep(c, tr[x], t, acts[x].ok);
    UntouchedOn(tr, acts, b, x, t);
    var k: nat :| k < x && b < k && GivesUp(c, tr, acts, k, t);
    assert GaveUp(c, tr, acts, b, x + 1, t);
  }

  lemma OwnInstall(c: Config, tr: seq<State>, acts: seq<Action>, b: nat, x: nat, t: nat)
    requires b < x < |acts| && |tr| == |acts| + 1 && Own(acts[x], t) && Enabled(tr[x], t)
    requires EpochOk(tr[x]) && AllFit(c, tr[x]) && Kept(tr[x], tr[x + 1])
    requires tr[x + 1] == Apply(c, tr[x], acts[x]) && tr[x].threads[t].SInstall?
    ensures StartStory(c, tr, acts, b, x + 1, t)
  {
    InstallStep(c, tr[x], t);
    assert StartsUpAt(c, tr, acts, x, t);
  }

  lemma OwnSpawn(c: Config, tr: seq<State>, acts: seq<Action>, b: nat, x: nat, t: nat, k: nat)
    requires b < k < x < |acts| && |tr| == |acts| + 1 && Own(acts[x], t) && Enabled(tr[x], t)
    requires Detectors.DetectorsOk(tr[x]) && tr[x + 1] == Apply(c, tr[x], acts[x])
    requires StartsUpAt(c, tr, acts, k, t) && SpawnPending(tr[x].threads[t], tr[k + 1].core)
    ensures StartStory(c, tr, acts, b, x + 1, t)
  {
    SpawnStep(c, tr[x], t, tr[k + 1].core);
  }

  lemma OwnStarts(c: Config, tr: seq<State>, acts: seq<Action>, b: nat, x: nat, t: nat)
    requires b < x < |acts| && |tr| == |acts| + 1 && Own(acts[x], t) && Enabled(tr[x], t)
    requires Detectors.AllOk(tr[x]) && AllFit(c, tr[x]) && Kept(tr[x], tr[x + 1])
    requires tr[x + 1] == Apply(c, tr[x], acts[x]) && StartStory(c, tr, acts, b, x, t)
    ensures StartStory(c, tr, acts, b, x + 1, t)
  {
    var p := tr[x].threads[t];
    if Preparing(p) && Untouched(tr, acts, b, x, t) {
      OwnPreparing(c, tr, acts, b, x, t);
    } else if GivingUp(p) && Untouched(tr, acts, b, x, t) && GaveUp(c, tr, acts, b, x, t) {
      OwnGivingUp(c, tr, acts, b, x, t);
    } else if p.SInstall? {
      OwnInstall(c, tr, acts, b, x, t);
    } else {
      var k: nat :| k < x && b < k && StartsUpAt(c, tr, acts, k, t) && SpawnPending(p, tr[k + 1].core);
      OwnSpawn(c, tr, acts, b, x, t, k);
    }
  }

  lemma OthersStart(c: Config, tr: seq<State>, acts: seq<Action>, b: nat, x: nat, t: nat)
    requires b < x < |acts| && |tr| == |acts| + 1 && !Own(acts[x], t) && StartStory(c, tr, acts, b, x, t)
    requires tr[x].threads[t] != Idle && t < |tr[x + 1].threads| && tr[x + 1].threads[t] == tr[x].threads[t]
    ensures StartStory(c, tr, acts, b, x + 1, t)
  {
    var p := tr[x].threads[t];
    if Preparing(p) && Untouched(tr, acts, b, x, t) {
      UntouchedOn(tr, acts, b, x, t);
    } else if GivingUp(p) && Untouched(tr, acts, b, x, t) && GaveUp(c, tr, acts, b, x, t) {
      UntouchedOn(tr, acts, b, x, t);
      var k: nat :| k < x && b < k && GivesUp(c, tr, acts, k, t);
      assert GaveUp(c, tr, acts, b, x + 1, t);
    } else if !p.SInstall? {
      var k: nat :| k < x && b < k && StartsUpAt(c, tr, acts, k, t) && SpawnPending(p, tr[k + 1].core);
    }
  }

  lemma StartGoesOn(c: Config, tr: seq<State>, acts: seq<Action>, b: nat, x: nat, t: nat)
    requires IsRun(c, tr, acts) && b < x < |acts| && StartStory(c, tr, acts, b, x, t) && tr[x].threads[t] != Idle
    ensures StartStory(c, tr, acts, b, x + 1, t)
  {
    Detectors.AllRun(c, tr, acts, x);
    FitRun(c, tr, acts, x);
    StepKeeps(c, tr[x], acts[x]);
    if Own(acts[x], t) {
      OwnStarts(c, tr, acts, b, x, t);
    } else {
      OthersWait(c, tr[x], acts[x], t);
      OthersStart(c, tr, acts, b, x, t);
    }
  }

  ghost predicate StoryKept(c: Config, tr: seq<State>, acts: seq<Action>, b: nat, x: nat, t: nat)
    requires |tr| == |acts| + 1
  {
    x + 1 < |tr| && (StartStory(c, tr, acts, b, x, t) ==> StartStory(c, tr, acts, b, x + 1, t))
  }

  lemma {:induction false} StoryChain(c: Config, tr: seq<State>, acts: seq<Action>, b: nat, e: nat, t: nat)
    requires |tr| == |acts| + 1 && b < e < |tr| && StartStory(c, tr, acts, b, b + 1, t)
    requires forall x: nat | b < x < e :: StoryKept(c, tr, acts, b, x, t)
    ensures StartStory(c, tr, acts, b, e, t)
    decreases e
  {
    if b + 1 < e {
      StoryChain(c, tr, acts, b, e - 1, t);
      assert StoryKept(c, tr, acts, b, e - 1, t);
    }
  }

  lemma StartBegins(c: Config, tr: seq<State>, acts: seq<Action>, b: nat, t: nat)
    requires IsRun(c, tr, acts) && b < |acts| && acts[b] == Start(t)
    ensures StartStory(c, tr, acts, b, b + 1, t)
  {
    assert tr[b + 1] == Apply(c, tr[b], acts[b]);
  }

  lemma StartSoFar(c: Config, tr: seq<State>, acts: seq<Action>, b: nat, e: nat, t: nat)
    requires IsRun(c, tr, acts) && InCall(tr, acts, b, e, t) && acts[b].Start?
    ensures StartStory(c, tr, acts, b, e, t)
  {
    StartBegins(c, tr, acts, b, t);
    forall x: nat | b < x < e ensures StoryKept(c, tr, acts, b, x, t) {
      if StartStory(c, tr, acts, b, x, t) {
        StartGoesOn(c, tr, acts, b, x, t);
      }
    }
    StoryChain(c, tr, acts, b, e, t);
  }

  /** By state `e` the call started the Telemetry up, and the new detector's loop runs. */
  ghost predicate Started(c: Config, tr: seq<State>, acts: seq<Action>, b: nat, e: nat, t: nat)
    requires e < |tr|
  {
    exists k: nat | k < e :: b < k && StartsUpAt(c, tr, acts, k, t) && Spawned(tr[e].detectors, tr[k + 1].core)
  }

  /** A Start that returns started the Telemetry with what was configured and spawned the detector's
      loop; or none of its steps touched the Telemetry, and then it met a provider or monitor that
      failed, or found the Telemetry started. */
  lemma StartStarts(c: Config, tr: seq<State>, acts: seq<Action>, b: nat, e: nat, t: nat)
    requires IsRun(c, tr, acts) && Returns(tr, acts, b, e, t) && acts[b].Start?
    ensures || Started(c, tr, acts, b, e + 1, t)
            || (Untouched(tr, acts, b, e + 1, t) && GaveUp(c, tr, acts, b, e + 1, t))
  {
    StartSoFar(c, tr, acts, b, e, t);
    StartGoesOn(c, tr, acts, b, e, t);
  }
}
