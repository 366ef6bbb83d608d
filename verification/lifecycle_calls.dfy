/** What a call of Start or Shutdown has done by the time it returns, over all interleavings: the
    counterpart of the safety statements about the lifecycle. */
module LifecycleCalls {
  import opened Labels
  import opened LifecycleMachine
  import opened LifecycleEpochs
  import opened LifecycleResources
  import opened LifecycleConfigured

  /** Thread `t` is still in the call it made at action `b`. */
  ghost predicate InCall(tr: seq<State>, acts: seq<Action>, b: nat, e: nat, t: nat) {
    && b < e < |tr| && b < |acts| && (acts[b].Start? || acts[b].Shutdown?) && acts[b].t == t
    && forall x :: b < x <= e ==> t < |tr[x].threads| && tr[x].threads[t] != Idle
  }

  /** And returns from it at action `e`. */
  ghost predicate Returns(tr: seq<State>, acts: seq<Action>, b: nat, e: nat, t: nat) {
    && InCall(tr, acts, b, e, t) && e < |acts| && e + 1 < |tr| && Own(acts[e], t)
    && t < |tr[e + 1].threads| && tr[e + 1].threads[t] == Idle
  }

  /** A step of thread `t`. */
  predicate Own(a: Action, t: nat) {
    a.Go? && a.t == t
  }

  /** While `t` is past its lock, no step of another thread changes what the mutex guards. */
  lemma OthersWait(c: Config, s: State, a: Action, t: nat)
    requires MutexOk(s) && t < |s.threads| && s.threads[t] != Idle && Can(s, a) && !Own(a, t)
    ensures var s' := Apply(c, s, a);
            && t < |s'.threads| && s'.threads[t] == s.threads[t]
            && (Critical(s.threads[t]) ==> s'.core == s.core && s'.epoch == s.epoch)
  {
    if a.Go? {
      assert !(Critical(s.threads[t]) && Critical(s.threads[a.t]));
      OtherMoves(c, s, a.t, a.ok, t);
    }
  }

  lemma OtherMoves(c: Config, s: State, u: nat, ok: bool, t: nat)
    requires t < |s.threads| && u != t && Enabled(s, u)
    ensures var s' := Exec(c, s, u, ok);
            && t < |s'.threads| && s'.threads[t] == s.threads[t]
            && (!Critical(s.threads[u]) ==> s'.core == s.core && s'.epoch == s.epoch)
  {
    GoMovesMutex(c, s, u, ok);
    if Building(s.threads[u]) {
      BuildPasses(c, s, u, ok);
    } else if Starting(s.threads[u]) && !s.threads[u].SBump? && !s.threads[u].SInstall? {
      StartPasses(c, s, u);
    } else if Stopping(s.threads[u]) && !s.threads[u].DBump? && !s.threads[u].DDetach? {
      StopPasses(c, s, u);
    } else if Visiting(s.threads[u]) {
      VisitPasses(s, u);
    }
  }

  // ----- Shutdown -----

  predicate ReleasedIn(rs: seq<Resource>, r: nat) {
    r < |rs| && rs[r].released >= 1
  }

  /** Everything `k` held is shut down, or still on the list. */
  ghost predicate OnItsWay(k: Core, rs: seq<Resource>, todo: seq<nat>) {
    forall r: nat :: CoreHolds(k, r) ==> r in todo || ReleasedIn(rs, r)
  }

  predicate DetectorGone(k: Core, ds: seq<Detector>) {
    k.detector.Some? ==> k.detector.value < |ds| && Finished(ds[k.detector.value])
  }

  /** Where a Shutdown that took down `k` stands, from its bump to its return. */
  ghost predicate TakingDown(k: Core, s: State, p: Pc) {
    match p
    case DDetach => s.core == k.(started := false)
    case DStop(d, todo) => d == k.detector && OnItsWay(k, s.resources, todo)
    case DWait(d, todo) => k.detector == Some(d) && OnItsWay(k, s.resources, todo)
    case Release(todo, relock) => !relock && OnItsWay(k, s.resources, todo) && DetectorGone(k, s.detectors)
    case Idle => OnItsWay(k, s.resources, []) && DetectorGone(k, s.detectors)
    case _ => false
  }

  lemma ReleaseGoesOn(c: Config, s: State, t: nat, k: Core)
    requires OwnersOk(s.threads, s.core, s.resources) && t < |s.threads| && s.threads[t].Release?
    requires TakingDown(k, s, s.threads[t])
    ensures t < |ExecStop(c, s, t).threads| && TakingDown(k, ExecStop(c, s, t), ExecStop(c, s, t).threads[t])
  {
    var todo := s.threads[t].todo;
    if todo != [] {
      assert Holds(s.threads[t], todo[0]);
      assert HoldsAt(s.threads, t, todo[0]) <==> OwnedBy(s.resources, todo[0], Thread(t));
    }
  }

  /** Its own steps carry a take-down on ... */
  lemma TakeDownGoesOn(c: Config, s: State, t: nat, k: Core)
    requires ResourcesOk(s) && Detectors.DetectorsOk(s) && Enabled(s, t) && TakingDown(k, s, s.threads[t])
    ensures Stopping(s.threads[t])
    ensures var s' := ExecStop(c, s, t); t < |s'.threads| && TakingDown(k, s', s'.threads[t])
  {
    assert Detectors.PcOk(s.detectors, s.caches, t, s.threads[t]);
    if s.threads[t].Release? {
      ReleaseGoesOn(c, s, t, k);
    } else if s.threads[t].DWait? {
      assert Detectors.Waiting(s.threads[t], s.threads[t].d);
    }
  }

  /** ... and those of others leave it where it is. */
  lemma TakeDownStays(s: State, s': State, p: Pc, k: Core)
    requires TakingDown(k, s, p) && Kept(s, s') && (p.DDetach? ==> s'.core == s.core)
    ensures TakingDown(k, s', p)
  {
  }

  predicate BeforeBump(p: Pc) {
    p.DLock? || p.DDrain? || p.DCheck? || p.DBump?
  }

  /** At action `x` thread `t` takes a started Telemetry down: it is not started any more, and the
      epoch moves on, so every handle that was live is dead. */
  predicate TakesDown(tr: seq<State>, acts: seq<Action>, x: nat, t: nat) {
    && x < |acts| && x + 1 < |tr| && Own(acts[x], t)
    && tr[x].core.started && tr[x + 1].core == tr[x].core.(started := false) && tr[x + 1].epoch == tr[x].epoch + 1
  }

  /** What a Shutdown under way at state `x` has behind it. */
  ghost predicate ShutdownStory(tr: seq<State>, acts: seq<Action>, b: nat, x: nat, t: nat)
    requires x < |tr|
  {
    && t < |tr[x].threads|
    && (BeforeBump(tr[x].threads[t])
        || exists k: nat | k < x :: b < k && TakesDown(tr, acts, k, t) && TakingDown(tr[k].core, tr[x], tr[x].threads[t]))
  }

  /** The Telemetry was found stopped, under the mutex. */
  predicate FoundStopped(s: State, t: nat) {
    s.mu == Some(t) && !s.core.started
  }

  lemma BeforeBumpStep(c: Config, s: State, t: nat)
    requires EpochOk(s) && Enabled(s, t) && BeforeBump(s.threads[t])
    ensures var s' := ExecStop(c, s, t); var p' := s'.threads[t];
            if s.threads[t].DBump? then
              p' == DDetach && s.core.started && s'.core == s.core.(started := false) && s'.epoch == s.epoch + 1
            else BeforeBump(p') || (p' == Idle && FoundStopped(s, t))
  {
  }

  lemma StoryGoesOn(c: Config, tr: seq<State>, acts: seq<Action>, b: nat, x: nat, t: nat)
    requires IsRun(c, tr, acts) && b < x < |acts| && ShutdownStory(tr, acts, b, x, t) && tr[x].threads[t] != Idle
    ensures ShutdownStory(tr, acts, b, x + 1, t)
            || (t < |tr[x + 1].threads| && tr[x + 1].threads[t] == Idle && FoundStopped(tr[x], t))
  {
    ResourcesRun(c, tr, acts, x);
    Detectors.AllRun(c, tr, acts, x);
    StepKeeps(c, tr[x], acts[x]);
    if Own(acts[x], t) {
      OwnStory(c, tr, acts, b, x, t);
    } else {
      OthersWait(c, tr[x], acts[x], t);
      OthersStory(tr, acts, b, x, t);
    }
  }

  lemma OwnStory(c: Config, tr: seq<State>, acts: seq<Action>, b: nat, x: nat, t: nat)
    requires b < x < |acts| && x + 1 < |tr| && ShutdownStory(tr, acts, b, x, t) && Own(acts[x], t)
    requires ResourcesOk(tr[x]) && EpochOk(tr[x]) && Detectors.DetectorsOk(tr[x]) && Enabled(tr[x], t)
    requires tr[x + 1] == Apply(c, tr[x], acts[x])
    ensures ShutdownStory(tr, acts, b, x + 1, t) || (tr[x + 1].threads[t] == Idle && FoundStopped(tr[x], t))
  {
    var p := tr[x].threads[t];
    if BeforeBump(p) {
      BeforeBumpStep(c, tr[x], t);
      if p.DBump? {
        assert TakesDown(tr, acts, x, t) && TakingDown(tr[x].core, tr[x + 1], tr[x + 1].threads[t]);
      }
    } else {
      var k: nat :| k < x && b < k && TakesDown(tr, acts, k, t) && TakingDown(tr[k].core, tr[x], p);
      TakeDownGoesOn(c, tr[x], t, tr[k].core);
      assert TakingDown(tr[k].core, tr[x + 1], tr[x + 1].threads[t]);
    }
  }

  lemma OthersStory(tr: seq<State>, acts: seq<Action>, b: nat, x: nat, t: nat)
    requires b < x && x + 1 < |tr| && ShutdownStory(tr, acts, b, x, t) && Kept(tr[x], tr[x + 1])
    requires t < |tr[x + 1].threads| && tr[x + 1].threads[t] == tr[x].threads[t]
    requires Critical(tr[x].threads[t]) ==> tr[x + 1].core == tr[x].core
    ensures ShutdownStory(tr, acts, b, x + 1, t)
  {
    var p := tr[x].threads[t];
    if !BeforeBump(p) {
      var k: nat :| k < x && b < k && TakesDown(tr, acts, k, t) && TakingDown(tr[k].core, tr[x], p);
      TakeDownStays(tr[x], tr[x + 1], p, tr[k].core);
    }
  }

  ghost predicate StoryKept(tr: seq<State>, acts: seq<Action>, b: nat, x: nat, t: nat) {
    x + 1 < |tr| && (ShutdownStory(tr, acts, b, x, t) ==> ShutdownStory(tr, acts, b, x + 1, t))
  }

  lemma {:induction false} StoryChain(tr: seq<State>, acts: seq<Action>, b: nat, e: nat, t: nat)
    requires b < e < |tr| && ShutdownStory(tr, acts, b, b + 1, t)
    requires forall x: nat | b < x < e :: StoryKept(tr, acts, b, x, t)
    ensures ShutdownStory(tr, acts, b, e, t)
    decreases e
  {
    if b + 1 < e {
      StoryChain(tr, acts, b, e - 1, t);
      assert StoryKept(tr, acts, b, e - 1, t);
    }
  }

  lemma ShutdownBegins(c: Config, tr: seq<State>, acts: seq<Action>, b: nat, t: nat)
    requires IsRun(c, tr, acts) && b < |acts| && acts[b] == Shutdown(t)
    ensures ShutdownStory(tr, acts, b, b + 1, t)
  {
    assert tr[b + 1] == Apply(c, tr[b], acts[b]);
  }

  lemma ShutdownSoFar(c: Config, tr: seq<State>, acts: seq<Action>, b: nat, e: nat, t: nat)
    requires IsRun(c, tr, acts) && InCall(tr, acts, b, e, t) && acts[b].Shutdown?
    ensures ShutdownStory(tr, acts, b, e, t)
  {
    ShutdownBegins(c, tr, acts, b, t);
    forall x: nat | b < x < e ensures StoryKept(tr, acts, b, x, t) {
      if ShutdownStory(tr, acts, b, x, t) {
        StoryGoesOn(c, tr, acts, b, x, t);
      }
    }
    StoryChain(tr, acts, b, e, t);
  }

  /** Everything `k` held has been shut down, once; its detector's loop was stopped once and is over. */
  ghost predicate TakenDown(k: Core, s: State) {
    && (forall r: nat :: CoreHolds(k, r) ==> r < |s.resources| && s.resources[r].released == 1)
    && (k.detector.Some? ==>
          var d := k.detector.value; d < |s.detectors| && s.detectors[d].stops == 1 && s.detectors[d].phase == Done)
  }

  lemma OnceDown(k: Core, s: State)
    requires ResourcesOk(s) && Detectors.DetectorsOk(s) && TakingDown(k, s, Idle)
    ensures TakenDown(k, s)
  {
    if k.detector.Some? {
      assert Detectors.DetectorOk(s.detectors[k.detector.value], k.detector.value, s.threads, s.caches);
    }
  }

  lemma ShutdownOver(tr: seq<State>, acts: seq<Action>, b: nat, e: nat, t: nat)
    requires e < |tr| && ResourcesOk(tr[e]) && Detectors.DetectorsOk(tr[e])
    requires ShutdownStory(tr, acts, b, e, t) && tr[e].threads[t] == Idle
    ensures exists k: nat | k < e :: b < k && TakesDown(tr, acts, k, t) && TakenDown(tr[k].core, tr[e])
  {
    var k: nat :| k < e && b < k && TakesDown(tr, acts, k, t) && TakingDown(tr[k].core, tr[e], Idle);
    OnceDown(tr[k].core, tr[e]);
  }

  /** What a Shutdown that returned by state `e` did: it took the Telemetry down, and everything
      that held is down by `e`. */
  ghost predicate TookDown(tr: seq<State>, acts: seq<Action>, b: nat, e: nat, t: nat)
    requires e < |tr|
  {
    exists k: nat | k < e :: b < k && TakesDown(tr, acts, k, t) && TakenDown(tr[k].core, tr[e])
  }

  /** A Shutdown that returns found the Telemetry stopped, or stopped it: in between it bumped the
      epoch of a started Telemetry, and by its return all that Telemetry held is shut down once and
      its detector's loop is over. */
  lemma ShutdownShutsDown(c: Config, tr: seq<State>, acts: seq<Action>, b: nat, e: nat, t: nat)
    requires IsRun(c, tr, acts) && Returns(tr, acts, b, e, t) && acts[b].Shutdown?
    ensures FoundStopped(tr[e], t) || TookDown(tr, acts, b, e + 1, t)
  {
    ShutdownSoFar(c, tr, acts, b, e, t);
    StoryGoesOn(c, tr, acts, b, e, t);
    ResourcesRun(c, tr, acts, e + 1);
    Detectors.AllRun(c, tr, acts, e + 1);
    if !FoundStopped(tr[e], t) {
      ShutdownOver(tr, acts, b, e + 1, t);
    }
  }

  /** From then on every handle there was is dead. */
  lemma TakingDownKillsHandles(c: Config, tr: seq<State>, acts: seq<Action>, k: nat, j: nat, t: nat, h: nat)
    requires IsRun(c, tr, acts) && TakesDown(tr, acts, k, t) && k < j < |tr| && h < |tr[k].handles|
    ensures h < |tr[j].handles| && tr[j].handles[h] == tr[k].handles[h] && !Live(tr[j], tr[j].handles[h])
  {
    EpochRun(c, tr, acts, k);
    RunLater(c, tr, acts, k, j);
    RunLater(c, tr, acts, k + 1, j);
    NoHandleAhead(tr[k], h);
  }

  lemma NoHandleAhead(s: State, h: nat)
    requires EpochOk(s) && h < |s.handles|
    ensures s.handles[h].epoch <= s.epoch
  {
    var r := s.handles[h].registry;
    assert r == |s.registries| - 1 || s.registries[r].epoch < s.registries[|s.registries| - 1].epoch;
  }
}
