/** Every call of the lifecycle returns, under any schedule. */
module LifecycleProgress {
  import opened Labels
  import opened Threads
  import opened LifecycleMachine
  import opened LifecycleEpochs
  import opened LifecycleDetectors

  /** How many steps a call still takes at most; the one that spawns a loop pays for the loop. */
  function Rank(p: Pc): (r: int)
    ensures r >= 0
  {
    match p
    case Idle => 0
    case SLock => 17
    case SDrain => 16
    case SCheck => 15
    case SMetric => 14
    case STrace(_) => 13
    case SAllow(_) => 12
    case SCopy(_) => 11
    case SBuild(_) => 10
    case SMonitor(_) => 9
    case SRelock(_) => 8
    case SRedrain(_) => 7
    case SRecheck(_) => 6
    case SBump(_) => 5
    case SInstall(_) => 4
    case SBind(_) => 3
    case SSpawn(_) => 2
    case DLock => 11
    case DDrain => 10
    case DCheck => 9
    case DBump => 8
    case DDetach => 7
    case DStop(_, todo) => 3 + |todo|
    case DWait(_, todo) => 2 + |todo|
    case Release(todo, relock) => 1 + |todo| + if relock then 3 else 0
    case RLock => 2
    case RHold => 1
    case ALock => 3
    case ADrain => 2
    case AHold => 1
  }

  /** A running loop ends with one step. */
  function Loop(x: Detector): int {
    if x.phase.Running? then 1 else 0
  }

  function Measure(s: State): int {
    Total(s.threads, Rank) + Total(s.detectors, Loop)
  }

  /** The step brings the call of thread `t` nearer to its return. */
  predicate Nearer(s: State, t: nat, s': State) {
    t < |s.threads| == |s'.threads| && Rank(s'.threads[t]) < Rank(s.threads[t])
  }

  lemma BuildNearer(c: Config, s: State, t: nat, ok: bool)
    requires t < |s.threads| && Building(s.threads[t])
    ensures Nearer(s, t, ExecBuild(c, s, t, ok))
  {
  }

  lemma InstallNearer(c: Config, s: State, t: nat)
    requires t < |s.threads| && s.threads[t].SInstall?
    ensures Nearer(s, t, ExecStart(c, s, t))
  {
  }

  lemma StartNearer(c: Config, s: State, t: nat)
    requires t < |s.threads| && Starting(s.threads[t])
    ensures Nearer(s, t, ExecStart(c, s, t))
    ensures s.threads[t].SSpawn? ==> Rank(ExecStart(c, s, t).threads[t]) == Rank(s.threads[t]) - 2
  {
    if s.threads[t].SInstall? {
      InstallNearer(c, s, t);
    }
  }

  lemma DetachNearer(c: Config, s: State, t: nat)
    requires t < |s.threads| && s.threads[t].DDetach?
    ensures Nearer(s, t, ExecStop(c, s, t))
  {
  }

  lemma StopNearer(c: Config, s: State, t: nat)
    requires t < |s.threads| && Stopping(s.threads[t])
    ensures Nearer(s, t, ExecStop(c, s, t))
  {
    if s.threads[t].DDetach? {
      DetachNearer(c, s, t);
    }
  }

  lemma VisitNearer(s: State, t: nat)
    requires t < |s.threads| && Visiting(s.threads[t])
    ensures Nearer(s, t, ExecVisit(s, t))
  {
  }

  /** One detector changes, and only a spawned loop counts. */
  lemma LoopsMove(ds: seq<Detector>, o: Option<nat>, t: nat)
    ensures Total(SetInstalled(ds, o), Loop) == Total(ds, Loop)
    ensures Total(SetStopper(ds, o, t), Loop) == Total(ds, Loop)
    ensures Total(Spawn(ds, o), Loop) <= Total(ds, Loop) + 1
  {
    if o.Some? && o.value < |ds| {
      TotalUpdate(ds, o.value, SetInstalled(ds, o)[o.value], Loop);
      TotalUpdate(ds, o.value, SetStopper(ds, o, t)[o.value], Loop);
      TotalUpdate(ds, o.value, Spawn(ds, o)[o.value], Loop);
    }
  }

  lemma CloseMoves(ds: seq<Detector>, d: nat)
    ensures Total(Close(ds, d), Loop) == Total(ds, Loop)
  {
    if d < |ds| {
      TotalUpdate(ds, d, Close(ds, d)[d], Loop);
    }
  }

  lemma OneMoreLoop(ds: seq<Detector>, x: Detector)
    ensures Total(ds + [x], Loop) == Total(ds, Loop) + Loop(x)
  {
    assert (ds + [x])[..|ds|] == ds;
  }

  /** Nothing but a new detector, whose loop does not run yet. */
  lemma BuildDetects(c: Config, s: State, t: nat, ok: bool)
    requires t < |s.threads| && Building(s.threads[t])
    ensures var ds' := ExecBuild(c, s, t, ok).detectors;
            ds' == s.detectors || (ds' != [] && ds' == s.detectors + [ds'[|ds'| - 1]] && Loop(ds'[|ds'| - 1]) == 0)
  {
  }

  lemma BuildLoops(c: Config, s: State, t: nat, ok: bool)
    requires t < |s.threads| && Building(s.threads[t])
    ensures Total(ExecBuild(c, s, t, ok).detectors, Loop) == Total(s.detectors, Loop)
  {
    BuildDetects(c, s, t, ok);
    var ds' := ExecBuild(c, s, t, ok).detectors;
    if ds' != s.detectors {
      OneMoreLoop(s.detectors, ds'[|ds'| - 1]);
    }
  }

  lemma StartLoops(c: Config, s: State, t: nat)
    requires t < |s.threads| && Starting(s.threads[t])
    ensures Total(ExecStart(c, s, t).detectors, Loop) <= Total(s.detectors, Loop) + if s.threads[t].SSpawn? then 1 else 0
  {
    var p := s.threads[t];
    if p.SInstall? || p.SSpawn? {
      LoopsMove(s.detectors, p.b.detector, 0);
    }
  }

  lemma StopLoops(c: Config, s: State, t: nat)
    requires t < |s.threads| && Stopping(s.threads[t])
    ensures Total(ExecStop(c, s, t).detectors, Loop) == Total(s.detectors, Loop)
  {
    var p := s.threads[t];
    if p.DDetach? {
      LoopsMove(s.detectors, s.core.detector, t);
    } else if p.DStop? && p.detector.Some? {
      CloseMoves(s.detectors, p.detector.value);
    }
  }

  lemma Falls(s: State, t: nat, s': State)
    requires Nearer(s, t, s') && s'.threads == s.threads[t := s'.threads[t]]
    requires Total(s'.detectors, Loop) - Total(s.detectors, Loop) <= Rank(s.threads[t]) - Rank(s'.threads[t]) - 1
    ensures Measure(s') < Measure(s)
  {
    TotalUpdate(s.threads, t, s'.threads[t], Rank);
  }

  lemma GoFalls(c: Config, s: State, t: nat, ok: bool)
    requires Enabled(s, t)
    ensures Measure(Exec(c, s, t, ok)) < Measure(s)
  {
    if Building(s.threads[t]) {
      BuildNearer(c, s, t, ok);
      BuildLoops(c, s, t, ok);
    } else if Starting(s.threads[t]) {
      StartNearer(c, s, t);
      StartLoops(c, s, t);
    } else if Stopping(s.threads[t]) {
      StopNearer(c, s, t);
      StopLoops(c, s, t);
    } else {
      VisitNearer(s, t);
    }
    GoMovesMutex(c, s, t, ok);
    Falls(s, t, Exec(c, s, t, ok));
  }

  lemma LoopFalls(c: Config, s: State, d: nat)
    requires Can(s, LoopSeesStop(d))
    ensures Measure(Apply(c, s, LoopSeesStop(d))) < Measure(s)
  {
    TotalUpdate(s.detectors, d, s.detectors[d].(phase := Done), Loop);
  }

  /** A step of a call or of a loop. */
  predicate Moves(a: Action) {
    a.Go? || a.LoopSeesStop?
  }

  predicate Begins(a: Action) {
    a.Start? || a.Shutdown? || a.Read? || a.Allow?
  }

  lemma StepFalls(c: Config, s: State, a: Action)
    requires Can(s, a) && !Begins(a)
    ensures Measure(Apply(c, s, a)) <= Measure(s) - if Moves(a) then 1 else 0
  {
    if a.Go? {
      GoFalls(c, s, a.t, a.ok);
    } else if a.LoopSeesStop? {
      LoopFalls(c, s, a.d);
    }
  }

  // ----- lists are short -----

  predicate Short(p: Pc) {
    && (p.DStop? || p.DWait? ==> |p.todo| <= 3)
    && (p.Release? ==> |p.todo| <= if p.relock then 2 else 3)
  }

  lemma BuildKeepsShort(c: Config, s: State, t: nat, ok: bool)
    requires t < |s.threads| && Building(s.threads[t])
    ensures t < |ExecBuild(c, s, t, ok).threads| && Short(ExecBuild(c, s, t, ok).threads[t])
  {
  }

  lemma StartKeepsShort(c: Config, s: State, t: nat)
    requires t < |s.threads| && Starting(s.threads[t])
    ensures t < |ExecStart(c, s, t).threads| && Short(ExecStart(c, s, t).threads[t])
  {
  }

  lemma StopKeepsShort(c: Config, s: State, t: nat)
    requires t < |s.threads| && Stopping(s.threads[t]) && Short(s.threads[t])
    ensures t < |ExecStop(c, s, t).threads| && Short(ExecStop(c, s, t).threads[t])
  {
  }

  lemma GoKeepsShort(c: Config, s: State, t: nat, ok: bool)
    requires Enabled(s, t) && Short(s.threads[t])
    ensures t < |Exec(c, s, t, ok).threads| && Short(Exec(c, s, t, ok).threads[t])
  {
    if Building(s.threads[t]) {
      BuildKeepsShort(c, s, t, ok);
    } else if Starting(s.threads[t]) {
      StartKeepsShort(c, s, t);
    } else if Stopping(s.threads[t]) {
      StopKeepsShort(c, s, t);
    } else {
      VisitNearer(s, t);
    }
  }

  lemma {:induction false} ShortRun(c: Config, tr: seq<State>, acts: seq<Action>, i: nat)
    requires IsRun(c, tr, acts) && i < |tr|
    ensures forall t :: 0 <= t < |tr[i].threads| ==> Short(tr[i].threads[t])
  {
    if i > 0 {
      ShortRun(c, tr, acts, i - 1);
      if acts[i - 1].Go? {
        GoMovesMutex(c, tr[i - 1], acts[i - 1].t, acts[i - 1].ok);
        GoKeepsShort(c, tr[i - 1], acts[i - 1].t, acts[i - 1].ok);
      }
    }
  }

  lemma MeasureBound(s: State)
    requires forall t :: 0 <= t < |s.threads| ==> Short(s.threads[t])
    ensures 0 <= Measure(s) <= 17 * |s.threads| + |s.detectors|
  {
    TotalAtMost(s.threads, Rank, 17);
    TotalAtLeast(s.threads, Rank, 0);
    TotalAtMost(s.detectors, Loop, 1);
    TotalAtLeast(s.detectors, Loop, 0);
  }

  // ----- over whole runs -----

  /** The steps of calls and loops from action `i` to `j`. */
  function Steps(acts: seq<Action>, i: nat, j: nat): nat
    requires i <= j <= |acts|
    decreases j
  {
    if i == j then 0 else Steps(acts, i, j - 1) + if Moves(acts[j - 1]) then 1 else 0
  }

  predicate Paid(tr: seq<State>, acts: seq<Action>, k: nat) {
    && k < |acts| && k + 1 < |tr| && Measure(tr[k + 1]) <= Measure(tr[k]) - if Moves(acts[k]) then 1 else 0
  }

  lemma {:induction false} PaidChain(tr: seq<State>, acts: seq<Action>, i: nat, j: nat)
    requires i <= j < |tr| && j <= |acts| && forall k: nat | i <= k < j :: Paid(tr, acts, k)
    ensures Steps(acts, i, j) + Measure(tr[j]) <= Measure(tr[i])
    decreases j
  {
    if i < j {
      PaidChain(tr, acts, i, j - 1);
      assert Paid(tr, acts, j - 1);
    }
  }

  lemma ActionPaid(c: Config, tr: seq<State>, acts: seq<Action>, k: nat)
    requires IsRun(c, tr, acts) && k < |acts| && !Begins(acts[k])
    ensures Paid(tr, acts, k)
  {
    StepFalls(c, tr[k], acts[k]);
  }

  /** From any reachable state, as long as nobody makes a new call, N goroutines and the detectors'
      loops together take at most 17 steps each goroutine and one each detector, whatever the
      schedule and the outcomes; and when none of them can take another step every call of Start,
      Shutdown and the rest has returned. */
  lemma EveryCallReturns(c: Config, tr: seq<State>, acts: seq<Action>, i: nat, j: nat)
    requires IsRun(c, tr, acts) && i <= j < |tr| && forall k :: i <= k < j ==> !Begins(acts[k])
    ensures Steps(acts, i, j) <= 17 * |tr[i].threads| + |tr[i].detectors|
    ensures (forall a :: Moves(a) ==> !Can(tr[j], a)) ==> forall t :: 0 <= t < |tr[j].threads| ==> tr[j].threads[t] == Idle
  {
    forall k: nat | i <= k < j ensures Paid(tr, acts, k) {
      ActionPaid(c, tr, acts, k);
    }
    PaidChain(tr, acts, i, j);
    ShortRun(c, tr, acts, i);
    MeasureBound(tr[i]);
    ShortRun(c, tr, acts, j);
    MeasureBound(tr[j]);
    if t: nat :| t < |tr[j].threads| && tr[j].threads[t] != Idle {
      var a := SomethingCanHappen(c, tr, acts, j, t);
    }
  }
}
