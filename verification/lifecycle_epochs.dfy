/** Mutual exclusion, the epoch, the current registry and its handles, over all interleavings
    of Start and Shutdown. */
module LifecycleEpochs {
  import opened Labels
  import opened LifecycleMachine

  /** Announced as a writer, and waiting for the readers to leave. */
  predicate Draining(p: Pc) {
    p.SDrain? || p.SRedrain? || p.DDrain? || p.ADrain?
  }

  predicate Critical(p: Pc) {
    || Draining(p) || p.SCheck? || p.SRecheck? || p.SBump? || p.SInstall? || p.DCheck? || p.DBump? || p.DDetach?
    || p.AHold?
  }

  ghost predicate MutexOk(s: State) {
    && (s.mu.Some? ==> s.mu.value < |s.threads| && Critical(s.threads[s.mu.value]))
    && (forall t :: 0 <= t < |s.threads| && Critical(s.threads[t]) ==> s.mu == Some(t))
  }

  /** The holder of the mutex, or Idle. */
  function Holder(s: State): Pc {
    if s.mu.Some? && s.mu.value < |s.threads| then s.threads[s.mu.value] else Idle
  }

  /** No writer is past its wait: nobody changes what the mutex guards. */
  predicate Free(s: State) {
    s.mu == None || Draining(Holder(s))
  }

  /** Between the bump of the epoch and the publication of the new registry. */
  predicate Switching(p: Pc) {
    p.SInstall? || p.DDetach?
  }

  ghost predicate RegistriesOk(rs: seq<Registry>, epoch: nat) {
    && |rs| > 0
    && (forall i, j :: 0 <= i < j < |rs| ==> rs[i].epoch < rs[j].epoch)
    && rs[|rs| - 1].epoch <= epoch
  }

  /** While no switch is under way the last published registry carries the epoch, and the
      epoch is odd exactly while started. */
  ghost predicate EpochAgrees(started: bool, epoch: nat, last: nat, holder: Pc) {
    if Switching(holder) then last < epoch && !started && (holder.SInstall? <==> epoch % 2 == 1)
    else last == epoch && (started <==> epoch % 2 == 1) && (holder.SBump? ==> !started) && (holder.DBump? ==> started)
  }

  ghost predicate HandlesOk(hs: seq<Handle>, rs: seq<Registry>) {
    forall h :: 0 <= h < |hs| ==> hs[h].registry < |rs| && hs[h].epoch == rs[hs[h].registry].epoch
  }

  ghost predicate EpochOk(s: State) {
    && MutexOk(s) && RegistriesOk(s.registries, s.epoch) && s.core.registry == |s.registries| - 1
    && EpochAgrees(s.core.started, s.epoch, s.registries[s.core.registry].epoch, Holder(s))
    && HandlesOk(s.handles, s.registries)
  }

  // ----- steps that only take, keep or give back the mutex -----

  /** Thread `t` moves to `p`, and the mutex moves as `t` enters or leaves its critical section. */
  ghost predicate MutexMoves(s: State, t: nat, p: Pc, s': State) {
    && t < |s.threads| && s'.threads == s.threads[t := p]
    && (if Critical(s.threads[t]) == Critical(p) then s'.mu == s.mu
        else if Critical(p) then s.mu == None && s'.mu == Some(t)
        else s'.mu == None)
  }

  /** Nothing the mutex guards changes. */
  ghost predicate Passing(s: State, t: nat, p: Pc, s': State) {
    && MutexMoves(s, t, p, s') && s'.core == s.core && s'.epoch == s.epoch
    && s'.registries == s.registries && s'.handles == s.handles
    && !Switching(s.threads[t]) && !Switching(p)
    && (p.SBump? ==> !s.core.started) && (p.DBump? ==> s.core.started)
  }

  lemma BuildPasses(c: Config, s: State, t: nat, ok: bool)
    requires t < |s.threads| && Building(s.threads[t])
    ensures var s' := ExecBuild(c, s, t, ok); |s'.threads| == |s.threads| && Passing(s, t, s'.threads[t], s')
  {
  }

  lemma StartPasses(c: Config, s: State, t: nat)
    requires Enabled(s, t) && Starting(s.threads[t]) && !s.threads[t].SBump? && !s.threads[t].SInstall?
    ensures var s' := ExecStart(c, s, t); |s'.threads| == |s.threads| && Passing(s, t, s'.threads[t], s')
  {
  }

  lemma StopPasses(c: Config, s: State, t: nat)
    requires Enabled(s, t) && Stopping(s.threads[t]) && !s.threads[t].DBump? && !s.threads[t].DDetach?
    ensures var s' := ExecStop(c, s, t); |s'.threads| == |s.threads| && Passing(s, t, s'.threads[t], s')
  {
  }

  lemma VisitPasses(s: State, t: nat)
    requires Enabled(s, t) && Visiting(s.threads[t])
    ensures var s' := ExecVisit(s, t); |s'.threads| == |s.threads| && Passing(s, t, s'.threads[t], s')
  {
  }

  lemma GoMovesMutex(c: Config, s: State, t: nat, ok: bool)
    requires Enabled(s, t)
    ensures var s' := Exec(c, s, t, ok); |s'.threads| == |s.threads| && MutexMoves(s, t, s'.threads[t], s')
  {
    var p := s.threads[t];
    if Building(p) {
      BuildPasses(c, s, t, ok);
    } else if Starting(p) && !p.SBump? && !p.SInstall? {
      StartPasses(c, s, t);
    } else if Stopping(p) && !p.DBump? && !p.DDetach? {
      StopPasses(c, s, t);
    } else if Visiting(p) {
      VisitPasses(s, t);
    }
  }

  lemma MutexMove(s: State, t: nat, p: Pc, s': State)
    requires MutexOk(s) && MutexMoves(s, t, p, s')
    ensures MutexOk(s')
    ensures Critical(s.threads[t]) ==> Holder(s) == s.threads[t]
    ensures Holder(s') == if Critical(p) then p else if Critical(s.threads[t]) then Idle else Holder(s)
  {
    assert Critical(s.threads[t]) ==> s.mu == Some(t);
  }

  lemma PassingEpoch(s: State, t: nat, p: Pc, s': State)
    requires EpochOk(s) && Passing(s, t, p, s')
    ensures EpochOk(s')
  {
    MutexMove(s, t, p, s');
    assert !Critical(p) && Critical(s.threads[t]) ==> Holder(s') == Idle;
    assert !Critical(s.threads[t]) && Critical(p) ==> Holder(s) == Idle;
  }

  // ----- steps -----

  lemma BumpEpoch(c: Config, s: State, t: nat)
    requires EpochOk(s) && t < |s.threads| && s.threads[t].SBump?
    ensures EpochOk(ExecStart(c, s, t))
  {
    MutexMove(s, t, SInstall(s.threads[t].b), ExecStart(c, s, t));
  }

  lemma InstallEpoch(c: Config, s: State, t: nat)
    requires EpochOk(s) && t < |s.threads| && s.threads[t].SInstall?
    ensures EpochOk(ExecStart(c, s, t))
  {
    MutexMove(s, t, SBind(s.threads[t].b), ExecStart(c, s, t));
  }

  lemma StopBumpEpoch(c: Config, s: State, t: nat)
    requires EpochOk(s) && t < |s.threads| && s.threads[t].DBump?
    ensures EpochOk(ExecStop(c, s, t))
  {
    MutexMove(s, t, DDetach, ExecStop(c, s, t));
  }

  lemma DetachEpoch(c: Config, s: State, t: nat)
    requires EpochOk(s) && t < |s.threads| && s.threads[t].DDetach?
    ensures EpochOk(ExecStop(c, s, t))
  {
    MutexMove(s, t, ExecStop(c, s, t).threads[t], ExecStop(c, s, t));
  }

  lemma StartEpoch(c: Config, s: State, t: nat)
    requires EpochOk(s) && Enabled(s, t) && Starting(s.threads[t])
    ensures EpochOk(ExecStart(c, s, t))
  {
    if s.threads[t].SBump? {
      BumpEpoch(c, s, t);
    } else if s.threads[t].SInstall? {
      InstallEpoch(c, s, t);
    } else {
      StartPasses(c, s, t);
      PassingEpoch(s, t, ExecStart(c, s, t).threads[t], ExecStart(c, s, t));
    }
  }

  lemma StopEpoch(c: Config, s: State, t: nat)
    requires EpochOk(s) && Enabled(s, t) && Stopping(s.threads[t])
    ensures EpochOk(ExecStop(c, s, t))
  {
    if s.threads[t].DBump? {
      StopBumpEpoch(c, s, t);
    } else if s.threads[t].DDetach? {
      DetachEpoch(c, s, t);
    } else {
      StopPasses(c, s, t);
      PassingEpoch(s, t, ExecStop(c, s, t).threads[t], ExecStop(c, s, t));
    }
  }

  lemma GoEpoch(c: Config, s: State, t: nat, ok: bool)
    requires EpochOk(s) && Enabled(s, t)
    ensures EpochOk(Exec(c, s, t, ok))
  {
    if Building(s.threads[t]) {
      BuildPasses(c, s, t, ok);
      PassingEpoch(s, t, ExecBuild(c, s, t, ok).threads[t], ExecBuild(c, s, t, ok));
    } else if Starting(s.threads[t]) {
      StartEpoch(c, s, t);
    } else if Stopping(s.threads[t]) {
      StopEpoch(c, s, t);
    } else {
      VisitPasses(s, t);
      PassingEpoch(s, t, ExecVisit(s, t).threads[t], ExecVisit(s, t));
    }
  }

  /** An idle goroutine makes a call. */
  predicate Entering(p: Pc) {
    p.SLock? || p.DLock? || p.RLock? || p.ALock?
  }

  lemma BeginPasses(s: State, t: nat, p: Pc)
    requires t < |s.threads| && s.threads[t] == Idle && Entering(p)
    ensures Passing(s, t, p, Goto(s, t, p))
  {
  }

  lemma BeginEpoch(s: State, t: nat, p: Pc)
    requires EpochOk(s) && t < |s.threads| && s.threads[t] == Idle && Entering(p)
    ensures EpochOk(Goto(s, t, p))
  {
    BeginPasses(s, t, p);
    PassingEpoch(s, t, p, Goto(s, t, p));
  }

  lemma EpochStep(c: Config, s: State, a: Action)
    requires EpochOk(s) && Can(s, a)
    ensures EpochOk(Apply(c, s, a))
  {
    match a
    case Go(t, ok) => GoEpoch(c, s, t, ok);
    case Start(t) => BeginEpoch(s, t, SLock);
    case Shutdown(t) => BeginEpoch(s, t, DLock);
    case Read(t) => BeginEpoch(s, t, RLock);
    case Allow(t) => BeginEpoch(s, t, ALock);
    case LoopSeesStop(_) =>
    case TakeHandle(_) =>
    case Derive(_) =>
  }

  lemma {:induction false} EpochRun(c: Config, tr: seq<State>, acts: seq<Action>, i: nat)
    requires IsRun(c, tr, acts) && i < |tr|
    ensures EpochOk(tr[i])
  {
    if i > 0 {
      EpochRun(c, tr, acts, i - 1);
      EpochStep(c, tr[i - 1], acts[i - 1]);
    }
  }

  predicate Live(s: State, h: Handle) {
    h.epoch == s.epoch
  }

  /** A live handle belongs to the current registry; while no writer is past its wait for the
      mutex the converse holds too, the registry's epoch is the epoch, and the epoch is odd exactly while started. */
  lemma LiveIffCurrent(c: Config, tr: seq<State>, acts: seq<Action>, i: nat, h: nat)
    requires IsRun(c, tr, acts) && i < |tr| && h < |tr[i].handles|
    ensures var s := tr[i];
            && (Live(s, s.handles[h]) ==> s.handles[h].registry == s.core.registry)
            && (Free(s) ==> (Live(s, s.handles[h]) <==> s.handles[h].registry == s.core.registry))
  {
    EpochRun(c, tr, acts, i);
  }

  lemma EpochParity(c: Config, tr: seq<State>, acts: seq<Action>, i: nat)
    requires IsRun(c, tr, acts) && i < |tr| && Free(tr[i])
    ensures tr[i].core.registry < |tr[i].registries| && tr[i].registries[tr[i].core.registry].epoch == tr[i].epoch
    ensures tr[i].core.started <==> tr[i].epoch % 2 == 1
  {
    EpochRun(c, tr, acts, i);
  }

  ghost predicate Later(s: State, s': State) {
    s.epoch <= s'.epoch && s.handles <= s'.handles && s.registries <= s'.registries
  }

  lemma StepLater(c: Config, s: State, a: Action)
    requires Can(s, a)
    ensures Later(s, Apply(c, s, a))
  {
    if a.Go? {
      GoLater(c, s, a.t, a.ok);
    }
  }

  lemma GoLater(c: Config, s: State, t: nat, ok: bool)
    requires t < |s.threads|
    ensures Later(s, Exec(c, s, t, ok))
  {
    if Building(s.threads[t]) {
      BuildPasses(c, s, t, ok);
    } else if Starting(s.threads[t]) {
      StartLater(c, s, t);
    } else if Stopping(s.threads[t]) {
      StopLater(c, s, t);
    }
  }

  lemma StartLater(c: Config, s: State, t: nat)
    requires t < |s.threads| && Starting(s.threads[t])
    ensures Later(s, ExecStart(c, s, t))
  {
  }

  lemma StopLater(c: Config, s: State, t: nat)
    requires t < |s.threads| && Stopping(s.threads[t])
    ensures Later(s, ExecStop(c, s, t))
  {
  }

  ghost predicate LaterAt(tr: seq<State>, k: nat) {
    k + 1 < |tr| && Later(tr[k], tr[k + 1])
  }

  lemma {:induction false} LaterChain(tr: seq<State>, i: nat, j: nat)
    requires i <= j < |tr| && forall k: nat :: i <= k < j ==> LaterAt(tr, k)
    ensures Later(tr[i], tr[j])
    decreases j
  {
    if i < j {
      LaterChain(tr, i, j - 1);
      assert LaterAt(tr, j - 1);
      LaterStill(tr[i], tr[j - 1], tr[j]);
    }
  }

  lemma ActionLater(c: Config, tr: seq<State>, acts: seq<Action>, k: nat)
    requires IsRun(c, tr, acts) && k < |acts|
    ensures LaterAt(tr, k)
  {
    StepLater(c, tr[k], acts[k]);
  }

  /** The epoch never goes back; registries and handles are only ever added. */
  lemma RunLater(c: Config, tr: seq<State>, acts: seq<Action>, i: nat, j: nat)
    requires IsRun(c, tr, acts) && i <= j < |tr|
    ensures Later(tr[i], tr[j])
  {
    forall k: nat | i <= k < j ensures LaterAt(tr, k) {
      ActionLater(c, tr, acts, k);
    }
    LaterChain(tr, i, j);
  }

  lemma LaterStill(s: State, s': State, s'': State)
    requires Later(s, s') && Later(s', s'')
    ensures Later(s, s'')
  {
  }

  /** A superseded handle never comes back to life. */
  lemma DeadStaysDead(c: Config, tr: seq<State>, acts: seq<Action>, i: nat, j: nat, h: nat)
    requires IsRun(c, tr, acts) && i <= j < |tr| && h < |tr[i].handles|
    requires !Live(tr[i], tr[i].handles[h])
    ensures h < |tr[j].handles| && tr[j].handles[h] == tr[i].handles[h] && !Live(tr[j], tr[j].handles[h])
  {
    EpochRun(c, tr, acts, i);
    RunLater(c, tr, acts, i, j);
  }
}
