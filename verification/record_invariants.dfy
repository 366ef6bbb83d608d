/** What holds in every reachable state of RecordMachine. */
module RecordInvariants {
  import opened Labels
  import opened Threads
  import opened RecordMachine

  // ----- locks -----

  /** The critical section a program counter is in. */
  function GripOf(c: Config, p: Pc): Grip {
    match p
    case AtProbe(o) => R(c.route(o.call.key))
    case AtRUnlockHit(o, _) => R(c.route(o.call.key))
    case AtRUnlockMiss(o) => R(c.route(o.call.key))
    case ScanRead(i, _, _) => R(i)
    case ScanUnlock(i, _, _) => R(i)
    case AtDrain(o) => A(c.route(o.call.key))
    case AtRecheck(o) => W(c.route(o.call.key))
    case AtLoad(o, _, _) => W(c.route(o.call.key))
    case AtCas(o, _, _, _) => W(c.route(o.call.key))
    case AtObserveWin(o) => W(c.route(o.call.key))
    case AtInsert(o) => W(c.route(o.call.key))
    case AtObserveMiss(o) => W(c.route(o.call.key))
    case AtObserveOverflow(o) => W(c.route(o.call.key))
    case AtUnlock(o, _) => W(c.route(o.call.key))
    case _ => Out
  }

  function Grips(c: Config, ts: seq<Pc>): (gs: seq<Grip>)
    ensures |gs| == |ts| && forall t :: 0 <= t < |ts| ==> gs[t] == GripOf(c, ts[t])
  {
    if ts == [] then [] else Grips(c, ts[..|ts| - 1]) + [GripOf(c, ts[|ts| - 1])]
  }

  ghost predicate LocksOk(c: Config, s: State) {
    Shape(c, s) && Consistent(s.locks, Grips(c, s.threads))
  }

  lemma LocksInit(c: Config, s: State)
    requires Init(c, s)
    ensures LocksOk(c, s)
  {
    assert forall t :: 0 <= t < |s.threads| ==> Grips(c, s.threads)[t] == Out;
  }

  /** A step moves one thread, and moves the locks as that thread's critical section changes. */
  ghost predicate Effect(c: Config, s: State, t: nat, s': State)
    requires Shape(c, s) && t < |s.threads|
  {
    && |s'.threads| == |s.threads| && s'.threads == s.threads[t := s'.threads[t]]
    && CanShift(s.locks, GripOf(c, s.threads[t]), GripOf(c, s'.threads[t]))
    && s'.locks == Shifted(s.locks, t, GripOf(c, s.threads[t]), GripOf(c, s'.threads[t]))
    && |s'.shards| == SHARDS && ScanShape(s'.threads[t])
  }

  lemma CallEffect(c: Config, s: State, t: nat)
    requires Shape(c, s) && t < |s.threads| && Calling(s.threads[t])
    ensures Effect(c, s, t, ExecCall(c, s, t))
  {
  }

  lemma ReadEffect(c: Config, s: State, t: nat)
    requires Shape(c, s) && Enabled(c, s, t)
    requires var p := s.threads[t]; p.AtRLock? || p.AtProbe? || p.AtRUnlockHit? || p.AtRUnlockMiss?
    ensures Effect(c, s, t, ExecProbe(c, s, t))
  {
  }

  lemma WriteEffect(c: Config, s: State, t: nat)
    requires Shape(c, s) && Enabled(c, s, t)
    requires var p := s.threads[t]; p.AtLock? || p.AtDrain? || p.AtRecheck? || p.AtUnlock?
    ensures Effect(c, s, t, ExecProbe(c, s, t))
  {
  }

  lemma ProbeEffect(c: Config, s: State, t: nat)
    requires Shape(c, s) && Enabled(c, s, t) && Probing(s.threads[t])
    ensures Effect(c, s, t, ExecProbe(c, s, t))
  {
    if s.threads[t].AtLock? || s.threads[t].AtDrain? || s.threads[t].AtRecheck? || s.threads[t].AtUnlock? {
      WriteEffect(c, s, t);
    } else {
      ReadEffect(c, s, t);
    }
  }

  lemma ReserveEffect(c: Config, s: State, t: nat)
    requires Shape(c, s) && t < |s.threads| && Reserving(s.threads[t])
    ensures Effect(c, s, t, ExecReserve(c, s, t))
  {
  }

  lemma ScanUnlockEffect(c: Config, s: State, t: nat)
    requires Shape(c, s) && Enabled(c, s, t) && s.threads[t].ScanUnlock?
    ensures Effect(c, s, t, ExecScan(c, s, t))
  {
    assert ScanShape(s.threads[t]);
  }

  lemma ScanEffect(c: Config, s: State, t: nat)
    requires Shape(c, s) && Enabled(c, s, t) && Scanning(s.threads[t])
    ensures Effect(c, s, t, ExecScan(c, s, t))
  {
    if s.threads[t].ScanUnlock? {
      ScanUnlockEffect(c, s, t);
    } else {
      assert ScanShape(s.threads[t]);
    }
  }

  lemma GoEffect(c: Config, s: State, t: nat)
    requires Shape(c, s) && Enabled(c, s, t)
    ensures Effect(c, s, t, Exec(c, s, t))
  {
    var p := s.threads[t];
    if Calling(p) {
      CallEffect(c, s, t);
    } else if Probing(p) {
      ProbeEffect(c, s, t);
    } else if Reserving(p) {
      ReserveEffect(c, s, t);
    } else {
      ScanEffect(c, s, t);
    }
  }

  lemma LocksFollow(c: Config, s: State, t: nat, s': State)
    requires LocksOk(c, s) && t < |s.threads| && Effect(c, s, t, s')
    ensures LocksOk(c, s')
  {
    ShiftConsistent(s.locks, Grips(c, s.threads), t, GripOf(c, s'.threads[t]));
    assert Grips(c, s'.threads) == Grips(c, s.threads)[t := GripOf(c, s'.threads[t])];
  }

  lemma LocksStep(c: Config, s: State, a: Action)
    requires LocksOk(c, s) && Can(c, s, a)
    ensures LocksOk(c, Apply(c, s, a))
  {
    match a
    case Go(t) =>
      GoEffect(c, s, t);
      LocksFollow(c, s, t, Apply(c, s, a));
    case AddWith(t, _) => LocksFollow(c, s, t, Apply(c, s, a));
    case Add(t, _) => LocksFollow(c, s, t, Apply(c, s, a));
    case Subjects(t) => LocksFollow(c, s, t, Apply(c, s, a));
    case Bump =>
    case Allow(_) =>
  }
}
