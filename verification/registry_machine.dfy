/** Any number of goroutines asking one registry for instruments: the double-checked
    `getOrCreate`, one lock operation, table access or meter call at a time. */
module RegistryMachine {
  import opened Labels
  import opened Threads
  import opened Instruments

  datatype Config = Config(max: nat)

  datatype Pc =
    | Idle
    | AtRLock(n: Name)
    | AtProbe(n: Name)
    | AtRUnlockHit(n: Name, h: nat)
    | AtRUnlockMiss(n: Name)
    | AtLock(n: Name)
    | AtDrain(n: Name)
    | AtRecheck(n: Name)
    | AtLimit(n: Name)
    | AtCreate(n: Name)
    | AtStore(n: Name, h: nat)
    | AtUnlock(n: Name, r: Option<nat>)

  /** A call that returned: a handle, or an error with the tables it was decided on. */
  datatype Answer = Handle(n: Name, h: nat) | Error(n: Name, seen: Tables<nat>, full: bool)

  /** A handle is named by its registration's index with the meter. */
  datatype State = State(
    threads: seq<Pc>, locks: seq<RwLock>, tables: Tables<nat>, registered: seq<Name>, answers: seq<Answer>)

  ghost predicate Init(c: Config, s: State) {
    && c.max > 0 && (forall t :: 0 <= t < |s.threads| ==> s.threads[t] == Idle) && s.locks == [FREE]
    && s.tables == Tables(map[], map[], map[]) && s.registered == [] && s.answers == []
  }

  /** `ok` is the SDK's verdict on a registration. */
  datatype Action = Ask(t: nat, n: Name) | Go(t: nat, ok: bool)

  predicate Can(s: State, a: Action) {
    |s.locks| == 1 && a.t < |s.threads|
    && match a
       case Ask(t, _) => s.threads[t] == Idle
       case Go(t, _) =>
         match s.threads[t]
         case Idle => false
         case AtRLock(_) => s.locks[0].CanRead()
         case AtLock(_) => s.locks[0].CanAnnounce()
         case AtDrain(_) => s.locks[0].Drained()
         case _ => true
  }

  function Goto(s: State, t: nat, p: Pc): State
    requires t < |s.threads|
  {
    s.(threads := s.threads[t := p])
  }

  function Exec(c: Config, s: State, t: nat, ok: bool): State
    requires |s.locks| == 1 && t < |s.threads|
  {
    var l := s.locks[0];
    match s.threads[t]
    case Idle => s
    case AtRLock(n) => Goto(s, t, AtProbe(n)).(locks := [l.(readers := l.readers + {t})])
    case AtProbe(n) =>
      var h := Find(s.tables, n);
      Goto(s, t, if h.Some? then AtRUnlockHit(n, h.value) else AtRUnlockMiss(n))
    case AtRUnlockHit(n, h) =>
      Goto(s, t, Idle).(locks := [l.(readers := l.readers - {t})], answers := s.answers + [Handle(n, h)])
    case AtRUnlockMiss(n) => Goto(s, t, AtLock(n)).(locks := [l.(readers := l.readers - {t})])
    case AtLock(n) => Goto(s, t, AtDrain(n)).(locks := [l.(writer := Some(t))])
    case AtDrain(n) => Goto(s, t, AtRecheck(n))
    case AtRecheck(n) =>
      var h := Find(s.tables, n);
      Goto(s, t, if h.Some? then AtUnlock(n, h) else AtLimit(n))
    case AtLimit(n) =>
      if Count(s.tables) >= c.max then Goto(s, t, AtUnlock(n, None)).(answers := s.answers + [Error(n, s.tables, true)])
      else Goto(s, t, AtCreate(n))
    case AtCreate(n) =>
      if ok then Goto(s, t, AtStore(n, |s.registered|)).(registered := s.registered + [n])
      else Goto(s, t, AtUnlock(n, None)).(answers := s.answers + [Error(n, s.tables, false)])
    case AtStore(n, h) => Goto(s, t, AtUnlock(n, Some(h))).(tables := Put(s.tables, n, h))
    case AtUnlock(n, r) =>
      Goto(s, t, Idle)
      .(locks := [l.(writer := None)], answers := if r.Some? then s.answers + [Handle(n, r.value)] else s.answers)
  }

  function Apply(c: Config, s: State, a: Action): State
    requires Can(s, a)
  {
    match a
    case Ask(t, n) => Goto(s, t, AtRLock(n))
    case Go(t, ok) => Exec(c, s, t, ok)
  }

  ghost predicate IsRun(c: Config, tr: seq<State>, acts: seq<Action>) {
    && |tr| == |acts| + 1 && Init(c, tr[0])
    && forall i :: 0 <= i < |acts| ==> Can(tr[i], acts[i]) && tr[i + 1] == Apply(c, tr[i], acts[i])
  }

  // ----- locks -----

  function GripOf(p: Pc): Grip {
    match p
    case AtProbe(_) => R(0)
    case AtRUnlockHit(_, _) => R(0)
    case AtRUnlockMiss(_) => R(0)
    case AtDrain(_) => A(0)
    case AtRecheck(_) => W(0)
    case AtLimit(_) => W(0)
    case AtCreate(_) => W(0)
    case AtStore(_, _) => W(0)
    case AtUnlock(_, _) => W(0)
    case _ => Out
  }

  function Grips(ts: seq<Pc>): (gs: seq<Grip>)
    ensures |gs| == |ts| && forall t :: 0 <= t < |ts| ==> gs[t] == GripOf(ts[t])
  {
    if ts == [] then [] else Grips(ts[..|ts| - 1]) + [GripOf(ts[|ts| - 1])]
  }

  ghost predicate LocksOk(s: State) {
    |s.locks| == 1 && Consistent(s.locks, Grips(s.threads))
  }

  lemma LocksStep(c: Config, s: State, a: Action)
    requires LocksOk(s) && Can(s, a)
    ensures LocksOk(Apply(c, s, a))
  {
    var s' := Apply(c, s, a);
    var g' := GripOf(s'.threads[a.t]);
    LocksShift(c, s, a);
    ShiftConsistent(s.locks, Grips(s.threads), a.t, g');
    assert Grips(s'.threads) == Grips(s.threads)[a.t := g'];
  }

  /** A step moves one thread, and the lock as that thread's critical section changes. */
  lemma LocksShift(c: Config, s: State, a: Action)
    requires |s.locks| == 1 && Can(s, a)
    ensures var s' := Apply(c, s, a);
            && |s'.threads| == |s.threads| && s'.threads == s.threads[a.t := s'.threads[a.t]]
            && CanShift(s.locks, GripOf(s.threads[a.t]), GripOf(s'.threads[a.t]))
            && s'.locks == Shifted(s.locks, a.t, GripOf(s.threads[a.t]), GripOf(s'.threads[a.t]))
  {
  }

  // ----- tables and registrations -----

  predicate Storing(p: Pc, n: Name, h: nat) {
    p == AtStore(n, h)
  }

  /** Every registration is stored or about to be, by the thread that holds the write lock. */
  ghost predicate Accounted(s: State, h: nat)
    requires |s.locks| == 1 && h < |s.registered|
  {
    || Find(s.tables, s.registered[h]) == Some(h)
    || (s.locks[0].writer.Some? && s.locks[0].writer.value < |s.threads|
        && Storing(s.threads[s.locks[0].writer.value], s.registered[h], h))
  }

  predicate PcOk(c: Config, tables: Tables<nat>, registered: seq<Name>, p: Pc) {
    match p
    case AtRUnlockHit(n, h) => h < |registered| && registered[h] == n
    case AtUnlock(n, r) => r.Some? ==> r.value < |registered| && registered[r.value] == n
    case AtLimit(n) => n !in registered
    case AtCreate(n) => n !in registered && Count(tables) < c.max
    case AtStore(n, h) => Find(tables, n).None? && h < |registered| && registered[h] == n
    case _ => true
  }

  /** A handle belongs to its name; an error is given only for a name without a handle, and
      the limit error only when the tables are full. */
  predicate AnswerOk(c: Config, registered: seq<Name>, a: Answer) {
    match a
    case Handle(n, h) => h < |registered| && registered[h] == n
    case Error(n, seen, full) => Find(seen, n).None? && (full <==> Count(seen) == c.max)
  }

  function Storer(p: Pc): int { if p.AtStore? then 1 else 0 }

  ghost predicate TablesOk(c: Config, s: State) {
    && NoDup(s.registered)
    && (forall n :: Find(s.tables, n).Some? ==> Find(s.tables, n).value < |s.registered| && s.registered[Find(s.tables, n).value] == n)
    && (forall t :: 0 <= t < |s.threads| ==> PcOk(c, s.tables, s.registered, s.threads[t]))
    && (forall i :: 0 <= i < |s.answers| ==> AnswerOk(c, s.registered, s.answers[i]))
    && |s.registered| == Count(s.tables) + Total(s.threads, Storer) <= c.max
  }

  ghost predicate AllOk(c: Config, s: State) {
    LocksOk(s) && TablesOk(c, s) && forall h :: 0 <= h < |s.registered| ==> Accounted(s, h)
  }

  lemma InitOk(c: Config, s: State)
    requires Init(c, s)
    ensures AllOk(c, s)
  {
    TotalZero(s.threads, Storer);
    assert forall t :: 0 <= t < |s.threads| ==> Grips(s.threads)[t] == Out;
  }

  lemma WriterHolds(s: State, t: nat)
    requires LocksOk(s) && t < |s.threads| && GripOf(s.threads[t]).W?
    ensures s.locks[0].writer == Some(t)
    ensures Alone(s, t)
  {
    assert Grips(s.threads)[t] == W(0);
    forall u | 0 <= u < |s.threads| && u != t
      ensures !s.threads[u].AtStore? && !s.threads[u].AtCreate? && !s.threads[u].AtLimit?
    {
      WriterIsAlone(s.locks, Grips(s.threads), t, u);
    }
  }

  /** A step that neither registers nor stores. */
  ghost predicate Quiet(s: State, a: Action, s': State) {
    && |s'.threads| == |s.threads| && a.t < |s.threads| && s'.threads == s.threads[a.t := s'.threads[a.t]]
    && s'.tables == s.tables && s'.registered == s.registered
    && !s.threads[a.t].AtStore? && !s'.threads[a.t].AtStore?
  }

  lemma QuietTables(c: Config, s: State, a: Action, s': State)
    requires TablesOk(c, s) && Quiet(s, a, s')
    requires PcOk(c, s.tables, s.registered, s'.threads[a.t])
    requires s'.answers == s.answers || (exists x :: s'.answers == s.answers + [x] && AnswerOk(c, s.registered, x))
    ensures TablesOk(c, s')
  {
    TotalUpdate(s.threads, a.t, s'.threads[a.t], Storer);
  }

  lemma QuietAccounted(c: Config, s: State, a: Action, s': State)
    requires AllOk(c, s) && LocksOk(s') && Quiet(s, a, s')
    ensures forall h :: 0 <= h < |s'.registered| ==> Accounted(s', h)
  {
    forall h | 0 <= h < |s'.registered| ensures Accounted(s', h) {
      assert Accounted(s, h);
      if Find(s.tables, s.registered[h]) != Some(h) {
        var w := s.locks[0].writer.value;
        assert s'.threads[w] == s.threads[w];
        WriterHolds(s', w);
      }
    }
  }

  lemma QuietStep(c: Config, s: State, a: Action)
    requires AllOk(c, s) && Can(s, a)
    requires a.Go? ==> !s.threads[a.t].AtStore? && !s.threads[a.t].AtCreate? && !s.threads[a.t].AtLimit?
    ensures AllOk(c, Apply(c, s, a))
  {
    var s' := Apply(c, s, a);
    var p := s.threads[a.t];
    LocksStep(c, s, a);
    if a.Go? && p.AtRecheck? {
      WriterHolds(s, a.t);
      forall h | 0 <= h < |s.registered| && s.registered[h] == p.n ensures Find(s.tables, p.n).Some? {
        assert Accounted(s, h);
      }
    }
    assert PcOk(c, s.tables, s.registered, p);
    QuietTables(c, s, a, s');
    QuietAccounted(c, s, a, s');
  }

  lemma LimitStep(c: Config, s: State, a: Action)
    requires AllOk(c, s) && Can(s, a) && a.Go? && s.threads[a.t].AtLimit?
    ensures AllOk(c, Apply(c, s, a))
  {
    var s' := Apply(c, s, a);
    var n := s.threads[a.t].n;
    LocksStep(c, s, a);
    assert PcOk(c, s.tables, s.registered, s.threads[a.t]);
    TotalAtLeast(s.threads, Storer, 0);
    QuietTables(c, s, a, s');
    QuietAccounted(c, s, a, s');
  }

  /** Nobody else is past the recheck. */
  predicate Alone(s: State, t: nat) {
    forall u :: 0 <= u < |s.threads| && u != t ==>
      !s.threads[u].AtStore? && !s.threads[u].AtCreate? && !s.threads[u].AtLimit?
  }

  lemma CreateTables(c: Config, s: State, t: nat, n: Name, s': State)
    requires TablesOk(c, s) && t < |s.threads| && s.threads[t] == AtCreate(n) && Alone(s, t)
    requires s'.threads == s.threads[t := AtStore(n, |s.registered|)] && s'.registered == s.registered + [n]
    requires s'.tables == s.tables && s'.answers == s.answers
    ensures TablesOk(c, s')
  {
    assert PcOk(c, s.tables, s.registered, s.threads[t]);
    TotalZero(s.threads, Storer);
    TotalUpdate(s.threads, t, AtStore(n, |s.registered|), Storer);
    NoDupAppend(s.registered, [n]);
    forall u | 0 <= u < |s'.threads| ensures PcOk(c, s'.tables, s'.registered, s'.threads[u]) {
      assert PcOk(c, s.tables, s.registered, s.threads[u]);
    }
  }

  lemma CreateAccounted(s: State, t: nat, n: Name, s': State)
    requires |s.locks| == 1 && t < |s.threads| && s.threads[t] == AtCreate(n) && s.locks[0].writer == Some(t)
    requires s'.threads == s.threads[t := AtStore(n, |s.registered|)] && s'.registered == s.registered + [n]
    requires s'.tables == s.tables && s'.locks == s.locks
    requires forall h :: 0 <= h < |s.registered| ==> Accounted(s, h)
    ensures forall h :: 0 <= h < |s'.registered| ==> Accounted(s', h)
  {
    forall h | 0 <= h < |s'.registered| ensures Accounted(s', h) {
      if h < |s.registered| {
        assert Accounted(s, h);
      }
    }
  }

  lemma CreateStep(c: Config, s: State, a: Action)
    requires AllOk(c, s) && Can(s, a) && a.Go? && s.threads[a.t].AtCreate?
    ensures AllOk(c, Apply(c, s, a))
  {
    var s' := Apply(c, s, a);
    var n := s.threads[a.t].n;
    LocksStep(c, s, a);
    WriterHolds(s, a.t);
    if a.ok {
      CreateTables(c, s, a.t, n, s');
      CreateAccounted(s, a.t, n, s');
    } else {
      assert PcOk(c, s.tables, s.registered, s.threads[a.t]);
      QuietTables(c, s, a, s');
      QuietAccounted(c, s, a, s');
    }
  }

  lemma StoreTables(c: Config, s: State, t: nat, n: Name, h: nat, s': State)
    requires TablesOk(c, s) && t < |s.threads| && s.threads[t] == AtStore(n, h) && Alone(s, t)
    requires s'.threads == s.threads[t := AtUnlock(n, Some(h))] && s'.registered == s.registered
    requires s'.tables == Put(s.tables, n, h) && s'.answers == s.answers
    ensures TablesOk(c, s')
  {
    assert PcOk(c, s.tables, s.registered, s.threads[t]);
    TotalUpdate(s.threads, t, AtUnlock(n, Some(h)), Storer);
    PutCount(s.tables, n, h);
    forall u | 0 <= u < |s'.threads| ensures PcOk(c, s'.tables, s'.registered, s'.threads[u]) {
      assert PcOk(c, s.tables, s.registered, s.threads[u]);
    }
  }

  lemma StoreAccounted(s: State, t: nat, n: Name, h: nat, s': State)
    requires |s.locks| == 1 && t < |s.threads| && s.threads[t] == AtStore(n, h) && s.locks[0].writer == Some(t)
    requires h < |s.registered| && s.registered[h] == n && NoDup(s.registered)
    requires |s'.locks| == 1 && s'.registered == s.registered && s'.tables == Put(s.tables, n, h)
    requires forall g :: 0 <= g < |s.registered| ==> Accounted(s, g)
    ensures forall g :: 0 <= g < |s'.registered| ==> Accounted(s', g)
  {
    forall g | 0 <= g < |s'.registered| ensures Accounted(s', g) {
      assert Accounted(s, g);
    }
  }

  lemma StoreStep(c: Config, s: State, a: Action)
    requires AllOk(c, s) && Can(s, a) && a.Go? && s.threads[a.t].AtStore?
    ensures AllOk(c, Apply(c, s, a))
  {
    var s' := Apply(c, s, a);
    var n, h := s.threads[a.t].n, s.threads[a.t].h;
    LocksStep(c, s, a);
    WriterHolds(s, a.t);
    assert PcOk(c, s.tables, s.registered, s.threads[a.t]);
    StoreTables(c, s, a.t, n, h, s');
    StoreAccounted(s, a.t, n, h, s');
  }

  lemma Step(c: Config, s: State, a: Action)
    requires AllOk(c, s) && Can(s, a)
    ensures AllOk(c, Apply(c, s, a))
  {
    if a.Go? && s.threads[a.t].AtStore? {
      StoreStep(c, s, a);
    } else if a.Go? && s.threads[a.t].AtCreate? {
      CreateStep(c, s, a);
    } else if a.Go? && s.threads[a.t].AtLimit? {
      LimitStep(c, s, a);
    } else {
      QuietStep(c, s, a);
    }
  }

  lemma {:induction false} RunOk(c: Config, tr: seq<State>, acts: seq<Action>, i: nat)
    requires IsRun(c, tr, acts) && i < |tr|
    ensures AllOk(c, tr[i])
  {
    if i == 0 {
      InitOk(c, tr[0]);
    } else {
      RunOk(c, tr, acts, i - 1);
      Step(c, tr[i - 1], acts[i - 1]);
    }
  }

  // ----- over whole runs -----

  /** No registration is ever orphaned: nothing is registered twice, the limit holds, and what
      the meter has is what the tables hold, but for one instrument just being stored; with
      nobody just storing one, in particular with the lock free, it is exactly that. */
  lemma NeverOrphans(c: Config, tr: seq<State>, acts: seq<Action>, i: nat, n: Name)
    requires IsRun(c, tr, acts) && i < |tr|
    ensures NoDup(tr[i].registered) && |tr[i].registered| <= c.max
    ensures Count(tr[i].tables) <= |tr[i].registered| <= Count(tr[i].tables) + 1
    ensures |tr[i].locks| == 1 && (tr[i].locks[0].writer.None? ==> NobodyStores(tr[i]))
    ensures NobodyStores(tr[i]) ==> |tr[i].registered| == Count(tr[i].tables)
    ensures NobodyStores(tr[i]) ==> (Find(tr[i].tables, n).Some? <==> n in tr[i].registered)
  {
    RunOk(c, tr, acts, i);
    var s := tr[i];
    if w: nat :| w < |s.threads| && s.threads[w].AtStore? {
      WriterHolds(s, w);
      TotalUpdate(s.threads, w, Idle, Storer);
      TotalZero(s.threads[w := Idle], Storer);
    } else {
      TotalZero(s.threads, Storer);
      forall h | 0 <= h < |s.registered| && s.registered[h] == n ensures Find(s.tables, n).Some? {
        assert Accounted(s, h);
      }
    }
  }

  predicate NobodyStores(s: State) {
    forall t :: 0 <= t < |s.threads| ==> !s.threads[t].AtStore?
  }

  /** No deadlock: whenever somebody asks for an instrument, somebody can move. */
  lemma SomebodyCanMove(c: Config, tr: seq<State>, acts: seq<Action>, i: nat, t: nat) returns (u: nat)
    requires IsRun(c, tr, acts) && i < |tr| && t < |tr[i].threads| && !tr[i].threads[t].Idle?
    ensures forall ok :: Can(tr[i], Go(u, ok))
  {
    var s := tr[i];
    RunOk(c, tr, acts, i);
    u := t;
    if !Can(s, Go(t, true)) {
      u := Blocker(s.locks, Grips(s.threads), 0);
      assert Grips(s.threads)[u] == GripOf(s.threads[u]);
    }
  }

  /** One handle for each (kind, name), whoever asks and whenever; and an error only for a
      name that had no handle when it was decided. */
  lemma OneHandleForEver(c: Config, tr: seq<State>, acts: seq<Action>, i: nat, a: nat, b: nat)
    requires IsRun(c, tr, acts) && i < |tr| && a < |tr[i].answers| && b < |tr[i].answers|
    ensures var x, y := tr[i].answers[a], tr[i].answers[b];
            && (x.Handle? && y.Handle? ==> (x.n == y.n <==> x.h == y.h))
            && (x.Error? ==> Find(x.seen, x.n).None? && (x.full ==> Count(x.seen) == c.max))
  {
    RunOk(c, tr, acts, i);
    assert AnswerOk(c, tr[i].registered, tr[i].answers[a]) && AnswerOk(c, tr[i].registered, tr[i].answers[b]);
  }
}
