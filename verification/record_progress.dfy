/** Without new calls every call returns, after a bounded number of steps, under any schedule. */
module RecordProgress {
  import opened Arith
  import opened Labels
  import opened Threads
  import opened RecordMachine
  import opened RecordLinear
  import opened RecordTheorems

  /** How many of its own steps a thread is from returning, if no swap of it fails again. A swap
      that is bound to fail costs one turn of the loop. */
  function Rank(size: nat, p: Pc): int {
    match p
    case Idle => 0
    case AtLive(_) => 14
    case AtAddLive(_) => 2
    case AtPlain(_) => 1
    case AtGate(_) => 13
    case AtNote(_) => 2
    case AtCountDenied(_) => 1
    case AtRLock(_) => 12
    case AtProbe(_) => 11
    case AtRUnlockHit(_, _) => 2
    case AtRUnlockMiss(_) => 10
    case AtLock(_) => 9
    case AtDrain(_) => 8
    case AtRecheck(_) => 7
    case AtLoad(_, _, _) => 6
    case AtCas(_, sz, _, _) => if sz == size then 5 else 7
    case AtObserveWin(_) => 4
    case AtInsert(_) => 3
    case AtObserveMiss(_) => 4
    case AtObserveOverflow(_) => 3
    case AtUnlock(_, _) => 2
    case AtEmit(_, _) => 1
    case ScanLock(i, _, _) => if i < SHARDS then 3 * (SHARDS - i) else 0
    case ScanRead(i, _, _) => if i < SHARDS then 3 * (SHARDS - i) - 1 else 0
    case ScanUnlock(i, _, _) => if i < SHARDS then 3 * (SHARDS - i) - 2 else 0
  }

  const LONGEST: nat := 48

  function RankAt(size: nat): Pc -> int {
    (p: Pc) => Rank(size, p)
  }

  /** All ranks, and for each free slot what winning it can cost the others. */
  ghost function Measure(c: Config, s: State): int {
    Total(s.threads, RankAt(s.size)) + 2 * |s.threads| * (c.max - s.size)
  }

  lemma RankBounds(size: nat, p: Pc)
    ensures 0 <= Rank(size, p) <= LONGEST
  {
  }

  lemma MeasureBounds(c: Config, s: State)
    requires s.size <= c.max
    ensures 0 <= Measure(c, s) <= LONGEST * |s.threads| + 2 * |s.threads| * (c.max - s.size)
  {
    forall t | 0 <= t < |s.threads| ensures 0 <= RankAt(s.size)(s.threads[t]) <= LONGEST {
      RankBounds(s.size, s.threads[t]);
    }
    TotalAtLeast(s.threads, RankAt(s.size), 0);
    TotalAtMost(s.threads, RankAt(s.size), LONGEST);
    MulMono(2 * |s.threads|, 0, c.max - s.size);
  }

  // ----- one step -----

  /** Thread `t` moves, its rank falls, and size stays. */
  ghost predicate Nearer(s: State, t: nat, s': State) {
    && t < |s.threads| == |s'.threads| && s'.threads == s.threads[t := s'.threads[t]] && s'.size == s.size
    && Rank(s.size, s'.threads[t]) < Rank(s.size, s.threads[t])
  }

  lemma CallNearer(c: Config, s: State, t: nat)
    requires t < |s.threads| && Calling(s.threads[t]) && !s.threads[t].Idle?
    ensures Nearer(s, t, ExecCall(c, s, t))
  {
  }

  lemma ProbeNearer(c: Config, s: State, t: nat)
    requires Shape(c, s) && t < |s.threads| && Probing(s.threads[t])
    ensures Nearer(s, t, ExecProbe(c, s, t))
  {
  }

  lemma ReserveNearer(c: Config, s: State, t: nat)
    requires Shape(c, s) && t < |s.threads| && Reserving(s.threads[t])
    requires !(s.threads[t].AtCas? && s.size == s.threads[t].sz)
    ensures Nearer(s, t, ExecReserve(c, s, t))
  {
  }

  lemma ScanNearer(c: Config, s: State, t: nat)
    requires Shape(c, s) && t < |s.threads| && Scanning(s.threads[t])
    ensures Nearer(s, t, ExecScan(c, s, t))
  {
    assert ScanShape(s.threads[t]);
  }

  lemma NearerFalls(c: Config, s: State, t: nat, s': State)
    requires Nearer(s, t, s')
    ensures Measure(c, s') < Measure(c, s)
  {
    TotalUpdate(s.threads, t, s'.threads[t], RankAt(s.size));
    assert RankAt(s.size)(s.threads[t]) == Rank(s.size, s.threads[t]);
    assert RankAt(s.size)(s'.threads[t]) == Rank(s.size, s'.threads[t]);
  }

  /** One more slot taken makes every pending swap fail; each failure costs two. */
  lemma {:induction false} SizeCosts(ts: seq<Pc>, size: nat)
    ensures Total(ts, RankAt(size + 1)) <= Total(ts, RankAt(size)) + 2 * |ts|
  {
    if ts != [] {
      SizeCosts(ts[..|ts| - 1], size);
      var p := ts[|ts| - 1];
      assert RankAt(size + 1)(p) == Rank(size + 1, p) && RankAt(size)(p) == Rank(size, p);
    }
  }

  lemma WinFalls(c: Config, s: State, t: nat)
    requires Shape(c, s) && t < |s.threads| && s.threads[t].AtCas? && s.size == s.threads[t].sz
    ensures Measure(c, ExecReserve(c, s, t)) < Measure(c, s)
  {
    var s' := ExecReserve(c, s, t);
    var p, p' := s.threads[t], s'.threads[t];
    assert s'.threads == s.threads[t := p'] && s'.size == s.size + 1;
    TotalUpdate(s.threads, t, p', RankAt(s.size));
    assert RankAt(s.size)(p) == 5 && RankAt(s.size)(p') == 4;
    SizeCosts(s'.threads, s.size);
    MulOneMore(c.max - s.size - 1, 2 * |s.threads|);
    assert 2 * |s.threads| * (c.max - s.size) == (c.max - s.size) * (2 * |s.threads|);
    assert 2 * |s.threads| * (c.max - s'.size) == (c.max - s'.size) * (2 * |s.threads|);
  }

  lemma GoFalls(c: Config, s: State, t: nat)
    requires Shape(c, s) && Enabled(c, s, t)
    ensures Measure(c, Exec(c, s, t)) < Measure(c, s)
  {
    var p := s.threads[t];
    if Calling(p) {
      CallNearer(c, s, t);
      NearerFalls(c, s, t, ExecCall(c, s, t));
    } else if Probing(p) {
      ProbeNearer(c, s, t);
      NearerFalls(c, s, t, ExecProbe(c, s, t));
    } else if Reserving(p) {
      if p.AtCas? && s.size == p.sz {
        WinFalls(c, s, t);
      } else {
        ReserveNearer(c, s, t);
        NearerFalls(c, s, t, ExecReserve(c, s, t));
      }
    } else {
      ScanNearer(c, s, t);
      NearerFalls(c, s, t, ExecScan(c, s, t));
    }
  }

  // ----- over whole runs -----

  /** Nobody makes a call between states `i` and `j`. */
  predicate NoCalls(acts: seq<Action>, i: nat, j: nat)
    requires j <= |acts|
  {
    forall k :: i <= k < j ==> acts[k].Go? || acts[k].Bump? || acts[k].Allow?
  }

  /** How many steps goroutines take between states `i` and `j`. */
  function Steps(acts: seq<Action>, i: nat, j: nat): nat
    requires i <= j <= |acts|
    decreases j
  {
    if i == j then 0 else Steps(acts, i, j - 1) + if acts[j - 1].Go? then 1 else 0
  }

  lemma StepFalls(c: Config, s: State, a: Action)
    requires Shape(c, s) && Can(c, s, a) && (a.Go? || a.Bump? || a.Allow?)
    ensures Measure(c, Apply(c, s, a)) <= Measure(c, s) - if a.Go? then 1 else 0
  {
    if a.Go? {
      GoFalls(c, s, a.t);
    }
  }

  /** A sequence that falls with every step taken. */
  lemma {:induction false} PaidAlong(ms: seq<int>, acts: seq<Action>, i: nat, j: nat)
    requires i <= j < |ms| && j <= |acts|
    requires forall k :: i <= k < j ==> ms[k + 1] <= ms[k] - if acts[k].Go? then 1 else 0
    ensures Steps(acts, i, j) + ms[j] <= ms[i]
    decreases j
  {
    if i < j {
      PaidAlong(ms, acts, i, j - 1);
    }
  }

  ghost function Measures(c: Config, tr: seq<State>): (ms: seq<int>)
    ensures |ms| == |tr| && forall k :: 0 <= k < |tr| ==> ms[k] == Measure(c, tr[k])
  {
    if tr == [] then [] else Measures(c, tr[..|tr| - 1]) + [Measure(c, tr[|tr| - 1])]
  }

  lemma StepsArePaid(c: Config, tr: seq<State>, acts: seq<Action>, i: nat, j: nat)
    requires IsRun(c, tr, acts) && i <= j < |tr| && NoCalls(acts, i, j)
    ensures Steps(acts, i, j) + Measure(c, tr[j]) <= Measure(c, tr[i])
  {
    var ms := Measures(c, tr);
    forall k | i <= k < j ensures ms[k + 1] <= ms[k] - if acts[k].Go? then 1 else 0 {
      ActionFalls(c, tr, acts, k);
    }
    PaidAlong(ms, acts, i, j);
  }

  lemma ActionFalls(c: Config, tr: seq<State>, acts: seq<Action>, i: nat)
    requires IsRun(c, tr, acts) && i < |acts| && (acts[i].Go? || acts[i].Bump? || acts[i].Allow?)
    ensures Measure(c, tr[i + 1]) <= Measure(c, tr[i]) - if acts[i].Go? then 1 else 0
  {
    StepFalls(c, tr[i], acts[i]);
  }

  /** From any reachable state, as long as nobody makes a new call, the goroutines together take
      at most 48 steps each and two more for each free slot, whatever the schedule; and when none
      of them can take another step, every call and every walk has returned. */
  lemma EveryCallReturns(c: Config, tr: seq<State>, acts: seq<Action>, i: nat, j: nat)
    requires IsRun(c, tr, acts) && i <= j < |tr| && NoCalls(acts, i, j)
    ensures tr[i].size <= c.max
    ensures Steps(acts, i, j) <= LONGEST * |tr[i].threads| + 2 * |tr[i].threads| * (c.max - tr[i].size)
    ensures Shape(c, tr[j])
    ensures (forall t :: 0 <= t < |tr[j].threads| ==> !Enabled(c, tr[j], t)) ==>
              forall t :: 0 <= t < |tr[j].threads| ==> tr[j].threads[t].Idle?
  {
    LinRun(c, tr, acts, i);
    LinRun(c, tr, acts, j);
    StepsArePaid(c, tr, acts, i, j);
    MeasureBounds(c, tr[i]);
    MeasureBounds(c, tr[j]);
    if t: nat :| t < |tr[j].threads| && !tr[j].threads[t].Idle? {
      SomebodyCanMove(c, tr, acts, j, t);
    }
  }
}
