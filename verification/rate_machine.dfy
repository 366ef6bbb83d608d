/** Any number of goroutines inside `rateCounter.inc` at once.

    The two atomics are loaded, stored, swapped and added to one at a time; each call reads
    the clock once, before its first load. The clock may go back; it is never negative. */
module RateMachine {
  import opened Threads
  import RateSamplers

  datatype Config = Config(tick: nat, limit: nat)

  datatype Pc =
    | Idle
    | AtLoad(now: nat)
    | AtAdd
    | AtStore(now: nat, resetAfter: int)
    | AtCas(now: nat, resetAfter: int)

  /** `wins`, `stores`, `admitted` and the rest are history: successful swaps, stores of 1,
      calls let through; stores and admissions since the last successful swap; the expected
      values of the successful swaps; the latest clock reading. */
  datatype State = State(
    threads: seq<Pc>, resetAt: int, count: nat,
    wins: nat, stores: nat, admitted: nat, storesNow: nat, admittedNow: nat, expected: seq<int>, clock: nat)

  datatype Action = Call(t: nat, now: nat) | Go(t: nat)

  ghost predicate Init(c: Config, s: State) {
    && c.tick > 0 && |s.threads| > 0 && (forall t :: 0 <= t < |s.threads| ==> s.threads[t] == Idle)
    && s.resetAt == 0 && s.count == 0
    && s.wins == s.stores == s.admitted == s.storesNow == s.admittedNow == s.clock == 0 && s.expected == []
  }

  function Goto(s: State, t: nat, p: Pc): State
    requires t < |s.threads|
  {
    s.(threads := s.threads[t := p])
  }

  /** A call returns `n`: admitted when no greater than the limit. */
  function Return(c: Config, s: State, t: nat, n: nat): State
    requires t < |s.threads|
  {
    var a := if n <= c.limit then 1 else 0;
    Goto(s, t, Idle).(admitted := s.admitted + a, admittedNow := s.admittedNow + a)
  }

  predicate Can(s: State, a: Action) {
    match a
    case Call(t, _) => t < |s.threads| && s.threads[t] == Idle
    case Go(t) => t < |s.threads| && s.threads[t] != Idle
  }

  function Exec(c: Config, s: State, t: nat): State
    requires t < |s.threads|
  {
    match s.threads[t]
    case Idle => s
    case AtLoad(now) =>
      if s.resetAt > now then Goto(s, t, AtAdd) else Goto(s, t, AtStore(now, s.resetAt))
    case AtAdd => Return(c, s, t, s.count + 1).(count := s.count + 1)
    case AtStore(now, resetAfter) =>
      Goto(s, t, AtCas(now, resetAfter)).(count := 1, stores := s.stores + 1, storesNow := s.storesNow + 1)
    case AtCas(now, resetAfter) =>
      if s.resetAt == resetAfter
      then Return(c, s.(admittedNow := 0), t, 1)
           .(resetAt := now + c.tick, wins := s.wins + 1, storesNow := 0, expected := s.expected + [resetAfter])
      else Goto(s, t, AtAdd)
  }

  function Apply(c: Config, s: State, a: Action): State
    requires Can(s, a)
  {
    match a
    case Call(t, now) => Goto(s, t, AtLoad(now)).(clock := if now > s.clock then now else s.clock)
    case Go(t) => Exec(c, s, t)
  }

  /** A call that nobody interrupts, from its clock reading to its return. */
  function Alone(c: Config, s: State, t: nat, now: nat): State
    requires t < |s.threads| && s.threads[t] == Idle
  {
    var loaded := Exec(c, Apply(c, s, Call(t, now)), t);
    var moved := Exec(c, loaded, t);
    if moved.threads[t] == Idle then moved else Exec(c, moved, t)
  }

  /** Uninterrupted, the atomic steps are the sequential counter. */
  lemma AloneIsInc(c: Config, s: State, t: nat, now: nat)
    requires t < |s.threads| && s.threads[t] == Idle
    ensures var r := Alone(c, s, t, now);
            var (k, n) := RateSamplers.Inc(RateSamplers.Counter(s.resetAt, s.count), now, c.tick);
            r.threads == s.threads && r.resetAt == k.resetAt && r.count == k.count
            && r.admitted == s.admitted + if n <= c.limit then 1 else 0
  {
    assert Alone(c, s, t, now).threads == s.threads;
  }

  ghost predicate IsRun(c: Config, tr: seq<State>, acts: seq<Action>) {
    && |tr| == |acts| + 1 && Init(c, tr[0])
    && forall i :: 0 <= i < |acts| ==> Can(tr[i], acts[i]) && tr[i + 1] == Apply(c, tr[i], acts[i])
  }

  // ----- no ABA -----

  /** What a thread remembers never runs ahead of `resetAt`. */
  predicate PcOk(s: State, p: Pc) {
    match p
    case AtLoad(now) => now <= s.clock
    case AtStore(now, r) => r <= now <= s.clock && r <= s.resetAt
    case AtCas(now, r) => r <= now <= s.clock && r <= s.resetAt
    case _ => true
  }

  ghost predicate ClockOk(c: Config, s: State) {
    && c.tick > 0
    && (forall t :: 0 <= t < |s.threads| ==> PcOk(s, s.threads[t]))
    && (forall i, j :: 0 <= i < j < |s.expected| ==> s.expected[i] < s.expected[j])
    && (forall i :: 0 <= i < |s.expected| ==> s.expected[i] < s.resetAt)
    && |s.expected| == s.wins
    && s.wins * c.tick <= s.resetAt
    && (if s.wins == 0 then s.resetAt == 0 else s.resetAt <= s.clock + c.tick)
  }

  lemma ClockStep(c: Config, s: State, a: Action)
    requires ClockOk(c, s) && Can(s, a)
    ensures ClockOk(c, Apply(c, s, a)) && Apply(c, s, a).resetAt >= s.resetAt
  {
    var s' := Apply(c, s, a);
    if a.Go? && s.threads[a.t].AtCas? && s'.wins > s.wins {
      assert PcOk(s, s.threads[a.t]);
      assert s'.wins * c.tick == s.wins * c.tick + c.tick;
    }
  }

  lemma {:induction false} ClockRun(c: Config, tr: seq<State>, acts: seq<Action>, i: nat)
    requires IsRun(c, tr, acts) && i < |tr|
    ensures ClockOk(c, tr[i])
  {
    if i > 0 {
      ClockRun(c, tr, acts, i - 1);
      ClockStep(c, tr[i - 1], acts[i - 1]);
    }
  }

  /** Every successful swap strictly raises `resetAt`, so no two swaps ever succeed against
      the same value: one winner for each expired window. */
  lemma OneWinnerPerWindow(c: Config, tr: seq<State>, acts: seq<Action>, i: nat)
    requires IsRun(c, tr, acts) && i < |acts|
    ensures tr[i + 1].wins > tr[i].wins ==> tr[i + 1].resetAt > tr[i].resetAt && tr[i].resetAt !in tr[i].expected
    ensures tr[i + 1].wins == tr[i].wins ==> tr[i + 1].resetAt == tr[i].resetAt
    ensures forall j, k :: 0 <= j < k < |tr[i].expected| ==> tr[i].expected[j] < tr[i].expected[k]
  {
    ClockRun(c, tr, acts, i);
    var s := tr[i];
    if tr[i + 1].wins > s.wins {
      assert acts[i].Go? && PcOk(s, s.threads[acts[i].t]);
    }
  }

  // ----- admissions and stores -----

  ghost predicate AdmitOk(c: Config, s: State) {
    && s.wins <= s.stores
    && (s.stores == 0 ==> s.wins == 0 && s.admitted == 0 && s.count == 0)
    && (s.stores > 0 ==> s.count >= 1)
    && (forall t :: 0 <= t < |s.threads| && s.threads[t].AtAdd? ==> s.stores > 0)
    && (c.limit == 0 ==> s.admitted == 0)
    && (c.limit > 0 && s.stores > 0 ==>
          s.admitted + RateSamplers.Left(c.limit, s.count) <= s.stores * (c.limit - 1) + s.wins)
  }

  /** Every swap follows a store by the same thread that no other swap follows. */
  function Stored(p: Pc): int { if p.AtCas? then 1 else 0 }

  ghost predicate SwapsFollowStores(s: State) {
    s.wins + Total(s.threads, Stored) <= s.stores
  }

  lemma AddStep(c: Config, s: State, t: nat)
    requires AdmitOk(c, s) && t < |s.threads| && s.threads[t].AtAdd?
    ensures AdmitOk(c, Exec(c, s, t))
  {
  }

  lemma StoreStep(c: Config, s: State, t: nat)
    requires AdmitOk(c, s) && t < |s.threads| && s.threads[t].AtStore?
    ensures AdmitOk(c, Exec(c, s, t))
  {
    if c.limit > 0 {
      assert (s.stores + 1) * (c.limit - 1) == s.stores * (c.limit - 1) + (c.limit - 1);
    }
  }

  lemma CasStep(c: Config, s: State, t: nat)
    requires AdmitOk(c, s) && SwapsFollowStores(s) && t < |s.threads| && s.threads[t].AtCas?
    ensures AdmitOk(c, Exec(c, s, t))
  {
    TotalUpdate(s.threads, t, Idle, Stored);
    TotalAtLeast(s.threads[t := Idle], Stored, 0);
  }

  lemma AdmitStep(c: Config, s: State, a: Action)
    requires AdmitOk(c, s) && SwapsFollowStores(s) && ClockOk(c, s) && Can(s, a)
    ensures AdmitOk(c, Apply(c, s, a)) && SwapsFollowStores(Apply(c, s, a))
  {
    var s' := Apply(c, s, a);
    TotalUpdate(s.threads, a.t, s'.threads[a.t], Stored);
    match a
    case Call(t, now) =>
    case Go(t) =>
      match s.threads[t]
      case AtAdd => AddStep(c, s, t);
      case AtStore(_, _) => StoreStep(c, s, t);
      case AtCas(_, _) => CasStep(c, s, t);
      case AtLoad(now) =>
        if s.resetAt > now {
          assert s.wins > 0;
        }
  }

  lemma {:induction false} AdmitRun(c: Config, tr: seq<State>, acts: seq<Action>, i: nat)
    requires IsRun(c, tr, acts) && i < |tr|
    ensures AdmitOk(c, tr[i]) && SwapsFollowStores(tr[i])
  {
    if i == 0 {
      TotalZero(tr[0].threads, Stored);
    } else {
      AdmitRun(c, tr, acts, i - 1);
      ClockRun(c, tr, acts, i - 1);
      AdmitStep(c, tr[i - 1], acts[i - 1]);
    }
  }

  /** Whatever the interleaving and the clock, admissions never exceed `limit - 1` for each
      store of 1 plus one for each window won, hence never `limit` for each store. */
  lemma AdmissionsBoundedByStores(c: Config, tr: seq<State>, acts: seq<Action>, i: nat)
    requires IsRun(c, tr, acts) && i < |tr|
    ensures c.limit > 0 ==> tr[i].admitted <= tr[i].stores * (c.limit - 1) + tr[i].wins
    ensures tr[i].admitted <= tr[i].stores * c.limit
  {
    AdmitRun(c, tr, acts, i);
    if c.limit > 0 {
      assert tr[i].stores * c.limit == tr[i].stores * (c.limit - 1) + tr[i].stores;
    }
  }

  // ----- how many stores a window can see -----

  /** How many more stores the thread can make before the next successful swap: one stale
      store if it is about to store against an old value, and one store of its own. */
  function Future(resetAt: int, p: Pc): int {
    match p
    case AtStore(_, r) => if r == resetAt then 1 else 2
    case AtCas(_, r) => if r == resetAt then 0 else 1
    case _ => 1
  }

  function FutureAt(resetAt: int): Pc -> int {
    (p: Pc) => Future(resetAt, p)
  }

  ghost predicate StoresOk(s: State) {
    && |s.threads| > 0
    && s.storesNow + Total(s.threads, FutureAt(s.resetAt)) <= 2 * |s.threads| - 1
  }

  lemma {:induction false} AtMostTwoEach(ts: seq<Pc>, t: nat, r: int)
    requires t < |ts| && Future(r, ts[t]) <= 1
    ensures Total(ts, FutureAt(r)) <= 2 * |ts| - 1
  {
    var n := |ts| - 1;
    if t < n {
      AtMostTwoEach(ts[..n], t, r);
    } else {
      assert forall u :: 0 <= u < n ==> FutureAt(r)(ts[..n][u]) <= 2;
      TotalAtMost(ts[..n], FutureAt(r), 2);
    }
  }

  lemma StoresStep(c: Config, s: State, a: Action)
    requires ClockOk(c, s) && StoresOk(s) && Can(s, a)
    ensures StoresOk(Apply(c, s, a))
  {
    var s' := Apply(c, s, a);
    var p, p' := s.threads[a.t], s'.threads[a.t];
    if s'.wins > s.wins {
      AtMostTwoEach(s'.threads, a.t, s'.resetAt);
    } else {
      TotalUpdate(s.threads, a.t, p', FutureAt(s.resetAt));
      assert FutureAt(s.resetAt)(p) == Future(s.resetAt, p) && FutureAt(s.resetAt)(p') == Future(s.resetAt, p');
    }
  }

  lemma {:induction false} StoresRun(c: Config, tr: seq<State>, acts: seq<Action>, i: nat)
    requires IsRun(c, tr, acts) && i < |tr|
    ensures StoresOk(tr[i])
  {
    if i == 0 {
      AtMostTwoEach(tr[0].threads, 0, tr[0].resetAt);
    } else {
      StoresRun(c, tr, acts, i - 1);
      ClockRun(c, tr, acts, i - 1);
      StoresStep(c, tr[i - 1], acts[i - 1]);
    }
  }

  /** Between two consecutive successful swaps N goroutines store 1 fewer than 2N times. */
  lemma FewStoresBetweenWins(c: Config, tr: seq<State>, acts: seq<Action>, i: nat)
    requires IsRun(c, tr, acts) && i < |tr|
    ensures tr[i].storesNow <= 2 * |tr[i].threads| - 1
  {
    StoresRun(c, tr, acts, i);
    assert forall t :: 0 <= t < |tr[i].threads| ==> FutureAt(tr[i].resetAt)(tr[i].threads[t]) >= 0;
    TotalAtLeast(tr[i].threads, FutureAt(tr[i].resetAt), 0);
  }
}
