/** How much racing goroutines get through between any two moments of a run. */
module RateIntervals {
  import opened Arith
  import opened Threads
  import opened RateMachine

  /** Between states `i` and `j`: windows won, stores of 1, calls let through. */
  function Won(tr: seq<State>, i: nat, j: nat): int
    requires i < |tr| && j < |tr|
  {
    tr[j].wins - tr[i].wins
  }

  function StoredOnes(tr: seq<State>, i: nat, j: nat): int
    requires i < |tr| && j < |tr|
  {
    tr[j].stores - tr[i].stores
  }

  function LetThrough(tr: seq<State>, i: nat, j: nat): int
    requires i < |tr| && j < |tr|
  {
    tr[j].admitted - tr[i].admitted
  }

  // ----- admissions -----

  /** What the present count still lets through without another store or win. */
  function Room(c: Config, s: State): nat {
    if s.stores == 0 then 0 else RateSamplers.Left(c.limit, s.count)
  }

  lemma RoomStep(c: Config, s: State, a: Action)
    requires AdmitOk(c, s) && Can(s, a) && c.limit > 0
    ensures var s' := Apply(c, s, a);
            && s'.stores - s.stores in {0, 1}
            && s'.admitted + Room(c, s')
               <= s.admitted + Room(c, s) + (if s'.stores > s.stores then c.limit - 1 else 0) + (s'.wins - s.wins)
  {
  }

  /** What one step lets through comes out of the room, a store or a win. */
  predicate RoomAt(c: Config, tr: seq<State>, k: nat) {
    && k + 1 < |tr| && StoredOnes(tr, k, k + 1) in {0, 1}
    && LetThrough(tr, k, k + 1) + Room(c, tr[k + 1])
       <= Room(c, tr[k]) + (if StoredOnes(tr, k, k + 1) == 1 then c.limit - 1 else 0) + Won(tr, k, k + 1)
  }

  lemma RoomAction(c: Config, tr: seq<State>, acts: seq<Action>, k: nat)
    requires IsRun(c, tr, acts) && k < |acts| && c.limit > 0
    ensures RoomAt(c, tr, k)
  {
    AdmitRun(c, tr, acts, k);
    RoomStep(c, tr[k], acts[k]);
  }

  lemma {:induction false} RoomChain(c: Config, tr: seq<State>, i: nat, j: nat)
    requires i <= j < |tr| && c.limit > 0 && forall k: nat | i <= k < j :: RoomAt(c, tr, k)
    ensures LetThrough(tr, i, j) + Room(c, tr[j]) <= Room(c, tr[i]) + StoredOnes(tr, i, j) * (c.limit - 1) + Won(tr, i, j)
    decreases j
  {
    if i < j {
      RoomChain(c, tr, i, j - 1);
      assert RoomAt(c, tr, j - 1);
      MulOneMore(StoredOnes(tr, i, j - 1), c.limit - 1);
    }
  }

  lemma RoomRun(c: Config, tr: seq<State>, acts: seq<Action>, i: nat, j: nat)
    requires IsRun(c, tr, acts) && i <= j < |tr| && c.limit > 0
    ensures LetThrough(tr, i, j) + Room(c, tr[j]) <= Room(c, tr[i]) + StoredOnes(tr, i, j) * (c.limit - 1) + Won(tr, i, j)
  {
    forall k: nat | i <= k < j ensures RoomAt(c, tr, k) {
      RoomAction(c, tr, acts, k);
    }
    RoomChain(c, tr, i, j);
  }

  // ----- stores -----

  /** A step either keeps what was stored before the latest win, or wins. */
  lemma StoreCounts(c: Config, s: State, a: Action)
    requires Can(s, a)
    ensures var s' := Apply(c, s, a);
            && |s'.threads| == |s.threads| && s'.wins - s.wins in {0, 1} && s'.stores >= s.stores
            && s'.stores - s'.storesNow == s.stores - s.storesNow + if s'.wins > s.wins then s.storesNow else 0
  {
  }

  /** The arithmetic of one win in StoresBetween. */
  lemma StoresGrow(m: nat, stores: int, won: int, now: nat)
    requires stores <= m * won + now && now <= m
    ensures stores <= m * (won + 1)
  {
    MulOneMore(won, m);
  }

  lemma {:induction false} StoresBetween(c: Config, tr: seq<State>, acts: seq<Action>, i: nat, j: nat)
    requires IsRun(c, tr, acts) && i <= j < |tr|
    ensures |tr[j].threads| == |tr[i].threads| > 0 && Won(tr, i, j) >= 0 && StoredOnes(tr, i, j) >= 0
    ensures StoredOnes(tr, i, j) <= (2 * |tr[i].threads| - 1) * Won(tr, i, j) + tr[j].storesNow - tr[i].storesNow
    decreases j
  {
    if i < j {
      StoresBetween(c, tr, acts, i, j - 1);
      FewStoresBetweenWins(c, tr, acts, j - 1);
      StoreCounts(c, tr[j - 1], acts[j - 1]);
      StoresGrow(2 * |tr[i].threads| - 1, StoredOnes(tr, i, j - 1) + tr[i].storesNow, Won(tr, i, j - 1), tr[j - 1].storesNow);
    } else {
      SomeThreads(c, tr, acts, i);
    }
  }

  lemma SomeThreads(c: Config, tr: seq<State>, acts: seq<Action>, i: nat)
    requires IsRun(c, tr, acts) && i < |tr|
    ensures |tr[i].threads| > 0
  {
    StoresRun(c, tr, acts, i);
  }

  /** N goroutines store 1 at most 2N - 1 times for each window won, and once more that many. */
  lemma StoresBound(c: Config, tr: seq<State>, acts: seq<Action>, i: nat, j: nat)
    requires IsRun(c, tr, acts) && i <= j < |tr|
    ensures Won(tr, i, j) >= 0 && 0 <= StoredOnes(tr, i, j) <= (2 * |tr[i].threads| - 1) * (Won(tr, i, j) + 1)
  {
    StoresBetween(c, tr, acts, i, j);
    FewStoresBetweenWins(c, tr, acts, j);
    MulOneMore(Won(tr, i, j), 2 * |tr[i].threads| - 1);
  }

  // ----- windows -----

  lemma WinStep(c: Config, s: State, a: Action)
    requires ClockOk(c, s) && Can(s, a)
    ensures var s' := Apply(c, s, a);
            && s'.wins - s.wins in {0, 1} && s'.clock >= s.clock
            && (s'.wins > s.wins ==> s'.resetAt >= s.resetAt + c.tick)
            && (s'.wins == s.wins ==> s'.resetAt == s.resetAt)
  {
    if a.Go? {
      assert PcOk(s, s.threads[a.t]);
    }
  }

  lemma WinAction(c: Config, tr: seq<State>, acts: seq<Action>, i: nat)
    requires IsRun(c, tr, acts) && i < |acts|
    ensures Won(tr, i, i + 1) in {0, 1} && tr[i + 1].clock >= tr[i].clock
    ensures Won(tr, i, i + 1) == 1 ==> tr[i + 1].resetAt >= tr[i].resetAt + c.tick
    ensures Won(tr, i, i + 1) == 0 ==> tr[i + 1].resetAt == tr[i].resetAt
  {
    ClockRun(c, tr, acts, i);
    WinStep(c, tr[i], acts[i]);
  }

  /** Every window won moves `resetAt` on by a tick or more. */
  lemma {:induction false} WinsAreTicksApart(c: Config, tr: seq<State>, acts: seq<Action>, i: nat, j: nat)
    requires IsRun(c, tr, acts) && i <= j < |tr|
    ensures Won(tr, i, j) >= 0 && tr[j].clock >= tr[i].clock
    ensures Won(tr, i, j) * c.tick <= tr[j].resetAt - tr[i].resetAt
    decreases j
  {
    if i < j {
      WinsAreTicksApart(c, tr, acts, i, j - 1);
      WinAction(c, tr, acts, j - 1);
      MulOneMore(Won(tr, i, j - 1), c.tick);
    }
  }

  /** Whatever the interleaving and the clock: between any two moments N goroutines let through
      at most what is left of the present count, `limit - 1` for each of `2N - 1` stores a
      window, and one for each window won; and windows are paid for by ticks of `resetAt`,
      which is at most a tick ahead of the clock. */
  lemma ConcurrentRateBound(c: Config, tr: seq<State>, acts: seq<Action>, i: nat, j: nat)
    requires IsRun(c, tr, acts) && i <= j < |tr| && c.limit > 0
    ensures var w := Won(tr, i, j); var m := 2 * |tr[i].threads| - 1;
            && Room(c, tr[i]) <= c.limit - 1
            && LetThrough(tr, i, j) <= Room(c, tr[i]) + m * (w + 1) * (c.limit - 1) + w
            && w * c.tick <= tr[j].resetAt - tr[i].resetAt
            && (w > 0 ==> tr[j].resetAt <= tr[j].clock + c.tick)
  {
    Admissions(c, tr, acts, i, j);
    WinsAreTicksApart(c, tr, acts, i, j);
    ClockRun(c, tr, acts, j);
  }

  lemma Admissions(c: Config, tr: seq<State>, acts: seq<Action>, i: nat, j: nat)
    requires IsRun(c, tr, acts) && i <= j < |tr| && c.limit > 0
    ensures var w := Won(tr, i, j); var m := 2 * |tr[i].threads| - 1;
            Room(c, tr[i]) <= c.limit - 1 && LetThrough(tr, i, j) <= Room(c, tr[i]) + m * (w + 1) * (c.limit - 1) + w
  {
    AdmitRun(c, tr, acts, i);
    RoomRun(c, tr, acts, i, j);
    StoresBound(c, tr, acts, i, j);
    RoomLeft(c, tr[i]);
    MoreStores(LetThrough(tr, i, j), Room(c, tr[i]), StoredOnes(tr, i, j),
               (2 * |tr[i].threads| - 1) * (Won(tr, i, j) + 1), c.limit - 1, Won(tr, i, j));
  }

  lemma RoomLeft(c: Config, s: State)
    requires AdmitOk(c, s) && c.limit > 0
    ensures Room(c, s) <= c.limit - 1
  {
  }

  lemma MoreStores(passed: int, room: nat, stores: nat, most: nat, k: nat, w: nat)
    requires passed <= room + stores * k + w && stores <= most
    ensures passed <= room + most * k + w
  {
    MulMono(k, stores, most);
  }

  // ----- real time -----

  /** No clock reading of actions `i` to `j` is older than an earlier one. */
  predicate Forward(tr: seq<State>, acts: seq<Action>, i: nat, j: nat)
    requires j <= |acts| && j < |tr|
  {
    forall k :: i <= k < j && acts[k].Call? ==> acts[k].now >= tr[k].clock
  }

  /** No clock reading of actions `i` to `j` is older than `b`. */
  predicate Since(acts: seq<Action>, i: nat, j: nat, b: int)
    requires j <= |acts|
  {
    forall k :: i <= k < j && acts[k].Call? ==> acts[k].now >= b
  }

  /** The thread acts on a clock reading older than `b`. */
  function Early(b: int, p: Pc): int {
    if (p.AtLoad? || p.AtStore? || p.AtCas?) && p.now < b then 1 else 0
  }

  function EarlyAt(b: int): Pc -> int {
    (p: Pc) => Early(b, p)
  }

  /** Since the time was `b`: the windows not won with older readings are a tick apart from
      `b` on. `w` counts the windows won, `e` the older readings at the start. */
  ghost predicate Spaced(c: Config, s: State, b: int, w: int, e: int) {
    var late := w - (e - Total(s.threads, EarlyAt(b)));
    late <= 0 || b + late * c.tick <= s.resetAt
  }

  /** One step: old readings are never gained, a window won with one uses it up, and any other
      window opens at `b` or later. */
  lemma EarlyStep(c: Config, s: State, a: Action, b: int)
    requires ClockOk(c, s) && Can(s, a) && (a.Call? ==> a.now >= b)
    ensures var s' := Apply(c, s, a);
            var gone := Total(s.threads, EarlyAt(b)) - Total(s'.threads, EarlyAt(b));
            && gone >= 0
            && (s'.wins > s.wins ==> gone >= 1 || (s.resetAt + c.tick <= s'.resetAt && b + c.tick <= s'.resetAt))
  {
    var s' := Apply(c, s, a);
    var p, p' := s.threads[a.t], s'.threads[a.t];
    TotalUpdate(s.threads, a.t, p', EarlyAt(b));
    assert EarlyAt(b)(p) == Early(b, p) && EarlyAt(b)(p') == Early(b, p');
    assert PcOk(s, p);
  }

  /** The arithmetic of SpacedStep. */
  lemma LateBy(late: int, late': int, tick: nat, b: int, reset: int, reset': int)
    requires late <= 0 || b + late * tick <= reset
    requires reset <= reset'
    requires late' <= late || (late' == late + 1 && reset + tick <= reset' && b + tick <= reset')
    ensures late' <= 0 || b + late' * tick <= reset'
  {
    if late' > 0 {
      if late' <= late {
        MulMono(tick, late', late);
      } else if late > 0 {
        MulOneMore(late, tick);
      }
    }
  }

  lemma SpacedStep(c: Config, s: State, a: Action, b: int, w: int, e: int)
    requires ClockOk(c, s) && Can(s, a) && (a.Call? ==> a.now >= b)
    requires Spaced(c, s, b, w, e)
    ensures Spaced(c, Apply(c, s, a), b, w + Apply(c, s, a).wins - s.wins, e)
  {
    var s' := Apply(c, s, a);
    EarlyStep(c, s, a, b);
    WinStep(c, s, a);
    LateBy(w - (e - Total(s.threads, EarlyAt(b))), w + s'.wins - s.wins - (e - Total(s'.threads, EarlyAt(b))),
           c.tick, b, s.resetAt, s'.resetAt);
  }

  ghost predicate SpacedKept(c: Config, tr: seq<State>, i: nat, k: nat, b: int, e: int)
    requires i < |tr|
  {
    k + 1 < |tr| && (Spaced(c, tr[k], b, Won(tr, i, k), e) ==> Spaced(c, tr[k + 1], b, Won(tr, i, k + 1), e))
  }

  lemma SpacedAction(c: Config, tr: seq<State>, acts: seq<Action>, i: nat, k: nat, b: int, e: int)
    requires IsRun(c, tr, acts) && i < |tr| && k < |acts| && (acts[k].Call? ==> acts[k].now >= b)
    ensures SpacedKept(c, tr, i, k, b, e)
  {
    ClockRun(c, tr, acts, k);
    if Spaced(c, tr[k], b, Won(tr, i, k), e) {
      SpacedStep(c, tr[k], acts[k], b, Won(tr, i, k), e);
    }
  }

  lemma {:induction false} SpacedChain(c: Config, tr: seq<State>, i: nat, j: nat, b: int, e: int)
    requires i <= j < |tr| && Spaced(c, tr[i], b, 0, e)
    requires forall k: nat | i <= k < j :: SpacedKept(c, tr, i, k, b, e)
    ensures Spaced(c, tr[j], b, Won(tr, i, j), e)
    decreases j
  {
    if i < j {
      SpacedChain(c, tr, i, j - 1, b, e);
      assert SpacedKept(c, tr, i, j - 1, b, e);
    }
  }

  lemma SpacedRun(c: Config, tr: seq<State>, acts: seq<Action>, i: nat, j: nat, b: int)
    requires IsRun(c, tr, acts) && i <= j < |tr| && Since(acts, i, j, b)
    ensures Spaced(c, tr[j], b, Won(tr, i, j), Total(tr[i].threads, EarlyAt(b)))
  {
    forall k: nat | i <= k < j ensures SpacedKept(c, tr, i, k, b, Total(tr[i].threads, EarlyAt(b))) {
      SpacedAction(c, tr, acts, i, k, b, Total(tr[i].threads, EarlyAt(b)));
    }
    SpacedChain(c, tr, i, j, b, Total(tr[i].threads, EarlyAt(b)));
  }

  /** What being spaced means for the number of windows. */
  lemma FewWhenSpaced(c: Config, s: State, b: int, w: int, e: int, n: nat)
    requires Spaced(c, s, b, w, e) && e <= n && w > n
    requires Total(s.threads, EarlyAt(b)) >= 0 && s.resetAt <= s.clock + c.tick
    ensures (w - n) * c.tick <= s.clock - b + c.tick
  {
    MulMono(c.tick, w - n, w - (e - Total(s.threads, EarlyAt(b))));
  }

  /** If the clock, once read at or after moment `i`, never reads less than `b`, then from `i` to
      `j` N goroutines win at most one window for each tick from `b` on, one more, and one for
      each call that was under way at `i`. */
  lemma WindowsSince(c: Config, tr: seq<State>, acts: seq<Action>, i: nat, j: nat, b: int)
    requires IsRun(c, tr, acts) && i <= j < |tr| && Since(acts, i, j, b)
    ensures |tr[j].threads| == |tr[i].threads|
    ensures Won(tr, i, j) <= |tr[i].threads| || (Won(tr, i, j) - |tr[i].threads|) * c.tick <= tr[j].clock - b + c.tick
  {
    SpacedRun(c, tr, acts, i, j, b);
    StoresBetween(c, tr, acts, i, j);
    EarlyCount(tr[i].threads, b);
    EarlyCount(tr[j].threads, b);
    if Won(tr, i, j) > |tr[i].threads| {
      ResetNearClock(c, tr, acts, i, j);
      FewWhenSpaced(c, tr[j], b, Won(tr, i, j), Total(tr[i].threads, EarlyAt(b)), |tr[i].threads|);
    }
  }

  lemma EarlyCount(ts: seq<Pc>, b: int)
    ensures 0 <= Total(ts, EarlyAt(b)) <= |ts|
  {
    TotalAtMost(ts, EarlyAt(b), 1);
    TotalAtLeast(ts, EarlyAt(b), 0);
  }

  lemma ResetNearClock(c: Config, tr: seq<State>, acts: seq<Action>, i: nat, j: nat)
    requires IsRun(c, tr, acts) && i < |tr| && j < |tr| && Won(tr, i, j) > 0
    ensures tr[j].resetAt <= tr[j].clock + c.tick
  {
    ClockRun(c, tr, acts, j);
  }

  /** Under a clock that does not go back, between any two moments N goroutines win at most one
      window for each tick gone by, one more, and one for each call that was under way at the
      first moment. */
  lemma WindowsInRealTime(c: Config, tr: seq<State>, acts: seq<Action>, i: nat, j: nat)
    requires IsRun(c, tr, acts) && i <= j < |tr| && Forward(tr, acts, i, j)
    ensures (Won(tr, i, j) - |tr[i].threads|) * c.tick <= tr[j].clock - tr[i].clock + c.tick
  {
    ForwardIsSince(c, tr, acts, i, j);
    WindowsSince(c, tr, acts, i, j, tr[i].clock);
    WinsAreTicksApart(c, tr, acts, i, j);
    if Won(tr, i, j) <= |tr[i].threads| {
      SharesFit(Won(tr, i, j) - |tr[i].threads|, 0, c.tick, tr[j].clock - tr[i].clock + c.tick);
    }
  }

  lemma ForwardIsSince(c: Config, tr: seq<State>, acts: seq<Action>, i: nat, j: nat)
    requires IsRun(c, tr, acts) && i <= j < |tr| && Forward(tr, acts, i, j)
    ensures Since(acts, i, j, tr[i].clock)
  {
    forall k | i <= k < j && acts[k].Call? ensures acts[k].now >= tr[i].clock {
      WinsAreTicksApart(c, tr, acts, i, k);
    }
  }

  /** What N goroutines can win and let through while the clock reads from `b` to `b + d` ticks. */
  function MostWindows(n: nat, d: nat): nat {
    n + d + 1
  }

  function MostAdmitted(n: nat, limit: nat, d: nat): int {
    (limit - 1) + (2 * n - 1) * (MostWindows(n, d) + 1) * (limit - 1) + MostWindows(n, d)
  }

  lemma RateSince(c: Config, tr: seq<State>, acts: seq<Action>, i: nat, j: nat, b: int, d: nat)
    requires IsRun(c, tr, acts) && i <= j < |tr| && Since(acts, i, j, b) && c.limit > 0
    requires tr[j].clock - b <= d * c.tick
    ensures Won(tr, i, j) <= MostWindows(|tr[i].threads|, d)
    ensures LetThrough(tr, i, j) <= MostAdmitted(|tr[i].threads|, c.limit, d)
  {
    WindowsSince(c, tr, acts, i, j, b);
    Admissions(c, tr, acts, i, j);
    StoresBetween(c, tr, acts, i, j);
    ClockRun(c, tr, acts, i);
    if Won(tr, i, j) > |tr[i].threads| {
      WindowCount(Won(tr, i, j), |tr[i].threads|, d, c.tick);
    }
    MoreWindows(2 * |tr[i].threads| - 1, c.limit - 1, Won(tr, i, j), MostWindows(|tr[i].threads|, d));
  }

  /** The rate, end to end: if the clock does not go back and moves on by at most `d` ticks
      between two moments, N goroutines win at most `N + d + 1` windows in between, and let
      through at most `limit - 1` for each of `2N - 1` stores a window, and one a window. */
  lemma RealTimeRateBound(c: Config, tr: seq<State>, acts: seq<Action>, i: nat, j: nat, d: nat)
    requires IsRun(c, tr, acts) && i <= j < |tr| && Forward(tr, acts, i, j) && c.limit > 0
    requires tr[j].clock - tr[i].clock <= d * c.tick
    ensures var n := |tr[i].threads|; var v := n + d + 1;
            && Won(tr, i, j) <= v
            && LetThrough(tr, i, j) <= (c.limit - 1) + (2 * n - 1) * (v + 1) * (c.limit - 1) + v
  {
    ForwardIsSince(c, tr, acts, i, j);
    RateSince(c, tr, acts, i, j, tr[i].clock, d);
  }

  lemma WindowCount(w: nat, n: nat, d: nat, tick: nat)
    requires tick > 0 && (w - n) * tick <= d * tick + tick
    ensures w <= n + d + 1
  {
    if w > n {
      MulOneMore(d, tick);
      MulCancel(w - n, d + 1, tick);
    }
  }

  lemma MoreWindows(m: nat, k: nat, w: nat, v: nat)
    requires w <= v
    ensures m * (w + 1) * k <= m * (v + 1) * k
  {
    MulMono(m, w + 1, v + 1);
    MulMono(k, m * (w + 1), m * (v + 1));
  }
}
