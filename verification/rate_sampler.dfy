/** The log rate limiter, one goroutine at a time. RateMachine has its interleavings. */
module RateSamplers {
  // ----- the fixed-window counter as a function -----

  datatype Counter = Counter(resetAt: int, count: nat)

  const FRESH: Counter := Counter(0, 0)

  /** `rateCounter.inc` at time `now`: the new state and the returned count. */
  function Inc(c: Counter, now: int, tick: nat): (Counter, nat) {
    if c.resetAt > now then (c.(count := c.count + 1), c.count + 1)
    else (Counter(now + tick, 1), 1)
  }

  /** How many of the calls at `times` are admitted, that is counted no further than `limit`. */
  function Admitted(c: Counter, times: seq<int>, tick: nat, limit: nat): nat
    decreases |times|
  {
    if times == [] then 0
    else
      var (c', n) := Inc(c, times[0], tick);
      (if n <= limit then 1 else 0) + Admitted(c', times[1..], tick, limit)
  }

  /** How many of the calls at `times` are admitted in the half-open interval [a, a + tick). */
  function AdmittedIn(c: Counter, times: seq<int>, tick: nat, limit: nat, a: int): nat
    decreases |times|
  {
    if times == [] then 0
    else
      var (c', n) := Inc(c, times[0], tick);
      (if n <= limit && a <= times[0] < a + tick then 1 else 0) + AdmittedIn(c', times[1..], tick, limit, a)
  }

  predicate Sorted(times: seq<int>) {
    forall i, j :: 0 <= i < j < |times| ==> times[i] <= times[j]
  }

  // ----- windows -----

  /** How many of the calls fall before time `r`. */
  function Before(times: seq<int>, r: int): (n: nat)
    ensures n <= |times|
  {
    if times == [] || times[0] >= r then 0 else 1 + Before(times[1..], r)
  }

  /** The windows of a sequence of calls: each is opened by its first call and takes all
      calls less than a tick later. */
  function Windows(times: seq<int>, tick: nat): (ws: seq<seq<int>>)
    decreases |times|
  {
    if times == [] then []
    else
      var n := Before(times[1..], times[0] + tick) + 1;
      [times[..n]] + Windows(times[n..], tick)
  }

  function Min(a: nat, b: nat): nat { if a <= b then a else b }

  /** What a window-by-window limiter admits: the first `limit` calls of each window. */
  function PerWindow(ws: seq<seq<int>>, limit: nat): nat {
    if ws == [] then 0 else Min(limit, |ws[0]|) + PerWindow(ws[1..], limit)
  }

  /** Inside a window the counter counts on: `n` more calls are admitted up to the limit. */
  lemma {:induction false} InsideWindow(c: Counter, times: seq<int>, tick: nat, limit: nat)
    requires c.count >= 1
    ensures var n := Before(times, c.resetAt);
            Admitted(c, times, tick, limit)
            == Min(limit, c.count + n) - Min(limit, c.count)
               + Admitted(Counter(c.resetAt, c.count + n), times[n..], tick, limit)
    decreases |times|
  {
    var n := Before(times, c.resetAt);
    if n == 0 {
      assert times[n..] == times;
    } else {
      InsideWindow(c.(count := c.count + 1), times[1..], tick, limit);
      assert times[1..][n - 1..] == times[n..];
    }
  }

  /** Each window admits exactly the smaller of the limit and its calls. */
  lemma {:induction false} WindowsAdmitExactly(c: Counter, times: seq<int>, tick: nat, limit: nat)
    requires tick > 0 && (times != [] ==> c.resetAt <= times[0])
    ensures Admitted(c, times, tick, limit) == PerWindow(Windows(times, tick), limit)
    decreases |times|
  {
    if times != [] {
      var t := times[0];
      var n := Before(times[1..], t + tick) + 1;
      FirstWindow(c, times, tick, limit);
      FirstAfter(times[1..], t + tick);
      WindowsAdmitExactly(Counter(t + tick, n), times[n..], tick, limit);
      WindowsFirst(times, tick, limit);
    }
  }

  lemma FirstWindow(c: Counter, times: seq<int>, tick: nat, limit: nat)
    requires tick > 0 && times != [] && c.resetAt <= times[0]
    ensures var n := Before(times[1..], times[0] + tick) + 1;
            Admitted(c, times, tick, limit) == Min(limit, n) + Admitted(Counter(times[0] + tick, n), times[n..], tick, limit)
  {
    var rest := times[1..];
    var n := Before(rest, times[0] + tick);
    InsideWindow(Counter(times[0] + tick, 1), rest, tick, limit);
    assert rest[n..] == times[n + 1..];
  }

  lemma WindowsFirst(times: seq<int>, tick: nat, limit: nat)
    requires times != []
    ensures var n := Before(times[1..], times[0] + tick) + 1;
            PerWindow(Windows(times, tick), limit) == Min(limit, n) + PerWindow(Windows(times[n..], tick), limit)
  {
    var n := Before(times[1..], times[0] + tick) + 1;
    assert Windows(times, tick)[1..] == Windows(times[n..], tick);
  }

  lemma {:induction false} FirstAfter(times: seq<int>, r: int)
    ensures var n := Before(times, r); n < |times| ==> times[n] >= r
  {
    if times != [] && times[0] < r {
      FirstAfter(times[1..], r);
    }
  }

  /** Windows open at least one tick apart. */
  lemma {:induction false} WindowsAreApart(times: seq<int>, tick: nat, i: nat)
    requires tick > 0 && i + 1 < |Windows(times, tick)|
    ensures |Windows(times, tick)[i]| > 0 && |Windows(times, tick)[i + 1]| > 0
    ensures Windows(times, tick)[i + 1][0] >= Windows(times, tick)[i][0] + tick
    decreases |times|
  {
    var n := Before(times[1..], times[0] + tick) + 1;
    FirstAfter(times[1..], times[0] + tick);
    if i > 0 {
      WindowsAreApart(times[n..], tick, i - 1);
    }
  }

  // ----- any interval of one tick -----

  function Left(limit: nat, count: nat): nat { if count >= limit then 0 else limit - count }

  /** What can still be admitted in [a, a + tick) from a state with an open window. */
  function Budget(c: Counter, tick: nat, limit: nat, a: int): int {
    if c.resetAt >= a + tick then Left(limit, c.count)
    else if c.resetAt > a then Left(limit, c.count) + limit
    else 2 * limit - 1
  }

  lemma {:induction false} NothingAfter(c: Counter, times: seq<int>, tick: nat, limit: nat, a: int)
    requires forall i :: 0 <= i < |times| ==> times[i] >= a + tick
    ensures AdmittedIn(c, times, tick, limit, a) == 0
    decreases |times|
  {
    if times != [] {
      NothingAfter(Inc(c, times[0], tick).0, times[1..], tick, limit, a);
    }
  }

  lemma {:induction false} WithinBudget(c: Counter, times: seq<int>, tick: nat, limit: nat, a: int)
    requires tick > 0 && limit > 0 && Sorted(times) && c.count >= 1
    ensures AdmittedIn(c, times, tick, limit, a) <= Budget(c, tick, limit, a)
    decreases |times|
  {
    if times != [] {
      var t := times[0];
      if t >= a + tick {
        NothingAfter(c, times, tick, limit, a);
      } else {
        WithinBudget(Inc(c, t, tick).0, times[1..], tick, limit, a);
      }
    }
  }

  /** Under a clock that never goes back, any half-open interval of one tick admits at most
      twice the limit less one, wherever it starts: it meets at most two windows, and the
      first of the two spent one admission on opening before it. */
  lemma AnyTickAdmitsBelowTwice(times: seq<int>, tick: nat, limit: nat, a: int)
    requires tick > 0 && limit > 0 && Sorted(times)
    requires forall i :: 0 <= i < |times| ==> times[i] >= 0
    ensures AdmittedIn(FRESH, times, tick, limit, a) <= 2 * limit - 1
  {
    if times != [] {
      WithinBudget(Inc(FRESH, times[0], tick).0, times[1..], tick, limit, a);
    }
  }

  function Repeat(t: int, n: nat): (s: seq<int>)
    ensures |s| == n && forall i :: 0 <= i < n ==> s[i] == t
  {
    seq(n, _ => t)
  }

  lemma {:induction false} BurstIn(c: Counter, t: int, n: nat, rest: seq<int>, tick: nat, limit: nat, a: int)
    requires c.resetAt > t && a <= t < a + tick && c.count + n <= limit
    ensures AdmittedIn(c, Repeat(t, n) + rest, tick, limit, a)
            == n + AdmittedIn(Counter(c.resetAt, c.count + n), rest, tick, limit, a)
    decreases n
  {
    if n == 0 {
      assert Repeat(t, n) + rest == rest;
    } else {
      assert (Repeat(t, n) + rest)[1..] == Repeat(t, n - 1) + rest;
      BurstIn(c.(count := c.count + 1), t, n - 1, rest, tick, limit, a);
    }
  }

  /** The bound is reached: one call at 0, `limit - 1` just before the window ends, `limit`
      as soon as it has ended. */
  lemma TwiceLessOneIsReached(tick: nat, limit: nat)
    requires tick > 1 && limit > 0
    ensures var times := [0] + (Repeat(tick - 1, limit - 1) + ([tick] + (Repeat(tick, limit - 1) + [])));
            Sorted(times) && AdmittedIn(FRESH, times, tick, limit, 1) == 2 * limit - 1
  {
    TwoBurstsInOrder(tick, limit);
    var tail := Repeat(tick, limit - 1) + [];
    var burst := Repeat(tick - 1, limit - 1) + ([tick] + tail);
    assert ([0] + burst)[1..] == burst;
    BurstIn(Counter(tick, 1), tick - 1, limit - 1, [tick] + tail, tick, limit, 1);
    assert ([tick] + tail)[1..] == tail;
    BurstIn(Counter(tick + tick, 1), tick, limit - 1, [], tick, limit, 1);
  }

  lemma TwoBurstsInOrder(tick: nat, limit: nat)
    requires tick > 1 && limit > 0
    ensures Sorted([0] + (Repeat(tick - 1, limit - 1) + ([tick] + (Repeat(tick, limit - 1) + []))))
  {
  }

  // ----- the objects -----

  class RateCounter {
    var resetAt: int
    var count: nat

    function State(): Counter
      reads this
    {
      Counter(resetAt, count)
    }

    constructor ()
      ensures State() == FRESH
    {
      resetAt, count := 0, 0;
    }

    /** `inc`, with the clock reading as a parameter. Alone, the compare-and-swap succeeds. */
    method Increment(now: int, tick: nat) returns (n: nat)
      modifies this
      ensures (State(), n) == Inc(old(State()), now, tick)
    {
      var resetAfter := resetAt;
      if resetAfter > now {
        count := count + 1;
        return count;
      }
      count := 1;
      var newReset := now + tick;
      resetAt := newReset;
      return 1;
    }
  }

  /** zerolog.Level, an int8. */
  newtype Level = x: int | -128 <= x < 128

  const DEBUG_LEVEL: Level := 0
  const FATAL_LEVEL: Level := 4
  const NUM_LEVELS: nat := 5
  const TICK: nat := 1_000_000_000

  function LevelIndex(lvl: Level): (i: int)
    ensures i == -1 || 0 <= i < NUM_LEVELS
  {
    if lvl < DEBUG_LEVEL || lvl > FATAL_LEVEL then -1 else (lvl - DEBUG_LEVEL) as int
  }

  /** A message at this level can be dropped: debug, info, warn or error. */
  predicate Droppable(lvl: Level) {
    DEBUG_LEVEL <= lvl < FATAL_LEVEL
  }

  /** The state of a sampler: limits (0 is none), the global counter, a counter a level. */
  datatype Sampler = Sampler(globalLimit: nat, levelLimit: seq<nat>, global: Counter, levels: seq<Counter>)
  {
    predicate Valid() {
      |levelLimit| == |levels| == NUM_LEVELS
    }
  }

  /** The message at level `lvl` gets past its own level's limit. */
  predicate PassesLevel(s: Sampler, lvl: Level, now: int)
    requires s.Valid() && Droppable(lvl)
  {
    s.levelLimit[lvl as int] == 0 || Inc(s.levels[lvl as int], now, TICK).1 <= s.levelLimit[lvl as int]
  }

  /** The counter has a limit, its window is still open, and the limit has been reached in it. */
  predicate Spent(c: Counter, limit: nat, now: int) {
    limit > 0 && c.resetAt > now && c.count >= limit
  }

  /** `Sample` at level `lvl`; `now` is read by the level counter, `later` by the global one. */
  function SampleStep(s: Sampler, lvl: Level, now: int, later: int): (r: (Sampler, bool))
    requires s.Valid()
    ensures r.0.Valid() && r.0.globalLimit == s.globalLimit && r.0.levelLimit == s.levelLimit
  {
    if !Droppable(lvl) then (s, true)
    else
      var s1 := if s.levelLimit[lvl as int] == 0 then s
                else s.(levels := s.levels[lvl as int := Inc(s.levels[lvl as int], now, TICK).0]);
      if !PassesLevel(s, lvl, now) then (s1, false)
      else if s.globalLimit == 0 then (s1, true)
      else
        var (g, n) := Inc(s.global, later, TICK);
        (s1.(global := g), n <= s.globalLimit)
  }

  method NewCounters() returns (cs: array<RateCounter>)
    ensures fresh(cs) && cs.Length == NUM_LEVELS
    ensures forall j :: 0 <= j < NUM_LEVELS ==> fresh(cs[j]) && cs[j].State() == FRESH
    ensures forall j, k :: 0 <= j < k < NUM_LEVELS ==> cs[j] != cs[k]
  {
    var first := new RateCounter();
    cs := new RateCounter[NUM_LEVELS](_ => first);
    for i := 1 to NUM_LEVELS
      modifies cs
      invariant forall j :: 0 <= j < i ==> fresh(cs[j]) && cs[j].State() == FRESH
      invariant forall j, k :: 0 <= j < k < i ==> cs[j] != cs[k]
    {
      cs[i] := new RateCounter();
    }
  }

  method SetLimits(levelLimit: array<nat>, limits: map<Level, nat>)
    requires levelLimit.Length == NUM_LEVELS
    modifies levelLimit
    ensures forall i :: 0 <= i < NUM_LEVELS ==>
              levelLimit[i] == if i as Level in limits then limits[i as Level] else old(levelLimit[i])
  {
    var todo := limits.Keys;
    while todo != {}
      invariant todo <= limits.Keys
      invariant forall i :: 0 <= i < NUM_LEVELS ==>
                  levelLimit[i] == if i as Level in limits && i as Level !in todo then limits[i as Level] else old(levelLimit[i])
      decreases todo
    {
      var lvl :| lvl in todo;
      var idx := LevelIndex(lvl);
      if idx >= 0 {
        levelLimit[idx] := limits[lvl];
      }
      todo := todo - {lvl};
    }
  }

  class RateSampler {
    var globalLimit: nat
    const levelLimit: array<nat>
    const global: RateCounter
    const levels: array<RateCounter>

    ghost predicate Valid()
      reads this, levelLimit, levels
    {
      && levelLimit.Length == levels.Length == NUM_LEVELS
      && (forall i :: 0 <= i < NUM_LEVELS ==> levels[i] != global)
      && (forall i, j :: 0 <= i < j < NUM_LEVELS ==> levels[i] != levels[j])
    }

    ghost function Footprint(): set<object>
      requires Valid()
      reads this, levelLimit, levels
    {
      {global} + set i | 0 <= i < NUM_LEVELS :: levels[i]
    }

    ghost function State(): (s: Sampler)
      requires Valid()
      reads this, levelLimit, levels, Footprint()
      ensures s.Valid()
    {
      Sampler(globalLimit, levelLimit[..], global.State(), LevelStates(NUM_LEVELS))
    }

    ghost function LevelStates(n: nat): (s: seq<Counter>)
      requires Valid() && n <= NUM_LEVELS
      reads this, levelLimit, levels, Footprint()
      ensures |s| == n && forall i :: 0 <= i < n ==> s[i] == levels[i].State()
    {
      if n == 0 then [] else LevelStates(n - 1) + [levels[n - 1].State()]
    }

    /** `NewRateSampler`: limits for levels outside debug..fatal are ignored, and a global
        limit of 0 or less means none. */
    constructor (globalLimit: int, limits: map<Level, nat>)
      ensures Valid() && fresh(Footprint()) && fresh(levelLimit) && fresh(levels)
      ensures this.globalLimit == if globalLimit > 0 then globalLimit else 0
      ensures forall i :: 0 <= i < NUM_LEVELS ==> levelLimit[i] == if i as Level in limits then limits[i as Level] else 0
      ensures State().global == FRESH && forall i :: 0 <= i < NUM_LEVELS ==> State().levels[i] == FRESH
    {
      this.globalLimit := if globalLimit > 0 then globalLimit else 0;
      this.levelLimit := new nat[NUM_LEVELS](_ => 0);
      this.global := new RateCounter();
      var counters := NewCounters();
      this.levels := counters;
      new;
      SetLimits(levelLimit, limits);
    }

    method Sample(lvl: Level, now: int, later: int) returns (ok: bool)
      requires Valid()
      modifies Footprint()
      ensures Valid() && unchanged(`globalLimit) && unchanged(levelLimit) && unchanged(levels)
      ensures (State(), ok) == SampleStep(old(State()), lvl, now, later)
      ensures lvl < DEBUG_LEVEL || lvl >= FATAL_LEVEL ==> ok && State() == old(State())
      ensures DEBUG_LEVEL <= lvl < FATAL_LEVEL && globalLimit == 0 && levelLimit[lvl as int] == 0 ==>
                ok && State() == old(State())
      ensures DEBUG_LEVEL <= lvl < FATAL_LEVEL ==>
                (ok <==> !old(Spent(levels[lvl as int].State(), levelLimit[lvl as int], now))
                         && !old(Spent(global.State(), globalLimit, later)))
    {
      if lvl >= FATAL_LEVEL {
        return true;
      }
      var idx := LevelIndex(lvl);
      if idx < 0 {
        return true;
      }
      var limit := levelLimit[idx];
      if limit > 0 {
        var n := levels[idx].Increment(now, TICK);
        assert State().levels == old(State()).levels[idx := Inc(old(State()).levels[idx], now, TICK).0];
        if n > limit {
          return false;
        }
      }
      if globalLimit > 0 {
        label mid:
        var n := global.Increment(later, TICK);
        assert State().levels == old@mid(State().levels);
        if n > globalLimit {
          return false;
        }
      }
      return true;
    }
  }

  // ----- what a sampler lets through -----

  datatype Message = Message(lvl: Level, now: int, later: int)

  /** The clock readings of the messages that reach the global counter. */
  function GlobalTimes(s: Sampler, ms: seq<Message>): seq<int>
    requires s.Valid()
    decreases |ms|
  {
    if ms == [] then []
    else
      var m := ms[0];
      var s' := SampleStep(s, m.lvl, m.now, m.later).0;
      (if Droppable(m.lvl) && PassesLevel(s, m.lvl, m.now) then [m.later] else []) + GlobalTimes(s', ms[1..])
  }

  /** Messages below fatal that pass, with the global counter read in [a, a + tick). */
  function PassedIn(s: Sampler, ms: seq<Message>, a: int): nat
    requires s.Valid()
    decreases |ms|
  {
    if ms == [] then 0
    else
      var m := ms[0];
      var (s', ok) := SampleStep(s, m.lvl, m.now, m.later);
      (if ok && Droppable(m.lvl) && a <= m.later < a + TICK then 1 else 0) + PassedIn(s', ms[1..], a)
  }

  /** With a global limit, messages dropped by their level never touch the global budget:
      what passes is what a lone global counter admits of the messages that reach it. */
  lemma {:induction false} LevelsDoNotSpendGlobal(s: Sampler, ms: seq<Message>, a: int)
    requires s.Valid() && s.globalLimit > 0
    ensures PassedIn(s, ms, a) == AdmittedIn(s.global, GlobalTimes(s, ms), TICK, s.globalLimit, a)
    decreases |ms|
  {
    if ms != [] {
      var m := ms[0];
      var s' := SampleStep(s, m.lvl, m.now, m.later).0;
      LevelsDoNotSpendGlobal(s', ms[1..], a);
      if Droppable(m.lvl) && PassesLevel(s, m.lvl, m.now) {
        assert GlobalTimes(s, ms)[1..] == GlobalTimes(s', ms[1..]);
      } else {
        assert GlobalTimes(s, ms) == GlobalTimes(s', ms[1..]);
      }
    }
  }

  lemma {:induction false} GlobalTimesFrom(s: Sampler, ms: seq<Message>, lo: int)
    requires s.Valid() && forall i :: 0 <= i < |ms| ==> ms[i].later >= lo
    requires forall i, j :: 0 <= i < j < |ms| ==> ms[i].later <= ms[j].later
    ensures Sorted(GlobalTimes(s, ms)) && forall i :: 0 <= i < |GlobalTimes(s, ms)| ==> GlobalTimes(s, ms)[i] >= lo
    decreases |ms|
  {
    if ms != [] {
      var m := ms[0];
      GlobalTimesFrom(SampleStep(s, m.lvl, m.now, m.later).0, ms[1..], m.later);
    }
  }

  /** A sampler with a global limit lets fewer than twice that many messages below fatal
      through in any second, whatever their levels. */
  lemma GlobalLimitHolds(s: Sampler, ms: seq<Message>, a: int)
    requires s.Valid() && s.globalLimit > 0 && s.global == FRESH
    requires forall i :: 0 <= i < |ms| ==> ms[i].later >= 0
    requires forall i, j :: 0 <= i < j < |ms| ==> ms[i].later <= ms[j].later
    ensures PassedIn(s, ms, a) <= 2 * s.globalLimit - 1
  {
    LevelsDoNotSpendGlobal(s, ms, a);
    GlobalTimesFrom(s, ms, 0);
    AnyTickAdmitsBelowTwice(GlobalTimes(s, ms), TICK, s.globalLimit, a);
  }

  // ----- the limit of one level -----

  /** The level counter's clock readings of the messages at level `lvl`. */
  function LevelTimes(ms: seq<Message>, lvl: Level): seq<int> {
    if ms == [] then [] else (if ms[0].lvl == lvl then [ms[0].now] else []) + LevelTimes(ms[1..], lvl)
  }

  /** Messages at level `lvl` that pass, with the level counter read in [a, a + TICK). */
  function LevelPassedIn(s: Sampler, ms: seq<Message>, lvl: Level, a: int): nat
    requires s.Valid()
    decreases |ms|
  {
    if ms == [] then 0
    else
      var m := ms[0];
      var (s', ok) := SampleStep(s, m.lvl, m.now, m.later);
      (if ok && m.lvl == lvl && a <= m.now < a + TICK then 1 else 0) + LevelPassedIn(s', ms[1..], lvl, a)
  }

  /** A level with a limit lets through no more than a lone counter with that limit would, and
      exactly as many when there is no global limit; other levels make no difference. */
  lemma {:induction false} LevelsAreIndependent(s: Sampler, ms: seq<Message>, lvl: Level, a: int)
    requires s.Valid() && Droppable(lvl) && s.levelLimit[lvl as int] > 0
    ensures var alone := AdmittedIn(s.levels[lvl as int], LevelTimes(ms, lvl), TICK, s.levelLimit[lvl as int], a);
            && LevelPassedIn(s, ms, lvl, a) <= alone
            && (s.globalLimit == 0 ==> LevelPassedIn(s, ms, lvl, a) == alone)
    decreases |ms|
  {
    if ms != [] {
      var m := ms[0];
      var s' := SampleStep(s, m.lvl, m.now, m.later).0;
      LevelsAreIndependent(s', ms[1..], lvl, a);
      if m.lvl == lvl {
        assert LevelTimes(ms, lvl)[1..] == LevelTimes(ms[1..], lvl);
      } else {
        assert LevelTimes(ms, lvl) == LevelTimes(ms[1..], lvl);
      }
    }
  }

  lemma {:induction false} LevelTimesFrom(ms: seq<Message>, lvl: Level, lo: int)
    requires forall i :: 0 <= i < |ms| ==> ms[i].now >= lo
    requires forall i, j :: 0 <= i < j < |ms| ==> ms[i].now <= ms[j].now
    ensures Sorted(LevelTimes(ms, lvl)) && forall i :: 0 <= i < |LevelTimes(ms, lvl)| ==> LevelTimes(ms, lvl)[i] >= lo
  {
    if ms != [] {
      LevelTimesFrom(ms[1..], lvl, ms[0].now);
    }
  }

  /** A level with a limit lets fewer than twice that many of its messages through in any second. */
  lemma LevelLimitHolds(s: Sampler, ms: seq<Message>, lvl: Level, a: int)
    requires s.Valid() && Droppable(lvl) && s.levelLimit[lvl as int] > 0 && s.levels[lvl as int] == FRESH
    requires forall i :: 0 <= i < |ms| ==> ms[i].now >= 0
    requires forall i, j :: 0 <= i < j < |ms| ==> ms[i].now <= ms[j].now
    ensures LevelPassedIn(s, ms, lvl, a) <= 2 * s.levelLimit[lvl as int] - 1
  {
    LevelsAreIndependent(s, ms, lvl, a);
    LevelTimesFrom(ms, lvl, 0);
    AnyTickAdmitsBelowTwice(LevelTimes(ms, lvl), TICK, s.levelLimit[lvl as int], a);
  }
}
