/** Any number of goroutines in `RateSampler.Sample` at once: the level's counter first, then the
    global one, each counter interleaved as in RateMachine. */
module SamplerMachine {
  import opened Labels
  import opened Threads
  import Rate = RateMachine
  import RateSamplers
  import RateIntervals

  type Level = RateSamplers.Level

  /** The counters are those of the five levels and, last, the global one; a limit of 0 is none. */
  const GLOBAL: nat := 5
  const COUNTERS: nat := 6

  datatype Config = Config(tick: nat, limits: seq<nat>)
  {
    predicate Valid() {
      tick > 0 && |limits| == COUNTERS
    }
  }

  /** Where a call is: not in Sample, in its level's counter, past it, in the global counter. */
  datatype Stage = Outside | InLevel(lvl: Level) | PastLevel(lvl: Level) | InGlobal(lvl: Level)

  /** `clock`, `passed` and `passedAt` are history: the latest clock reading, and the messages
      below fatal that passed, in all and by level. */
  datatype State = State(stages: seq<Stage>, counters: seq<Rate.State>, clock: int, passed: nat, passedAt: seq<nat>)

  /** A goroutine calls Sample, a goroutine past its level goes on, a goroutine in a counter takes
      a step; `now` is read by the counter that is entered, if one is. */
  datatype Action = Sample(t: nat, lvl: Level, now: nat) | Enter(t: nat, now: nat) | Go(t: nat)

  function CounterConfig(c: Config, q: nat): Rate.Config
    requires c.Valid() && q < COUNTERS
  {
    Rate.Config(c.tick, c.limits[q])
  }

  ghost predicate Init(c: Config, s: State) {
    && c.Valid() && |s.counters| == COUNTERS && |s.passedAt| == GLOBAL
    && (forall q :: 0 <= q < COUNTERS ==> Rate.Init(CounterConfig(c, q), s.counters[q]) && |s.counters[q].threads| == |s.stages|)
    && (forall t :: 0 <= t < |s.stages| ==> s.stages[t] == Outside)
    && s.clock == 0 && s.passed == 0 && forall l :: 0 <= l < GLOBAL ==> s.passedAt[l] == 0
  }

  predicate Shape(c: Config, s: State) {
    && c.Valid() && |s.counters| == COUNTERS && |s.passedAt| == GLOBAL
    && (forall t :: 0 <= t < |s.stages| ==> s.stages[t].Outside? || RateSamplers.Droppable(s.stages[t].lvl))
  }

  /** The counter a goroutine is in. */
  function Inside(p: Stage): nat
    requires p.InLevel? || p.InGlobal?
    requires RateSamplers.Droppable(p.lvl)
    ensures Inside(p) < COUNTERS
  {
    if p.InGlobal? then GLOBAL else p.lvl as nat
  }

  /** What an action does to counter `q`, if anything. */
  function Touch(c: Config, s: State, a: Action, q: nat): (r: Option<Rate.Action>)
    requires Shape(c, s)
  {
    match a
    case Sample(t, lvl, now) =>
      if RateSamplers.Droppable(lvl) && c.limits[lvl as nat] > 0 && q == lvl as nat then Some(Rate.Call(t, now)) else None
    case Enter(t, now) =>
      if c.limits[GLOBAL] > 0 && q == GLOBAL then Some(Rate.Call(t, now)) else None
    case Go(t) =>
      if t < |s.stages| && (s.stages[t].InLevel? || s.stages[t].InGlobal?) && Inside(s.stages[t]) == q then Some(Rate.Go(t))
      else None
  }

  predicate Can(c: Config, s: State, a: Action)
    requires Shape(c, s)
  {
    && a.t < |s.stages|
    && (match a
        case Sample(_, _, _) => s.stages[a.t].Outside?
        case Enter(_, _) => s.stages[a.t].PastLevel?
        case Go(_) => s.stages[a.t].InLevel? || s.stages[a.t].InGlobal?)
    && forall q :: 0 <= q < COUNTERS && Touch(c, s, a, q).Some? ==> Rate.Can(s.counters[q], Touch(c, s, a, q).value)
  }

  /** Counter `q` after the action. */
  function Moved(c: Config, s: State, a: Action, q: nat): Rate.State
    requires Shape(c, s) && Can(c, s, a) && q < COUNTERS
  {
    if Touch(c, s, a, q).Some? then Rate.Apply(CounterConfig(c, q), s.counters[q], Touch(c, s, a, q).value) else s.counters[q]
  }

  function AllMoved(c: Config, s: State, a: Action, n: nat): (r: seq<Rate.State>)
    requires Shape(c, s) && Can(c, s, a) && n <= COUNTERS
    ensures |r| == n && forall q :: 0 <= q < n ==> r[q] == Moved(c, s, a, q)
  {
    if n == 0 then [] else AllMoved(c, s, a, n - 1) + [Moved(c, s, a, n - 1)]
  }

  /** The call returns from counter `q`. */
  predicate Returns(c: Config, s: State, a: Action, q: nat)
    requires Shape(c, s) && Can(c, s, a) && q < COUNTERS
  {
    a.t < |Moved(c, s, a, q).threads| && Moved(c, s, a, q).threads[a.t] == Rate.Idle
  }

  /** The call returns from counter `q`, counted no further than the limit. */
  predicate Admits(c: Config, s: State, a: Action, q: nat)
    requires Shape(c, s) && Can(c, s, a) && q < COUNTERS
  {
    Moved(c, s, a, q).admitted > s.counters[q].admitted
  }

  function Goto(s: State, t: nat, p: Stage): State
    requires t < |s.stages|
  {
    s.(stages := s.stages[t := p])
  }

  function Pass(s: State, t: nat, lvl: Level): State
    requires t < |s.stages| && RateSamplers.Droppable(lvl) && |s.passedAt| == GLOBAL
  {
    Goto(s, t, Outside).(passed := s.passed + 1, passedAt := s.passedAt[lvl as nat := s.passedAt[lvl as nat] + 1])
  }

  /** Where the call goes from here. */
  function Route(c: Config, s: State, a: Action): State
    requires Shape(c, s) && Can(c, s, a)
  {
    var t := a.t;
    match a
    case Sample(_, lvl, _) =>
      if !RateSamplers.Droppable(lvl) then s
      else if c.limits[lvl as nat] > 0 then Goto(s, t, InLevel(lvl))
      else Goto(s, t, PastLevel(lvl))
    case Enter(_, _) =>
      if c.limits[GLOBAL] > 0 then Goto(s, t, InGlobal(s.stages[t].lvl)) else Pass(s, t, s.stages[t].lvl)
    case Go(_) =>
      var p, q := s.stages[t], Inside(s.stages[t]);
      if !Returns(c, s, a, q) then s
      else if !Admits(c, s, a, q) then Goto(s, t, Outside)
      else if p.InLevel? then Goto(s, t, PastLevel(p.lvl))
      else Pass(s, t, p.lvl)
  }

  function Apply(c: Config, s: State, a: Action): State
    requires Shape(c, s) && Can(c, s, a)
  {
    Route(c, s, a).(counters := AllMoved(c, s, a, COUNTERS),
                    clock := if !a.Go? && a.now > s.clock then a.now else s.clock)
  }

  ghost predicate IsRun(c: Config, tr: seq<State>, acts: seq<Action>) {
    && |tr| == |acts| + 1 && Init(c, tr[0])
    && forall i :: 0 <= i < |acts| ==> Shape(c, tr[i]) && Can(c, tr[i], acts[i]) && tr[i + 1] == Apply(c, tr[i], acts[i])
  }

  // ----- no call is ever stuck -----

  /** A goroutine is inside a counter exactly when its call is. */
  ghost predicate InStep(c: Config, s: State) {
    && Shape(c, s)
    && forall q: nat, t: nat :: q < COUNTERS && t < |s.stages| ==> Agrees(s, q, t)
  }

  predicate Agrees(s: State, q: nat, t: nat)
    requires q < |s.counters| && t < |s.stages|
  {
    t < |s.counters[q].threads| && (s.counters[q].threads[t] != Rate.Idle <==> IsInside(s.stages[t], q))
  }

  predicate IsInside(p: Stage, q: nat) {
    (p.InLevel? || p.InGlobal?) && RateSamplers.Droppable(p.lvl) && Inside(p) == q
  }

  /** Whatever a goroutine in Sample can do next is possible. */
  lemma NobodyIsStuck(c: Config, s: State, t: nat, now: nat)
    requires InStep(c, s) && t < |s.stages| && !s.stages[t].Outside?
    ensures Can(c, s, if s.stages[t].PastLevel? then Enter(t, now) else Go(t))
  {
    var a := if s.stages[t].PastLevel? then Enter(t, now) else Go(t);
    forall q: nat | q < COUNTERS && Touch(c, s, a, q).Some? ensures Rate.Can(s.counters[q], Touch(c, s, a, q).value) {
      assert Agrees(s, q, t);
    }
  }

  lemma OneThreadMoves(c: Rate.Config, s: Rate.State, a: Rate.Action)
    requires Rate.Can(s, a)
    ensures var s' := Rate.Apply(c, s, a);
            && |s'.threads| == |s.threads| && (a.Call? ==> s'.threads[a.t] != Rate.Idle)
            && forall u :: 0 <= u < |s.threads| && u != a.t ==> s'.threads[u] == s.threads[u]
  {
  }

  lemma StepAgrees(c: Config, s: State, a: Action, q: nat, t: nat)
    requires Shape(c, s) && Can(c, s, a) && q < COUNTERS && t < |s.stages|
    requires Agrees(s, q, t) && (t == a.t ==> forall r: nat :: r < COUNTERS ==> Agrees(s, r, t))
    ensures |Apply(c, s, a).stages| == |s.stages| && Agrees(Apply(c, s, a), q, t)
  {
    var s' := Apply(c, s, a);
    assert s'.counters[q] == Moved(c, s, a, q);
    if Touch(c, s, a, q).Some? {
      OneThreadMoves(CounterConfig(c, q), s.counters[q], Touch(c, s, a, q).value);
    }
  }

  lemma StepInStep(c: Config, s: State, a: Action)
    requires InStep(c, s) && Can(c, s, a)
    ensures InStep(c, Apply(c, s, a))
  {
    forall q: nat, t: nat | q < COUNTERS && t < |s.stages| ensures Agrees(Apply(c, s, a), q, t) {
      StepAgrees(c, s, a, q, t);
    }
  }

  lemma {:induction false} AlwaysInStep(c: Config, tr: seq<State>, acts: seq<Action>, i: nat)
    requires IsRun(c, tr, acts) && i < |tr|
    ensures InStep(c, tr[i])
  {
    if i > 0 {
      AlwaysInStep(c, tr, acts, i - 1);
      StepInStep(c, tr[i - 1], acts[i - 1]);
    }
  }

  /** No call ever waits for another: a goroutine inside Sample can always take its next step. */
  lemma NobodyWaits(c: Config, tr: seq<State>, acts: seq<Action>, i: nat, t: nat, now: nat)
    requires IsRun(c, tr, acts) && i < |tr| && t < |tr[i].stages| && !tr[i].stages[t].Outside?
    ensures Shape(c, tr[i]) && Can(c, tr[i], if tr[i].stages[t].PastLevel? then Enter(t, now) else Go(t))
  {
    AlwaysInStep(c, tr, acts, i);
    NobodyIsStuck(c, tr[i], t, now);
  }

  // ----- each counter goes through a run of RateMachine -----

  /** The run of counter `q` up to state `i`: its states and the actions that touched it. */
  function Part(c: Config, tr: seq<State>, acts: seq<Action>, q: nat, i: nat): (seq<Rate.State>, seq<Rate.Action>)
    requires q < COUNTERS && i < |tr| <= |acts| + 1
    requires forall k :: 0 <= k <= i ==> Shape(c, tr[k])
  {
    assert Shape(c, tr[i]);
    if i == 0 then ([tr[0].counters[q]], [])
    else
      var (p, b) := Part(c, tr, acts, q, i - 1);
      var x := Touch(c, tr[i - 1], acts[i - 1], q);
      if x.None? then (p, b) else (p + [tr[i].counters[q]], b + [x.value])
  }

  lemma {:induction false} ShapeRun(c: Config, tr: seq<State>, acts: seq<Action>, i: nat)
    requires IsRun(c, tr, acts) && i < |tr|
    ensures forall k :: 0 <= k <= i ==> Shape(c, tr[k])
  {
    if i > 0 {
      ShapeRun(c, tr, acts, i - 1);
      assert tr[i] == Apply(c, tr[i - 1], acts[i - 1]);
    }
  }

  lemma RunOn(rc: Rate.Config, p: seq<Rate.State>, b: seq<Rate.Action>, x: Rate.Action)
    requires Rate.IsRun(rc, p, b) && Rate.Can(p[|b|], x)
    ensures Rate.IsRun(rc, p + [Rate.Apply(rc, p[|b|], x)], b + [x])
  {
  }

  lemma CounterMoves(c: Config, tr: seq<State>, acts: seq<Action>, q: nat, i: nat)
    requires IsRun(c, tr, acts) && i < |acts| && q < COUNTERS
    ensures Shape(c, tr[i]) && Can(c, tr[i], acts[i]) && |tr[i + 1].counters| == COUNTERS
    ensures tr[i + 1].counters[q] == Moved(c, tr[i], acts[i], q)
    ensures var x := Touch(c, tr[i], acts[i], q); x.Some? ==> Rate.Can(tr[i].counters[q], x.value)
  {
    assert tr[i + 1] == Apply(c, tr[i], acts[i]);
  }

  lemma {:induction false} PartIsRun(c: Config, tr: seq<State>, acts: seq<Action>, q: nat, i: nat)
    requires IsRun(c, tr, acts) && i < |tr| && q < COUNTERS
    ensures forall k :: 0 <= k <= i ==> Shape(c, tr[k])
    ensures var (p, b) := Part(c, tr, acts, q, i);
            Rate.IsRun(CounterConfig(c, q), p, b) && p[|b|] == tr[i].counters[q] && |p[0].threads| == |tr[0].stages|
  {
    ShapeRun(c, tr, acts, i);
    if i > 0 {
      PartIsRun(c, tr, acts, q, i - 1);
      CounterMoves(c, tr, acts, q, i - 1);
      var x := Touch(c, tr[i - 1], acts[i - 1], q);
      if x.Some? {
        var (p, b) := Part(c, tr, acts, q, i - 1);
        RunOn(CounterConfig(c, q), p, b, x.value);
      }
    }
  }

  /** No clock reading of actions `i` to `j` is older than `b`. */
  predicate Since(acts: seq<Action>, i: nat, j: nat, b: int)
    requires j <= |acts|
  {
    forall k :: i <= k < j && !acts[k].Go? ==> acts[k].now >= b
  }

  /** One run goes on from another, with no clock reading older than `b` after the parting. */
  predicate GoesOn(p: seq<Rate.State>, x: seq<Rate.Action>, r: seq<Rate.State>, y: seq<Rate.Action>, b: int) {
    |p| == |x| + 1 && |r| == |y| + 1 && p <= r && x <= y && RateIntervals.Since(y, |x|, |y|, b)
  }

  lemma GoesFurther(p: seq<Rate.State>, x: seq<Rate.Action>, r: seq<Rate.State>, y: seq<Rate.Action>, b: int,
                    s: Rate.State, a: Rate.Action)
    requires GoesOn(p, x, r, y, b) && (a.Call? ==> a.now >= b)
    ensures GoesOn(p, x, r + [s], y + [a], b)
  {
  }

  lemma PartGoesOn(c: Config, tr: seq<State>, acts: seq<Action>, q: nat, j: nat, b: int, p: seq<Rate.State>, x: seq<Rate.Action>)
    requires q < COUNTERS && 0 < j < |tr| <= |acts| + 1 && (forall k :: 0 <= k <= j ==> Shape(c, tr[k]))
    requires !acts[j - 1].Go? ==> acts[j - 1].now >= b
    requires var (r, y) := Part(c, tr, acts, q, j - 1); GoesOn(p, x, r, y, b)
    ensures var (r, y) := Part(c, tr, acts, q, j); GoesOn(p, x, r, y, b)
  {
    var (r, y) := Part(c, tr, acts, q, j - 1);
    var a := Touch(c, tr[j - 1], acts[j - 1], q);
    if a.Some? {
      assert Shape(c, tr[j]);
      GoesFurther(p, x, r, y, b, tr[j].counters[q], a.value);
    }
  }

  lemma {:induction false} PartGrows(c: Config, tr: seq<State>, acts: seq<Action>, q: nat, i: nat, j: nat, b: int)
    requires q < COUNTERS && i <= j < |tr| <= |acts| + 1 && (forall k :: 0 <= k <= j ==> Shape(c, tr[k]))
    requires Since(acts, i, j, b) && |Part(c, tr, acts, q, i).0| == |Part(c, tr, acts, q, i).1| + 1
    ensures var (p, x) := Part(c, tr, acts, q, i); var (r, y) := Part(c, tr, acts, q, j); GoesOn(p, x, r, y, b)
    decreases j
  {
    if i < j {
      PartGrows(c, tr, acts, q, i, j - 1, b);
      var (p, x) := Part(c, tr, acts, q, i);
      PartGoesOn(c, tr, acts, q, j, b, p, x);
    }
  }

  lemma {:induction false} ClockCovers(c: Config, tr: seq<State>, acts: seq<Action>, q: nat, i: nat)
    requires IsRun(c, tr, acts) && i < |tr| && q < COUNTERS
    ensures Shape(c, tr[i]) && tr[i].counters[q].clock <= tr[i].clock
  {
    ShapeRun(c, tr, acts, i);
    if i > 0 {
      ClockCovers(c, tr, acts, q, i - 1);
      assert tr[i].counters[q] == Moved(c, tr[i - 1], acts[i - 1], q);
    }
  }

  /** What one counter admits while the clock reads from `b` to `b + d` ticks. */
  lemma CounterBound(c: Config, tr: seq<State>, acts: seq<Action>, q: nat, i: nat, j: nat, b: int, d: nat)
    requires IsRun(c, tr, acts) && i <= j < |tr| && q < COUNTERS && c.Valid() && c.limits[q] > 0
    requires Since(acts, i, j, b) && tr[j].clock - b <= d * c.tick
    ensures Shape(c, tr[i]) && Shape(c, tr[j])
    ensures tr[j].counters[q].admitted - tr[i].counters[q].admitted
            <= RateIntervals.MostAdmitted(|tr[0].stages|, c.limits[q], d)
  {
    PartIsRun(c, tr, acts, q, i);
    PartIsRun(c, tr, acts, q, j);
    ShapeRun(c, tr, acts, j);
    PartGrows(c, tr, acts, q, i, j, b);
    ClockCovers(c, tr, acts, q, j);
    var (p, x) := Part(c, tr, acts, q, i);
    var (r, y) := Part(c, tr, acts, q, j);
    assert r[|x|] == p[|x|];
    RateIntervals.StoresBetween(CounterConfig(c, q), r, y, 0, |x|);
    RateIntervals.RateSince(CounterConfig(c, q), r, y, |x|, |y|, b, d);
  }

  // ----- what passes -----

  /** Every message that passes a limited sampler is one admission of the global counter. */
  lemma {:induction false} PassedIsAdmitted(c: Config, tr: seq<State>, acts: seq<Action>, i: nat)
    requires IsRun(c, tr, acts) && i < |tr| && c.Valid() && c.limits[GLOBAL] > 0
    ensures Shape(c, tr[i]) && tr[i].passed == tr[i].counters[GLOBAL].admitted
  {
    ShapeRun(c, tr, acts, i);
    if i > 0 {
      PassedIsAdmitted(c, tr, acts, i - 1);
      PassStep(c, tr[i - 1], acts[i - 1]);
    }
  }

  /** A call is let through only as it returns. */
  lemma AdmitsOnReturn(c: Rate.Config, s: Rate.State, a: Rate.Action)
    requires Rate.Can(s, a)
    ensures var s' := Rate.Apply(c, s, a);
            && s'.admitted - s.admitted in {0, 1} && |s'.threads| == |s.threads|
            && (s'.admitted > s.admitted ==> a.Go? && s'.threads == s.threads[a.t := Rate.Idle])
  {
  }

  lemma PassStep(c: Config, s: State, a: Action)
    requires Shape(c, s) && Can(c, s, a) && c.limits[GLOBAL] > 0
    ensures Apply(c, s, a).passed - s.passed == Apply(c, s, a).counters[GLOBAL].admitted - s.counters[GLOBAL].admitted
  {
    if Touch(c, s, a, GLOBAL).Some? {
      AdmitsOnReturn(CounterConfig(c, GLOBAL), s.counters[GLOBAL], Touch(c, s, a, GLOBAL).value);
    }
  }

  /** A message of level `lvl` that got past its level and has not passed or been dropped yet. */
  function Past(lvl: Level, p: Stage): int {
    if (p.PastLevel? || p.InGlobal?) && p.lvl == lvl then 1 else 0
  }

  function PastAt(lvl: Level): Stage -> int {
    (p: Stage) => Past(lvl, p)
  }

  function Account(s: State, lvl: Level): int
    requires RateSamplers.Droppable(lvl) && |s.counters| == COUNTERS && |s.passedAt| == GLOBAL
  {
    s.passedAt[lvl as nat] + Total(s.stages, PastAt(lvl)) - s.counters[lvl as nat].admitted
  }

  /** A goroutine's move changes the account by its own share. */
  lemma AccountMoves(s: State, t: nat, p: Stage, s': State, lvl: Level)
    requires RateSamplers.Droppable(lvl) && |s.counters| == |s'.counters| == COUNTERS && |s.passedAt| == |s'.passedAt| == GLOBAL
    requires t < |s.stages| && s'.stages == s.stages[t := p]
    ensures Account(s', lvl) - Account(s, lvl)
            == (s'.passedAt[lvl as nat] - s.passedAt[lvl as nat]) + (Past(lvl, p) - Past(lvl, s.stages[t]))
               - (s'.counters[lvl as nat].admitted - s.counters[lvl as nat].admitted)
  {
    TotalUpdate(s.stages, t, p, PastAt(lvl));
    assert PastAt(lvl)(s.stages[t]) == Past(lvl, s.stages[t]) && PastAt(lvl)(p) == Past(lvl, p);
  }

  /** What the goroutine's place and the passed messages change by comes from one admission. */
  lemma RouteAccounts(c: Config, s: State, a: Action, lvl: Level)
    requires Shape(c, s) && Can(c, s, a) && RateSamplers.Droppable(lvl) && c.limits[lvl as nat] > 0
    ensures var r := Route(c, s, a);
            && |r.stages| == |s.stages| && r.stages == s.stages[a.t := r.stages[a.t]] && |r.passedAt| == GLOBAL
            && (r.passedAt[lvl as nat] - s.passedAt[lvl as nat]) + (Past(lvl, r.stages[a.t]) - Past(lvl, s.stages[a.t]))
               <= if Admits(c, s, a, lvl as nat) then 1 else 0
  {
  }

  lemma LevelStep(c: Config, s: State, a: Action, lvl: Level)
    requires Shape(c, s) && Can(c, s, a) && RateSamplers.Droppable(lvl) && c.limits[lvl as nat] > 0
    ensures Account(Apply(c, s, a), lvl) <= Account(s, lvl)
  {
    var s' := Apply(c, s, a);
    RouteAccounts(c, s, a, lvl);
    AccountMoves(s, a.t, s'.stages[a.t], s', lvl);
    if Touch(c, s, a, lvl as nat).Some? {
      AdmitsOnReturn(CounterConfig(c, lvl as nat), s.counters[lvl as nat], Touch(c, s, a, lvl as nat).value);
    }
  }

  lemma LevelAction(c: Config, tr: seq<State>, acts: seq<Action>, i: nat, lvl: Level)
    requires IsRun(c, tr, acts) && i < |acts| && RateSamplers.Droppable(lvl) && c.Valid() && c.limits[lvl as nat] > 0
    ensures Shape(c, tr[i]) && Shape(c, tr[i + 1]) && |tr[i].stages| == |tr[i + 1].stages|
    ensures Account(tr[i + 1], lvl) <= Account(tr[i], lvl)
  {
    LevelStep(c, tr[i], acts[i], lvl);
  }

  /** A step at which the account of the level does not grow. */
  predicate Settles(s: State, s': State, lvl: Level)
    requires RateSamplers.Droppable(lvl)
  {
    && |s.counters| == |s'.counters| == COUNTERS && |s.passedAt| == |s'.passedAt| == GLOBAL
    && |s.stages| == |s'.stages| && Account(s', lvl) <= Account(s, lvl)
  }

  lemma SettlesFurther(s: State, s': State, s'': State, lvl: Level)
    requires RateSamplers.Droppable(lvl) && Settles(s, s', lvl) && Settles(s', s'', lvl)
    ensures Settles(s, s'', lvl)
  {
  }

  lemma {:induction false} SettlesAlong(tr: seq<State>, i: nat, j: nat, lvl: Level)
    requires i <= j < |tr| && RateSamplers.Droppable(lvl)
    requires |tr[i].counters| == COUNTERS && |tr[i].passedAt| == GLOBAL
    requires forall k :: i <= k < j ==> Settles(tr[k], tr[k + 1], lvl)
    ensures Settles(tr[i], tr[j], lvl)
    decreases j
  {
    if i < j {
      SettlesAlong(tr, i, j - 1, lvl);
      SettlesFurther(tr[i], tr[j - 1], tr[j], lvl);
    }
  }

  lemma LevelRun(c: Config, tr: seq<State>, acts: seq<Action>, i: nat, j: nat, lvl: Level)
    requires IsRun(c, tr, acts) && i <= j < |tr| && RateSamplers.Droppable(lvl) && c.Valid() && c.limits[lvl as nat] > 0
    ensures Settles(tr[i], tr[j], lvl)
  {
    ShapeRun(c, tr, acts, i);
    forall k | i <= k < j ensures Settles(tr[k], tr[k + 1], lvl) {
      LevelAction(c, tr, acts, k, lvl);
    }
    SettlesAlong(tr, i, j, lvl);
  }

  // ----- over whole runs -----

  /** The sampler, end to end, with N racing goroutines: from any moment on, while the clock reads
      from `b` to `b + d` ticks, the messages below fatal that pass are within the bound of one
      counter with the global limit ... */
  lemma GlobalRate(c: Config, tr: seq<State>, acts: seq<Action>, i: nat, j: nat, b: int, d: nat)
    requires IsRun(c, tr, acts) && i <= j < |tr| && c.Valid() && c.limits[GLOBAL] > 0
    requires Since(acts, i, j, b) && tr[j].clock - b <= d * c.tick
    ensures tr[j].passed - tr[i].passed <= RateIntervals.MostAdmitted(|tr[0].stages|, c.limits[GLOBAL], d)
  {
    PassedIsAdmitted(c, tr, acts, i);
    PassedIsAdmitted(c, tr, acts, j);
    CounterBound(c, tr, acts, GLOBAL, i, j, b, d);
  }

  /** ... and those of one level within the bound of a counter with the level's limit, but for
      the calls, at most one a goroutine, that were already past their level. */
  lemma LevelRate(c: Config, tr: seq<State>, acts: seq<Action>, i: nat, j: nat, b: int, d: nat, lvl: Level)
    requires IsRun(c, tr, acts) && i <= j < |tr| && RateSamplers.Droppable(lvl) && c.Valid() && c.limits[lvl as nat] > 0
    requires Since(acts, i, j, b) && tr[j].clock - b <= d * c.tick
    ensures Shape(c, tr[i]) && Shape(c, tr[j])
    ensures tr[j].passedAt[lvl as nat] - tr[i].passedAt[lvl as nat]
            <= RateIntervals.MostAdmitted(|tr[0].stages|, c.limits[lvl as nat], d) + |tr[0].stages|
  {
    LevelRun(c, tr, acts, i, j, lvl);
    LevelRun(c, tr, acts, 0, i, lvl);
    ShapeRun(c, tr, acts, j);
    CounterBound(c, tr, acts, lvl as nat, i, j, b, d);
    TotalAtMost(tr[i].stages, PastAt(lvl), 1);
    TotalAtLeast(tr[j].stages, PastAt(lvl), 0);
  }
}
