/** What becomes of every message given to a sampler that many goroutines share. */
module SamplerVerdicts {
  import opened SamplerMachine
  import RateReturns

  /** A call is inside a counter only if that counter has a limit. */
  predicate Limited(c: Config, p: Stage) {
    && (p.InLevel? ==> RateSamplers.Droppable(p.lvl) && |c.limits| == COUNTERS && c.limits[p.lvl as nat] > 0)
    && (p.InGlobal? ==> |c.limits| == COUNTERS && c.limits[GLOBAL] > 0)
  }

  /** A step moves one goroutine's call, and leaves calls only in counters with a limit. */
  lemma StageStep(c: Config, s: State, a: Action)
    requires Shape(c, s) && Can(c, s, a) && Limited(c, s.stages[a.t])
    ensures var s' := Apply(c, s, a);
            && |s'.stages| == |s.stages| && s'.stages == s.stages[a.t := s'.stages[a.t]]
            && Limited(c, s'.stages[a.t])
  {
  }

  lemma ActionStage(c: Config, tr: seq<State>, acts: seq<Action>, k: nat, t: nat)
    requires IsRun(c, tr, acts) && k < |acts| && t < |tr[k].stages|
    requires acts[k].t < |tr[k].stages| ==> Limited(c, tr[k].stages[acts[k].t])
    ensures acts[k].t < |tr[k].stages| == |tr[k + 1].stages|
    ensures if acts[k].t == t then Limited(c, tr[k + 1].stages[t]) else tr[k + 1].stages[t] == tr[k].stages[t]
  {
    StageStep(c, tr[k], acts[k]);
  }

  lemma {:induction false} LimitedRun(c: Config, tr: seq<State>, acts: seq<Action>, i: nat, t: nat)
    requires IsRun(c, tr, acts) && i < |tr| && t < |tr[i].stages|
    ensures Limited(c, tr[i].stages[t]) && |tr[i].stages| == |tr[0].stages|
  {
    if i > 0 {
      SameStages(c, tr, acts, i - 1);
      LimitedRun(c, tr, acts, i - 1, t);
      LimitedRun(c, tr, acts, i - 1, acts[i - 1].t);
      ActionStage(c, tr, acts, i - 1, t);
    }
  }

  lemma SameStages(c: Config, tr: seq<State>, acts: seq<Action>, k: nat)
    requires IsRun(c, tr, acts) && k < |acts|
    ensures acts[k].t < |tr[k].stages| == |tr[k + 1].stages|
  {
    assert tr[k + 1] == Apply(c, tr[k], acts[k]);
  }

  // ----- one message -----

  /** A message below fatal goes to its level's counter, or past it when the level has no limit.
      For fatal and unknown levels the call is over at once and no counter is touched. */
  lemma SampleEnters(c: Config, tr: seq<State>, acts: seq<Action>, b: nat)
    requires IsRun(c, tr, acts) && b < |acts| && acts[b].Sample?
    ensures c.Valid() && tr[b + 1].passed == tr[b].passed && acts[b].t < |tr[b + 1].stages|
    ensures var lvl := acts[b].lvl;
            if RateSamplers.DEBUG_LEVEL <= lvl < RateSamplers.FATAL_LEVEL then
              tr[b + 1].stages[acts[b].t] == if c.limits[lvl as nat] > 0 then InLevel(lvl) else PastLevel(lvl)
            else tr[b + 1].counters == tr[b].counters && tr[b + 1].stages == tr[b].stages
  {
    assert tr[b + 1] == Apply(c, tr[b], acts[b]);
  }

  /** The message passes: it is counted once, at its level. */
  predicate Passes(s: State, s': State, lvl: Level) {
    && RateSamplers.Droppable(lvl) && |s.passedAt| == |s'.passedAt| == GLOBAL
    && s'.passed == s.passed + 1 && s'.passedAt == s.passedAt[lvl as nat := s.passedAt[lvl as nat] + 1]
  }

  /** The message is dropped: nothing passes, and counter `q`, which has a limit, had reached it. */
  predicate DroppedAt(c: Config, s: State, s': State, q: nat) {
    && q < COUNTERS == |s.counters| == |c.limits| && s'.passed == s.passed && s'.passedAt == s.passedAt
    && c.limits[q] > 0 && s.counters[q].count >= c.limits[q]
  }

  /** A step that ends a call passes its message, or drops it in the counter it was in: its
      level's, or the global one. */
  ghost predicate Verdict(c: Config, s: State, s': State, p: Stage) {
    && !p.Outside?
    && (Passes(s, s', p.lvl) || (RateSamplers.Droppable(p.lvl) && p.InLevel? && DroppedAt(c, s, s', p.lvl as nat))
                             || (p.InGlobal? && DroppedAt(c, s, s', GLOBAL)))
  }

  /** A call that returns unadmitted met a count at the limit. */
  lemma UnadmittedAtLimit(c: Rate.Config, s: Rate.State, t: nat)
    requires Rate.Can(s, Rate.Go(t)) && Rate.Exec(c, s, t).threads[t] == Rate.Idle
    requires Rate.Exec(c, s, t).admitted == s.admitted
    ensures s.count >= c.limit
  {
  }

  /** `t`'s call leaves Sample only with a verdict, and keeps its level until then. */
  lemma StepVerdict(c: Config, s: State, a: Action)
    requires InStep(c, s) && Can(c, s, a) && !a.Sample? && Limited(c, s.stages[a.t])
    ensures |Apply(c, s, a).stages| == |s.stages|
    ensures var p, p' := s.stages[a.t], Apply(c, s, a).stages[a.t];
            if p'.Outside? then Verdict(c, s, Apply(c, s, a), p) else p'.lvl == p.lvl
  {
    var p := s.stages[a.t];
    if a.Go? && Returns(c, s, a, Inside(p)) && !Admits(c, s, a, Inside(p)) {
      var q := Inside(p);
      AdmitsOnReturn(CounterConfig(c, q), s.counters[q], Rate.Go(a.t));
      UnadmittedAtLimit(CounterConfig(c, q), s.counters[q], a.t);
    }
  }

  /** The call thread `t` made at action `b` is still in Sample. */
  ghost predicate InSample(tr: seq<State>, acts: seq<Action>, b: nat, e: nat, t: nat) {
    && b < e < |tr| && b < |acts| && acts[b].Sample? && acts[b].t == t && RateSamplers.Droppable(acts[b].lvl)
    && forall x :: b < x <= e ==> t < |tr[x].stages| && !tr[x].stages[t].Outside?
  }

  lemma {:induction false} KeepsItsLevel(c: Config, tr: seq<State>, acts: seq<Action>, b: nat, e: nat, t: nat)
    requires IsRun(c, tr, acts) && InSample(tr, acts, b, e, t)
    ensures tr[e].stages[t].lvl == acts[b].lvl
    decreases e
  {
    if e == b + 1 {
      assert tr[e] == Apply(c, tr[b], acts[b]);
    } else {
      KeepsItsLevel(c, tr, acts, b, e - 1, t);
      SameStages(c, tr, acts, e - 1);
      MovesOrWaits(c, tr, acts, e - 1, t);
    }
  }

  lemma MovesOrWaits(c: Config, tr: seq<State>, acts: seq<Action>, k: nat, t: nat)
    requires IsRun(c, tr, acts) && k < |acts| && t < |tr[k].stages| && !tr[k].stages[t].Outside?
    ensures t < |tr[k + 1].stages|
    ensures var p, p' := tr[k].stages[t], tr[k + 1].stages[t];
            if p'.Outside? then Verdict(c, tr[k], tr[k + 1], p) else p'.lvl == p.lvl
  {
    AlwaysInStep(c, tr, acts, k);
    LimitedRun(c, tr, acts, k, t);
    SameStages(c, tr, acts, k);
    if acts[k].t == t {
      StepVerdict(c, tr[k], acts[k]);
    } else {
      LimitedRun(c, tr, acts, k, acts[k].t);
      ActionStage(c, tr, acts, k, t);
    }
  }

  /** Every message below fatal, with any number of goroutines: it passes and is counted at its
      own level, or it is dropped, and then its level's counter or the global one has a limit and
      stood at it. */
  lemma EveryMessageGetsItsVerdict(c: Config, tr: seq<State>, acts: seq<Action>, b: nat, e: nat, t: nat)
    requires IsRun(c, tr, acts) && InSample(tr, acts, b, e, t)
    requires e < |acts| && t < |tr[e + 1].stages| && tr[e + 1].stages[t].Outside?
    ensures var lvl := acts[b].lvl;
            || Passes(tr[e], tr[e + 1], lvl)
            || DroppedAt(c, tr[e], tr[e + 1], lvl as nat)
            || DroppedAt(c, tr[e], tr[e + 1], GLOBAL)
  {
    KeepsItsLevel(c, tr, acts, b, e, t);
    MovesOrWaits(c, tr, acts, e, t);
  }

  /** Without limits every message passes. */
  lemma NoLimitNoDrop(c: Config, tr: seq<State>, acts: seq<Action>, b: nat, e: nat, t: nat)
    requires IsRun(c, tr, acts) && InSample(tr, acts, b, e, t)
    requires e < |acts| && t < |tr[e + 1].stages| && tr[e + 1].stages[t].Outside?
    requires c.Valid() && c.limits[GLOBAL] == 0 && c.limits[acts[b].lvl as nat] == 0
    ensures Passes(tr[e], tr[e + 1], acts[b].lvl)
  {
    EveryMessageGetsItsVerdict(c, tr, acts, b, e, t);
  }

  // ----- how long a call takes -----

  /** The steps goroutine `t` still takes in counter `q`. */
  function Left(s: State, q: nat, t: nat): nat {
    if q < |s.counters| && t < |s.counters[q].threads| then RateReturns.Rank(s.counters[q].threads[t]) else 0
  }

  /** The steps it still takes in Sample: four in a counter, and one between the two. */
  function Rank(s: State, t: nat): nat {
    if t < |s.stages| then
      match s.stages[t]
      case Outside => 0
      case InGlobal(_) => Left(s, GLOBAL, t)
      case PastLevel(_) => 5
      case InLevel(lvl) => 5 + if RateSamplers.Droppable(lvl) then Left(s, lvl as nat, t) else 0
    else 0
  }

  lemma LeftFalls(c: Config, s: State, t: nat, q: nat)
    requires InStep(c, s) && t < |s.stages| && Can(c, s, Go(t)) && q == Inside(s.stages[t])
    ensures Left(Apply(c, s, Go(t)), q, t) < Left(s, q, t)
  {
    assert Agrees(s, q, t) && Touch(c, s, Go(t), q).Some?;
    assert Apply(c, s, Go(t)).counters[q] == Moved(c, s, Go(t), q);
    RateReturns.RankFalls(CounterConfig(c, q), s.counters[q], Rate.Go(t), t);
  }

  lemma OwnStepRanks(c: Config, s: State, a: Action)
    requires InStep(c, s) && Can(c, s, a)
    ensures if a.Sample? then Rank(Apply(c, s, a), a.t) <= 9 else Rank(Apply(c, s, a), a.t) < Rank(s, a.t)
  {
    if a.Go? {
      LeftFalls(c, s, a.t, Inside(s.stages[a.t]));
    }
  }

  lemma OthersKeepRank(c: Config, s: State, a: Action, t: nat)
    requires InStep(c, s) && Can(c, s, a) && Limited(c, s.stages[a.t]) && t < |s.stages| && t != a.t
    ensures Rank(Apply(c, s, a), t) == Rank(s, t)
  {
    StageStep(c, s, a);
    forall q: nat | q < COUNTERS ensures Left(Apply(c, s, a), q, t) == Left(s, q, t) {
      assert Apply(c, s, a).counters[q] == Moved(c, s, a, q) && Agrees(s, q, t);
      if Touch(c, s, a, q).Some? {
        OneThreadMoves(CounterConfig(c, q), s.counters[q], Touch(c, s, a, q).value);
      }
    }
  }

  function OwnSteps(acts: seq<Action>, b: nat, e: nat, t: nat): nat
    requires b <= e <= |acts|
    decreases e
  {
    if e == b then 0 else OwnSteps(acts, b, e - 1, t) + if acts[e - 1].t == t then 1 else 0
  }

  lemma RankMoves(c: Config, tr: seq<State>, acts: seq<Action>, k: nat, t: nat)
    requires IsRun(c, tr, acts) && k < |acts| && t < |tr[k].stages|
    ensures if acts[k].t != t then Rank(tr[k + 1], t) == Rank(tr[k], t)
            else if acts[k].Sample? then tr[k].stages[t].Outside? && Rank(tr[k + 1], t) <= 9
            else Rank(tr[k + 1], t) < Rank(tr[k], t)
  {
    AlwaysInStep(c, tr, acts, k);
    SameStages(c, tr, acts, k);
    LimitedRun(c, tr, acts, k, acts[k].t);
    if acts[k].t == t {
      OwnStepRanks(c, tr[k], acts[k]);
    } else {
      OthersKeepRank(c, tr[k], acts[k], t);
    }
  }

  lemma RankAtCall(c: Config, tr: seq<State>, acts: seq<Action>, b: nat, t: nat)
    requires IsRun(c, tr, acts) && b < |acts| && acts[b].Sample? && acts[b].t == t
    ensures Rank(tr[b + 1], t) <= 9
  {
    SameStages(c, tr, acts, b);
    RankMoves(c, tr, acts, b, t);
  }

  /** Action `k` brings the call of goroutine `t` nearer to its return, if it is a step of its own. */
  predicate RankAt(tr: seq<State>, acts: seq<Action>, k: nat, t: nat) {
    k < |acts| && k + 1 < |tr| && Rank(tr[k + 1], t) + (if acts[k].t == t then 1 else 0) <= Rank(tr[k], t)
  }

  lemma RankInside(c: Config, tr: seq<State>, acts: seq<Action>, k: nat, t: nat)
    requires IsRun(c, tr, acts) && k < |acts| && t < |tr[k].stages| && !tr[k].stages[t].Outside?
    ensures RankAt(tr, acts, k, t)
  {
    RankMoves(c, tr, acts, k, t);
  }

  lemma {:induction false} RankChain(tr: seq<State>, acts: seq<Action>, b: nat, e: nat, t: nat)
    requires b < e < |tr| == |acts| + 1 && forall k: nat | b < k < e :: RankAt(tr, acts, k, t)
    ensures OwnSteps(acts, b + 1, e, t) + Rank(tr[e], t) <= Rank(tr[b + 1], t)
    decreases e
  {
    if b + 1 < e {
      RankChain(tr, acts, b, e - 1, t);
      assert RankAt(tr, acts, e - 1, t);
    }
  }

  lemma RankUsed(c: Config, tr: seq<State>, acts: seq<Action>, b: nat, e: nat, t: nat)
    requires IsRun(c, tr, acts) && InSample(tr, acts, b, e, t)
    ensures OwnSteps(acts, b + 1, e, t) + Rank(tr[e], t) <= 9
  {
    forall k: nat | b < k < e ensures RankAt(tr, acts, k, t) {
      RankInside(c, tr, acts, k, t);
    }
    RankAtCall(c, tr, acts, b, t);
    RankChain(tr, acts, b, e, t);
  }

  /** Wait-freedom: whatever the others do, a call still in Sample has taken at most eight steps
      since it was made, and its ninth is its return. */
  lemma NineStepsAtMost(c: Config, tr: seq<State>, acts: seq<Action>, b: nat, e: nat, t: nat)
    requires IsRun(c, tr, acts) && InSample(tr, acts, b, e, t)
    ensures OwnSteps(acts, b + 1, e, t) <= 8
  {
    RankUsed(c, tr, acts, b, e, t);
    AlwaysInStep(c, tr, acts, e);
    StillRanked(c, tr[e], t);
  }

  lemma StillRanked(c: Config, s: State, t: nat)
    requires InStep(c, s) && t < |s.stages| && !s.stages[t].Outside?
    ensures Rank(s, t) >= 1
  {
    if s.stages[t].InGlobal? {
      assert Agrees(s, GLOBAL, t);
    }
  }
}
