/** What every call of `rateCounter.inc` returns, however the goroutines interleave: the lower
    half of the rate limit. */
module RateReturns {
  import opened RateMachine

  /** The call of thread `t` returns at action `i`. */
  ghost predicate ReturnsAt(tr: seq<State>, acts: seq<Action>, i: nat, t: nat) {
    && i < |acts| && i + 1 < |tr| && acts[i] == Go(t)
    && t < |tr[i + 1].threads| && tr[i + 1].threads[t] == Idle
  }

  /** A call that returns either opened a window, and its message is the first of it; or it was
      added to the count, the losers of a swap too, and its message passes exactly while the count
      is within the limit. */
  lemma EveryReturnIsCounted(c: Config, tr: seq<State>, acts: seq<Action>, i: nat, t: nat)
    requires IsRun(c, tr, acts) && ReturnsAt(tr, acts, i, t)
    ensures var s, s' := tr[i], tr[i + 1];
            if s'.resetAt != s.resetAt then
              s'.resetAt > s.resetAt && s'.count == s.count && s'.admitted == s.admitted + if c.limit >= 1 then 1 else 0
            else
              s'.count == s.count + 1 && s'.admitted == s.admitted + if s'.count <= c.limit then 1 else 0
  {
    OneWinnerPerWindow(c, tr, acts, i);
    ClockRun(c, tr, acts, i);
    assert tr[i + 1] == Apply(c, tr[i], acts[i]);
    assert PcOk(tr[i], tr[i].threads[t]);
  }

  /** No message is refused before the count has reached the limit. */
  lemma RefusedOnlyAtLimit(c: Config, tr: seq<State>, acts: seq<Action>, i: nat, t: nat)
    requires IsRun(c, tr, acts) && ReturnsAt(tr, acts, i, t) && tr[i + 1].admitted == tr[i].admitted
    ensures tr[i].count >= c.limit
  {
    EveryReturnIsCounted(c, tr, acts, i, t);
  }

  // ----- how often a count was reached -----

  /** The calls added to the count at actions `j` to `i`. */
  function Added(tr: seq<State>, acts: seq<Action>, j: nat, i: nat): nat
    requires j <= i <= |acts| && |tr| == |acts| + 1
    decreases i
  {
    if i == j then 0
    else
      var a := acts[i - 1];
      Added(tr, acts, j, i - 1)
      + if a.Go? && a.t < |tr[i - 1].threads| && tr[i - 1].threads[a.t].AtAdd? then 1 else 0
  }

  /** The count stands for one store of 1, at action `j`, and the calls added since. */
  ghost predicate CountedSince(tr: seq<State>, acts: seq<Action>, j: nat, i: nat)
    requires i < |tr| == |acts| + 1
  {
    && j < i && acts[j].Go? && acts[j].t < |tr[j].threads| && tr[j].threads[acts[j].t].AtStore?
    && tr[i].count == 1 + Added(tr, acts, j + 1, i)
  }

  ghost predicate HasSource(tr: seq<State>, acts: seq<Action>, i: nat)
    requires i < |tr| == |acts| + 1
  {
    exists j: nat :: CountedSince(tr, acts, j, i)
  }

  lemma {:induction false} CountHasASource(c: Config, tr: seq<State>, acts: seq<Action>, i: nat)
    requires IsRun(c, tr, acts) && i < |tr|
    ensures tr[i].stores == 0 || HasSource(tr, acts, i)
  {
    if i > 0 {
      CountHasASource(c, tr, acts, i - 1);
      AdmitRun(c, tr, acts, i - 1);
      SourceStep(c, tr, acts, i - 1);
    }
  }

  lemma SourceStep(c: Config, tr: seq<State>, acts: seq<Action>, k: nat)
    requires IsRun(c, tr, acts) && k < |acts| && AdmitOk(c, tr[k])
    requires tr[k].stores == 0 || HasSource(tr, acts, k)
    ensures tr[k + 1].stores == 0 || HasSource(tr, acts, k + 1)
  {
    var s, a := tr[k], acts[k];
    assert Can(s, a) && tr[k + 1] == Apply(c, s, a);
    if a.Go? && s.threads[a.t].AtStore? {
      assert CountedSince(tr, acts, k, k + 1);
    } else if s.stores > 0 {
      var j: nat :| CountedSince(tr, acts, j, k);
      assert CountedSince(tr, acts, j, k + 1);
    }
  }

  /** A message is refused only when a whole limit's worth of calls came before it: since some
      store of 1, which stands for one call, at least `limit - 1` others were added. */
  lemma RefusedAfterAFullLimit(c: Config, tr: seq<State>, acts: seq<Action>, i: nat, t: nat)
    requires IsRun(c, tr, acts) && ReturnsAt(tr, acts, i, t) && tr[i + 1].admitted == tr[i].admitted && c.limit > 0
    ensures exists j: nat :: CountedSince(tr, acts, j, i) && 1 + Added(tr, acts, j + 1, i) >= c.limit
  {
    RefusedOnlyAtLimit(c, tr, acts, i, t);
    AdmitRun(c, tr, acts, i);
    CountHasASource(c, tr, acts, i);
    var j: nat :| CountedSince(tr, acts, j, i);
  }

  // ----- no call takes more than four steps -----

  function Rank(p: Pc): nat {
    match p
    case AtLoad(_) => 4
    case AtStore(_, _) => 3
    case AtCas(_, _) => 2
    case AtAdd => 1
    case Idle => 0
  }

  /** A step of its own brings a call nearer to its return; the steps of others do not touch it. */
  lemma RankFalls(c: Config, s: State, a: Action, t: nat)
    requires Can(s, a) && t < |s.threads| && s.threads[t] != Idle
    ensures t < |Apply(c, s, a).threads|
    ensures if a == Go(t) then Rank(Apply(c, s, a).threads[t]) < Rank(s.threads[t])
            else Apply(c, s, a).threads[t] == s.threads[t]
  {
  }

  function OwnSteps(acts: seq<Action>, b: nat, e: nat, t: nat): nat
    requires b <= e <= |acts|
    decreases e
  {
    if e == b then 0 else OwnSteps(acts, b, e - 1, t) + if acts[e - 1] == Go(t) then 1 else 0
  }

  /** Thread `t` is still in the call it made at action `b`. */
  ghost predicate InCall(tr: seq<State>, acts: seq<Action>, b: nat, e: nat, t: nat) {
    && b < e < |tr| && b < |acts| && acts[b].Call? && acts[b].t == t
    && forall x :: b < x <= e ==> t < |tr[x].threads| && tr[x].threads[t] != Idle
  }

  /** Action `k` brings the call of thread `t` nearer to its return, if it is a step of its own. */
  predicate RankAt(tr: seq<State>, acts: seq<Action>, k: nat, t: nat) {
    && k < |acts| && k + 1 < |tr| && t < |tr[k].threads| && t < |tr[k + 1].threads|
    && Rank(tr[k + 1].threads[t]) + (if acts[k] == Go(t) then 1 else 0) <= Rank(tr[k].threads[t])
  }

  lemma RankInside(c: Config, tr: seq<State>, acts: seq<Action>, k: nat, t: nat)
    requires IsRun(c, tr, acts) && k < |acts| && t < |tr[k].threads| && tr[k].threads[t] != Idle
    ensures RankAt(tr, acts, k, t)
  {
    RankFalls(c, tr[k], acts[k], t);
  }

  lemma {:induction false} RankChain(tr: seq<State>, acts: seq<Action>, b: nat, e: nat, t: nat)
    requires b < e < |tr| == |acts| + 1 && t < |tr[b + 1].threads|
    requires forall k: nat | b < k < e :: RankAt(tr, acts, k, t)
    ensures t < |tr[e].threads| && OwnSteps(acts, b + 1, e, t) + Rank(tr[e].threads[t]) <= Rank(tr[b + 1].threads[t])
    decreases e
  {
    if b + 1 < e {
      RankChain(tr, acts, b, e - 1, t);
      assert RankAt(tr, acts, e - 1, t);
    }
  }

  lemma RankUsed(c: Config, tr: seq<State>, acts: seq<Action>, b: nat, e: nat, t: nat)
    requires IsRun(c, tr, acts) && InCall(tr, acts, b, e, t)
    ensures OwnSteps(acts, b + 1, e, t) + Rank(tr[e].threads[t]) <= 4
  {
    forall k: nat | b < k < e ensures RankAt(tr, acts, k, t) {
      RankInside(c, tr, acts, k, t);
    }
    RankChain(tr, acts, b, e, t);
  }

  /** Wait-freedom: whatever the others do, a call still under way has taken at most three steps
      since it was made, and its fourth is its return. */
  lemma FourStepsAtMost(c: Config, tr: seq<State>, acts: seq<Action>, b: nat, e: nat, t: nat)
    requires IsRun(c, tr, acts) && InCall(tr, acts, b, e, t)
    ensures OwnSteps(acts, b + 1, e, t) <= 3
  {
    RankUsed(c, tr, acts, b, e, t);
  }
}
