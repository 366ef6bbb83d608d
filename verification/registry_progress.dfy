/** Every request for an instrument returns, under any schedule; one for an instrument that exists
    never takes the write lock. */
module RegistryProgress {
  import opened Threads
  import opened Instruments
  import opened RegistryMachine
  import opened RegistryAnswers

  /** How many steps a request still takes at most. */
  function Rank(p: Pc): (r: int)
    ensures 0 <= r <= 10
  {
    match p
    case AtRLock(_) => 10
    case AtProbe(_) => 9
    case AtRUnlockMiss(_) => 8
    case AtLock(_) => 7
    case AtDrain(_) => 6
    case AtRecheck(_) => 5
    case AtLimit(_) => 4
    case AtCreate(_) => 3
    case AtStore(_, _) => 2
    case AtUnlock(_, _) => 1
    case AtRUnlockHit(_, _) => 1
    case Idle => 0
  }

  function Measure(s: State): int {
    Total(s.threads, Rank)
  }

  lemma StepFalls(c: Config, s: State, a: Action)
    requires Can(s, a) && a.Go?
    ensures Measure(Apply(c, s, a)) < Measure(s)
  {
    LocksShiftThreads(c, s, a);
    TotalUpdate(s.threads, a.t, Apply(c, s, a).threads[a.t], Rank);
  }

  lemma LocksShiftThreads(c: Config, s: State, a: Action)
    requires Can(s, a) && a.Go?
    ensures var s' := Apply(c, s, a);
            && |s'.threads| == |s.threads| && s'.threads == s.threads[a.t := s'.threads[a.t]]
            && Rank(s'.threads[a.t]) < Rank(s.threads[a.t])
  {
  }

  predicate Paid(tr: seq<State>, k: nat) {
    k + 1 < |tr| && Measure(tr[k + 1]) < Measure(tr[k])
  }

  lemma {:induction false} PaidChain(tr: seq<State>, i: nat, j: nat)
    requires i <= j < |tr| && forall k: nat | i <= k < j :: Paid(tr, k)
    ensures j - i + Measure(tr[j]) <= Measure(tr[i])
    decreases j
  {
    if i < j {
      PaidChain(tr, i, j - 1);
      assert Paid(tr, j - 1);
    }
  }

  /** From any reachable state, as long as nobody makes a new request, N goroutines take at most ten
      steps each, whatever the schedule and the SDK's answers; and when none of them can take
      another step every request has returned. */
  lemma EveryRequestReturns(c: Config, tr: seq<State>, acts: seq<Action>, i: nat, j: nat)
    requires IsRun(c, tr, acts) && i <= j < |tr| && forall k :: i <= k < j ==> acts[k].Go?
    ensures j - i <= 10 * |tr[i].threads|
    ensures (forall u: nat :: !Can(tr[j], Go(u, true))) ==> forall t :: 0 <= t < |tr[j].threads| ==> tr[j].threads[t].Idle?
  {
    forall k: nat | i <= k < j ensures Paid(tr, k) {
      StepFalls(c, tr[k], acts[k]);
    }
    PaidChain(tr, i, j);
    TotalAtMost(tr[i].threads, Rank, 10);
    TotalAtLeast(tr[j].threads, Rank, 0);
    if t: nat :| t < |tr[j].threads| && !tr[j].threads[t].Idle? {
      var u := SomebodyCanMove(c, tr, acts, j, t);
      assert Can(tr[j], Go(u, true));
    }
  }

  // ----- the fast path -----

  /** On the path of a request that finds its instrument under the read lock. */
  predicate Reading(p: Pc) {
    p.AtRLock? || p.AtProbe? || p.AtRUnlockHit? || p.Idle?
  }

  /** The instrument exists, and the request for it is on that path. */
  predicate Known(s: State, t: nat, n: Name) {
    t < |s.threads| && Find(s.tables, n).Some? && Reading(s.threads[t]) && (!s.threads[t].Idle? ==> s.threads[t].n == n)
  }

  lemma StaysKnown(c: Config, s: State, a: Action, t: nat, n: Name)
    requires Can(s, a) && Known(s, t, n) && !s.threads[t].Idle?
    ensures Known(Apply(c, s, a), t, n)
  {
  }

  predicate KnownKept(tr: seq<State>, k: nat, t: nat, n: Name) {
    k + 1 < |tr| && (Known(tr[k], t, n) ==> Known(tr[k + 1], t, n))
  }

  lemma {:induction false} KnownChain(tr: seq<State>, i: nat, j: nat, t: nat, n: Name)
    requires i <= j < |tr| && Known(tr[i], t, n) && forall k: nat | i <= k < j :: KnownKept(tr, k, t, n)
    ensures Known(tr[j], t, n)
    decreases j
  {
    if i < j {
      KnownChain(tr, i, j - 1, t, n);
      assert KnownKept(tr, j - 1, t, n);
    }
  }

  /** A request for an instrument that exists is answered under the read lock alone. */
  lemma KnownNamesOnlyRead(c: Config, tr: seq<State>, acts: seq<Action>, b: nat, e: nat, t: nat)
    requires IsRun(c, tr, acts) && InAsk(tr, acts, b, e, t) && Find(tr[b].tables, acts[b].n).Some?
    ensures Reading(tr[e].threads[t])
  {
    assert tr[b + 1] == Apply(c, tr[b], acts[b]);
    forall k: nat | b + 1 <= k < e ensures KnownKept(tr, k, t, acts[b].n) {
      if Known(tr[k], t, acts[b].n) {
        StaysKnown(c, tr[k], acts[k], t, acts[b].n);
      }
    }
    KnownChain(tr, b + 1, e, t, acts[b].n);
  }
}
