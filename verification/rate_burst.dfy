/** The number of stores between two wins that RateMachine allows is reached. */
module RateBursts {
  import opened RateMachine
  import opened RateWindow

  /** Every goroutine below `k` is at `low`, every other at `high`. */
  predicate Split(s: State, n: nat, k: nat, low: Pc, high: Pc) {
    |s.threads| == n && forall t :: 0 <= t < n ==> s.threads[t] == if t < k then low else high
  }

  /** `k` goroutines have seen the counter expired at `now` and are about to store. */
  lemma {:induction false} Load(c: Config, n: nat, now: nat, k: nat) returns (s: State)
    requires c.tick > 0 && 0 < n && k <= n
    ensures Reaches(c, n, s) && Split(s, n, k, AtStore(now, 0), Idle) && s.resetAt == 0 && s.wins == 0
  {
    if k == 0 {
      s := State(seq(n, _ => Idle), 0, 0, 0, 0, 0, 0, 0, [], 0);
      ReachInit(c, n, s);
    } else {
      var r := Load(c, n, now, k - 1);
      ReachStep(c, n, r, Call(k - 1, now));
      var r1 := Apply(c, r, Call(k - 1, now));
      ReachStep(c, n, r1, Go(k - 1));
      s := Apply(c, r1, Go(k - 1));
    }
  }

  /** Goroutine 0 wins; `k - 1` of the others then store late, lose, and return. */
  lemma {:induction false} StoreLate(c: Config, n: nat, now: nat, k: nat) returns (s: State)
    requires c.tick > 0 && 0 < k <= n
    ensures Reaches(c, n, s) && Split(s, n, k, Idle, AtStore(now, 0))
    ensures s.resetAt == now + c.tick && s.wins == 1 && s.storesNow == k - 1
    decreases k
  {
    if k == 1 {
      var r := Load(c, n, now, n);
      ReachStep(c, n, r, Go(0));
      var r1 := Apply(c, r, Go(0));
      ReachStep(c, n, r1, Go(0));
      s := Apply(c, r1, Go(0));
    } else {
      var r := StoreLate(c, n, now, k - 1);
      ReachStep(c, n, r, Go(k - 1));
      var r1 := Apply(c, r, Go(k - 1));
      ReachStep(c, n, r1, Go(k - 1));
      var r2 := Apply(c, r1, Go(k - 1));
      ReachStep(c, n, r2, Go(k - 1));
      s := Apply(c, r2, Go(k - 1));
    }
  }

  /** When the window has expired, `k` goroutines store once more, before any of them swaps. */
  lemma {:induction false} StoreAgain(c: Config, n: nat, now: nat, k: nat) returns (s: State)
    requires c.tick > 0 && 0 < n && k <= n
    ensures Reaches(c, n, s) && Split(s, n, k, AtCas(now + c.tick, now + c.tick), Idle)
    ensures s.resetAt == now + c.tick && s.wins == 1 && s.storesNow == n - 1 + k
  {
    if k == 0 {
      s := StoreLate(c, n, now, n);
    } else {
      var r := StoreAgain(c, n, now, k - 1);
      ReachStep(c, n, r, Call(k - 1, now + c.tick));
      var r1 := Apply(c, r, Call(k - 1, now + c.tick));
      ReachStep(c, n, r1, Go(k - 1));
      var r2 := Apply(c, r1, Go(k - 1));
      ReachStep(c, n, r2, Go(k - 1));
      s := Apply(c, r2, Go(k - 1));
    }
  }

  /** 2N - 1 is the largest number of stores N goroutines ever make after a win and before the
      next: every reachable state has at most that many, and some has exactly that many. */
  lemma MostStoresAreReached(c: Config, n: nat, now: nat)
    requires c.tick > 0 && n > 0
    ensures forall s :: Reaches(c, n, s) ==> s.storesNow <= 2 * n - 1
    ensures exists s :: Reaches(c, n, s) && s.wins == 1 && s.storesNow == 2 * n - 1
  {
    forall s | Reaches(c, n, s) ensures s.storesNow <= 2 * n - 1 {
      var tr, acts :| EndsIn(c, n, tr, acts, s);
      FewStoresBetweenWins(c, tr, acts, |acts|);
      SameThreads(c, tr, acts, |acts|);
    }
    var s := StoreAgain(c, n, now, n);
  }

  lemma {:induction false} SameThreads(c: Config, tr: seq<State>, acts: seq<Action>, i: nat)
    requires IsRun(c, tr, acts) && i < |tr|
    ensures |tr[i].threads| == |tr[0].threads|
  {
    if i > 0 {
      SameThreads(c, tr, acts, i - 1);
    }
  }
}
