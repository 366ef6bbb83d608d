/** When the limit holds window by window although goroutines race. */
module RateWindow {
  import opened RateMachine

  /** Some run of `n` goroutines ends in `s`. */
  ghost predicate Reaches(c: Config, n: nat, s: State) {
    exists tr, acts :: EndsIn(c, n, tr, acts, s)
  }

  ghost predicate EndsIn(c: Config, n: nat, tr: seq<State>, acts: seq<Action>, s: State) {
    IsRun(c, tr, acts) && |tr[0].threads| == n && tr[|acts|] == s
  }

  lemma ReachStep(c: Config, n: nat, s: State, a: Action)
    requires Reaches(c, n, s) && Can(s, a)
    ensures Reaches(c, n, Apply(c, s, a))
  {
    var tr, acts :| EndsIn(c, n, tr, acts, s);
    assert EndsIn(c, n, tr + [Apply(c, s, a)], acts + [a], Apply(c, s, a));
  }

  lemma ReachInit(c: Config, n: nat, s: State)
    requires Init(c, s) && |s.threads| == n
    ensures Reaches(c, n, s)
  {
    assert EndsIn(c, n, [s], [], s);
  }

  // ----- one goroutine, or a limit of at most one -----

  ghost predicate SoloOk(c: Config, s: State) {
    && |s.threads| == 1
    && (s.threads[0].AtStore? || s.threads[0].AtCas? ==> s.threads[0].resetAfter == s.resetAt)
    && s.admittedNow <= c.limit
    && (!s.threads[0].AtCas? ==> s.admittedNow <= s.count)
    && (s.threads[0].AtCas? ==> s.count == 1)
  }

  lemma SoloStep(c: Config, s: State, a: Action)
    requires SoloOk(c, s) && Can(s, a)
    ensures SoloOk(c, Apply(c, s, a))
  {
  }

  /** With a limit of at most one, only winners are admitted. */
  ghost predicate StrictOk(c: Config, s: State) {
    && c.limit <= 1 && s.admittedNow <= c.limit
    && ((exists t :: 0 <= t < |s.threads| && (s.threads[t].AtAdd? || s.threads[t].AtCas?)) ==> s.count >= 1)
    && (s.wins > 0 ==> s.count >= 1) && (s.wins == 0 ==> s.resetAt == 0)
  }

  lemma StrictStep(c: Config, s: State, a: Action)
    requires StrictOk(c, s) && Can(s, a)
    ensures StrictOk(c, Apply(c, s, a))
  {
    var s' := Apply(c, s, a);
    if t :| 0 <= t < |s'.threads| && (s'.threads[t].AtAdd? || s'.threads[t].AtCas?) {
      if t != a.t {
        assert s.threads[t].AtAdd? || s.threads[t].AtCas?;
      }
    }
  }

  lemma {:induction false} CapRun(c: Config, tr: seq<State>, acts: seq<Action>, i: nat)
    requires IsRun(c, tr, acts) && i < |tr| && (|tr[0].threads| == 1 || c.limit <= 1)
    ensures if |tr[0].threads| == 1 then SoloOk(c, tr[i]) else StrictOk(c, tr[i])
  {
    if i > 0 {
      CapRun(c, tr, acts, i - 1);
      if |tr[0].threads| == 1 {
        SoloStep(c, tr[i - 1], acts[i - 1]);
      } else {
        StrictStep(c, tr[i - 1], acts[i - 1]);
      }
    }
  }

  // ----- two goroutines and a limit of at least two -----

  /** One goroutine, in a window that is open at time `now`, makes `k` admitted calls. */
  lemma {:induction false} Fill(c: Config, n: nat, s: State, k: nat, now: nat) returns (s': State)
    requires Reaches(c, n, s) && n >= 2 && |s.threads| == n && s.threads[0] == Idle
    requires s.resetAt > now && s.count + k <= c.limit
    ensures Reaches(c, n, s') && s'.threads == s.threads && s'.resetAt == s.resetAt
    ensures s'.count == s.count + k && s'.admittedNow == s.admittedNow + k && s'.wins == s.wins
  {
    if k == 0 {
      s' := s;
    } else {
      var r := Fill(c, n, s, k - 1, now);
      ReachStep(c, n, r, Call(0, now));
      var r1 := Apply(c, r, Call(0, now));
      ReachStep(c, n, r1, Go(0));
      var r2 := Apply(c, r1, Go(0));
      ReachStep(c, n, r2, Go(0));
      s' := Apply(c, r2, Go(0));
      assert s'.threads == s.threads;
    }
  }

  /** Goroutine 0 wins the window while goroutine 1 is about to store. */
  lemma FirstWin(c: Config, n: nat, now: nat) returns (s: State)
    requires c.tick > 0 && n >= 2 && c.limit >= 2
    ensures Reaches(c, n, s) && |s.threads| == n && s.threads[0] == Idle && s.threads[1] == AtStore(now, 0)
    ensures s.resetAt == now + c.tick && s.count == 1 && s.admittedNow == 1 && s.wins == 1
  {
    var s0 := State(seq(n, _ => Idle), 0, 0, 0, 0, 0, 0, 0, [], 0);
    ReachInit(c, n, s0);
    ReachStep(c, n, s0, Call(0, now));
    var s1 := Apply(c, s0, Call(0, now));
    ReachStep(c, n, s1, Call(1, now));
    var s2 := Apply(c, s1, Call(1, now));
    ReachStep(c, n, s2, Go(0));
    var s3 := Apply(c, s2, Go(0));
    ReachStep(c, n, s3, Go(1));
    var s4 := Apply(c, s3, Go(1));
    ReachStep(c, n, s4, Go(0));
    var s5 := Apply(c, s4, Go(0));
    ReachStep(c, n, s5, Go(0));
    s := Apply(c, s5, Go(0));
  }

  /** Whatever the clock reads: the late store of goroutine 1 sets the count back to 1 in a
      window already spent. */
  lemma StaleStoreBreaksTheCap(c: Config, n: nat, now: nat)
    requires c.tick > 0 && n >= 2 && c.limit >= 2
    ensures exists s :: Reaches(c, n, s) && s.wins == 1 && s.resetAt == now + c.tick && s.admittedNow == c.limit + 1
  {
    var s1 := FirstWin(c, n, now);
    var s2 := Fill(c, n, s1, c.limit - 1, now);
    ReachStep(c, n, s2, Go(1));
    var s3 := Apply(c, s2, Go(1));
    ReachStep(c, n, s3, Go(1));
    var s4 := Apply(c, s3, Go(1));
    ReachStep(c, n, s4, Go(1));
    assert Apply(c, s4, Go(1)).admittedNow == c.limit + 1;
  }

  /** "At most `limit` a window" holds of all runs of `n` goroutines exactly when there is only
      one of them or the limit is at most one. */
  lemma WindowCapIff(c: Config, n: nat)
    requires c.tick > 0 && n > 0
    ensures (forall s :: Reaches(c, n, s) ==> s.admittedNow <= c.limit) <==> n == 1 || c.limit <= 1
  {
    if n == 1 || c.limit <= 1 {
      forall s | Reaches(c, n, s) ensures s.admittedNow <= c.limit {
        var tr, acts :| EndsIn(c, n, tr, acts, s);
        CapRun(c, tr, acts, |acts|);
      }
    } else {
      StaleStoreBreaksTheCap(c, n, c.tick);
    }
  }
}
