/** A Shutdown that waits for its detector gets through under every fair schedule. */
module LifecycleWaiting {
  import opened Labels
  import opened LifecycleMachine
  import opened LifecycleDetectors

  /** The action is the next one the wait for detector `d` needs, whatever its outcome. */
  predicate Helps(s: State, d: nat, a: Action)
    requires d < |s.detectors|
  {
    var rest := Remaining(s, d);
    rest != [] && (a == rest[0] || (a.Go? && rest[0].Go? && a.t == rest[0].t))
  }

  /** Only its loop and its maker's `Start` move a detector from phase to phase. */
  lemma PhaseMoves(c: Config, s: State, a: Action, d: nat)
    requires DetectorsOk(s) && Can(s, a) && d < |s.detectors|
    ensures var s' := Apply(c, s, a);
            && d < |s'.detectors| && s'.detectors[d].maker == s.detectors[d].maker
            && (s'.detectors[d].phase != s.detectors[d].phase ==>
                  || (a == LoopSeesStop(d) && s'.detectors[d].phase == Done)
                  || (a.Go? && a.t == s.detectors[d].maker && s.threads[a.t].SSpawn? && s'.detectors[d].phase == Running))
  {
    if a.Go? {
      assert PcOk(s.detectors, s.caches, a.t, s.threads[a.t]);
      GoMovesPhase(c, s, a.t, a.ok, d);
    }
  }

  lemma GoMovesPhase(c: Config, s: State, t: nat, ok: bool, d: nat)
    requires t < |s.threads| && d < |s.detectors| && PcOk(s.detectors, s.caches, t, s.threads[t])
    ensures var s' := Exec(c, s, t, ok);
            && d < |s'.detectors| && s'.detectors[d].maker == s.detectors[d].maker
            && (s'.detectors[d].phase != s.detectors[d].phase ==>
                  t == s.detectors[d].maker && s.threads[t].SSpawn? && s'.detectors[d].phase == Running)
  {
    if Building(s.threads[t]) {
      BuildKeeps(c, s, t, ok, d);
    } else if Starting(s.threads[t]) {
      StartMoves(c, s, t, d);
    } else if Stopping(s.threads[t]) {
      StopKeeps(c, s, t, d);
    }
  }

  lemma BuildKeeps(c: Config, s: State, t: nat, ok: bool, d: nat)
    requires t < |s.threads| && Building(s.threads[t]) && d < |s.detectors|
    ensures d < |ExecBuild(c, s, t, ok).detectors| && ExecBuild(c, s, t, ok).detectors[d] == s.detectors[d]
  {
  }

  lemma StopKeeps(c: Config, s: State, t: nat, d: nat)
    requires t < |s.threads| && Stopping(s.threads[t]) && d < |s.detectors|
    ensures var s' := ExecStop(c, s, t);
            d < |s'.detectors| && s'.detectors[d].maker == s.detectors[d].maker && s'.detectors[d].phase == s.detectors[d].phase
  {
  }

  lemma StartMoves(c: Config, s: State, t: nat, d: nat)
    requires t < |s.threads| && Starting(s.threads[t]) && d < |s.detectors|
    requires PcOk(s.detectors, s.caches, t, s.threads[t])
    ensures var s' := ExecStart(c, s, t);
            && d < |s'.detectors| && s'.detectors[d].maker == s.detectors[d].maker
            && (s'.detectors[d].phase != s.detectors[d].phase ==>
                  t == s.detectors[d].maker && s.threads[t].SSpawn? && s'.detectors[d].phase == Running)
  {
    if s.threads[t].SSpawn? && s.threads[t].b.detector == Some(d) {
      assert Spawning(s.threads[t], d);
    }
  }

  /** While thread `t` waits, every step either is the next one it needs and brings it one step
      nearer, or leaves what it needs as it was. */
  lemma WaitStep(c: Config, s: State, a: Action, t: nat)
    requires AllOk(s) && Can(s, a) && t < |s.threads| && s.threads[t].DWait? && !(a.Go? && a.t == t)
    ensures Nearer(s, a, Apply(c, s, a), s.threads[t].d)
  {
    var d := s.threads[t].d;
    assert PcOk(s.detectors, s.caches, t, s.threads[t]) && Waiting(s.threads[t], d);
    assert DetectorOk(s.detectors[d], d, s.threads, s.caches);
    PhaseMoves(c, s, a, d);
    if s.detectors[d].phase == NotStarted {
      MakerMoves(c, s, a, s.detectors[d].maker, d);
      UnstartedStep(s, a, Apply(c, s, a), d);
    }
  }

  /** The wait for a loop not spawned yet: only its maker's steps matter. */
  lemma UnstartedStep(s: State, a: Action, s': State, d: nat)
    requires d < |s.detectors| && d < |s'.detectors| && s.detectors[d].phase == NotStarted
    requires s'.detectors[d].maker == s.detectors[d].maker < |s.threads| == |s'.threads| && a != LoopSeesStop(d)
    requires var m := s.detectors[d].maker;
             && Spawning(s.threads[m], d)
             && (!(a.Go? && a.t == m) ==> s'.threads[m] == s.threads[m] && s'.detectors[d].phase == NotStarted)
             && (a.Go? && a.t == m && s.threads[m].SBind? ==> s'.threads[m].SSpawn? && s'.detectors == s.detectors)
             && (a.Go? && a.t == m && s.threads[m].SSpawn? ==> s'.detectors[d].phase == Running)
    ensures Nearer(s, a, s', d)
  {
  }

  /** Nobody but the maker moves the maker on, from binding the monitor to spawning the loop. */
  lemma MakerMoves(c: Config, s: State, a: Action, m: nat, d: nat)
    requires Can(s, a) && m < |s.threads| && Spawning(s.threads[m], d) && d < |s.detectors|
    ensures var s' := Apply(c, s, a);
            && |s'.threads| == |s.threads|
            && (!(a.Go? && a.t == m) ==> s'.threads[m] == s.threads[m])
            && (a.Go? && a.t == m && s.threads[m].SBind? ==> s'.threads[m].SSpawn? && s'.detectors == s.detectors)
            && (a.Go? && a.t == m && s.threads[m].SSpawn? ==> s'.detectors[d].phase == Running)
  {
    if a.Go? {
      OneMoves(c, s, a.t, a.ok);
    }
  }

  lemma OneMoves(c: Config, s: State, t: nat, ok: bool)
    requires t < |s.threads|
    ensures |Exec(c, s, t, ok).threads| == |s.threads|
    ensures forall u :: 0 <= u < |s.threads| && u != t ==> Exec(c, s, t, ok).threads[u] == s.threads[u]
  {
    var p := s.threads[t];
    if Building(p) {
      assert ExecBuild(c, s, t, ok).threads == s.threads[t := ExecBuild(c, s, t, ok).threads[t]];
    } else if Starting(p) {
      assert ExecStart(c, s, t).threads == s.threads[t := ExecStart(c, s, t).threads[t]];
    } else if Stopping(p) {
      assert ExecStop(c, s, t).threads == s.threads[t := ExecStop(c, s, t).threads[t]];
    }
  }

  /** Thread `t` waits from state `i` to state `j`. */
  ghost predicate Waits(tr: seq<State>, i: nat, j: nat, t: nat) {
    && i <= j < |tr| && t < |tr[i].threads| && tr[i].threads[t].DWait?
    && forall k :: i <= k <= j ==> t < |tr[k].threads| && tr[k].threads[t] == tr[i].threads[t]
  }

  /** How many of actions `i` to `j` were the next one the wait for `d` needed. */
  ghost function Helped(tr: seq<State>, acts: seq<Action>, i: nat, j: nat, d: nat): nat
    requires i <= j <= |acts| && j < |tr|
    decreases j
  {
    if i == j then 0
    else Helped(tr, acts, i, j - 1, d) + if d < |tr[j - 1].detectors| && Helps(tr[j - 1], d, acts[j - 1]) then 1 else 0
  }

  /** The step either helps the wait for `d`, and brings its end one step nearer, or leaves what
      it needs as it was. */
  predicate Nearer(s: State, a: Action, s': State, d: nat) {
    && d < |s.detectors| && d < |s'.detectors|
    && (if Helps(s, d, a) then |Remaining(s', d)| == |Remaining(s, d)| - 1 else Remaining(s', d) == Remaining(s, d))
  }

  predicate NearerAt(tr: seq<State>, acts: seq<Action>, k: nat, d: nat) {
    k < |acts| && k + 1 < |tr| && Nearer(tr[k], acts[k], tr[k + 1], d)
  }

  lemma {:induction false} HelpCounts(tr: seq<State>, acts: seq<Action>, i: nat, j: nat, d: nat)
    requires i <= j < |tr| && j <= |acts| && d < |tr[i].detectors|
    requires forall k: nat :: i <= k < j ==> NearerAt(tr, acts, k, d)
    ensures d < |tr[j].detectors| && Helped(tr, acts, i, j, d) + |Remaining(tr[j], d)| == |Remaining(tr[i], d)|
    ensures Helped(tr, acts, i, j, d) == 0 ==> Remaining(tr[j], d) == Remaining(tr[i], d)
    decreases j
  {
    if i < j {
      HelpCounts(tr, acts, i, j - 1, d);
      assert NearerAt(tr, acts, j - 1, d);
    }
  }

  lemma WaitAction(c: Config, tr: seq<State>, acts: seq<Action>, k: nat, t: nat)
    requires IsRun(c, tr, acts) && k < |acts| && t < |tr[k].threads| && tr[k].threads[t].DWait?
    requires t < |tr[k + 1].threads| && tr[k + 1].threads[t] == tr[k].threads[t]
    ensures NearerAt(tr, acts, k, tr[k].threads[t].d)
  {
    AllRun(c, tr, acts, k);
    StillWaiting(c, tr[k], acts[k], t);
    WaitStep(c, tr[k], acts[k], t);
  }

  /** A waiting thread's own step would end the wait. */
  lemma StillWaiting(c: Config, s: State, a: Action, t: nat)
    requires Can(s, a) && t < |s.threads| && s.threads[t].DWait?
    requires t < |Apply(c, s, a).threads| && Apply(c, s, a).threads[t] == s.threads[t]
    ensures !(a.Go? && a.t == t)
  {
  }

  /** The wait ends after at most three helping steps and, until they have happened, the next of
      them stays possible whatever else goes on: so it ends under every fair schedule. */
  lemma ShutdownGetsThrough(c: Config, tr: seq<State>, acts: seq<Action>, i: nat, j: nat, t: nat)
    requires IsRun(c, tr, acts) && Waits(tr, i, j, t)
    ensures var d := tr[i].threads[t].d;
            && d < |tr[i].detectors| && d < |tr[j].detectors|
            && Helped(tr, acts, i, j, d) + |Remaining(tr[j], d)| == |Remaining(tr[i], d)| <= 3
            && (Helped(tr, acts, i, j, d) == 0 ==> Remaining(tr[j], d) == Remaining(tr[i], d))
            && (if Remaining(tr[j], d) == [] then Enabled(tr[j], t) else Can(tr[j], Remaining(tr[j], d)[0]))
  {
    NextOf(c, tr, acts, i, t);
    NextOf(c, tr, acts, j, t);
    HelpBetween(c, tr, acts, i, j, t);
  }

  lemma HelpBetween(c: Config, tr: seq<State>, acts: seq<Action>, i: nat, j: nat, t: nat)
    requires IsRun(c, tr, acts) && Waits(tr, i, j, t) && tr[i].threads[t].d < |tr[i].detectors|
    ensures var d := tr[i].threads[t].d;
            && d < |tr[j].detectors| && Helped(tr, acts, i, j, d) + |Remaining(tr[j], d)| == |Remaining(tr[i], d)|
            && (Helped(tr, acts, i, j, d) == 0 ==> Remaining(tr[j], d) == Remaining(tr[i], d))
  {
    forall k: nat | i <= k < j ensures NearerAt(tr, acts, k, tr[i].threads[t].d) {
      assert tr[k].threads[t] == tr[i].threads[t] && tr[k + 1].threads[t] == tr[i].threads[t];
      WaitAction(c, tr, acts, k, t);
    }
    HelpCounts(tr, acts, i, j, tr[i].threads[t].d);
  }

  lemma NextOf(c: Config, tr: seq<State>, acts: seq<Action>, i: nat, t: nat)
    requires IsRun(c, tr, acts) && i < |tr| && t < |tr[i].threads| && tr[i].threads[t].DWait?
    ensures var d := tr[i].threads[t].d;
            && d < |tr[i].detectors| && |Remaining(tr[i], d)| <= 3
            && (if Remaining(tr[i], d) == [] then Enabled(tr[i], t) else Can(tr[i], Remaining(tr[i], d)[0]))
  {
    ShutdownIsNeverStuck(c, tr, acts, i, t);
    NextIsPossible(c, tr[i], tr[i].threads[t].d, t);
  }

  lemma NextIsPossible(c: Config, s: State, d: nat, t: nat)
    requires d < |s.detectors| && After(c, s, Remaining(s, d)).Some? && Enabled(After(c, s, Remaining(s, d)).value, t)
    ensures if Remaining(s, d) == [] then Enabled(s, t) else Can(s, Remaining(s, d)[0])
  {
  }
}
