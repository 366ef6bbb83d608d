/** What only ever grows along a run, and which call a thread is in. */
module RecordGrowth {
  import opened RecordMachine
  import opened RecordInvariants
  import opened RecordLinear
  import AttrCaches

  /** Slots, lookups that took effect or finished, emissions, noted strings and registered
      labels are never taken back; the epoch never goes back. */
  predicate Grown(s: State, s': State) {
    && s.order <= s'.order && s.lin <= s'.lin && s.size <= s'.size && s.done.Keys <= s'.done.Keys
    && s.meter <= s'.meter && s.denyOnce <= s'.denyOnce && s.allowed <= s'.allowed && s.epoch <= s'.epoch
  }

  lemma CallGrows(c: Config, s: State, t: nat)
    requires t < |s.threads| && Calling(s.threads[t])
    ensures Grown(s, ExecCall(c, s, t))
  {
  }

  lemma ProbeGrows(c: Config, s: State, t: nat)
    requires Shape(c, s) && t < |s.threads| && Probing(s.threads[t])
    ensures Grown(s, ExecProbe(c, s, t))
  {
  }

  lemma ReserveGrows(c: Config, s: State, t: nat)
    requires Shape(c, s) && t < |s.threads| && Reserving(s.threads[t])
    ensures Grown(s, ExecReserve(c, s, t))
  {
  }

  lemma ScanGrows(c: Config, s: State, t: nat)
    requires Shape(c, s) && t < |s.threads| && Scanning(s.threads[t])
    ensures Grown(s, ExecScan(c, s, t))
  {
  }

  lemma StepGrows(c: Config, s: State, a: Action)
    requires Shape(c, s) && Can(c, s, a)
    ensures Grown(s, Apply(c, s, a))
  {
    if a.Go? {
      if Calling(s.threads[a.t]) {
        CallGrows(c, s, a.t);
      } else if Probing(s.threads[a.t]) {
        ProbeGrows(c, s, a.t);
      } else if Reserving(s.threads[a.t]) {
        ReserveGrows(c, s, a.t);
      } else {
        ScanGrows(c, s, a.t);
      }
    }
  }

  lemma GrownFurther(s: State, s': State, s'': State)
    requires Grown(s, s') && Grown(s', s'')
    ensures Grown(s, s'')
  {
  }

  predicate GrownAt(tr: seq<State>, k: nat) {
    k + 1 < |tr| && Grown(tr[k], tr[k + 1])
  }

  lemma {:induction false} GrownChain(tr: seq<State>, i: nat, j: nat)
    requires i <= j < |tr| && forall k: nat :: i <= k < j ==> GrownAt(tr, k)
    ensures Grown(tr[i], tr[j])
    decreases j
  {
    if i < j {
      GrownChain(tr, i, j - 1);
      assert GrownAt(tr, j - 1);
      GrownFurther(tr[i], tr[j - 1], tr[j]);
    }
  }

  lemma ActionGrows(c: Config, tr: seq<State>, acts: seq<Action>, k: nat)
    requires IsRun(c, tr, acts) && k < |acts|
    ensures GrownAt(tr, k)
  {
    StepGrows(c, tr[k], acts[k]);
  }

  lemma GrowsAlong(c: Config, tr: seq<State>, acts: seq<Action>, i: nat, j: nat)
    requires IsRun(c, tr, acts) && i <= j < |tr|
    ensures Grown(tr[i], tr[j])
  {
    forall k: nat | i <= k < j ensures GrownAt(tr, k) {
      ActionGrows(c, tr, acts, k);
    }
    GrownChain(tr, i, j);
  }

  /** The fill of a cache, in entries and in per cent, never falls. */
  lemma FillNeverFalls(c: Config, tr: seq<State>, acts: seq<Action>, i: nat, j: nat)
    requires IsRun(c, tr, acts) && i <= j < |tr|
    ensures c.max > 0 && tr[i].order <= tr[j].order && tr[i].size <= tr[j].size <= c.max
    ensures 0 <= AttrCaches.Utilization(tr[i].size, c.max) <= AttrCaches.Utilization(tr[j].size, c.max) <= 100
    ensures AttrCaches.Utilization(tr[j].size, c.max) == 100 <==> tr[j].size == c.max
  {
    GrowsAlong(c, tr, acts, i, j);
    LinRun(c, tr, acts, j);
    AttrCaches.UtilizationBounds(tr[i].size, tr[j].size, c.max);
  }

  // ----- calls -----

  /** The action is a recording: `AddWith*` or `Add`. */
  predicate Records(a: Action) {
    a.AddWith? || a.Add?
  }

  /** Thread `t` is still in the recording it called at action `b`. */
  ghost predicate InCall(tr: seq<State>, acts: seq<Action>, b: nat, e: nat, t: nat) {
    && b < e < |tr| && b < |acts| && Records(acts[b]) && acts[b].t == t
    && forall x :: b < x <= e ==> t < |tr[x].threads| && !tr[x].threads[t].Idle?
  }

  /** The program counter is in a recording of `call` begun when `n` lookups had taken effect. */
  predicate Serves(p: Pc, call: Call, n: nat) {
    Busy(p) && p.o.call == call && p.o.invoked == n
  }

  lemma GoServes(c: Config, s: State, t: nat, call: Call, n: nat)
    requires Shape(c, s) && Enabled(c, s, t) && Serves(s.threads[t], call, n)
    ensures Exec(c, s, t).threads[t].Idle? || Serves(Exec(c, s, t).threads[t], call, n)
  {
    if Calling(s.threads[t]) {
      CallingServes(c, s, t, call, n);
    } else if Probing(s.threads[t]) {
      ProbingServes(c, s, t, call, n);
    } else {
      ReservingServes(c, s, t, call, n);
    }
  }

  lemma CallingServes(c: Config, s: State, t: nat, call: Call, n: nat)
    requires t < |s.threads| && Calling(s.threads[t]) && Serves(s.threads[t], call, n)
    ensures ExecCall(c, s, t).threads[t].Idle? || Serves(ExecCall(c, s, t).threads[t], call, n)
  {
  }

  lemma ProbingServes(c: Config, s: State, t: nat, call: Call, n: nat)
    requires Shape(c, s) && t < |s.threads| && Probing(s.threads[t]) && Serves(s.threads[t], call, n)
    ensures Serves(ExecProbe(c, s, t).threads[t], call, n)
  {
  }

  lemma ReservingServes(c: Config, s: State, t: nat, call: Call, n: nat)
    requires Shape(c, s) && t < |s.threads| && Reserving(s.threads[t]) && Serves(s.threads[t], call, n)
    ensures Serves(ExecReserve(c, s, t).threads[t], call, n)
  {
  }

  lemma StepServes(c: Config, s: State, a: Action, t: nat, call: Call, n: nat)
    requires Shape(c, s) && Can(c, s, a) && t < |s.threads| && Serves(s.threads[t], call, n)
    ensures t < |Apply(c, s, a).threads|
    ensures Apply(c, s, a).threads[t].Idle? || Serves(Apply(c, s, a).threads[t], call, n)
  {
    if a.Go? {
      GoEffect(c, s, a.t);
      if a.t == t {
        GoServes(c, s, t, call, n);
      }
    }
  }

  lemma ActionServes(c: Config, tr: seq<State>, acts: seq<Action>, k: nat, t: nat, call: Call, n: nat)
    requires IsRun(c, tr, acts) && k < |acts| && t < |tr[k].threads| && Serves(tr[k].threads[t], call, n)
    ensures t < |tr[k + 1].threads| && (tr[k + 1].threads[t].Idle? || Serves(tr[k + 1].threads[t], call, n))
  {
    StepServes(c, tr[k], acts[k], t, call, n);
  }

  lemma CallEnters(c: Config, tr: seq<State>, acts: seq<Action>, b: nat, t: nat)
    requires IsRun(c, tr, acts) && b < |acts| && Records(acts[b]) && acts[b].t == t
    ensures t < |tr[b + 1].threads| && Serves(tr[b + 1].threads[t], acts[b].call, |tr[b].lin|)
  {
    assert tr[b + 1] == Apply(c, tr[b], acts[b]);
  }

  lemma {:induction false} CallServes(c: Config, tr: seq<State>, acts: seq<Action>, b: nat, e: nat, t: nat)
    requires IsRun(c, tr, acts) && InCall(tr, acts, b, e, t)
    ensures Serves(tr[e].threads[t], acts[b].call, |tr[b].lin|)
    decreases e
  {
    if e > b + 1 {
      CallServes(c, tr, acts, b, e - 1, t);
      ActionServes(c, tr, acts, e - 1, t, acts[b].call, |tr[b].lin|);
    } else {
      CallEnters(c, tr, acts, b, t);
    }
  }
}
