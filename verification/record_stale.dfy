/** Handles of a superseded registry. */
module RecordStale {
  import opened Shards
  import opened Threads
  import opened RecordMachine
  import opened RecordInvariants

  /** The call got past every check of the epoch. */
  function PastLive(p: Pc): int {
    if p.AtPlain? || p.AtGate? || p.AtEmit? || Probing(p) || Reserving(p) then 1 else 0
  }

  function Potential(s: State): int {
    |s.meter| + Total(s.threads, PastLive)
  }

  lemma CallStale(c: Config, s: State, t: nat)
    requires t < |s.threads| && Calling(s.threads[t]) && s.epoch > c.epoch
    ensures Potential(ExecCall(c, s, t)) <= Potential(s)
  {
    TotalUpdate(s.threads, t, ExecCall(c, s, t).threads[t], PastLive);
  }

  lemma ProbeStale(c: Config, s: State, t: nat)
    requires Shape(c, s) && t < |s.threads| && Probing(s.threads[t])
    ensures Potential(ExecProbe(c, s, t)) <= Potential(s)
  {
    TotalUpdate(s.threads, t, ExecProbe(c, s, t).threads[t], PastLive);
  }

  lemma ReserveStale(c: Config, s: State, t: nat)
    requires Shape(c, s) && t < |s.threads| && Reserving(s.threads[t])
    ensures Potential(ExecReserve(c, s, t)) <= Potential(s)
  {
    TotalUpdate(s.threads, t, ExecReserve(c, s, t).threads[t], PastLive);
  }

  lemma ScanStale(c: Config, s: State, t: nat)
    requires Shape(c, s) && t < |s.threads| && Scanning(s.threads[t])
    ensures Potential(ExecScan(c, s, t)) <= Potential(s)
  {
    TotalUpdate(s.threads, t, ExecScan(c, s, t).threads[t], PastLive);
  }

  lemma GoStale(c: Config, s: State, t: nat)
    requires Shape(c, s) && Enabled(c, s, t) && s.epoch > c.epoch
    ensures Potential(Exec(c, s, t)) <= Potential(s)
  {
    if Calling(s.threads[t]) {
      CallStale(c, s, t);
    } else if Probing(s.threads[t]) {
      ProbeStale(c, s, t);
    } else if Reserving(s.threads[t]) {
      ReserveStale(c, s, t);
    } else {
      ScanStale(c, s, t);
    }
  }

  lemma BeginStale(s: State, t: nat, p: Pc)
    requires t < |s.threads| && s.threads[t].Idle? && PastLive(p) == 0
    ensures Potential(Goto(s, t, p)) == Potential(s)
  {
    TotalUpdate(s.threads, t, p, PastLive);
  }

  lemma StaleStep(c: Config, s: State, a: Action)
    requires Shape(c, s) && Can(c, s, a) && s.epoch > c.epoch
    ensures Potential(Apply(c, s, a)) <= Potential(s)
  {
    match a
    case Go(t) => GoStale(c, s, t);
    case AddWith(t, call) => BeginStale(s, t, AtLive(Op(call, |s.lin|, 0)));
    case Add(t, call) => BeginStale(s, t, AtAddLive(Op(call, |s.lin|, 0)));
    case Subjects(t) => BeginStale(s, t, ScanLock(0, multiset{}, AllKeys(s.shards)));
    case Bump =>
    case Allow(_) =>
  }

  /** The epoch never goes back and no thread appears. */
  lemma EpochStep(c: Config, s: State, a: Action)
    requires Shape(c, s) && Can(c, s, a)
    ensures Apply(c, s, a).epoch >= s.epoch && |Apply(c, s, a).threads| == |s.threads|
  {
    if a.Go? {
      GoEffect(c, s, a.t);
    }
  }

  lemma {:induction false} StaleRun(c: Config, tr: seq<State>, acts: seq<Action>, i: nat, j: nat)
    requires IsRun(c, tr, acts) && i <= j < |tr| && tr[i].epoch > c.epoch
    ensures Potential(tr[j]) <= Potential(tr[i]) && tr[j].epoch > c.epoch && |tr[j].threads| == |tr[i].threads|
    decreases j - i
  {
    if i < j {
      StaleStep(c, tr[i], acts[i]);
      EpochStep(c, tr[i], acts[i]);
      StaleRun(c, tr, acts, i + 1, j);
    }
  }

  /** Once the epoch has moved past a registry's, its handles add nothing to the meter but the
      calls already past their last check: at most one a goroutine, over any continuation. */
  lemma StaleHandlesFallSilent(c: Config, tr: seq<State>, acts: seq<Action>, i: nat, j: nat)
    requires IsRun(c, tr, acts) && i <= j < |tr| && tr[i].epoch > c.epoch
    ensures |tr[j].meter| <= |tr[i].meter| + Total(tr[i].threads, PastLive) <= |tr[i].meter| + |tr[i].threads|
  {
    StaleRun(c, tr, acts, i, j);
    TotalAtLeast(tr[j].threads, PastLive, 0);
    TotalAtMost(tr[i].threads, PastLive, 1);
  }
}
