/** What reaches the meter is never split: one option list for the labels of a call. */
module RecordMeter {
  import opened Labels
  import opened Shards
  import opened RecordMachine
  import opened RecordStore
  import opened RecordLinear

  /** Which branch of AddWith a call is on is decided by its labels. */
  ghost predicate Sorted(p: Pc) {
    && (p.AtAddLive? || p.AtPlain? ==> p.o.call.key.AllEmpty())
    && (p.AtGate? || p.AtNote? || p.AtCountDenied? || p.AtEmit? || Probing(p) || Reserving(p) ==> !p.o.call.key.AllEmpty())
  }

  /** The one option list the calls with these labels and this base are sent with. */
  function OptsFor(order: seq<Key>, call: Call): seq<AttrSet> {
    if call.key.AllEmpty() then call.base else call.base + FinalEntry(order, call.key).addOpts
  }

  ghost predicate EmissionOk(c: Config, order: seq<Key>, m: Emission) {
    (m.call.key.AllEmpty() || Settled(c, order, m.call.key)) && m.opts == OptsFor(order, m.call)
  }

  ghost predicate SeriesOk(c: Config, s: State) {
    && (forall t :: 0 <= t < |s.threads| ==> Sorted(s.threads[t]))
    && (forall i :: 0 <= i < |s.meter| ==> EmissionOk(c, s.order, s.meter[i]))
  }

  lemma SeriesMove(c: Config, s: State, t: nat, s': State)
    requires SeriesOk(c, s) && t < |s.threads| && |s'.threads| == |s.threads| && s'.threads == s.threads[t := s'.threads[t]]
    requires s'.meter == s.meter && Sorted(s'.threads[t])
    requires s'.order == s.order || (|s.order| < c.max && exists k :: s'.order == s.order + [k])
    ensures SeriesOk(c, s')
  {
  }

  /** A call reaches the meter. */
  lemma EmitSeries(c: Config, s: State, t: nat, s': State, opts: seq<AttrSet>)
    requires SeriesOk(c, s) && t < |s.threads| && s'.threads == s.threads[t := Idle] && s'.order == s.order
    requires s.threads[t].AtPlain? || s.threads[t].AtEmit?
    requires s'.meter == s.meter + [Emission(s.threads[t].o.call, opts)]
    requires EmissionOk(c, s.order, Emission(s.threads[t].o.call, opts))
    ensures SeriesOk(c, s')
  {
  }

  lemma CallSeries(c: Config, s: State, t: nat)
    requires SeriesOk(c, s) && t < |s.threads| && Calling(s.threads[t])
    requires s.threads[t].AtEmit? ==> Settled(c, s.order, s.threads[t].o.call.key)
    requires s.threads[t].AtEmit? ==> s.threads[t].e == FinalEntry(s.order, s.threads[t].o.call.key)
    ensures SeriesOk(c, ExecCall(c, s, t))
  {
    var p := s.threads[t];
    assert Sorted(p);
    if p.AtPlain? || p.AtEmit? {
      EmitSeries(c, s, t, ExecCall(c, s, t), if p.AtPlain? then p.o.call.base else p.o.call.base + p.e.addOpts);
    } else {
      SeriesMove(c, s, t, ExecCall(c, s, t));
    }
  }

  lemma ProbeSeries(c: Config, s: State, t: nat)
    requires Shape(c, s) && SeriesOk(c, s) && t < |s.threads| && Probing(s.threads[t])
    ensures SeriesOk(c, ExecProbe(c, s, t))
  {
    assert Sorted(s.threads[t]);
    SeriesMove(c, s, t, ExecProbe(c, s, t));
  }

  lemma ReserveSeries(c: Config, s: State, t: nat)
    requires Shape(c, s) && SeriesOk(c, s) && t < |s.threads| && Reserving(s.threads[t])
    requires s.threads[t].AtCas? && s.size == s.threads[t].sz ==> |s.order| < c.max
    ensures SeriesOk(c, ExecReserve(c, s, t))
  {
    assert Sorted(s.threads[t]);
    SeriesMove(c, s, t, ExecReserve(c, s, t));
  }

  lemma ScanSeries(c: Config, s: State, t: nat)
    requires Shape(c, s) && SeriesOk(c, s) && t < |s.threads| && Scanning(s.threads[t])
    ensures SeriesOk(c, ExecScan(c, s, t))
  {
    SeriesMove(c, s, t, ExecScan(c, s, t));
  }

  lemma GoSeries(c: Config, s: State, t: nat)
    requires Shape(c, s) && SeriesOk(c, s) && Enabled(c, s, t)
    requires PcOk(c, s.shards, s.order, s.threads[t]) && s.size == |s.order|
    ensures SeriesOk(c, Exec(c, s, t))
  {
    if Calling(s.threads[t]) {
      CallSeries(c, s, t);
    } else if Probing(s.threads[t]) {
      ProbeSeries(c, s, t);
    } else if Reserving(s.threads[t]) {
      ReserveSeries(c, s, t);
    } else {
      ScanSeries(c, s, t);
    }
  }

  lemma BeginSeries(c: Config, s: State, t: nat, p: Pc)
    requires SeriesOk(c, s) && t < |s.threads| && Sorted(p)
    ensures SeriesOk(c, Goto(s, t, p))
  {
    SeriesMove(c, s, t, Goto(s, t, p));
  }

  lemma CallsSeries(c: Config, s: State, a: Action)
    requires Shape(c, s) && SeriesOk(c, s) && Can(c, s, a) && !a.Go?
    ensures SeriesOk(c, Apply(c, s, a))
  {
    match a
    case AddWith(t, call) => BeginSeries(c, s, t, AtLive(Op(call, |s.lin|, 0)));
    case Add(t, call) => BeginSeries(c, s, t, AtAddLive(Op(call, |s.lin|, 0)));
    case Subjects(t) => BeginSeries(c, s, t, ScanLock(0, multiset{}, AllKeys(s.shards)));
    case Bump =>
    case Allow(_) =>
  }

  lemma SeriesStep(c: Config, s: State, a: Action)
    requires StoreOk(c, s) && SeriesOk(c, s) && Can(c, s, a)
    ensures SeriesOk(c, Apply(c, s, a))
  {
    if a.Go? {
      assert PcOk(c, s.shards, s.order, s.threads[a.t]);
      GoSeries(c, s, a.t);
    } else {
      CallsSeries(c, s, a);
    }
  }

  lemma {:induction false} SeriesRun(c: Config, tr: seq<State>, acts: seq<Action>, i: nat)
    requires IsRun(c, tr, acts) && i < |tr|
    ensures SeriesOk(c, tr[i])
  {
    if i > 0 {
      SeriesRun(c, tr, acts, i - 1);
      LinRun(c, tr, acts, i - 1);
      SeriesStep(c, tr[i - 1], acts[i - 1]);
    }
  }
}
