/** Slots, entries and the detector's counters agree in every reachable state. */
module RecordAccounts {
  import opened Labels
  import opened Shards
  import opened CappedMap
  import opened Threads
  import opened RecordMachine
  import opened RecordStore
  import opened RecordLinear

  /** Won a slot, not inserted yet. */
  function Winner(p: Pc): int { if p.AtObserveWin? || p.AtInsert? then 1 else 0 }

  /** Won a slot, not counted by the detector yet. */
  function OwesWin(p: Pc): int { if p.AtObserveWin? then 1 else 0 }

  /** Counted as a miss, not yet as an overflow. */
  function OwesOverflow(p: Pc): int { if p.AtObserveOverflow? then 1 else 0 }

  /** Refused a slot, overflow not counted yet. */
  function Refused(p: Pc): int { if p.AtObserveMiss? || p.AtObserveOverflow? then 1 else 0 }

  /** Rejected for the first time, not counted yet. */
  function OwesDenied(p: Pc): int { if p.AtCountDenied? then 1 else 0 }

  function Overflows(lin: seq<Lin>): nat {
    if lin == [] then 0 else Overflows(lin[..|lin| - 1]) + if lin[|lin| - 1].ans.Overflow? then 1 else 0
  }

  lemma OverflowsAppend(lin: seq<Lin>, e: Lin)
    ensures Overflows(lin + [e]) == Overflows(lin) + if e.ans.Overflow? then 1 else 0
  {
    assert (lin + [e])[..|lin|] == lin;
  }

  /** Every slot given out is an entry or about to become one. */
  ghost predicate SlotsAdd(s: State) {
    |s.order| == TotalEntries(s.shards) + Total(s.threads, Winner)
  }

  ghost predicate MissesAdd(c: Config, s: State) {
    if c.enabled then
      && s.records == |s.order| - Total(s.threads, OwesWin) + s.overflows + Total(s.threads, OwesOverflow)
      && s.overflows + Total(s.threads, Refused) == Overflows(s.lin)
    else s.records == s.overflows == 0
  }

  ghost predicate DenialsAdd(c: Config, s: State) {
    if c.enabled then s.denied + Total(s.threads, OwesDenied) == |s.denyOnce| else s.denied == 0
  }

  ghost predicate AccountsOk(c: Config, s: State) {
    SlotsAdd(s) && MissesAdd(c, s) && DenialsAdd(c, s)
  }

  lemma AccountsInit(c: Config, s: State)
    requires Init(c, s)
    ensures AccountsOk(c, s)
  {
    TotalEntriesEmpty(s.shards);
    TotalZero(s.threads, Winner);
    TotalZero(s.threads, OwesWin);
    TotalZero(s.threads, OwesOverflow);
    TotalZero(s.threads, Refused);
    TotalZero(s.threads, OwesDenied);
  }

  /** Nothing owed by a thread. */
  predicate Clear(p: Pc) {
    Winner(p) == 0 && Refused(p) == 0
  }

  /** What the steps outside `reserveSlot` leave alone. */
  ghost predicate Frame(s: State, t: nat, s': State) {
    && t < |s.threads| && |s'.threads| == |s.threads| && s'.threads == s.threads[t := s'.threads[t]]
    && s'.shards == s.shards && s'.order == s.order && s'.records == s.records && s'.overflows == s.overflows
    && Overflows(s'.lin) == Overflows(s.lin)
    && Clear(s.threads[t]) && Clear(s'.threads[t])
  }

  ghost predicate DenialFrame(s: State, t: nat, s': State) {
    && t < |s.threads| && |s'.threads| == |s.threads| && s'.threads == s.threads[t := s'.threads[t]]
    && s'.denied == s.denied && s'.denyOnce == s.denyOnce
    && OwesDenied(s.threads[t]) == OwesDenied(s'.threads[t]) == 0
  }

  lemma FrameKeeps(c: Config, s: State, t: nat, s': State)
    requires SlotsAdd(s) && MissesAdd(c, s) && Frame(s, t, s')
    ensures SlotsAdd(s') && MissesAdd(c, s')
  {
    TotalUpdate(s.threads, t, s'.threads[t], Winner);
    TotalUpdate(s.threads, t, s'.threads[t], OwesWin);
    TotalUpdate(s.threads, t, s'.threads[t], OwesOverflow);
    TotalUpdate(s.threads, t, s'.threads[t], Refused);
  }

  lemma DenialFrameKeeps(c: Config, s: State, t: nat, s': State)
    requires DenialsAdd(c, s) && DenialFrame(s, t, s')
    ensures DenialsAdd(c, s')
  {
    TotalUpdate(s.threads, t, s'.threads[t], OwesDenied);
  }

  lemma CallFrame(c: Config, s: State, t: nat)
    requires t < |s.threads| && Calling(s.threads[t])
    ensures Frame(s, t, ExecCall(c, s, t))
    ensures !s.threads[t].AtNote? && !s.threads[t].AtCountDenied? ==> DenialFrame(s, t, ExecCall(c, s, t))
  {
  }

  lemma HitFrame(c: Config, s: State, t: nat)
    requires Shape(c, s) && t < |s.threads| && (s.threads[t].AtProbe? || s.threads[t].AtRecheck?)
    requires Stored(c, s.shards, s.threads[t].o.call.key)
    ensures Frame(s, t, ExecProbe(c, s, t))
  {
    OverflowsAppend(s.lin, Lin(t, s.threads[t].o.call.key, Own));
  }

  lemma ProbeFrame(c: Config, s: State, t: nat)
    requires Shape(c, s) && t < |s.threads| && Probing(s.threads[t])
    ensures Frame(s, t, ExecProbe(c, s, t))
  {
    if (s.threads[t].AtProbe? || s.threads[t].AtRecheck?) && Stored(c, s.shards, s.threads[t].o.call.key) {
      HitFrame(c, s, t);
    } else {
      assert ExecProbe(c, s, t).lin == s.lin;
    }
  }

  lemma ProbeDenialFrame(c: Config, s: State, t: nat)
    requires Shape(c, s) && t < |s.threads| && Probing(s.threads[t])
    ensures DenialFrame(s, t, ExecProbe(c, s, t))
  {
  }

  lemma ScanFrame(c: Config, s: State, t: nat)
    requires Shape(c, s) && t < |s.threads| && Scanning(s.threads[t])
    ensures Frame(s, t, ExecScan(c, s, t)) && DenialFrame(s, t, ExecScan(c, s, t))
  {
  }

  lemma ReserveFrame(c: Config, s: State, t: nat)
    requires Shape(c, s) && t < |s.threads| && Reserving(s.threads[t])
    ensures DenialFrame(s, t, ExecReserve(c, s, t))
  {
  }

  lemma NoteDenials(c: Config, s: State, t: nat)
    requires DenialsAdd(c, s) && t < |s.threads| && s.threads[t].AtNote?
    ensures DenialsAdd(c, ExecCall(c, s, t))
  {
    var s' := ExecCall(c, s, t);
    TotalUpdate(s.threads, t, s'.threads[t], OwesDenied);
    var l := Join(s.threads[t].o.call.key);
    assert l in s.denyOnce ==> s.denyOnce + {l} == s.denyOnce;
  }

  lemma CountDenials(c: Config, s: State, t: nat)
    requires DenialsAdd(c, s) && t < |s.threads| && s.threads[t].AtCountDenied?
    ensures DenialsAdd(c, ExecCall(c, s, t))
  {
    TotalUpdate(s.threads, t, Idle, OwesDenied);
  }

  lemma CallAccounts(c: Config, s: State, t: nat)
    requires AccountsOk(c, s) && t < |s.threads| && Calling(s.threads[t])
    ensures AccountsOk(c, ExecCall(c, s, t))
  {
    CallFrame(c, s, t);
    FrameKeeps(c, s, t, ExecCall(c, s, t));
    if s.threads[t].AtNote? {
      NoteDenials(c, s, t);
    } else if s.threads[t].AtCountDenied? {
      CountDenials(c, s, t);
    } else {
      DenialFrameKeeps(c, s, t, ExecCall(c, s, t));
    }
  }

  lemma ReserveSlots(c: Config, s: State, t: nat)
    requires Shape(c, s) && SlotsAdd(s) && t < |s.threads| && Reserving(s.threads[t])
    requires s.threads[t].AtInsert? ==> !Stored(c, s.shards, s.threads[t].o.call.key)
    ensures SlotsAdd(ExecReserve(c, s, t))
  {
    var s' := ExecReserve(c, s, t);
    TotalUpdate(s.threads, t, s'.threads[t], Winner);
    if s.threads[t].AtInsert? {
      var k := s.threads[t].o.call.key;
      var i := c.route(k);
      PutAddsOne(s.shards[i], k, NewEntry(AttrsOf(k)));
      TotalEntriesUpdate(s.shards, i, Put(s.shards[i], k, NewEntry(AttrsOf(k))));
    }
  }

  /** How the sums of MissesAdd move when thread `t` goes to `p`. */
  lemma MissSums(ts: seq<Pc>, t: nat, p: Pc)
    requires t < |ts|
    ensures Total(ts[t := p], OwesWin) == Total(ts, OwesWin) - OwesWin(ts[t]) + OwesWin(p)
    ensures Total(ts[t := p], OwesOverflow) == Total(ts, OwesOverflow) - OwesOverflow(ts[t]) + OwesOverflow(p)
    ensures Total(ts[t := p], Refused) == Total(ts, Refused) - Refused(ts[t]) + Refused(p)
  {
    TotalUpdate(ts, t, p, OwesWin);
    TotalUpdate(ts, t, p, OwesOverflow);
    TotalUpdate(ts, t, p, Refused);
  }

  /** The step is a refusal: a lookup takes effect with the answer overflow. */
  predicate Refuses(c: Config, s: State, p: Pc) {
    p.AtLoad? && s.size >= c.max
  }

  /** The counters of one step of `reserveSlot`, against what the step owes before and after. */
  lemma ReserveCounts(c: Config, s: State, t: nat)
    requires Shape(c, s) && t < |s.threads| && Reserving(s.threads[t])
    ensures var s' := ExecReserve(c, s, t); var p, p' := s.threads[t], s'.threads[t];
            && |s'.threads| == |s.threads| && s'.threads == s.threads[t := p']
            && (if c.enabled then
                  && s'.records - s.records == |s'.order| - |s.order| - OwesWin(p') + OwesWin(p)
                                               + s'.overflows - s.overflows + OwesOverflow(p') - OwesOverflow(p)
                  && s'.overflows - s.overflows + Refused(p') - Refused(p) == if Refuses(c, s, p) then 1 else 0
                else s'.records == s.records && s'.overflows == s.overflows)
  {
  }

  /** What the step adds to the lookups that took effect. */
  lemma ReserveEffects(c: Config, s: State, t: nat)
    requires Shape(c, s) && t < |s.threads| && Reserving(s.threads[t])
    ensures var lin' := ExecReserve(c, s, t).lin; var p := s.threads[t];
            if Refuses(c, s, p) then lin' == s.lin + [Lin(t, p.o.call.key, Overflow)]
            else lin' == s.lin || lin' == s.lin + [Lin(t, p.o.call.key, Own)]
  {
  }

  lemma ReserveOverflows(c: Config, s: State, t: nat, lin': seq<Lin>)
    requires Shape(c, s) && t < |s.threads| && Reserving(s.threads[t]) && lin' == ExecReserve(c, s, t).lin
    ensures Overflows(lin') == Overflows(s.lin) + if Refuses(c, s, s.threads[t]) then 1 else 0
  {
    ReserveEffects(c, s, t);
    var k := s.threads[t].o.call.key;
    if Refuses(c, s, s.threads[t]) {
      OverflowsAppend(s.lin, Lin(t, k, Overflow));
    } else if lin' != s.lin {
      OverflowsAppend(s.lin, Lin(t, k, Own));
    }
  }

  lemma ReserveMisses(c: Config, s: State, t: nat)
    requires Shape(c, s) && MissesAdd(c, s) && t < |s.threads| && Reserving(s.threads[t])
    ensures MissesAdd(c, ExecReserve(c, s, t))
  {
    ReserveCounts(c, s, t);
    ReserveOverflows(c, s, t, ExecReserve(c, s, t).lin);
    MissSums(s.threads, t, ExecReserve(c, s, t).threads[t]);
  }

  lemma GoAccounts(c: Config, s: State, t: nat)
    requires Shape(c, s) && AccountsOk(c, s) && Enabled(c, s, t)
    requires s.threads[t].AtInsert? ==> !Stored(c, s.shards, s.threads[t].o.call.key)
    ensures AccountsOk(c, Exec(c, s, t))
  {
    var s' := Exec(c, s, t);
    if Calling(s.threads[t]) {
      CallAccounts(c, s, t);
    } else if Probing(s.threads[t]) {
      ProbeFrame(c, s, t);
      ProbeDenialFrame(c, s, t);
      FrameKeeps(c, s, t, s');
      DenialFrameKeeps(c, s, t, s');
    } else if Reserving(s.threads[t]) {
      ReserveSlots(c, s, t);
      ReserveMisses(c, s, t);
      ReserveFrame(c, s, t);
      DenialFrameKeeps(c, s, t, s');
    } else {
      ScanFrame(c, s, t);
      FrameKeeps(c, s, t, s');
      DenialFrameKeeps(c, s, t, s');
    }
  }

  lemma BeginAccounts(c: Config, s: State, t: nat, p: Pc)
    requires AccountsOk(c, s) && t < |s.threads| && s.threads[t].Idle? && Clear(p) && OwesDenied(p) == 0
    ensures AccountsOk(c, Goto(s, t, p))
  {
    FrameKeeps(c, s, t, Goto(s, t, p));
    DenialFrameKeeps(c, s, t, Goto(s, t, p));
  }

  lemma CallsAccounts(c: Config, s: State, a: Action)
    requires Shape(c, s) && AccountsOk(c, s) && Can(c, s, a) && !a.Go?
    ensures AccountsOk(c, Apply(c, s, a))
  {
    match a
    case AddWith(t, call) => BeginAccounts(c, s, t, AtLive(Op(call, |s.lin|, 0)));
    case Add(t, call) => BeginAccounts(c, s, t, AtAddLive(Op(call, |s.lin|, 0)));
    case Subjects(t) => BeginAccounts(c, s, t, ScanLock(0, multiset{}, AllKeys(s.shards)));
    case Bump =>
    case Allow(_) =>
  }

  lemma AccountsStep(c: Config, s: State, a: Action)
    requires StoreOk(c, s) && AccountsOk(c, s) && Can(c, s, a)
    ensures AccountsOk(c, Apply(c, s, a))
  {
    if a.Go? {
      assert PcOk(c, s.shards, s.order, s.threads[a.t]);
      GoAccounts(c, s, a.t);
    } else {
      CallsAccounts(c, s, a);
    }
  }

  lemma {:induction false} AccountsRun(c: Config, tr: seq<State>, acts: seq<Action>, i: nat)
    requires IsRun(c, tr, acts) && i < |tr|
    ensures AccountsOk(c, tr[i])
  {
    if i == 0 {
      AccountsInit(c, tr[0]);
    } else {
      AccountsRun(c, tr, acts, i - 1);
      LinRun(c, tr, acts, i - 1);
      AccountsStep(c, tr[i - 1], acts[i - 1]);
    }
  }

  /** In every reachable state: the atomic size is the number of entries in the 48 maps plus
      the threads that won a slot and have not inserted yet; with a detector, overflows never
      exceed misses; and when no thread is inside a miss the counters are exact. */
  lemma CountersAgree(c: Config, tr: seq<State>, acts: seq<Action>, i: nat)
    requires IsRun(c, tr, acts) && i < |tr|
    ensures var s := tr[i];
            && s.size == TotalEntries(s.shards) + Total(s.threads, Winner) <= c.max
            && s.overflows <= s.records
            && (c.enabled && (forall t :: 0 <= t < |s.threads| ==> OwesWin(s.threads[t]) == Refused(s.threads[t]) == 0) ==>
                  s.records == s.size + s.overflows && s.overflows == Overflows(s.lin))
  {
    var s := tr[i];
    AccountsRun(c, tr, acts, i);
    LinRun(c, tr, acts, i);
    TotalMono(s.threads, OwesWin, Winner);
    TotalAtLeast(s.threads, OwesOverflow, 0);
    if forall t :: 0 <= t < |s.threads| ==> OwesWin(s.threads[t]) == Refused(s.threads[t]) == 0 {
      TotalZero(s.threads, OwesWin);
      TotalZero(s.threads, Refused);
      assert forall t :: 0 <= t < |s.threads| && Refused(s.threads[t]) == 0 ==> OwesOverflow(s.threads[t]) == 0;
      TotalZero(s.threads, OwesOverflow);
    }
  }

  /** The denied counter is the number of distinct label strings noted, as soon as no thread is
      between noting a string and counting it. */
  lemma DeniedCountsDistinctStrings(c: Config, tr: seq<State>, acts: seq<Action>, i: nat)
    requires IsRun(c, tr, acts) && i < |tr|
    requires forall t :: 0 <= t < |tr[i].threads| ==> !tr[i].threads[t].AtCountDenied?
    ensures tr[i].denied == if c.enabled then |tr[i].denyOnce| else 0
  {
    AccountsRun(c, tr, acts, i);
    TotalZero(tr[i].threads, OwesDenied);
  }
}
