/** Every interleaving of lookups is a sequential run of the capped map. */
module RecordLinear {
  import opened Labels
  import opened Shards
  import opened CappedMap
  import opened RecordMachine
  import opened RecordStore

  function LinKeys(lin: seq<Lin>): (ks: seq<Key>)
    ensures |ks| == |lin| && forall i :: 0 <= i < |lin| ==> ks[i] == lin[i].key
  {
    if lin == [] then [] else LinKeys(lin[..|lin| - 1]) + [lin[|lin| - 1].key]
  }

  /** The lookups, in the order they took effect, got the answers of the capped map, and the
      slots were given out in that order. */
  ghost predicate Legal(cap: nat, lin: seq<Lin>, order: seq<Key>) {
    && order == Run(cap, LinKeys(lin))
    && forall i :: 0 <= i < |lin| ==> lin[i].ans == Answers(cap, LinKeys(lin))[i]
  }

  lemma LegalAppend(cap: nat, lin: seq<Lin>, order: seq<Key>, e: Lin)
    requires Legal(cap, lin, order) && e.ans == Intern(cap, order, e.key).1
    ensures Legal(cap, lin + [e], Intern(cap, order, e.key).0)
  {
    var lin' := lin + [e];
    var ks, ks' := LinKeys(lin), LinKeys(lin');
    assert lin'[..|lin|] == lin;
    assert ks'[..|ks|] == ks;
  }

  /** The thread's lookup has taken effect and has not returned yet. */
  predicate Effective(p: Pc) {
    p.AtRUnlockHit? || p.AtObserveWin? || p.AtInsert? || p.AtObserveMiss? || p.AtObserveOverflow? || p.AtUnlock? || p.AtEmit?
  }

  ghost predicate PcLin(lin: seq<Lin>, done: map<nat, Ret>, t: nat, p: Pc) {
    && (!p.Idle? && !Scanning(p) ==> p.o.invoked <= |lin|)
    && (Effective(p) ==> p.o.invoked <= p.o.at < |lin| && p.o.at !in done)
    && (Effective(p) ==> lin[p.o.at].t == t && lin[p.o.at].key == p.o.call.key)
  }

  /** A lookup that returned took effect once, between its call and its return, and returned
      the entry of its answer. */
  ghost predicate DoneOk(lin: seq<Lin>, done: map<nat, Ret>) {
    forall i :: i in done ==>
      && i < |lin| && done[i].t == lin[i].t && done[i].key == lin[i].key
      && done[i].invoked <= i < done[i].returned <= |lin|
      && done[i].e == EntryFor(lin[i].key, lin[i].ans)
  }

  /** Whatever took effect has returned or is about to. */
  predicate Owned(s: State, i: nat)
    requires i < |s.lin|
  {
    var t := s.lin[i].t;
    i in s.done || (t < |s.threads| && Effective(s.threads[t]) && s.threads[t].o.at == i)
  }

  ghost predicate LinPart(c: Config, s: State) {
    && Legal(c.max, s.lin, s.order)
    && (forall t :: 0 <= t < |s.threads| ==> PcLin(s.lin, s.done, t, s.threads[t]))
    && DoneOk(s.lin, s.done)
    && (forall i :: 0 <= i < |s.lin| ==> Owned(s, i))
  }

  ghost predicate LinOk(c: Config, s: State) {
    StoreOk(c, s) && LinPart(c, s)
  }

  lemma LinInit(c: Config, s: State)
    requires Init(c, s)
    ensures LinOk(c, s)
  {
    StoreInit(c, s);
  }

  ghost predicate Moves(s: State, t: nat, p: Pc, s': State) {
    t < |s.threads| && s'.threads == s.threads[t := p]
  }

  /** A step that linearizes nothing and returns nothing. */
  lemma QuietLin(c: Config, s: State, t: nat, p: Pc, s': State)
    requires LinPart(c, s) && Moves(s, t, p, s')
    requires s'.lin == s.lin && s'.done == s.done && s'.order == s.order
    requires PcLin(s.lin, s.done, t, p)
    requires Effective(s.threads[t]) ==> Effective(p) && p.o.at == s.threads[t].o.at
    ensures LinPart(c, s')
  {
    forall i | 0 <= i < |s'.lin| ensures Owned(s', i) {
      assert Owned(s, i);
    }
  }

  /** A step at which the lookup of `t` takes effect. */
  lemma TakesEffect(c: Config, s: State, t: nat, p: Pc, s': State, a: Answer)
    requires LinPart(c, s) && Moves(s, t, p, s')
    requires !s.threads[t].Idle? && !Scanning(s.threads[t]) && !Effective(s.threads[t])
    requires Effective(p) && p.o == Linearized(s, s.threads[t].o)
    requires s'.lin == s.lin + [Lin(t, s.threads[t].o.call.key, a)] && s'.done == s.done
    requires (s'.order, a) == Intern(c.max, s.order, s.threads[t].o.call.key)
    ensures LinPart(c, s')
  {
    LegalAppend(c.max, s.lin, s.order, Lin(t, s.threads[t].o.call.key, a));
    forall u | 0 <= u < |s'.threads| ensures PcLin(s'.lin, s'.done, u, s'.threads[u]) {
      assert PcLin(s.lin, s.done, u, s.threads[u]);
    }
    forall i | 0 <= i < |s'.lin| ensures Owned(s', i) {
      if i < |s.lin| {
        assert Owned(s, i);
      }
    }
  }

  /** The answer recorded for a lookup is the answer its key still gets. */
  lemma RecordedAnswer(c: Config, s: State, i: nat)
    requires Legal(c.max, s.lin, s.order) && i < |s.lin|
    ensures EntryFor(s.lin[i].key, s.lin[i].ans) == FinalEntry(s.order, s.lin[i].key)
  {
    OneAnswerForLife(c.max, LinKeys(s.lin), i);
  }

  lemma DoneAdd(lin: seq<Lin>, done: map<nat, Ret>, at: nat, r: Ret)
    requires DoneOk(lin, done) && at < |lin|
    requires r.t == lin[at].t && r.key == lin[at].key && r.e == EntryFor(lin[at].key, lin[at].ans)
    requires r.invoked <= at < r.returned <= |lin|
    ensures DoneOk(lin, done[at := r])
  {
  }

  /** A lookup returns. */
  lemma Returns(c: Config, s: State, t: nat, s': State, r: Ret)
    requires LinPart(c, s) && Moves(s, t, Idle, s') && Effective(s.threads[t])
    requires s'.lin == s.lin && s'.order == s.order && s'.done == s.done[s.threads[t].o.at := r]
    requires DoneOk(s'.lin, s'.done)
    ensures LinPart(c, s')
  {
    forall u | 0 <= u < |s'.threads| ensures PcLin(s'.lin, s'.done, u, s'.threads[u]) {
      assert PcLin(s.lin, s.done, u, s.threads[u]);
      assert PcLin(s.lin, s.done, t, s.threads[t]);
    }
    forall i | 0 <= i < |s'.lin| ensures Owned(s', i) {
      assert Owned(s, i);
    }
  }

  lemma EmitLin(c: Config, s: State, t: nat)
    requires LinPart(c, s) && t < |s.threads| && s.threads[t].AtEmit?
    requires s.threads[t].e == FinalEntry(s.order, s.threads[t].o.call.key)
    ensures LinPart(c, ExecCall(c, s, t))
  {
    var o := s.threads[t].o;
    var r := Ret(t, o.call.key, s.threads[t].e, o.invoked, |s.lin|);
    assert PcLin(s.lin, s.done, t, s.threads[t]);
    RecordedAnswer(c, s, o.at);
    DoneAdd(s.lin, s.done, o.at, r);
    Returns(c, s, t, ExecCall(c, s, t), r);
  }

  /** The step takes no effect, returns nothing, and leaves the thread outside a lookup. */
  ghost predicate Uneventful(s: State, t: nat, s': State) {
    && t < |s.threads| == |s'.threads| && Moves(s, t, s'.threads[t], s')
    && s'.lin == s.lin && s'.done == s.done && s'.order == s.order
    && !Effective(s.threads[t]) && !Effective(s'.threads[t])
    && (s'.threads[t].Idle? || Scanning(s'.threads[t]) || (Busy(s.threads[t]) && s'.threads[t].o == s.threads[t].o))
  }

  predicate Busy(p: Pc) {
    !p.Idle? && !Scanning(p)
  }

  lemma UneventfulLin(c: Config, s: State, t: nat, s': State)
    requires LinPart(c, s) && Uneventful(s, t, s')
    ensures LinPart(c, s')
  {
    assert PcLin(s.lin, s.done, t, s.threads[t]);
    QuietLin(c, s, t, s'.threads[t], s');
  }

  lemma CallIsUneventful(c: Config, s: State, t: nat)
    requires t < |s.threads| && Calling(s.threads[t]) && !s.threads[t].AtEmit?
    ensures Uneventful(s, t, ExecCall(c, s, t))
  {
  }

  lemma ScanIsUneventful(c: Config, s: State, t: nat)
    requires Shape(c, s) && t < |s.threads| && Scanning(s.threads[t])
    ensures Uneventful(s, t, ExecScan(c, s, t))
  {
  }

  lemma MissIsUneventful(c: Config, s: State, t: nat)
    requires Shape(c, s) && t < |s.threads| && Probing(s.threads[t])
    requires !s.threads[t].AtRUnlockHit? && !s.threads[t].AtUnlock?
    requires s.threads[t].AtProbe? || s.threads[t].AtRecheck? ==> !Stored(c, s.shards, s.threads[t].o.call.key)
    ensures Uneventful(s, t, ExecProbe(c, s, t))
  {
  }

  lemma HitLin(c: Config, s: State, t: nat)
    requires Shape(c, s) && LinPart(c, s) && t < |s.threads| && (s.threads[t].AtProbe? || s.threads[t].AtRecheck?)
    requires Stored(c, s.shards, s.threads[t].o.call.key) && s.threads[t].o.call.key in s.order
    ensures LinPart(c, ExecProbe(c, s, t))
  {
    var s' := ExecProbe(c, s, t);
    TakesEffect(c, s, t, s'.threads[t], s', Own);
  }

  /** A lookup that took effect goes on to the meter, giving its lock back. */
  lemma ReleaseIsAfterwards(c: Config, s: State, t: nat)
    requires Shape(c, s) && t < |s.threads| && (s.threads[t].AtRUnlockHit? || s.threads[t].AtUnlock?)
    ensures Afterwards(s, t, ExecProbe(c, s, t))
  {
  }

  /** What the store tells about a thread about to move. */
  ghost predicate Informed(c: Config, s: State, t: nat)
    requires Shape(c, s)
  {
    && t < |s.threads| && s.size == |s.order| && PcOk(c, s.shards, s.order, s.threads[t])
    && (Busy(s.threads[t]) && Stored(c, s.shards, s.threads[t].o.call.key) ==> s.threads[t].o.call.key in s.order)
  }

  lemma ProbeLin(c: Config, s: State, t: nat)
    requires Shape(c, s) && LinPart(c, s) && Informed(c, s, t) && Probing(s.threads[t])
    ensures LinPart(c, ExecProbe(c, s, t))
  {
    var p := s.threads[t];
    if p.AtRUnlockHit? || p.AtUnlock? {
      ReleaseIsAfterwards(c, s, t);
      AfterwardsLin(c, s, t, ExecProbe(c, s, t));
    } else if (p.AtProbe? || p.AtRecheck?) && Stored(c, s.shards, p.o.call.key) {
      HitLin(c, s, t);
    } else {
      MissIsUneventful(c, s, t);
      UneventfulLin(c, s, t, ExecProbe(c, s, t));
    }
  }

  lemma RefusedLin(c: Config, s: State, t: nat)
    requires Shape(c, s) && LinPart(c, s) && Informed(c, s, t) && s.threads[t].AtLoad? && s.size >= c.max
    ensures LinPart(c, ExecReserve(c, s, t))
  {
    TakesEffect(c, s, t, AtObserveMiss(Linearized(s, s.threads[t].o)), ExecReserve(c, s, t), Overflow);
  }

  lemma WinLin(c: Config, s: State, t: nat)
    requires Shape(c, s) && LinPart(c, s) && Informed(c, s, t) && s.threads[t].AtCas? && s.size == s.threads[t].sz
    ensures LinPart(c, ExecReserve(c, s, t))
  {
    TakesEffect(c, s, t, AtObserveWin(Linearized(s, s.threads[t].o)), ExecReserve(c, s, t), Own);
  }

  /** One more turn of the loop. */
  lemma TurnIsUneventful(c: Config, s: State, t: nat)
    requires Shape(c, s) && t < |s.threads|
    requires (s.threads[t].AtLoad? && s.size < c.max) || (s.threads[t].AtCas? && s.size != s.threads[t].sz)
    ensures Uneventful(s, t, ExecReserve(c, s, t))
  {
  }

  /** A step after the lookup took effect. */
  ghost predicate Afterwards(s: State, t: nat, s': State) {
    && t < |s.threads| == |s'.threads| && Moves(s, t, s'.threads[t], s')
    && s'.lin == s.lin && s'.done == s.done && s'.order == s.order
    && Effective(s.threads[t]) && Effective(s'.threads[t]) && s'.threads[t].o == s.threads[t].o
  }

  lemma ObserveIsAfterwards(c: Config, s: State, t: nat)
    requires Shape(c, s) && t < |s.threads| && Reserving(s.threads[t]) && !s.threads[t].AtLoad? && !s.threads[t].AtCas?
    ensures Afterwards(s, t, ExecReserve(c, s, t))
  {
  }

  lemma AfterwardsLin(c: Config, s: State, t: nat, s': State)
    requires LinPart(c, s) && Afterwards(s, t, s')
    ensures LinPart(c, s')
  {
    assert PcLin(s.lin, s.done, t, s.threads[t]);
    QuietLin(c, s, t, s'.threads[t], s');
  }

  lemma ReserveLin(c: Config, s: State, t: nat)
    requires Shape(c, s) && LinPart(c, s) && Informed(c, s, t) && Reserving(s.threads[t])
    ensures LinPart(c, ExecReserve(c, s, t))
  {
    if s.threads[t].AtLoad? && s.size >= c.max {
      RefusedLin(c, s, t);
    } else if s.threads[t].AtCas? && s.size == s.threads[t].sz {
      WinLin(c, s, t);
    } else if s.threads[t].AtLoad? || s.threads[t].AtCas? {
      TurnIsUneventful(c, s, t);
      UneventfulLin(c, s, t, ExecReserve(c, s, t));
    } else {
      ObserveIsAfterwards(c, s, t);
      AfterwardsLin(c, s, t, ExecReserve(c, s, t));
    }
  }

  lemma GoLin(c: Config, s: State, t: nat)
    requires Shape(c, s) && LinPart(c, s) && Informed(c, s, t) && Enabled(c, s, t)
    ensures LinPart(c, Exec(c, s, t))
  {
    if s.threads[t].AtEmit? {
      EmitLin(c, s, t);
    } else if Calling(s.threads[t]) {
      CallIsUneventful(c, s, t);
      UneventfulLin(c, s, t, ExecCall(c, s, t));
    } else if Probing(s.threads[t]) {
      ProbeLin(c, s, t);
    } else if Reserving(s.threads[t]) {
      ReserveLin(c, s, t);
    } else {
      ScanIsUneventful(c, s, t);
      UneventfulLin(c, s, t, ExecScan(c, s, t));
    }
  }

  lemma StoreInforms(c: Config, s: State, t: nat)
    requires StoreOk(c, s) && t < |s.threads|
    ensures Informed(c, s, t)
  {
  }

  lemma StartLin(c: Config, s: State, t: nat, p: Pc)
    requires LinPart(c, s) && t < |s.threads| && s.threads[t].Idle?
    requires !Effective(p) && PcLin(s.lin, s.done, t, p)
    ensures LinPart(c, Goto(s, t, p))
  {
    QuietLin(c, s, t, p, Goto(s, t, p));
  }

  lemma OutsideLin(c: Config, s: State, s': State)
    requires LinPart(c, s) && s'.threads == s.threads
    requires s'.lin == s.lin && s'.done == s.done && s'.order == s.order
    ensures LinPart(c, s')
  {
    forall i | 0 <= i < |s'.lin| ensures Owned(s', i) {
      assert Owned(s, i);
    }
  }

  lemma WalkLin(c: Config, s: State, t: nat)
    requires LinPart(c, s) && t < |s.threads| && s.threads[t].Idle?
    ensures LinPart(c, Goto(s, t, ScanLock(0, multiset{}, AllKeys(s.shards))))
  {
    StartLin(c, s, t, ScanLock(0, multiset{}, AllKeys(s.shards)));
  }

  lemma BeginLin(c: Config, s: State, a: Action)
    requires Shape(c, s) && LinPart(c, s) && Can(c, s, a) && (a.AddWith? || a.Add? || a.Subjects?)
    ensures LinPart(c, Apply(c, s, a))
  {
    match a
    case AddWith(t, call) => StartLin(c, s, t, AtLive(Op(call, |s.lin|, 0)));
    case Add(t, call) => StartLin(c, s, t, AtAddLive(Op(call, |s.lin|, 0)));
    case Subjects(t) => WalkLin(c, s, t);
  }

  lemma ActLin(c: Config, s: State, a: Action)
    requires Shape(c, s) && LinPart(c, s) && Can(c, s, a) && !a.Go?
    ensures LinPart(c, Apply(c, s, a))
  {
    if a.Bump? || a.Allow? {
      OutsideLin(c, s, Apply(c, s, a));
    } else {
      BeginLin(c, s, a);
    }
  }

  lemma LinStep(c: Config, s: State, a: Action)
    requires LinOk(c, s) && Can(c, s, a)
    ensures LinOk(c, Apply(c, s, a))
  {
    StoreStep(c, s, a);
    if a.Go? {
      StoreInforms(c, s, a.t);
      GoLin(c, s, a.t);
    } else {
      ActLin(c, s, a);
    }
  }

  lemma {:induction false} LinRun(c: Config, tr: seq<State>, acts: seq<Action>, i: nat)
    requires IsRun(c, tr, acts) && i < |tr|
    ensures LinOk(c, tr[i])
  {
    if i == 0 {
      LinInit(c, tr[0]);
    } else {
      LinRun(c, tr, acts, i - 1);
      LinStep(c, tr[i - 1], acts[i - 1]);
    }
  }
}
