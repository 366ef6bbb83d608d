/** What becomes of every recording, over whole runs, said of the calls made: recorded once
    under its own labels, dropped because the handle was stale, or refused by the deny gate. */
module RecordCalls {
  import opened Labels
  import opened Threads
  import opened RecordMachine
  import opened RecordInvariants
  import opened RecordStore
  import opened RecordLinear
  import opened RecordGrowth
  import opened RecordAccounts
  import opened RecordMeter

  /** The deny gate is on and some label of `k` is neither empty nor registered. */
  predicate Unwelcome(c: Config, s: State, k: Key) {
    c.deny && exists i :: 0 <= i < |k.Parts()| && k.Parts()[i] != [] && k.Parts()[i] !in s.allowed
  }

  /** For a key with some label this is the refusal of `isAllowed`. */
  lemma UnwelcomeIsRefused(c: Config, s: State, k: Key)
    requires !k.AllEmpty()
    ensures Unwelcome(c, s, k) <==> c.deny && !AttrCaches.LabelsAllowed(k.Parts(), Some(s.allowed))
    ensures Unwelcome(c, s, k) <==> !Allowed(c, s, k)
  {
    var i :| 0 <= i < |k.Parts()| && k.Parts()[i] != [];
    assert s.allowed == {} ==> k.Parts()[i] !in s.allowed;
  }

  /** The options that send the labels of `call`: its own options alone when all labels are
      empty; otherwise one more, which names its labels when the key has a slot and is the
      overflow set when there was no slot left. */
  predicate SentAs(c: Config, order: seq<Key>, opts: seq<AttrSet>, call: Call) {
    var n := |call.base|;
    if call.key.AllEmpty() then opts == call.base
    else
      && |opts| == n + 1 && opts[..n] == call.base
      && if call.key in order then Labelled(opts[n], call.key) else |order| == c.max && LabelledOverflow(opts[n])
  }

  /** The meter got one more emission: this call's amount, sent under its labels. */
  predicate Recorded(c: Config, s: State, s': State, call: Call) {
    var n := |s.meter|;
    && |s'.meter| == n + 1 && s'.meter[..n] == s.meter
    && s'.meter[n].call == call && SentAs(c, s'.order, s'.meter[n].opts, call)
  }

  lemma OptsName(c: Config, order: seq<Key>, m: Emission)
    requires EmissionOk(c, order, m)
    ensures SentAs(c, order, m.opts, m.call)
  {
    AttrsName(m.call.key);
  }

  /** What the options say decides them. */
  lemma NamesDecide(c: Config, order: seq<Key>, x: seq<AttrSet>, m: Emission)
    requires EmissionOk(c, order, m)
    ensures m.opts == x <==> SentAs(c, order, x, m.call)
  {
    OptsName(c, order, m);
    if SentAs(c, order, x, m.call) && !m.call.key.AllEmpty() {
      var n := |m.call.base|;
      assert x[n] == m.opts[n];
      assert x == x[..n] + [x[n]] && m.opts == m.opts[..n] + [m.opts[n]];
    }
  }

  /** Every emission carries the labels of its own call under their names, or the overflow set. */
  lemma EmissionsNameTheirCalls(c: Config, tr: seq<State>, acts: seq<Action>, i: nat, j: nat)
    requires IsRun(c, tr, acts) && i < |tr| && j < |tr[i].meter|
    ensures SentAs(c, tr[i].order, tr[i].meter[j].opts, tr[i].meter[j].call)
  {
    SeriesRun(c, tr, acts, i);
    OptsName(c, tr[i].order, tr[i].meter[j]);
  }

  // ----- one call, from its beginning to its return -----

  /** The recording thread `t` called at action `b` returns at action `e`. */
  ghost predicate Returns(tr: seq<State>, acts: seq<Action>, b: nat, e: nat, t: nat) {
    && InCall(tr, acts, b, e, t) && e < |acts| && e + 1 < |tr| && acts[e] == Go(t)
    && t < |tr[e + 1].threads| && tr[e + 1].threads[t].Idle?
  }

  ghost predicate MetStale(c: Config, tr: seq<State>, b: nat, e: nat)
    requires e < |tr|
  {
    exists x :: b < x <= e && tr[x].epoch != c.epoch
  }

  ghost predicate MetLive(c: Config, tr: seq<State>, b: nat, e: nat)
    requires e < |tr|
  {
    exists x :: b < x <= e && tr[x].epoch == c.epoch
  }

  ghost predicate MetUnwelcome(c: Config, tr: seq<State>, b: nat, e: nat, k: Key)
    requires e < |tr|
  {
    exists x :: b < x <= e && Unwelcome(c, tr[x], k)
  }

  ghost predicate MetWelcome(c: Config, tr: seq<State>, b: nat, e: nat, k: Key)
    requires e < |tr|
  {
    exists x :: b < x <= e && !Unwelcome(c, tr[x], k)
  }

  /** Past the deny gate. */
  predicate LetIn(p: Pc) {
    p.AtEmit? || Probing(p) || Reserving(p)
  }

  /** Past the first look at the epoch. */
  predicate FoundLive(p: Pc) {
    Busy(p) && !p.AtLive? && !p.AtAddLive?
  }

  /** What a call under way must have seen to be where it is. */
  ghost predicate Story(c: Config, tr: seq<State>, b: nat, x: nat, p: Pc, k: Key)
    requires x < |tr|
  {
    && (p.AtNote? || p.AtCountDenied? ==> MetUnwelcome(c, tr, b, x, k))
    && (p.AtCountDenied? ==> Join(k) in tr[x].denyOnce)
    && (FoundLive(p) ==> MetLive(c, tr, b, x))
    && (LetIn(p) ==> MetWelcome(c, tr, b, x, k))
  }

  /** What one step of a call under way tells. */
  ghost predicate StepTells(c: Config, s: State, p: Pc, s': State, p': Pc)
    requires Busy(p)
  {
    var k := p.o.call.key;
    && (p'.AtNote? ==> Unwelcome(c, s, k))
    && (p'.AtCountDenied? ==> p.AtNote? && Join(k) in s'.denyOnce)
    && (FoundLive(p') ==> FoundLive(p) || s.epoch == c.epoch)
    && (LetIn(p') ==> LetIn(p) || !Unwelcome(c, s, k))
  }

  lemma CallTells(c: Config, s: State, t: nat)
    requires t < |s.threads| && Calling(s.threads[t]) && Busy(s.threads[t]) && Sorted(s.threads[t])
    ensures StepTells(c, s, s.threads[t], ExecCall(c, s, t), ExecCall(c, s, t).threads[t])
  {
    if s.threads[t].AtGate? {
      UnwelcomeIsRefused(c, s, s.threads[t].o.call.key);
    }
  }

  lemma ProbeTells(c: Config, s: State, t: nat)
    requires Shape(c, s) && t < |s.threads| && Probing(s.threads[t])
    ensures StepTells(c, s, s.threads[t], ExecProbe(c, s, t), ExecProbe(c, s, t).threads[t])
  {
  }

  lemma ReserveTells(c: Config, s: State, t: nat)
    requires Shape(c, s) && t < |s.threads| && Reserving(s.threads[t])
    ensures StepTells(c, s, s.threads[t], ExecReserve(c, s, t), ExecReserve(c, s, t).threads[t])
  {
  }

  lemma GoTells(c: Config, s: State, t: nat)
    requires Shape(c, s) && Enabled(c, s, t) && Busy(s.threads[t]) && Sorted(s.threads[t])
    ensures StepTells(c, s, s.threads[t], Exec(c, s, t), Exec(c, s, t).threads[t])
  {
    if Calling(s.threads[t]) {
      CallTells(c, s, t);
    } else if Probing(s.threads[t]) {
      ProbeTells(c, s, t);
    } else {
      ReserveTells(c, s, t);
    }
  }

  lemma StoryMoves(c: Config, tr: seq<State>, b: nat, x: nat, p: Pc, p': Pc, k: Key)
    requires b < x && x + 1 < |tr| && Busy(p) && k == p.o.call.key
    requires Story(c, tr, b, x, p, k) && StepTells(c, tr[x], p, tr[x + 1], p')
    ensures Story(c, tr, b, x + 1, p', k)
  {
  }

  lemma StoryWaits(c: Config, tr: seq<State>, b: nat, x: nat, p: Pc, k: Key)
    requires b < x && x + 1 < |tr| && Story(c, tr, b, x, p, k) && tr[x].denyOnce <= tr[x + 1].denyOnce
    ensures Story(c, tr, b, x + 1, p, k)
  {
  }

  /** The thread itself moved, or another one did. */
  lemma ActionTells(c: Config, tr: seq<State>, acts: seq<Action>, x: nat, t: nat)
    requires IsRun(c, tr, acts) && x < |acts| && t < |tr[x].threads| && Busy(tr[x].threads[t])
    ensures t < |tr[x + 1].threads| && tr[x].denyOnce <= tr[x + 1].denyOnce
    ensures if acts[x] == Go(t) then StepTells(c, tr[x], tr[x].threads[t], tr[x + 1], tr[x + 1].threads[t])
            else tr[x + 1].threads[t] == tr[x].threads[t]
  {
    ActionGrows(c, tr, acts, x);
    if acts[x].Go? {
      SeriesRun(c, tr, acts, x);
      StepOfOne(c, tr[x], acts[x].t, t);
    }
  }

  lemma StepOfOne(c: Config, s: State, u: nat, t: nat)
    requires Shape(c, s) && Enabled(c, s, u) && SeriesOk(c, s) && t < |s.threads| && Busy(s.threads[t])
    ensures var s' := Exec(c, s, u);
            && t < |s'.threads|
            && if u == t then StepTells(c, s, s.threads[t], s', s'.threads[t]) else s'.threads[t] == s.threads[t]
  {
    GoEffect(c, s, u);
    if u == t {
      assert Sorted(s.threads[t]);
      GoTells(c, s, t);
    }
  }

  lemma {:induction false} CallStory(c: Config, tr: seq<State>, acts: seq<Action>, b: nat, e: nat, t: nat)
    requires IsRun(c, tr, acts) && InCall(tr, acts, b, e, t)
    ensures Busy(tr[e].threads[t]) && tr[e].threads[t].o.call == acts[b].call
    ensures Story(c, tr, b, e, tr[e].threads[t], acts[b].call.key)
    decreases e
  {
    CallServes(c, tr, acts, b, e, t);
    if e > b + 1 {
      var x := e - 1;
      CallStory(c, tr, acts, b, x, t);
      ActionTells(c, tr, acts, x, t);
      if acts[x] == Go(t) {
        StoryMoves(c, tr, b, x, tr[x].threads[t], tr[e].threads[t], acts[b].call.key);
      } else {
        StoryWaits(c, tr, b, x, tr[x].threads[t], acts[b].call.key);
      }
    } else {
      assert tr[e] == Apply(c, tr[b], acts[b]);
    }
  }

  // ----- the step a call returns with -----

  /** A recording reaches the meter only in the step it returns with, and only once past its
      gates; a step that returns without an emission was stopped by a gate. */
  ghost predicate Leaves(c: Config, s: State, p: Pc, s': State, p': Pc)
    requires Busy(p)
  {
    if p.AtPlain? || p.AtEmit? then p'.Idle? && Recorded(c, s, s', p.o.call) && s'.order == s.order
    else
      && s'.meter == s.meter
      && (p'.Idle? ==>
            || ((p.AtLive? || p.AtAddLive?) && s.epoch != c.epoch)
            || ((p.AtNote? || p.AtCountDenied?) && (p.AtNote? ==> Join(p.o.call.key) in s'.denyOnce) && s.denyOnce <= s'.denyOnce))
  }

  lemma EmitLeaves(c: Config, s: State, t: nat)
    requires Shape(c, s) && t < |s.threads| && (s.threads[t].AtPlain? || s.threads[t].AtEmit?)
    requires Sorted(s.threads[t]) && PcOk(c, s.shards, s.order, s.threads[t])
    ensures Leaves(c, s, s.threads[t], ExecCall(c, s, t), ExecCall(c, s, t).threads[t])
  {
    AttrsName(s.threads[t].o.call.key);
  }

  lemma CallLeaves(c: Config, s: State, t: nat)
    requires Shape(c, s) && t < |s.threads| && Calling(s.threads[t]) && Busy(s.threads[t])
    requires Sorted(s.threads[t]) && PcOk(c, s.shards, s.order, s.threads[t])
    ensures Leaves(c, s, s.threads[t], ExecCall(c, s, t), ExecCall(c, s, t).threads[t])
  {
    if s.threads[t].AtPlain? || s.threads[t].AtEmit? {
      EmitLeaves(c, s, t);
    }
  }

  lemma ProbeLeaves(c: Config, s: State, t: nat)
    requires Shape(c, s) && t < |s.threads| && Probing(s.threads[t])
    ensures Leaves(c, s, s.threads[t], ExecProbe(c, s, t), ExecProbe(c, s, t).threads[t])
  {
  }

  lemma ReserveLeaves(c: Config, s: State, t: nat)
    requires Shape(c, s) && t < |s.threads| && Reserving(s.threads[t])
    ensures Leaves(c, s, s.threads[t], ExecReserve(c, s, t), ExecReserve(c, s, t).threads[t])
  {
  }

  lemma GoLeaves(c: Config, s: State, t: nat)
    requires Shape(c, s) && Enabled(c, s, t) && Busy(s.threads[t])
    requires Sorted(s.threads[t]) && PcOk(c, s.shards, s.order, s.threads[t])
    ensures Leaves(c, s, s.threads[t], Exec(c, s, t), Exec(c, s, t).threads[t])
  {
    if Calling(s.threads[t]) {
      CallLeaves(c, s, t);
    } else if Probing(s.threads[t]) {
      ProbeLeaves(c, s, t);
    } else {
      ReserveLeaves(c, s, t);
    }
  }

  lemma ActionLeaves(c: Config, tr: seq<State>, acts: seq<Action>, e: nat, t: nat)
    requires IsRun(c, tr, acts) && e < |acts| && acts[e] == Go(t) && t < |tr[e].threads| && Busy(tr[e].threads[t])
    ensures t < |tr[e + 1].threads|
    ensures Leaves(c, tr[e], tr[e].threads[t], tr[e + 1], tr[e + 1].threads[t])
  {
    LinRun(c, tr, acts, e);
    SeriesRun(c, tr, acts, e);
    assert Sorted(tr[e].threads[t]) && PcOk(c, tr[e].shards, tr[e].order, tr[e].threads[t]);
    GoEffect(c, tr[e], t);
    GoLeaves(c, tr[e], t);
  }

  /** Every recording that returns either put exactly its own emission into the meter, under
      its labels; or put nothing there and met, between its call and its return, an epoch that
      is not its registry's; or put nothing there, met a closed deny gate and left its labels
      in the denied set. One that was recorded met an open gate and the registry's epoch. */
  lemma CallOutcome(c: Config, tr: seq<State>, acts: seq<Action>, b: nat, e: nat, t: nat)
    requires IsRun(c, tr, acts) && Returns(tr, acts, b, e, t)
    ensures var call := acts[b].call;
            || (Recorded(c, tr[e], tr[e + 1], call) && MetLive(c, tr, b, e)
                && (call.key.AllEmpty() || MetWelcome(c, tr, b, e, call.key)))
            || (tr[e + 1].meter == tr[e].meter && MetStale(c, tr, b, e))
            || (tr[e + 1].meter == tr[e].meter && MetUnwelcome(c, tr, b, e, call.key)
                && Join(call.key) in tr[e + 1].denyOnce)
  {
    CallStory(c, tr, acts, b, e, t);
    ActionLeaves(c, tr, acts, e, t);
    SeriesRun(c, tr, acts, e);
    assert Sorted(tr[e].threads[t]);
  }

  /** A recording leaves the meter alone until it returns. */
  lemma EmitsOnlyOnReturn(c: Config, tr: seq<State>, acts: seq<Action>, b: nat, e: nat, x: nat, t: nat)
    requires IsRun(c, tr, acts) && InCall(tr, acts, b, e, t) && b < x < e && x < |acts| && acts[x] == Go(t)
    ensures tr[x + 1].meter == tr[x].meter
  {
    CallStory(c, tr, acts, b, x, t);
    ActionLeaves(c, tr, acts, x, t);
  }

  // ----- conservation of the calls made -----

  /** The amounts of the calls that satisfy `q`. */
  function CallSum(cs: seq<Call>, q: Call -> bool): int {
    if cs == [] then 0
    else CallSum(cs[..|cs| - 1], q) + if q(cs[|cs| - 1]) then cs[|cs| - 1].n else 0
  }

  /** The amounts the meter was given in emissions that satisfy `q`. */
  function MeterSum(ms: seq<Emission>, q: Emission -> bool): int {
    if ms == [] then 0
    else MeterSum(ms[..|ms| - 1], q) + if q(ms[|ms| - 1]) then ms[|ms| - 1].call.n else 0
  }

  lemma SumsAppend(cs: seq<Call>, call: Call, ms: seq<Emission>, m: Emission, q: Call -> bool)
    ensures CallSum(cs + [call], q) == CallSum(cs, q) + if q(call) then call.n else 0
    ensures MeterSum(ms + [m], OfCall(q)) == MeterSum(ms, OfCall(q)) + if q(m.call) then m.call.n else 0
  {
    assert (cs + [call])[..|cs|] == cs;
    assert (ms + [m])[..|ms|] == ms;
  }

  function OfCall(q: Call -> bool): Emission -> bool {
    (m: Emission) => q(m.call)
  }

  lemma {:induction false} MeterSumSame(ms: seq<Emission>, q: Emission -> bool, r: Emission -> bool)
    requires forall i :: 0 <= i < |ms| ==> q(ms[i]) == r(ms[i])
    ensures MeterSum(ms, q) == MeterSum(ms, r)
  {
    if ms != [] {
      MeterSumSame(ms[..|ms| - 1], q, r);
    }
  }

  function SentWith(x: seq<AttrSet>): Emission -> bool {
    (m: Emission) => m.opts == x
  }

  /** The calls made in the first `i` actions, in order. */
  function Made(acts: seq<Action>, i: nat): seq<Call>
    requires i <= |acts|
  {
    if i == 0 then []
    else Made(acts, i - 1) + if Records(acts[i - 1]) then [acts[i - 1].call] else []
  }

  function Due(q: Call -> bool, p: Pc): int {
    if Busy(p) && q(p.o.call) then p.o.call.n else 0
  }

  /** The amount a call under way still has to bring to the meter. */
  function Underway(q: Call -> bool): Pc -> int {
    (p: Pc) => Due(q, p)
  }

  /** The call a step returns from without having recorded it, if it is such a step. */
  function DroppedBy(s: State, a: Action, s': State): seq<Call> {
    if a.Go? && a.t < |s.threads| && a.t < |s'.threads| && Busy(s.threads[a.t])
       && s'.threads[a.t].Idle? && s'.meter == s.meter
    then [s.threads[a.t].o.call] else []
  }

  /** The calls that returned from the first `i` actions without having been recorded. */
  function Dropped(tr: seq<State>, acts: seq<Action>, i: nat): seq<Call>
    requires i <= |acts| && |tr| == |acts| + 1
  {
    if i == 0 then [] else Dropped(tr, acts, i - 1) + DroppedBy(tr[i - 1], acts[i - 1], tr[i])
  }

  ghost predicate Balanced(s: State, made: seq<Call>, dropped: seq<Call>, q: Call -> bool) {
    CallSum(made, q) == MeterSum(s.meter, OfCall(q)) + Total(s.threads, Underway(q)) + CallSum(dropped, q)
  }

  /** A step of a call: it goes on, is recorded, or is dropped. */
  lemma CallBalanced(c: Config, s: State, a: Action, s': State, made: seq<Call>, dropped: seq<Call>, q: Call -> bool)
    requires Balanced(s, made, dropped, q) && a.Go? && a.t < |s.threads| && |s'.threads| == |s.threads|
    requires s'.threads == s.threads[a.t := s'.threads[a.t]]
    requires if !Busy(s.threads[a.t]) then s'.meter == s.meter && !Busy(s'.threads[a.t])
             else if Busy(s'.threads[a.t]) then s'.meter == s.meter && s'.threads[a.t].o.call == s.threads[a.t].o.call
             else s'.threads[a.t].Idle? && (s'.meter == s.meter || Recorded(c, s, s', s.threads[a.t].o.call))
    ensures Balanced(s', made, dropped + DroppedBy(s, a, s'), q)
  {
    var p := s.threads[a.t];
    TotalUpdate(s.threads, a.t, s'.threads[a.t], Underway(q));
    if Busy(p) && !Busy(s'.threads[a.t]) && s'.meter != s.meter {
      var m := s'.meter[|s.meter|];
      assert s'.meter == s.meter + [m] && dropped + [] == dropped;
      SumsAppend([], m.call, s.meter, m, q);
    } else if Busy(p) && !Busy(s'.threads[a.t]) {
      SumsAppend(dropped, p.o.call, [], Emission(p.o.call, []), q);
    } else {
      assert dropped + [] == dropped;
    }
  }

  /** A call is made. */
  lemma MadeBalanced(s: State, t: nat, p: Pc, made: seq<Call>, dropped: seq<Call>, q: Call -> bool)
    requires Balanced(s, made, dropped, q) && t < |s.threads| && s.threads[t].Idle? && Busy(p)
    ensures Balanced(Goto(s, t, p), made + [p.o.call], dropped, q)
  {
    TotalUpdate(s.threads, t, p, Underway(q));
    SumsAppend(made, p.o.call, [], Emission(p.o.call, []), q);
  }

  lemma BusyMoves(c: Config, s: State, t: nat, s': State)
    requires StoreOk(c, s) && SeriesOk(c, s) && Enabled(c, s, t) && Busy(s.threads[t])
    requires s' == Exec(c, s, t) && t < |s'.threads|
    ensures if s'.threads[t].Idle? then s'.meter == s.meter || Recorded(c, s, s', s.threads[t].o.call)
            else s'.meter == s.meter && Serves(s'.threads[t], s.threads[t].o.call, s.threads[t].o.invoked)
  {
    assert Sorted(s.threads[t]) && PcOk(c, s.shards, s.order, s.threads[t]);
    GoLeaves(c, s, t);
    GoServes(c, s, t, s.threads[t].o.call, s.threads[t].o.invoked);
  }

  lemma ScanIsIdle(c: Config, s: State, t: nat)
    requires Shape(c, s) && Enabled(c, s, t) && !Busy(s.threads[t])
    ensures Exec(c, s, t).meter == s.meter
    ensures t < |Exec(c, s, t).threads| && !Busy(Exec(c, s, t).threads[t])
  {
  }

  lemma GoBalanced(c: Config, s: State, a: Action, made: seq<Call>, dropped: seq<Call>, q: Call -> bool)
    requires StoreOk(c, s) && SeriesOk(c, s) && a.Go? && Enabled(c, s, a.t) && Balanced(s, made, dropped, q)
    ensures Balanced(Exec(c, s, a.t), made, dropped + DroppedBy(s, a, Exec(c, s, a.t)), q)
  {
    var s' := Exec(c, s, a.t);
    GoEffect(c, s, a.t);
    if Busy(s.threads[a.t]) {
      BusyMoves(c, s, a.t, s');
    } else {
      ScanIsIdle(c, s, a.t);
    }
    CallBalanced(c, s, a, s', made, dropped, q);
  }

  lemma BeginBalanced(c: Config, s: State, a: Action, made: seq<Call>, dropped: seq<Call>, q: Call -> bool)
    requires Shape(c, s) && Can(c, s, a) && !a.Go? && Balanced(s, made, dropped, q)
    ensures Balanced(Apply(c, s, a), if Records(a) then made + [a.call] else made, dropped, q)
  {
    match a
    case AddWith(t, call) => MadeBalanced(s, t, AtLive(Op(call, |s.lin|, 0)), made, dropped, q);
    case Add(t, call) => MadeBalanced(s, t, AtAddLive(Op(call, |s.lin|, 0)), made, dropped, q);
    case Subjects(t) => TotalUpdate(s.threads, t, Apply(c, s, a).threads[t], Underway(q));
    case Bump =>
    case Allow(_) =>
  }

  lemma StepBalanced(c: Config, s: State, a: Action, made: seq<Call>, dropped: seq<Call>, q: Call -> bool)
    requires StoreOk(c, s) && SeriesOk(c, s) && Can(c, s, a) && Balanced(s, made, dropped, q)
    ensures Balanced(Apply(c, s, a), if Records(a) then made + [a.call] else made,
                     dropped + DroppedBy(s, a, Apply(c, s, a)), q)
  {
    if a.Go? {
      GoBalanced(c, s, a, made, dropped, q);
    } else {
      BeginBalanced(c, s, a, made, dropped, q);
      assert dropped + [] == dropped;
    }
  }

  lemma ActionBalanced(c: Config, tr: seq<State>, acts: seq<Action>, k: nat, q: Call -> bool)
    requires IsRun(c, tr, acts) && k < |acts| && Balanced(tr[k], Made(acts, k), Dropped(tr, acts, k), q)
    ensures Balanced(tr[k + 1], Made(acts, k + 1), Dropped(tr, acts, k + 1), q)
  {
    LinRun(c, tr, acts, k);
    SeriesRun(c, tr, acts, k);
    MadeMore(acts, k);
    StepBalanced(c, tr[k], acts[k], Made(acts, k), Dropped(tr, acts, k), q);
  }

  lemma MadeMore(acts: seq<Action>, k: nat)
    requires k < |acts|
    ensures Made(acts, k + 1) == if Records(acts[k]) then Made(acts, k) + [acts[k].call] else Made(acts, k)
  {
    assert Made(acts, k) + [] == Made(acts, k);
  }

  /** Conservation, of all runs: the amounts of the calls made are the amounts in the meter, plus
      those of the calls still under way, plus those of the calls that were dropped, however the
      calls are selected: by label tuple, by instrument, all of them. */
  lemma {:induction false} EveryCallIsAccountedFor(c: Config, tr: seq<State>, acts: seq<Action>, i: nat, q: Call -> bool)
    requires IsRun(c, tr, acts) && i < |tr|
    ensures CallSum(Made(acts, i), q)
            == MeterSum(tr[i].meter, OfCall(q)) + Total(tr[i].threads, Underway(q)) + CallSum(Dropped(tr, acts, i), q)
  {
    if i == 0 {
      TotalZero(tr[0].threads, Underway(q));
    } else {
      EveryCallIsAccountedFor(c, tr, acts, i - 1, q);
      ActionBalanced(c, tr, acts, i - 1, q);
    }
  }

  /** Where the recording a thread is in began. */
  lemma {:induction false} Began(c: Config, tr: seq<State>, acts: seq<Action>, x: nat, t: nat) returns (b: nat)
    requires IsRun(c, tr, acts) && x < |tr| && t < |tr[x].threads| && Busy(tr[x].threads[t])
    ensures InCall(tr, acts, b, x, t)
    decreases x
  {
    var y := x - 1;
    ComesFrom(c, tr, acts, y, t);
    if tr[y].threads[t].Idle? {
      b := y;
    } else {
      b := Began(c, tr, acts, y, t);
    }
  }

  lemma ComesFrom(c: Config, tr: seq<State>, acts: seq<Action>, y: nat, t: nat)
    requires IsRun(c, tr, acts) && y < |acts| && t < |tr[y + 1].threads| && Busy(tr[y + 1].threads[t])
    ensures t < |tr[y].threads|
    ensures Busy(tr[y].threads[t]) || (tr[y].threads[t].Idle? && Records(acts[y]) && acts[y].t == t)
  {
    var s, a := tr[y], acts[y];
    if a.Go? {
      GoEffect(c, s, a.t);
      if a.t == t && !Busy(s.threads[t]) {
        ScanIsIdle(c, s, t);
      }
    }
  }

  /** The call made at `b` returned at `e` without having been recorded, and met a stale epoch or a
      closed gate in between. */
  ghost predicate DroppedWithReason(c: Config, tr: seq<State>, acts: seq<Action>, call: Call, b: nat, e: nat, t: nat) {
    && Returns(tr, acts, b, e, t) && acts[b].call == call
    && (MetStale(c, tr, b, e) || MetUnwelcome(c, tr, b, e, call.key))
  }

  ghost predicate HasReason(c: Config, tr: seq<State>, acts: seq<Action>, call: Call, i: nat) {
    exists b: nat, e: nat, t: nat :: e <= i && DroppedWithReason(c, tr, acts, call, b, e, t)
  }

  /** What action `e` dropped, if anything, it dropped for a reason. */
  ghost predicate DropHasReason(c: Config, tr: seq<State>, acts: seq<Action>, e: nat) {
    && e < |acts| && e + 1 < |tr|
    && forall call :: call in DroppedBy(tr[e], acts[e], tr[e + 1]) ==> HasReason(c, tr, acts, call, e)
  }

  lemma ActionDrops(c: Config, tr: seq<State>, acts: seq<Action>, e: nat)
    requires IsRun(c, tr, acts) && e < |acts|
    ensures DropHasReason(c, tr, acts, e)
  {
    if DroppedBy(tr[e], acts[e], tr[e + 1]) != [] {
      var t := acts[e].t;
      var b := Began(c, tr, acts, e, t);
      CallServes(c, tr, acts, b, e, t);
      CallOutcome(c, tr, acts, b, e, t);
      assert DroppedWithReason(c, tr, acts, tr[e].threads[t].o.call, b, e, t);
    }
  }

  lemma {:induction false} DropChain(c: Config, tr: seq<State>, acts: seq<Action>, i: nat, call: Call)
    requires |tr| == |acts| + 1 && i < |tr| && call in Dropped(tr, acts, i)
    requires forall e: nat | e < i :: DropHasReason(c, tr, acts, e)
    ensures i > 0 && HasReason(c, tr, acts, call, i - 1)
  {
    assert DropHasReason(c, tr, acts, i - 1);
    if call in Dropped(tr, acts, i - 1) {
      DropChain(c, tr, acts, i - 1, call);
    }
  }

  /** Every dropped call was dropped for one of the two reasons. */
  lemma DroppedForAReason(c: Config, tr: seq<State>, acts: seq<Action>, i: nat, call: Call)
    requires IsRun(c, tr, acts) && i < |tr| && call in Dropped(tr, acts, i)
    ensures exists b: nat, e: nat, t: nat :: e < i && DroppedWithReason(c, tr, acts, call, b, e, t)
  {
    forall e: nat | e < i ensures DropHasReason(c, tr, acts, e) {
      ActionDrops(c, tr, acts, e);
    }
    DropChain(c, tr, acts, i, call);
  }

  /** Every call of the run so far met, when it was made, a deny gate that would have let it in. */
  ghost predicate AllWelcome(c: Config, tr: seq<State>, acts: seq<Action>, i: nat)
    requires |tr| == |acts| + 1 && i < |tr|
  {
    forall k :: 0 <= k < i && Records(acts[k]) ==> !Unwelcome(c, tr[k], acts[k].call.key)
  }

  lemma WelcomeStays(c: Config, tr: seq<State>, acts: seq<Action>, b: nat, x: nat, i: nat, k: Key)
    requires IsRun(c, tr, acts) && b <= x <= i < |tr| && tr[i].epoch == c.epoch && !Unwelcome(c, tr[b], k)
    ensures tr[x].epoch == c.epoch && !Unwelcome(c, tr[x], k)
  {
    GrowsAlong(c, tr, acts, 0, x);
    GrowsAlong(c, tr, acts, b, x);
    GrowsAlong(c, tr, acts, x, i);
  }

  /** While the registry is the current one, and with the deny gate off or all labels registered
      before use, no call is dropped: every amount is in the meter or under way. */
  lemma NoneDropped(c: Config, tr: seq<State>, acts: seq<Action>, i: nat)
    requires IsRun(c, tr, acts) && i < |tr| && tr[i].epoch == c.epoch && AllWelcome(c, tr, acts, i)
    ensures Dropped(tr, acts, i) == []
  {
    if Dropped(tr, acts, i) != [] {
      var call := Dropped(tr, acts, i)[0];
      DroppedForAReason(c, tr, acts, i, call);
      var b: nat, e: nat, t: nat :| e < i && DroppedWithReason(c, tr, acts, call, b, e, t);
      var x :| b < x <= e && (tr[x].epoch != c.epoch || Unwelcome(c, tr[x], call.key));
      WelcomeStays(c, tr, acts, b, x, i, call.key);
    }
  }

  /** The calls sent with options `x`, by what their labels are. */
  function SentBy(c: Config, order: seq<Key>, x: seq<AttrSet>): Call -> bool {
    (call: Call) => SentAs(c, order, x, call)
  }

  /** With no call under way, every series of the meter holds exactly the amounts of the calls made
      with its labels, from the first call on, but for those that were dropped; so all of them when
      `NoneDropped` applies. */
  lemma SeriesHoldTheirCalls(c: Config, tr: seq<State>, acts: seq<Action>, i: nat, x: seq<AttrSet>)
    requires IsRun(c, tr, acts) && i < |tr|
    requires forall t :: 0 <= t < |tr[i].threads| ==> !Busy(tr[i].threads[t])
    ensures var q := SentBy(c, tr[i].order, x);
            MeterSum(tr[i].meter, SentWith(x)) == CallSum(Made(acts, i), q) - CallSum(Dropped(tr, acts, i), q)
  {
    var s, q := tr[i], SentBy(c, tr[i].order, x);
    EveryCallIsAccountedFor(c, tr, acts, i, q);
    TotalZero(s.threads, Underway(q));
    SeriesRun(c, tr, acts, i);
    forall j | 0 <= j < |s.meter| ensures SentWith(x)(s.meter[j]) == OfCall(q)(s.meter[j]) {
      NamesDecide(c, s.order, x, s.meter[j]);
    }
    MeterSumSame(s.meter, SentWith(x), OfCall(q));
  }

  // ----- the denied set -----

  /** The label string `l` is that of the call made at `b`, which met a closed gate at `x`. */
  ghost predicate WasRefused(c: Config, tr: seq<State>, acts: seq<Action>, l: Label, b: nat, x: nat)
    requires |tr| == |acts| + 1
  {
    && b < x < |tr| && Records(acts[b]) && Join(acts[b].call.key) == l
    && Unwelcome(c, tr[x], acts[b].call.key)
  }

  lemma OnlyNotesDeny(c: Config, s: State, a: Action)
    requires Shape(c, s) && Can(c, s, a)
    ensures var s' := Apply(c, s, a);
            || s'.denyOnce == s.denyOnce
            || (a.Go? && s.threads[a.t].AtNote? && s'.denyOnce == s.denyOnce + {Join(s.threads[a.t].o.call.key)})
  {
    if a.Go? {
      if Calling(s.threads[a.t]) {
        CallFrame(c, s, a.t);
      } else if Probing(s.threads[a.t]) {
        ProbeDenialFrame(c, s, a.t);
      } else if Reserving(s.threads[a.t]) {
        ReserveFrame(c, s, a.t);
      } else {
        ScanFrame(c, s, a.t);
      }
    }
  }

  lemma NotedWasRefused(c: Config, tr: seq<State>, acts: seq<Action>, x: nat, t: nat)
    requires IsRun(c, tr, acts) && x < |tr| && t < |tr[x].threads| && tr[x].threads[t].AtNote?
    ensures exists b: nat, y: nat :: y <= x && WasRefused(c, tr, acts, Join(tr[x].threads[t].o.call.key), b, y)
  {
    var b := Began(c, tr, acts, x, t);
    CallStory(c, tr, acts, b, x, t);
    var y :| b < y <= x && Unwelcome(c, tr[y], acts[b].call.key);
    assert WasRefused(c, tr, acts, Join(tr[x].threads[t].o.call.key), b, y);
  }

  ghost predicate RefusedBefore(c: Config, tr: seq<State>, acts: seq<Action>, l: Label, i: nat)
    requires |tr| == |acts| + 1
  {
    exists b: nat, x: nat :: x <= i && WasRefused(c, tr, acts, l, b, x)
  }

  /** What action `k` noted, if anything, had been refused. */
  ghost predicate NoteHasReason(c: Config, tr: seq<State>, acts: seq<Action>, k: nat)
    requires |tr| == |acts| + 1
  {
    && k + 1 < |tr|
    && forall l :: l in tr[k + 1].denyOnce && l !in tr[k].denyOnce ==> RefusedBefore(c, tr, acts, l, k)
  }

  lemma ActionNotes(c: Config, tr: seq<State>, acts: seq<Action>, k: nat)
    requires IsRun(c, tr, acts) && k < |acts|
    ensures NoteHasReason(c, tr, acts, k)
  {
    OnlyNotesDeny(c, tr[k], acts[k]);
    if tr[k + 1].denyOnce != tr[k].denyOnce {
      NotedWasRefused(c, tr, acts, k, acts[k].t);
    }
  }

  lemma {:induction false} NoteChain(c: Config, tr: seq<State>, acts: seq<Action>, i: nat, l: Label)
    requires |tr| == |acts| + 1 && i < |tr| && l in tr[i].denyOnce && tr[0].denyOnce == {}
    requires forall k: nat | k < i :: NoteHasReason(c, tr, acts, k)
    ensures RefusedBefore(c, tr, acts, l, i)
  {
    assert NoteHasReason(c, tr, acts, i - 1);
    if l in tr[i - 1].denyOnce {
      NoteChain(c, tr, acts, i - 1, l);
    }
  }

  /** The denied set holds nothing but the label strings of calls that met a closed gate. */
  lemma DeniedWereRefused(c: Config, tr: seq<State>, acts: seq<Action>, i: nat, l: Label)
    requires IsRun(c, tr, acts) && i < |tr| && l in tr[i].denyOnce
    ensures exists b: nat, x: nat :: x <= i && WasRefused(c, tr, acts, l, b, x)
  {
    forall k: nat | k < i ensures NoteHasReason(c, tr, acts, k) {
      ActionNotes(c, tr, acts, k);
    }
    NoteChain(c, tr, acts, i, l);
  }
}
