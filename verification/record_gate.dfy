/** The deny gate confines what is cached. */
module RecordGate {
  import opened Labels
  import opened Shards
  import opened RecordMachine
  import opened RecordStore
  import opened RecordLinear

  predicate PartsAllowed(allowed: set<Label>, k: Key) {
    forall i :: 0 <= i < |k.Parts()| ==> k.Parts()[i] == [] || k.Parts()[i] in allowed
  }

  ghost predicate DenyOk(c: Config, s: State) {
    c.deny ==>
      && (forall k :: k in s.order ==> PartsAllowed(s.allowed, k))
      && (forall t :: 0 <= t < |s.threads| && (Probing(s.threads[t]) || Reserving(s.threads[t])) ==>
            PartsAllowed(s.allowed, s.threads[t].o.call.key))
  }

  lemma DenyMove(c: Config, s: State, t: nat, s': State)
    requires DenyOk(c, s) && t < |s.threads| && |s'.threads| == |s.threads| && s'.threads == s.threads[t := s'.threads[t]]
    requires s'.allowed == s.allowed
    requires c.deny && (Probing(s'.threads[t]) || Reserving(s'.threads[t])) ==> PartsAllowed(s.allowed, s'.threads[t].o.call.key)
    requires s'.order == s.order || (Reserving(s.threads[t]) && s'.order == s.order + [s.threads[t].o.call.key])
    ensures DenyOk(c, s')
  {
  }

  lemma CallDeny(c: Config, s: State, t: nat)
    requires DenyOk(c, s) && t < |s.threads| && Calling(s.threads[t])
    ensures DenyOk(c, ExecCall(c, s, t))
  {
    DenyMove(c, s, t, ExecCall(c, s, t));
  }

  lemma ProbeDeny(c: Config, s: State, t: nat)
    requires Shape(c, s) && DenyOk(c, s) && t < |s.threads| && Probing(s.threads[t])
    ensures DenyOk(c, ExecProbe(c, s, t))
  {
    DenyMove(c, s, t, ExecProbe(c, s, t));
  }

  lemma ReserveDeny(c: Config, s: State, t: nat)
    requires Shape(c, s) && DenyOk(c, s) && t < |s.threads| && Reserving(s.threads[t])
    ensures DenyOk(c, ExecReserve(c, s, t))
  {
    DenyMove(c, s, t, ExecReserve(c, s, t));
  }

  lemma ScanDeny(c: Config, s: State, t: nat)
    requires Shape(c, s) && DenyOk(c, s) && t < |s.threads| && Scanning(s.threads[t])
    ensures DenyOk(c, ExecScan(c, s, t))
  {
    DenyMove(c, s, t, ExecScan(c, s, t));
  }

  lemma GoDeny(c: Config, s: State, t: nat)
    requires Shape(c, s) && DenyOk(c, s) && Enabled(c, s, t)
    ensures DenyOk(c, Exec(c, s, t))
  {
    if Calling(s.threads[t]) {
      CallDeny(c, s, t);
    } else if Probing(s.threads[t]) {
      ProbeDeny(c, s, t);
    } else if Reserving(s.threads[t]) {
      ReserveDeny(c, s, t);
    } else {
      ScanDeny(c, s, t);
    }
  }

  lemma BeginDeny(c: Config, s: State, t: nat, p: Pc)
    requires DenyOk(c, s) && t < |s.threads| && !Probing(p) && !Reserving(p)
    ensures DenyOk(c, Goto(s, t, p))
  {
    DenyMove(c, s, t, Goto(s, t, p));
  }

  lemma DenyStep(c: Config, s: State, a: Action)
    requires Shape(c, s) && DenyOk(c, s) && Can(c, s, a)
    ensures DenyOk(c, Apply(c, s, a))
  {
    match a
    case Go(t) => GoDeny(c, s, t);
    case AddWith(t, call) => BeginDeny(c, s, t, AtLive(Op(call, |s.lin|, 0)));
    case Add(t, call) => BeginDeny(c, s, t, AtAddLive(Op(call, |s.lin|, 0)));
    case Subjects(t) => BeginDeny(c, s, t, ScanLock(0, multiset{}, AllKeys(s.shards)));
    case Bump =>
    case Allow(ls) =>
  }

  lemma {:induction false} DenyRun(c: Config, tr: seq<State>, acts: seq<Action>, i: nat)
    requires IsRun(c, tr, acts) && i < |tr|
    ensures DenyOk(c, tr[i])
  {
    if i > 0 {
      DenyRun(c, tr, acts, i - 1);
      DenyStep(c, tr[i - 1], acts[i - 1]);
    }
  }

  /** With DenyUnknown set, every label of every cached key is empty or registered. */
  lemma DenyConfines(c: Config, tr: seq<State>, acts: seq<Action>, i: nat, k: Key)
    requires IsRun(c, tr, acts) && i < |tr| && c.deny
    ensures Shape(c, tr[i]) && (Stored(c, tr[i].shards, k) ==> PartsAllowed(tr[i].allowed, k))
  {
    DenyRun(c, tr, acts, i);
    LinRun(c, tr, acts, i);
    StoredIsAllowed(c, tr[i], k);
  }

  lemma StoredIsAllowed(c: Config, s: State, k: Key)
    requires Shape(c, s) && ShardsOk(c, s.shards, s.order) && DenyOk(c, s) && c.deny
    ensures Stored(c, s.shards, k) ==> PartsAllowed(s.allowed, k)
  {
  }
}
