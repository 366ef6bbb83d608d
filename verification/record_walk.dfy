/** `Subjects` locks one shard at a time while lookups go on. */
module RecordWalk {
  import opened Labels
  import opened Shards
  import opened RecordMachine
  import opened RecordInvariants
  import opened RecordStore
  import opened RecordLinear

  /** What a walk over the shards has seen before shard `n`. */
  ghost predicate WalkOk(c: Config, ss: seq<Shard>, n: nat, out: multiset<Key>, start: set<Key>)
    requires c.Valid() && |ss| == SHARDS
  {
    && (forall k :: out[k] <= 1)
    && (forall k :: k in out ==> Stored(c, ss, k) && c.route(k) < n)
    && (forall k :: k in start ==> Stored(c, ss, k))
    && (forall k :: k in start && c.route(k) < n ==> k in out)
  }

  ghost predicate PcWalk(c: Config, ss: seq<Shard>, p: Pc)
    requires c.Valid() && |ss| == SHARDS
  {
    match p
    case ScanLock(i, out, start) => WalkOk(c, ss, i, out, start)
    case ScanRead(i, out, start) => WalkOk(c, ss, i, out, start)
    case ScanUnlock(i, out, start) => WalkOk(c, ss, i + 1, out, start)
    case _ => true
  }

  /** No key listed twice, everything cached at the call listed, everything listed cached at
      the return, never more than the cap. */
  ghost predicate ScanOk(c: Config, s: Scan) {
    && (forall k :: s.out[k] <= 1) && (forall k :: k in s.start ==> k in s.out)
    && (forall k :: k in s.out ==> k in s.end) && |s.out| <= |s.end| <= c.max
  }

  lemma {:induction false} ListedSize(out: multiset<Key>, end: set<Key>)
    requires forall k :: out[k] <= 1
    requires forall k :: k in out ==> k in end
    ensures |out| <= |end|
    decreases |out|
  {
    if k :| k in out {
      ListedSize(out - multiset{k}, end - {k});
    }
  }

  ghost predicate ScansOk(c: Config, s: State) {
    && c.Valid() && |s.shards| == SHARDS
    && (forall t :: 0 <= t < |s.threads| ==> PcWalk(c, s.shards, s.threads[t]))
    && (forall i :: 0 <= i < |s.scans| ==> ScanOk(c, s.scans[i]))
  }

  ghost predicate Grows(c: Config, ss: seq<Shard>, ss': seq<Shard>)
    requires c.Valid() && |ss| == |ss'| == SHARDS
  {
    forall k :: Stored(c, ss, k) ==> Stored(c, ss', k)
  }

  lemma ScansMove(c: Config, s: State, t: nat, s': State)
    requires c.Valid() && |s.shards| == |s'.shards| == SHARDS && Grows(c, s.shards, s'.shards)
    requires ScansOk(c, s) && t < |s.threads| && |s'.threads| == |s.threads| && s'.threads == s.threads[t := s'.threads[t]]
    requires PcWalk(c, s'.shards, s'.threads[t]) && s'.scans == s.scans
    ensures ScansOk(c, s')
  {
    forall u | 0 <= u < |s'.threads| ensures PcWalk(c, s'.shards, s'.threads[u]) {
      assert PcWalk(c, s.shards, s.threads[u]);
    }
  }

  lemma WalkReads(c: Config, ss: seq<Shard>, order: seq<Key>, i: nat, out: multiset<Key>, start: set<Key>)
    requires ShardsOk(c, ss, order) && i < SHARDS && WalkOk(c, ss, i, out, start)
    ensures WalkOk(c, ss, i + 1, out + multiset(KeySet(ss[i])), start)
  {
    var out' := out + multiset(KeySet(ss[i]));
    forall k ensures out'[k] <= 1 && (k in out' <==> k in out || (c.route(k) == i && Stored(c, ss, k))) {
      KeySetMembers(ss[i], k);
      assert k in KeySet(ss[i]) ==> c.route(k) == i;
    }
  }

  lemma LastShard(c: Config, ss: seq<Shard>, order: seq<Key>, out: multiset<Key>, start: set<Key>)
    requires ShardsOk(c, ss, order) && NoDup(order) && |order| <= c.max && WalkOk(c, ss, SHARDS, out, start)
    ensures ScanOk(c, Scan(out, start, AllKeys(ss)))
  {
    forall k | k in out ensures k in AllKeys(ss) {
      MembersOfAll(c, ss, order, k);
    }
    ListedSize(out, AllKeys(ss));
    AllKeysBound(c, ss, order);
  }

  /** A walk comes to its end. */
  lemma EndScans(c: Config, s: State, t: nat)
    requires StoreOk(c, s) && ScansOk(c, s) && t < |s.threads| && Finishing(s.threads[t])
    ensures ScansOk(c, ExecScan(c, s, t))
  {
    var p, s' := s.threads[t], ExecScan(c, s, t);
    assert PcWalk(c, s.shards, p);
    LastShard(c, s.shards, s.order, p.out, p.start);
    ScansMove(c, s, t, s'.(scans := s.scans));
  }

  lemma ReadScans(c: Config, s: State, t: nat)
    requires Shape(c, s) && ShardsOk(c, s.shards, s.order) && ScansOk(c, s) && t < |s.threads| && s.threads[t].ScanRead?
    ensures ScansOk(c, ExecScan(c, s, t))
  {
    var p := s.threads[t];
    assert PcWalk(c, s.shards, p) && ScanShape(p);
    WalkReads(c, s.shards, s.order, p.i, p.out, p.start);
    ScansMove(c, s, t, ExecScan(c, s, t));
  }

  lemma LockScans(c: Config, s: State, t: nat)
    requires Shape(c, s) && ScansOk(c, s) && t < |s.threads| && Scanning(s.threads[t])
    requires !s.threads[t].ScanRead? && !Finishing(s.threads[t])
    ensures ScansOk(c, ExecScan(c, s, t))
  {
    assert PcWalk(c, s.shards, s.threads[t]);
    ScansMove(c, s, t, ExecScan(c, s, t));
  }

  lemma GoScans(c: Config, s: State, t: nat)
    requires StoreOk(c, s) && ScansOk(c, s) && Enabled(c, s, t) && Scanning(s.threads[t])
    ensures ScansOk(c, ExecScan(c, s, t))
  {
    if s.threads[t].ScanRead? {
      ReadScans(c, s, t);
    } else if Finishing(s.threads[t]) {
      EndScans(c, s, t);
    } else {
      LockScans(c, s, t);
    }
  }

  lemma ReserveScans(c: Config, s: State, t: nat)
    requires Shape(c, s) && ScansOk(c, s) && t < |s.threads| && Reserving(s.threads[t])
    ensures ScansOk(c, ExecReserve(c, s, t))
  {
    var s' := ExecReserve(c, s, t);
    forall k | Stored(c, s.shards, k) ensures Stored(c, s'.shards, k) {
      if s.threads[t].AtInsert? && s.threads[t].o.call.key != k {
        var j := s.threads[t].o.call.key;
        assert Lookup(Put(s.shards[c.route(j)], j, NewEntry(AttrsOf(j))), k) == Lookup(s.shards[c.route(j)], k);
      }
    }
    ScansMove(c, s, t, s');
  }

  lemma LookupScans(c: Config, s: State, t: nat)
    requires Shape(c, s) && ScansOk(c, s) && Enabled(c, s, t) && (Calling(s.threads[t]) || Probing(s.threads[t]))
    ensures ScansOk(c, Exec(c, s, t))
  {
    ScansMove(c, s, t, Exec(c, s, t));
  }

  lemma WalkBegins(c: Config, ss: seq<Shard>, order: seq<Key>)
    requires ShardsOk(c, ss, order)
    ensures WalkOk(c, ss, 0, multiset{}, AllKeys(ss))
  {
    forall k | k in AllKeys(ss) ensures Stored(c, ss, k) {
      MembersOfAll(c, ss, order, k);
    }
  }

  lemma ScansStep(c: Config, s: State, a: Action)
    requires StoreOk(c, s) && ScansOk(c, s) && Can(c, s, a)
    ensures ScansOk(c, Apply(c, s, a))
  {
    var s' := Apply(c, s, a);
    match a
    case Go(t) =>
      if Calling(s.threads[t]) || Probing(s.threads[t]) {
        LookupScans(c, s, t);
      } else if Reserving(s.threads[t]) {
        ReserveScans(c, s, t);
      } else {
        GoScans(c, s, t);
      }
    case AddWith(t, _) => ScansMove(c, s, t, s');
    case Add(t, _) => ScansMove(c, s, t, s');
    case Subjects(t) =>
      WalkBegins(c, s.shards, s.order);
      ScansMove(c, s, t, s');
    case Bump =>
    case Allow(_) =>
  }

  lemma {:induction false} ScansRun(c: Config, tr: seq<State>, acts: seq<Action>, i: nat)
    requires IsRun(c, tr, acts) && i < |tr|
    ensures ScansOk(c, tr[i])
  {
    if i > 0 {
      ScansRun(c, tr, acts, i - 1);
      LinRun(c, tr, acts, i - 1);
      ScansStep(c, tr[i - 1], acts[i - 1]);
    }
  }

  // ----- walks by their place in the run -----

  /** Thread `t` is still in the walk it called at action `b`. */
  ghost predicate InWalk(tr: seq<State>, acts: seq<Action>, b: nat, e: nat, t: nat) {
    && b < e < |tr| && b < |acts| && acts[b] == Subjects(t)
    && forall x :: b < x <= e ==> t < |tr[x].threads| && !tr[x].threads[t].Idle?
  }

  predicate Walking(p: Pc, start: set<Key>) {
    Scanning(p) && p.start == start
  }

  lemma StepWalks(c: Config, s: State, a: Action, t: nat, start: set<Key>)
    requires Shape(c, s) && Can(c, s, a) && t < |s.threads| && Walking(s.threads[t], start)
    ensures var s' := Apply(c, s, a);
            t < |s'.threads| && (s'.threads[t].Idle? || Walking(s'.threads[t], start))
  {
    if a.Go? && a.t != t {
      GoEffect(c, s, a.t);
    }
  }

  lemma WalkAction(c: Config, tr: seq<State>, acts: seq<Action>, k: nat, t: nat, start: set<Key>)
    requires IsRun(c, tr, acts) && k < |acts| && t < |tr[k].threads| && Walking(tr[k].threads[t], start)
    ensures t < |tr[k + 1].threads| && (tr[k + 1].threads[t].Idle? || Walking(tr[k + 1].threads[t], start))
  {
    StepWalks(c, tr[k], acts[k], t, start);
  }

  lemma WalkEnters(c: Config, tr: seq<State>, acts: seq<Action>, b: nat, t: nat)
    requires IsRun(c, tr, acts) && b < |acts| && acts[b] == Subjects(t)
    ensures t < |tr[b + 1].threads| && Walking(tr[b + 1].threads[t], AllKeys(tr[b].shards))
  {
    assert tr[b + 1] == Apply(c, tr[b], acts[b]);
  }

  lemma {:induction false} WalkKeepsStart(c: Config, tr: seq<State>, acts: seq<Action>, b: nat, e: nat, t: nat)
    requires IsRun(c, tr, acts) && InWalk(tr, acts, b, e, t)
    ensures Walking(tr[e].threads[t], AllKeys(tr[b].shards))
    decreases e
  {
    if e > b + 1 {
      WalkKeepsStart(c, tr, acts, b, e - 1, t);
      WalkAction(c, tr, acts, e - 1, t, AllKeys(tr[b].shards));
    } else {
      WalkEnters(c, tr, acts, b, t);
    }
  }

  /** The next step of the walk is its last. */
  predicate Finishing(p: Pc) {
    p.ScanUnlock? && p.i + 1 == SHARDS
  }

  lemma LastStep(c: Config, s: State, t: nat)
    requires Shape(c, s) && Can(c, s, Go(t)) && Finishing(s.threads[t])
    ensures var s' := Apply(c, s, Go(t)); var p := s.threads[t];
            && s'.threads[t] == Idle && s'.shards == s.shards
            && s'.scans == s.scans + [Scan(p.out, p.start, AllKeys(s'.shards))]
  {
  }

  /** A walk called at action `b` that finishes with action `e` lists no key twice, lists
      everything cached when it was called and nothing that is not cached when it returns; so it
      lists at most `max` keys. */
  lemma SubjectsAreASnapshot(c: Config, tr: seq<State>, acts: seq<Action>, b: nat, e: nat, t: nat)
    requires IsRun(c, tr, acts) && InWalk(tr, acts, b, e, t)
    requires e < |acts| && acts[e] == Go(t) && Finishing(tr[e].threads[t])
    ensures tr[e + 1].threads[t] == Idle
    ensures ScanOk(c, Scan(tr[e].threads[t].out, AllKeys(tr[b].shards), AllKeys(tr[e + 1].shards)))
  {
    WalkKeepsStart(c, tr, acts, b, e, t);
    LastStep(c, tr[e], t);
    ScansRun(c, tr, acts, e + 1);
    assert ScanOk(c, tr[e + 1].scans[|tr[e].scans|]);
  }

  /** The same for every walk recorded so far, by what was recorded with it. */
  lemma RecordedScans(c: Config, tr: seq<State>, acts: seq<Action>, i: nat, n: nat)
    requires IsRun(c, tr, acts) && i < |tr| && n < |tr[i].scans|
    ensures ScanOk(c, tr[i].scans[n])
  {
    ScansRun(c, tr, acts, i);
  }
}
