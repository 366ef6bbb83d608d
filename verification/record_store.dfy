/** The store: size, cap, routing, one slot a key, one answer a key. */
module RecordStore {
  import opened Labels
  import opened Shards
  import opened Threads
  import opened RecordMachine
  import opened RecordInvariants

  predicate Stored(c: Config, ss: seq<Shard>, k: Key)
    requires c.route(k) < |ss|
  {
    Holds(ss[c.route(k)], k)
  }

  /** The thread won the compare-and-swap for `k` and has not inserted it yet. */
  predicate Winning(p: Pc, k: Key) {
    (p.AtObserveWin? || p.AtInsert?) && p.o.call.key == k
  }

  /** Whoever holds the write lock of `k`'s shard is about to insert `k`. */
  predicate Pending(c: Config, s: State, k: Key)
    requires c.route(k) < |s.locks|
  {
    var w := s.locks[c.route(k)].writer;
    w.Some? && w.value < |s.threads| && Winning(s.threads[w.value], k)
  }

  /** The one answer `k` can get from here on. */
  function FinalEntry(order: seq<Key>, k: Key): Entry {
    NewEntry(if k in order then AttrsOf(k) else OverflowAttrs())
  }

  predicate Settled(c: Config, order: seq<Key>, k: Key) {
    k in order || |order| == c.max
  }

  /** What a thread knows at each point of `entry`. */
  ghost predicate PcOk(c: Config, ss: seq<Shard>, order: seq<Key>, p: Pc)
    requires c.Valid() && |ss| == SHARDS
  {
    match p
    case AtRUnlockHit(o, e) => Settled(c, order, o.call.key) && e == FinalEntry(order, o.call.key)
    case AtUnlock(o, e) => Settled(c, order, o.call.key) && e == FinalEntry(order, o.call.key)
    case AtEmit(o, e) => Settled(c, order, o.call.key) && e == FinalEntry(order, o.call.key)
    case AtLoad(o, fails, first) => o.call.key !in order && first + fails <= |order|
    case AtCas(o, sz, fails, first) => o.call.key !in order && first + fails <= sz <= |order| && sz < c.max
    case AtObserveMiss(o) => o.call.key !in order && |order| == c.max
    case AtObserveOverflow(o) => o.call.key !in order && |order| == c.max
    case AtObserveWin(o) => o.call.key in order && !Stored(c, ss, o.call.key)
    case AtInsert(o) => o.call.key in order && !Stored(c, ss, o.call.key)
    case _ => true
  }

  /** Every stored key sits in its shard with its own attribute set, and has a slot. */
  ghost predicate ShardsOk(c: Config, ss: seq<Shard>, order: seq<Key>) {
    && c.Valid() && |ss| == SHARDS
    && (forall i, k :: 0 <= i < SHARDS && Holds(ss[i], k) ==>
          c.route(k) == i && k in order && Lookup(ss[i], k).value == NewEntry(AttrsOf(k)))
  }

  lemma MembersOfAll(c: Config, ss: seq<Shard>, order: seq<Key>, k: Key)
    requires ShardsOk(c, ss, order)
    ensures k in AllKeys(ss) <==> Stored(c, ss, k)
  {
    AllKeysMembers(ss, k);
  }

  lemma StoredHasSlot(c: Config, ss: seq<Shard>, order: seq<Key>, k: Key)
    requires ShardsOk(c, ss, order) && k in AllKeys(ss)
    ensures k in order
  {
    AllKeysMembers(ss, k);
  }

  /** No more keys are stored than slots were given out. */
  lemma AllKeysBound(c: Config, ss: seq<Shard>, order: seq<Key>)
    requires ShardsOk(c, ss, order) && NoDup(order)
    ensures |AllKeys(ss)| <= |order|
  {
    var all := AllKeys(ss);
    forall k | k in all ensures k in order {
      StoredHasSlot(c, ss, order, k);
    }
    SetInSeqSize(all, order);
  }

  ghost predicate StoreOk(c: Config, s: State) {
    && LocksOk(c, s) && ShardsOk(c, s.shards, s.order)
    && NoDup(s.order) && s.size == |s.order| <= c.max
    && (forall k :: k in s.order ==> Stored(c, s.shards, k) || Pending(c, s, k))
    && (forall t :: 0 <= t < |s.threads| ==> PcOk(c, s.shards, s.order, s.threads[t]))
  }

  lemma StoreInit(c: Config, s: State)
    requires Init(c, s)
    ensures StoreOk(c, s)
  {
    LocksInit(c, s);
  }

  /** Two threads inside write-locked sections work on different keys. */
  lemma WritersDiffer(c: Config, s: State, t: nat, u: nat)
    requires LocksOk(c, s) && t < |s.threads| && u < |s.threads| && t != u
    requires GripOf(c, s.threads[t]).W? && GripOf(c, s.threads[u]).W?
    ensures s.threads[t].o.call.key != s.threads[u].o.call.key
  {
    WriterIsAlone(s.locks, Grips(c, s.threads), t, u);
  }

  lemma WriterHolds(c: Config, s: State, t: nat)
    requires LocksOk(c, s) && t < |s.threads| && GripOf(c, s.threads[t]).W?
    ensures s.locks[GripOf(c, s.threads[t]).i].writer == Some(t)
  {
    assert Grips(c, s.threads)[t] == GripOf(c, s.threads[t]);
  }

  /** A step that touches neither shards nor slots, made by a thread that is not about to
      insert before or after. */
  lemma QuietStep(c: Config, s: State, t: nat, s': State)
    requires StoreOk(c, s) && t < |s.threads| && Effect(c, s, t, s')
    requires s'.shards == s.shards && s'.order == s.order && s'.size == s.size
    requires PcOk(c, s.shards, s.order, s'.threads[t])
    requires forall k :: Winning(s.threads[t], k) <==> Winning(s'.threads[t], k)
    ensures StoreOk(c, s')
  {
    LocksFollow(c, s, t, s');
    forall k | k in s'.order ensures Stored(c, s'.shards, k) || Pending(c, s', k) {
      if !Stored(c, s.shards, k) {
        var w := s.locks[c.route(k)].writer.value;
        assert Winning(s'.threads[w], k);
        WriterHolds(c, s', w);
      }
    }
  }

  lemma CallStep(c: Config, s: State, t: nat)
    requires StoreOk(c, s) && t < |s.threads| && Calling(s.threads[t])
    ensures StoreOk(c, ExecCall(c, s, t))
  {
    CallEffect(c, s, t);
    QuietStep(c, s, t, ExecCall(c, s, t));
  }

  lemma ProbeStep(c: Config, s: State, t: nat)
    requires StoreOk(c, s) && Enabled(c, s, t) && Probing(s.threads[t])
    ensures StoreOk(c, ExecProbe(c, s, t))
  {
    ProbeEffect(c, s, t);
    var k := s.threads[t].o.call.key;
    if s.threads[t].AtRecheck? && !Holds(s.shards[c.route(k)], k) {
      WriterHolds(c, s, t);
    }
    QuietStep(c, s, t, ExecProbe(c, s, t));
  }

  lemma ScanStep(c: Config, s: State, t: nat)
    requires StoreOk(c, s) && Enabled(c, s, t) && Scanning(s.threads[t])
    ensures StoreOk(c, ExecScan(c, s, t))
  {
    ScanEffect(c, s, t);
    QuietStep(c, s, t, ExecScan(c, s, t));
  }

  lemma PcOkAfterWin(c: Config, ss: seq<Shard>, order: seq<Key>, p: Pc, k: Key)
    requires c.Valid() && |ss| == SHARDS && PcOk(c, ss, order, p) && |order| < c.max
    requires GripOf(c, p).W? ==> p.o.call.key != k
    ensures PcOk(c, ss, order + [k], p)
  {
  }

  lemma PendingAfterWin(c: Config, s: State, t: nat, s': State, j: Key)
    requires StoreOk(c, s) && t < |s.threads| && Effect(c, s, t, s') && LocksOk(c, s')
    requires s'.shards == s.shards && s.threads[t].AtCas?
    requires j in s.order
    ensures Stored(c, s'.shards, j) || Pending(c, s', j)
  {
    if !Stored(c, s.shards, j) {
      var w := s.locks[c.route(j)].writer.value;
      assert Winning(s'.threads[w], j);
      WriterHolds(c, s', w);
    }
  }

  /** The winning compare-and-swap. */
  lemma WinStep(c: Config, s: State, t: nat)
    requires StoreOk(c, s) && t < |s.threads| && s.threads[t].AtCas? && s.size == s.threads[t].sz
    ensures StoreOk(c, ExecReserve(c, s, t))
  {
    var s' := ExecReserve(c, s, t);
    var k := s.threads[t].o.call.key;
    ReserveEffect(c, s, t);
    LocksFollow(c, s, t, s');
    assert PcOk(c, s.shards, s.order, s.threads[t]);
    forall u | 0 <= u < |s.threads| ensures PcOk(c, s'.shards, s'.order, s'.threads[u]) {
      if u != t {
        if GripOf(c, s.threads[u]).W? {
          WritersDiffer(c, s, t, u);
        }
        PcOkAfterWin(c, s.shards, s.order, s.threads[u], k);
      }
    }
    forall j | j in s'.order ensures Stored(c, s'.shards, j) || Pending(c, s', j) {
      if j == k {
        WriterHolds(c, s', t);
      } else {
        PendingAfterWin(c, s, t, s', j);
      }
    }
  }

  /** The insertion. */
  lemma InsertStep(c: Config, s: State, t: nat)
    requires StoreOk(c, s) && t < |s.threads| && s.threads[t].AtInsert?
    ensures StoreOk(c, ExecReserve(c, s, t))
  {
    var s' := ExecReserve(c, s, t);
    ReserveEffect(c, s, t);
    LocksFollow(c, s, t, s');
    forall u | 0 <= u < |s.threads| && u != t ensures PcOk(c, s'.shards, s'.order, s'.threads[u]) {
      InsertLeavesOthers(c, s, t, u);
    }
    forall j | j in s'.order ensures Stored(c, s'.shards, j) || Pending(c, s', j) {
      InsertSettles(c, s, t, s', j);
    }
  }

  lemma InsertLeavesOthers(c: Config, s: State, t: nat, u: nat)
    requires LocksOk(c, s) && t < |s.threads| && u < |s.threads| && t != u && s.threads[t].AtInsert?
    requires PcOk(c, s.shards, s.order, s.threads[u])
    ensures PcOk(c, ExecReserve(c, s, t).shards, s.order, s.threads[u])
  {
    if GripOf(c, s.threads[u]).W? {
      WritersDiffer(c, s, t, u);
    }
  }

  lemma InsertSettles(c: Config, s: State, t: nat, s': State, j: Key)
    requires LocksOk(c, s) && t < |s.threads| && s.threads[t].AtInsert? && s' == ExecReserve(c, s, t) && LocksOk(c, s')
    requires Stored(c, s.shards, j) || Pending(c, s, j)
    ensures Stored(c, s'.shards, j) || Pending(c, s', j)
  {
    if j != s.threads[t].o.call.key && !Stored(c, s.shards, j) {
      var w := s.locks[c.route(j)].writer.value;
      assert Winning(s'.threads[w], j);
      WriterHolds(c, s', w);
    }
  }

  lemma ReserveStep(c: Config, s: State, t: nat)
    requires StoreOk(c, s) && t < |s.threads| && Reserving(s.threads[t])
    ensures StoreOk(c, ExecReserve(c, s, t))
  {
    if s.threads[t].AtCas? && s.size == s.threads[t].sz {
      WinStep(c, s, t);
    } else if s.threads[t].AtInsert? {
      InsertStep(c, s, t);
    } else {
      ReserveEffect(c, s, t);
      QuietStep(c, s, t, ExecReserve(c, s, t));
    }
  }

  lemma StoreStep(c: Config, s: State, a: Action)
    requires StoreOk(c, s) && Can(c, s, a)
    ensures StoreOk(c, Apply(c, s, a))
  {
    var s' := Apply(c, s, a);
    match a
    case Go(t) =>
      if Calling(s.threads[t]) {
        CallStep(c, s, t);
      } else if Probing(s.threads[t]) {
        ProbeStep(c, s, t);
      } else if Reserving(s.threads[t]) {
        ReserveStep(c, s, t);
      } else {
        ScanStep(c, s, t);
      }
    case AddWith(t, _) => QuietStep(c, s, t, s');
    case Add(t, _) => QuietStep(c, s, t, s');
    case Subjects(t) => QuietStep(c, s, t, s');
    case Bump =>
    case Allow(_) =>
  }
}
