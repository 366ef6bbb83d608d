/** One shard of the attribute cache: a map for each key arity. */
module Shards {
  import opened Labels

  datatype DuoKey = DuoKey(a: Label, b: Label)

  datatype TrioKey = TrioKey(a: Label, b: Label, c: Label)

  datatype Shard = Shard(cache: map<Label, Entry>, cache2: map<DuoKey, Entry>, cache3: map<TrioKey, Entry>)

  const EMPTY_SHARD: Shard := Shard(map[], map[], map[])

  function Lookup(s: Shard, k: Key): (r: Option<Entry>) {
    match k
    case One(a) => if a in s.cache then Some(s.cache[a]) else None
    case Two(a, b) => if DuoKey(a, b) in s.cache2 then Some(s.cache2[DuoKey(a, b)]) else None
    case Three(a, b, c) => if TrioKey(a, b, c) in s.cache3 then Some(s.cache3[TrioKey(a, b, c)]) else None
  }

  predicate Holds(s: Shard, k: Key) {
    Lookup(s, k).Some?
  }

  function Put(s: Shard, k: Key, e: Entry): (r: Shard)
    ensures Lookup(r, k) == Some(e)
    ensures forall j :: j != k ==> Lookup(r, j) == Lookup(s, j)
  {
    match k
    case One(a) => s.(cache := s.cache[a := e])
    case Two(a, b) => s.(cache2 := s.cache2[DuoKey(a, b) := e])
    case Three(a, b, c) => s.(cache3 := s.cache3[TrioKey(a, b, c) := e])
  }

  function Ones(ds: set<Label>): (r: set<Key>)
    ensures forall k :: k in r <==> k.One? && k.a in ds
  {
    set a | a in ds :: One(a)
  }

  function Twos(ds: set<DuoKey>): (r: set<Key>)
    ensures forall k :: k in r <==> k.Two? && DuoKey(k.a, k.b) in ds
  {
    set d | d in ds :: Two(d.a, d.b)
  }

  function Threes(ds: set<TrioKey>): (r: set<Key>)
    ensures forall k :: k in r <==> k.Three? && TrioKey(k.a, k.b, k.c) in ds
  {
    set t | t in ds :: Three(t.a, t.b, t.c)
  }

  function KeySet(s: Shard): set<Key> {
    Ones(s.cache.Keys) + Twos(s.cache2.Keys) + Threes(s.cache3.Keys)
  }

  function Entries(s: Shard): nat {
    |s.cache| + |s.cache2| + |s.cache3|
  }

  lemma {:induction false} OnesSize(ds: set<Label>)
    ensures |Ones(ds)| == |ds|
  {
    if d :| d in ds {
      OnesSize(ds - {d});
      assert Ones(ds) == Ones(ds - {d}) + {One(d)};
    }
  }

  lemma {:induction false} TwosSize(ds: set<DuoKey>)
    ensures |Twos(ds)| == |ds|
  {
    if d :| d in ds {
      TwosSize(ds - {d});
      assert Twos(ds) == Twos(ds - {d}) + {Two(d.a, d.b)};
    }
  }

  lemma {:induction false} ThreesSize(ds: set<TrioKey>)
    ensures |Threes(ds)| == |ds|
  {
    if d :| d in ds {
      ThreesSize(ds - {d});
      assert Threes(ds) == Threes(ds - {d}) + {Three(d.a, d.b, d.c)};
    }
  }

  lemma KeySetMembers(s: Shard, k: Key)
    ensures k in KeySet(s) <==> Holds(s, k)
  {
  }

  lemma AritiesApart(a: set<Label>, b: set<DuoKey>, c: set<TrioKey>)
    ensures Ones(a) !! Twos(b) && (Ones(a) + Twos(b)) !! Threes(c)
  {
  }

  /** The three maps hold as many entries as there are keys, one entry a key. */
  lemma KeySetIsExact(s: Shard)
    ensures forall k :: k in KeySet(s) <==> Holds(s, k)
    ensures |KeySet(s)| == Entries(s)
  {
    forall k ensures k in KeySet(s) <==> Holds(s, k) {
      KeySetMembers(s, k);
    }
    KeySetSize(s.cache.Keys, s.cache2.Keys, s.cache3.Keys);
  }

  lemma KeySetSize(a: set<Label>, b: set<DuoKey>, c: set<TrioKey>)
    ensures |Ones(a) + Twos(b) + Threes(c)| == |a| + |b| + |c|
  {
    OnesSize(a);
    TwosSize(b);
    ThreesSize(c);
    AritiesApart(a, b, c);
    UnionSize(Ones(a), Twos(b), Threes(c));
  }

  function AllKeys(ss: seq<Shard>): set<Key> {
    if ss == [] then {} else AllKeys(ss[..|ss| - 1]) + KeySet(ss[|ss| - 1])
  }

  function TotalEntries(ss: seq<Shard>): nat {
    if ss == [] then 0 else TotalEntries(ss[..|ss| - 1]) + Entries(ss[|ss| - 1])
  }

  lemma {:induction false} TotalEntriesUpdate(ss: seq<Shard>, i: nat, s: Shard)
    requires i < |ss|
    ensures TotalEntries(ss[i := s]) == TotalEntries(ss) - Entries(ss[i]) + Entries(s)
  {
    var n := |ss| - 1;
    if i < n {
      TotalEntriesUpdate(ss[..n], i, s);
      assert ss[i := s][..n] == ss[..n][i := s];
    } else {
      assert ss[i := s][..n] == ss[..n];
    }
  }

  lemma PutAddsOne(s: Shard, k: Key, e: Entry)
    requires !Holds(s, k)
    ensures Entries(Put(s, k, e)) == Entries(s) + 1
  {
  }

  lemma {:induction false} TotalEntriesEmpty(ss: seq<Shard>)
    requires forall i :: 0 <= i < |ss| ==> ss[i] == EMPTY_SHARD
    ensures TotalEntries(ss) == 0
  {
    if ss != [] {
      TotalEntriesEmpty(ss[..|ss| - 1]);
    }
  }

  /** A key is found in some shard. */
  predicate HeldBy(ss: seq<Shard>, k: Key) {
    exists i :: 0 <= i < |ss| && Holds(ss[i], k)
  }

  /** No key is held by two shards. */
  ghost predicate Disjoint(ss: seq<Shard>) {
    forall i, j, k :: 0 <= i < |ss| && 0 <= j < |ss| && Holds(ss[i], k) && Holds(ss[j], k) ==> i == j
  }

  lemma HeldByLast(p: seq<Shard>, s: Shard, k: Key)
    ensures HeldBy(p + [s], k) <==> HeldBy(p, k) || Holds(s, k)
  {
    var ss := p + [s];
    if i :| 0 <= i < |p| && Holds(p[i], k) {
      assert Holds(ss[i], k);
    }
    if Holds(s, k) {
      assert Holds(ss[|p|], k);
    }
    if i :| 0 <= i < |ss| && Holds(ss[i], k) && i < |p| {
      assert Holds(p[i], k);
    }
  }

  lemma {:induction false} AllKeysMembers(ss: seq<Shard>, k: Key)
    ensures k in AllKeys(ss) <==> HeldBy(ss, k)
  {
    if ss != [] {
      var n := |ss| - 1;
      AllKeysMembers(ss[..n], k);
      KeySetMembers(ss[n], k);
      assert ss == ss[..n] + [ss[n]];
      HeldByLast(ss[..n], ss[n], k);
    }
  }

  lemma LastIsApart(ss: seq<Shard>)
    requires Disjoint(ss) && ss != []
    ensures AllKeys(ss[..|ss| - 1]) !! KeySet(ss[|ss| - 1])
  {
    var n := |ss| - 1;
    forall k | k in AllKeys(ss[..n]) ensures k !in KeySet(ss[n]) {
      AllKeysMembers(ss[..n], k);
      KeySetMembers(ss[n], k);
    }
  }

  /** When no key is held by two shards, the entries of all maps together are counted by
      the set of keys they hold. */
  lemma {:induction false} AllKeysSize(ss: seq<Shard>)
    requires Disjoint(ss)
    ensures |AllKeys(ss)| == TotalEntries(ss)
  {
    if ss != [] {
      var n := |ss| - 1;
      AllKeysSize(ss[..n]);
      KeySetIsExact(ss[n]);
      LastIsApart(ss);
    }
  }
}
