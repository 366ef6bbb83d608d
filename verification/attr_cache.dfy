/** The attribute cache and the cardinality detector, as the sequential objects they are
    when one goroutine runs at a time. RecordMachine has their interleavings. */
module AttrCaches {
  import opened Arith
  import opened Labels
  import opened Fnv
  import opened Shards
  import opened CappedMap

  /** `diagnosticInterval` is in nanoseconds. */
  datatype Settings = Settings(maxCardinality: int, maxInstruments: int, diagnosticInterval: int,
                               warnUtilizationPct: int, enable: bool, denyUnknown: bool)

  datatype Snapshot = Snapshot(missEvents: nat, overflowEvents: nat, deniedEvents: nat, subjects: seq<Label>,
                               cacheEntries: nat, maxCardinality: int, utilizationPct: int,
                               warnUtilizationPct: int, instruments: nat, maxInstruments: int, denyUnknown: bool)

  /** Fill of a cache in whole percent; 0 when there is no positive cap. */
  function Utilization(entries: nat, cap: int): int {
    if cap > 0 then entries * 100 / cap else 0
  }

  /** A quotient is at least `q` exactly when the dividend is at least `q` divisors. */
  lemma QuotientAtLeast(n: nat, cap: nat, q: nat)
    requires cap > 0
    ensures n / cap >= q <==> n >= cap * q
  {
    var d := n / cap;
    assert n == cap * d + n % cap;
    if d < q {
      MulMono(cap, d + 1, q);
    } else {
      MulMono(cap, q, d);
    }
  }

  /** The percentage of a cache within its cap stays in 0..100, never falls as the cache
      grows, and is 100 exactly when the cache is full. */
  lemma UtilizationBounds(entries: nat, more: nat, cap: nat)
    requires entries <= more <= cap && cap > 0
    ensures 0 <= Utilization(entries, cap) <= Utilization(more, cap) <= 100
    ensures Utilization(more, cap) == 100 <==> more == cap
  {
    QuotientAtLeast(entries * 100, cap, entries * 100 / cap);
    QuotientAtLeast(more * 100, cap, entries * 100 / cap);
    QuotientAtLeast(more * 100, cap, 100);
    QuotientAtLeast(more * 100, cap, 101);
  }

  /** In between it is the percentage rounded down. */
  lemma UtilizationRoundsDown(entries: nat, cap: nat)
    requires cap > 0
    ensures var u := Utilization(entries, cap); u * cap <= 100 * entries < (u + 1) * cap
  {
    QuotientAtLeast(entries * 100, cap, entries * 100 / cap);
    QuotientAtLeast(entries * 100, cap, entries * 100 / cap + 1);
  }

  class CardinalityDetector {
    const cfg: Settings
    const cache: AttrCache?
    var records: nat
    var overflows: nat
    var denied: nat

    constructor (cfg: Settings, cache: AttrCache?)
      ensures this.cache == cache && records == overflows == denied == 0
      ensures this.cfg.maxCardinality == NormMax(cfg.maxCardinality)
      ensures this.cfg.maxInstruments == NormInstruments(cfg.maxInstruments)
      ensures this.cfg.diagnosticInterval > 0
      ensures cfg.diagnosticInterval > 0 ==> this.cfg.diagnosticInterval == cfg.diagnosticInterval
      ensures cfg.diagnosticInterval <= 0 ==> this.cfg.diagnosticInterval == DEFAULT_DIAGNOSTIC_INTERVAL
      ensures 0 <= this.cfg.warnUtilizationPct <= 100
      ensures 0 <= cfg.warnUtilizationPct <= 100 ==> this.cfg.warnUtilizationPct == cfg.warnUtilizationPct
      ensures cfg.warnUtilizationPct < 0 ==> this.cfg.warnUtilizationPct == 0
      ensures cfg.warnUtilizationPct > 100 ==> this.cfg.warnUtilizationPct == 100
      ensures this.cfg.enable == cfg.enable && this.cfg.denyUnknown == cfg.denyUnknown
    {
      var interval := cfg.diagnosticInterval;
      if interval <= 0 {
        interval := DEFAULT_DIAGNOSTIC_INTERVAL;
      }
      var warnPct := cfg.warnUtilizationPct;
      if warnPct < 0 {
        warnPct := 0;
      }
      if warnPct > 100 {
        warnPct := 100;
      }
      this.cfg := Settings(NormMax(cfg.maxCardinality), NormInstruments(cfg.maxInstruments),
                           interval, warnPct, cfg.enable, cfg.denyUnknown);
      this.cache := cache;
      records, overflows, denied := 0, 0, 0;
    }

    method ObserveMiss(overflow: bool)
      modifies this`records, this`overflows
      ensures records == old(records) + if cfg.enable then 1 else 0
      ensures overflows == old(overflows) + if cfg.enable && overflow then 1 else 0
    {
      if !cfg.enable {
        return;
      }
      records := records + 1;
      if overflow {
        overflows := overflows + 1;
      }
    }

    method ObserveDenied()
      modifies this`denied
      ensures denied == old(denied) + if cfg.enable then 1 else 0
    {
      if !cfg.enable {
        return;
      }
      denied := denied + 1;
    }

    /** `Snapshot`: fill of the cache against the detector's own cap. */
    method TakeSnapshot(instruments: nat, maxInstruments: int) returns (snap: Snapshot)
      requires cache != null ==> cache.Valid()
      ensures snap.cacheEntries == if cache == null then 0 else cache.size
      ensures snap.maxCardinality == cfg.maxCardinality
      ensures snap.utilizationPct == Utilization(snap.cacheEntries, cfg.maxCardinality)
      ensures snap.missEvents == records && snap.overflowEvents == overflows && snap.deniedEvents == denied
      ensures snap.instruments == instruments && snap.maxInstruments == maxInstruments
      ensures snap.warnUtilizationPct == cfg.warnUtilizationPct
      ensures |snap.subjects| == snap.cacheEntries
      ensures cache != null ==> multiset(snap.subjects) == multiset(Joins(cache.order))
      ensures snap.denyUnknown <==> cfg.denyUnknown || (cache != null && cache.denyUnknown)
    {
      var entries: nat := 0;
      var subjects: seq<Label> := [];
      var deny := false;
      if cache != null {
        entries := cache.size;
        subjects := cache.Subjects();
        deny := cache.denyUnknown;
      }
      snap := Snapshot(records, overflows, denied, subjects, entries, cfg.maxCardinality,
                       Utilization(entries, cfg.maxCardinality), cfg.warnUtilizationPct,
                       instruments, maxInstruments, deny || cfg.denyUnknown);
    }
  }

  /** Labels the deny gate lets through: empty or registered. */
  predicate LabelsAllowed(ls: seq<Label>, allowed: Option<set<Label>>) {
    && allowed.Some? && allowed.value != {}
    && forall i :: 0 <= i < |ls| ==> ls[i] == [] || ls[i] in allowed.value
  }

  /** Every key sits in the shard its hash selects, with its own attribute set; the keys
      held are exactly those of `order`. */
  ghost predicate Routed(ss: seq<Shard>, order: seq<Key>) {
    && |ss| == SHARDS
    && (forall i, k :: 0 <= i < SHARDS && Holds(ss[i], k) ==> ShardOf(k) == i && Lookup(ss[i], k).value == NewEntry(AttrsOf(k)))
    && (forall k :: Holds(ss[ShardOf(k)], k) <==> k in order)
  }

  lemma PutLookup(s: Shard, k: Key, e: Entry, j: Key)
    ensures Lookup(Put(s, k, e), j) == if j == k then Some(e) else Lookup(s, j)
  {
  }

  lemma PutRouted(ss: seq<Shard>, order: seq<Key>, k: Key)
    requires Routed(ss, order)
    ensures Routed(ss[ShardOf(k) := Put(ss[ShardOf(k)], k, NewEntry(AttrsOf(k)))], order + [k])
  {
    var h := ShardOf(k);
    var e := NewEntry(AttrsOf(k));
    var tt := ss[h := Put(ss[h], k, e)];
    forall i, j | 0 <= i < SHARDS && Holds(tt[i], j)
      ensures ShardOf(j) == i && Lookup(tt[i], j).value == NewEntry(AttrsOf(j))
    {
      PutLookup(ss[h], k, e, j);
      assert Holds(ss[i], j) || (i == h && j == k);
    }
    forall j ensures Holds(tt[ShardOf(j)], j) <==> j in order + [k] {
      PutLookup(ss[h], k, e, j);
      assert Holds(ss[ShardOf(j)], j) <==> j in order;
    }
  }

  method ShardIndex(subject: Label) returns (idx: nat)
    ensures idx == ShardOf(One(subject))
  {
    var h := Fnv32aString(subject);
    idx := (h % 16) as nat;
  }

  method ShardIndex2(a: Label, b: Label) returns (idx: nat)
    ensures idx == ShardOf(Two(a, b))
  {
    var g := Fnv32aString(a);
    var h := Fnv32aString(b);
    idx := ((g ^ h) % 16) as nat;
  }

  method ShardIndex3(a: Label, b: Label, c: Label) returns (idx: nat)
    ensures idx == ShardOf(Three(a, b, c))
  {
    var f := Fnv32aString(a);
    var g := Fnv32aString(b);
    var h := Fnv32aString(c);
    idx := ((f ^ g ^ h) % 16) as nat;
  }

  class AttrCache {
    var detector: CardinalityDetector?
    var allowed: Option<set<Label>>
    var denyOnce: set<Label>
    var overflow: Entry
    var overflowDone: bool
    const shards: array<Shard>
    const maxEntries: nat
    var size: nat
    var denyUnknown: bool
    /** The keys that got a slot, in the order they got it. */
    ghost var order: seq<Key>

    ghost predicate Valid()
      reads this, shards
    {
      && shards.Length == SHARDS && maxEntries > 0
      && Routed(shards[..], order)
      && NoDup(order) && size == |order| <= maxEntries
      && (overflowDone ==> overflow == NewEntry(OverflowAttrs()))
    }

    ghost function Footprint(): set<object>
      reads this
    {
      {this, shards} + if detector == null then {} else {detector}
    }

    /** With an enabled detector attached from the start, every miss is accounted for. */
    ghost predicate Accounted()
      reads this, if detector == null then {} else {detector}
    {
      detector != null && detector.cfg.enable ==> detector.records == size + detector.overflows
    }

    constructor (maxEntries: int)
      ensures Valid() && fresh(shards) && this.maxEntries == NormMax(maxEntries)
      ensures order == [] && detector == null && allowed == None && denyOnce == {} && !denyUnknown
    {
      this.maxEntries := NormMax(maxEntries);
      shards := new Shard[16](_ => EMPTY_SHARD);
      detector, allowed, denyOnce, overflowDone, size, denyUnknown := null, None, {}, false, 0, false;
      overflow := NewEntry(map[]);
      order := [];
    }

    method SetDetector(d: CardinalityDetector?)
      modifies this`detector
      ensures detector == d
    {
      detector := d;
    }

    method SetDenyUnknown(deny: bool)
      modifies this`denyUnknown
      ensures denyUnknown == deny
    {
      denyUnknown := deny;
    }

    method Allow(labels: seq<Label>)
      modifies this`allowed
      ensures labels == [] ==> allowed == old(allowed)
      ensures labels != [] ==> allowed.Some?
      ensures labels != [] ==>
                forall l :: l in allowed.value <==> (l in labels && l != []) || (old(allowed).Some? && l in old(allowed).value)
    {
      if |labels| == 0 {
        return;
      }
      var prev := if allowed.Some? then allowed.value else {};
      var next := prev;
      for i := 0 to |labels|
        invariant forall l :: l in next <==> (l in labels[..i] && l != []) || l in prev
      {
        assert labels[..i + 1] == labels[..i] + [labels[i]];
        if labels[i] != [] {
          next := next + {labels[i]};
        }
      }
      assert labels[..|labels|] == labels;
      allowed := Some(next);
    }

    method IsAllowed(labels: seq<Label>) returns (ok: bool)
      ensures ok <==> !denyUnknown || LabelsAllowed(labels, allowed)
      ensures ok <==> !denyUnknown || (allowed.Some? && allowed.value != {}
                                       && forall i :: 0 <= i < |labels| ==> labels[i] == [] || labels[i] in allowed.value)
    {
      if !denyUnknown {
        return true;
      }
      if allowed.None? || |allowed.value| == 0 {
        return false;
      }
      for i := 0 to |labels|
        invariant forall j :: 0 <= j < i ==> labels[j] == [] || labels[j] in allowed.value
      {
        if labels[i] != [] && labels[i] !in allowed.value {
          return false;
        }
      }
      return true;
    }

    /** Counts a rejected label string the first time it is seen. */
    method NoteDenied(joined: Label)
      modifies this`denyOnce, if detector == null then {} else {detector}
      ensures denyOnce == old(denyOnce) + {joined}
      ensures |denyOnce| == |old(denyOnce)| + if joined in old(denyOnce) then 0 else 1
      ensures detector != null ==> unchanged(detector`records) && unchanged(detector`overflows)
      ensures detector != null ==>
                detector.denied == old(detector.denied) + (if joined !in old(denyOnce) && detector.cfg.enable then 1 else 0)
    {
      var loaded := joined in denyOnce;
      assert loaded ==> denyOnce + {joined} == denyOnce;
      denyOnce := denyOnce + {joined};
      if loaded {
        return;
      }
      if detector != null {
        detector.ObserveDenied();
      }
    }

    method ReserveSlot() returns (ok: bool)
      modifies this`size, if detector == null then {} else {detector}
      ensures ok <==> old(size) < maxEntries
      ensures size == old(size) + if ok then 1 else 0
      ensures detector != null ==> unchanged(detector`denied)
      ensures detector != null ==> detector.records == old(detector.records) + if detector.cfg.enable then 1 else 0
      ensures detector != null ==> detector.overflows == old(detector.overflows) + if detector.cfg.enable && !ok then 1 else 0
    {
      if size >= maxEntries {
        if detector != null {
          detector.ObserveMiss(true);
        }
        return false;
      }
      size := size + 1;
      if detector != null {
        detector.ObserveMiss(false);
      }
      return true;
    }

    method OverflowEntry() returns (e: Entry)
      requires overflowDone ==> overflow == NewEntry(OverflowAttrs())
      modifies this`overflow, this`overflowDone
      ensures e == overflow == NewEntry(OverflowAttrs()) && overflowDone
      ensures e.attrs.Keys == {SUBJECT} && e.attrs[SUBJECT] == OVERFLOW_SUBJECT
      ensures e.addOpts == [e.attrs] && e.recordOpts == [e.attrs]
    {
      if !overflowDone {
        overflow := NewEntry(OverflowAttrs());
        overflowDone := true;
      }
      e := overflow;
    }

    /** The write to the map at the end of the three entry methods. */
    method Insert(idx: nat, k: Key) returns (e: Entry)
      requires Routed(shards[..], order) && idx == ShardOf(k)
      modifies shards, `order
      ensures Routed(shards[..], order) && order == old(order) + [k] && e == NewEntry(AttrsOf(k))
    {
      e := NewEntry(AttrsOf(k));
      PutRouted(shards[..], order, k);
      ghost var ss := shards[..];
      shards[idx] := Put(shards[idx], k, e);
      assert shards[..] == ss[idx := Put(ss[idx], k, e)];
      order := order + [k];
    }

    /** What the three entry methods do from `reserveSlot` on; their texts differ only in the key. */
    method Miss(idx: nat, k: Key) returns (e: Entry)
      requires Valid() && idx == ShardOf(k) && k !in order
      modifies Footprint()
      ensures Interned(k, e)
    {
      var reserved := ReserveSlot();
      if !reserved {
        e := OverflowEntry();
        return;
      }
      e := Insert(idx, k);
    }

    /** What one lookup of `k` that returned `e` did: one step of the capped map. */
    twostate predicate Interned(k: Key, e: Entry)
      reads this, shards, if detector == null then {} else {detector}
    {
      && Valid()
      && unchanged(`detector) && unchanged(`allowed) && unchanged(`denyOnce) && unchanged(`denyUnknown)
      && order == Intern(maxEntries, old(order), k).0
      && e == EntryFor(k, Intern(maxEntries, old(order), k).1)
      && (detector != null ==>
            && detector.denied == old(detector.denied)
            && detector.records == old(detector.records) + (if detector.cfg.enable && k !in old(order) then 1 else 0)
            && detector.overflows == old(detector.overflows)
                 + (if detector.cfg.enable && Intern(maxEntries, old(order), k).1.Overflow? then 1 else 0))
    }

    // With one goroutine the second probe, made after the write lock is taken, repeats the
    // first; RecordMachine has both.

    method EntryOne(subject: Label) returns (e: Entry)
      requires Valid()
      modifies Footprint()
      ensures Interned(One(subject), e)
      ensures e.addOpts == [e.attrs] && e.recordOpts == [e.attrs]
      ensures if old(One(subject) in order || |order| < maxEntries)
              then e.attrs.Keys == {SUBJECT} && e.attrs[SUBJECT] == subject
              else e.attrs.Keys == {SUBJECT} && e.attrs[SUBJECT] == OVERFLOW_SUBJECT
    {
      var k := One(subject);
      AttrsName(k);
      var idx := ShardIndex(subject);
      assert Holds(shards[idx], k) <==> k in order;
      if subject in shards[idx].cache {
        return shards[idx].cache[subject];
      }
      e := Miss(idx, k);
    }

    method EntryTwo(a: Label, b: Label) returns (e: Entry)
      requires Valid()
      modifies Footprint()
      ensures Interned(Two(a, b), e)
      ensures e.addOpts == [e.attrs] && e.recordOpts == [e.attrs]
      ensures if old(Two(a, b) in order || |order| < maxEntries)
              then e.attrs.Keys == {SUBJECT, STATUS} && e.attrs[SUBJECT] == a && e.attrs[STATUS] == b
              else e.attrs.Keys == {SUBJECT} && e.attrs[SUBJECT] == OVERFLOW_SUBJECT
    {
      var k := Two(a, b);
      AttrsName(k);
      var idx := ShardIndex2(a, b);
      assert Holds(shards[idx], k) <==> k in order;
      if DuoKey(a, b) in shards[idx].cache2 {
        return shards[idx].cache2[DuoKey(a, b)];
      }
      e := Miss(idx, k);
    }

    method EntryThree(a: Label, b: Label, c: Label) returns (e: Entry)
      requires Valid()
      modifies Footprint()
      ensures Interned(Three(a, b, c), e)
      ensures e.addOpts == [e.attrs] && e.recordOpts == [e.attrs]
      ensures if old(Three(a, b, c) in order || |order| < maxEntries)
              then e.attrs.Keys == {SUBJECT, STATUS, CONSUMER} && e.attrs[SUBJECT] == a && e.attrs[STATUS] == b && e.attrs[CONSUMER] == c
              else e.attrs.Keys == {SUBJECT} && e.attrs[SUBJECT] == OVERFLOW_SUBJECT
    {
      var k := Three(a, b, c);
      AttrsName(k);
      var idx := ShardIndex3(a, b, c);
      assert Holds(shards[idx], k) <==> k in order;
      if TrioKey(a, b, c) in shards[idx].cache3 {
        return shards[idx].cache3[TrioKey(a, b, c)];
      }
      e := Miss(idx, k);
    }

    /** `lookup`, `lookup2`, `lookup3`: the deny gate in front of the three entry methods. */
    method LookupKey(k: Key) returns (r: Option<Entry>)
      requires Valid()
      modifies Footprint()
      ensures Valid() && unchanged(`detector) && unchanged(`allowed) && unchanged(`denyUnknown)
      ensures r.None? <==> denyUnknown && !LabelsAllowed(k.Parts(), allowed)
      ensures r.Some? <==> !denyUnknown || (allowed.Some? && allowed.value != {}
                                            && forall l :: l in k.Parts() ==> l == [] || l in allowed.value)
      ensures r.None? ==> order == old(order) && unchanged(`size) && unchanged(shards)
      ensures r.None? ==> denyOnce == old(denyOnce) + {Join(k)}
      ensures r.Some? ==> order == Intern(maxEntries, old(order), k).0
      ensures r.Some? ==> r.value == EntryFor(k, Intern(maxEntries, old(order), k).1) && unchanged(`denyOnce)
      ensures r.Some? ==> r.value.addOpts == [r.value.attrs] && r.value.recordOpts == [r.value.attrs]
      ensures r.Some? ==> if old(k in order || |order| < maxEntries) then Labelled(r.value.attrs, k)
                          else LabelledOverflow(r.value.attrs)
      ensures old(Accounted()) ==> Accounted()
      ensures detector != null && detector.cfg.enable ==>
                detector.denied - |denyOnce| == old(detector.denied) - |old(denyOnce)|
      ensures detector != null && r.None? ==> unchanged(detector`records) && unchanged(detector`overflows)
      ensures detector != null && r.Some? ==>
                && detector.records == old(detector.records) + (if detector.cfg.enable && k !in old(order) then 1 else 0)
                && detector.overflows == old(detector.overflows)
                     + (if detector.cfg.enable && Intern(maxEntries, old(order), k).1.Overflow? then 1 else 0)
    {
      var ok := IsAllowed(k.Parts());
      if !ok {
        NoteDenied(Join(k));
        return None;
      }
      AttrsName(k);
      var e := EntryOf(k);
      r := Some(e);
    }

    /** The entry method of the key's arity. */
    method EntryOf(k: Key) returns (e: Entry)
      requires Valid()
      modifies Footprint()
      ensures Interned(k, e)
    {
      match k {
        case One(a) => e := EntryOne(a);
        case Two(a, b) => e := EntryTwo(a, b);
        case Three(a, b, c) => e := EntryThree(a, b, c);
      }
    }

    /** `Subjects`: the labels of everything cached, shard by shard. */
    method Subjects() returns (out: seq<Label>)
      requires Valid()
      ensures multiset(out) == multiset(Joins(order)) && |out| == size
    {
      out := [];
      ghost var ks: seq<Key> := [];
      ghost var ss := shards[..];
      for i := 0 to SHARDS
        invariant WalkedAs(ss, i, ks, out)
      {
        ghost var keys;
        var part;
        part, keys := ShardSubjects(shards[i]);
        WalkOn(ss, order, i, ks, out, keys, part);
        out, ks := out + part, ks + keys;
      }
      WalkEnds(ss, order, ks);
      JoinsPermute(ks, order);
    }
  }

  /** The key is held by one of the first `n` shards. */
  ghost predicate Before(ss: seq<Shard>, n: nat, k: Key)
    requires |ss| == SHARDS
  {
    ShardOf(k) < n && Holds(ss[ShardOf(k)], k)
  }

  /** The keys are those of the first `n` shards, each once. */
  ghost predicate Walked(ss: seq<Shard>, n: nat, ks: seq<Key>)
    requires |ss| == SHARDS
  {
    NoDup(ks) && forall k :: k in ks <==> Before(ss, n, k)
  }

  /** And their strings are listed in the same order. */
  ghost predicate WalkedAs(ss: seq<Shard>, n: nat, ks: seq<Key>, out: seq<Label>)
    requires |ss| == SHARDS
  {
    Walked(ss, n, ks) && out == Joins(ks)
  }

  lemma WalkOn(ss: seq<Shard>, order: seq<Key>, i: nat, ks: seq<Key>, out: seq<Label>, keys: seq<Key>, part: seq<Label>)
    requires Routed(ss, order) && i < SHARDS && WalkedAs(ss, i, ks, out) && part == Joins(keys)
    requires NoDup(keys) && forall k :: k in keys <==> Holds(ss[i], k)
    ensures WalkedAs(ss, i + 1, ks + keys, out + part)
  {
    NextShard(ss, order, i, ks, keys);
    assert Joins(ks + keys) == out + part;
  }

  lemma WalkEnds(ss: seq<Shard>, order: seq<Key>, ks: seq<Key>)
    requires Routed(ss, order) && NoDup(order) && Walked(ss, SHARDS, ks)
    ensures |ks| == |order| && multiset(ks) == multiset(order)
  {
    forall k ensures k in ks <==> k in order {
      assert Before(ss, SHARDS, k) <==> k in order;
    }
    SameElementsSameLength(ks, order);
    SameElementsSameMultiset(ks, order);
  }

  lemma NextShard(ss: seq<Shard>, order: seq<Key>, i: nat, ks: seq<Key>, keys: seq<Key>)
    requires Routed(ss, order) && i < SHARDS
    requires Walked(ss, i, ks)
    requires NoDup(keys) && forall k :: k in keys <==> Holds(ss[i], k)
    ensures Walked(ss, i + 1, ks + keys)
  {
    forall k | k in keys ensures k !in ks && ShardOf(k) == i {
      assert Holds(ss[i], k);
    }
    NoDupAppend(ks, keys);
    forall k ensures k in ks + keys <==> Before(ss, i + 1, k) {
      assert Before(ss, i + 1, k) <==> Before(ss, i, k) || (ShardOf(k) == i && Holds(ss[i], k));
      assert Holds(ss[i], k) ==> ShardOf(k) == i;
    }
  }

  /** The keys of `all` still to come are `left`; the others are listed, each once. */
  ghost predicate Listed(all: set<Key>, left: set<Key>, ks: seq<Key>) {
    NoDup(ks) && left <= all && forall k :: k in ks <==> k in all && k !in left
  }

  lemma ListNext(all: set<Key>, left: set<Key>, ks: seq<Key>, k: Key)
    requires Listed(all, left, ks) && k in left
    ensures Listed(all, left - {k}, ks + [k])
  {
    NoDupAppend(ks, [k]);
  }

  method ShardSubjects(s: Shard) returns (out: seq<Label>, ghost ks: seq<Key>)
    ensures out == Joins(ks)
    ensures NoDup(ks) && forall k :: k in ks <==> Holds(s, k)
  {
    var keys := KeySet(s);
    KeySetIsExact(s);
    ghost var all := keys;
    out, ks := [], [];
    while keys != {}
      invariant out == Joins(ks) && Listed(all, keys, ks)
      decreases keys
    {
      var k :| k in keys;
      ListNext(all, keys, ks, k);
      assert Joins(ks + [k]) == out + [Join(k)];
      out, ks := out + [Join(k)], ks + [k];
      keys := keys - {k};
    }
  }
}
