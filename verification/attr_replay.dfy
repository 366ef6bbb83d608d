/** The class and the capped map side by side, over whole sequences of lookups. */
module AttrReplay {
  import opened Labels
  import opened CappedMap
  import opened AttrCaches

  /** The simple thing the cache stands for: build the attribute set on every call, but only for
      the first `cap` distinct keys. */
  function Simple(cap: nat, ks: seq<Key>, k: Key): Entry {
    EntryFor(k, if k in First(cap, Distinct(ks)) then Own else Overflow)
  }

  /** The entries are those of the capped map's answers. */
  ghost predicate Replayed(cap: nat, ks: seq<Key>, es: seq<Entry>) {
    |es| == |ks| && forall i :: 0 <= i < |ks| ==> es[i] == EntryFor(ks[i], Answers(cap, ks)[i])
  }

  lemma ReplayNext(cap: nat, ks: seq<Key>, es: seq<Entry>, k: Key)
    requires Replayed(cap, ks, es)
    ensures Run(cap, ks + [k]) == Intern(cap, Run(cap, ks), k).0
    ensures Replayed(cap, ks + [k], es + [EntryFor(k, Intern(cap, Run(cap, ks), k).1)])
  {
    assert (ks + [k])[..|ks|] == ks;
  }

  lemma ReplayIsSimple(cap: nat, ks: seq<Key>, es: seq<Entry>)
    requires Replayed(cap, ks, es)
    ensures forall i :: 0 <= i < |ks| ==> es[i] == Simple(cap, ks, ks[i])
  {
    RunIsFirstDistinct(cap, ks);
    forall i | 0 <= i < |ks| ensures es[i] == Simple(cap, ks, ks[i]) {
      OneAnswerForLife(cap, ks, i);
    }
  }

  /** One lookup on a cache with no detector and no gate. */
  method LookupPlain(cache: AttrCache, k: Key) returns (e: Entry)
    requires cache.Valid() && cache.detector == null && !cache.denyUnknown
    modifies cache, cache.shards
    ensures cache.Valid() && cache.detector == null && !cache.denyUnknown
    ensures cache.order == Intern(cache.maxEntries, old(cache.order), k).0
    ensures e == EntryFor(k, Intern(cache.maxEntries, old(cache.order), k).1)
  {
    var r := cache.LookupKey(k);
    e := r.value;
  }

  /** Any sequence of lookups on a new cache returns what the simple thing returns, although
      the simple thing decides with the whole sequence in hand. */
  method Replay(maxEntries: int, ks: seq<Key>) returns (es: seq<Entry>)
    ensures |es| == |ks| && forall i :: 0 <= i < |ks| ==> es[i] == Simple(NormMax(maxEntries), ks, ks[i])
  {
    var cache := new AttrCache(maxEntries);
    es := [];
    for i := 0 to |ks|
      invariant cache.Valid() && cache.detector == null && !cache.denyUnknown
      invariant cache.order == Run(cache.maxEntries, ks[..i]) && Replayed(cache.maxEntries, ks[..i], es)
    {
      ReplayNext(cache.maxEntries, ks[..i], es, ks[i]);
      assert ks[..i + 1] == ks[..i] + [ks[i]];
      var e := LookupPlain(cache, ks[i]);
      es := es + [e];
    }
    assert ks[..|ks|] == ks;
    ReplayIsSimple(NormMax(maxEntries), ks, es);
  }
}
