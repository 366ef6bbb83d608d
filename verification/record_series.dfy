/** The series a registry's meter ends up with, over whole runs. */
module RecordSeries {
  import opened Arith
  import opened Labels
  import opened RecordMachine
  import opened RecordStore
  import opened RecordLinear
  import opened RecordMeter

  /** All amounts for one label tuple through one handle are sent with the same options. */
  lemma NeverSplit(c: Config, tr: seq<State>, acts: seq<Action>, i: nat, m: nat, n: nat)
    requires IsRun(c, tr, acts) && i < |tr| && m < |tr[i].meter| && n < |tr[i].meter|
    requires tr[i].meter[m].call.key == tr[i].meter[n].call.key
    requires tr[i].meter[m].call.base == tr[i].meter[n].call.base
    ensures tr[i].meter[m].opts == tr[i].meter[n].opts
  {
    SeriesRun(c, tr, acts, i);
    assert EmissionOk(c, tr[i].order, tr[i].meter[m]) && EmissionOk(c, tr[i].order, tr[i].meter[n]);
  }

  /** Through a handle without WithAttrs, two label tuples share a series exactly when they
      are equal, or both all empty, or both sent to overflow; and the key "_overflow", even
      when it has a slot, shares the overflow series. */
  lemma SharedSeries(order: seq<Key>, a: Call, b: Call)
    requires a.base == b.base == []
    ensures OptsFor(order, a) == OptsFor(order, b) <==>
              || a.key == b.key
              || (a.key.AllEmpty() && b.key.AllEmpty())
              || (ToOverflow(order, a.key) && ToOverflow(order, b.key))
  {
    AttrsTellKeysApart(a.key, b.key);
    AttrsTellKeysApart(b.key, a.key);
    assert One(OVERFLOW_SUBJECT).Parts()[0] == OVERFLOW_SUBJECT;
    if OptsFor(order, a) == OptsFor(order, b) && !a.key.AllEmpty() && !b.key.AllEmpty() {
      assert OptsFor(order, a)[0] == OptsFor(order, b)[0];
    }
  }

  predicate ToOverflow(order: seq<Key>, k: Key) {
    !k.AllEmpty() && (k !in order || k == One(OVERFLOW_SUBJECT))
  }

  // ----- cardinality -----

  function OptsOfKeys(order: seq<Key>): set<seq<AttrSet>> {
    set k | k in order :: [AttrsOf(k)]
  }

  /** Everything a handle without WithAttrs can be sent with: no options, the overflow set,
      or the set of an interned key. */
  function SeriesOf(order: seq<Key>): set<seq<AttrSet>> {
    {[], [OverflowAttrs()]} + OptsOfKeys(order)
  }

  lemma {:induction false} OptsOfKeysSize(order: seq<Key>)
    ensures |OptsOfKeys(order)| <= |order|
  {
    if order != [] {
      var p, k := order[..|order| - 1], order[|order| - 1];
      OptsOfKeysSize(p);
      assert order == p + [k];
      assert OptsOfKeys(order) == OptsOfKeys(p) + {[AttrsOf(k)]};
    }
  }

  lemma SeriesOfSize(order: seq<Key>)
    ensures |SeriesOf(order)| <= |order| + 2
  {
    OptsOfKeysSize(order);
    var two: set<seq<AttrSet>> := {[], [OverflowAttrs()]};
    assert |two| <= 2;
  }

  /** The option lists handles without WithAttrs were sent with. */
  function BareOpts(ms: seq<Emission>): set<seq<AttrSet>> {
    set m | m in ms && m.call.base == [] :: m.opts
  }

  /** A registry emits at most maxEntries + 2 attribute sets through such handles, over any
      run, whatever labels it is called with. */
  lemma CardinalityBound(c: Config, tr: seq<State>, acts: seq<Action>, i: nat)
    requires IsRun(c, tr, acts) && i < |tr|
    ensures BareOpts(tr[i].meter) <= SeriesOf(tr[i].order)
    ensures |BareOpts(tr[i].meter)| <= c.max + 2
  {
    var s := tr[i];
    SeriesRun(c, tr, acts, i);
    LinRun(c, tr, acts, i);
    forall m | m in s.meter && m.call.base == [] ensures m.opts in SeriesOf(s.order) {
      var j :| 0 <= j < |s.meter| && s.meter[j] == m;
      assert EmissionOk(c, s.order, s.meter[j]);
      assert m.call.base + [FinalEntry(s.order, m.call.key).attrs] == [FinalEntry(s.order, m.call.key).attrs];
    }
    SeriesOfSize(s.order);
    SubsetSize(BareOpts(s.meter), SeriesOf(s.order));
  }

  function Pairs<X, Y>(xs: set<X>, ys: set<Y>): set<(X, Y)> {
    set x, y | x in xs && y in ys :: (x, y)
  }

  lemma {:induction false} PairsSize<X, Y>(xs: set<X>, ys: set<Y>)
    ensures |Pairs(xs, ys)| == |xs| * |ys|
    decreases xs
  {
    if x :| x in xs {
      PairsSize(xs - {x}, ys);
      RowSize(x, ys);
      PairsSplit(x, xs, ys);
      assert |xs| * |ys| == (|xs| - 1) * |ys| + |ys|;
    } else {
      assert Pairs(xs, ys) == {};
    }
  }

  lemma PairsSplit<X, Y>(x: X, xs: set<X>, ys: set<Y>)
    requires x in xs
    ensures Pairs(xs, ys) == Pairs(xs - {x}, ys) + Pairs({x}, ys) && Pairs(xs - {x}, ys) !! Pairs({x}, ys)
  {
  }

  lemma {:induction false} RowSize<X, Y>(x: X, ys: set<Y>)
    ensures |Pairs({x}, ys)| == |ys|
    decreases ys
  {
    if y :| y in ys {
      RowSize(x, ys - {y});
      RowSplit(x, y, ys);
    } else {
      assert Pairs({x}, ys) == {};
    }
  }

  lemma RowSplit<X, Y>(x: X, y: Y, ys: set<Y>)
    requires y in ys
    ensures Pairs({x}, ys) == Pairs({x}, ys - {y}) + {(x, y)} && (x, y) !in Pairs({x}, ys - {y})
  {
  }

  function BareSeries(ms: seq<Emission>): set<(nat, seq<AttrSet>)> {
    set m | m in ms && m.call.base == [] :: (m.call.inst, m.opts)
  }

  /** With the instruments of one registry, at most instruments times (maxEntries + 2) series. */
  lemma SeriesBound(c: Config, tr: seq<State>, acts: seq<Action>, i: nat, insts: set<nat>)
    requires IsRun(c, tr, acts) && i < |tr|
    requires forall m :: m in tr[i].meter ==> m.call.inst in insts
    ensures |BareSeries(tr[i].meter)| <= |insts| * (c.max + 2)
  {
    var s := tr[i];
    CardinalityBound(c, tr, acts, i);
    var opts := BareOpts(s.meter);
    forall p | p in BareSeries(s.meter) ensures p in Pairs(insts, opts) {
      var m :| m in s.meter && m.call.base == [] && p == (m.call.inst, m.opts);
      assert m.opts in opts;
    }
    PairsSize(insts, opts);
    SubsetSize(BareSeries(s.meter), Pairs(insts, opts));
    MulMono(|insts|, |opts|, c.max + 2);
  }
}
