/** Label values, cache keys and the attribute sets interned for them. */
module Labels {

  /** A Go string: a sequence of bytes. */
  type Label = seq<bv8>

  datatype Option<+T> = None | Some(value: T)

  /** A cache key of one of the three arities the source keeps in three maps. */
  datatype Key =
    | One(a: Label)
    | Two(a: Label, b: Label)
    | Three(a: Label, b: Label, c: Label)
  {
    function Parts(): seq<Label> {
      match this
      case One(a) => [a]
      case Two(a, b) => [a, b]
      case Three(a, b, c) => [a, b, c]
    }

    /** The metric helpers record without attributes when every part is empty. */
    predicate AllEmpty() {
      forall i :: 0 <= i < |Parts()| ==> Parts()[i] == []
    }
  }

  /** An attribute set: attribute name to value. */
  type AttrSet = map<Label, Label>

  const SUBJECT: Label := [0x73, 0x75, 0x62, 0x6A, 0x65, 0x63, 0x74]
  const STATUS: Label := [0x73, 0x74, 0x61, 0x74, 0x75, 0x73]
  const CONSUMER: Label := [0x63, 0x6F, 0x6E, 0x73, 0x75, 0x6D, 0x65, 0x72]
  /** "_overflow" */
  const OVERFLOW_SUBJECT: Label := [0x5F, 0x6F, 0x76, 0x65, 0x72, 0x66, 0x6C, 0x6F, 0x77]
  /** "|" */
  const BAR: Label := [0x7C]

  /** `attrCacheShards` */
  const SHARDS: nat := 16

  const DEFAULT_MAX_CARDINALITY: int := 100
  const DEFAULT_MAX_INSTRUMENTS: int := 500
  /** Ten minutes in nanoseconds. */
  const DEFAULT_DIAGNOSTIC_INTERVAL: int := 600_000_000_000

  /** The attribute set a key stands for when it gets a slot of its own. */
  function AttrsOf(k: Key): AttrSet {
    match k
    case One(a) => map[SUBJECT := a]
    case Two(a, b) => map[SUBJECT := a, STATUS := b]
    case Three(a, b, c) => map[SUBJECT := a, STATUS := b, CONSUMER := c]
  }

  function OverflowAttrs(): AttrSet {
    map[SUBJECT := OVERFLOW_SUBJECT]
  }

  /** `m` gives the parts of `k` under the attribute names of their places, and nothing else. */
  predicate Labelled(m: AttrSet, k: Key) {
    match k
    case One(a) => m.Keys == {SUBJECT} && m[SUBJECT] == a
    case Two(a, b) => m.Keys == {SUBJECT, STATUS} && m[SUBJECT] == a && m[STATUS] == b
    case Three(a, b, c) =>
      m.Keys == {SUBJECT, STATUS, CONSUMER} && m[SUBJECT] == a && m[STATUS] == b && m[CONSUMER] == c
  }

  predicate LabelledOverflow(m: AttrSet) {
    m.Keys == {SUBJECT} && m[SUBJECT] == OVERFLOW_SUBJECT
  }

  lemma AttrsName(k: Key)
    ensures Labelled(AttrsOf(k), k) && LabelledOverflow(OverflowAttrs())
  {
    assert |SUBJECT| == 7 && |STATUS| == 6 && |CONSUMER| == 8;
  }

  /** The label string reported for a key: its parts joined by "|". */
  function Join(k: Key): Label {
    match k
    case One(a) => a
    case Two(a, b) => a + BAR + b
    case Three(a, b, c) => a + BAR + b + BAR + c
  }

  /** No "|" inside. */
  predicate BarFree(l: Label) {
    BAR[0] !in l
  }

  lemma BarPlace(a: Label, x: Label)
    requires BarFree(a)
    ensures (a + BAR + x)[|a|] == BAR[0] && forall i :: 0 <= i < |a| ==> (a + BAR + x)[i] != BAR[0]
  {
    forall i | 0 <= i < |a| ensures (a + BAR + x)[i] != BAR[0] {
      assert (a + BAR + x)[i] == a[i] && a[i] in a;
    }
  }

  /** What comes before the first bar, and after it. */
  lemma FirstBar(a: Label, x: Label, b: Label, y: Label)
    requires BarFree(a) && BarFree(b) && a + BAR + x == b + BAR + y
    ensures a == b && x == y
  {
    var s := a + BAR + x;
    BarPlace(a, x);
    BarPlace(b, y);
    assert a == s[..|a|] && b == s[..|b|] && x == s[|a| + 1..] && y == s[|b| + 1..];
  }

  lemma NoBarNoJoin(a: Label, b: Label, y: Label)
    requires BarFree(a)
    ensures a != b + BAR + y
  {
    assert (b + BAR + y)[|b|] == BAR[0];
  }

  /** The strings of labels without a bar tell their keys apart ... */
  lemma JoinTellsApart(j: Key, k: Key)
    requires forall l :: l in j.Parts() + k.Parts() ==> BarFree(l)
    ensures Join(j) == Join(k) <==> j == k
  {
    forall l | l in j.Parts() || l in k.Parts() ensures BarFree(l) {
      assert l in j.Parts() + k.Parts();
    }
    JoinSplits(j);
    JoinSplits(k);
    if Join(j) == Join(k) {
      if j.One? || k.One? {
        NoBarNoJoin(if j.One? then j.a else k.a, if j.One? then k.a else j.a, if j.One? then PastBar(k) else PastBar(j));
      } else {
        FirstBar(j.a, PastBar(j), k.a, PastBar(k));
        if j.Two? != k.Two? {
          NoBarNoJoin(if j.Two? then j.b else k.b, if j.Two? then k.b else j.b, if j.Two? then k.c else j.c);
        } else if j.Three? {
          FirstBar(j.b, j.c, k.b, k.c);
        }
      }
    }
  }

  /** What `Join` puts after the first bar. */
  function PastBar(k: Key): Label {
    match k
    case One(_) => []
    case Two(_, b) => b
    case Three(_, b, c) => b + BAR + c
  }

  lemma JoinSplits(k: Key)
    ensures Join(k) == if k.One? then k.a else k.a + BAR + PastBar(k)
    ensures k.Parts()[0] == k.a && (!k.One? ==> k.Parts()[1] == k.b) && (k.Three? ==> k.Parts()[2] == k.c)
  {
  }

  /** ... and with a bar inside they need not: then the denied counter counts two keys once. */
  lemma JoinsCanClash(a: Label, b: Label)
    ensures Join(One(a + BAR + b)) == Join(Two(a, b)) && One(a + BAR + b) != Two(a, b)
  {
  }

  function Joins(ks: seq<Key>): (r: seq<Label>)
    ensures |r| == |ks| && forall i :: 0 <= i < |ks| ==> r[i] == Join(ks[i])
  {
    seq(|ks|, i requires 0 <= i < |ks| => Join(ks[i]))
  }

  function Without<T>(s: seq<T>, i: nat): seq<T>
    requires i < |s|
  {
    s[..i] + s[i + 1..]
  }

  lemma WithoutOne<T>(s: seq<T>, i: nat)
    requires i < |s|
    ensures multiset(s) == multiset(Without(s, i)) + multiset{s[i]}
  {
    assert s == s[..i] + ([s[i]] + s[i + 1..]);
  }

  /** Listing the same keys in another order lists the same strings in another order. */
  lemma {:induction false} JoinsPermute(ks: seq<Key>, js: seq<Key>)
    requires multiset(ks) == multiset(js)
    ensures multiset(Joins(ks)) == multiset(Joins(js))
    decreases |ks|
  {
    if ks == [] {
      assert |multiset(js)| == 0;
    } else {
      var i := SamePlace(ks, js);
      JoinsPermute(Without(ks, 0), Without(js, i));
      WithoutOne(Joins(ks), 0);
      WithoutOne(Joins(js), i);
      JoinsWithout(ks, 0);
      JoinsWithout(js, i);
    }
  }

  lemma JoinsWithout(ks: seq<Key>, i: nat)
    requires i < |ks|
    ensures Joins(Without(ks, i)) == Without(Joins(ks), i)
  {
  }

  lemma SamePlace(ks: seq<Key>, js: seq<Key>) returns (i: nat)
    requires ks != [] && multiset(ks) == multiset(js)
    ensures i < |js| && js[i] == ks[0] && multiset(Without(ks, 0)) == multiset(Without(js, i))
  {
    assert ks[0] in multiset(js);
    i :| i < |js| && js[i] == ks[0];
    WithoutOne(ks, 0);
    WithoutOne(js, i);
    assert multiset(Without(ks, 0)) == multiset(ks) - multiset{ks[0]};
    assert multiset(Without(js, i)) == multiset(js) - multiset{ks[0]};
  }

  /** What the cache stores: an attribute set and the option lists prebuilt from it.
      An option made by WithAttributeSet is represented by the set it carries. */
  datatype Entry = Entry(attrs: AttrSet, addOpts: seq<AttrSet>, recordOpts: seq<AttrSet>)

  function NewEntry(attrs: AttrSet): Entry {
    Entry(attrs, [attrs], [attrs])
  }

  /** `attrsToAddOpts` and `attrsToRecordOpts`: no option at all for the empty set. */
  function AttrsToOpts(attrs: AttrSet): seq<AttrSet> {
    if |attrs| == 0 then [] else [attrs]
  }

  /** Distinct keys stand for distinct attribute sets, and the only key whose own set is
      the shared overflow set is the one-part key "_overflow". */
  lemma AttrsTellKeysApart(j: Key, k: Key)
    ensures AttrsOf(j) == AttrsOf(k) <==> j == k
    ensures AttrsOf(k) == OverflowAttrs() <==> k == One(OVERFLOW_SUBJECT)
  {
    assert |SUBJECT| == 7 && |STATUS| == 6 && |CONSUMER| == 8;
    var m, n := AttrsOf(j), AttrsOf(k);
    assert (STATUS in m <==> !j.One?) && (CONSUMER in m <==> j.Three?);
    assert (STATUS in n <==> !k.One?) && (CONSUMER in n <==> k.Three?);
    assert m[SUBJECT] == j.a && n[SUBJECT] == k.a;
    assert !j.One? ==> m[STATUS] == j.b;
    assert !k.One? ==> n[STATUS] == k.b;
    assert j.Three? ==> m[CONSUMER] == j.c;
    assert k.Three? ==> n[CONSUMER] == k.c;
    assert OverflowAttrs()[SUBJECT] == OVERFLOW_SUBJECT;
  }

  predicate NoDup<T(==)>(s: seq<T>) {
    forall i, j :: 0 <= i < j < |s| ==> s[i] != s[j]
  }

  /** A sequence without repetition is as long as its set of elements. */
  lemma {:induction false} NoDupLength<T>(s: seq<T>)
    requires NoDup(s)
    ensures |set x | x in s| == |s|
  {
    if s != [] {
      var p, x := s[..|s| - 1], s[|s| - 1];
      NoDupLength(p);
      assert s == p + [x];
      assert (set y | y in s) == (set y | y in p) + {x};
    }
  }

  lemma NoDupAppend<T>(s: seq<T>, t: seq<T>)
    requires NoDup(s) && NoDup(t)
    requires forall x :: x in t ==> x !in s
    ensures NoDup(s + t)
  {
    var u := s + t;
    forall i, j | 0 <= i < j < |u| ensures u[i] != u[j] {
      if i < |s| <= j {
        assert u[i] == s[i] && u[j] == t[j - |s|];
        assert s[i] in s && t[j - |s|] in t;
      }
    }
  }

  lemma SameElementsSameLength<T>(s: seq<T>, t: seq<T>)
    requires NoDup(s) && NoDup(t)
    requires forall x :: x in s <==> x in t
    ensures |s| == |t|
  {
    NoDupLength(s);
    NoDupLength(t);
    assert (set x | x in s) == (set x | x in t);
  }

  lemma SameElementsSameMultiset<T>(s: seq<T>, t: seq<T>)
    requires NoDup(s) && NoDup(t)
    requires forall x :: x in s <==> x in t
    ensures multiset(s) == multiset(t)
  {
    forall x ensures multiset(s)[x] == multiset(t)[x] {
      NoDupOnce(s, x);
      NoDupOnce(t, x);
    }
  }

  lemma {:induction false} NoDupOnce<T>(s: seq<T>, x: T)
    requires NoDup(s)
    ensures multiset(s)[x] == if x in s then 1 else 0
  {
    if s != [] {
      var p := s[..|s| - 1];
      NoDupOnce(p, x);
      assert s == p + [s[|s| - 1]];
    }
  }

  lemma SubsetSize<T>(s: set<T>, t: set<T>)
    requires s <= t
    ensures |s| <= |t|
  {
    assert t == s + (t - s);
  }

  lemma UnionSize<T>(a: set<T>, b: set<T>, c: set<T>)
    requires a !! b && (a + b) !! c
    ensures |a + b + c| == |a| + |b| + |c|
  {
  }

  lemma SetInSeqSize<T>(s: set<T>, t: seq<T>)
    requires NoDup(t)
    requires forall x :: x in s ==> x in t
    ensures |s| <= |t|
  {
    NoDupLength(t);
    SubsetSize(s, set x | x in t);
  }

  /** A set inside a sequence without repetition and as large as it has all its elements. */
  lemma SameSizeCovers<T>(s: set<T>, t: seq<T>)
    requires NoDup(t) && |s| == |t|
    requires forall x :: x in s ==> x in t
    ensures forall x :: x in t ==> x in s
  {
    NoDupLength(t);
    var all := set x | x in t;
    assert all == s + (all - s);
    assert |all - s| == 0;
  }

  /** `newAttrCache` and `newCardinalityDetector` replace a non-positive cap by the default. */
  function NormMax(n: int): (r: nat)
    ensures r > 0 && (n > 0 ==> r == n) && (n <= 0 ==> r == 100)
  {
    if n <= 0 then DEFAULT_MAX_CARDINALITY else n
  }

  function NormInstruments(n: int): (r: nat)
    ensures r > 0 && (n > 0 ==> r == n) && (n <= 0 ==> r == 500)
  {
    if n <= 0 then DEFAULT_MAX_INSTRUMENTS else n
  }
}
