/** What the attribute cache stands for: at most `cap` distinct keys, first come first served. */
module CappedMap {
  import opened Labels

  datatype Answer = Own | Overflow

  /** The answer of the capped map turned into what a lookup returns. */
  function EntryFor(k: Key, a: Answer): Entry {
    if a.Own? then NewEntry(AttrsOf(k)) else NewEntry(OverflowAttrs())
  }

  /** One lookup against the keys interned so far, in the order they got their slots. */
  function Intern(cap: nat, order: seq<Key>, k: Key): (r: (seq<Key>, Answer)) {
    if k in order then (order, Own)
    else if |order| < cap then (order + [k], Own)
    else (order, Overflow)
  }

  /** The keys interned after the lookups `ks`, starting from an empty map. */
  function Run(cap: nat, ks: seq<Key>): (order: seq<Key>) {
    if ks == [] then [] else Intern(cap, Run(cap, ks[..|ks| - 1]), ks[|ks| - 1]).0
  }

  /** The answer to each of the lookups `ks`. */
  function Answers(cap: nat, ks: seq<Key>): (r: seq<Answer>)
    ensures |r| == |ks|
  {
    if ks == [] then []
    else Answers(cap, ks[..|ks| - 1]) + [Intern(cap, Run(cap, ks[..|ks| - 1]), ks[|ks| - 1]).1]
  }

  /** The distinct keys of `ks` in order of first appearance. */
  function Distinct(ks: seq<Key>): seq<Key> {
    if ks == [] then []
    else
      var d := Distinct(ks[..|ks| - 1]);
      if ks[|ks| - 1] in d then d else d + [ks[|ks| - 1]]
  }

  function First<T>(n: nat, s: seq<T>): seq<T> {
    if |s| <= n then s else s[..n]
  }

  lemma {:induction false} DistinctIsExact(ks: seq<Key>)
    ensures NoDup(Distinct(ks))
    ensures forall k :: k in Distinct(ks) <==> k in ks
  {
    if ks != [] {
      var p, x := ks[..|ks| - 1], ks[|ks| - 1];
      DistinctIsExact(p);
      assert ks == p + [x];
    }
  }

  /** Exactly the first `cap` distinct keys are interned. */
  lemma {:induction false} RunIsFirstDistinct(cap: nat, ks: seq<Key>)
    ensures Run(cap, ks) == First(cap, Distinct(ks))
  {
    if ks != [] {
      var p, x := ks[..|ks| - 1], ks[|ks| - 1];
      RunIsFirstDistinct(cap, p);
      DistinctIsExact(p);
      var d := Distinct(p);
      if x in d && x !in First(cap, d) {
        assert |First(cap, d)| == cap;
      }
    }
  }

  lemma {:induction false} RunGrows(cap: nat, ks: seq<Key>, i: nat)
    requires i <= |ks|
    ensures Run(cap, ks[..i]) <= Run(cap, ks)
    ensures |Run(cap, ks)| <= cap
    decreases |ks|
  {
    if ks != [] {
      var n := |ks| - 1;
      if i == |ks| {
        assert ks[..i] == ks;
        RunGrows(cap, ks[..n], 0);
      } else {
        RunGrows(cap, ks[..n], i);
        assert ks[..n][..i] == ks[..i];
      }
    }
  }

  /** Every lookup of a key gets the same answer, whenever it happens: its own entry if the
      key ends up interned, overflow otherwise. */
  lemma {:induction false} OneAnswerForLife(cap: nat, ks: seq<Key>, i: nat)
    requires i < |ks|
    ensures Answers(cap, ks)[i] == if ks[i] in Run(cap, ks) then Own else Overflow
    decreases |ks|
  {
    var n := |ks| - 1;
    var p := ks[..n];
    RunGrows(cap, ks, n);
    RunGrows(cap, p, 0);
    if i < n {
      OneAnswerForLife(cap, p, i);
      assert p[i] == ks[i];
      if ks[i] !in Run(cap, p) {
        FullIfRefused(cap, p, i);
      }
    }
  }

  lemma {:induction false} FullIfRefused(cap: nat, ks: seq<Key>, i: nat)
    requires i < |ks| && ks[i] !in Run(cap, ks)
    ensures |Run(cap, ks)| == cap
    decreases |ks|
  {
    var n := |ks| - 1;
    var p := ks[..n];
    RunGrows(cap, ks, n);
    if i < n {
      assert p[i] == ks[i];
      FullIfRefused(cap, p, i);
    }
  }
}
