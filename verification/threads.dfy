/** Sums over all threads of a state machine, and a readers-writer lock. */
module Threads {
  import opened Labels

  /** A readers-writer lock of Go's `sync` package, with the threads that hold it. A writer first
      announces itself, which holds back new readers and other writers, then waits until the
      readers that were there before it are gone. */
  datatype RwLock = RwLock(writer: Option<nat>, readers: set<nat>)
  {
    /** A read lock is granted when no writer holds the lock or waits for it. */
    predicate CanRead() {
      writer.None?
    }

    /** One writer at a time announces itself. */
    predicate CanAnnounce() {
      writer.None?
    }

    /** The announced writer gets the lock when the readers are gone. */
    predicate Drained() {
      readers == {}
    }
  }

  const FREE: RwLock := RwLock(None, {})

  /** What a thread holds: nothing, lock `i` for reading, its announcement, lock `i` for writing. */
  datatype Grip = Out | R(i: nat) | A(i: nat) | W(i: nat)

  /** The locks record exactly what the threads hold, and a writer is alone. */
  ghost predicate Consistent(locks: seq<RwLock>, gs: seq<Grip>) {
    && (forall t :: 0 <= t < |gs| && !gs[t].Out? ==> gs[t].i < |locks|)
    && (forall i, t {:trigger locks[i], gs[t]} :: 0 <= i < |locks| && 0 <= t < |gs| ==>
          && (locks[i].writer == Some(t) <==> gs[t] == A(i) || gs[t] == W(i))
          && (t in locks[i].readers <==> gs[t] == R(i))
          && (gs[t] == W(i) ==> locks[i].Drained()))
    && (forall i :: 0 <= i < |locks| ==> InRange(locks[i], |gs|))
  }

  /** Only threads hold locks. */
  ghost predicate InRange(l: RwLock, n: nat) {
    && (l.writer.Some? ==> l.writer.value < n)
    && (forall t :: t in l.readers ==> t < n)
  }

  /** A thread keeps what it holds, takes a lock that is granted, or gives its lock back. */
  predicate CanShift(locks: seq<RwLock>, g: Grip, g': Grip) {
    || g == g'
    || (g.Out? && g'.R? && g'.i < |locks| && locks[g'.i].CanRead())
    || (g.Out? && g'.A? && g'.i < |locks| && locks[g'.i].CanAnnounce())
    || (g.A? && g' == W(g.i) && g.i < |locks| && locks[g.i].Drained())
    || (g'.Out? && (g.R? || g.W?) && g.i < |locks|)
  }

  function Shifted(locks: seq<RwLock>, t: nat, g: Grip, g': Grip): seq<RwLock>
    requires CanShift(locks, g, g')
  {
    if g == g' || g'.W? then locks
    else if g'.R? then locks[g'.i := locks[g'.i].(readers := locks[g'.i].readers + {t})]
    else if g'.A? then locks[g'.i := locks[g'.i].(writer := Some(t))]
    else if g.R? then locks[g.i := locks[g.i].(readers := locks[g.i].readers - {t})]
    else locks[g.i := locks[g.i].(writer := None)]
  }

  lemma ShiftConsistent(locks: seq<RwLock>, gs: seq<Grip>, t: nat, g': Grip)
    requires Consistent(locks, gs) && t < |gs| && CanShift(locks, gs[t], g')
    ensures Consistent(Shifted(locks, t, gs[t], g'), gs[t := g'])
  {
    var locks', gs' := Shifted(locks, t, gs[t], g'), gs[t := g'];
    forall i | 0 <= i < |locks'| ensures InRange(locks'[i], |gs'|) {
      assert InRange(locks[i], |gs|);
    }
    forall i, u | 0 <= i < |locks'| && 0 <= u < |gs'|
      ensures locks'[i].writer == Some(u) <==> gs'[u] == A(i) || gs'[u] == W(i)
      ensures u in locks'[i].readers <==> gs'[u] == R(i)
      ensures gs'[u] == W(i) ==> locks'[i].Drained()
    {
      assert locks[i].writer == Some(u) <==> gs[u] == A(i) || gs[u] == W(i);
      assert locks[i].writer == Some(t) <==> gs[t] == A(i) || gs[t] == W(i);
    }
  }

  /** Mutual exclusion. */
  lemma WriterIsAlone(locks: seq<RwLock>, gs: seq<Grip>, t: nat, u: nat)
    requires Consistent(locks, gs) && t < |gs| && u < |gs| && t != u && gs[t].W?
    ensures gs[u] != gs[t] && gs[u] != R(gs[t].i) && gs[u] != A(gs[t].i)
  {
    assert locks[gs[t].i].writer == Some(t);
    assert gs[u] == R(gs[t].i) <==> u in locks[gs[t].i].readers;
  }

  /** Who keeps a lock from being granted: a reader, or a writer past its wait; and an announced
      writer only when no reader is left to wait for. */
  ghost function Blocker(locks: seq<RwLock>, gs: seq<Grip>, i: nat): (u: nat)
    requires Consistent(locks, gs) && i < |locks| && (locks[i].writer.Some? || !locks[i].Drained())
    ensures u < |gs| && (gs[u] == R(i) || gs[u] == W(i) || (gs[u] == A(i) && locks[i].Drained()))
  {
    assert InRange(locks[i], |gs|);
    if locks[i].Drained() then
      var u := locks[i].writer.value;
      assert locks[i].writer == Some(u) <==> gs[u] == A(i) || gs[u] == W(i);
      u
    else
      var u :| u in locks[i].readers;
      assert gs[u] == R(i);
      u
  }

  function Total<T>(ts: seq<T>, f: T -> int): int {
    if ts == [] then 0 else Total(ts[..|ts| - 1], f) + f(ts[|ts| - 1])
  }

  /** When one thread moves, a sum over all threads changes by that thread's share. */
  lemma {:induction false} TotalUpdate<T>(ts: seq<T>, t: nat, p: T, f: T -> int)
    requires t < |ts|
    ensures Total(ts[t := p], f) == Total(ts, f) - f(ts[t]) + f(p)
  {
    var n := |ts| - 1;
    if t < n {
      TotalUpdate(ts[..n], t, p, f);
      assert ts[t := p][..n] == ts[..n][t := p];
    } else {
      assert ts[t := p][..n] == ts[..n];
    }
  }

  lemma {:induction false} TotalAtMost<T>(ts: seq<T>, f: T -> int, c: int)
    requires forall t :: 0 <= t < |ts| ==> f(ts[t]) <= c
    ensures Total(ts, f) <= c * |ts|
  {
    if ts != [] {
      TotalAtMost(ts[..|ts| - 1], f, c);
      assert c * |ts| == c * (|ts| - 1) + c;
    }
  }

  lemma {:induction false} TotalAtLeast<T>(ts: seq<T>, f: T -> int, c: int)
    requires forall t :: 0 <= t < |ts| ==> f(ts[t]) >= c
    ensures Total(ts, f) >= c * |ts|
  {
    if ts != [] {
      TotalAtLeast(ts[..|ts| - 1], f, c);
      assert c * |ts| == c * (|ts| - 1) + c;
    }
  }

  lemma {:induction false} TotalMono<T>(ts: seq<T>, f: T -> int, g: T -> int)
    requires forall t :: 0 <= t < |ts| ==> f(ts[t]) <= g(ts[t])
    ensures Total(ts, f) <= Total(ts, g)
  {
    if ts != [] {
      TotalMono(ts[..|ts| - 1], f, g);
    }
  }

  /** Nothing in flight: a sum of zeros. */
  lemma TotalZero<T>(ts: seq<T>, f: T -> int)
    requires forall t :: 0 <= t < |ts| ==> f(ts[t]) == 0
    ensures Total(ts, f) == 0
  {
    TotalAtMost(ts, f, 0);
    TotalAtLeast(ts, f, 0);
  }
}
