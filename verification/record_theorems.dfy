/** Statements over whole runs of RecordMachine: linearizability, the structure of the cache,
    the cost of the compare-and-swap loop. */
module RecordTheorems {
  import opened Labels
  import opened Shards
  import opened CappedMap
  import opened Threads
  import opened RecordMachine
  import opened RecordInvariants
  import opened RecordStore
  import opened RecordLinear
  import opened RecordGrowth

  // ----- linearizability -----

  /** Every interleaving of lookups is a sequential run of the capped map: taken in the order
      in which they took effect, the lookups got the capped map's answers; a finished lookup
      took effect once, between its call and its return, and returned its answer's entry; and
      the first `max` distinct keys are the ones interned. */
  lemma Linearizable(c: Config, tr: seq<State>, acts: seq<Action>, i: nat)
    requires IsRun(c, tr, acts) && i < |tr|
    ensures var s := tr[i]; var ks := LinKeys(s.lin);
            && s.order == Run(c.max, ks) == First(c.max, Distinct(ks))
            && (forall j :: 0 <= j < |ks| ==> s.lin[j].ans == Answers(c.max, ks)[j])
            && (forall j :: j in s.done ==> j < |ks| && s.done[j].key == ks[j])
            && (forall j :: j in s.done ==> s.done[j].invoked <= j < s.done[j].returned)
            && (forall j :: j in s.done ==> s.done[j].e == EntryFor(ks[j], Answers(c.max, ks)[j]))
  {
    LinRun(c, tr, acts, i);
    RunIsFirstDistinct(c.max, LinKeys(tr[i].lin));
  }

  /** Real time: a lookup that had returned by state `a` took effect before any lookup that was
      called at action `b`, there or later. The latter is thread `t`'s, still under way at state
      `e`; its place among the effects is the one it is recorded under when it returns. */
  lemma RealTimeOrder(c: Config, tr: seq<State>, acts: seq<Action>, a: nat, b: nat, e: nat, t: nat, j: nat)
    requires IsRun(c, tr, acts) && a <= b && InCall(tr, acts, b, e, t)
    requires j in tr[a].done && Effective(tr[e].threads[t])
    ensures tr[e].threads[t].o.call == acts[b].call && j < tr[e].threads[t].o.at
    ensures var at := tr[e].threads[t].o.at;
            e < |acts| && acts[e] == Go(t) && tr[e].threads[t].AtEmit? ==> at !in tr[e].done && at in tr[e + 1].done
  {
    PlaceInTheOrder(c, tr, acts, a, b, e, t, j);
    if e < |acts| && acts[e] == Go(t) && tr[e].threads[t].AtEmit? {
      RecordedOnReturn(c, tr, acts, e, t);
    }
  }

  lemma PlaceInTheOrder(c: Config, tr: seq<State>, acts: seq<Action>, a: nat, b: nat, e: nat, t: nat, j: nat)
    requires IsRun(c, tr, acts) && a <= b && InCall(tr, acts, b, e, t)
    requires j in tr[a].done && Effective(tr[e].threads[t])
    ensures tr[e].threads[t].o.call == acts[b].call && j < tr[e].threads[t].o.at
  {
    LinRun(c, tr, acts, a);
    GrowsAlong(c, tr, acts, a, b);
    CallServes(c, tr, acts, b, e, t);
    LinRun(c, tr, acts, e);
    PlaceOf(c, tr[a], tr[b], tr[e], t, j);
  }

  lemma PlaceOf(c: Config, s: State, s': State, s'': State, t: nat, j: nat)
    requires DoneOk(s.lin, s.done) && Grown(s, s') && j in s.done
    requires LinPart(c, s'') && t < |s''.threads| && Effective(s''.threads[t]) && s''.threads[t].o.invoked == |s'.lin|
    ensures j < s''.threads[t].o.at
  {
    assert PcLin(s''.lin, s''.done, t, s''.threads[t]);
  }

  lemma RecordedOnReturn(c: Config, tr: seq<State>, acts: seq<Action>, e: nat, t: nat)
    requires IsRun(c, tr, acts) && e < |acts| && acts[e] == Go(t) && t < |tr[e].threads| && tr[e].threads[t].AtEmit?
    ensures var at := tr[e].threads[t].o.at; at !in tr[e].done && at in tr[e + 1].done
  {
    LinRun(c, tr, acts, e);
    EmitRecords(c, tr[e], t);
  }

  lemma EmitRecords(c: Config, s: State, t: nat)
    requires Shape(c, s) && LinPart(c, s) && t < |s.threads| && s.threads[t].AtEmit?
    ensures s.threads[t].o.at !in s.done && s.threads[t].o.at in ExecCall(c, s, t).done
  {
    assert PcLin(s.lin, s.done, t, s.threads[t]);
  }

  /** The same for two finished lookups, by the counters they carry. */
  lemma RecordedOrder(c: Config, tr: seq<State>, acts: seq<Action>, i: nat, j: nat, k: nat)
    requires IsRun(c, tr, acts) && i < |tr| && j in tr[i].done && k in tr[i].done
    requires tr[i].done[j].returned <= tr[i].done[k].invoked
    ensures j < k
  {
    LinRun(c, tr, acts, i);
  }

  /** All finished lookups of one key returned the same entry: its own attribute set if the
      key has a slot, the overflow set if not. */
  lemma OneAnswer(c: Config, tr: seq<State>, acts: seq<Action>, i: nat, j: nat)
    requires IsRun(c, tr, acts) && i < |tr| && j in tr[i].done
    ensures tr[i].done[j].e == FinalEntry(tr[i].order, tr[i].done[j].key)
  {
    LinRun(c, tr, acts, i);
    RecordedAnswer(c, tr[i], j);
  }

  // ----- structure of the cache -----

  lemma StructureOf(c: Config, s: State, k: Key)
    requires StoreOk(c, s)
    ensures forall j :: 0 <= j < SHARDS && Holds(s.shards[j], k) ==>
              j == c.route(k) && Lookup(s.shards[j], k).value == NewEntry(AttrsOf(k))
    ensures Stored(c, s.shards, k) ==> k in s.order
    ensures k in s.order && !Stored(c, s.shards, k) ==> exists t :: 0 <= t < |s.threads| && Winning(s.threads[t], k)
  {
    if k in s.order && !Stored(c, s.shards, k) {
      assert Winning(s.threads[s.locks[c.route(k)].writer.value], k);
    }
  }

  /** In every reachable state each stored key sits in the shard its hash selects, under its
      own attribute set, and nowhere else; size never exceeds the cap; and a key that won a
      slot is stored unless some thread is about to insert it. */
  lemma CacheStructure(c: Config, tr: seq<State>, acts: seq<Action>, i: nat, k: Key)
    requires IsRun(c, tr, acts) && i < |tr|
    ensures Shape(c, tr[i]) && tr[i].size == |tr[i].order| <= c.max
    ensures forall j :: 0 <= j < SHARDS && Holds(tr[i].shards[j], k) ==>
              j == c.route(k) && Lookup(tr[i].shards[j], k).value == NewEntry(AttrsOf(k))
    ensures Stored(c, tr[i].shards, k) ==> k in tr[i].order
    ensures k in tr[i].order && !Stored(c, tr[i].shards, k) ==>
              exists t :: 0 <= t < |tr[i].threads| && Winning(tr[i].threads[t], k)
  {
    LinRun(c, tr, acts, i);
    StructureOf(c, tr[i], k);
  }

  /** Data-race freedom of the maps: while a thread may write a shard no other thread reads
      or writes it. */
  lemma MapsAreGuarded(c: Config, tr: seq<State>, acts: seq<Action>, i: nat, t: nat, u: nat)
    requires IsRun(c, tr, acts) && i < |tr| && t < |tr[i].threads| && u < |tr[i].threads| && t != u
    requires tr[i].threads[t].AtInsert?
    ensures var j := c.route(tr[i].threads[t].o.call.key);
            GripOf(c, tr[i].threads[u]) != R(j) && GripOf(c, tr[i].threads[u]) != W(j)
  {
    LinRun(c, tr, acts, i);
    WriterIsAlone(tr[i].locks, Grips(c, tr[i].threads), t, u);
  }

  /** No deadlock: whenever some call or walk is under way, some thread can move. */
  lemma SomebodyCanMove(c: Config, tr: seq<State>, acts: seq<Action>, i: nat, t: nat)
    requires IsRun(c, tr, acts) && i < |tr| && t < |tr[i].threads| && !tr[i].threads[t].Idle?
    ensures Shape(c, tr[i]) && exists u :: 0 <= u < |tr[i].threads| && Enabled(c, tr[i], u)
  {
    var s := tr[i];
    LinRun(c, tr, acts, i);
    if !Enabled(c, s, t) {
      assert ScanShape(s.threads[t]);
      var j := if s.threads[t].ScanLock? then s.threads[t].i else c.route(s.threads[t].o.call.key);
      var u := Blocker(s.locks, Grips(c, s.threads), j);
      BlockersMove(c, s, u);
    }
  }

  /** Whoever keeps a lock from being granted is past its own wait. */
  lemma BlockersMove(c: Config, s: State, u: nat)
    requires Shape(c, s) && u < |s.threads| && !GripOf(c, s.threads[u]).Out?
    requires GripOf(c, s.threads[u]).A? ==> s.locks[GripOf(c, s.threads[u]).i].Drained()
    ensures Enabled(c, s, u)
  {
  }

  // ----- the compare-and-swap loop -----

  /** One call of reserveSlot fails its compare-and-swap at most as often as slots were free
      when it began, whatever the other threads do. */
  lemma FailedSwapsAreBounded(c: Config, tr: seq<State>, acts: seq<Action>, i: nat, t: nat)
    requires IsRun(c, tr, acts) && i < |tr| && t < |tr[i].threads|
    requires tr[i].threads[t].AtLoad? || tr[i].threads[t].AtCas?
    ensures tr[i].threads[t].fails <= tr[i].size - tr[i].threads[t].first <= c.max - tr[i].threads[t].first
  {
    LinRun(c, tr, acts, i);
    assert PcOk(c, tr[i].shards, tr[i].order, tr[i].threads[t]);
  }
}
