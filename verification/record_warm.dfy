/** Recording under labels that are cached already: the fast path of the lookups. */
module RecordWarm {
  import opened Labels
  import opened RecordMachine
  import opened RecordInvariants
  import opened RecordStore
  import opened RecordGrowth

  lemma CallStores(c: Config, s: State, t: nat)
    requires t < |s.threads| && Calling(s.threads[t])
    ensures ExecCall(c, s, t).shards == s.shards
  {
  }

  lemma ProbeStores(c: Config, s: State, t: nat)
    requires Shape(c, s) && t < |s.threads| && Probing(s.threads[t])
    ensures ExecProbe(c, s, t).shards == s.shards
  {
  }

  lemma ReserveStores(c: Config, s: State, t: nat, k: Key)
    requires Shape(c, s) && t < |s.threads| && Reserving(s.threads[t]) && Stored(c, s.shards, k)
    ensures |ExecReserve(c, s, t).shards| == SHARDS && Stored(c, ExecReserve(c, s, t).shards, k)
  {
    assert c.route(k) < SHARDS;
  }

  lemma ScanStores(c: Config, s: State, t: nat)
    requires Shape(c, s) && t < |s.threads| && Scanning(s.threads[t])
    ensures ExecScan(c, s, t).shards == s.shards
  {
  }

  /** What is cached stays cached. */
  lemma StepStores(c: Config, s: State, a: Action, k: Key)
    requires Shape(c, s) && Can(c, s, a) && Stored(c, s.shards, k)
    ensures |Apply(c, s, a).shards| == SHARDS && Stored(c, Apply(c, s, a).shards, k)
  {
    if a.Go? {
      if Calling(s.threads[a.t]) {
        CallStores(c, s, a.t);
      } else if Probing(s.threads[a.t]) {
        ProbeStores(c, s, a.t);
      } else if Reserving(s.threads[a.t]) {
        ReserveStores(c, s, a.t, k);
      } else {
        ScanStores(c, s, a.t);
      }
    }
  }

  /** On the path of a call that finds its key under the read lock. */
  predicate Light(p: Pc) {
    Calling(p) || p.AtRLock? || p.AtProbe? || p.AtRUnlockHit?
  }

  /** The key is cached, and thread `t` is on that path in a call for it, or back from it. */
  ghost predicate Warm(c: Config, s: State, t: nat, k: Key) {
    && c.Valid() && |s.shards| == SHARDS && Stored(c, s.shards, k)
    && t < |s.threads| && Light(s.threads[t]) && (!s.threads[t].Idle? ==> s.threads[t].o.call.key == k)
  }

  lemma LightStep(c: Config, s: State, t: nat, k: Key)
    requires Shape(c, s) && Enabled(c, s, t) && Warm(c, s, t, k)
    ensures var s' := Exec(c, s, t);
            t < |s'.threads| && Light(s'.threads[t]) && (!s'.threads[t].Idle? ==> s'.threads[t].o.call.key == k)
  {
    if Calling(s.threads[t]) {
      LightCall(c, s, t, k);
    } else {
      LightProbe(c, s, t, k);
    }
  }

  lemma LightCall(c: Config, s: State, t: nat, k: Key)
    requires t < |s.threads| && Calling(s.threads[t]) && (!s.threads[t].Idle? ==> s.threads[t].o.call.key == k)
    ensures var s' := ExecCall(c, s, t);
            t < |s'.threads| && Light(s'.threads[t]) && (!s'.threads[t].Idle? ==> s'.threads[t].o.call.key == k)
  {
  }

  lemma LightProbe(c: Config, s: State, t: nat, k: Key)
    requires Shape(c, s) && Warm(c, s, t, k) && Probing(s.threads[t])
    ensures var s' := ExecProbe(c, s, t);
            t < |s'.threads| && Light(s'.threads[t]) && (!s'.threads[t].Idle? ==> s'.threads[t].o.call.key == k)
  {
  }

  lemma StaysWarm(c: Config, s: State, a: Action, t: nat, k: Key)
    requires Shape(c, s) && Can(c, s, a) && Warm(c, s, t, k) && !s.threads[t].Idle?
    ensures Warm(c, Apply(c, s, a), t, k)
  {
    StepStores(c, s, a, k);
    if a.Go? {
      GoEffect(c, s, a.t);
      if a.t == t {
        LightStep(c, s, t, k);
      }
    }
  }

  ghost predicate WarmKept(c: Config, tr: seq<State>, x: nat, t: nat, k: Key) {
    x + 1 < |tr| && (Warm(c, tr[x], t, k) ==> Warm(c, tr[x + 1], t, k))
  }

  lemma {:induction false} WarmChain(c: Config, tr: seq<State>, i: nat, j: nat, t: nat, k: Key)
    requires i <= j < |tr| && Warm(c, tr[i], t, k) && forall x: nat | i <= x < j :: WarmKept(c, tr, x, t, k)
    ensures Warm(c, tr[j], t, k)
    decreases j
  {
    if i < j {
      WarmChain(c, tr, i, j - 1, t, k);
      assert WarmKept(c, tr, j - 1, t, k);
    }
  }

  lemma WarmBegins(c: Config, tr: seq<State>, acts: seq<Action>, b: nat, t: nat)
    requires IsRun(c, tr, acts) && b < |acts| && Records(acts[b]) && acts[b].t == t
    requires |tr[b].shards| == SHARDS && Stored(c, tr[b].shards, acts[b].call.key)
    ensures Warm(c, tr[b + 1], t, acts[b].call.key)
  {
    assert tr[b + 1] == Apply(c, tr[b], acts[b]);
  }

  lemma ActionWarm(c: Config, tr: seq<State>, acts: seq<Action>, x: nat, t: nat, k: Key)
    requires IsRun(c, tr, acts) && x < |acts| && t < |tr[x].threads| && !tr[x].threads[t].Idle?
    ensures WarmKept(c, tr, x, t, k)
  {
    if Warm(c, tr[x], t, k) {
      StaysWarm(c, tr[x], acts[x], t, k);
    }
  }

  /** A recording whose key is cached when it is called never waits for a write lock, takes one or
      asks for a slot, whatever the others do: it is served under the read lock. */
  lemma WarmCallsOnlyRead(c: Config, tr: seq<State>, acts: seq<Action>, b: nat, e: nat, t: nat)
    requires IsRun(c, tr, acts) && InCall(tr, acts, b, e, t)
    requires Shape(c, tr[b]) && Stored(c, tr[b].shards, acts[b].call.key)
    ensures Light(tr[e].threads[t])
  {
    WarmBegins(c, tr, acts, b, t);
    forall x: nat | b + 1 <= x < e ensures WarmKept(c, tr, x, t, acts[b].call.key) {
      ActionWarm(c, tr, acts, x, t, acts[b].call.key);
    }
    WarmChain(c, tr, b + 1, e, t, acts[b].call.key);
  }
}
