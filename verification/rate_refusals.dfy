/** What a sampler refuses, over sequences of messages: the lower half of its limits. */
module RateRefusals {
  import opened RateSamplers

  /** The state of a sampler after messages `ms`. */
  function After(s: Sampler, ms: seq<Message>): (r: Sampler)
    requires s.Valid()
    ensures r.Valid() && r.globalLimit == s.globalLimit && r.levelLimit == s.levelLimit
  {
    if ms == [] then s
    else
      var m := ms[|ms| - 1];
      SampleStep(After(s, ms[..|ms| - 1]), m.lvl, m.now, m.later).0
  }

  lemma AfterNext(s: Sampler, ms: seq<Message>, i: nat)
    requires s.Valid() && i < |ms|
    ensures After(s, ms[..i + 1]) == SampleStep(After(s, ms[..i]), ms[i].lvl, ms[i].now, ms[i].later).0
  {
    assert ms[..i + 1][..i] == ms[..i];
  }

  /** Message `i` of `ms` is refused. */
  predicate Refused(s: Sampler, ms: seq<Message>, i: nat)
    requires s.Valid() && i < |ms|
  {
    !SampleStep(After(s, ms[..i]), ms[i].lvl, ms[i].now, ms[i].later).1
  }

  /** The messages from `j` to before `i` at level `lvl`. */
  function AtLevel(ms: seq<Message>, j: nat, i: nat, lvl: Level): nat
    requires j <= i <= |ms|
    decreases i
  {
    if i == j then 0 else AtLevel(ms, j, i - 1, lvl) + if ms[i - 1].lvl == lvl then 1 else 0
  }

  /** The messages from `j` to before `i` below fatal. */
  function BelowFatal(ms: seq<Message>, j: nat, i: nat): nat
    requires j <= i <= |ms|
    decreases i
  {
    if i == j then 0 else BelowFatal(ms, j, i - 1) + if Droppable(ms[i - 1].lvl) then 1 else 0
  }

  // ----- the counter of one level -----

  /** The counter stands in the window that message `j` of its level opened, and has counted no
      more than the messages of its level from there to `i`. */
  predicate LevelWindow(c: Counter, ms: seq<Message>, j: nat, i: nat, lvl: Level) {
    j < i <= |ms| && ms[j].lvl == lvl && c.resetAt == ms[j].now + TICK && c.count <= AtLevel(ms, j, i, lvl)
  }

  predicate LevelSince(c: Counter, ms: seq<Message>, i: nat, lvl: Level) {
    c == FRESH || exists j: nat | j < i :: LevelWindow(c, ms, j, i, lvl)
  }

  lemma LevelStep(r: Sampler, ms: seq<Message>, k: nat, lvl: Level)
    requires r.Valid() && Droppable(lvl) && k < |ms| && ms[k].now >= 0 && LevelSince(r.levels[lvl as int], ms, k, lvl)
    ensures LevelSince(SampleStep(r, ms[k].lvl, ms[k].now, ms[k].later).0.levels[lvl as int], ms, k + 1, lvl)
  {
    var c := r.levels[lvl as int];
    var c' := SampleStep(r, ms[k].lvl, ms[k].now, ms[k].later).0.levels[lvl as int];
    if c' != c && c.resetAt <= ms[k].now {
      assert LevelWindow(c', ms, k, k + 1, lvl);
    } else if c != FRESH {
      var j: nat :| j < k && LevelWindow(c, ms, j, k, lvl);
      assert LevelWindow(c', ms, j, k + 1, lvl);
    }
  }

  lemma {:induction false} LevelRun(s: Sampler, ms: seq<Message>, i: nat, lvl: Level)
    requires s.Valid() && Droppable(lvl) && s.levels[lvl as int] == FRESH && i <= |ms|
    requires forall k :: 0 <= k < |ms| ==> ms[k].now >= 0
    ensures LevelSince(After(s, ms[..i]).levels[lvl as int], ms, i, lvl)
  {
    if i > 0 {
      LevelRun(s, ms, i - 1, lvl);
      AfterNext(s, ms, i - 1);
      LevelStep(After(s, ms[..i - 1]), ms, i - 1, lvl);
    }
  }

  // ----- the global counter -----

  predicate GlobalWindow(c: Counter, ms: seq<Message>, j: nat, i: nat) {
    j < i <= |ms| && Droppable(ms[j].lvl) && c.resetAt == ms[j].later + TICK && c.count <= BelowFatal(ms, j, i)
  }

  predicate GlobalSince(c: Counter, ms: seq<Message>, i: nat) {
    c == FRESH || exists j: nat | j < i :: GlobalWindow(c, ms, j, i)
  }

  lemma GlobalStep(r: Sampler, ms: seq<Message>, k: nat)
    requires r.Valid() && k < |ms| && ms[k].later >= 0 && GlobalSince(r.global, ms, k)
    ensures GlobalSince(SampleStep(r, ms[k].lvl, ms[k].now, ms[k].later).0.global, ms, k + 1)
  {
    var c := r.global;
    var c' := SampleStep(r, ms[k].lvl, ms[k].now, ms[k].later).0.global;
    if c' != c && c.resetAt <= ms[k].later {
      assert GlobalWindow(c', ms, k, k + 1);
    } else if c != FRESH {
      var j: nat :| j < k && GlobalWindow(c, ms, j, k);
      assert GlobalWindow(c', ms, j, k + 1);
    }
  }

  lemma {:induction false} GlobalRun(s: Sampler, ms: seq<Message>, i: nat)
    requires s.Valid() && s.global == FRESH && i <= |ms|
    requires forall k :: 0 <= k < |ms| ==> ms[k].later >= 0
    ensures GlobalSince(After(s, ms[..i]).global, ms, i)
  {
    if i > 0 {
      GlobalRun(s, ms, i - 1);
      AfterNext(s, ms, i - 1);
      GlobalStep(After(s, ms[..i - 1]), ms, i - 1);
    }
  }

  // ----- the two together -----

  /** A message is refused exactly when it is below fatal and its level's counter or the global
      one is spent when it comes. */
  lemma RefusedIffSpent(s: Sampler, ms: seq<Message>, i: nat)
    requires s.Valid() && i < |ms|
    ensures var (m, r) := (ms[i], After(s, ms[..i]));
            Refused(s, ms, i) <==>
              && DEBUG_LEVEL <= m.lvl < FATAL_LEVEL
              && (Spent(r.levels[m.lvl as int], s.levelLimit[m.lvl as int], m.now) || Spent(r.global, s.globalLimit, m.later))
  {
  }

  /** Since less than a second ago `limit` messages of this level came before message `i`. */
  predicate LevelFull(ms: seq<Message>, i: nat, limit: nat)
    requires i < |ms|
  {
    && limit > 0
    && exists j: nat | j < i :: ms[j].lvl == ms[i].lvl && ms[j].now + TICK > ms[i].now && AtLevel(ms, j, i, ms[i].lvl) >= limit
  }

  predicate GlobalFull(ms: seq<Message>, i: nat, limit: nat)
    requires i < |ms|
  {
    && limit > 0
    && exists j: nat | j < i :: Droppable(ms[j].lvl) && ms[j].later + TICK > ms[i].later && BelowFatal(ms, j, i) >= limit
  }

  /** A new sampler refuses a message only when it is below fatal, and, beginning less than a
      second before it, its level's limit of messages of its level came, or the global limit of
      messages below fatal. */
  lemma RefusedOnlyAfterTheLimit(s: Sampler, ms: seq<Message>, i: nat)
    requires s.Valid() && i < |ms| && Refused(s, ms, i)
    requires s.global == FRESH && forall l :: 0 <= l < NUM_LEVELS ==> s.levels[l] == FRESH
    requires forall k :: 0 <= k < |ms| ==> ms[k].now >= 0 && ms[k].later >= 0
    ensures DEBUG_LEVEL <= ms[i].lvl < FATAL_LEVEL
    ensures LevelFull(ms, i, s.levelLimit[ms[i].lvl as int]) || GlobalFull(ms, i, s.globalLimit)
  {
    RefusedIffSpent(s, ms, i);
    var m, r := ms[i], After(s, ms[..i]);
    LevelRun(s, ms, i, m.lvl);
    GlobalRun(s, ms, i);
    if Spent(r.levels[m.lvl as int], s.levelLimit[m.lvl as int], m.now) {
      var j: nat :| j < i && LevelWindow(r.levels[m.lvl as int], ms, j, i, m.lvl);
      assert AtLevel(ms, j, i, m.lvl) >= s.levelLimit[m.lvl as int];
    } else {
      var j: nat :| j < i && GlobalWindow(r.global, ms, j, i);
      assert BelowFatal(ms, j, i) >= s.globalLimit;
    }
  }
}
