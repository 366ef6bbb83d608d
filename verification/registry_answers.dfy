/** What every request for an instrument is answered, over whole runs of RegistryMachine. */
module RegistryAnswers {
  import opened Labels
  import opened Instruments
  import opened RegistryMachine

  /** Thread `t` is still in the request it made at action `b`. */
  ghost predicate InAsk(tr: seq<State>, acts: seq<Action>, b: nat, e: nat, t: nat) {
    && b < e < |tr| && b < |acts| && acts[b].Ask? && acts[b].t == t
    && forall x :: b < x <= e ==> t < |tr[x].threads| && !tr[x].threads[t].Idle?
  }

  /** The request for `n` gets a handle: that of the one registration of its name. */
  predicate Granted(s: State, s': State, n: Name) {
    exists h: nat | h < |s'.registered| :: s'.registered[h] == n && s'.answers == s.answers + [Handle(n, h)]
  }

  /** The request of thread `t` for `n` gets an error, and changes nothing else: there is no such
      instrument, and either the tables are full, or they are not and the SDK said no. */
  predicate Refused(c: Config, s: State, a: Action, s': State, t: nat, n: Name) {
    && a.Go? && a.t == t && Find(s.tables, n).None? && s'.tables == s.tables && s'.registered == s.registered
    && if Count(s.tables) >= c.max then s'.answers == s.answers + [Error(n, s.tables, true)]
       else !a.ok && s'.answers == s.answers + [Error(n, s.tables, false)]
  }

  /** What a step of a request under way amounts to: it is granted as it returns, refused when it
      goes to give the lock back empty-handed, or not answered yet. */
  predicate StepAnswers(c: Config, s: State, a: Action, s': State, t: nat, p: Pc, p': Pc)
    requires !p.Idle?
  {
    if p'.Idle? then if p == AtUnlock(p.n, None) then s'.answers == s.answers else Granted(s, s', p.n)
    else
      && p'.n == p.n
      && if p' == AtUnlock(p.n, None) then Refused(c, s, a, s', t, p.n) else s'.answers == s.answers
  }

  lemma GoAnswers(c: Config, s: State, a: Action)
    requires AllOk(c, s) && Can(s, a) && a.Go?
    ensures a.t < |Apply(c, s, a).threads|
    ensures StepAnswers(c, s, a, Apply(c, s, a), a.t, s.threads[a.t], Apply(c, s, a).threads[a.t])
  {
    var p := s.threads[a.t];
    var s' := Apply(c, s, a);
    assert PcOk(c, s.tables, s.registered, p);
    if p.AtUnlock? && p.r.Some? {
      assert s'.answers == s.answers + [Handle(p.n, p.r.value)];
    }
    if p.AtRUnlockHit? {
      assert s'.answers == s.answers + [Handle(p.n, p.h)];
    }
  }

  lemma ActionAnswers(c: Config, tr: seq<State>, acts: seq<Action>, k: nat, t: nat)
    requires IsRun(c, tr, acts) && k < |acts| && t < |tr[k].threads| && !tr[k].threads[t].Idle?
    ensures t < |tr[k + 1].threads|
    ensures var p, p' := tr[k].threads[t], tr[k + 1].threads[t];
            if acts[k].Go? && acts[k].t == t then StepAnswers(c, tr[k], acts[k], tr[k + 1], t, p, p') else p' == p
  {
    RunOk(c, tr, acts, k);
    LocksShift(c, tr[k], acts[k]);
    if acts[k].Go? {
      GoAnswers(c, tr[k], acts[k]);
    }
  }

  /** The request was refused at one of the actions after `b` and before `e`. */
  ghost predicate WasRefused(c: Config, tr: seq<State>, acts: seq<Action>, b: nat, e: nat, t: nat, n: Name)
    requires e < |tr| == |acts| + 1
  {
    exists k: nat | k < e :: b < k && Refused(c, tr[k], acts[k], tr[k + 1], t, n)
  }

  /** What a request under way for `n` must have seen to be where it is. */
  ghost predicate Story(c: Config, tr: seq<State>, acts: seq<Action>, b: nat, x: nat, t: nat, n: Name)
    requires x < |tr| == |acts| + 1
  {
    && t < |tr[x].threads| && !tr[x].threads[t].Idle? && tr[x].threads[t].n == n
    && (tr[x].threads[t] == AtUnlock(n, None) ==> WasRefused(c, tr, acts, b, x, t, n))
  }

  lemma StoryBegins(c: Config, tr: seq<State>, acts: seq<Action>, b: nat, t: nat)
    requires IsRun(c, tr, acts) && b < |acts| && acts[b].Ask? && acts[b].t == t
    ensures Story(c, tr, acts, b, b + 1, t, acts[b].n)
  {
    assert tr[b + 1] == Apply(c, tr[b], acts[b]);
  }

  lemma StoryGoesOn(c: Config, tr: seq<State>, acts: seq<Action>, b: nat, x: nat, t: nat, n: Name)
    requires IsRun(c, tr, acts) && b < x < |acts| && Story(c, tr, acts, b, x, t, n)
    requires t < |tr[x + 1].threads| && !tr[x + 1].threads[t].Idle?
    ensures Story(c, tr, acts, b, x + 1, t, n)
  {
    ActionAnswers(c, tr, acts, x, t);
  }

  ghost predicate StoryKept(c: Config, tr: seq<State>, acts: seq<Action>, b: nat, x: nat, t: nat, n: Name)
    requires |tr| == |acts| + 1
  {
    x + 1 < |tr| && (Story(c, tr, acts, b, x, t, n) ==> Story(c, tr, acts, b, x + 1, t, n))
  }

  lemma {:induction false} StoryChain(c: Config, tr: seq<State>, acts: seq<Action>, b: nat, e: nat, t: nat, n: Name)
    requires |tr| == |acts| + 1 && b < e < |tr| && Story(c, tr, acts, b, b + 1, t, n)
    requires forall x: nat | b < x < e :: StoryKept(c, tr, acts, b, x, t, n)
    ensures Story(c, tr, acts, b, e, t, n)
    decreases e
  {
    if b + 1 < e {
      StoryChain(c, tr, acts, b, e - 1, t, n);
      assert StoryKept(c, tr, acts, b, e - 1, t, n);
    }
  }

  lemma AskStory(c: Config, tr: seq<State>, acts: seq<Action>, b: nat, e: nat, t: nat)
    requires IsRun(c, tr, acts) && InAsk(tr, acts, b, e, t)
    ensures Story(c, tr, acts, b, e, t, acts[b].n)
  {
    StoryBegins(c, tr, acts, b, t);
    forall x: nat | b < x < e ensures StoryKept(c, tr, acts, b, x, t, acts[b].n) {
      if Story(c, tr, acts, b, x, t, acts[b].n) {
        StoryGoesOn(c, tr, acts, b, x, t, acts[b].n);
      }
    }
    StoryChain(c, tr, acts, b, e, t, acts[b].n);
  }

  /** Every request that returns was answered: with the handle of its name, or earlier with an
      error, because the tables were full or because the SDK said no. */
  lemma AskIsAnswered(c: Config, tr: seq<State>, acts: seq<Action>, b: nat, e: nat, t: nat)
    requires IsRun(c, tr, acts) && InAsk(tr, acts, b, e, t)
    requires e < |acts| && acts[e].t == t && t < |tr[e + 1].threads| && tr[e + 1].threads[t].Idle?
    ensures || Granted(tr[e], tr[e + 1], acts[b].n)
            || (tr[e + 1].answers == tr[e].answers && WasRefused(c, tr, acts, b, e, t, acts[b].n))
  {
    AskStory(c, tr, acts, b, e, t);
    ActionAnswers(c, tr, acts, e, t);
  }
}
