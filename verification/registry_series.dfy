/** The two limits of a registry together: getOrCreate bounds its instruments, the attribute
    cache bounds what each of them is recorded with. */
module RegistrySeries {
  import opened Arith
  import opened RecordSeries
  import Instruments
  import Registry = RegistryMachine
  import Record = RecordMachine

  /** Somebody was handed this instrument. */
  predicate Issued(answers: seq<Registry.Answer>, inst: nat) {
    exists a :: 0 <= a < |answers| && answers[a].Handle? && answers[a].h == inst
  }

  function Below(n: nat): (r: set<nat>)
    ensures |r| == n && forall i: nat :: i in r <==> i < n
  {
    if n == 0 then {} else Below(n - 1) + {n - 1}
  }

  lemma IssuedAreRegistered(rc: Registry.Config, rtr: seq<Registry.State>, racts: seq<Registry.Action>, k: nat, inst: nat)
    requires Registry.IsRun(rc, rtr, racts) && k < |rtr| && Issued(rtr[k].answers, inst)
    ensures inst < |rtr[k].registered| <= rc.max
  {
    var a :| 0 <= a < |rtr[k].answers| && rtr[k].answers[a].Handle? && rtr[k].answers[a].h == inst;
    Registry.RunOk(rc, rtr, racts, k);
    assert Registry.AnswerOk(rc, rtr[k].registered, rtr[k].answers[a]);
  }

  /** However many goroutines ask for instruments and record with them, handles without
      WithAttrs produce at most maxInstruments times (maxEntries + 2) series. */
  lemma RegistryBound(rc: Registry.Config, rtr: seq<Registry.State>, racts: seq<Registry.Action>, k: nat,
                      c: Record.Config, tr: seq<Record.State>, acts: seq<Record.Action>, i: nat)
    requires Registry.IsRun(rc, rtr, racts) && k < |rtr|
    requires Record.IsRun(c, tr, acts) && i < |tr|
    requires forall m :: m in tr[i].meter ==> Issued(rtr[k].answers, m.call.inst)
    ensures |BareSeries(tr[i].meter)| <= rc.max * (c.max + 2)
  {
    var n := |rtr[k].registered|;
    forall m | m in tr[i].meter ensures m.call.inst in Below(n) {
      IssuedAreRegistered(rc, rtr, racts, k, m.call.inst);
    }
    SeriesBound(c, tr, acts, i, Below(n));
    RegisteredWithinLimit(rc, rtr, racts, k);
    MulMono(c.max + 2, n, rc.max);
  }

  lemma RegisteredWithinLimit(rc: Registry.Config, rtr: seq<Registry.State>, racts: seq<Registry.Action>, k: nat)
    requires Registry.IsRun(rc, rtr, racts) && k < |rtr|
    ensures |rtr[k].registered| <= rc.max
  {
    Registry.NeverOrphans(rc, rtr, racts, k, Instruments.Name(Instruments.CounterKind, []));
  }
}
