/** The three tables of a registry: counters, histograms and gauges by name. */
module Instruments {
  import opened Labels

  datatype Kind = CounterKind | HistogramKind | GaugeKind

  datatype Name = Name(kind: Kind, text: Label)

  datatype Tables<H> = Tables(counters: map<Label, H>, hists: map<Label, H>, gauges: map<Label, H>)

  function Find<H>(t: Tables<H>, n: Name): Option<H> {
    var table := match n.kind case CounterKind => t.counters case HistogramKind => t.hists case GaugeKind => t.gauges;
    if n.text in table then Some(table[n.text]) else None
  }

  function Put<H>(t: Tables<H>, n: Name, h: H): (r: Tables<H>)
    ensures Find(r, n) == Some(h)
    ensures forall m :: m != n ==> Find(r, m) == Find(t, m)
  {
    match n.kind
    case CounterKind => t.(counters := t.counters[n.text := h])
    case HistogramKind => t.(hists := t.hists[n.text := h])
    case GaugeKind => t.(gauges := t.gauges[n.text := h])
  }

  /** `instrumentCount`. */
  function Count<H>(t: Tables<H>): nat {
    |t.counters| + |t.hists| + |t.gauges|
  }

  lemma PutCount<H>(t: Tables<H>, n: Name, h: H)
    requires Find(t, n).None?
    ensures Count(Put(t, n, h)) == Count(t) + 1
  {
  }

  function Named(kind: Kind, texts: set<Label>): (r: set<Name>)
    ensures forall n :: n in r <==> n.kind == kind && n.text in texts
  {
    set x | x in texts :: Name(kind, x)
  }

  function Names<H>(t: Tables<H>): set<Name> {
    Named(CounterKind, t.counters.Keys) + Named(HistogramKind, t.hists.Keys) + Named(GaugeKind, t.gauges.Keys)
  }

  lemma NamesMembers<H>(t: Tables<H>, n: Name)
    ensures n in Names(t) <==> Find(t, n).Some?
  {
  }

  lemma {:induction false} NamedSize(kind: Kind, texts: set<Label>)
    ensures |Named(kind, texts)| == |texts|
  {
    if x :| x in texts {
      NamedSize(kind, texts - {x});
      assert Named(kind, texts) == Named(kind, texts - {x}) + {Name(kind, x)};
    }
  }

  lemma NamesSize<H>(t: Tables<H>)
    ensures |Names(t)| == Count(t)
  {
    NamedSize(CounterKind, t.counters.Keys);
    NamedSize(HistogramKind, t.hists.Keys);
    NamedSize(GaugeKind, t.gauges.Keys);
    KindsApart(t.counters.Keys, t.hists.Keys, t.gauges.Keys);
    UnionSize(Named(CounterKind, t.counters.Keys), Named(HistogramKind, t.hists.Keys), Named(GaugeKind, t.gauges.Keys));
  }

  lemma KindsApart(a: set<Label>, b: set<Label>, c: set<Label>)
    ensures Named(CounterKind, a) !! Named(HistogramKind, b)
    ensures (Named(CounterKind, a) + Named(HistogramKind, b)) !! Named(GaugeKind, c)
  {
  }
}
