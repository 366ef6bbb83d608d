/** The instrument registry and its handles, one goroutine at a time. RegistryMachine and
    RecordMachine have the interleavings. */
module Registries {
  import opened Labels
  import opened CappedMap
  import opened AttrCaches
  import opened Instruments

  /** `atomic.Uint64` shared by a Telemetry and its handles. */
  class Epoch {
    var value: nat

    constructor ()
      ensures value == 0
    {
      value := 0;
    }
  }

  /** One recording that reached the meter. */
  datatype Sent = Sent(inst: nat, n: int, opts: seq<AttrSet>)

  /** The meter: which instruments were registered with it, what was recorded. */
  class Meter {
    var registered: seq<Name>
    var sent: seq<Sent>

    constructor ()
      ensures registered == [] && sent == []
    {
      registered, sent := [], [];
    }

    /** `Int64Counter` and its siblings; `ok` says whether the SDK accepts the instrument. */
    method Create(name: Name, ok: bool) returns (inst: Option<nat>)
      modifies this`registered
      ensures inst == if ok then Some(|old(registered)|) else None
      ensures registered == if ok then old(registered) + [name] else old(registered)
    {
      if !ok {
        return None;
      }
      inst := Some(|registered|);
      registered := registered + [name];
    }

    method Record(inst: nat, n: int, opts: seq<AttrSet>)
      modifies this`sent
      ensures sent == old(sent) + [Sent(inst, n, opts)]
    {
      sent := sent + [Sent(inst, n, opts)];
    }
  }

  /** FastCounter, FastHistogram and FastGauge: the same fields and the same text. */
  class Handle {
    const kind: Kind
    const inst: nat
    const meter: Meter
    const cache: AttrCache
    const epochPtr: Epoch?
    const opts: seq<AttrSet>
    const epoch: nat

    constructor (kind: Kind, inst: nat, meter: Meter, cache: AttrCache, epochPtr: Epoch?, opts: seq<AttrSet>, epoch: nat)
      ensures this.kind == kind && this.inst == inst && this.meter == meter && this.cache == cache
      ensures this.epochPtr == epochPtr && this.opts == opts && this.epoch == epoch
    {
      this.kind, this.inst, this.meter, this.cache := kind, inst, meter, cache;
      this.epochPtr, this.opts, this.epoch := epochPtr, opts, epoch;
    }

    /** `instrumentLive`. */
    predicate Live()
      reads epochPtr
    {
      epochPtr == null || epochPtr.value == epoch
    }

    /** A derived handle lives and dies with the one it comes from. */
    method WithAttrs(attrs: AttrSet) returns (h: Handle)
      ensures fresh(h) && h.opts == if attrs == map[] then [] else [attrs]
      ensures h.kind == kind && h.inst == inst && h.meter == meter && h.cache == cache
      ensures h.epochPtr == epochPtr && h.epoch == epoch
    {
      h := new Handle(kind, inst, meter, cache, epochPtr, AttrsToOpts(attrs), epoch);
    }

    method Add(n: int)
      modifies meter`sent
      ensures meter.sent == if epochPtr == null || epochPtr.value == epoch then old(meter.sent) + [Sent(inst, n, opts)]
                            else old(meter.sent)
    {
      if !Live() {
        return;
      }
      if |opts| > 0 {
        meter.Record(inst, n, opts);
        return;
      }
      meter.Record(inst, n, []);
    }

    /** `addWithOpts`: the three ways the option list is put together come to the same. */
    method AddWithOpts(n: int, more: seq<AttrSet>)
      modifies meter`sent
      ensures meter.sent == old(meter.sent) + [Sent(inst, n, opts + more)]
    {
      if |opts| == 0 {
        assert opts + more == more;
        meter.Record(inst, n, more);
        return;
      }
      if |opts| == 1 && |more| == 1 {
        assert opts + more == [opts[0], more[0]];
        meter.Record(inst, n, [opts[0], more[0]]);
        return;
      }
      var combined: seq<AttrSet> := [];
      combined := combined + opts;
      combined := combined + more;
      assert combined == opts + more;
      meter.Record(inst, n, combined);
    }

    /** AddWith, AddWith2 and AddWith3. A stale handle or a denied label changes nothing in the
        meter; otherwise the amount goes to the series of the capped map's answer. */
    method AddWith(n: int, key: Key)
      requires cache.Valid()
      modifies meter`sent, cache.Footprint()
      ensures cache.Valid()
      ensures Live() <==> epochPtr == null || epochPtr.value == epoch
      ensures !Live() ==> meter.sent == old(meter.sent) && cache.order == old(cache.order)
      ensures Live() && key.AllEmpty() ==>
                meter.sent == old(meter.sent) + [Sent(inst, n, opts)] && cache.order == old(cache.order)
      ensures Live() && !key.AllEmpty() && cache.denyUnknown && !LabelsAllowed(key.Parts(), cache.allowed) ==>
                meter.sent == old(meter.sent) && cache.order == old(cache.order)
      ensures Live() && !key.AllEmpty() && !(cache.denyUnknown && !LabelsAllowed(key.Parts(), cache.allowed)) ==>
                var (order, ans) := Intern(cache.maxEntries, old(cache.order), key);
                && cache.order == order
                && meter.sent == old(meter.sent) + [Sent(inst, n, opts + EntryFor(key, ans).addOpts)]
      ensures Live() && !key.AllEmpty() && !(cache.denyUnknown && !LabelsAllowed(key.Parts(), cache.allowed)) ==>
                exists m :: && meter.sent == old(meter.sent) + [Sent(inst, n, opts + [m])]
                            && if key in old(cache.order) || |old(cache.order)| < cache.maxEntries then Labelled(m, key)
                               else LabelledOverflow(m)
    {
      if !Live() {
        return;
      }
      if key.AllEmpty() {
        Add(n);
        return;
      }
      var entry := cache.LookupKey(key);
      if entry.None? {
        return;
      }
      AddWithOpts(n, entry.value.addOpts);
    }
  }

  datatype Outcome = Got(h: Handle) | TooMany | CreateFailed

  class Registry {
    const meter: Meter
    const cache: AttrCache
    const epochPtr: Epoch?
    const epoch: nat
    const maxInstruments: nat
    var counters: map<Label, Handle>
    var hists: map<Label, Handle>
    var gauges: map<Label, Handle>

    function Stored(): Tables<Handle>
      reads this
    {
      Tables(counters, hists, gauges)
    }

    /** A stored handle is the one made for its registration, with this registry's epoch. */
    ghost predicate Mine(name: Name, h: Handle, registered: seq<Name>) {
      && h.kind == name.kind && h.inst < |registered| && registered[h.inst] == name
      && h.meter == meter && h.cache == cache && h.epochPtr == epochPtr && h.epoch == epoch
    }

    /** What is registered with the meter is exactly what is stored. */
    ghost predicate Matches(t: Tables<Handle>, registered: seq<Name>) {
      && |registered| == Count(t) <= maxInstruments && NoDup(registered)
      && (forall name :: Find(t, name).Some? ==> Mine(name, Find(t, name).value, registered))
    }

    ghost predicate Valid()
      reads this, meter
    {
      Matches(Stored(), meter.registered)
    }

    ghost predicate Blank()
      reads this, meter
    {
      Stored() == Tables(map[], map[], map[]) && meter.registered == []
    }

    constructor (meter: Meter, cache: AttrCache, epochPtr: Epoch?, epoch: nat, maxInstruments: int)
      requires meter.registered == []
      ensures Valid() && Blank()
      ensures this.meter == meter && this.cache == cache && this.epochPtr == epochPtr && this.epoch == epoch
      ensures this.maxInstruments == NormInstruments(maxInstruments)
    {
      this.meter, this.cache, this.epochPtr, this.epoch := meter, cache, epochPtr, epoch;
      this.maxInstruments := NormInstruments(maxInstruments);
      counters, hists, gauges := map[], map[], map[];
    }

    /** A name is registered exactly when it is stored. */
    lemma NamesRegistered(t: Tables<Handle>, registered: seq<Name>, name: Name)
      requires Matches(t, registered)
      ensures name in registered <==> Find(t, name).Some?
    {
      forall n | n in Names(t) ensures n in registered {
        NamesMembers(t, n);
        assert Mine(n, Find(t, n).value, registered);
      }
      NamesSize(t);
      SameSizeCovers(Names(t), registered);
      NamesMembers(t, name);
    }

    lemma PutMatches(t: Tables<Handle>, registered: seq<Name>, name: Name, h: Handle)
      requires Matches(t, registered) && Count(t) < maxInstruments && Find(t, name).None?
      requires Mine(name, h, registered + [name])
      ensures Matches(Put(t, name, h), registered + [name])
    {
      NamesRegistered(t, registered, name);
      NoDupAppend(registered, [name]);
      PutCount(t, name, h);
    }

    /** `getOrCreate` behind Counter, Histogram and Gauge. A known name resolves to its handle
        even at the limit; an error leaves registry and meter as they were. */
    method GetOrCreate(name: Name, ok: bool) returns (r: Outcome)
      requires Valid()
      modifies this`counters, this`hists, this`gauges, meter`registered
      ensures Valid()
      ensures var known := Find(old(Stored()), name);
              r.Got? && known.Some? ==> r.h == known.value
      ensures r.Got? <==> Find(old(Stored()), name).Some? || (old(Count(Stored())) < maxInstruments && ok)
      ensures r.TooMany? <==> Find(old(Stored()), name).None? && old(Count(Stored())) == maxInstruments
      ensures r.Got? && Find(old(Stored()), name).None? ==>
                && Stored() == Put(old(Stored()), name, r.h) && meter.registered == old(meter.registered) + [name]
                && fresh(r.h) && r.h.opts == [] && Mine(name, r.h, meter.registered)
      ensures !(r.Got? && Find(old(Stored()), name).None?) ==>
                Stored() == old(Stored()) && meter.registered == old(meter.registered)
    {
      var existing := Find(Stored(), name);
      if existing.Some? {
        return Got(existing.value);
      }
      if Count(Stored()) >= maxInstruments {
        return TooMany;
      }
      var created := meter.Create(name, ok);
      if created.None? {
        return CreateFailed;
      }
      var h := new Handle(name.kind, created.value, meter, cache, epochPtr, [], epoch);
      PutMatches(Stored(), old(meter.registered), name, h);
      match name.kind {
        case CounterKind => counters := counters[name.text := h];
        case HistogramKind => hists := hists[name.text := h];
        case GaugeKind => gauges := gauges[name.text := h];
      }
      r := Got(h);
    }
  }
}
