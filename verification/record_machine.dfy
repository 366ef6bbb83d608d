/** Any number of goroutines recording through one registry's attribute cache.

    Each goroutine is a program counter over the atomic actions of `AddWith`, `lookup`,
    `entry`, `reserveSlot` and `Subjects`: a lock taken or released, a map read under a lock,
    an atomic load, a compare-and-swap, an atomic add, one call into the meter. The three
    arities of `entry` have one text up to the key, so one set of counters serves all. */
module RecordMachine {
  import opened Labels
  import opened Shards
  import opened CappedMap
  import opened Threads

  /** What is fixed while a registry lives. `route` picks a key's shard; `epoch` is the
      registry's epoch, which a handle compares with the telemetry's. */
  datatype Config = Config(route: Key -> nat, max: nat, enabled: bool, deny: bool, epoch: nat)
  {
    ghost predicate Valid() {
      max > 0 && forall k :: route(k) < SHARDS
    }
  }

  /** One `AddWith*` call: the instrument, the options bound by WithAttrs, the labels, the amount. */
  datatype Call = Call(inst: nat, base: seq<AttrSet>, key: Key, n: int)

  /** A call in flight. `invoked` and `at` are history: how many lookups had taken effect
      when it began, and which of them is its own. */
  datatype Op = Op(call: Call, invoked: nat, at: nat)

  datatype Pc =
    | Idle
    | AtLive(o: Op)
    | AtAddLive(o: Op)
    | AtPlain(o: Op)
    | AtGate(o: Op)
    | AtNote(o: Op)
    | AtCountDenied(o: Op)
    | AtRLock(o: Op)
    | AtProbe(o: Op)
    | AtRUnlockHit(o: Op, e: Entry)
    | AtRUnlockMiss(o: Op)
    | AtLock(o: Op)
    | AtDrain(o: Op)
    | AtRecheck(o: Op)
    | AtLoad(o: Op, fails: nat, first: nat)
    | AtCas(o: Op, sz: nat, fails: nat, first: nat)
    | AtObserveWin(o: Op)
    | AtInsert(o: Op)
    | AtObserveMiss(o: Op)
    | AtObserveOverflow(o: Op)
    | AtUnlock(o: Op, e: Entry)
    | AtEmit(o: Op, e: Entry)
    | ScanLock(i: nat, out: multiset<Key>, start: set<Key>)
    | ScanRead(i: nat, out: multiset<Key>, start: set<Key>)
    | ScanUnlock(i: nat, out: multiset<Key>, start: set<Key>)

  /** What the meter is given: the call it comes from and the options sent along. */
  datatype Emission = Emission(call: Call, opts: seq<AttrSet>)

  /** A lookup that took effect: who, for which key, with which answer of the capped map. */
  datatype Lin = Lin(t: nat, key: Key, ans: Answer)

  /** A lookup that returned. */
  datatype Ret = Ret(t: nat, key: Key, e: Entry, invoked: nat, returned: nat)

  datatype Scan = Scan(out: multiset<Key>, start: set<Key>, end: set<Key>)

  datatype State = State(
    threads: seq<Pc>,
    locks: seq<RwLock>,
    shards: seq<Shard>,
    size: nat,
    epoch: nat,
    allowed: set<Label>,
    denyOnce: set<Label>,
    records: nat,
    overflows: nat,
    denied: nat,
    meter: seq<Emission>,
    // History: keys in compare-and-swap order, lookups in the order they took effect, the
    // lookups that returned by index into `lin`, finished scans.
    order: seq<Key>,
    lin: seq<Lin>,
    done: map<nat, Ret>,
    scans: seq<Scan>)

  ghost predicate Init(c: Config, s: State) {
    && c.Valid() && s.epoch == c.epoch
    && (forall t :: 0 <= t < |s.threads| ==> s.threads[t] == Idle)
    && |s.locks| == SHARDS && (forall i :: 0 <= i < SHARDS ==> s.locks[i] == FREE)
    && |s.shards| == SHARDS && (forall i :: 0 <= i < SHARDS ==> s.shards[i] == EMPTY_SHARD)
    && s.size == s.records == s.overflows == s.denied == 0
    && s.denyOnce == {} && s.meter == [] && s.order == [] && s.lin == [] && s.done == map[]
    && s.scans == []
  }

  /** The parts of the state that always have their shape. */
  ghost predicate Shape(c: Config, s: State) {
    c.Valid() && |s.locks| == SHARDS && |s.shards| == SHARDS
    && forall t :: 0 <= t < |s.threads| ==> ScanShape(s.threads[t])
  }

  predicate ScanShape(p: Pc) {
    match p
    case ScanLock(i, _, _) => i < SHARDS
    case ScanRead(i, _, _) => i < SHARDS
    case ScanUnlock(i, _, _) => i < SHARDS
    case _ => true
  }

  /** `isAllowed`. */
  predicate Allowed(c: Config, s: State, k: Key) {
    !c.deny || (s.allowed != {} && forall i :: 0 <= i < |k.Parts()| ==> k.Parts()[i] == [] || k.Parts()[i] in s.allowed)
  }

  function Goto(s: State, t: nat, p: Pc): State
    requires t < |s.threads|
  {
    s.(threads := s.threads[t := p])
  }

  /** Only taking a lock can wait. */
  ghost predicate Enabled(c: Config, s: State, t: nat)
    requires Shape(c, s)
  {
    && t < |s.threads|
    && match s.threads[t]
       case Idle => false
       case AtRLock(o) => s.locks[c.route(o.call.key)].CanRead()
       case AtLock(o) => s.locks[c.route(o.call.key)].CanAnnounce()
       case AtDrain(o) => s.locks[c.route(o.call.key)].Drained()
       case ScanLock(i, _, _) => s.locks[i].CanRead()
       case _ => true
  }

  function AddReader(s: State, i: nat, t: nat): State
    requires i < |s.locks|
  {
    s.(locks := s.locks[i := s.locks[i].(readers := s.locks[i].readers + {t})])
  }

  function DropReader(s: State, i: nat, t: nat): State
    requires i < |s.locks|
  {
    s.(locks := s.locks[i := s.locks[i].(readers := s.locks[i].readers - {t})])
  }

  function SetWriter(s: State, i: nat, w: Option<nat>): State
    requires i < |s.locks|
  {
    s.(locks := s.locks[i := s.locks[i].(writer := w)])
  }

  /** The lookup of thread `t` takes effect now, with answer `a`. */
  function Linearize(s: State, t: nat, o: Op, a: Answer): State {
    s.(lin := s.lin + [Lin(t, o.call.key, a)])
  }

  function Linearized(s: State, o: Op): Op {
    o.(at := |s.lin|)
  }

  // ----- one step of thread `t`: the text of the source, one atomic action at a time -----

  /** AddWith, Add and the deny gate of `lookup`. */
  predicate Calling(p: Pc) {
    p.Idle? || p.AtLive? || p.AtAddLive? || p.AtPlain? || p.AtGate? || p.AtNote? || p.AtCountDenied? || p.AtEmit?
  }

  ghost function ExecCall(c: Config, s: State, t: nat): State
    requires t < |s.threads| && Calling(s.threads[t])
  {
    match s.threads[t]
    // AddWith*: drop when the handle is stale; all-empty labels go to Add.
    case AtLive(o) =>
      Goto(s, t, if s.epoch != c.epoch then Idle else if o.call.key.AllEmpty() then AtAddLive(o) else AtGate(o))
    // Add
    case AtAddLive(o) =>
      Goto(s, t, if s.epoch != c.epoch then Idle else AtPlain(o))
    case AtPlain(o) =>
      Goto(s, t, Idle).(meter := s.meter + [Emission(o.call, o.call.base)])
    // lookup
    case AtGate(o) =>
      Goto(s, t, if Allowed(c, s, o.call.key) then AtRLock(o) else AtNote(o))
    // noteDenied
    case AtNote(o) =>
      var l := Join(o.call.key);
      Goto(s, t, if l in s.denyOnce then Idle else AtCountDenied(o)).(denyOnce := s.denyOnce + {l})
    case AtCountDenied(o) =>
      Goto(s, t, Idle).(denied := if c.enabled then s.denied + 1 else s.denied)
    // addWithOpts
    case AtEmit(o, e) =>
      Goto(s, t, Idle)
      .(meter := s.meter + [Emission(o.call, o.call.base + e.addOpts)],
        done := s.done[o.at := Ret(t, o.call.key, e, o.invoked, |s.lin|)])
    case _ => s
  }

  /** The two probes of `entry` and its locks. */
  predicate Probing(p: Pc) {
    p.AtRLock? || p.AtProbe? || p.AtRUnlockHit? || p.AtRUnlockMiss? || p.AtLock? || p.AtDrain?
    || p.AtRecheck? || p.AtUnlock?
  }

  ghost function ExecProbe(c: Config, s: State, t: nat): State
    requires Shape(c, s) && t < |s.threads| && Probing(s.threads[t])
  {
    var o := s.threads[t].o;
    var k := o.call.key;
    var i := c.route(k);
    match s.threads[t]
    case AtRLock(_) => AddReader(Goto(s, t, AtProbe(o)), i, t)
    case AtProbe(_) =>
      if Holds(s.shards[i], k)
      then Linearize(Goto(s, t, AtRUnlockHit(Linearized(s, o), Lookup(s.shards[i], k).value)), t, o, Own)
      else Goto(s, t, AtRUnlockMiss(o))
    case AtRUnlockHit(_, e) => DropReader(Goto(s, t, AtEmit(o, e)), i, t)
    case AtRUnlockMiss(_) => DropReader(Goto(s, t, AtLock(o)), i, t)
    case AtLock(_) => SetWriter(Goto(s, t, AtDrain(o)), i, Some(t))
    case AtDrain(_) => Goto(s, t, AtRecheck(o))
    case AtRecheck(_) =>
      if Holds(s.shards[i], k)
      then Linearize(Goto(s, t, AtUnlock(Linearized(s, o), Lookup(s.shards[i], k).value)), t, o, Own)
      else Goto(s, t, AtLoad(o, 0, s.size))
    case AtUnlock(_, e) => SetWriter(Goto(s, t, AtEmit(o, e)), i, None)
    case _ => s
  }

  /** `reserveSlot` and the insertion after it. */
  predicate Reserving(p: Pc) {
    p.AtLoad? || p.AtCas? || p.AtObserveWin? || p.AtInsert? || p.AtObserveMiss? || p.AtObserveOverflow?
  }

  ghost function ExecReserve(c: Config, s: State, t: nat): State
    requires Shape(c, s) && t < |s.threads| && Reserving(s.threads[t])
  {
    var o := s.threads[t].o;
    match s.threads[t]
    case AtLoad(_, fails, first) =>
      if s.size >= c.max then Linearize(Goto(s, t, AtObserveMiss(Linearized(s, o))), t, o, Overflow)
      else Goto(s, t, AtCas(o, s.size, fails, first))
    case AtCas(_, sz, fails, first) =>
      if s.size == sz
      then Linearize(Goto(s, t, AtObserveWin(Linearized(s, o))), t, o, Own).(size := s.size + 1, order := s.order + [o.call.key])
      else Goto(s, t, AtLoad(o, fails + 1, first))
    case AtObserveWin(_) =>
      Goto(s, t, AtInsert(o)).(records := if c.enabled then s.records + 1 else s.records)
    case AtObserveMiss(_) =>
      Goto(s, t, AtObserveOverflow(o)).(records := if c.enabled then s.records + 1 else s.records)
    case AtObserveOverflow(_) =>
      Goto(s, t, AtUnlock(o, NewEntry(OverflowAttrs()))).(overflows := if c.enabled then s.overflows + 1 else s.overflows)
    case AtInsert(_) =>
      var k := o.call.key;
      var i := c.route(k);
      Goto(s, t, AtUnlock(o, NewEntry(AttrsOf(k)))).(shards := s.shards[i := Put(s.shards[i], k, NewEntry(AttrsOf(k)))])
    case _ => s
  }

  /** `Subjects`: one shard after the other, each under its read lock. */
  predicate Scanning(p: Pc) {
    p.ScanLock? || p.ScanRead? || p.ScanUnlock?
  }

  ghost function ExecScan(c: Config, s: State, t: nat): State
    requires Shape(c, s) && t < |s.threads| && Scanning(s.threads[t])
  {
    match s.threads[t]
    case ScanLock(i, out, start) => AddReader(Goto(s, t, ScanRead(i, out, start)), i, t)
    case ScanRead(i, out, start) => Goto(s, t, ScanUnlock(i, out + multiset(KeySet(s.shards[i])), start))
    case ScanUnlock(i, out, start) =>
      if i + 1 < SHARDS then DropReader(Goto(s, t, ScanLock(i + 1, out, start)), i, t)
      else DropReader(Goto(s, t, Idle), i, t).(scans := s.scans + [Scan(out, start, AllKeys(s.shards))])
    case _ => s
  }

  ghost function Exec(c: Config, s: State, t: nat): State
    requires Shape(c, s) && Enabled(c, s, t)
  {
    var p := s.threads[t];
    if Calling(p) then ExecCall(c, s, t)
    else if Probing(p) then ExecProbe(c, s, t)
    else if Reserving(p) then ExecReserve(c, s, t)
    else ExecScan(c, s, t)
  }

  /** What can happen next: a thread moves on, an idle thread makes a call, the epoch is
      bumped by Start or Shutdown, or labels are registered. */
  datatype Action =
    | Go(t: nat)
    | AddWith(t: nat, call: Call)
    | Add(t: nat, call: Call)
    | Subjects(t: nat)
    | Bump
    | Allow(ls: set<Label>)

  ghost predicate Can(c: Config, s: State, a: Action)
    requires Shape(c, s)
  {
    match a
    case Go(t) => Enabled(c, s, t)
    case AddWith(t, _) => t < |s.threads| && s.threads[t] == Idle
    case Add(t, call) => t < |s.threads| && s.threads[t] == Idle && call.key.AllEmpty()
    case Subjects(t) => t < |s.threads| && s.threads[t] == Idle
    case Bump => true
    case Allow(ls) => true
  }

  ghost function Apply(c: Config, s: State, a: Action): State
    requires Shape(c, s) && Can(c, s, a)
  {
    match a
    case Go(t) => Exec(c, s, t)
    case AddWith(t, call) => Goto(s, t, AtLive(Op(call, |s.lin|, 0)))
    case Add(t, call) => Goto(s, t, AtAddLive(Op(call, |s.lin|, 0)))
    case Subjects(t) => Goto(s, t, ScanLock(0, multiset{}, AllKeys(s.shards)))
    case Bump => s.(epoch := s.epoch + 1)
    case Allow(ls) => s.(allowed := s.allowed + ls)
  }

  /** A run: the states a sequence of actions goes through. */
  ghost predicate IsRun(c: Config, tr: seq<State>, acts: seq<Action>) {
    && |tr| == |acts| + 1 && Init(c, tr[0])
    && forall i :: 0 <= i < |acts| ==> Shape(c, tr[i]) && Can(c, tr[i], acts[i]) && tr[i + 1] == Apply(c, tr[i], acts[i])
  }
}
