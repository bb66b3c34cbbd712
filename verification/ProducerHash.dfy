/**
  The table from thread ids to implicit producers, used by any number of threads at once.

  It is a chain of open-addressed tables with linear probing, each at least twice as large as the
  one before. Threads take slots by compare-and-swap; one count of ids, shared by all tables, decides
  when to add a table, which one thread at a time may do; an id found in an old table is copied to
  the table that was newest when the search began. Allocation may fail at any time.

  A thread's id is its position in `pcs`. A load followed by a compare-and-swap that fails on the
  same slot is one step, since a slot that is taken stays taken. No producer is ever recycled,
  because implicit producers become inactive only through thread-exit callbacks, which are compiled out.
 */
module ProducerHash {
  import opened Basics

  type ProducerId = nat

  datatype Slot = Empty | Full(tid: Tid)

  /** `prev` is the index of the table before, or -1. */
  datatype Table = Table(prev: int, keys: seq<Slot>, vals: seq<ProducerId>)

  /** In the probe loops `d` is a history variable: how many slots were probed before `index`. */
  datatype Pc =
    | Idle
    | LoadMain
    | Look(main: nat, table: nat, index: nat, d: nat)
    | CopyKey(main: nat, index: nat, d: nat, value: ProducerId)
    | StoreValue(table: nat, index: nat, value: ProducerId)
    | FetchAdd(main: nat)
    | TryLock(main: nat, n: int)
    | Reload(n: int)               // the resize lock is held
    | Allocate(main: nat, n: int)
    | Unlock(main: nat, n: int)
    | UnlockFail
    | CheckRoom(main: nat, n: int)
    | Create(main: nat, n: int)
    | InsertKey(main: nat, index: nat, d: nat, value: ProducerId)

  /** Where a thread's id was first put, and with which producer. */
  datatype Membership = Outside | Member(producer: ProducerId, at: nat, slot: nat)

  datatype Holder = Nobody | HeldBy(who: Tid)

  datatype State = State(
    tables: seq<Table>,      // oldest first; the last one is `implicitProducerHash`
    count: int,
    resizing: bool,
    pcs: seq<Pc>,
    hash: seq<nat>,          // the hash of each thread's id
    // history variables
    reg: seq<Tid>,           // the threads that are counted, in the order they were
    member: seq<Membership>,
    ownerOf: seq<Tid>,       // the thread each producer was created for
    holder: Holder,          // of the resize lock
    results: seq<seq<ProducerId>>  // what the calls of each thread returned, null left out
  )

  // ---- The program ----

  /** The d-th slot of the probe sequence that starts at `home`. */
  function Probe(home: nat, d: nat, capacity: nat): nat {
    if home + d < capacity then home + d else home + d - capacity
  }

  /** `index & (capacity - 1)` of a hash, for a capacity that is a power of two. */
  function Home(hash: nat, capacity: nat): (r: nat)
    requires capacity > 0
    ensures r < capacity
  {
    hash % capacity
  }

  function Wrapped(index: nat, capacity: nat): nat {
    if index == capacity then 0 else index
  }

  /** Three quarters of a capacity, as computed: `(capacity >> 1) + (capacity >> 2)`. */
  function Limit(capacity: nat): nat {
    capacity / 2 + capacity / 4
  }

  /** The first of capacity, 2 * capacity, ... whose half exceeds n. */
  function Enough(capacity: nat, n: int): (r: nat)
    requires capacity > 0
    ensures r >= capacity && n < r / 2
    decreases 2 * n + 2 - capacity
  {
    if n >= capacity / 2 then Enough(2 * capacity, n) else capacity
  }

  function Capacity(tables: seq<Table>, j: nat): nat
    requires j < |tables|
  {
    |tables[j].keys|
  }

  ghost predicate TableAt(s: State, j: nat) {
    j < |s.tables| && 0 < |s.tables[j].keys| == |s.tables[j].vals|
  }

  ghost predicate HasMain(s: State) {
    |s.tables| > 0 && TableAt(s, |s.tables| - 1)
  }

  datatype Action =
    | Call(t: Tid)
    | Step(t: Tid)
    | FailAlloc(t: Tid)    // no memory for a bigger table
    | FailCreate(t: Tid)   // no memory for a producer

  ghost predicate Enabled(s: State, a: Action) {
    a.t < |s.pcs| &&
    match a
    case Call(t) => s.pcs[t].Idle?
    case Step(t) => !s.pcs[t].Idle?
    case FailAlloc(t) => s.pcs[t].Allocate?
    case FailCreate(t) => s.pcs[t].Create?
  }

  /** Every access is in bounds, and no probe sequence is longer than its table. */
  ghost predicate InBounds(s: State, a: Action) {
    && a.t < |s.pcs| == |s.hash| == |s.member| == |s.results|
    && (a.Step? ==>
          match s.pcs[a.t]
          case Idle => false
          case LoadMain => HasMain(s)
          case Look(main, table, index, d) =>
            && TableAt(s, main) && TableAt(s, table) && index < Capacity(s.tables, table) && d < Capacity(s.tables, table)
            && (s.tables[table].prev >= 0 ==> TableAt(s, s.tables[table].prev))
          case CopyKey(main, index, d, value) => TableAt(s, main) && index < Capacity(s.tables, main) && d < Capacity(s.tables, main)
          case StoreValue(table, index, value) => TableAt(s, table) && index < Capacity(s.tables, table)
          case TryLock(main, n) => TableAt(s, main)
          case Reload(n) => HasMain(s)
          case Allocate(main, n) => TableAt(s, main)
          case CheckRoom(main, n) => TableAt(s, main) && HasMain(s)
          case Create(main, n) => TableAt(s, main)
          case InsertKey(main, index, d, value) => TableAt(s, main) && index < Capacity(s.tables, main) && d < Capacity(s.tables, main)
          case _ => true)
  }

  ghost function Goto(s: State, t: Tid, pc: Pc): State
    requires t < |s.pcs|
  {
    s.(pcs := s.pcs[t := pc])
  }

  ghost function Return(s: State, t: Tid, value: ProducerId): State
    requires t < |s.pcs| == |s.results|
  {
    Goto(s, t, Idle).(results := s.results[t := s.results[t] + [value]])
  }

  ghost function WithKey(tables: seq<Table>, j: nat, i: nat, t: Tid): seq<Table>
    requires j < |tables| && i < |tables[j].keys|
  {
    tables[j := tables[j].(keys := tables[j].keys[i := Full(t)])]
  }

  ghost function WithValue(tables: seq<Table>, j: nat, i: nat, value: ProducerId): seq<Table>
    requires j < |tables| && i < |tables[j].vals|
  {
    tables[j := tables[j].(vals := tables[j].vals[i := value])]
  }

  /** Probe for the thread's own id, in this table and then in those before. */
  ghost function LookStep(s: State, t: Tid, main: nat, table: nat, index: nat, d: nat): State
    requires InBounds(s, Step(t)) && s.pcs[t] == Look(main, table, index, d)
  {
    var tb := s.tables[table];
    if tb.keys[index] == Full(t) then
      if table == main then Return(s, t, tb.vals[index])
      else Goto(s, t, CopyKey(main, Home(s.hash[t], Capacity(s.tables, main)), 0, tb.vals[index]))
    else if tb.keys[index] == Empty then
      if tb.prev < 0 then Goto(s, t, FetchAdd(main))
      else Goto(s, t, Look(main, tb.prev, Home(s.hash[t], Capacity(s.tables, tb.prev)), 0))
    else Goto(s, t, Look(main, table, Wrapped(index + 1, |tb.keys|), d + 1))
  }

  ghost function CopyKeyStep(s: State, t: Tid, main: nat, index: nat, d: nat, value: ProducerId): State
    requires InBounds(s, Step(t)) && s.pcs[t] == CopyKey(main, index, d, value)
  {
    if s.tables[main].keys[index] == Empty
    then Goto(s, t, StoreValue(main, index, value)).(tables := WithKey(s.tables, main, index, t))
    else Goto(s, t, CopyKey(main, Wrapped(index + 1, Capacity(s.tables, main)), d + 1, value))
  }

  ghost function InsertKeyStep(s: State, t: Tid, main: nat, index: nat, d: nat, value: ProducerId): State
    requires InBounds(s, Step(t)) && s.pcs[t] == InsertKey(main, index, d, value)
  {
    if s.tables[main].keys[index] == Empty
    then Goto(s, t, StoreValue(main, index, value)).(tables := WithKey(s.tables, main, index, t),
                                                     member := s.member[t := Member(value, main, index)])
    else Goto(s, t, InsertKey(main, Wrapped(index + 1, Capacity(s.tables, main)), d + 1, value))
  }

  ghost function NewTable(prev: nat, capacity: nat): Table {
    Table(prev, seq(capacity, _ => Empty), seq(capacity, _ => 0))
  }

  ghost function AllocateStep(s: State, t: Tid, main: nat, n: int): State
    requires InBounds(s, Step(t)) && s.pcs[t] == Allocate(main, n)
  {
    var capacity := Enough(2 * Capacity(s.tables, main), n);
    Goto(s, t, Unlock(|s.tables|, n)).(tables := s.tables + [NewTable(main, capacity)])
  }

  ghost function StepOf(s: State, t: Tid): State
    requires InBounds(s, Step(t))
  {
    match s.pcs[t]
    case LoadMain =>
      var main := |s.tables| - 1;
      Goto(s, t, Look(main, main, Home(s.hash[t], Capacity(s.tables, main)), 0))
    case Look(main, table, index, d) => LookStep(s, t, main, table, index, d)
    case CopyKey(main, index, d, value) => CopyKeyStep(s, t, main, index, d, value)
    case StoreValue(table, index, value) => Return(s, t, value).(tables := WithValue(s.tables, table, index, value))
    case FetchAdd(main) => Goto(s, t, TryLock(main, s.count + 1)).(count := s.count + 1, reg := s.reg + [t])
    case TryLock(main, n) =>
      if n >= Capacity(s.tables, main) / 2 && !s.resizing
      then Goto(s, t, Reload(n)).(resizing := true, holder := HeldBy(t))
      else Goto(s, t, CheckRoom(main, n))
    case Reload(n) =>
      var main := |s.tables| - 1;
      Goto(s, t, if n >= Capacity(s.tables, main) / 2 then Allocate(main, n) else Unlock(main, n))
    case Allocate(main, n) => AllocateStep(s, t, main, n)
    case Unlock(main, n) => Goto(s, t, CheckRoom(main, n)).(resizing := false, holder := Nobody)
    case UnlockFail => Goto(s, t, Idle).(resizing := false, holder := Nobody)
    case CheckRoom(main, n) =>
      Goto(s, t, if n < Limit(Capacity(s.tables, main)) then Create(main, n) else TryLock(|s.tables| - 1, n))
    case Create(main, n) =>
      Goto(s, t, InsertKey(main, Home(s.hash[t], Capacity(s.tables, main)), 0, |s.ownerOf|)).(ownerOf := s.ownerOf + [t])
    case InsertKey(main, index, d, value) => InsertKeyStep(s, t, main, index, d, value)
  }

  /** The other ids keep their order when t is no longer counted. */
  ghost function Without(reg: seq<Tid>, t: Tid): seq<Tid> {
    if reg == [] then [] else if reg[0] == t then reg[1..] else [reg[0]] + Without(reg[1..], t)
  }

  ghost function Apply(s: State, a: Action): State
    requires InBounds(s, a)
  {
    match a
    case Call(t) => Goto(s, t, LoadMain)
    case Step(t) => StepOf(s, t)
    case FailAlloc(t) => Goto(s, t, UnlockFail).(count := s.count - 1, reg := Without(s.reg, t))
    case FailCreate(t) => Goto(s, t, Idle).(count := s.count - 1, reg := Without(s.reg, t))
  }

  ghost predicate Init(s: State) {
    && |s.tables| == 1 && s.tables[0].prev == -1 && 0 < |s.tables[0].keys| == |s.tables[0].vals|
    && (forall i :: 0 <= i < |s.tables[0].keys| ==> s.tables[0].keys[i] == Empty)
    && s.count == 0 && !s.resizing && s.reg == [] && s.ownerOf == [] && s.holder == Nobody
    && |s.hash| == |s.member| == |s.results| == |s.pcs|
    && (forall t :: 0 <= t < |s.pcs| ==> s.pcs[t] == Idle && s.member[t] == Outside && s.results[t] == [])
  }

  // ---- The invariant ----

  /** t is among the first n that are counted. */
  ghost predicate Among(reg: seq<Tid>, t: Tid, n: int) {
    exists i :: 0 <= i < n && i < |reg| && reg[i] == t
  }

  ghost predicate NotIn(tb: Table, t: Tid) {
    forall i :: 0 <= i < |tb.keys| ==> tb.keys[i] != Full(t)
  }

  /** The tables after the first `from` do not hold t. */
  ghost predicate AbsentFrom(tables: seq<Table>, t: Tid, from: nat) {
    forall j :: from <= j < |tables| ==> NotIn(tables[j], t)
  }

  /** The first d slots of a probe sequence are taken. */
  ghost predicate Taken(keys: seq<Slot>, home: nat, d: nat) {
    && home < |keys| && d <= |keys|
    && forall k: nat :: k < d ==> keys[Probe(home, k, |keys|)].Full?
  }

  ghost function Distance(home: nat, i: nat, capacity: nat): nat
    requires home < capacity
  {
    if home <= i then i - home else i + capacity - home
  }

  /** A key is counted early enough, and no empty slot is between its home and it. */
  ghost predicate KeyOk(tb: Table, hash: seq<nat>, reg: seq<Tid>, i: nat) {
    i < |tb.keys| && tb.keys[i].Full? ==>
      && tb.keys[i].tid < |hash|
      && Among(reg, tb.keys[i].tid, Limit(|tb.keys|) - 1)
      && Taken(tb.keys, Home(hash[tb.keys[i].tid], |tb.keys|), Distance(Home(hash[tb.keys[i].tid], |tb.keys|), i, |tb.keys|))
  }

  ghost predicate Different(keys: seq<Slot>, i: nat, j: nat) {
    i < j < |keys| && keys[i].Full? && keys[j].Full? ==> keys[i] != keys[j]
  }

  ghost predicate TableOk(tb: Table, hash: seq<nat>, reg: seq<Tid>) {
    && 0 < |tb.keys| == |tb.vals|
    && (forall i :: 0 <= i < |tb.keys| ==> KeyOk(tb, hash, reg, i))
    && (forall i, j :: 0 <= i < j < |tb.keys| ==> Different(tb.keys, i, j))
  }

  ghost predicate LinkOk(tables: seq<Table>, j: nat) {
    j < |tables| && tables[j].prev == j - 1 && (j > 0 ==> 2 * |tables[j - 1].keys| <= |tables[j].keys|)
  }

  ghost predicate TablesOk(tables: seq<Table>, hash: seq<nat>, reg: seq<Tid>) {
    && tables != []
    && (forall j :: 0 <= j < |tables| ==> TableOk(tables[j], hash, reg))
    && (forall j :: 0 <= j < |tables| ==> LinkOk(tables, j))
  }

  /** An id that was put in a table is there still; any other is in no table and not counted. */
  ghost predicate Settled(tables: seq<Table>, reg: seq<Tid>, ownerOf: seq<Tid>, m: Membership, t: Tid) {
    match m
    case Outside => AbsentFrom(tables, t, 0) && t !in reg
    case Member(p, j, i) =>
      && j < |tables| && i < |tables[j].keys| && tables[j].keys[i] == Full(t)
      && p < |ownerOf| && ownerOf[p] == t
  }

  ghost predicate Waiting(tables: seq<Table>, reg: seq<Tid>, m: Membership, t: Tid, n: int) {
    m == Outside && AbsentFrom(tables, t, 0) && Among(reg, t, n)
  }

  ghost predicate Probing(tables: seq<Table>, hash: nat, j: nat, index: nat, d: nat) {
    && j < |tables| && 0 < |tables[j].keys| && d < |tables[j].keys|
    && index == Probe(Home(hash, |tables[j].keys|), d, |tables[j].keys|)
    && Taken(tables[j].keys, Home(hash, |tables[j].keys|), d)
  }

  ghost predicate NotAmongFirst(tables: seq<Table>, hash: nat, j: nat, d: nat, t: Tid) {
    && j < |tables| && 0 < |tables[j].keys| && d <= |tables[j].keys|
    && forall k: nat :: k < d ==> tables[j].keys[Probe(Home(hash, |tables[j].keys|), k, |tables[j].keys|)] != Full(t)
  }

  ghost predicate ThreadOk(tables: seq<Table>, reg: seq<Tid>, ownerOf: seq<Tid>, holder: Holder, hash: nat, m: Membership, t: Tid, pc: Pc) {
    match pc
    case Idle => Settled(tables, reg, ownerOf, m, t)
    case LoadMain => Settled(tables, reg, ownerOf, m, t)
    case Look(main, table, index, d) =>
      && Settled(tables, reg, ownerOf, m, t) && table <= main < |tables|
      && AbsentFrom(tables, t, table + 1) && (m.Member? ==> m.at <= table)
      && Probing(tables, hash, table, index, d) && NotAmongFirst(tables, hash, table, d, t)
    case CopyKey(main, index, d, value) =>
      && Settled(tables, reg, ownerOf, m, t) && m.Member? && value == m.producer && m.at < main
      && main < |tables| && AbsentFrom(tables, t, main) && Probing(tables, hash, main, index, d)
    case StoreValue(table, index, value) =>
      && Settled(tables, reg, ownerOf, m, t) && m.Member? && value == m.producer
      && table < |tables| && index < |tables[table].keys| && tables[table].keys[index] == Full(t)
    case FetchAdd(main) => m == Outside && Settled(tables, reg, ownerOf, m, t) && main < |tables|
    case TryLock(main, n) => Waiting(tables, reg, m, t, n) && main < |tables|
    case Reload(n) => Waiting(tables, reg, m, t, n) && holder == HeldBy(t)
    case Allocate(main, n) => Waiting(tables, reg, m, t, n) && holder == HeldBy(t) && main == |tables| - 1
    case Unlock(main, n) => Waiting(tables, reg, m, t, n) && holder == HeldBy(t) && main < |tables|
    case UnlockFail => m == Outside && Settled(tables, reg, ownerOf, m, t) && holder == HeldBy(t)
    case CheckRoom(main, n) => Waiting(tables, reg, m, t, n) && main < |tables|
    case Create(main, n) => Waiting(tables, reg, m, t, n) && main < |tables| && n < Limit(|tables[main].keys|)
    case InsertKey(main, index, d, value) =>
      && main < |tables| && Waiting(tables, reg, m, t, Limit(|tables[main].keys|) - 1)
      && Probing(tables, hash, main, index, d)
      && value < |ownerOf| && ownerOf[value] == t
  }

  ghost predicate ThreadsOk(tables: seq<Table>, reg: seq<Tid>, ownerOf: seq<Tid>, holder: Holder, hash: seq<nat>,
                            member: seq<Membership>, pcs: seq<Pc>) {
    && |hash| == |member| == |pcs|
    && forall t :: 0 <= t < |pcs| ==> ThreadOk(tables, reg, ownerOf, holder, hash[t], member[t], t, pcs[t])
  }

  /** The value beside a key is its thread's producer, once stored. */
  ghost predicate ValueOk(tables: seq<Table>, member: seq<Membership>, pcs: seq<Pc>, j: nat, i: nat) {
    j < |tables| && i < |tables[j].keys| && tables[j].keys[i].Full? ==>
      var t := tables[j].keys[i].tid;
      && t < |member| && t < |pcs| && i < |tables[j].vals| && member[t].Member?
      && ((pcs[t].StoreValue? && pcs[t].table == j && pcs[t].index == i) || tables[j].vals[i] == member[t].producer)
  }

  ghost predicate ValuesOk(tables: seq<Table>, member: seq<Membership>, pcs: seq<Pc>) {
    forall j: nat, i: nat :: j < |tables| && i < |tables[j].keys| ==> ValueOk(tables, member, pcs, j, i)
  }

  ghost predicate AllDistinct(reg: seq<Tid>) {
    forall i, j :: 0 <= i < j < |reg| ==> reg[i] != reg[j]
  }

  ghost predicate RegOk(reg: seq<Tid>, count: int) {
    count == |reg| && AllDistinct(reg)
  }

  ghost predicate ResultOk(m: Membership, results: seq<ProducerId>) {
    forall k :: 0 <= k < |results| ==> m.Member? && results[k] == m.producer
  }

  ghost predicate ResultsOk(member: seq<Membership>, results: seq<seq<ProducerId>>) {
    |results| == |member| && forall t :: 0 <= t < |results| ==> ResultOk(member[t], results[t])
  }

  ghost predicate Inv(s: State) {
    && TablesOk(s.tables, s.hash, s.reg)
    && ThreadsOk(s.tables, s.reg, s.ownerOf, s.holder, s.hash, s.member, s.pcs)
    && ValuesOk(s.tables, s.member, s.pcs)
    && RegOk(s.reg, s.count)
    && (s.resizing <==> s.holder != Nobody)
    && ResultsOk(s.member, s.results)
  }

  lemma InitInv(s: State)
    requires Init(s)
    ensures Inv(s)
  {
    forall t | 0 <= t < |s.pcs| ensures ThreadOk(s.tables, s.reg, s.ownerOf, s.holder, s.hash[t], s.member[t], t, s.pcs[t]) {
      assert NotIn(s.tables[0], t);
    }
  }
}
