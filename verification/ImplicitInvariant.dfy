/** The invariant of an implicit producer and its consumers. */
module ImplicitInvariant {
  import opened Basics
  import opened Blocks
  import opened Deliveries
  import opened ImplicitQueue

  ghost predicate MemoryOk(next: seq<Ptr>, counters: seq<nat>, cells: seq<seq<Cell>>, where: seq<int>) {
    && |next| == |counters| == |cells| == |where|
    && (forall b :: 0 <= b < |cells| ==> |cells[b]| == BLOCK_SIZE)
  }

  // ---- Every block is in one place ----

  /** Number n still has its block; `back` blocks of a failed operation have been returned. */
  ghost predicate Holds(order: seq<Block>, phase: seq<Phase>, back: nat, n: nat) {
    && n < |order|
    && (n < |phase| ==> !phase[n].Gone?)
    && (n >= |phase| ==> n >= |phase| + back)
  }

  ghost predicate NumberAt(order: seq<Block>, phase: seq<Phase>, where: seq<int>, back: nat, n: nat) {
    Holds(order, phase, back, n) ==> order[n] < |where| && where[order[n]] == n
  }

  ghost predicate PlaceAt(order: seq<Block>, phase: seq<Phase>, where: seq<int>, pool: set<Block>, back: nat, b: Block) {
    && b < |where| && (where[b] == IN_POOL || where[b] == ELSEWHERE || where[b] >= 0)
    && (b in pool <==> where[b] == IN_POOL)
    && (where[b] >= 0 ==> Holds(order, phase, back, where[b]) && order[where[b]] == b)
  }

  /** The numbers that hold blocks and the blocks that neither the pool nor others have are in one-to-one correspondence. */
  ghost predicate PlacesOk(order: seq<Block>, phase: seq<Phase>, where: seq<int>, pool: set<Block>, back: nat) {
    && |phase| + back <= |order|
    && (forall n :: 0 <= n < |order| ==> NumberAt(order, phase, where, back, n))
    && (forall b :: 0 <= b < |where| ==> PlaceAt(order, phase, where, pool, back, b))
    && (forall b :: b in pool ==> b < |where|)
  }

  // ---- The block index ----

  ghost predicate Listed(h: Header, ent: seq<EntryId>, n: nat) {
    && h.capacity > 0 && h.first <= n < |ent|
    && SlotOf(n - h.first, h.capacity) < |h.index|
    && h.index[SlotOf(n - h.first, h.capacity)] == ent[n]
  }

  ghost predicate SlotsIn(index: seq<EntryId>, nKeys: nat) {
    forall j :: 0 <= j < |index| ==> index[j] < nKeys
  }

  /** A header, current or not, lists the entry of every number it ever had that has not lost its entry. */
  ghost predicate HeaderOk(h: Header, ent: seq<EntryId>, lo: nat, nKeys: nat) {
    && h.capacity > 0 && |h.index| == h.capacity && h.tail < h.capacity
    && h.first <= lo && h.limit <= |ent|
    && h.first - 1 <= h.tailNum < h.limit
    && (h.first <= h.tailNum ==> h.tail == SlotOf(h.tailNum - h.first, h.capacity))
    && SlotsIn(h.index, nKeys)
    && forall n :: lo <= n < h.limit ==> Listed(h, ent, n)
  }

  ghost predicate HeadersOk(headers: seq<Header>, ent: seq<EntryId>, lo: nat, nKeys: nat) {
    forall j :: 0 <= j < |headers| ==> HeaderOk(headers[j], ent, lo, nKeys)
  }

  ghost predicate KeyAt(keys: seq<Key>, ent: seq<EntryId>, n: nat) {
    n < |ent| && ent[n] < |keys| && keys[ent[n]] == Key(Base(n))
  }

  ghost predicate KeysOk(keys: seq<Key>, ent: seq<EntryId>, lo: nat) {
    lo <= |ent| && forall n :: lo <= n < |ent| ==> KeyAt(keys, ent, n)
  }

  ghost predicate Injective(index: seq<EntryId>) {
    forall i, j :: 0 <= i < j < |index| ==> index[i] != index[j]
  }

  /** Slots from number `used` on have never been used. */
  ghost predicate UnusedFrom(index: seq<EntryId>, keys: seq<Key>, used: nat) {
    forall j :: used <= j < |index| ==> index[j] < |keys| && keys[index[j]] == Invalid
  }

  ghost predicate CurrentOk(headers: seq<Header>, keys: seq<Key>, ent: seq<EntryId>, lo: nat, nextCapacity: nat, tailNum: int) {
    && headers != []
    && var h := Last(headers);
    && h.capacity > 0 && h.first <= |ent| && h.limit == |ent|
    && lo == (if |ent| <= h.first + h.capacity then h.first else |ent| - h.capacity)
    && h.tailNum == tailNum && h.first - 1 <= tailNum
    && NextSlot(h.tail, h.capacity) == SlotOf(tailNum + 1 - h.first, h.capacity)
    && nextCapacity == 2 * h.capacity
    && Injective(h.index)
    && UnusedFrom(h.index, keys, |ent| - h.first)
  }

  /** Block numbers from `vlo` on, of the operation under way, are in the index. */
  ghost predicate ValueAt(vals: seq<Value>, ent: seq<EntryId>, order: seq<Block>, phase: seq<Phase>, vlo: nat, n: nat) {
    && n < |ent| && ent[n] < |vals|
    && (n < |phase| ==> n < |order| && vals[ent[n]] == if phase[n].Live? || phase[n].Draining? then Is(order[n]) else Nothing)
    && (n >= |phase| ==> vals[ent[n]] == if vlo <= n < |order| then Is(order[n]) else Nothing)
  }

  ghost predicate ValuesOk(vals: seq<Value>, ent: seq<EntryId>, lo: nat, order: seq<Block>, phase: seq<Phase>, vlo: nat, skip: int) {
    forall n :: lo <= n < |ent| && n != skip ==> ValueAt(vals, ent, order, phase, vlo, n)
  }

  // ---- Phases and counters ----

  /** How many of the indices [a, b) are done. */
  ghost function Count(done: seq<bool>, a: nat, b: nat): nat
    decreases b - a
  {
    if a >= b then 0 else (if a < |done| && done[a] then 1 else 0) + Count(done, a + 1, b)
  }

  ghost predicate AllDone(done: seq<bool>, n: nat) {
    Base(n + 1) <= |done| && forall i :: Base(n) <= i < Base(n + 1) ==> done[i]
  }

  ghost predicate PhaseAt(phase: seq<Phase>, order: seq<Block>, counters: seq<nat>, done: seq<bool>, lo: nat, n: nat) {
    && n < |phase| && n < |order|
    && match phase[n]
       case Live =>
         lo <= n && order[n] < |counters| && counters[order[n]] == Count(done, Base(n), Base(n + 1)) && counters[order[n]] < BLOCK_SIZE
       case Draining(t) => lo <= n && AllDone(done, n)
       case _ => AllDone(done, n)
  }

  ghost predicate PhasesOk(phase: seq<Phase>, order: seq<Block>, counters: seq<nat>, done: seq<bool>, lo: nat) {
    forall n :: 0 <= n < |phase| ==> PhaseAt(phase, order, counters, done, lo, n)
  }

  ghost predicate FreerAt(phase: seq<Phase>, cons: seq<Consumer>, n: nat) {
    && n < |phase|
    && (phase[n].Draining? ==> var t := phase[n].who;
          t < |cons| && cons[t].Busy? && cons[t].stage.NullEntry? && cons[t].stage.num == n)
    && (phase[n].Loose? ==> var t := phase[n].who;
          t < |cons| && cons[t].Busy? && cons[t].stage.AddBlock? && cons[t].stage.num == n)
  }

  /** A block found empty is in the hands of the consumer that found it so. */
  ghost predicate FreersOk(phase: seq<Phase>, cons: seq<Consumer>) {
    forall n :: 0 <= n < |phase| ==> FreerAt(phase, cons, n)
  }

  // ---- Elements ----

  /** Element i is where the block numbers say it should be. */
  ghost predicate CellOk(order: seq<Block>, where: seq<int>, cells: seq<seq<Cell>>, elems: seq<Elem>, i: nat) {
    && Num(i) < |order|
    && var b := order[Num(i)];
    && b < |where| && b < |cells| && where[b] == Num(i) && |cells[b]| == BLOCK_SIZE
    && i < |elems| && cells[b][Off(i)] == Full(elems[i])
  }

  ghost predicate CellsOn(order: seq<Block>, where: seq<int>, cells: seq<seq<Cell>>, elems: seq<Elem>, i: nat, j: nat) {
    forall k :: i <= k < j ==> CellOk(order, where, cells, elems, k)
  }

  ghost predicate UnclaimedOk(order: seq<Block>, where: seq<int>, cells: seq<seq<Cell>>, elems: seq<Elem>,
                              done: seq<bool>, owner: seq<Tid>, head: nat, tail: nat) {
    && |owner| == |done| == head && head <= tail <= |elems|
    && CellsOn(order, where, cells, elems, head, |elems|)
  }

  // ---- The producer ----

  ghost function Back(prod: Producer): nat {
    if prod.Running? && prod.stage.GiveBack? then prod.stage.k else 0
  }

  ghost function ValuedFrom(prod: Producer, order: seq<Block>, phase: seq<Phase>): nat {
    if prod.Running? && prod.stage.Undo? then |phase| + prod.stage.k
    else if prod.Running? && prod.stage.GiveBack? then |order|
    else |phase|
  }

  /** The number whose entry is being given a block. */
  ghost function Pending(prod: Producer, order: seq<Block>): int {
    if prod.Running? && (prod.stage.InsertTail? || prod.stage.Requisition?) then |order| else -1
  }

  ghost function TailNum(prod: Producer, order: seq<Block>, phase: seq<Phase>): int {
    if prod.Running? && prod.stage.Undo? then |order| - 1 - prod.stage.k
    else if prod.Running? && prod.stage.GiveBack? then |phase| - 1
    else if prod.Running? && prod.stage.Requisition? then |order|
    else |order| - 1
  }

  ghost predicate ChainAt(next: seq<Ptr>, order: seq<Block>, n: nat) {
    && n < |order| && order[n] < |next|
    && next[order[n]] == if n + 1 < |order| then At(order[n + 1]) else Null
  }

  /** The blocks of the operation under way are chained by `next`, from the tail's block if it has room. */
  ghost predicate ChainOk(next: seq<Ptr>, order: seq<Block>, n: nat, tail: nat, back: nat) {
    && (forall m :: n + back <= m < |order| ==> ChainAt(next, order, m))
    && (Off(tail) != 0 && back == 0 && n < |order| ==>
          n > 0 && order[n - 1] < |next| && next[order[n - 1]] == At(order[n]))
  }

  ghost predicate OperationOk(op: Operation, order: seq<Block>, n: nat, tail: nat, tailBlock: Ptr) {
    && n <= |order|
    && op.nextBase == Base(|order|)
    && op.startBlock == tailBlock
    && op.firstAlloc == (if n < |order| then At(order[n]) else Null)
    && op.tailBlock == (if n < |order| then At(order[|order| - 1]) else tailBlock)
    && |order| + op.need == BlocksFor(tail + |op.items|)
  }

  ghost predicate StageOf(op: Operation, stage: ProducerStage, order: seq<Block>, n: nat, tail: nat, elems: seq<Elem>) {
    match stage
    case Acquire => |elems| == tail && op.need > 0
    case InsertTail(slot, e) => |elems| == tail && op.need > 0
    case Requisition(e) => |elems| == tail && op.need > 0
    case Undo(at, base, k) =>
      && |elems| == tail && n + k <= |order| && base == Base(n + k)
      && at == (if n + k < |order| then At(order[n + k]) else Null)
    case GiveBack(at, k) =>
      && |elems| == tail && n + k <= |order|
      && at == (if n + k < |order| then At(order[n + k]) else Null)
    case Construct(k, into) =>
      && op.need == 0 && k <= |op.items| && |elems| == tail + k
      && elems[tail..] == op.items[..k]
      && (k < |op.items| ==> Num(tail + k) < |order| && into == At(order[Num(tail + k)]))
    case StoreTail => op.need == 0 && |elems| == tail + |op.items| && elems[tail..] == op.items
  }

  /** The entry in hand is the next number's. */
  ghost predicate EntryStage(stage: ProducerStage, headers: seq<Header>, ent: seq<EntryId>, n: nat) {
    match stage
    case InsertTail(slot, e) =>
      n < |ent| && e == ent[n] && headers != [] && slot == NextSlot(Last(headers).tail, Last(headers).capacity)
    case Requisition(e) => n < |ent| && e == ent[n]
    case _ => true
  }

  ghost predicate FreshCounters(counters: seq<nat>, order: seq<Block>, from: nat) {
    forall n :: from <= n < |order| ==> order[n] < |counters| && counters[order[n]] == 0
  }

  ghost predicate TailOk(tail: nat, tailBlock: Ptr, order: seq<Block>, n: nat) {
    && n == BlocksFor(tail) && n <= |order|
    && tailBlock == if n > 0 then At(order[n - 1]) else Null
  }

  ghost predicate ProducerOk(prod: Producer, order: seq<Block>, n: nat, tail: nat, tailBlock: Ptr, elems: seq<Elem>) {
    && TailOk(tail, tailBlock, order, n)
    && (prod.Ready? ==> |order| == n && |elems| == tail)
    && (prod.Running? ==> OperationOk(prod.op, order, n, tail, tailBlock) && StageOf(prod.op, prod.stage, order, n, tail, elems))
  }

  // ---- Consumers ----

  ghost predicate NotDone(done: seq<bool>, k: nat) {
    k < |done| && !done[k]
  }

  ghost predicate Undone(done: seq<bool>, i: nat, j: nat) {
    forall k :: i <= k < j ==> NotDone(done, k)
  }

  ghost predicate JobOk(order: seq<Block>, where: seq<int>, cells: seq<seq<Cell>>, elems: seq<Elem>,
                        owner: seq<Tid>, done: seq<bool>, n: nat, t: Tid, c: Consumer) {
    c.Busy? ==>
      && c.first <= c.from <= c.index <= c.end <= |owner| && c.first < c.end <= |elems|
      && Num(c.end - 1) < n
      && (forall i :: c.first <= i < c.end ==> owner[i] == t)
      && Undone(done, c.from, c.end)
      && CellsOn(order, where, cells, elems, c.index, c.end)
      && c.got == elems[c.first..c.index]
  }

  /** Header h lists the numbers n to m, and `slot` is that of n. */
  ghost predicate SlotAt(headers: seq<Header>, h: nat, slot: nat, n: nat, m: nat) {
    && h < |headers| && headers[h].capacity > 0
    && headers[h].first <= n && m < headers[h].limit
    && slot == SlotOf(n - headers[h].first, headers[h].capacity)
  }

  ghost predicate StageOk(headers: seq<Header>, order: seq<Block>, phase: seq<Phase>, t: Tid, c: Consumer) {
    c.Busy? && c.first < c.end ==>
      var m := Num(c.end - 1);
      match c.stage
      case LoadHeader => c.index == c.from == c.first
      case LoadTail(h) => c.index == c.from == c.first && h < |headers| && m <= headers[h].tailNum
      case ReadKey(h, front, num) =>
        && c.index == c.from == c.first && h < |headers| && headers[h].capacity > 0
        && headers[h].first <= Num(c.from) && m <= num < headers[h].limit
        && headers[h].first <= num && front == SlotOf(num - headers[h].first, headers[h].capacity)
      case ReadValue(h, slot) => c.index == c.from < c.end && SlotAt(headers, h, slot, Num(c.from), m)
      case Take(h, slot, b) =>
        && SlotAt(headers, h, slot, Num(c.from), m) && c.index < c.end
        && Num(c.index) == Num(c.from) < |order| && b == order[Num(c.from)]
      case SetEmpty(h, slot, b) =>
        && SlotAt(headers, h, slot, Num(c.from), m) && c.from < c.index
        && Num(c.index - 1) == Num(c.from) < |order| && b == order[Num(c.from)]
        && (c.index < c.end ==> c.index == Base(Num(c.from) + 1))
      case NullEntry(h, slot, b, n) => 0 <= n && FreeOk(headers, order, phase, h, slot, b, n, c.from, c.index, c.end) && phase[n] == Draining(t)
      case AddBlock(h, slot, b, n) => 0 <= n && FreeOk(headers, order, phase, h, slot, b, n, c.from, c.index, c.end) && phase[n] == Loose(t)
  }

  ghost predicate FreeOk(headers: seq<Header>, order: seq<Block>, phase: seq<Phase>, h: nat, slot: nat, b: Block, n: nat,
                         from: nat, index: nat, end: nat) {
    && 0 < index == from <= end && n < |phase| && n < |order|
    && SlotAt(headers, h, slot, n, Num(end - 1)) && b == order[n]
    && Num(index - 1) == n && (index < end ==> index == Base(n + 1))
  }

  ghost predicate ConsumerOk(order: seq<Block>, where: seq<int>, phase: seq<Phase>, cells: seq<seq<Cell>>, elems: seq<Elem>,
                             owner: seq<Tid>, done: seq<bool>, headers: seq<Header>, t: Tid, c: Consumer) {
    JobOk(order, where, cells, elems, owner, done, |phase|, t, c) && StageOk(headers, order, phase, t, c)
  }

  ghost predicate ConsumersOk(order: seq<Block>, where: seq<int>, phase: seq<Phase>, cells: seq<seq<Cell>>, elems: seq<Elem>,
                              owner: seq<Tid>, done: seq<bool>, headers: seq<Header>, cons: seq<Consumer>) {
    forall t :: 0 <= t < |cons| ==> ConsumerOk(order, where, phase, cells, elems, owner, done, headers, t, cons[t])
  }

  // ---- Together ----

  ghost predicate BlocksInv(s: State) {
    && MemoryOk(s.next, s.counters, s.cells, s.where)
    && PlacesOk(s.order, s.phase, s.where, s.pool, Back(s.prod))
    && PhasesOk(s.phase, s.order, s.counters, s.done, s.lo)
    && FreersOk(s.phase, s.cons)
    && FreshCounters(s.counters, s.order, |s.phase| + Back(s.prod))
    && ChainOk(s.next, s.order, |s.phase|, s.tail, Back(s.prod))
  }

  ghost predicate IndexInv(s: State) {
    && HeadersOk(s.headers, s.ent, s.lo, |s.keys|)
    && KeysOk(s.keys, s.ent, s.lo)
    && CurrentOk(s.headers, s.keys, s.ent, s.lo, s.nextCapacity, TailNum(s.prod, s.order, s.phase))
    && |s.vals| == |s.keys| && s.lo <= |s.phase| <= |s.order| <= |s.ent|
    && ValuesOk(s.vals, s.ent, s.lo, s.order, s.phase, ValuedFrom(s.prod, s.order, s.phase), Pending(s.prod, s.order))
    && (s.prod.Running? ==> EntryStage(s.prod.stage, s.headers, s.ent, |s.order|))
  }

  ghost predicate Inv(s: State) {
    && BlocksInv(s)
    && IndexInv(s)
    && ProducerOk(s.prod, s.order, |s.phase|, s.tail, s.tailBlock, s.elems)
    && UnclaimedOk(s.order, s.where, s.cells, s.elems, s.done, s.owner, s.head, s.tail)
    && ConsumersOk(s.order, s.where, s.phase, s.cells, s.elems, s.owner, s.done, s.headers, s.cons)
    && LogOk(s.log, s.elems)
  }

  lemma InitInv(s: State, capacity: nat)
    requires Init(s, capacity)
    ensures Inv(s)
  {
  }
}
