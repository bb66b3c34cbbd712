/**
  An explicit producer and its consumers, interleaved.

  The producer owns a circular linked list of blocks and a circular block index that is
  replaced by one of twice the size when it fills up. Consumers find the block of a claimed
  index through whichever index header, and whichever front slot of it, they happen to have
  loaded; both may be out of date when they are used.

  Steps are atomic operations on shared variables; the producer's private bookkeeping is
  joined to the step that precedes it. Setting the flags of several elements of a block, and
  resetting all flags of one, is one step. A consumer claims `count` indices in one step, which
  the module ClaimRefinement justifies. `dequeue` is `dequeue_bulk` of one; `enqueue` is
  `enqueue_bulk` of one element with its resetting and entering of the block in another order.
 */
module ExplicitQueue {
  import opened Basics
  import opened Blocks
  import opened Sequences
  import opened Deliveries
  import Circular

  datatype Entry = Entry(base: nat, block: Block)

  /**
    A block index header. `first`, `filled` and `frontNum` are history variables: slot 0 was for
    block number `first`, entries have been written for the numbers below `filled`, and the front
    slot is the one of number `frontNum`.
   */
  datatype Header = Header(size: nat, front: int, entries: seq<Entry>, first: nat, filled: nat, frontNum: int)

  /** How far a consumer is with a block of the indices it has claimed. */
  datatype Stage =
    | LoadHeader
    | LoadFront(h: nat)
    | ReadBase(h: nat, front: int, num: int)  // num is a history variable: the block number at `front`
    | ReadBlock(h: nat, slot: nat)
    | Take(h: nat, slot: nat, block: Block)
    | SetEmpty(h: nat, slot: nat, block: Block)

  /** Indices [first, end) are claimed, those below `index` are taken and those below `from` flagged. */
  datatype Consumer =
    | Idle
    | Busy(first: nat, end: nat, from: nat, index: nat, got: seq<Elem>, stage: Stage)

  datatype ProducerStage =
    | FromAhead                    // reusing empty blocks of the ring
    | FromPool                     // adding blocks to the ring
    | Reset(block: Block, j: nat)  // j is a history variable: the number of `block`
    | Publish
    | Construct(k: nat, into: Ptr)
    | StoreTail

  /**
    The local variables of an enqueue; `front0` and `used0` are what a failing exit restores. From
    `start` on they are history variables: the number of the first block to acquire, `lo` at the
    call, the blocks taken from ahead and from the pool so far, and whether the index was replaced.
   */
  datatype Operation = Operation(items: seq<Elem>, need: nat, nextBase: nat, startBlock: Ptr, firstAlloc: Ptr,
                                 front0: nat, used0: nat, start: nat, lo0: nat,
                                 reused: nat, inserted: nat, grown: bool)

  /** `result` is what the last call returned. */
  datatype Producer = Ready(result: bool) | Running(op: Operation, stage: ProducerStage)

  datatype State = State(
    // block memory
    next: seq<Block>,
    flags: seq<seq<bool>>,
    cells: seq<seq<Cell>>,
    // the producer's private variables
    tailBlock: Ptr,
    slotsUsed: nat,
    indexSize: nat,
    nextSlot: nat,
    prod: Producer,
    // shared variables
    headers: seq<Header>,   // all headers ever made; the last one is `blockIndex`
    tail: nat,
    head: nat,
    cons: seq<Consumer>,
    // history variables
    order: seq<Block>,      // order[n] is the block that holds block number n
    lo: nat,                // the ring holds block numbers lo, lo + 1, ...
    low: nat,               // the index has lost its entries for the numbers below `low`
    elems: seq<Elem>,       // elems[i] is the i-th element constructed
    owner: seq<Tid>,        // owner[i] is the consumer that claimed index i
    log: seq<Delivery>      // what finished consumers got
  )

  // ---- The program ----

  // Off(i) stands for `i & (BLOCK_SIZE - 1)` and Base(Num(i)) for `i & ~(BLOCK_SIZE - 1)`: see
  // NumIsQuotient in Blocks and LowMask and HighMask in Circular.

  predicate AllSet(fs: seq<bool>) {
    forall o :: 0 <= o < |fs| ==> fs[o]
  }

  /** The slot `k` places before `slot`. */
  function Back(slot: nat, k: nat, size: nat): (r: nat)
    requires slot < size && k <= size
    ensures r < size
  {
    if k <= slot then slot - k else slot + size - k
  }

  /** `new_block_index`: the entries in use, oldest first, then room for more. */
  function Copied(entries: seq<Entry>, nextSlot: nat, used: nat, size: nat): (r: seq<Entry>)
    requires used > 0 ==> nextSlot < |entries| && used <= |entries|
    ensures |r| == size
    ensures forall k :: 0 <= k < used && k < size ==> r[k] == entries[Back(nextSlot, used - k, |entries|)]
  {
    seq(size, k requires 0 <= k < size =>
      if k < used then entries[Back(nextSlot, used - k, |entries|)] else Entry(0, 0))
  }

  function Last(headers: seq<Header>): Header
    requires headers != []
  {
    headers[|headers| - 1]
  }

  /** The entry for the next block number, `num`, is written in the current header. */
  function Written(h: Header, slot: nat, base: nat, b: Block, num: nat): Header
    requires slot < |h.entries|
  {
    h.(entries := h.entries[slot := Entry(base, b)], filled := num + 1)
  }

  ghost predicate CanWrite(s: State) {
    s.headers != [] && s.nextSlot < |Last(s.headers).entries|
  }

  function Max(m: nat, n: nat): nat {
    if m < n then n else m
  }

  /** Number `n` is written over the entry of number n - size. */
  function Overwritten(low: nat, n: nat, size: nat): nat {
    if low + size <= n then n + 1 - size else low
  }

  /** The producer takes block `b` as its new tail block and puts it in the index. */
  ghost function Acquire(s: State, op: Operation, b: Block, stage: ProducerStage): State
    requires CanWrite(s) && s.indexSize > 0
  {
    var h := Written(Last(s.headers), s.nextSlot, op.nextBase, b, |s.order|);
    var op' := op.(need := if op.need > 0 then op.need - 1 else 0,
                   nextBase := op.nextBase + BLOCK_SIZE,
                   firstAlloc := if op.firstAlloc.Null? then At(b) else op.firstAlloc);
    s.(tailBlock := At(b),
       headers := s.headers[|s.headers| - 1 := h],
       nextSlot := NextSlot(s.nextSlot, s.indexSize),
       prod := Running(op', stage),
       order := s.order + [b],
       low := Overwritten(s.low, |s.order|, s.indexSize))
  }

  /** The block ahead, in the ring, of the producer's tail block. */
  ghost predicate HasAhead(s: State) {
    s.tailBlock.At? && s.tailBlock.block < |s.next|
  }

  ghost function Ahead(s: State): Block
    requires HasAhead(s)
  {
    s.next[s.tailBlock.block]
  }

  ghost predicate CanReuse(s: State) {
    && s.prod.Running? && s.prod.stage == FromAhead && s.prod.op.need > 0
    && HasAhead(s) && At(Ahead(s)) != s.prod.op.firstAlloc
    && Ahead(s) < |s.flags| && AllSet(s.flags[Ahead(s)])
  }

  ghost predicate IndexFull(s: State) {
    s.headers == [] || s.slotsUsed == s.indexSize
  }

  ghost function NewHeader(s: State, used0: nat): Header
    requires s.slotsUsed > 0 ==> s.headers != [] && s.nextSlot < |Last(s.headers).entries| && s.slotsUsed <= |Last(s.headers).entries|
  {
    var kept := if s.headers == [] then [] else Last(s.headers).entries;
    Header(2 * s.indexSize, used0 - 1, Copied(kept, s.nextSlot, s.slotsUsed, 2 * s.indexSize),
           s.lo, |s.order|, s.lo + used0 - 1)
  }

  ghost function StartOf(s: State, items: seq<Elem>): Producer {
    var op := Operation(items, Circular.BasesIn(s.tail, |items|, BLOCK_SIZE),
                        RoundUp(s.tail), s.tailBlock, Null, s.nextSlot, s.slotsUsed, |s.order|, s.lo, 0, 0, false);
    Running(op, if op.need == 0 then Construct(0, s.tailBlock) else FromAhead)
  }

  datatype Action =
    | Begin(items: seq<Elem>)  // enqueue or enqueue_bulk is called
    | Reuse                    // the block ahead is empty: take it
    | StopReuse                // it is not, or was not when its flags were read
    | Grow                     // the index is full: double it
    | Insert                   // a block from the pool goes into the ring
    | Fail                     // no memory, or MAX_SUBQUEUE_SIZE reached: undo, and return false
    | Produce                  // the producer's next step once it has its blocks
    | Claim(t: Tid, count: nat)
    | Consume(t: Tid)

  ghost predicate Enabled(s: State, a: Action) {
    match a
    case Begin(items) => s.prod.Ready?
    case Reuse => CanReuse(s)
    case StopReuse => s.prod.Running? && s.prod.stage == FromAhead
    case Grow => s.prod.Running? && s.prod.stage == FromPool && s.prod.op.need > 0 && IndexFull(s)
    case Insert => s.prod.Running? && s.prod.stage == FromPool && s.prod.op.need > 0 && !IndexFull(s)
    case Fail => s.prod.Running? && s.prod.stage == FromPool && s.prod.op.need > 0
    case Produce => s.prod.Running? && s.prod.stage != FromAhead && (s.prod.stage == FromPool ==> s.prod.op.need == 0)
    case Claim(t, count) => t < |s.cons| && s.cons[t].Idle? && 0 < count && s.head + count <= s.tail
    case Consume(t) => t < |s.cons| && s.cons[t].Busy?
  }

  /** The memory accesses of an action are in bounds. */
  ghost predicate InBounds(s: State, a: Action) {
    match a
    case Reuse => CanWrite(s) && s.indexSize > 0
    case Grow => s.slotsUsed > 0 ==> s.headers != [] && s.nextSlot < |Last(s.headers).entries| && s.slotsUsed <= |Last(s.headers).entries|
    case Insert => CanWrite(s) && s.indexSize > 0 && |s.next| == |s.flags| == |s.cells| && (s.tailBlock.At? ==> s.tailBlock.block < |s.next|)
    case Produce =>
      s.prod.Running? &&
      (match s.prod.stage
       case FromAhead => false
       case FromPool => s.prod.op.firstAlloc.At?
       case Reset(b, _) => b < |s.flags| && b < |s.next|
       case Publish => s.headers != [] && s.nextSlot < s.indexSize
       case Construct(k, b) =>
         k < |s.prod.op.items| ==> b.At? && b.block < |s.cells| == |s.next| && |s.cells[b.block]| == BLOCK_SIZE
       case StoreTail => true)
    case Consume(t) =>
      t < |s.cons| && s.cons[t].Busy? &&
      var c := s.cons[t];
      (match c.stage
       case LoadHeader => s.headers != []
       case LoadFront(h) => h < |s.headers|
       case ReadBase(h, slot, _) => h < |s.headers| && 0 <= slot < |s.headers[h].entries|
       case ReadBlock(h, slot) => h < |s.headers| && slot < |s.headers[h].entries|
       case Take(h, _, b) => h < |s.headers| && b < |s.cells| && |s.cells[b]| == BLOCK_SIZE && s.cells[b][Off(c.index)].Full?
       case SetEmpty(h, _, b) =>
         && h < |s.headers| && b < |s.flags| && |s.flags[b]| == BLOCK_SIZE
         && c.from <= c.index && Off(c.from) + (c.index - c.from) <= BLOCK_SIZE)
    case _ => true
  }

  /** Construct item `k` at the end, in block `b`, and move to the next block when `b` is full. */
  ghost function ConstructStep(s: State, op: Operation, k: nat, b: Block): State
    requires k < |op.items| && b < |s.cells| == |s.next| && |s.cells[b]| == BLOCK_SIZE
  {
    var i := s.tail + k;
    s.(cells := s.cells[b := s.cells[b][Off(i) := Full(op.items[k])]],
       elems := s.elems + [op.items[k]],
       prod := Running(op, Construct(k + 1, if Off(i + 1) == 0 && At(b) != s.tailBlock then At(s.next[b]) else At(b))))
  }

  ghost function ResetStep(s: State, op: Operation, b: Block, j: nat): State
    requires b < |s.flags| && b < |s.next|
  {
    s.(flags := s.flags[b := Repeat(BLOCK_SIZE, false)],
       prod := Running(op, if At(b) == s.tailBlock then Publish else Reset(s.next[b], j + 1)))
  }

  ghost function PublishStep(s: State, op: Operation): State
    requires s.headers != [] && s.nextSlot < s.indexSize
  {
    var h := Last(s.headers).(front := Back(s.nextSlot, 1, s.indexSize), frontNum := |s.order| - 1);
    s.(headers := s.headers[|s.headers| - 1 := h],
       prod := Running(op, Construct(0, if Off(s.tail) == 0 then op.firstAlloc else op.startBlock)))
  }

  ghost function StoreTailStep(s: State, op: Operation): State {
    s.(tail := s.tail + |op.items|, prod := Ready(true))
  }

  ghost function ProduceStep(s: State): State
    requires Enabled(s, Produce) && InBounds(s, Produce)
  {
    var op := s.prod.op;
    match s.prod.stage
    case FromPool => s.(prod := Running(op, Reset(op.firstAlloc.block, op.start)))
    case Reset(b, j) => ResetStep(s, op, b, j)
    case Publish => PublishStep(s, op)
    case Construct(k, into) =>
      if k >= |op.items| then s.(prod := Running(op, StoreTail)) else ConstructStep(s, op, k, into.block)
    case StoreTail => StoreTailStep(s, op)
  }

  ghost function InsertStep(s: State): State
    requires Enabled(s, Insert) && InBounds(s, Insert)
  {
    var b := |s.next|;
    var ring := if s.tailBlock.Null? then s.next + [b]
                else s.next[s.tailBlock.block := b] + [s.next[s.tailBlock.block]];
    Acquire(s.(next := ring,
               flags := s.flags + [Repeat(BLOCK_SIZE, true)],
               cells := s.cells + [Repeat(BLOCK_SIZE, Raw)],
               slotsUsed := s.slotsUsed + 1),
            s.prod.op.(inserted := s.prod.op.inserted + 1), b, FromPool)
  }

  ghost function ReuseStep(s: State): State
    requires Enabled(s, Reuse) && InBounds(s, Reuse)
  {
    Acquire(s, s.prod.op.(reused := s.prod.op.reused + 1), Ahead(s), FromAhead).(lo := s.lo + 1)
  }

  /** The new index has entries for what is in the ring now. */
  ghost function GrowStep(s: State): State
    requires Enabled(s, Grow) && InBounds(s, Grow)
  {
    s.(headers := s.headers + [NewHeader(s, s.prod.op.used0)], indexSize := 2 * s.indexSize, nextSlot := s.slotsUsed,
       prod := Running(s.prod.op.(front0 := s.prod.op.used0, grown := true), FromPool), low := Max(s.low, s.lo))
  }

  function Cut<T>(xs: seq<T>, n: nat): seq<T> {
    if n <= |xs| then xs[..n] else xs
  }

  /** The current index no longer counts entries for numbers from `start` on. */
  function CutBack(headers: seq<Header>, start: nat): seq<Header> {
    if headers == [] then [] else headers[|headers| - 1 := Last(headers).(filled := start)]
  }

  /** A failing exit. The numbers it gives up are forgotten; blocks it inserted stay in the ring. */
  ghost function FailStep(s: State, op: Operation): State {
    s.(nextSlot := op.front0, slotsUsed := op.used0, prod := Ready(false),
       tailBlock := if op.startBlock.Null? then op.firstAlloc else op.startBlock,
       headers := CutBack(s.headers, op.start),
       order := Cut(s.order, op.start), lo := op.lo0)
  }

  ghost function SetConsumer(s: State, t: Tid, c: Consumer): State
    requires t < |s.cons|
  {
    s.(cons := s.cons[t := c])
  }

  /** Move the element at `index` out, destroy it, and stop at the end of the block or of the claim. */
  ghost function TakeStep(s: State, t: Tid, c: Consumer, h: nat, slot: nat, b: Block): State
    requires t < |s.cons| && c.Busy? && b < |s.cells| && |s.cells[b]| == BLOCK_SIZE && s.cells[b][Off(c.index)].Full?
  {
    var done := c.index + 1 == c.end || Off(c.index + 1) == 0;
    SetConsumer(s.(cells := s.cells[b := s.cells[b][Off(c.index) := Raw]]), t,
                c.(index := c.index + 1, got := c.got + [s.cells[b][Off(c.index)].elem],
                   stage := if done then SetEmpty(h, slot, b) else c.stage))
  }

  /** Flag what was taken from the block, and go on to the next slot or finish. */
  ghost function SetEmptyStep(s: State, t: Tid, c: Consumer, h: nat, slot: nat, b: Block): State
    requires t < |s.cons| && c.Busy? && h < |s.headers| && b < |s.flags|
    requires c.from <= c.index && Off(c.from) + (c.index - c.from) <= |s.flags[b]|
  {
    var s1 := s.(flags := s.flags[b := Flagged(s.flags[b], Off(c.from), c.index - c.from)]);
    if c.index == c.end
    then SetConsumer(s1.(log := s.log + [Delivery(t, c.first, c.end, c.got)]), t, Idle)
    else SetConsumer(s1, t, c.(from := c.index, stage := ReadBlock(h, NextSlot(slot, s.headers[h].size))))
  }

  ghost function ConsumeStep(s: State, t: Tid): State
    requires Enabled(s, Consume(t)) && InBounds(s, Consume(t))
  {
    var c := s.cons[t];
    match c.stage
    case LoadHeader => SetConsumer(s, t, c.(stage := LoadFront(|s.headers| - 1)))
    case LoadFront(h) => SetConsumer(s, t, c.(stage := ReadBase(h, s.headers[h].front, s.headers[h].frontNum)))
    case ReadBase(h, front, _) =>
      var entries := s.headers[h].entries;
      SetConsumer(s, t, c.(stage := ReadBlock(h, Lookup(front, entries[front].base, Base(Num(c.first)), |entries|))))
    case ReadBlock(h, slot) => SetConsumer(s, t, c.(stage := Take(h, slot, s.headers[h].entries[slot].block)))
    case Take(h, slot, b) => TakeStep(s, t, c, h, slot, b)
    case SetEmpty(h, slot, b) => SetEmptyStep(s, t, c, h, slot, b)
  }

  ghost function ClaimStep(s: State, t: Tid, count: nat): State
    requires t < |s.cons|
  {
    SetConsumer(s.(head := s.head + count, owner := s.owner + Repeat(count, t)),
                t, Busy(s.head, s.head + count, s.head, s.head, [], LoadHeader))
  }

  ghost function Apply(s: State, a: Action): State
    requires Enabled(s, a) && InBounds(s, a)
  {
    match a
    case Begin(items) => s.(prod := StartOf(s, items))
    case Reuse => ReuseStep(s)
    case StopReuse => s.(prod := s.prod.(stage := FromPool))
    case Grow => GrowStep(s)
    case Insert => InsertStep(s)
    case Fail => FailStep(s, s.prod.op)
    case Produce => ProduceStep(s)
    case Claim(t, count) => ClaimStep(s, t, count)
    case Consume(t) => ConsumeStep(s, t)
  }

  ghost predicate Init(s: State) {
    && s.next == [] && s.flags == [] && s.cells == [] && s.tailBlock == Null
    && s.slotsUsed == 0 && s.indexSize > 0 && s.nextSlot == 0 && s.prod.Ready?
    && s.headers == [] && s.tail == s.head == s.lo == s.low == 0
    && s.order == [] && s.elems == [] && s.owner == [] && s.log == []
    && forall t :: 0 <= t < |s.cons| ==> s.cons[t] == Idle
  }

  // ---- The invariant ----

  ghost predicate MemoryOk(next: seq<Block>, flags: seq<seq<bool>>, cells: seq<seq<Cell>>) {
    && |next| == |flags| == |cells|
    && (forall b :: 0 <= b < |flags| ==> |flags[b]| == BLOCK_SIZE)
    && (forall b :: 0 <= b < |cells| ==> |cells[b]| == BLOCK_SIZE)
  }

  ghost predicate RingAt(next: seq<Block>, order: seq<Block>, lo: nat, n: nat) {
    && lo <= n < |order| && order[n] < |next|
    && next[order[n]] == order[if n + 1 < |order| then n + 1 else lo]
  }

  ghost predicate Apart(order: seq<Block>, m: nat, n: nat) {
    m < |order| && n < |order| ==> order[m] != order[n]
  }

  ghost predicate Distinct(order: seq<Block>, lo: nat) {
    forall m, n :: lo <= m < n < |order| ==> Apart(order, m, n)
  }

  /** Following `next` from the oldest block visits the blocks of the ring once each, in order. */
  ghost predicate RingOk(next: seq<Block>, order: seq<Block>, lo: nat, tailBlock: Ptr) {
    && lo <= |order|
    && (order == [] ==> tailBlock == Null && lo == 0)
    && (order != [] ==> lo < |order| && tailBlock == At(order[|order| - 1]))
    && (forall n :: lo <= n < |order| ==> RingAt(next, order, lo, n))
    && Distinct(order, lo)
  }

  ghost predicate EntryAt(h: Header, order: seq<Block>, n: nat) {
    && h.size > 0 && h.first <= n < |order|
    && SlotOf(n - h.first, h.size) < |h.entries|
    && h.entries[SlotOf(n - h.first, h.size)] == Entry(Base(n), order[n])
  }

  /** A header, current or not, still lists every block number from `lo` on that it was ever given. */
  ghost predicate HeaderOk(h: Header, order: seq<Block>, lo: nat) {
    && h.size > 0 && |h.entries| == h.size
    && h.first <= lo && h.filled <= |order|
    && h.first - 1 <= h.frontNum < h.filled
    && (h.first <= h.frontNum ==> h.front == SlotOf(h.frontNum - h.first, h.size))
    && forall n :: lo <= n < h.filled ==> EntryAt(h, order, n)
  }

  ghost predicate HeadersOk(headers: seq<Header>, order: seq<Block>, lo: nat) {
    forall j :: 0 <= j < |headers| ==> HeaderOk(headers[j], order, lo)
  }

  /** The producer's private view of the current header. */
  ghost predicate CurrentOk(headers: seq<Header>, order: seq<Block>, lo: nat, tail: nat,
                            slotsUsed: nat, indexSize: nat, nextSlot: nat) {
    && indexSize > 0 && lo <= |order| && slotsUsed == |order| - lo
    && (headers == [] ==> order == [] && nextSlot == 0)
    && (headers != [] ==>
          var h := Last(headers);
          && h.size == indexSize && h.filled == |order| && slotsUsed <= indexSize && h.first <= |order|
          && nextSlot == SlotOf(|order| - h.first, indexSize)
          && -1 <= h.frontNum && tail <= Base(h.frontNum + 1))
    && (headers == [] ==> tail == 0)
  }

  ghost predicate InMemory(order: seq<Block>, n: nat, i: nat) {
    Num(i) < |order| && order[Num(i)] < n
  }

  /** Element i is where the block numbers say it should be. */
  ghost predicate CellOk(order: seq<Block>, cells: seq<seq<Cell>>, elems: seq<Elem>, i: nat) {
    && InMemory(order, |cells|, i)
    && |cells[order[Num(i)]]| == BLOCK_SIZE
    && i < |elems|
    && cells[order[Num(i)]][Off(i)] == Full(elems[i])
  }

  ghost predicate FlagClear(order: seq<Block>, flags: seq<seq<bool>>, i: nat) {
    && InMemory(order, |flags|, i)
    && |flags[order[Num(i)]]| == BLOCK_SIZE
    && !flags[order[Num(i)]][Off(i)]
  }

  ghost predicate CellsOn(order: seq<Block>, cells: seq<seq<Cell>>, elems: seq<Elem>, i: nat, j: nat) {
    forall k :: i <= k < j ==> CellOk(order, cells, elems, k)
  }

  ghost predicate FlagsOn(order: seq<Block>, flags: seq<seq<bool>>, i: nat, j: nat) {
    forall k :: i <= k < j ==> FlagClear(order, flags, k)
  }

  /** The number of blocks whose flags have been reset for their present number. */
  ghost function ReadyBlocks(prod: Producer, order: seq<Block>): nat {
    match prod
    case Ready(_) => |order|
    case Running(op, stage) =>
      match stage
      case FromAhead | FromPool => op.start
      case Reset(_, j) => j
      case _ => |order|
  }

  /** Indices not yet claimed: constructed, and not flagged as empty. */
  ghost predicate UnclaimedOk(order: seq<Block>, flags: seq<seq<bool>>, cells: seq<seq<Cell>>, elems: seq<Elem>,
                              lo: nat, head: nat, tail: nat, ready: nat) {
    && Base(lo) <= head <= tail <= |elems| <= Base(|order|)
    && ready <= |order|
    && CellsOn(order, cells, elems, head, |elems|)
    && FlagsOn(order, flags, head, Base(ready))
  }

  ghost predicate StageOf(op: Operation, stage: ProducerStage, order: seq<Block>, tail: nat, elems: seq<Elem>) {
    match stage
    case FromAhead => |elems| == tail && op.start < |order| + op.need && op.inserted == 0
    case FromPool => |elems| == tail && op.start < |order| + op.need
    case Reset(b, j) => |elems| == tail && op.need == 0 && op.start <= j < |order| && b == order[j]
    case Publish => |elems| == tail && op.need == 0 && op.start < |order|
    case Construct(k, into) =>
      && op.need == 0 && k <= |op.items| && |elems| == tail + k
      && elems[tail..] == op.items[..k]
      && (k < |op.items| ==> Num(tail + k) < |order| && into == At(order[Num(tail + k)]))
    case StoreTail => op.need == 0 && |elems| == tail + |op.items| && elems[tail..] == op.items
  }

  ghost predicate OperationOk(op: Operation, order: seq<Block>, lo: nat, tail: nat) {
    && op.start == BlocksFor(tail) && op.start <= |order| && (op.start > 0 ==> op.lo0 < op.start)
    && op.lo0 <= lo <= op.start && op.used0 == op.start - op.lo0
    && op.reused == lo - op.lo0 && op.reused + op.inserted == |order| - op.start
    && op.nextBase == Base(|order|)
    && op.firstAlloc == (if op.start < |order| then At(order[op.start]) else Null)
    && op.startBlock == (if op.start == 0 then Null else At(order[op.start - 1]))
    && |order| + op.need == BlocksFor(tail + |op.items|)
  }

  /** All blocks are published, that is the front of the current header is the last block. */
  ghost predicate Published(prod: Producer) {
    prod.Running? ==> prod.stage.Construct? || prod.stage.StoreTail?
  }

  ghost predicate ProducerOk(prod: Producer, headers: seq<Header>, order: seq<Block>, lo: nat, tail: nat, elems: seq<Elem>) {
    && (prod.Ready? ==> |elems| == tail && |order| == BlocksFor(tail))
    && (prod.Running? ==> OperationOk(prod.op, order, lo, tail) && StageOf(prod.op, prod.stage, order, tail, elems))
    && (Published(prod) && headers != [] ==> Last(headers).frontNum == |order| - 1)
  }

  /** No block was inserted, and none was reused before the index was replaced. */
  predicate SafeFail(op: Operation) {
    op.inserted == 0 && (op.grown ==> op.reused == 0)
  }

  /** Number n is the block that was number n - back. */
  ghost predicate Again(order: seq<Block>, n: nat, back: nat) {
    back <= n < |order| && order[n] == order[n - back]
  }

  /** What a failing exit restores is right for the index. */
  ghost predicate Restorable(op: Operation, headers: seq<Header>, indexSize: nat) {
    && (headers == [] ==> op.front0 == 0)
    && (headers != [] ==>
          var h := Last(headers);
          indexSize > 0 && h.first <= op.start && op.front0 == SlotOf(op.start - h.first, indexSize) && h.frontNum == op.start - 1)
    && (forall j :: 0 <= j < |headers| - 1 ==> headers[j].filled <= op.start)
  }

  predicate Acquiring(prod: Producer) {
    prod.Running? && (prod.stage.FromAhead? || prod.stage.FromPool?)
  }

  ghost predicate RollbackOk(prod: Producer, headers: seq<Header>, order: seq<Block>, lo: nat, indexSize: nat) {
    Acquiring(prod) ==>
      && (forall n :: prod.op.start <= n < prod.op.start + prod.op.reused ==> Again(order, n, prod.op.used0))
      && (prod.op.grown ==>
            prod.stage.FromPool? && headers != [] && Last(headers).first == lo && prod.op.front0 == prod.op.used0 < indexSize)
      && (SafeFail(prod.op) ==> Restorable(prod.op, headers, indexSize))
  }

  /** While blocks are being acquired the index must serve for a failing exit as well. */
  function Floor(prod: Producer, lo: nat): nat {
    if Acquiring(prod) then prod.op.lo0 else lo
  }

  ghost predicate JobOk(order: seq<Block>, flags: seq<seq<bool>>, cells: seq<seq<Cell>>, elems: seq<Elem>,
                        owner: seq<Tid>, lo: nat, t: Tid, c: Consumer) {
    c.Busy? ==>
      && c.first <= c.from <= c.index <= c.end <= |owner| && c.from < c.end <= |elems|
      && Base(lo) <= c.from
      && (forall i :: c.first <= i < c.end ==> owner[i] == t)
      && CellsOn(order, cells, elems, c.index, c.end)
      && FlagsOn(order, flags, c.from, c.end)
      && c.got == elems[c.first..c.index]
  }

  /** A header lists the blocks of indices `from` to `end`, and `slot` is that of index `from`. */
  ghost predicate SlotOk(headers: seq<Header>, h: nat, slot: nat, from: nat, end: nat)
    requires from < end
  {
    && h < |headers| && headers[h].size > 0
    && Num(end - 1) < headers[h].filled
    && headers[h].first <= Num(from)
    && slot == SlotOf(Num(from) - headers[h].first, headers[h].size)
  }

  ghost predicate StageOk(headers: seq<Header>, order: seq<Block>, c: Consumer) {
    c.Busy? && c.from < c.end ==>
      match c.stage
      case LoadHeader => c.index == c.from == c.first
      case LoadFront(h) => c.index == c.from == c.first && h < |headers| && Num(c.end - 1) <= headers[h].frontNum
      case ReadBase(h, front, num) =>
        && c.index == c.from == c.first && h < |headers| && headers[h].size > 0
        && headers[h].first <= Num(c.from) && Num(c.end - 1) <= num < headers[h].filled
        && headers[h].first <= num <= headers[h].frontNum
        && front == SlotOf(num - headers[h].first, headers[h].size)
      case ReadBlock(h, slot) => c.index == c.from && SlotOk(headers, h, slot, c.from, c.end)
      case Take(h, slot, b) =>
        && SlotOk(headers, h, slot, c.from, c.end) && c.index < c.end
        && Num(c.index) == Num(c.from) < |order| && b == order[Num(c.from)]
      case SetEmpty(h, slot, b) =>
        && SlotOk(headers, h, slot, c.from, c.end) && c.from < c.index
        && Num(c.index - 1) == Num(c.from) < |order| && b == order[Num(c.from)]
        && (c.index < c.end ==> c.index == Base(Num(c.from) + 1))
  }

  ghost predicate ConsumerOk(order: seq<Block>, flags: seq<seq<bool>>, cells: seq<seq<Cell>>, elems: seq<Elem>,
                             owner: seq<Tid>, lo: nat, headers: seq<Header>, t: Tid, c: Consumer) {
    JobOk(order, flags, cells, elems, owner, lo, t, c) && StageOk(headers, order, c)
  }

  ghost predicate ConsumersOk(order: seq<Block>, flags: seq<seq<bool>>, cells: seq<seq<Cell>>, elems: seq<Elem>,
                              owner: seq<Tid>, lo: nat, headers: seq<Header>, cons: seq<Consumer>) {
    forall t :: 0 <= t < |cons| ==> ConsumerOk(order, flags, cells, elems, owner, lo, headers, t, cons[t])
  }

  /** The oldest number whose elements may still be wanted. */
  function Live(s: State): nat {
    Max(s.lo, s.low)
  }

  /** The oldest number that the index must list. */
  function Kept(s: State): nat {
    Max(Floor(s.prod, s.lo), s.low)
  }

  ghost predicate Inv(s: State) {
    && MemoryOk(s.next, s.flags, s.cells)
    && RingOk(s.next, s.order, s.lo, s.tailBlock)
    && HeadersOk(s.headers, s.order, Kept(s))
    && CurrentOk(s.headers, s.order, s.lo, s.tail, s.slotsUsed, s.indexSize, s.nextSlot)
    && UnclaimedOk(s.order, s.flags, s.cells, s.elems, Live(s), s.head, s.tail, ReadyBlocks(s.prod, s.order))
    && ProducerOk(s.prod, s.headers, s.order, s.lo, s.tail, s.elems)
    && RollbackOk(s.prod, s.headers, s.order, s.lo, s.indexSize)
    && |s.owner| == s.head
    && ConsumersOk(s.order, s.flags, s.cells, s.elems, s.owner, Live(s), s.headers, s.cons)
    && LogOk(s.log, s.elems)
  }

  lemma InitInv(s: State)
    requires Init(s)
    ensures Inv(s)
  {
  }
}
