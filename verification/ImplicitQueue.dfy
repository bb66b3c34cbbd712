/**
  An implicit producer and its consumers, interleaved: the program.

  Blocks come from a pool shared with others and go back to it as soon as all their elements are
  dequeued. The block index is a circular array of pointers to entries; a bigger index shares the
  entries of the one it replaces, so a consumer may use any index it has loaded. When a block
  cannot be had, the insertions of the operation are undone and its blocks returned.

  As in ExplicitQueue, steps are accesses to shared variables with the private bookkeeping of the
  same thread joined to them, single operations are bulk operations of one element, and a
  consumer claims in one step (see ClaimRefinement). Other producers and their consumers take
  blocks from the pool, use them and put them back at any time.
 */
module ImplicitQueue {
  import opened Basics
  import opened Blocks
  import opened Sequences
  import opened Deliveries
  import Circular

  type EntryId = nat

  datatype Key = Invalid | Key(base: nat)

  /** Unset is what the memory of a new entry holds before anything is stored. */
  datatype Value = Unset | Nothing | Is(block: Block)

  /**
    `first`, `limit` and `tailNum` are history variables: slot 0 was for block number `first`, the
    numbers from `first` to `limit` have had slots, and slot `tail` is that of number `tailNum`.
   */
  datatype Header = Header(capacity: nat, tail: nat, index: seq<EntryId>, first: nat, limit: nat, tailNum: int)

  /** What became of a block whose elements have been enqueued. */
  datatype Phase =
    | Live
    | Draining(who: Tid)  // found empty by a consumer, still in the index
    | Loose(who: Tid)     // out of the index, not yet in the pool
    | Gone

  /** How far a consumer is with a block of the indices it has claimed (`num` is a history variable). */
  datatype Stage =
    | LoadHeader
    | LoadTail(h: nat)
    | ReadKey(h: nat, front: nat, num: int)
    | ReadValue(h: nat, slot: nat)
    | Take(h: nat, slot: nat, block: Block)
    | SetEmpty(h: nat, slot: nat, block: Block)
    | NullEntry(h: nat, slot: nat, block: Block, num: int)
    | AddBlock(h: nat, slot: nat, block: Block, num: int)

  /** Indices [first, end) are claimed, those below `index` are taken and those below `from` counted. */
  datatype Consumer =
    | Idle
    | Busy(first: nat, end: nat, from: nat, index: nat, got: seq<Elem>, stage: Stage)

  datatype ProducerStage =
    | Acquire                                // find an entry for the next block
    | InsertTail(slot: nat, entry: EntryId)  // its key is stored: move the index tail to it
    | Requisition(entry: EntryId)            // get a block and store it in the entry
    | Undo(at: Ptr, base: nat, k: nat)       // k insertions undone, block `at` is next
    | GiveBack(at: Ptr, k: nat)              // k blocks returned, block `at` is next
    | Construct(k: nat, into: Ptr)
    | StoreTail

  /** `tailBlock` is the last block acquired, `need` the number still to acquire. */
  datatype Operation = Operation(items: seq<Elem>, need: nat, nextBase: nat, startBlock: Ptr, firstAlloc: Ptr, tailBlock: Ptr)

  /** `result` is what the last call returned. */
  datatype Producer = Ready(result: bool) | Running(op: Operation, stage: ProducerStage)

  datatype State = State(
    // block memory and the pool
    next: seq<Ptr>,
    counters: seq<nat>,      // elementsCompletelyDequeued
    cells: seq<seq<Cell>>,
    pool: set<Block>,
    // the block index; an entry is a key and a value
    headers: seq<Header>,    // all headers ever made; the last one is `blockIndex`
    keys: seq<Key>,
    vals: seq<Value>,
    nextCapacity: nat,
    // the producer and the consumers
    tailBlock: Ptr,
    prod: Producer,
    tail: nat,
    head: nat,
    cons: seq<Consumer>,
    // history variables
    ent: seq<EntryId>,       // ent[n] is the entry last given to block number n
    lo: nat,                 // numbers below lo have lost their entries to later ones
    order: seq<Block>,       // order[n] is the block that holds block number n
    phase: seq<Phase>,       // of the block numbers whose elements are enqueued
    where: seq<int>,         // the number each block holds, or IN_POOL, or ELSEWHERE
    done: seq<bool>,         // done[i]: index i is counted in its block's counter
    elems: seq<Elem>,        // elems[i] is the i-th element constructed
    owner: seq<Tid>,         // owner[i] is the consumer that claimed index i
    log: seq<Delivery>       // what finished consumers got
  )

  const IN_POOL := -1
  const ELSEWHERE := -2  // another producer has the block

  // ---- The block index ----

  function Last(headers: seq<Header>): Header
    requires headers != []
  {
    headers[|headers| - 1]
  }

  function ReplaceLast(headers: seq<Header>, h: Header): seq<Header>
    requires headers != []
  {
    headers[|headers| - 1 := h]
  }

  function PrevSlot(slot: nat, size: nat): nat
    requires size > 0
  {
    if slot == 0 then size - 1 else slot - 1
  }

  /** `insert_block_index_entry` looks at the slot after the tail of the current index. */
  ghost predicate HasNextEntry(headers: seq<Header>, nKeys: nat) {
    && headers != []
    && var h := Last(headers);
    && NextSlot(h.tail, h.capacity) < |h.index| && h.index[NextSlot(h.tail, h.capacity)] < nKeys
  }

  ghost function NextEntry(headers: seq<Header>, nKeys: nat): EntryId
    requires HasNextEntry(headers, nKeys)
  {
    Last(headers).index[NextSlot(Last(headers).tail, Last(headers).capacity)]
  }

  predicate EntryFree(keys: seq<Key>, vals: seq<Value>, e: EntryId)
    requires e < |keys| && e < |vals|
  {
    keys[e] == Invalid || vals[e] == Nothing
  }

  function Forward(slot: nat, k: nat, size: nat): nat {
    if slot + k < size then slot + k else slot + k - size
  }

  /** `new_block_index`: the old entries from the oldest on, then as many new ones. */
  function Enlarged(index: seq<EntryId>, tail: nat, unused: EntryId): (r: seq<EntryId>)
    requires tail < |index|
    ensures |r| == 2 * |index|
    ensures forall k :: 0 <= k < |index| ==> r[k] == index[Forward(tail, k + 1, |index|)]
    ensures forall k :: |index| <= k < 2 * |index| ==> r[k] == unused + (k - |index|)
  {
    seq(2 * |index|, k requires 0 <= k < 2 * |index| =>
      if k < |index| then index[Forward(tail, k + 1, |index|)] else unused + (k - |index|))
  }

  function Bigger(h: Header, unused: EntryId, capacity: nat, hi: nat): Header
    requires h.tail < |h.index| == h.capacity
  {
    Header(capacity, h.capacity - 1, Enlarged(h.index, h.tail, unused), if h.capacity <= hi then hi - h.capacity else 0, hi, h.tailNum)
  }

  function Rewound(h: Header): Header
    requires h.capacity > 0
  {
    h.(tail := PrevSlot(h.tail, h.capacity), tailNum := h.tailNum - 1)
  }

  /** `get_block_index_index_for_index`: a header's tail slot and its key are read, in this order. */
  predicate CanLook(h: Header, keys: seq<Key>, slot: nat) {
    && 0 < h.capacity == |h.index| && slot < h.capacity && h.index[slot] < |keys| && keys[h.index[slot]].Key?
  }

  function LookFrom(h: Header, keys: seq<Key>, slot: nat, base: nat): (r: nat)
    requires CanLook(h, keys, slot)
    ensures r < |h.index|
  {
    Lookup(slot, keys[h.index[slot]].base, base, h.capacity)
  }

  /** The entry in a slot is that of the given base and holds a block. */
  ghost predicate Found(h: Header, keys: seq<Key>, vals: seq<Value>, slot: nat, base: nat) {
    && slot < |h.index| && h.index[slot] < |keys| == |vals|
    && keys[h.index[slot]] == Key(base) && vals[h.index[slot]].Is?
  }

  // ---- The producer ----

  datatype Action =
    | Begin(items: seq<Elem>)   // enqueue or enqueue_bulk is called
    | Insert                    // the next entry is free: store the key of the new block in it
    | Grow                      // it is not: double the index
    | GetBlock(b: Block)        // requisition_block returns b, from the pool or newly made
    | OutOfMemory               // it returns null
    | Refuse                    // no room, or no memory for a bigger index
    | Produce                   // the producer's next step otherwise
    | Claim(t: Tid, count: nat)
    | Consume(t: Tid)
    | Others(b: Block, move: Move)

  /** What other producers, and the consumers of theirs, do with a block of the pool they share. */
  datatype Move =
    | Borrow                                               // take it
    | Make                                                 // make a new one
    | Use(next: Ptr, counter: nat, row: seq<Cell>)  // change what is in one that they have
    | Return                                               // put it back

  ghost predicate AtStage(s: State, stage: ProducerStage) {
    s.prod.Running? && s.prod.stage == stage
  }

  ghost predicate Enabled(s: State, a: Action) {
    match a
    case Begin(items) => s.prod.Ready?
    case Insert => AtStage(s, Acquire) && (HasNextEntry(s.headers, |s.keys|) && |s.keys| == |s.vals| ==>
                     EntryFree(s.keys, s.vals, NextEntry(s.headers, |s.keys|)))
    case Grow => AtStage(s, Acquire) && (HasNextEntry(s.headers, |s.keys|) && |s.keys| == |s.vals| ==>
                     !EntryFree(s.keys, s.vals, NextEntry(s.headers, |s.keys|)))
    case GetBlock(b) => s.prod.Running? && s.prod.stage.Requisition? && (b in s.pool || b == |s.next|)
    case OutOfMemory => s.prod.Running? && s.prod.stage.Requisition?
    case Refuse => AtStage(s, Acquire)
    case Produce => s.prod.Running? && !s.prod.stage.Acquire? && !s.prod.stage.Requisition?
    case Claim(t, count) => t < |s.cons| && s.cons[t].Idle? && 0 < count && s.head + count <= s.tail
    case Consume(t) => t < |s.cons| && s.cons[t].Busy?
    case Others(b, move) =>
      if move.Make? then b == |s.where|
      else b < |s.where| && s.where[b] == (if move.Borrow? then IN_POOL else ELSEWHERE) && (move.Use? ==> |move.row| == BLOCK_SIZE)
  }

  ghost function BeginStep(s: State, items: seq<Elem>): State {
    var op := Operation(items, Circular.BasesIn(s.tail, |items|, BLOCK_SIZE), RoundUp(s.tail), s.tailBlock, Null, s.tailBlock);
    s.(prod := Running(op, if op.need == 0 then Construct(0, s.tailBlock) else Acquire))
  }

  ghost function InsertStep(s: State, op: Operation): State
    requires HasNextEntry(s.headers, |s.keys|)
  {
    var h := Last(s.headers);
    var e := NextEntry(s.headers, |s.keys|);
    var s1 := s.(keys := s.keys[e := Key(op.nextBase)],
                 prod := Running(op, InsertTail(NextSlot(h.tail, h.capacity), e)));
    if |s.order| < |s.ent| then s1
    else s1.(ent := s.ent + [e],
             lo := if s.keys[e] == Invalid then s.lo else s.lo + 1,
             headers := ReplaceLast(s.headers, h.(limit := |s.ent| + 1)))
  }

  ghost function GrowStep(s: State): State
    requires s.headers != [] && Last(s.headers).tail < |Last(s.headers).index| == Last(s.headers).capacity
  {
    var n := |Last(s.headers).index|;
    s.(headers := s.headers + [Bigger(Last(s.headers), |s.keys|, s.nextCapacity, |s.ent|)],
       keys := s.keys + Repeat(n, Invalid),
       vals := s.vals + Repeat(n, Unset),
       nextCapacity := 2 * s.nextCapacity)
  }

  /** The index tail moves to the inserted entry. */
  ghost function InsertTailStep(s: State, op: Operation, slot: nat, e: EntryId): State
    requires s.headers != []
  {
    var h := Last(s.headers);
    s.(headers := ReplaceLast(s.headers, h.(tail := slot, tailNum := h.tailNum + 1)),
       prod := Running(op, Requisition(e)))
  }

  /** Block b is no longer the pool's. A block the pool does not have is newly made. */
  ghost function TakeFromPool(s: State, b: Block): State
    requires b < |s.where| || b == |s.next|
  {
    if b < |s.where| then s.(pool := s.pool - {b}, where := s.where[b := |s.order|])
    else s.(next := s.next + [Null], counters := s.counters + [0],
            cells := s.cells + [Repeat(BLOCK_SIZE, Raw)], where := s.where + [|s.order|])
  }

  /** The block acquired last points to b, unless b is the first and starts the tail's own block. */
  ghost function Linked(next: seq<Ptr>, op: Operation, tail: nat, b: Block): seq<Ptr>
    requires b < |next| && (Off(tail) != 0 || op.firstAlloc != Null ==> op.tailBlock.At? && op.tailBlock.block < |next|)
  {
    var next1 := next[b := Null];
    if Off(tail) != 0 || op.firstAlloc != Null then next1[op.tailBlock.block := At(b)] else next1
  }

  ghost function WithBlock(op: Operation, b: Block): Operation {
    op.(need := if op.need > 0 then op.need - 1 else 0,
        nextBase := op.nextBase + BLOCK_SIZE,
        firstAlloc := if op.firstAlloc.Null? then At(b) else op.firstAlloc,
        tailBlock := At(b))
  }

  ghost function GetBlockStep(s: State, op: Operation, e: EntryId, b: Block): State
    requires GetBlockInBounds(s, op, e, b)
  {
    var s1 := TakeFromPool(s, b);
    var op' := WithBlock(op, b);
    s1.(counters := s1.counters[b := 0],
        next := Linked(s1.next, op, s.tail, b),
        vals := s.vals[e := Is(b)],
        order := s.order + [b],
        prod := Running(op', if op'.need == 0 then Construct(0, if Off(s.tail) == 0 then op'.firstAlloc else op'.startBlock)
                             else Acquire))
  }

  ghost predicate GetBlockInBounds(s: State, op: Operation, e: EntryId, b: Block) {
    && |s.next| == |s.counters| == |s.cells| == |s.where| && b <= |s.next| && e < |s.vals|
    && (Off(s.tail) != 0 || op.firstAlloc != Null ==> op.tailBlock.At? && op.tailBlock.block < |s.next|)
  }

  /** The insertion whose block cannot be had is undone, then those before it. */
  ghost function OutOfMemoryStep(s: State, op: Operation, e: EntryId): State
    requires s.headers != [] && Last(s.headers).capacity > 0 && e < |s.vals|
  {
    s.(headers := ReplaceLast(s.headers, Rewound(Last(s.headers))),
       vals := s.vals[e := Nothing],
       prod := Running(op, Undo(op.firstAlloc, RoundUp(s.tail), 0)))
  }

  ghost predicate UndoInBounds(s: State, b: Block, base: nat) {
    && s.headers != [] && b < |s.next|
    && CanLook(Last(s.headers), s.keys, Last(s.headers).tail)
    && Found(Last(s.headers), s.keys, s.vals, LookFrom(Last(s.headers), s.keys, Last(s.headers).tail, base), base)
  }

  ghost function UndoStep(s: State, op: Operation, b: Block, base: nat, k: nat): State
    requires UndoInBounds(s, b, base)
  {
    var h := Last(s.headers);
    s.(vals := s.vals[h.index[LookFrom(h, s.keys, h.tail, base)] := Nothing],
       headers := ReplaceLast(s.headers, Rewound(h)),
       prod := Running(op, Undo(s.next[b], base + BLOCK_SIZE, k + 1)))
  }

  ghost function GiveBackStep(s: State, op: Operation, b: Block, k: nat): State
    requires b < |s.next| && b < |s.where|
  {
    s.(pool := s.pool + {b}, where := s.where[b := IN_POOL], prod := Running(op, GiveBack(s.next[b], k + 1)))
  }

  ghost function GiveUpStep(s: State): State
    requires |s.phase| <= |s.order|
  {
    s.(order := s.order[..|s.phase|], prod := Ready(false))
  }

  /** Construct item `k` at the end, in block `b`, and move to the next block when `b` is full. */
  ghost function ConstructStep(s: State, op: Operation, k: nat, b: Block): State
    requires k < |op.items| && b < |s.cells| == |s.next| && |s.cells[b]| == BLOCK_SIZE
  {
    var i := s.tail + k;
    s.(cells := s.cells[b := s.cells[b][Off(i) := Full(op.items[k])]],
       elems := s.elems + [op.items[k]],
       prod := Running(op, Construct(k + 1, if Off(i + 1) == 0 && At(b) != op.tailBlock then s.next[b] else At(b))))
  }

  ghost function StoreTailStep(s: State, op: Operation): State
    requires |s.phase| <= |s.order|
  {
    s.(tail := s.tail + |op.items|, tailBlock := op.tailBlock, prod := Ready(true),
       phase := s.phase + Repeat(|s.order| - |s.phase|, Live))
  }

  ghost predicate ProduceInBounds(s: State, op: Operation, stage: ProducerStage) {
    match stage
    case InsertTail(slot, e) => s.headers != []
    case Undo(at, base, k) => at.At? ==> UndoInBounds(s, at.block, base)
    case GiveBack(at, k) =>
      if at.At? then at.block < |s.next| && at.block < |s.where| && at.block !in s.pool else |s.phase| <= |s.order|
    case Construct(k, into) =>
      k < |op.items| ==> into.At? && into.block < |s.cells| == |s.next| && |s.cells[into.block]| == BLOCK_SIZE
    case StoreTail => |s.phase| <= |s.order|
    case _ => false
  }

  ghost function ProduceStep(s: State, op: Operation, stage: ProducerStage): State
    requires ProduceInBounds(s, op, stage)
  {
    match stage
    case InsertTail(slot, e) => InsertTailStep(s, op, slot, e)
    case Undo(at, base, k) => if at.At? then UndoStep(s, op, at.block, base, k) else s.(prod := Running(op, GiveBack(op.firstAlloc, 0)))
    case GiveBack(at, k) => if at.At? then GiveBackStep(s, op, at.block, k) else GiveUpStep(s)
    case Construct(k, into) => if k < |op.items| then ConstructStep(s, op, k, into.block) else s.(prod := Running(op, StoreTail))
    case StoreTail => StoreTailStep(s, op)
  }

  // ---- Consumers ----

  ghost function SetConsumer(s: State, t: Tid, c: Consumer): State
    requires t < |s.cons|
  {
    s.(cons := s.cons[t := c])
  }

  /** Done with a block: go on to the next slot, or finish. */
  ghost function Advance(headers: seq<Header>, c: Consumer, h: nat, slot: nat): Consumer
    requires c.Busy? && h < |headers|
  {
    if c.from == c.end then Idle else c.(stage := ReadValue(h, NextSlot(slot, headers[h].capacity)))
  }

  ghost function Logged(log: seq<Delivery>, t: Tid, c: Consumer): seq<Delivery>
    requires c.Busy?
  {
    if c.from == c.end then log + [Delivery(t, c.first, c.end, c.got)] else log
  }

  /** Move the element at `index` out, destroy it, and stop at the end of the block or of the claim. */
  ghost function TakeStep(s: State, t: Tid, c: Consumer, h: nat, slot: nat, b: Block): State
    requires t < |s.cons| && c.Busy? && b < |s.cells| && |s.cells[b]| == BLOCK_SIZE && s.cells[b][Off(c.index)].Full?
  {
    var done := c.index + 1 == c.end || Off(c.index + 1) == 0;
    SetConsumer(s.(cells := s.cells[b := s.cells[b][Off(c.index) := Raw]]), t,
                c.(index := c.index + 1, got := c.got + [s.cells[b][Off(c.index)].elem],
                   stage := if done then SetEmpty(h, slot, b) else c.stage))
  }

  /** Count what was taken from the block; whoever makes the count complete frees the block. */
  ghost function SetEmptyStep(s: State, t: Tid, c: Consumer, h: nat, slot: nat, b: Block): State
    requires SetEmptyInBounds(s, t, c, h, b)
  {
    var counter := s.counters[b] + (c.index - c.from);
    var n := Num(c.index - 1);
    var c1 := c.(from := c.index);
    var s1 := s.(counters := s.counters[b := counter], done := Flagged(s.done, c.from, c.index - c.from));
    if counter == BLOCK_SIZE
    then SetConsumer(s1.(phase := s.phase[n := Draining(t)]), t, c1.(stage := NullEntry(h, slot, b, n)))
    else SetConsumer(s1.(log := Logged(s.log, t, c1)), t, Advance(s.headers, c1, h, slot))
  }

  ghost predicate SetEmptyInBounds(s: State, t: Tid, c: Consumer, h: nat, b: Block) {
    && t < |s.cons| && c.Busy? && h < |s.headers| && b < |s.counters|
    && c.from < c.index <= |s.done| && s.counters[b] + (c.index - c.from) <= BLOCK_SIZE
    && Num(c.index - 1) < |s.phase|
  }

  ghost function NullEntryStep(s: State, t: Tid, c: Consumer, h: nat, slot: nat, b: Block, n: int): State
    requires t < |s.cons| && c.Busy? && h < |s.headers| && slot < |s.headers[h].index| && s.headers[h].index[slot] < |s.vals|
    requires 0 <= n < |s.phase|
  {
    SetConsumer(s.(vals := s.vals[s.headers[h].index[slot] := Nothing], phase := s.phase[n := Loose(t)]),
                t, c.(stage := AddBlock(h, slot, b, n)))
  }

  ghost function AddBlockStep(s: State, t: Tid, c: Consumer, h: nat, slot: nat, b: Block, n: int): State
    requires t < |s.cons| && c.Busy? && h < |s.headers| && b < |s.where| && 0 <= n < |s.phase|
  {
    SetConsumer(s.(pool := s.pool + {b}, where := s.where[b := IN_POOL], phase := s.phase[n := Gone], log := Logged(s.log, t, c)),
                t, Advance(s.headers, c, h, slot))
  }

  /** The memory accesses of a consumer's step are in bounds, and the source's assertions hold. */
  ghost predicate ConsumeInBounds(s: State, t: Tid) {
    && t < |s.cons| && s.cons[t].Busy?
    && var c := s.cons[t];
    match c.stage
    case LoadHeader => s.headers != []
    case LoadTail(h) => h < |s.headers|
    case ReadKey(h, front, _) =>
      && h < |s.headers| && CanLook(s.headers[h], s.keys, front)
      && Found(s.headers[h], s.keys, s.vals, LookFrom(s.headers[h], s.keys, front, Base(Num(c.first))), Base(Num(c.first)))
    case ReadValue(h, slot) =>
      && h < |s.headers| && slot < |s.headers[h].index|
      && s.headers[h].index[slot] < |s.vals| && s.vals[s.headers[h].index[slot]].Is?
    case Take(h, _, b) => b < |s.cells| && |s.cells[b]| == BLOCK_SIZE && s.cells[b][Off(c.index)].Full?
    case SetEmpty(h, _, b) => SetEmptyInBounds(s, t, c, h, b)
    case NullEntry(h, slot, _, n) =>
      && h < |s.headers| && slot < |s.headers[h].index| && s.headers[h].index[slot] < |s.vals| && 0 <= n < |s.phase|
    case AddBlock(h, _, b, n) => h < |s.headers| && b < |s.where| && b !in s.pool && 0 <= n < |s.phase|
  }

  ghost function ConsumeStep(s: State, t: Tid): State
    requires ConsumeInBounds(s, t)
  {
    var c := s.cons[t];
    match c.stage
    case LoadHeader => SetConsumer(s, t, c.(stage := LoadTail(|s.headers| - 1)))
    case LoadTail(h) => SetConsumer(s, t, c.(stage := ReadKey(h, s.headers[h].tail, s.headers[h].tailNum)))
    case ReadKey(h, front, _) =>
      SetConsumer(s, t, c.(stage := ReadValue(h, LookFrom(s.headers[h], s.keys, front, Base(Num(c.first))))))
    case ReadValue(h, slot) => SetConsumer(s, t, c.(stage := Take(h, slot, s.vals[s.headers[h].index[slot]].block)))
    case Take(h, slot, b) => TakeStep(s, t, c, h, slot, b)
    case SetEmpty(h, slot, b) => SetEmptyStep(s, t, c, h, slot, b)
    case NullEntry(h, slot, b, n) => NullEntryStep(s, t, c, h, slot, b, n)
    case AddBlock(h, slot, b, n) => AddBlockStep(s, t, c, h, slot, b, n)
  }

  ghost function ClaimStep(s: State, t: Tid, count: nat): State
    requires t < |s.cons|
  {
    SetConsumer(s.(head := s.head + count, owner := s.owner + Repeat(count, t), done := s.done + Repeat(count, false)),
                t, Busy(s.head, s.head + count, s.head, s.head, [], LoadHeader))
  }

  // ---- Other producers ----

  ghost function OthersStep(s: State, b: Block, move: Move): State
    requires move.Make? || b < |s.where| == |s.next| == |s.counters| == |s.cells|
  {
    match move
    case Borrow => s.(pool := s.pool - {b}, where := s.where[b := ELSEWHERE])
    case Make => s.(next := s.next + [Null], counters := s.counters + [0], cells := s.cells + [Repeat(BLOCK_SIZE, Raw)],
                    where := s.where + [ELSEWHERE])
    case Use(next, counter, row) => s.(next := s.next[b := next], counters := s.counters[b := counter], cells := s.cells[b := row])
    case Return => s.(pool := s.pool + {b}, where := s.where[b := IN_POOL])
  }

  // ---- Runs ----

  ghost predicate InBounds(s: State, a: Action) {
    match a
    case Begin(items) => true
    case Insert =>
      && HasNextEntry(s.headers, |s.keys|) && |s.keys| == |s.vals| && s.prod.Running?
      && (s.keys[NextEntry(s.headers, |s.keys|)] != Invalid ==> s.vals[NextEntry(s.headers, |s.keys|)] != Unset)
    case Grow => HasNextEntry(s.headers, |s.keys|) && |s.keys| == |s.vals|
                 && Last(s.headers).tail < |Last(s.headers).index| == Last(s.headers).capacity
                 && s.nextCapacity == 2 * |Last(s.headers).index|
    case GetBlock(b) => s.prod.Running? && s.prod.stage.Requisition? && GetBlockInBounds(s, s.prod.op, s.prod.stage.entry, b)
    case OutOfMemory => s.prod.Running? && s.prod.stage.Requisition? && s.headers != [] && Last(s.headers).capacity > 0
                        && s.prod.stage.entry < |s.vals|
    case Refuse => s.prod.Running?
    case Produce => s.prod.Running? && ProduceInBounds(s, s.prod.op, s.prod.stage)
    case Claim(t, count) => t < |s.cons|
    case Consume(t) => ConsumeInBounds(s, t)
    case Others(b, move) => move.Make? || b < |s.where| == |s.next| == |s.counters| == |s.cells|
  }

  ghost function Apply(s: State, a: Action): State
    requires InBounds(s, a)
  {
    match a
    case Begin(items) => BeginStep(s, items)
    case Insert => InsertStep(s, s.prod.op)
    case Grow => GrowStep(s)
    case GetBlock(b) => GetBlockStep(s, s.prod.op, s.prod.stage.entry, b)
    case OutOfMemory => OutOfMemoryStep(s, s.prod.op, s.prod.stage.entry)
    case Refuse => s.(prod := Running(s.prod.op, Undo(s.prod.op.firstAlloc, RoundUp(s.tail), 0)))
    case Produce => ProduceStep(s, s.prod.op, s.prod.stage)
    case Claim(t, count) => ClaimStep(s, t, count)
    case Consume(t) => ConsumeStep(s, t)
    case Others(b, move) => OthersStep(s, b, move)
  }

  /** A new producer has a first index of `capacity` new entries; others have what is not in the pool. */
  ghost predicate Init(s: State, capacity: nat) {
    && capacity > 0 && |s.next| == |s.counters| == |s.cells| == |s.where|
    && (forall b :: 0 <= b < |s.cells| ==> |s.cells[b]| == BLOCK_SIZE)
    && (forall b :: b in s.pool ==> b < |s.where|)
    && (forall b :: 0 <= b < |s.where| ==> s.where[b] == if b in s.pool then IN_POOL else ELSEWHERE)
    && s.headers == [Header(capacity, capacity - 1, seq(capacity, i => i), 0, 0, -1)]
    && s.keys == Repeat(capacity, Invalid) && s.vals == Repeat(capacity, Unset) && s.nextCapacity == 2 * capacity
    && s.tailBlock == Null && s.prod.Ready? && s.tail == s.head == s.lo == 0
    && s.ent == [] && s.order == [] && s.phase == [] && s.done == [] && s.elems == [] && s.owner == [] && s.log == []
    && forall t :: 0 <= t < |s.cons| ==> s.cons[t] == Idle
  }
}
