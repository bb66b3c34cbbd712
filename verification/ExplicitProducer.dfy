module ExplicitProducer {
  /**
    The explicit producer as one thread sees it: an object with a ring of blocks, a block index and
    the dequeue counters, that behaves as a first-in first-out queue.

    The predicates and lemmas about the ring and the index are those of ExplicitQueue, where the
    consumers run at the same time.
   */

  import opened Basics
  import opened Blocks
  import opened Sequences
  import opened ExplicitQueue
  import opened ExplicitFrames
  import opened ExplicitProducerSteps
  import opened ExplicitDestructor
  import Circular

  datatype Option<T> = None | Some(value: T)

  ghost predicate SettledFlags(order: seq<Block>, flags: seq<seq<bool>>, lo: nat, head: nat) {
    forall i :: Base(lo) <= i < head ==> FlagSet(order, flags, i)
  }

  ghost predicate CellRaw(order: seq<Block>, cells: seq<seq<Cell>>, i: nat) {
    InMemory(order, |cells|, i) && |cells[order[Num(i)]]| == BLOCK_SIZE && cells[order[Num(i)]][Off(i)] == Raw
  }

  /** The ring stores nothing but the elements with indices from `head` to `tail`. */
  ghost predicate RawOutside(order: seq<Block>, cells: seq<seq<Cell>>, lo: nat, head: nat, tail: nat) {
    forall i :: Base(lo) <= i < Base(|order|) && !(head <= i < tail) ==> CellRaw(order, cells, i)
  }

  /** The blocks, the ring and the elements agree. */
  ghost predicate DataOk(next: seq<Block>, flags: seq<seq<bool>>, cells: seq<seq<Cell>>, tailBlock: Ptr,
                         tail: nat, head: nat, order: seq<Block>, lo: nat, elems: seq<Elem>) {
    && MemoryOk(next, flags, cells)
    && RingOk(next, order, lo, tailBlock)
    && UnclaimedOk(order, flags, cells, elems, lo, head, tail, |order|)
    && SettledFlags(order, flags, lo, head)
    && |elems| == tail
    && RawOutside(order, cells, lo, head, tail)
    && |cells| == |order| - lo
  }

  /** The index agrees with the ring, and its front is the tail block. */
  ghost predicate IndexOk(headers: seq<Header>, tail: nat, slotsUsed: nat, indexSize: nat, nextSlot: nat, order: seq<Block>, lo: nat) {
    && HeadersOk(headers, order, lo)
    && CurrentOk(headers, order, lo, tail, slotsUsed, indexSize, nextSlot)
    && (headers != [] ==> Last(headers).frontNum == |order| - 1)
  }

  // ---- Indices of `width` bits ----

  /** A turn of half the index range is a whole number of blocks, at least two. */
  ghost predicate WidthOk(width: nat, halfBlocks: nat) {
    width > 0 && halfBlocks >= 2 && Base(halfBlocks) == Circular.Pow2(width - 1)
  }

  /** `circular_less_than` of two indices as they are stored. */
  predicate Before(a: int, b: int, width: nat)
    requires width > 0
  {
    Circular.CircularLessThan(Circular.Wrap(a, width), Circular.Wrap(b, width), width)
  }

  lemma {:induction false} BaseSum(m: nat, n: nat)
    ensures Base(m + n) == Base(m) + Base(n)
  {
    if n > 0 {
      BaseSum(m, n - 1);
    }
  }

  /** With at most half a turn of blocks in the ring, at most half a turn of elements is in the queue. */
  lemma SpanFits(next: seq<Block>, flags: seq<seq<bool>>, cells: seq<seq<Cell>>, tailBlock: Ptr,
                 tail: nat, head: nat, order: seq<Block>, lo: nat, elems: seq<Elem>, width: nat, halfBlocks: nat)
    requires DataOk(next, flags, cells, tailBlock, tail, head, order, lo, elems)
    requires WidthOk(width, halfBlocks) && |order| - lo <= halfBlocks
    ensures head <= tail && tail - head <= Circular.Pow2(width - 1)
  {
    BaseSum(lo, |order| - lo);
    BaseMonotone(|order| - lo, halfBlocks);
  }

  /** The test for leeway before a block is inserted is exact. */
  lemma LeewayMeans(tail: nat, head: nat, width: nat, halfBlocks: nat)
    requires WidthOk(width, halfBlocks) && head <= tail && tail - head <= Circular.Pow2(width - 1)
    ensures Before(head, tail + BLOCK_SIZE, width) <==> tail + BLOCK_SIZE - head < Circular.Pow2(width - 1)
  {
    BaseMonotone(2, halfBlocks);
    assert Base(2) == Base(1) + BLOCK_SIZE && Base(1) == BLOCK_SIZE;
    assert Circular.Pow2(width) == 2 * Circular.Pow2(width - 1);
    Circular.CircularLessThanIsExact(head, tail + BLOCK_SIZE, width);
  }

  /** The test for an element is exact but for a queue of half a turn, which it takes for an empty one. */
  lemma SizeTestMeans(tail: nat, head: nat, width: nat)
    requires width > 0 && head <= tail && tail - head <= Circular.Pow2(width - 1)
    ensures Before(head, tail, width) <==> head < tail && tail - head < Circular.Pow2(width - 1)
  {
    assert Circular.Pow2(width) == 2 * Circular.Pow2(width - 1);
    Circular.CircularLessThanIsExact(head, tail, width);
  }

  /** When the block ahead is not empty and there is leeway, the ring may grow by a block. */
  lemma RingFits(next: seq<Block>, flags: seq<seq<bool>>, cells: seq<seq<Cell>>, tailBlock: Ptr,
                 tail: nat, head: nat, order: seq<Block>, lo: nat, elems: seq<Elem>, width: nat, halfBlocks: nat)
    requires DataOk(next, flags, cells, tailBlock, tail, head, order, lo, elems) && tail == Base(|order|)
    requires WidthOk(width, halfBlocks) && tail + BLOCK_SIZE - head < Circular.Pow2(width - 1)
    requires order != [] ==> order[lo] < |flags| && !AllSet(flags[order[lo]])
    ensures |order| + 1 - lo <= halfBlocks
  {
    if order != [] {
      if Base(lo + 1) <= head {
        EmptyWhenPassed(flags, head, order, lo);
      }
      BaseSum(lo, |order| - lo);
      if halfBlocks <= |order| - lo {
        BaseMonotone(halfBlocks, |order| - lo);
      }
    }
  }

  lemma EmptyWhenPassed(flags: seq<seq<bool>>, head: nat, order: seq<Block>, lo: nat)
    requires SettledFlags(order, flags, lo, head) && Base(lo + 1) <= head
    requires lo < |order| && order[lo] < |flags| && |flags[order[lo]]| == BLOCK_SIZE
    ensures AllSet(flags[order[lo]])
  {
    var fs := flags[order[lo]];
    forall o | 0 <= o < |fs| ensures fs[o] {
      NumUnique(Base(lo) + o, lo);
      assert FlagSet(order, flags, Base(lo) + o);
    }
  }

  // ---- Starting a block ----

  /** The block ahead is empty: it is taken again, reset, and everything still wanted is elsewhere. */
  lemma ReuseData(next: seq<Block>, flags: seq<seq<bool>>, cells: seq<seq<Cell>>, tailBlock: Ptr,
                  tail: nat, head: nat, order: seq<Block>, lo: nat, elems: seq<Elem>)
    requires DataOk(next, flags, cells, tailBlock, tail, head, order, lo, elems) && tail == Base(|order|)
    requires order != [] && order[lo] < |flags| && AllSet(flags[order[lo]])
    ensures lo < |order| && Base(lo + 1) <= head
    ensures DataOk(next, flags[order[lo] := Repeat(BLOCK_SIZE, false)], cells, At(order[lo]), tail, head, order + [order[lo]], lo + 1, elems)
  {
    ReuseRing(next, flags, cells, tailBlock, tail, head, order, lo, elems);
    RawReuse(order, cells, lo, head, tail);
  }

  lemma ReuseRing(next: seq<Block>, flags: seq<seq<bool>>, cells: seq<seq<Cell>>, tailBlock: Ptr,
                  tail: nat, head: nat, order: seq<Block>, lo: nat, elems: seq<Elem>)
    requires DataOk(next, flags, cells, tailBlock, tail, head, order, lo, elems) && tail == Base(|order|)
    requires order != [] && order[lo] < |flags| && AllSet(flags[order[lo]])
    ensures lo < |order| && Base(lo + 1) <= head
    ensures RingOk(next, order + [order[lo]], lo + 1, At(order[lo]))
    ensures UnclaimedOk(order + [order[lo]], flags[order[lo] := Repeat(BLOCK_SIZE, false)], cells, elems, lo + 1, head, tail, |order| + 1)
    ensures SettledFlags(order + [order[lo]], flags[order[lo] := Repeat(BLOCK_SIZE, false)], lo + 1, head)
  {
    var n, b := |order|, order[lo];
    var order', flags' := order + [b], flags[b := Repeat(BLOCK_SIZE, false)];
    BaseMonotone(lo + 1, n);
    if head < tail {
      EmptyBlockIsDone(order, lo, flags, head, tail);
    }
    RingReuse(next, order, lo, tailBlock);
    CellsGrow(order, order', cells, cells, elems, head, |elems|);
    FlagsGrow(order, order', flags, flags, head, Base(n));
    ResetFlags(order', lo + 1, flags, n, head);
    SettledReset(order', flags, lo, lo + 1, head, n);
  }

  /** The cells of the oldest block, all of whose elements are dequeued, are those of the new numbers. */
  lemma RawReuse(order: seq<Block>, cells: seq<seq<Cell>>, lo: nat, head: nat, tail: nat)
    requires RawOutside(order, cells, lo, head, tail)
    requires lo < |order| && Base(lo + 1) <= head <= tail == Base(|order|)
    ensures RawOutside(order + [order[lo]], cells, lo + 1, head, tail)
  {
    var n, order' := |order|, order + [order[lo]];
    forall i | Base(lo + 1) <= i < Base(n + 1) && !(head <= i < tail) ensures CellRaw(order', cells, i) {
      if i < Base(n) {
        NumBelow(i, n);
        assert CellRaw(order, cells, i);
      } else {
        var o := i - Base(n);
        NumUnique(i, n);
        NumUnique(Base(lo) + o, lo);
        BaseMonotone(lo + 1, n);
        assert CellRaw(order, cells, Base(lo) + o);
      }
    }
  }

  lemma NumBelow(i: nat, n: nat)
    requires i < Base(n)
    ensures Num(i) < n
  {
    NumAtLeast(i, n);
  }

  lemma SettledReset(order: seq<Block>, flags: seq<seq<bool>>, lo: nat, lo': nat, head: nat, n: nat)
    requires lo <= lo' && Distinct(order, lo') && n + 1 == |order| && lo' <= n && head <= Base(n) && order[n] < |flags|
    requires SettledFlags(order[..n], flags, lo, head)
    ensures SettledFlags(order, flags[order[n] := Repeat(BLOCK_SIZE, false)], lo', head)
  {
    var flags' := flags[order[n] := Repeat(BLOCK_SIZE, false)];
    BaseMonotone(lo, lo');
    forall i | Base(lo') <= i < head ensures FlagSet(order, flags', i) {
      assert FlagSet(order[..n], flags, i);
      NumAtLeast(i, lo');
      assert Apart(order, Num(i), n);
    }
  }

  /** A block from the pool goes into the ring after the tail block. */
  lemma InsertData(next: seq<Block>, flags: seq<seq<bool>>, cells: seq<seq<Cell>>, tailBlock: Ptr,
                   tail: nat, head: nat, order: seq<Block>, lo: nat, elems: seq<Elem>, next': seq<Block>)
    requires DataOk(next, flags, cells, tailBlock, tail, head, order, lo, elems) && tail == Base(|order|)
    requires tailBlock.At? ==> tailBlock.block < |next|
    requires next' == if tailBlock.Null? then next + [|next|] else next[tailBlock.block := |next|] + [next[tailBlock.block]]
    ensures DataOk(next', flags + [Repeat(BLOCK_SIZE, false)], cells + [Repeat(BLOCK_SIZE, Raw)], At(|next|), tail, head,
                   order + [|next|], lo, elems)
  {
    var n, b := |order|, |next|;
    var order', flags', cells' := order + [b], flags + [Repeat(BLOCK_SIZE, false)], cells + [Repeat(BLOCK_SIZE, Raw)];
    RingInsert(next, order, lo, tailBlock);
    CellsGrow(order, order', cells, cells', elems, head, |elems|);
    InsertFlags(flags, order, lo, head, b, next', At(b));
    RawInsert(order, cells, lo, head, tail);
  }

  lemma RawInsert(order: seq<Block>, cells: seq<seq<Cell>>, lo: nat, head: nat, tail: nat)
    requires RawOutside(order, cells, lo, head, tail) && tail <= Base(|order|)
    ensures RawOutside(order + [|cells|], cells + [Repeat(BLOCK_SIZE, Raw)], lo, head, tail)
  {
    var n := |order|;
    forall i | Base(lo) <= i < Base(n + 1) && !(head <= i < tail)
      ensures CellRaw(order + [|cells|], cells + [Repeat(BLOCK_SIZE, Raw)], i)
    {
      if i < Base(n) {
        NumBelow(i, n);
        assert CellRaw(order, cells, i);
      } else {
        NumUnique(i, n);
      }
    }
  }

  lemma InsertFlags(flags: seq<seq<bool>>, order: seq<Block>, lo: nat, head: nat, b: Block, next: seq<Block>, tailBlock: Ptr)
    requires b == |flags| && lo <= |order| && Base(lo) <= head && head <= Base(|order|)
    requires RingOk(next, order + [b], lo, tailBlock)
    requires FlagsOn(order, flags, head, Base(|order|)) && SettledFlags(order, flags, lo, head)
    ensures FlagsOn(order + [b], flags + [Repeat(BLOCK_SIZE, false)], head, Base(|order| + 1))
    ensures SettledFlags(order + [b], flags + [Repeat(BLOCK_SIZE, false)], lo, head)
  {
    var order', flags' := order + [b], flags + [Repeat(BLOCK_SIZE, false)];
    FlagsGrow(order, order', flags, flags', head, Base(|order|));
    assert flags' == flags'[b := Repeat(BLOCK_SIZE, false)];
    ResetFlags(order', lo, flags', |order|, head);
    forall i | Base(lo) <= i < head ensures FlagSet(order', flags', i) {
      assert FlagSet(order, flags, i);
    }
  }

  /** The new tail block is written in the next slot. */
  lemma WriteNew(headers: seq<Header>, tail: nat, used: nat, size: nat, slot: nat, order: seq<Block>, lo: nat,
                 b: Block, lo': nat, used': nat, w: Header)
    requires IndexOk(headers, tail, used, size, slot, order, lo) && headers != []
    requires lo <= lo' <= |order| && used' == |order| + 1 - lo' <= size && slot < |Last(headers).entries|
    requires w == Written(Last(headers), slot, Base(|order|), b, |order|)
    ensures HeadersOk(headers[|headers| - 1 := w], order + [b], lo')
    ensures CurrentOk(headers[|headers| - 1 := w], order + [b], lo', tail, used', size, NextSlot(slot, size))
    ensures size > 0 && slot == Back(NextSlot(slot, size), 1, size)
  {
    IndexAcquire(headers, order, lo, lo', slot, b);
    CurrentAcquire(headers, w, order, lo, lo', tail, used, used', size, slot, b);
  }

  /** The new tail block is written in the next slot and published at once. */
  lemma PublishNew(headers: seq<Header>, tail: nat, used: nat, size: nat, slot: nat, order: seq<Block>, lo: nat,
                   b: Block, lo': nat, used': nat, h': Header)
    requires IndexOk(headers, tail, used, size, slot, order, lo) && headers != [] && tail == Base(|order|)
    requires lo <= lo' <= |order| && used' == |order| + 1 - lo' <= size && slot < |Last(headers).entries|
    requires h' == Written(Last(headers), slot, Base(|order|), b, |order|).(front := slot, frontNum := |order|)
    ensures IndexOk(headers[|headers| - 1 := h'], tail, used', size, NextSlot(slot, size), order + [b], lo')
  {
    var w := Written(Last(headers), slot, Base(|order|), b, |order|);
    WriteNew(headers, tail, used, size, slot, order, lo, b, lo', used', w);
    IsPublished(w, h', slot, size, |order|, b);
    PublishWritten(headers[|headers| - 1 := w], headers[|headers| - 1 := h'], h', tail, used', size, NextSlot(slot, size), order + [b], lo');
  }

  lemma IsPublished(w: Header, h': Header, slot: nat, size: nat, n: nat, b: Block)
    requires slot < size && slot == Back(NextSlot(slot, size), 1, size) && h' == w.(front := slot, frontNum := n)
    ensures NextSlot(slot, size) < size && h' == w.(front := Back(NextSlot(slot, size), 1, size), frontNum := n + 1 - 1)
  {
  }

  lemma PublishWritten(headers: seq<Header>, headers': seq<Header>, h': Header, tail: nat, used: nat, size: nat, slot: nat, order: seq<Block>, lo: nat)
    requires HeadersOk(headers, order, lo) && CurrentOk(headers, order, lo, tail, used, size, slot) && headers != [] && lo < |order|
    requires tail <= Base(|order|) && |headers'| == |headers| && headers'[..|headers| - 1] == headers[..|headers| - 1]
    requires slot < size && headers'[|headers| - 1] == h' == Last(headers).(front := Back(slot, 1, size), frontNum := |order| - 1)
    ensures IndexOk(headers', tail, used, size, slot, order, lo)
  {
    LastReplaced(headers, headers', h');
    IndexPublish(headers, h', order, lo, slot, size);
    CurrentPublish(headers, h', order, lo, tail, used, size, slot);
  }

  lemma LastReplaced(headers: seq<Header>, headers': seq<Header>, h': Header)
    requires headers != [] && |headers'| == |headers| && headers'[..|headers| - 1] == headers[..|headers| - 1]
    requires headers'[|headers| - 1] == h'
    ensures headers' == headers[|headers| - 1 := h']
  {
    forall j | 0 <= j < |headers| ensures headers'[j] == headers[|headers| - 1 := h'][j] {
      if j < |headers| - 1 {
        assert headers'[..|headers| - 1][j] == headers[..|headers| - 1][j];
      }
    }
  }

  // ---- Constructing and taking elements ----

  lemma ConstructOne(next: seq<Block>, flags: seq<seq<bool>>, cells: seq<seq<Cell>>, tailBlock: Ptr,
                     tail: nat, head: nat, order: seq<Block>, lo: nat, elems: seq<Elem>, e: Elem)
    requires DataOk(next, flags, cells, tailBlock, tail, head, order, lo, elems) && |order| == Num(tail) + 1
    ensures InMemory(order, |cells|, tail) && tailBlock == At(order[Num(tail)]) && |cells[order[Num(tail)]]| == BLOCK_SIZE
    ensures DataOk(next, flags, Put(order, cells, tail, Full(e)), tailBlock, tail + 1, head, order, lo, elems + [e])
    ensures |order| == BlocksFor(tail + 1)
  {
    NumAtLeast(tail, lo);
    assert RingAt(next, order, lo, Num(tail));
    ConstructCells(order, lo, cells, elems, e, head);
    RawPut(order, cells, lo, head, tail, head, tail + 1, tail, Full(e));
  }

  /** One cell is constructed or destroyed, and the range of the elements moves by it. */
  lemma RawPut(order: seq<Block>, cells: seq<seq<Cell>>, lo: nat, head: nat, tail: nat, head': nat, tail': nat, j: nat, x: Cell)
    requires Distinct(order, lo) && RawOutside(order, cells, lo, head, tail) && Base(lo) <= j && Base(lo) <= head <= head'
    requires InMemory(order, |cells|, j) && |cells[order[Num(j)]]| == BLOCK_SIZE
    requires head <= tail && ((head' == head && tail' == tail + 1 && j == tail) || (head' == head + 1 && tail' == tail && j == head && x == Raw))
    ensures RawOutside(order, Put(order, cells, j, x), lo, head', tail')
  {
    var cells' := Put(order, cells, j, x);
    forall i | Base(lo) <= i < Base(|order|) && !(head' <= i < tail') ensures CellRaw(order, cells', i) {
      NumBelow(i, |order|);
      if i != j {
        assert CellRaw(order, cells, i);
        SpotsApart(order, lo, i, j);
      }
    }
  }

  /** Index `head` is looked up, its element destroyed and its flag set. */
  lemma TakeOne(next: seq<Block>, flags: seq<seq<bool>>, cells: seq<seq<Cell>>, tailBlock: Ptr,
                tail: nat, head: nat, order: seq<Block>, lo: nat, elems: seq<Elem>)
    requires DataOk(next, flags, cells, tailBlock, tail, head, order, lo, elems) && head < tail
    requires |order| == BlocksFor(tail)
    ensures lo <= Num(head) && InMemory(order, |cells|, head) && order[Num(head)] < |flags|
    ensures |cells[order[Num(head)]]| == |flags[order[Num(head)]]| == BLOCK_SIZE
    ensures cells[order[Num(head)]][Off(head)] == Full(elems[head])
    ensures !flags[order[Num(head)]][Off(head)]
    ensures var b := order[Num(head)];
            DataOk(next, flags[b := Flagged(flags[b], Off(head), 1)], Put(order, cells, head, Raw), tailBlock,
                   tail, head + 1, order, lo, elems)
  {
    NumAtLeast(head, lo);
    assert CellOk(order, cells, elems, head);
    assert FlagClear(order, flags, head);
    CellsFrame(order, lo, cells, elems, head, Raw, head + 1, |elems|);
    var n := |order|;
    FlaggedFrame(order, lo, flags, head, head + 1, head + 1, Base(n));
    var b := order[Num(head)];
    var flags' := flags[b := Flagged(flags[b], Off(head), 1)];
    forall i | Base(lo) <= i < head + 1 ensures FlagSet(order, flags', i) {
      if i < head {
        assert FlagSet(order, flags, i);
      }
    }
    RawPut(order, cells, lo, head, tail, head + 1, tail, head, Raw);
  }

  /** Every block of the memory is in the ring. */
  lemma RingIsMemory(order: seq<Block>, lo: nat, n: nat, b: Block) returns (k: nat)
    requires lo <= |order| && Distinct(order, lo) && n == |order| - lo && b < n
    requires forall k :: lo <= k < |order| ==> order[k] < n
    ensures lo <= k < |order| && order[k] == b
  {
    var used := Used(order, lo, |order|);
    UsedSize(order, lo, |order|);
    if b !in used {
      SubsetSize(used, Below(n) - {b});
      assert false;
    }
    k :| lo <= k < |order| && order[k] == b;
  }

  ghost function Below(n: nat): (r: set<Block>)
    ensures |r| == n && forall v: nat :: v in r <==> v < n
  {
    if n == 0 then {} else Below(n - 1) + {n - 1}
  }

  ghost function Used(order: seq<Block>, lo: nat, m: nat): (r: set<Block>)
    requires lo <= m <= |order|
    ensures forall v :: v in r <==> exists k :: lo <= k < m && order[k] == v
  {
    set k | lo <= k < m :: order[k]
  }

  lemma {:induction false} UsedSize(order: seq<Block>, lo: nat, m: nat)
    requires lo <= m <= |order| && Distinct(order, lo)
    ensures |Used(order, lo, m)| == m - lo
  {
    if lo < m {
      UsedSize(order, lo, m - 1);
      forall k | lo <= k < m - 1 ensures order[k] != order[m - 1] {
        assert Apart(order, k, m - 1);
      }
      assert Used(order, lo, m) == Used(order, lo, m - 1) + {order[m - 1]};
    }
  }

  lemma {:induction false} SubsetSize(a: set<Block>, b: set<Block>)
    requires a <= b
    ensures |a| <= |b|
  {
    if a != {} {
      var x :| x in a;
      SubsetSize(a - {x}, b - {x});
    }
  }

  /** A cell of any block holds an element exactly if it is the place of an index from head to tail, and then that element. */
  lemma {:induction false} CellsAreTheQueue(next: seq<Block>, flags: seq<seq<bool>>, cells: seq<seq<Cell>>, tailBlock: Ptr,
                                            tail: nat, head: nat, order: seq<Block>, lo: nat, elems: seq<Elem>, b: Block, o: nat)
    requires DataOk(next, flags, cells, tailBlock, tail, head, order, lo, elems)
    requires b < |cells| && o < |cells[b]|
    ensures cells[b][o] != Raw <==> exists i :: head <= i < tail && PlaceOf(order, b, o, i)
    ensures forall i :: head <= i < tail && PlaceOf(order, b, o, i) ==> cells[b][o] == Full(elems[i])
  {
    forall k | lo <= k < |order| ensures order[k] < |cells| {
      assert RingAt(next, order, lo, k);
    }
    forall i | head <= i < tail && PlaceOf(order, b, o, i) ensures cells[b][o] == Full(elems[i]) {
      assert CellOk(order, cells, elems, i);
    }
    var k := RingIsMemory(order, lo, |cells|, b);
    var i := Base(k) + o;
    NumUnique(i, k);
    BaseMonotone(lo, k);
    BaseMonotone(k + 1, |order|);
    assert PlaceOf(order, b, o, i);
    if !(head <= i < tail) {
      assert CellRaw(order, cells, i);
    }
  }

  // ---- The object ----

  class Producer {
    // blocks are numbered; these are their `next` pointers, empty flags and storage
    var next: seq<Block>
    var flags: seq<seq<bool>>
    var cells: seq<seq<Cell>>
    var tailBlock: Ptr
    var slotsUsed: nat       // pr_blockIndexSlotsUsed
    var indexSize: nat       // pr_blockIndexSize
    var nextSlot: nat        // pr_blockIndexFront
    var headers: seq<Header>
    var tail: nat
    var head: nat
    var optimisticCount: nat
    var overcommit: nat
    // history: order[n] is the block of number n, the ring holds the numbers from lo on
    var order: seq<Block>
    var lo: nat
    ghost var elems: seq<Elem>
    // the indices have `width` bits
    const width: nat
    ghost const halfBlocks: nat

    /** With the blocks of the first `n` numbers acquired. */
    ghost predicate ValidWith(n: nat)
      reads this
    {
      && DataOk(next, flags, cells, tailBlock, tail, head, order, lo, elems)
      && IndexOk(headers, tail, slotsUsed, indexSize, nextSlot, order, lo)
      && |order| == n && optimisticCount == head + overcommit
      && WidthOk(width, halfBlocks) && |order| - lo <= halfBlocks
    }

    ghost predicate Valid()
      reads this
    {
      ValidWith(BlocksFor(tail))
    }

    /** The elements in the queue, oldest first. */
    ghost function Contents(): seq<Elem>
      requires Valid()
      reads this
    {
      elems[head..]
    }

    /** An empty queue. The index is allocated at once if it can be, else by the first enqueue. */
    constructor (initialSize: nat, indexMemory: bool, width: nat, ghost halfBlocks: nat)
      requires initialSize > 0 && WidthOk(width, halfBlocks)
      ensures Valid() && Contents() == [] && tail == head == 0 && this.width == width && this.halfBlocks == halfBlocks
    {
      next, flags, cells, tailBlock := [], [], [], Null;
      slotsUsed, indexSize, nextSlot, headers := 0, initialSize, 0, [];
      tail, head, optimisticCount, overcommit := 0, 0, 0, 0;
      order, lo, elems := [], 0, [];
      this.width, this.halfBlocks := width, halfBlocks;
      new;
      var ok := NewBlockIndex(0, indexMemory);
    }

    /** The producer's bookkeeping agrees with its ring. */
    ghost predicate IndexAgrees()
      reads this
    {
      HeadersOk(headers, order, lo) && CurrentOk(headers, order, lo, tail, slotsUsed, indexSize, nextSlot)
    }

    /**
      `new_block_index`: a copy of the entries in use, oldest first, in an index of twice the size,
      of which the first `exposed` are visible to consumers. Without memory nothing changes.
     */
    method NewBlockIndex(exposed: nat, memory: bool) returns (ok: bool)
      requires IndexAgrees() && exposed <= slotsUsed && tail <= Base(lo + exposed) && (headers == [] || slotsUsed == indexSize)
      modifies `indexSize, `headers, `nextSlot
      ensures IndexAgrees() && ok == memory
      ensures ok ==> slotsUsed < indexSize == 2 * old(indexSize) && |headers| == |old(headers)| + 1 && old(headers) <= headers
      ensures ok ==> Last(headers).front == exposed - 1 && Last(headers).frontNum == lo + exposed - 1
      ensures !ok ==> indexSize == old(indexSize) && headers == old(headers) && nextSlot == old(nextSlot)
    {
      EntriesInUse();
      indexSize := 2 * indexSize;
      if !memory {
        indexSize := indexSize / 2;
        return false;
      }
      var entries: seq<Entry> := [];
      if slotsUsed != 0 {
        var kept := Last(headers).entries;
        var i := Back(nextSlot, slotsUsed, |kept|);
        var more := true;
        while more
          invariant more ==> |entries| < slotsUsed && i == Back(nextSlot, slotsUsed - |entries|, |kept|)
          invariant !more ==> |entries| == slotsUsed
          invariant forall k :: 0 <= k < |entries| ==> entries[k] == kept[Back(nextSlot, slotsUsed - k, |kept|)]
          decreases slotsUsed - |entries|, more
        {
          entries := entries + [kept[i]];
          i := NextSlot(i, |kept|);
          more := i != nextSlot;
        }
      }
      var h := Header(indexSize, exposed - 1, entries + Repeat(indexSize - |entries|, Entry(0, 0)), lo, |order|, lo + exposed - 1);
      assert h.entries == Copied(if headers == [] then [] else Last(headers).entries, nextSlot, slotsUsed, indexSize);
      IndexGrow(headers, order, lo, lo, tail, slotsUsed, old(indexSize), nextSlot, exposed, h);
      headers := headers + [h];
      nextSlot := |entries|;
      ok := true;
    }

    lemma EntriesInUse()
      requires IndexAgrees()
      ensures slotsUsed == |order| - lo && (headers == [] ==> slotsUsed == 0)
      ensures headers != [] ==> slotsUsed <= indexSize && nextSlot < indexSize == |Last(headers).entries|
    {
      if headers != [] {
        assert HeaderOk(headers[|headers| - 1], order, lo);
      }
    }

    /** The block ahead is taken again. */
    method ReuseBlock()
      requires Valid() && tail == Base(|order|) && order != [] && order[lo] < |flags| && AllSet(flags[order[lo]])
      requires tailBlock.At? && tailBlock.block < |next| && next[tailBlock.block] == order[lo]
      modifies this`tailBlock, this`flags, this`order, this`lo, this`headers, this`nextSlot
      ensures ValidWith(old(|order|) + 1)
    {
      ReuseData(next, flags, cells, tailBlock, tail, head, order, lo, elems);
      EntriesInUse();
      HasIndex();
      ReusedFits();
      tailBlock := At(next[tailBlock.block]);
      var b := tailBlock.block;
      flags := flags[b := Repeat(BLOCK_SIZE, false)];
      var h := Written(Last(headers), nextSlot, tail, b, |order|).(front := nextSlot, frontNum := |order|);
      PublishNew(headers, tail, slotsUsed, indexSize, nextSlot, order, lo, b, lo + 1, slotsUsed, h);
      headers := headers[|headers| - 1 := h];
      nextSlot := NextSlot(nextSlot, indexSize);
      order, lo := order + [b], lo + 1;
    }

    /** Taking a block again does not make the ring longer. */
    lemma ReusedFits()
      requires ValidWith(|order|)
      ensures |order| + 1 - (lo + 1) <= halfBlocks
    {
    }

    lemma HasIndex()
      requires ValidWith(|order|) && order != []
      ensures headers != []
    {
    }

    /** A block from the pool goes into the ring after the tail block. */
    method InsertIntoRing() returns (b: Block)
      requires DataOk(next, flags, cells, tailBlock, tail, head, order, lo, elems) && tail == Base(|order|)
      requires tailBlock.At? ==> tailBlock.block < |next|
      modifies this`tailBlock, this`next, this`flags, this`cells, this`order
      ensures DataOk(next, flags, cells, tailBlock, tail, head, order, lo, elems) && order == old(order) + [b]
    {
      b := |next|;
      var ring := if tailBlock.Null? then next + [b] else next[tailBlock.block := b] + [next[tailBlock.block]];
      InsertData(next, flags, cells, tailBlock, tail, head, order, lo, elems, ring);
      next, flags, cells := ring, flags + [Repeat(BLOCK_SIZE, false)], cells + [Repeat(BLOCK_SIZE, Raw)];
      tailBlock, order := At(b), order + [b];
    }

    method InsertBlock()
      requires Valid() && tail == Base(|order|) && headers != [] && slotsUsed < indexSize && |order| + 1 - lo <= halfBlocks
      requires tailBlock.At? ==> tailBlock.block < |next|
      modifies this`tailBlock, this`next, this`flags, this`cells, this`order, this`headers, this`nextSlot, this`slotsUsed
      ensures ValidWith(old(|order|) + 1)
    {
      EntriesInUse();
      ghost var order0 := order;
      var n := |order|;
      var b := InsertIntoRing();
      PublishInserted(b, n, order0);
    }

    /** The inserted block is entered in the index. */
    method PublishInserted(b: Block, n: nat, ghost before: seq<Block>)
      requires IndexOk(headers, tail, slotsUsed, indexSize, nextSlot, before, lo) && headers != [] && tail == Base(|before|)
      requires lo <= n == |before| && slotsUsed == n - lo < indexSize && nextSlot < |Last(headers).entries|
      modifies this`headers, this`nextSlot, this`slotsUsed
      ensures IndexOk(headers, tail, slotsUsed, indexSize, nextSlot, before + [b], lo)
    {
      var h := Written(Last(headers), nextSlot, tail, b, n).(front := nextSlot, frontNum := n);
      PublishNew(headers, tail, slotsUsed, indexSize, nextSlot, before, lo, b, lo, slotsUsed + 1, h);
      slotsUsed := slotsUsed + 1;
      headers, nextSlot := headers[|headers| - 1 := h], NextSlot(nextSlot, indexSize);
    }

    /** Whether the producer has a block ahead whose elements are all dequeued. */
    predicate CanReuseAhead()
      reads this
    {
      && tailBlock.At? && tailBlock.block < |next| && next[tailBlock.block] < |flags|
      && AllSet(flags[next[tailBlock.block]])
    }

    /** What a failing enqueue lacks: leeway, room under the size limit, memory for the index, or a block. */
    predicate HasMeans(limit: Option<nat>, indexMemory: bool, blockMemory: bool)
      requires width > 0
      reads this
    {
      && tail + BLOCK_SIZE - head < Circular.Pow2(width - 1)
      && (limit.Some? ==> limit.value != 0 && limit.value - BLOCK_SIZE >= tail - head)
      && (headers == [] || slotsUsed == indexSize ==> indexMemory)
      && blockMemory
    }

    lemma AheadFacts()
      requires ValidWith(|order|)
      ensures tailBlock.At? <==> order != []
      ensures order != [] ==> tailBlock.block < |next| && next[tailBlock.block] == order[lo] && order[lo] < |flags|
    {
      if order != [] {
        assert RingAt(next, order, lo, |order| - 1);
        assert RingAt(next, order, lo, lo);
      }
    }

    lemma OnBoundary()
      requires Valid()
      ensures tail % BLOCK_SIZE == 0 <==> tail == Base(|order|)
      ensures tail % BLOCK_SIZE == 0 ==> |order| == Num(tail)
      ensures tail % BLOCK_SIZE != 0 ==> |order| == Num(tail) + 1
    {
      NumIsQuotient(tail);
      if Off(tail) == 0 {
        BlocksForUnique(tail, Num(tail));
      } else {
        BlocksForUnique(tail, Num(tail) + 1);
      }
    }

    lemma Leeway()
      requires ValidWith(|order|)
      ensures width > 0 && head <= tail && tail - head <= Circular.Pow2(width - 1)
      ensures Before(head, tail + BLOCK_SIZE, width) <==> tail + BLOCK_SIZE - head < Circular.Pow2(width - 1)
      ensures Before(head, tail, width) <==> head < tail && tail - head < Circular.Pow2(width - 1)
    {
      SpanFits(next, flags, cells, tailBlock, tail, head, order, lo, elems, width, halfBlocks);
      LeewayMeans(tail, head, width, halfBlocks);
      SizeTestMeans(tail, head, width);
    }

    /** A new tail block: the one ahead if it is empty, else one from the pool if it can be had. */
    method StartBlock(limit: Option<nat>, indexMemory: bool, blockMemory: bool) returns (ok: bool)
      requires Valid() && tail % BLOCK_SIZE == 0
      modifies this`tailBlock, this`next, this`flags, this`cells, this`order, this`lo, this`headers, this`nextSlot, this`slotsUsed, this`indexSize
      ensures ok <==> old(CanReuseAhead()) || old(HasMeans(limit, indexMemory, blockMemory))
      ensures ok ==> ValidWith(Num(tail) + 1)
      ensures !ok ==> Valid() && order == old(order)
    {
      OnBoundary();
      AheadFacts();
      if tailBlock.At? && AllSet(flags[next[tailBlock.block]]) {
        ReuseBlock();
        ok := true;
      } else {
        ok := AddBlock(limit, indexMemory, blockMemory);
      }
    }

    method AddBlock(limit: Option<nat>, indexMemory: bool, blockMemory: bool) returns (ok: bool)
      requires Valid() && tail == Base(|order|) && (order != [] ==> order[lo] < |flags| && !AllSet(flags[order[lo]]))
      modifies this`tailBlock, this`next, this`flags, this`cells, this`order, this`headers, this`nextSlot, this`slotsUsed, this`indexSize
      ensures ok <==> old(HasMeans(limit, indexMemory, blockMemory))
      ensures ok ==> ValidWith(old(|order|) + 1)
      ensures !ok ==> Valid() && order == old(order)
    {
      Leeway();
      if !Before(head, tail + BLOCK_SIZE, width) || (limit.Some? && (limit.value == 0 || limit.value - BLOCK_SIZE < tail - head)) {
        return false;
      }
      RingFits(next, flags, cells, tailBlock, tail, head, order, lo, elems, width, halfBlocks);
      ok := ObtainBlock(indexMemory, blockMemory);
    }

    /** A slot in the index, and a block. */
    method ObtainBlock(indexMemory: bool, blockMemory: bool) returns (ok: bool)
      requires Valid() && tail == Base(|order|) && |order| + 1 - lo <= halfBlocks
      modifies this`tailBlock, this`next, this`flags, this`cells, this`order, this`headers, this`nextSlot, this`slotsUsed, this`indexSize
      ensures ok <==> blockMemory && (old(headers == [] || slotsUsed == indexSize) ==> indexMemory)
      ensures ok ==> ValidWith(old(|order|) + 1)
      ensures !ok ==> Valid() && order == old(order)
    {
      EntriesInUse();
      if headers == [] || slotsUsed == indexSize {
        var enlarged := NewBlockIndex(slotsUsed, indexMemory);
        if !enlarged {
          return false;
        }
      }
      if !blockMemory {
        return false;
      }
      AheadFacts();
      EntriesInUse();
      InsertBlock();
      return true;
    }

    /** Constructs the element in the tail block and publishes it. */
    method Construct(e: Elem)
      requires ValidWith(Num(tail) + 1)
      modifies `cells, `elems, `tail
      ensures Valid() && elems == old(elems) + [e] && tail == old(tail) + 1
      ensures Contents() == old(elems[head..]) + [e]
    {
      HeadInside();
      NumIsQuotient(tail);
      ConstructOne(next, flags, cells, tailBlock, tail, head, order, lo, elems, e);
      IndexAhead(headers, tail, slotsUsed, indexSize, nextSlot, order, lo);
      var b := tailBlock.block;
      cells := cells[b := cells[b][tail % BLOCK_SIZE := Full(e)]];
      elems := elems + [e];
      tail := tail + 1;
    }

    /** Appends one element, or changes nothing the consumers see when a block is needed and cannot be had. */
    method Enqueue(e: Elem, limit: Option<nat>, indexMemory: bool, blockMemory: bool) returns (ok: bool)
      requires Valid()
      modifies this
      ensures Valid()
      ensures ok <==> old(tail) % BLOCK_SIZE != 0 || old(CanReuseAhead()) || old(HasMeans(limit, indexMemory, blockMemory))
      ensures Contents() == if ok then old(Contents()) + [e] else old(Contents())
      ensures head == old(head) && tail == old(tail) + if ok then 1 else 0
    {
      OnBoundary();
      HeadInside();
      ok := true;
      if tail % BLOCK_SIZE == 0 {
        ok := StartBlock(limit, indexMemory, blockMemory);
      }
      if ok {
        Construct(e);
      }
    }

    lemma HeadInside()
      requires ValidWith(|order|)
      ensures head <= tail == |elems|
    {
    }

    /**
      Takes the oldest element, unless the queue is empty or holds exactly 2^(width - 1) elements,
      which the comparison of the wrapped indices cannot tell from an empty queue.
     */
    method Dequeue() returns (r: Option<Elem>)
      requires Valid()
      modifies this`optimisticCount, this`cells, this`flags, this`head
      ensures Valid() && |old(Contents())| == tail - old(head) <= Circular.Pow2(width - 1)
      ensures r.None? <==> old(Contents()) == [] || |old(Contents())| == Circular.Pow2(width - 1)
      ensures r.Some? ==> old(Contents()) == [r.value] + Contents() && head == old(head) + 1
      ensures r.None? ==> Contents() == old(Contents()) && head == old(head)
    {
      HeadInside();
      Leeway();
      r := None;
      if Before(optimisticCount - overcommit, tail, width) {
        optimisticCount := optimisticCount + 1;
        var e := TakeHead();
        r := Some(e);
      }
    }

    /** Moves the element at index `head` out, destroys it and flags it. */
    method TakeHead() returns (e: Elem)
      requires DataOk(next, flags, cells, tailBlock, tail, head, order, lo, elems) && |order| == BlocksFor(tail) && head < tail
      requires IndexOk(headers, tail, slotsUsed, indexSize, nextSlot, order, lo)
      modifies this`cells, this`flags, this`head
      ensures DataOk(next, flags, cells, tailBlock, tail, head, order, lo, elems)
      ensures head == old(head) + 1 && e == elems[old(head)]
    {
      TakeOne(next, flags, cells, tailBlock, tail, head, order, lo, elems);
      FrontIsSet();
      var block := FindBlock(head);
      NumIsQuotient(head);
      e := cells[block][head % BLOCK_SIZE].elem;
      cells := cells[block := cells[block][head % BLOCK_SIZE := Raw]];
      flags := flags[block := Flagged(flags[block], head % BLOCK_SIZE, 1)];
      head := head + 1;
    }

    lemma FrontIsSet()
      requires IndexOk(headers, tail, slotsUsed, indexSize, nextSlot, order, lo) && tail > 0
      ensures headers != [] && Last(headers).frontNum == |order| - 1 && Last(headers).filled == |order|
      ensures HeadersOk(headers, order, lo)
    {
    }

    /** The block of an index, found from the front of the block index. */
    method FindBlock(index: nat) returns (block: Block)
      requires HeadersOk(headers, order, lo) && headers != [] && Last(headers).frontNum == |order| - 1 && Last(headers).filled == |order|
      requires lo <= Num(index) < |order|
      ensures block == order[Num(index)]
    {
      var localBlockIndex := Last(headers);
      ghost var n, f := Num(index), |order| - 1;
      assert HeaderOk(headers[|headers| - 1], order, lo);
      assert EntryAt(localBlockIndex, order, n) && EntryAt(localBlockIndex, order, f);
      NumIsQuotient(index);
      BaseIsProduct(n);
      LookupIsSlot(localBlockIndex.first, f - localBlockIndex.first, n - localBlockIndex.first, localBlockIndex.size);
      var headBase := localBlockIndex.entries[localBlockIndex.front].base;
      var slot := Lookup(localBlockIndex.front, headBase, BLOCK_SIZE * (index / BLOCK_SIZE), localBlockIndex.size);
      block := localBlockIndex.entries[slot].block;
    }
  }

  lemma IndexAhead(headers: seq<Header>, tail: nat, used: nat, size: nat, slot: nat, order: seq<Block>, lo: nat)
    requires IndexOk(headers, tail, used, size, slot, order, lo) && tail + 1 <= Base(|order|)
    ensures IndexOk(headers, tail + 1, used, size, slot, order, lo)
  {
  }

  // ---- A full half turn is reached ----

  lemma NotYetFull(q: Producer, half: nat)
    requires q.Valid() && half == Circular.Pow2(q.width - 1) && q.tail < half && q.tail % BLOCK_SIZE == 0
    ensures q.tail + BLOCK_SIZE <= half
  {
    q.OnBoundary();
    if q.halfBlocks < Num(q.tail) + 1 {
      BaseMonotone(q.halfBlocks, Num(q.tail));
    }
    BaseMonotone(Num(q.tail) + 1, q.halfBlocks);
  }

  lemma FirstBlockLeft(q: Producer)
    requires q.Valid() && q.head < BLOCK_SIZE
    ensures q.lo == 0
  {
    BaseMonotone(0, q.lo);
  }

  lemma FirstBlockEmpty(q: Producer)
    requires q.Valid() && q.lo == 0 && q.head >= BLOCK_SIZE
    ensures q.CanReuseAhead()
  {
    q.AheadFacts();
    assert Base(1) == BLOCK_SIZE;
    EmptyWhenPassed(q.flags, q.head, q.order, q.lo);
  }

  lemma HalfIsMore(width: nat, halfBlocks: nat)
    requires WidthOk(width, halfBlocks)
    ensures Circular.Pow2(width - 1) >= 2 * BLOCK_SIZE
  {
    BaseMonotone(2, halfBlocks);
    assert Base(2) == Base(1) + BLOCK_SIZE && Base(1) == BLOCK_SIZE;
  }

  method OneInOneOut(width: nat, ghost halfBlocks: nat, e: Elem) returns (q: Producer)
    requires WidthOk(width, halfBlocks)
    ensures fresh(q) && q.Valid() && q.width == width && q.head == q.tail == 1
  {
    HalfIsMore(width, halfBlocks);
    q := new Producer(1, true, width, halfBlocks);
    var ok := q.Enqueue(e, None, true, true);
    var r := q.Dequeue();
  }

  method FillHalf(q: Producer, e: Elem)
    requires q.Valid() && q.head == 1 == q.tail
    modifies q
    ensures q.Valid() && q.head == 1 && q.tail == Circular.Pow2(q.width - 1)
  {
    HalfIsMore(q.width, q.halfBlocks);
    var half := Circular.Pow2(q.width - 1);
    while q.tail < half
      invariant q.Valid() && q.head == 1 <= q.tail <= half
    {
      if q.tail % BLOCK_SIZE == 0 {
        NotYetFull(q, half);
      }
      var ok := q.Enqueue(e, None, true, true);
    }
  }

  method EmptyFirstBlock(q: Producer)
    requires q.Valid() && q.head == 1 && q.tail == Circular.Pow2(q.width - 1)
    modifies q
    ensures q.Valid() && q.head == BLOCK_SIZE && q.tail == old(q.tail) && q.lo == 0
  {
    HalfIsMore(q.width, q.halfBlocks);
    FirstBlockLeft(q);
    while q.head < BLOCK_SIZE
      invariant q.Valid() && q.tail == old(q.tail) && q.lo == 0 && 1 <= q.head <= BLOCK_SIZE
    {
      var r := q.Dequeue();
    }
  }

  method FillFirstBlock(q: Producer, e: Elem)
    requires q.Valid() && q.head == BLOCK_SIZE && q.tail == Circular.Pow2(q.width - 1) && q.lo == 0
    modifies q
    ensures q.Valid() && q.head == BLOCK_SIZE && q.tail == old(q.tail) + BLOCK_SIZE
  {
    FirstBlockEmpty(q);
    var half := q.tail;
    var ok := q.Enqueue(e, None, true, true);
    while q.tail < half + BLOCK_SIZE
      invariant q.Valid() && q.head == BLOCK_SIZE && half < q.tail <= half + BLOCK_SIZE
    {
      InsideBlock(q, half);
      ok := q.Enqueue(e, None, true, true);
    }
  }

  /**
    Enqueues and dequeues can lead to a queue of 2^(width - 1) elements, from which nothing is
    dequeued: a block that is reused is not subject to the test for leeway.
   */
  method HalfTurnLooksEmpty(width: nat, ghost halfBlocks: nat, e: Elem) returns (q: Producer, r: Option<Elem>)
    requires WidthOk(width, halfBlocks)
    ensures q.Valid() && q.width == width && |q.Contents()| == Circular.Pow2(width - 1) && r == None
  {
    q := OneInOneOut(width, halfBlocks, e);
    FillHalf(q, e);
    EmptyFirstBlock(q);
    FillFirstBlock(q, e);
    r := q.Dequeue();
  }

  lemma InsideBlock(q: Producer, half: nat)
    requires q.Valid() && half == Circular.Pow2(q.width - 1) && half < q.tail < half + BLOCK_SIZE
    ensures q.tail % BLOCK_SIZE != 0
  {
    NumIsQuotient(q.tail);
    NumUnique(q.tail, q.halfBlocks);
  }
}
