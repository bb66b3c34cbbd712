module ExplicitOverwrite {
  /**
    What a failing bulk enqueue leads to. The count it restores is too small for the ring, so later
    calls pass the test for a full index too often: for every index size there is a run in which the
    index entry of a block that still holds an element is overwritten, and the consumer of that
    element ends up in another block.
   */

  import opened Basics
  import opened Blocks
  import opened Sequences
  import opened Deliveries
  import opened ExplicitQueue
  import opened ExplicitFifo
  import Circular

  /** One index header of `size` slots, blocks 0 to n - 1 in memory, and nothing claimed. */
  ghost predicate Shape(s: State, size: nat, n: nat) {
    && |s.headers| == 1 && s.indexSize == size == |s.headers[0].entries| == s.headers[0].size && size > 1
    && |s.next| == |s.flags| == |s.cells| == n
    && s.head == 0 && |s.cons| > 0 && s.cons[0] == Idle
  }

  // ---- First call: more than a block is wanted, one block is obtained ----

  /** One block is in the ring and no slot is in use. */
  ghost predicate CountTooSmall(s: State, size: nat) {
    && Shape(s, size, 1) && s.prod.Ready? && s.tail == 0 && s.elems == [] && s.slotsUsed == 0 && s.nextSlot == 0 && s.tailBlock == At(0)
    && s.next == [0] && s.flags == [Repeat(BLOCK_SIZE, true)] && s.cells == [Repeat(BLOCK_SIZE, Raw)]
  }

  lemma NeedFrom(tail: nat, count: nat, m: nat, n: nat)
    requires tail <= Base(m) < tail + BLOCK_SIZE && tail + count <= Base(n) < tail + count + BLOCK_SIZE
    ensures Circular.BasesIn(tail, count, BLOCK_SIZE) == n - m && RoundUp(tail) == Base(m)
  {
    BasesInIsNeed(tail, count);
    BlocksForUnique(tail, m);
    BlocksForUnique(tail + count, n);
    RoundUpIsBase(tail);
  }

  lemma FirstSteps(s: State, items: seq<Elem>) returns (s1: State, s2: State, s3: State, s4: State, s5: State)
    requires Init(s) && |items| == BLOCK_SIZE + 1 && |s.cons| > 0
    ensures Next(s, Begin(items), s1) && Next(s1, StopReuse, s2) && Next(s2, Grow, s3) && Next(s3, Insert, s4) && Next(s4, Fail, s5)
    ensures CountTooSmall(s5, 2 * s.indexSize)
  {
    NeedFrom(0, |items|, 0, 2);
    s1 := Apply(s, Begin(items));
    s2 := Apply(s1, StopReuse);
    s3 := Apply(s2, Grow);
    s4 := Apply(s3, Insert);
    s5 := Apply(s4, Fail);
  }

  lemma FirstCall(s: State, items: seq<Elem>) returns (s': State)
    requires Init(s) && |items| == BLOCK_SIZE + 1 && |s.cons| > 0
    ensures Path(s, [Begin(items), StopReuse, Grow, Insert, Fail], s') && CountTooSmall(s', 2 * s.indexSize)
  {
    var s1, s2, s3, s4, s5 := FirstSteps(s, items);
    Path2(s, Begin(items), s1, StopReuse, s2);
    Path3(s2, Grow, s3, Insert, s4, Fail, s5);
    PathJoins(s, [Begin(items), StopReuse], s2, [Grow, Insert, Fail], s5);
    s' := s5;
    assert [Begin(items), StopReuse] + [Grow, Insert, Fail] == [Begin(items), StopReuse, Grow, Insert, Fail];
  }

  // ---- Second call: one element, in the block that was left ----

  /** The call has reused block 0, and the count is still 0. */
  ghost predicate Reused(s: State, size: nat, e: Elem, stage: ProducerStage) {
    && Shape(s, size, 1) && s.prod.Running? && s.prod.stage == stage && s.prod.op.items == [e] && s.prod.op.need == 0
    && s.prod.op.firstAlloc == s.prod.op.startBlock == s.tailBlock == At(0)
    && s.tail == 0 && s.slotsUsed == 0 && s.nextSlot == 1
    && s.next == [0] && |s.flags[0]| == |s.cells[0]| == BLOCK_SIZE
    && s.headers[0].entries[0] == Entry(0, 0)
  }

  /** One element, in block 0. */
  ghost predicate OneElement(s: State, size: nat, e: Elem) {
    && Shape(s, size, 1) && s.prod.Ready? && s.tail == 1 && s.slotsUsed == 0 && s.nextSlot == 1 && s.tailBlock == At(0)
    && s.next == [0] && !AllSet(s.flags[0]) && |s.cells[0]| == BLOCK_SIZE && s.cells[0][0] == Full(e)
    && s.headers[0].entries[0] == Entry(0, 0) && s.headers[0].front == 0
  }

  lemma SecondAcquires(s: State, size: nat, e: Elem) returns (s1: State, s2: State, s3: State, s4: State)
    requires CountTooSmall(s, size)
    ensures Next(s, Begin([e]), s1) && Next(s1, Reuse, s2) && Next(s2, StopReuse, s3) && Next(s3, Produce, s4)
    ensures Reused(s4, size, e, s4.prod.stage) && s4.prod.stage.Reset? && s4.prod.stage.block == 0
  {
    NeedFrom(0, 1, 0, 1);
    s1 := Apply(s, Begin([e]));
    s2 := Apply(s1, Reuse);
    s3 := Apply(s2, StopReuse);
    s4 := Apply(s3, Produce);
  }

  lemma SecondPublishes(s: State, size: nat, e: Elem, j: nat) returns (s1: State, s2: State)
    requires Reused(s, size, e, Reset(0, j))
    ensures Next(s, Produce, s1) && Next(s1, Produce, s2)
    ensures Reused(s2, size, e, Construct(0, At(0))) && !AllSet(s2.flags[0]) && s2.headers[0].front == 0
  {
    s1 := Apply(s, Produce);
    assert !s1.flags[0][0];
    s2 := Apply(s1, Produce);
  }

  lemma SecondConstructs(s: State, size: nat, e: Elem) returns (s1: State, s2: State, s3: State)
    requires Reused(s, size, e, Construct(0, At(0))) && !AllSet(s.flags[0]) && s.headers[0].front == 0
    ensures Next(s, Produce, s1) && Next(s1, Produce, s2) && Next(s2, Produce, s3)
    ensures OneElement(s3, size, e)
  {
    NumUnique(0, 0);
    s1 := Apply(s, Produce);
    s2 := Apply(s1, Produce);
    s3 := Apply(s2, Produce);
  }

  /** The actions of an enqueue of one element into a reused block. */
  function EnqueueOne(e: Elem): seq<Action> {
    [Begin([e]), Reuse, StopReuse] + [Produce, Produce, Produce] + [Produce, Produce, Produce]
  }

  lemma SecondCall(s: State, size: nat, e: Elem) returns (s': State)
    requires CountTooSmall(s, size)
    ensures Path(s, EnqueueOne(e), s') && OneElement(s', size, e)
  {
    var s1, s2, s3, s4 := SecondAcquires(s, size, e);
    var s5, s6 := SecondPublishes(s4, size, e, s4.prod.stage.j);
    var s7, s8, s9 := SecondConstructs(s6, size, e);
    s' := s9;
    Path3(s, Begin([e]), s1, Reuse, s2, StopReuse, s3);
    Path3(s3, Produce, s4, Produce, s5, Produce, s6);
    Path3(s6, Produce, s7, Produce, s8, Produce, s9);
    PathsJoin(s, [Begin([e]), Reuse, StopReuse], s3, [Produce, Produce, Produce], s6, [Produce, Produce, Produce], s9);
  }

  // ---- Third call: as many blocks as the index has slots ----

  /** k blocks are inserted; with the last, the index wraps round to the slot of block 0. */
  ghost predicate Filling(s: State, size: nat, e: Elem, k: nat) {
    && Shape(s, size, k + 1) && k <= size
    && s.prod.Running? && s.prod.stage == FromPool && s.prod.op.need == size - k && s.prod.op.nextBase == Base(k + 1)
    && s.tail == 1 && s.slotsUsed == k && s.nextSlot == (if k + 1 < size then k + 1 else k + 1 - size)
    && s.tailBlock == At(k)
    && |s.cells[0]| == BLOCK_SIZE && s.cells[0][0] == Full(e)
    && (k > 0 ==> s.cells[k] == Repeat(BLOCK_SIZE, Raw))
    && s.headers[0].front == 0
    && s.headers[0].entries[0] == if k < size then Entry(0, 0) else Entry(Base(size), size)
  }

  lemma ThirdBegins(s: State, size: nat, e: Elem, items: seq<Elem>) returns (s1: State, s2: State)
    requires OneElement(s, size, e) && |items| == Base(size)
    ensures Next(s, Begin(items), s1) && Next(s1, StopReuse, s2) && Filling(s2, size, e, 0)
  {
    NeedFrom(1, |items|, 1, size + 1);
    s1 := Apply(s, Begin(items));
    s2 := Apply(s1, StopReuse);
  }

  lemma ThirdInserts(s: State, size: nat, e: Elem, k: nat) returns (s': State)
    requires Filling(s, size, e, k) && k < size
    ensures Next(s, Insert, s') && Filling(s', size, e, k + 1)
  {
    s' := Apply(s, Insert);
  }

  lemma {:induction false} InsertAll(s: State, size: nat, e: Elem, k: nat) returns (s': State)
    requires Filling(s, size, e, k)
    ensures Path(s, Repeat(size - k, Insert), s') && Filling(s', size, e, size)
    decreases size - k
  {
    if k == size {
      s' := s;
      assert Along([s], []);
    } else {
      var s1 := ThirdInserts(s, size, e, k);
      s' := InsertAll(s1, size, e, k + 1);
      PathStep(s, Insert, s1);
      PathJoins(s, [Insert], s1, Repeat(size - k - 1, Insert), s');
      assert [Insert] + Repeat(size - k - 1, Insert) == Repeat(size - k, Insert);
    }
  }

  // ---- The consumer of the one element ----

  /** The consumer has claimed index 0; slot 0, from which it starts, has the newest block. */
  ghost predicate Looking(s: State, size: nat, e: Elem, stage: Stage) {
    && |s.headers| == 1 && size > 1 && |s.headers[0].entries| == size == s.headers[0].size
    && s.headers[0].front == 0 && s.headers[0].entries[0] == Entry(Base(size), size)
    && |s.cells| == size + 1 && s.cells[size] == Repeat(BLOCK_SIZE, Raw) && |s.cells[0]| == BLOCK_SIZE && s.cells[0][0] == Full(e)
    && |s.cons| > 0 && s.cons[0] == Busy(0, 1, 0, 0, [], stage)
  }

  lemma Claims(s: State, size: nat, e: Elem) returns (s1: State, s2: State)
    requires Filling(s, size, e, size)
    ensures Next(s, Claim(0, 1), s1) && Next(s1, Consume(0), s2) && Looking(s2, size, e, LoadFront(0))
  {
    s1 := Apply(s, Claim(0, 1));
    s2 := Apply(s1, Consume(0));
  }

  lemma LooksUp(s: State, size: nat, e: Elem) returns (s1: State, s2: State, s3: State)
    requires Looking(s, size, e, LoadFront(0))
    ensures Next(s, Consume(0), s1) && Next(s1, Consume(0), s2) && Next(s2, Consume(0), s3)
    ensures Looking(s3, size, e, Take(0, 0, size))
  {
    NumUnique(0, 0);
    SlotWraps(0, size);
    LookupIsSlot(0, size, 0, size);
    s1 := Apply(s, Consume(0));
    s2 := Apply(s1, Consume(0));
    s3 := Apply(s2, Consume(0));
  }

  /** The consumer is about to take a raw cell of the newest block, and its element is in block 0. */
  ghost predicate Misled(s: State, size: nat, e: Elem) {
    && |s.cons| > 0 && s.cons[0] == Busy(0, 1, 0, 0, [], Take(0, 0, size))
    && |s.cells| == size + 1 && |s.cells[0]| == |s.cells[size]| == BLOCK_SIZE && s.cells[0][0] == Full(e) && s.cells[size][0] == Raw
    && Enabled(s, Consume(0)) && !InBounds(s, Consume(0))
  }

  lemma LookingIsMisled(s: State, size: nat, e: Elem)
    requires Looking(s, size, e, Take(0, 0, size))
    ensures Misled(s, size, e)
  {
    NumUnique(0, 0);
  }

  lemma LastCall(s: State, size: nat, e: Elem, items: seq<Elem>) returns (s': State)
    requires OneElement(s, size, e) && |items| == Base(size)
    ensures Path(s, [Begin(items), StopReuse] + Repeat(size, Insert) + [Claim(0, 1), Consume(0), Consume(0), Consume(0), Consume(0)], s')
    ensures Misled(s', size, e)
  {
    var s1, s2 := ThirdBegins(s, size, e, items);
    Path2(s, Begin(items), s1, StopReuse, s2);
    var s3 := InsertAll(s2, size, e, 0);
    var s4, s5 := Claims(s3, size, e);
    var s6, s7, s8 := LooksUp(s5, size, e);
    LookingIsMisled(s8, size, e);
    Path2(s3, Claim(0, 1), s4, Consume(0), s5);
    Path3(s5, Consume(0), s6, Consume(0), s7, Consume(0), s8);
    PathJoins(s3, [Claim(0, 1), Consume(0)], s5, [Consume(0), Consume(0), Consume(0)], s8);
    assert [Claim(0, 1), Consume(0)] + [Consume(0), Consume(0), Consume(0)] == [Claim(0, 1), Consume(0), Consume(0), Consume(0), Consume(0)];
    PathsJoin(s, [Begin(items), StopReuse], s2, Repeat(size, Insert), s3,
              [Claim(0, 1), Consume(0), Consume(0), Consume(0), Consume(0)], s8);
    s' := s8;
  }

  /**
    Whatever the size of the index, with one failed call and two that succeed in getting their
    blocks, a consumer reads an element that was never constructed.
   */
  lemma LiveEntryIsOverwritten(s: State, e: Elem, first: seq<Elem>, third: seq<Elem>) returns (run: seq<State>, acts: seq<Action>)
    requires Init(s) && |s.cons| > 0 && |first| == BLOCK_SIZE + 1 && |third| == Base(2 * s.indexSize)
    ensures IsRun(run, acts) && run[0] == s && Misled(run[|acts|], 2 * s.indexSize, e)
    ensures acts == [Begin(first), StopReuse, Grow, Insert, Fail] + EnqueueOne(e)
                    + ([Begin(third), StopReuse] + Repeat(2 * s.indexSize, Insert) + [Claim(0, 1), Consume(0), Consume(0), Consume(0), Consume(0)])
  {
    var size := 2 * s.indexSize;
    var s1 := FirstCall(s, first);
    var s2 := SecondCall(s1, size, e);
    var s3 := LastCall(s2, size, e, third);
    PathsJoin(s, [Begin(first), StopReuse, Grow, Insert, Fail], s1, EnqueueOne(e), s2,
              [Begin(third), StopReuse] + Repeat(size, Insert) + [Claim(0, 1), Consume(0), Consume(0), Consume(0), Consume(0)], s3);
    acts := [Begin(first), StopReuse, Grow, Insert, Fail] + EnqueueOne(e)
            + ([Begin(third), StopReuse] + Repeat(size, Insert) + [Claim(0, 1), Consume(0), Consume(0), Consume(0), Consume(0)]);
    run :| Along(run, acts) && run[0] == s && run[|acts|] == s3;
  }
}
