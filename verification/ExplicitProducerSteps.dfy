/** The producer's steps keep the invariant of an explicit queue. */
module ExplicitProducerSteps {
  import opened Basics
  import opened Blocks
  import opened Sequences
  import opened Deliveries
  import opened ExplicitQueue
  import opened ExplicitFrames

  // ---- The call ----

  lemma BeginInv(s: State, items: seq<Elem>)
    requires Inv(s) && s.prod.Ready?
    ensures Inv(Apply(s, Begin(items)))
  {
    var op := StartOf(s, items).op;
    BeginOperation(s, items, op);
    BeginRestorable(op, s.headers, s.order, Kept(s), s.indexSize);
  }

  lemma BeginOperation(s: State, items: seq<Elem>, op: Operation)
    requires RingOk(s.next, s.order, s.lo, s.tailBlock) && ProducerOk(s.prod, s.headers, s.order, s.lo, s.tail, s.elems)
    requires CurrentOk(s.headers, s.order, s.lo, s.tail, s.slotsUsed, s.indexSize, s.nextSlot)
    requires s.prod.Ready? && op == StartOf(s, items).op
    ensures OperationOk(op, s.order, s.lo, s.tail) && StageOf(op, StartOf(s, items).stage, s.order, s.tail, s.elems)
  {
    RoundUpIsBase(s.tail);
    BasesInIsNeed(s.tail, |items|);
    if op.need == 0 && 0 < |items| {
      NumUnique(s.tail, |s.order| - 1);
    }
  }

  lemma BeginRestorable(op: Operation, headers: seq<Header>, order: seq<Block>, low: nat, indexSize: nat)
    requires HeadersOk(headers, order, low) && op.reused == 0 && op.start == |order|
    requires headers == [] ==> op.front0 == 0
    requires headers != [] ==>
               indexSize > 0 && Last(headers).first <= op.start && Last(headers).frontNum == op.start - 1
               && op.front0 == SlotOf(op.start - Last(headers).first, indexSize)
    ensures Restorable(op, headers, indexSize)
  {
    forall j | 0 <= j < |headers| - 1 ensures headers[j].filled <= op.start {
      assert HeaderOk(headers[j], order, low);
    }
  }

  // ---- Blocks from ahead ----

  lemma ReuseInv(s: State)
    requires Inv(s) && Enabled(s, Reuse)
    ensures InBounds(s, Reuse) && Inv(Apply(s, Reuse))
  {
    ReuseIndex(s);
    ReuseUnclaimed(s);
    var s' := Apply(s, Reuse);
    ReuseProducer(s, s');
    ReuseRollback(s, s');
    ReuseConsumers(s, s');
    ReuseRest(s, s');
  }

  lemma ReuseRest(s: State, s': State)
    requires Inv(s)
    requires s' == s.(tailBlock := s'.tailBlock, headers := s'.headers, nextSlot := s'.nextSlot, prod := s'.prod,
                      order := s'.order, lo := s'.lo, low := s'.low)
    requires RingOk(s'.next, s'.order, s'.lo, s'.tailBlock) && HeadersOk(s'.headers, s'.order, Kept(s'))
    requires CurrentOk(s'.headers, s'.order, s'.lo, s'.tail, s'.slotsUsed, s'.indexSize, s'.nextSlot)
    requires UnclaimedOk(s'.order, s'.flags, s'.cells, s'.elems, Live(s'), s'.head, s'.tail, ReadyBlocks(s'.prod, s'.order))
    requires ProducerOk(s'.prod, s'.headers, s'.order, s'.lo, s'.tail, s'.elems)
    requires RollbackOk(s'.prod, s'.headers, s'.order, s'.lo, s'.indexSize)
    requires ConsumersOk(s'.order, s'.flags, s'.cells, s'.elems, s'.owner, Live(s'), s'.headers, s'.cons)
    ensures Inv(s')
  {
  }

  lemma ReuseIndex(s: State)
    requires Inv(s) && Enabled(s, Reuse)
    ensures s.order != [] && Ahead(s) == s.order[s.lo] && InBounds(s, Reuse)
    ensures var s' := Apply(s, Reuse);
            && RingOk(s'.next, s'.order, s'.lo, s'.tailBlock)
            && HeadersOk(s'.headers, s'.order, Kept(s'))
            && HeadersExtend(s.headers, s'.headers)
            && CurrentOk(s'.headers, s'.order, s'.lo, s'.tail, s'.slotsUsed, s'.indexSize, s'.nextSlot)
  {
    RingReuse(s.next, s.order, s.lo, s.tailBlock);
    var headers' := ReuseHeaders(s, s.order[s.lo]);
  }

  lemma ReuseHeaders(s: State, b: Block) returns (headers': seq<Header>)
    requires Inv(s) && s.prod.Running? && s.order != []
    ensures CanWrite(s) && s.indexSize > 0
    ensures headers' == s.headers[|s.headers| - 1 := Written(Last(s.headers), s.nextSlot, Base(|s.order|), b, |s.order|)]
    ensures HeadersOk(headers', s.order + [b], Max(Floor(s.prod, s.lo), Overwritten(s.low, |s.order|, s.indexSize)))
    ensures HeadersExtend(s.headers, headers')
    ensures CurrentOk(headers', s.order + [b], s.lo + 1, s.tail, s.slotsUsed, s.indexSize, NextSlot(s.nextSlot, s.indexSize))
  {
    Windows(s);
    var low' := Max(Floor(s.prod, s.lo), Overwritten(s.low, |s.order|, s.indexSize));
    IndexAcquire(s.headers, s.order, Kept(s), low', s.nextSlot, b);
    var h' := Written(Last(s.headers), s.nextSlot, Base(|s.order|), b, |s.order|);
    CurrentAcquire(s.headers, h', s.order, s.lo, s.lo + 1, s.tail, s.slotsUsed, s.slotsUsed, s.indexSize, s.nextSlot, b);
    headers' := s.headers[|s.headers| - 1 := h'];
  }

  lemma ReuseProducer(s: State, s': State)
    requires Inv(s) && Enabled(s, Reuse) && InBounds(s, Reuse) && s' == Apply(s, Reuse) && s.lo < s.prod.op.start
    ensures ProducerOk(s'.prod, s'.headers, s'.order, s'.lo, s'.tail, s'.elems)
  {
    assert s'.prod.stage == FromAhead && OperationOk(s.prod.op, s.order, s.lo, s.tail);
    assert OperationOk(s'.prod.op, s'.order, s'.lo, s'.tail);
  }

  lemma ReuseRollback(s: State, s': State)
    requires Inv(s) && Enabled(s, Reuse) && InBounds(s, Reuse) && s' == Apply(s, Reuse) && s.lo < s.prod.op.start
    requires s.order != [] && Ahead(s) == s.order[s.lo]
    ensures RollbackOk(s'.prod, s'.headers, s'.order, s'.lo, s'.indexSize)
  {
    var op, op' := s.prod.op, s'.prod.op;
    assert OperationOk(op, s.order, s.lo, s.tail);
    forall n | op.start <= n < op.start + op'.reused ensures Again(s'.order, n, op.used0) {
      assert n < |s.order| ==> Again(s.order, n, op.used0);
    }
  }

  /** The block about to be reused is below everything unclaimed. */
  lemma ReuseUnclaimed(s: State)
    requires Inv(s) && Enabled(s, Reuse) && s.order != [] && Ahead(s) == s.order[s.lo]
    ensures s.lo < s.prod.op.start && Base(s.lo + 1) <= s.head
    ensures UnclaimedOk(s.order + [s.order[s.lo]], s.flags, s.cells, s.elems,
                        Max(s.lo + 1, Overwritten(s.low, |s.order|, s.indexSize)), s.head, s.tail, s.prod.op.start)
  {
    var order' := s.order + [s.order[s.lo]];
    Windows(s);
    BaseMonotone(s.lo + 1, s.prod.op.start);
    if s.head < Base(s.lo + 1) {
      EmptyBlockIsDone(s.order, s.lo, s.flags, s.head, Base(s.prod.op.start));
    }
    CellsGrow(s.order, order', s.cells, s.cells, s.elems, s.head, |s.elems|);
    FlagsGrow(s.order, order', s.flags, s.flags, s.head, Base(s.prod.op.start));
  }

  lemma ReuseConsumers(s: State, s': State)
    requires Inv(s) && Enabled(s, Reuse) && s.order != [] && Ahead(s) == s.order[s.lo]
    requires s'.cons == s.cons && s'.order == s.order + [s.order[s.lo]] && s'.lo == s.lo + 1
    requires s'.low == Overwritten(s.low, |s.order|, s.indexSize)
    requires s'.flags == s.flags && s'.cells == s.cells && s'.elems == s.elems && s'.owner == s.owner
    requires HeadersExtend(s.headers, s'.headers)
    ensures ConsumersOk(s'.order, s'.flags, s'.cells, s'.elems, s'.owner, Live(s'), s'.headers, s'.cons)
  {
    Windows(s);
    ConsumersReuse(s.order, s'.order, s.flags, s.cells, s.elems, s.owner, s.lo, Live(s), Live(s'), s.headers, s'.headers, s.cons);
  }

  lemma ConsumersReuse(order: seq<Block>, order': seq<Block>, flags: seq<seq<bool>>, cells: seq<seq<Cell>>, elems: seq<Elem>,
                       owner: seq<Tid>, lo: nat, low: nat, low': nat, headers: seq<Header>, headers': seq<Header>, cons: seq<Consumer>)
    requires ConsumersOk(order, flags, cells, elems, owner, low, headers, cons)
    requires lo < |order| && order[lo] < |flags| && AllSet(flags[order[lo]])
    requires Base(lo) <= Base(low) && low' == Max(lo + 1, low) && order <= order' && HeadersExtend(headers, headers')
    ensures ConsumersOk(order', flags, cells, elems, owner, low', headers', cons)
  {
    forall t | 0 <= t < |cons| ensures ConsumerOk(order', flags, cells, elems, owner, low', headers', t, cons[t]) {
      var c := cons[t];
      assert ConsumerOk(order, flags, cells, elems, owner, low, headers, t, c);
      if c.Busy? {
        EmptyBlockIsDone(order, lo, flags, c.from, c.end);
      }
      JobGrow(order, order', flags, flags, cells, cells, elems, owner, low, low', t, c);
      StageFrame(headers, headers', order, order', c);
    }
  }

  lemma StopReuseInv(s: State)
    requires Inv(s) && Enabled(s, StopReuse)
    ensures Inv(Apply(s, StopReuse))
  {
  }

  // ---- Blocks from the pool ----

  lemma GrowInv(s: State)
    requires Inv(s) && Enabled(s, Grow)
    ensures InBounds(s, Grow) && Inv(Apply(s, Grow))
  {
    GrowIndex(s, s.prod.op);
    GrowRollback(s, GrowStep(s), s.prod.op);
    GrowRest(s, GrowStep(s), s.prod.op);
  }

  lemma GrowRest(s: State, s': State, op: Operation)
    requires Inv(s) && s.prod == Running(op, FromPool)
    requires s' == s.(headers := s'.headers, indexSize := s'.indexSize, nextSlot := s'.nextSlot,
                      prod := Running(op.(front0 := op.used0, grown := true), FromPool), low := Max(s.low, s.lo))
    requires HeadersOk(s'.headers, s.order, Max(Kept(s), s.lo)) && HeadersExtend(s.headers, s'.headers)
    requires CurrentOk(s'.headers, s.order, s.lo, s.tail, s.slotsUsed, s'.indexSize, s'.nextSlot)
    requires RollbackOk(s'.prod, s'.headers, s.order, s.lo, s'.indexSize)
    ensures Inv(s')
  {
    HeadersConsumers(s.order, s.flags, s.cells, s.elems, s.owner, Live(s), s.headers, s'.headers, s.cons);
    assert OperationOk(s'.prod.op, s.order, s.lo, s.tail);
  }

  lemma GrowIndex(s: State, op: Operation)
    requires Inv(s) && s.prod == Running(op, FromPool) && IndexFull(s)
    ensures InBounds(s, Grow)
    ensures HeadersOk(s.headers + [NewHeader(s, op.used0)], s.order, Max(Kept(s), s.lo))
    ensures HeadersExtend(s.headers, s.headers + [NewHeader(s, op.used0)])
    ensures CurrentOk(s.headers + [NewHeader(s, op.used0)], s.order, s.lo, s.tail, s.slotsUsed, 2 * s.indexSize, s.slotsUsed)
  {
    if s.headers != [] {
      assert HeaderOk(Last(s.headers), s.order, Kept(s));
    }
    assert s.lo + op.used0 == op.start + (s.lo - op.lo0);
    BaseMonotone(op.start, s.lo + op.used0);
    IndexGrow(s.headers, s.order, s.lo, Kept(s), s.tail, s.slotsUsed, s.indexSize, s.nextSlot, op.used0, NewHeader(s, op.used0));
  }

  lemma GrowRollback(s: State, s': State, op: Operation)
    requires Inv(s) && s.prod == Running(op, FromPool) && IndexFull(s) && op.need > 0 && InBounds(s, Grow) && s' == Apply(s, Grow)
    ensures RollbackOk(s'.prod, s'.headers, s'.order, s'.lo, s'.indexSize)
  {
    var op' := s'.prod.op;
    if SafeFail(op') {
      SmallSlot(op.used0, 2 * s.indexSize);
      forall j | 0 <= j < |s'.headers| - 1 ensures s'.headers[j].filled <= op.start {
        assert HeaderOk(s.headers[j], s.order, Kept(s));
      }
    }
  }

  lemma InsertInv(s: State)
    requires Inv(s) && Enabled(s, Insert)
    ensures InBounds(s, Insert) && Inv(Apply(s, Insert))
  {
    InsertIndex(s);
    var s' := Apply(s, Insert);
    InsertProducer(s, s');
    InsertRollback(s, s');
    InsertUnclaimed(s, s');
    InsertConsumers(s, s');
  }

  lemma InsertUnclaimed(s: State, s': State)
    requires Inv(s) && Enabled(s, Insert) && InBounds(s, Insert) && s' == Apply(s, Insert)
    ensures UnclaimedOk(s'.order, s'.flags, s'.cells, s'.elems, Live(s'), s'.head, s'.tail, ReadyBlocks(s'.prod, s'.order))
    ensures MemoryOk(s'.next, s'.flags, s'.cells) && Live(s') == Live(s)
  {
    Windows(s);
    CellsGrow(s.order, s'.order, s.cells, s'.cells, s.elems, s.head, |s.elems|);
    FlagsGrow(s.order, s'.order, s.flags, s'.flags, s.head, Base(s.prod.op.start));
  }

  lemma InsertRollback(s: State, s': State)
    requires Inv(s) && Enabled(s, Insert) && InBounds(s, Insert) && s' == Apply(s, Insert)
    ensures RollbackOk(s'.prod, s'.headers, s'.order, s'.lo, s'.indexSize)
  {
    var op := s.prod.op;
    forall n | op.start <= n < op.start + op.reused ensures Again(s'.order, n, op.used0) {
      assert Again(s.order, n, op.used0);
    }
  }

  lemma InsertIndex(s: State)
    requires Inv(s) && Enabled(s, Insert)
    ensures InBounds(s, Insert)
    ensures var s' := Apply(s, Insert);
            && RingOk(s'.next, s'.order, s'.lo, s'.tailBlock)
            && HeadersOk(s'.headers, s'.order, Kept(s'))
            && HeadersExtend(s.headers, s'.headers)
            && CurrentOk(s'.headers, s'.order, s'.lo, s'.tail, s'.slotsUsed, s'.indexSize, s'.nextSlot)
  {
    InsertBounds(s);
    var s' := Apply(s, Insert);
    RingInsert(s.next, s.order, s.lo, s.tailBlock);
    InsertHeaders(s, s'.headers);
  }

  lemma InsertBounds(s: State)
    requires Inv(s) && Enabled(s, Insert)
    ensures InBounds(s, Insert)
  {
    if s.order != [] {
      assert RingAt(s.next, s.order, s.lo, |s.order| - 1);
    }
    assert HeaderOk(s.headers[|s.headers| - 1], s.order, Kept(s));
  }

  lemma InsertHeaders(s: State, headers': seq<Header>)
    requires Inv(s) && Enabled(s, Insert) && CanWrite(s)
    requires headers' == s.headers[|s.headers| - 1 := Written(Last(s.headers), s.nextSlot, s.prod.op.nextBase, |s.next|, |s.order|)]
    ensures HeadersOk(headers', s.order + [|s.next|], Max(Floor(s.prod, s.lo), Overwritten(s.low, |s.order|, s.indexSize)))
    ensures HeadersExtend(s.headers, headers')
    ensures CurrentOk(headers', s.order + [|s.next|], s.lo, s.tail, s.slotsUsed + 1, s.indexSize, NextSlot(s.nextSlot, s.indexSize))
  {
    Windows(s);
    var b := |s.next|;
    var low' := Max(Floor(s.prod, s.lo), Overwritten(s.low, |s.order|, s.indexSize));
    IndexAcquire(s.headers, s.order, Kept(s), low', s.nextSlot, b);
    var h' := Written(Last(s.headers), s.nextSlot, Base(|s.order|), b, |s.order|);
    CurrentAcquire(s.headers, h', s.order, s.lo, s.lo, s.tail, s.slotsUsed, s.slotsUsed + 1, s.indexSize, s.nextSlot, b);
  }

  lemma InsertProducer(s: State, s': State)
    requires Inv(s) && Enabled(s, Insert) && InBounds(s, Insert) && s' == Apply(s, Insert)
    ensures ProducerOk(s'.prod, s'.headers, s'.order, s'.lo, s'.tail, s'.elems)
    ensures Base(|s.order|) <= Base(|s'.order|)
  {
    InsertOperation(s.prod.op, s'.prod.op, s.order, s.lo, s.tail, |s.next|);
  }

  lemma InsertOperation(op: Operation, op': Operation, order: seq<Block>, lo: nat, tail: nat, b: Block)
    requires OperationOk(op, order, lo, tail) && op.need > 0
    requires op' == op.(inserted := op.inserted + 1, need := op.need - 1, nextBase := op.nextBase + BLOCK_SIZE,
                        firstAlloc := if op.firstAlloc.Null? then At(b) else op.firstAlloc)
    ensures OperationOk(op', order + [b], lo, tail)
  {
  }

  lemma InsertConsumers(s: State, s': State)
    requires Inv(s) && s'.cons == s.cons && s.order <= s'.order && Live(s') == Live(s)
    requires s.flags <= s'.flags && s.cells <= s'.cells && s'.elems == s.elems && s'.owner == s.owner
    requires HeadersExtend(s.headers, s'.headers)
    ensures ConsumersOk(s'.order, s'.flags, s'.cells, s'.elems, s'.owner, Live(s'), s'.headers, s'.cons)
  {
    forall t | 0 <= t < |s'.cons|
      ensures ConsumerOk(s'.order, s'.flags, s'.cells, s'.elems, s'.owner, Live(s'), s'.headers, t, s'.cons[t])
    {
      var c := s.cons[t];
      assert ConsumerOk(s.order, s.flags, s.cells, s.elems, s.owner, Live(s), s.headers, t, c);
      JobGrow(s.order, s'.order, s.flags, s'.flags, s.cells, s'.cells, s.elems, s.owner, Live(s), Live(s'), t, c);
      StageFrame(s.headers, s'.headers, s.order, s'.order, c);
    }
  }

  // ---- A failing exit ----

  /** A failing exit keeps the invariant exactly when it has no inserted block or misplaced slot to undo. */
  lemma FailMoves(s: State, op: Operation)
    requires Inv(s) && s.prod == Running(op, FromPool) && op.need > 0
    ensures Inv(FailStep(s, op)) <==> SafeFail(op)
  {
    if SafeFail(op) {
      FailInv(s, op);
    } else if op.inserted > 0 {
      InsertedStay(s, op);
    } else {
      SlotMisplaced(s, op);
    }
  }

  lemma FailInv(s: State, op: Operation)
    requires Inv(s) && s.prod == Running(op, FromPool) && op.need > 0 && SafeFail(op)
    ensures Inv(FailStep(s, op))
  {
    var s' := FailStep(s, op);
    assert OperationOk(op, s.order, s.lo, s.tail);
    FailRing(s.next, s.order, s.lo, s.tailBlock, op);
    FailHeaders(s.headers, s'.headers, s.order, Kept(s), op, s.indexSize);
    FailCurrent(s, s', op);
    FailUnclaimed(s, s', op);
    FailConsumers(s, s', op);
  }

  /** An inserted block stays between the tail block and the oldest one. */
  lemma InsertedStay(s: State, op: Operation)
    requires Inv(s) && s.prod == Running(op, FromPool) && op.inserted > 0
    ensures !RingOk(s.next, FailStep(s, op).order, op.lo0, FailStep(s, op).tailBlock)
  {
    assert OperationOk(op, s.order, s.lo, s.tail);
    if op.start > 0 {
      var order' := s.order[..op.start];
      var p := if op.reused == 0 then op.start - 1 else op.lo0 + op.reused - 1;
      var q := if p + 1 < op.start then p + 1 else op.lo0;
      assert op.reused > 0 ==> Again(s.order, p + op.used0, op.used0);
      assert RingAt(s.next, s.order, s.lo, op.start + op.reused - 1);
      assert q < s.lo ==> Again(s.order, q + op.used0, op.used0);
      assert Apart(s.order, if q < s.lo then q + op.used0 else q, op.start + op.reused);
      assert !RingAt(s.next, order', op.lo0, p);
    }
  }

  /** The front that is restored is not where the replaced index has the last published block. */
  lemma SlotMisplaced(s: State, op: Operation)
    requires Inv(s) && s.prod == Running(op, FromPool) && op.grown && op.inserted == 0 && op.reused > 0
    ensures var s' := FailStep(s, op);
            !CurrentOk(s'.headers, s'.order, s'.lo, s'.tail, s'.slotsUsed, s'.indexSize, s'.nextSlot)
  {
    assert OperationOk(op, s.order, s.lo, s.tail);
    SmallSlot(op.used0 - op.reused, s.indexSize);
  }

  /** The reused blocks are again the oldest of the ring. */
  lemma FailRing(next: seq<Block>, order: seq<Block>, lo: nat, tailBlock: Ptr, op: Operation)
    requires RingOk(next, order, lo, tailBlock) && op.lo0 <= op.start && op.used0 == op.start - op.lo0
    requires lo == op.lo0 + op.reused <= op.start && |order| == op.start + op.reused
    requires forall n :: op.start <= n < op.start + op.reused ==> Again(order, n, op.used0)
    ensures op.start > 0 ==> op.lo0 < op.start
    ensures RingOk(next, order[..op.start], op.lo0, if op.start == 0 then Null else At(order[op.start - 1]))
  {
    var order' := order[..op.start];
    forall n | op.lo0 <= n < op.start ensures RingAt(next, order', op.lo0, n) {
      FailRingAt(next, order, lo, op, n);
    }
    forall m, n | op.lo0 <= m < n < op.start ensures Apart(order', m, n) {
      FailApart(next, order, lo, op, m, n);
    }
  }

  lemma FailRingAt(next: seq<Block>, order: seq<Block>, lo: nat, op: Operation, n: nat)
    requires lo == op.lo0 + op.reused <= op.start && |order| == op.start + op.reused && op.used0 == op.start - op.lo0
    requires forall m :: lo <= m < |order| ==> RingAt(next, order, lo, m)
    requires forall m :: op.start <= m < op.start + op.reused ==> Again(order, m, op.used0)
    requires op.lo0 <= n < op.start
    ensures RingAt(next, order[..op.start], op.lo0, n)
  {
    if n < lo {
      var m := n + op.used0;
      assert Again(order, m, op.used0) && RingAt(next, order, lo, m);
      if m + 1 < |order| {
        assert Again(order, m + 1, op.used0);
      }
    } else {
      assert RingAt(next, order, lo, n);
    }
    if op.start < |order| {
      assert Again(order, op.start, op.used0);
    }
  }

  lemma FailApart(next: seq<Block>, order: seq<Block>, lo: nat, op: Operation, m: nat, n: nat)
    requires lo == op.lo0 + op.reused <= op.start && |order| == op.start + op.reused && op.used0 == op.start - op.lo0
    requires Distinct(order, lo) && op.lo0 <= m < n < op.start
    requires forall m :: op.start <= m < op.start + op.reused ==> Again(order, m, op.used0)
    ensures Apart(order, m, n)
  {
    var m' := if m < lo then m + op.used0 else m;
    var n' := if n < lo then n + op.used0 else n;
    assert m < lo ==> Again(order, m', op.used0);
    assert n < lo ==> Again(order, n', op.used0);
    assert Apart(order, if m' < n' then m' else n', if m' < n' then n' else m');
  }

  lemma FailHeaders(headers: seq<Header>, headers': seq<Header>, order: seq<Block>, low: nat, op: Operation, indexSize: nat)
    requires HeadersOk(headers, order, low) && Restorable(op, headers, indexSize) && op.start <= |order|
    requires headers' == CutBack(headers, op.start)
    ensures HeadersOk(headers', order[..op.start], low)
  {
    forall j | 0 <= j < |headers'| ensures HeaderOk(headers'[j], order[..op.start], low) {
      assert HeaderOk(headers[j], order, low);
      assert j < |headers| - 1 ==> headers[j].filled <= op.start;
      FailHeader(headers[j], headers'[j], order, low, op.start);
    }
  }

  lemma FailHeader(h: Header, h': Header, order: seq<Block>, low: nat, start: nat)
    requires HeaderOk(h, order, low) && start <= |order| && h.frontNum < h'.filled <= start
    requires h' == h.(filled := h'.filled) && h'.filled <= h.filled
    ensures HeaderOk(h', order[..start], low)
  {
    forall n | low <= n < h'.filled ensures EntryAt(h', order[..start], n) {
      assert EntryAt(h, order, n);
    }
  }

  lemma FailCurrent(s: State, s': State, op: Operation)
    requires Inv(s) && s.prod == Running(op, FromPool) && op.need > 0 && SafeFail(op) && s' == FailStep(s, op)
    ensures CurrentOk(s'.headers, s'.order, s'.lo, s'.tail, s'.slotsUsed, s'.indexSize, s'.nextSlot)
    ensures ProducerOk(s'.prod, s'.headers, s'.order, s'.lo, s'.tail, s'.elems)
  {
    assert OperationOk(op, s.order, s.lo, s.tail) && Restorable(op, s.headers, s.indexSize);
  }

  lemma FailUnclaimed(s: State, s': State, op: Operation)
    requires Inv(s) && s.prod == Running(op, FromPool) && op.need > 0 && SafeFail(op) && s' == FailStep(s, op)
    ensures UnclaimedOk(s'.order, s'.flags, s'.cells, s'.elems, Live(s'), s'.head, s'.tail, ReadyBlocks(s'.prod, s'.order))
  {
    assert OperationOk(op, s.order, s.lo, s.tail);
    Windows(s);
    BaseMonotone(Live(s'), Live(s));
    CellsCut(s.order, s.cells, s.elems, s.head, |s.elems|, op.start);
    FlagsCut(s.order, s.flags, s.head, Base(op.start), op.start);
  }

  lemma CellsCut(order: seq<Block>, cells: seq<seq<Cell>>, elems: seq<Elem>, from: nat, to: nat, start: nat)
    requires CellsOn(order, cells, elems, from, to) && start <= |order| && to <= Base(start)
    ensures CellsOn(order[..start], cells, elems, from, to)
  {
    forall i | from <= i < to ensures CellOk(order[..start], cells, elems, i) {
      assert CellOk(order, cells, elems, i);
      NumAtLeast(i, start);
    }
  }

  lemma FlagsCut(order: seq<Block>, flags: seq<seq<bool>>, from: nat, to: nat, start: nat)
    requires FlagsOn(order, flags, from, to) && start <= |order| && to <= Base(start)
    ensures FlagsOn(order[..start], flags, from, to)
  {
    forall i | from <= i < to ensures FlagClear(order[..start], flags, i) {
      assert FlagClear(order, flags, i);
      NumAtLeast(i, start);
    }
  }

  lemma FailConsumers(s: State, s': State, op: Operation)
    requires Inv(s) && s.prod == Running(op, FromPool) && op.need > 0 && SafeFail(op) && s' == FailStep(s, op)
    ensures ConsumersOk(s'.order, s'.flags, s'.cells, s'.elems, s'.owner, Live(s'), s'.headers, s'.cons)
  {
    assert OperationOk(op, s.order, s.lo, s.tail) && Restorable(op, s.headers, s.indexSize);
    Windows(s);
    BaseMonotone(Live(s'), Live(s));
    assert |s.owner| <= Base(op.start);
    CutConsumers(s.order, s.flags, s.cells, s.elems, s.owner, Live(s), Live(s'), s.headers, s'.headers, s.cons, op.start);
  }

  lemma CutConsumers(order: seq<Block>, flags: seq<seq<bool>>, cells: seq<seq<Cell>>, elems: seq<Elem>, owner: seq<Tid>,
                     low: nat, low': nat, headers: seq<Header>, headers': seq<Header>, cons: seq<Consumer>, start: nat)
    requires ConsumersOk(order, flags, cells, elems, owner, low, headers, cons)
    requires headers' == CutBack(headers, start)
    requires headers != [] ==> Last(headers).frontNum < start
    requires start <= |order| && Base(low') <= Base(low) && |owner| <= Base(start)
    ensures ConsumersOk(order[..start], flags, cells, elems, owner, low', headers', cons)
  {
    forall t | 0 <= t < |cons| ensures ConsumerOk(order[..start], flags, cells, elems, owner, low', headers', t, cons[t]) {
      assert ConsumerOk(order, flags, cells, elems, owner, low, headers, t, cons[t]);
      CutConsumer(order, flags, cells, elems, owner, low, low', headers, headers', t, cons[t], start);
    }
  }

  lemma CutConsumer(order: seq<Block>, flags: seq<seq<bool>>, cells: seq<seq<Cell>>, elems: seq<Elem>, owner: seq<Tid>,
                    low: nat, low': nat, headers: seq<Header>, headers': seq<Header>, t: Tid, c: Consumer, start: nat)
    requires ConsumerOk(order, flags, cells, elems, owner, low, headers, t, c)
    requires headers' == CutBack(headers, start) && (headers != [] ==> Last(headers).frontNum < start)
    requires start <= |order| && Base(low') <= Base(low) && |owner| <= Base(start)
    ensures ConsumerOk(order[..start], flags, cells, elems, owner, low', headers', t, c)
  {
    CutJob(order, flags, cells, elems, owner, low, low', t, c, start);
    if c.Busy? {
      FailStage(headers, headers', order, start, c);
    }
  }

  lemma CutJob(order: seq<Block>, flags: seq<seq<bool>>, cells: seq<seq<Cell>>, elems: seq<Elem>, owner: seq<Tid>,
               low: nat, low': nat, t: Tid, c: Consumer, start: nat)
    requires JobOk(order, flags, cells, elems, owner, low, t, c)
    requires start <= |order| && Base(low') <= Base(low) && |owner| <= Base(start)
    ensures JobOk(order[..start], flags, cells, elems, owner, low', t, c)
    ensures c.Busy? ==> c.from < c.end && Num(c.from) <= Num(c.end - 1) < start
  {
    if c.Busy? {
      CellsCut(order, cells, elems, c.index, c.end, start);
      FlagsCut(order, flags, c.from, c.end, start);
      NumAtLeast(c.end - 1, start);
      NumMonotone(c.from, c.end - 1);
    }
  }

  /** What a consumer knows about a header is about published numbers. */
  lemma FailStage(headers: seq<Header>, headers': seq<Header>, order: seq<Block>, start: nat, c: Consumer)
    requires headers' == CutBack(headers, start)
    requires headers != [] ==> Last(headers).frontNum < start
    requires c.Busy? && c.from < c.end && StageOk(headers, order, c) && Num(c.from) <= Num(c.end - 1) < start <= |order|
    ensures StageOk(headers', order[..start], c)
  {
  }

  lemma ToResetMoves(s: State, op: Operation)
    requires Inv(s) && s.prod == Running(op, FromPool) && op.need == 0
    ensures op.firstAlloc.At? && Inv(s.(prod := Running(op, Reset(op.firstAlloc.block, op.start))))
  {
    HeadersLater(s.headers, s.order, Kept(s), Live(s));
  }

  lemma ResetMoves(s: State, op: Operation, b: Block, j: nat)
    requires Inv(s) && s.prod == Running(op, Reset(b, j))
    ensures b < |s.flags| && b < |s.next| && Inv(ResetStep(s, op, b, j))
  {
    Windows(s);
    ResetNext(s.next, s.order, s.lo, s.tailBlock, j);
    ResetFlags(s.order, s.lo, s.flags, j, s.head);
    ResetConsumers(s.order, s.flags, s.cells, s.elems, s.owner, Live(s), s.headers, s.cons, j);
    ResetRest(s, op, j, ResetStep(s, op, b, j));
  }

  lemma ResetNext(next: seq<Block>, order: seq<Block>, lo: nat, tailBlock: Ptr, j: nat)
    requires RingOk(next, order, lo, tailBlock) && lo <= j < |order|
    ensures order[j] < |next| && (At(order[j]) == tailBlock <==> j + 1 == |order|)
    ensures j + 1 < |order| ==> next[order[j]] == order[j + 1]
  {
    assert RingAt(next, order, lo, j);
    if j + 1 < |order| {
      assert Apart(order, j, |order| - 1);
    }
  }

  lemma ResetRest(s: State, op: Operation, j: nat, s': State)
    requires Inv(s) && s.prod.Running? && s.prod.op == op && s.prod.stage.Reset? && s.prod.stage.j == j
    requires s' == s.(flags := s'.flags, prod := Running(op, if j + 1 < |s.order| then Reset(s.order[j + 1], j + 1) else Publish))
    requires |s'.flags| == |s.flags| && forall b :: 0 <= b < |s.flags| ==> |s'.flags[b]| == BLOCK_SIZE
    requires FlagsOn(s.order, s'.flags, s.head, Base(j + 1))
    requires ConsumersOk(s.order, s'.flags, s.cells, s.elems, s.owner, Live(s), s.headers, s.cons)
    ensures Inv(s')
  {
  }

  lemma ResetConsumers(order: seq<Block>, flags: seq<seq<bool>>, cells: seq<seq<Cell>>, elems: seq<Elem>,
                       owner: seq<Tid>, lo: nat, headers: seq<Header>, cons: seq<Consumer>, j: nat)
    requires Distinct(order, lo) && lo <= j < |order| && order[j] < |flags|
    requires ConsumersOk(order, flags, cells, elems, owner, lo, headers, cons)
    ensures ConsumersOk(order, flags[order[j] := Repeat(BLOCK_SIZE, false)], cells, elems, owner, lo, headers, cons)
  {
    var flags' := flags[order[j] := Repeat(BLOCK_SIZE, false)];
    forall t | 0 <= t < |cons| ensures ConsumerOk(order, flags', cells, elems, owner, lo, headers, t, cons[t]) {
      assert ConsumerOk(order, flags, cells, elems, owner, lo, headers, t, cons[t]);
      JobReset(order, flags, cells, elems, owner, lo, t, cons[t], j);
    }
  }

  /** Resetting block number j makes its flags clear, and keeps those of the blocks before it. */
  lemma ResetFlags(order: seq<Block>, lo: nat, flags: seq<seq<bool>>, j: nat, head: nat)
    requires Distinct(order, lo) && lo <= j < |order| && order[j] < |flags| && Base(lo) <= head
    requires FlagsOn(order, flags, head, Base(j))
    ensures FlagsOn(order, flags[order[j] := Repeat(BLOCK_SIZE, false)], head, Base(j + 1))
  {
    var flags' := flags[order[j] := Repeat(BLOCK_SIZE, false)];
    FlagsFrame(order, lo, flags, j, Repeat(BLOCK_SIZE, false), head, Base(j));
    forall i | head <= i < Base(j + 1) ensures FlagClear(order, flags', i) {
      if Base(j) <= i {
        NumUnique(i, j);
      }
    }
  }

  lemma PublishMoves(s: State, op: Operation)
    requires Inv(s) && s.prod == Running(op, Publish)
    ensures s.headers != [] && s.nextSlot < s.indexSize && Inv(PublishStep(s, op))
  {
    var s' := PublishIndex(s, op);
    FirstBlock(op, s.order, s.lo, s.tail);
    HeadersConsumers(s.order, s.flags, s.cells, s.elems, s.owner, Live(s), s.headers, s'.headers, s.cons);
  }

  lemma PublishIndex(s: State, op: Operation) returns (s': State)
    requires Inv(s) && s.prod == Running(op, Publish)
    ensures s.headers != [] && s.nextSlot < s.indexSize && s' == PublishStep(s, op)
    ensures HeadersOk(s'.headers, s.order, Kept(s)) && HeadersExtend(s.headers, s'.headers)
    ensures CurrentOk(s'.headers, s.order, s.lo, s.tail, s.slotsUsed, s.indexSize, s.nextSlot)
    ensures Last(s'.headers).frontNum == |s.order| - 1
  {
    s' := PublishStep(s, op);
    Windows(s);
    IndexPublish(s.headers, Last(s'.headers), s.order, Kept(s), s.nextSlot, s.indexSize);
    CurrentPublish(s.headers, Last(s'.headers), s.order, s.lo, s.tail, s.slotsUsed, s.indexSize, s.nextSlot);
  }

  lemma HeadersConsumers(order: seq<Block>, flags: seq<seq<bool>>, cells: seq<seq<Cell>>, elems: seq<Elem>,
                         owner: seq<Tid>, lo: nat, headers: seq<Header>, headers': seq<Header>, cons: seq<Consumer>)
    requires ConsumersOk(order, flags, cells, elems, owner, lo, headers, cons) && HeadersExtend(headers, headers')
    ensures ConsumersOk(order, flags, cells, elems, owner, lo, headers', cons)
  {
    forall t | 0 <= t < |cons| ensures ConsumerOk(order, flags, cells, elems, owner, lo, headers', t, cons[t]) {
      assert ConsumerOk(order, flags, cells, elems, owner, lo, headers, t, cons[t]);
      StageFrame(headers, headers', order, order, cons[t]);
    }
  }

  /** The block in which construction starts: the tail block, or the first new one on a boundary. */
  lemma FirstBlock(op: Operation, order: seq<Block>, lo: nat, tail: nat)
    requires OperationOk(op, order, lo, tail) && op.start < |order|
    ensures Num(tail) < |order|
    ensures (if Off(tail) == 0 then op.firstAlloc else op.startBlock) == At(order[Num(tail)])
  {
    if Off(tail) == 0 {
      BlocksForUnique(tail, Num(tail));
    } else {
      BlocksForUnique(tail, Num(tail) + 1);
    }
  }

  lemma ConstructDone(s: State, op: Operation, k: nat, into: Ptr)
    requires Inv(s) && s.prod == Running(op, Construct(k, into)) && k >= |op.items|
    ensures Inv(s.(prod := Running(op, StoreTail)))
  {
    assert op.items[..|op.items|] == op.items;
  }

  lemma ConstructMoves(s: State, op: Operation, k: nat, into: Ptr)
    requires Inv(s) && s.prod == Running(op, Construct(k, into)) && k < |op.items|
    ensures into.At? && into.block < |s.cells| == |s.next| && |s.cells[into.block]| == BLOCK_SIZE
    ensures Inv(ConstructStep(s, op, k, into.block))
  {
    ConstructPlace(s, op, k, into);
    var s' := ConstructStep(s, op, k, into.block);
    ConstructTarget(s, op, k, into.block, s');
    ConstructData(s, op.items[k]);
    ConstructRest(s, op, k, s');
  }

  lemma ConstructData(s: State, e: Elem)
    requires Inv(s) && InMemory(s.order, |s.cells|, |s.elems|) && |s.cells[s.order[Num(|s.elems|)]]| == BLOCK_SIZE
    ensures CellsOn(s.order, Put(s.order, s.cells, |s.elems|, Full(e)), s.elems + [e], s.head, |s.elems| + 1)
    ensures ConsumersOk(s.order, s.flags, Put(s.order, s.cells, |s.elems|, Full(e)), s.elems + [e], s.owner, Live(s), s.headers, s.cons)
  {
    Windows(s);
    ConstructCells(s.order, Live(s), s.cells, s.elems, e, s.head);
    ConstructConsumers(s.order, s.flags, s.cells, s.elems, e, s.owner, Live(s), s.headers, s.cons);
  }

  lemma ConstructTarget(s: State, op: Operation, k: nat, b: Block, s': State)
    requires RingOk(s.next, s.order, s.lo, s.tailBlock) && |s.order| == BlocksFor(s.tail + |op.items|)
    requires k < |op.items| && |s.elems| == s.tail + k && s.lo <= Num(|s.elems|)
    requires InMemory(s.order, |s.cells|, |s.elems|) && b == s.order[Num(|s.elems|)] && |s.cells| == |s.next|
    requires |s.cells[b]| == BLOCK_SIZE && s' == ConstructStep(s, op, k, b)
    ensures s'.cells == Put(s.order, s.cells, |s.elems|, Full(op.items[k]))
    ensures k + 1 < |op.items| ==> Num(|s.elems| + 1) < |s.order| && s'.prod.stage.into == At(s.order[Num(|s.elems| + 1)])
  {
    NextBlock(s.next, s.order, s.lo, s.tailBlock, op, s.tail, |s.elems|);
  }

  /** The block in hand is that of the next index. */
  lemma ConstructPlace(s: State, op: Operation, k: nat, into: Ptr)
    requires Inv(s) && s.prod == Running(op, Construct(k, into)) && k < |op.items|
    ensures s.lo <= Num(|s.elems|) && InMemory(s.order, |s.cells|, |s.elems|)
    ensures into == At(s.order[Num(|s.elems|)]) && |s.elems| == s.tail + k
    ensures |s.cells[into.block]| == BLOCK_SIZE
    ensures |s.elems| + 1 <= Base(|s.order|)
    ensures |s.order| == BlocksFor(s.tail + |op.items|)
  {
    Windows(s);
    NumAtLeast(|s.elems|, s.lo);
    assert RingAt(s.next, s.order, s.lo, Num(|s.elems|));
  }

  lemma ConstructRest(s: State, op: Operation, k: nat, s': State)
    requires Inv(s) && k < |op.items| && s.prod.Running? && s.prod.op == op && s.prod.stage.Construct? && s.prod.stage.k == k
    requires |s.elems| == s.tail + k && |s.elems| + 1 <= Base(|s.order|)
    requires s' == s.(cells := s'.cells, elems := s.elems + [op.items[k]], prod := s'.prod)
    requires s'.prod.Running? && s'.prod.op == op && s'.prod.stage.Construct? && s'.prod.stage.k == k + 1
    requires k + 1 < |op.items| ==> Num(s.tail + k + 1) < |s.order| && s'.prod.stage.into == At(s.order[Num(s.tail + k + 1)])
    requires |s'.cells| == |s.cells| && forall b :: 0 <= b < |s.cells| ==> |s'.cells[b]| == |s.cells[b]|
    requires CellsOn(s.order, s'.cells, s'.elems, s.head, |s'.elems|)
    requires ConsumersOk(s.order, s.flags, s'.cells, s'.elems, s.owner, Live(s), s.headers, s.cons)
    ensures Inv(s')
  {
    SliceGrows(s.elems, s.tail, op.items, k);
    LogGrows(s.log, s.elems, op.items[k]);
  }

  lemma ConstructCells(order: seq<Block>, lo: nat, cells: seq<seq<Cell>>, elems: seq<Elem>, e: Elem, head: nat)
    requires Distinct(order, lo) && Base(lo) <= head <= |elems| && CellsOn(order, cells, elems, head, |elems|)
    requires InMemory(order, |cells|, |elems|) && |cells[order[Num(|elems|)]]| == BLOCK_SIZE
    ensures CellsOn(order, Put(order, cells, |elems|, Full(e)),
                    elems + [e], head, |elems| + 1)
  {
    var i := |elems|;
    var cells' := Put(order, cells, i, Full(e));
    CellsFrame(order, lo, cells, elems, i, Full(e), head, i);
    CellsMoreElems(order, cells', elems, e, head, i);
    assert CellOk(order, cells', elems + [e], i);
  }

  /** Where construction goes on after index i. */
  lemma NextBlock(next: seq<Block>, order: seq<Block>, lo: nat, tailBlock: Ptr, op: Operation, tail: nat, i: nat)
    requires RingOk(next, order, lo, tailBlock) && |order| == BlocksFor(tail + |op.items|)
    requires tail <= i < tail + |op.items| && lo <= Num(i) < |order|
    ensures order[Num(i)] < |next|
    ensures i + 1 < tail + |op.items| ==>
              && Num(i + 1) < |order|
              && At(order[Num(i + 1)]) ==
                 if Off(i + 1) == 0 && At(order[Num(i)]) != tailBlock then At(next[order[Num(i)]]) else At(order[Num(i)])
  {
    var n := Num(i);
    assert RingAt(next, order, lo, n);
    if i + 1 < tail + |op.items| {
      NumAtLeast(i + 1, |order|);
      if Off(i + 1) == 0 {
        NextBlockNum(i);
        assert Apart(order, n, |order| - 1);
      } else {
        NextInBlock(i);
      }
    }
  }

  lemma ConstructConsumers(order: seq<Block>, flags: seq<seq<bool>>, cells: seq<seq<Cell>>, elems: seq<Elem>, e: Elem,
                           owner: seq<Tid>, lo: nat, headers: seq<Header>, cons: seq<Consumer>)
    requires Distinct(order, lo) && Base(lo) <= |elems| && |owner| <= |elems|
    requires InMemory(order, |cells|, |elems|) && |cells[order[Num(|elems|)]]| == BLOCK_SIZE
    requires ConsumersOk(order, flags, cells, elems, owner, lo, headers, cons)
    ensures ConsumersOk(order, flags, Put(order, cells, |elems|, Full(e)),
                        elems + [e], owner, lo, headers, cons)
  {
    var cells' := Put(order, cells, |elems|, Full(e));
    forall t | 0 <= t < |cons| ensures ConsumerOk(order, flags, cells', elems + [e], owner, lo, headers, t, cons[t]) {
      assert ConsumerOk(order, flags, cells, elems, owner, lo, headers, t, cons[t]);
      JobConstruct(order, flags, cells, elems, e, owner, lo, t, cons[t]);
    }
  }

  lemma StoreTailMoves(s: State, op: Operation)
    requires Inv(s) && s.prod == Running(op, StoreTail)
    ensures Inv(StoreTailStep(s, op))
  {
    StoreTailCurrent(s.headers, s.order, s.lo, s.tail, s.slotsUsed, s.indexSize, s.nextSlot, s.tail + |op.items|);
  }

  lemma StoreTailCurrent(headers: seq<Header>, order: seq<Block>, lo: nat, tail: nat, used: nat, size: nat, slot: nat, tail': nat)
    requires CurrentOk(headers, order, lo, tail, used, size, slot) && |order| == BlocksFor(tail')
    requires headers != [] ==> Last(headers).frontNum == |order| - 1
    ensures CurrentOk(headers, order, lo, tail', used, size, slot)
  {
  }

  lemma ProduceInv(s: State)
    requires Inv(s) && Enabled(s, Produce)
    ensures InBounds(s, Produce) && Inv(Apply(s, Produce))
  {
    var op := s.prod.op;
    match s.prod.stage
    case FromPool => ToResetMoves(s, op);
    case Reset(b, j) => ResetMoves(s, op, b, j);
    case Publish => PublishMoves(s, op);
    case Construct(k, into) => if k < |op.items| { ConstructMoves(s, op, k, into); } else { ConstructDone(s, op, k, into); }
    case StoreTail => StoreTailMoves(s, op);
  }
}
