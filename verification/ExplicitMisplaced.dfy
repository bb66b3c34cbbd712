module ExplicitMisplaced {
  /**
    The other unsound exit: blocks were reused, the index was replaced, and no block was inserted.

    The new index starts with what was then the oldest block, but the slot that the exit restores
    counts from the block that was the oldest at the call. So the next published front has a base
    that does not follow those before it, and every lookup from it goes wrong.
   */

  import opened Basics
  import opened Blocks
  import opened Deliveries
  import opened ExplicitQueue
  import opened ExplicitFrames
  import opened ExplicitProducerSteps
  import opened ExplicitConsumerSteps
  import opened ExplicitFifo
  import opened ExplicitDestructor
  import opened ExplicitFailure
  import opened ExplicitOverwrite
  import Circular

  ghost predicate Misplaces(s: State, op: Operation) {
    && Inv(s) && Flags(s) && s.prod == Running(op, FromPool) && op.need > 0
    && op.grown && op.reused > 0 && op.inserted == 0 && s.head < s.tail
  }

  /** The index as the exit leaves it: slot k, below used0, has the entry of number lo + k. */
  ghost predicate Shifted(h: Header, order: seq<Block>, lo: nat, low: nat, used: nat, size: nat) {
    && h.size == size == |h.entries| && used < size && lo + used == |order|
    && forall n :: low <= n < |order| && lo <= n ==> ShiftedAt(h, order, lo, n)
  }

  ghost predicate ShiftedAt(h: Header, order: seq<Block>, lo: nat, n: nat) {
    lo <= n < |order| && n - lo < |h.entries| && h.entries[n - lo] == Entry(Base(n), order[n])
  }

  lemma IsShifted(s: State, op: Operation)
    requires Misplaces(s, op)
    ensures s.headers != [] && Shifted(Last(s.headers), s.order, s.lo, Live(s), op.used0, s.indexSize)
    ensures op.start > 0 && op.lo0 < s.lo == op.lo0 + op.reused <= op.start && |s.order| == op.start + op.reused
    ensures Live(s) <= Num(s.head) < op.start
  {
    assert OperationOk(op, s.order, s.lo, s.tail);
    Windows(s);
    NumAtLeast(s.head, Live(s));
    NumAtLeast(s.head, op.start);
    var h := Last(s.headers);
    assert HeaderOk(h, s.order, Kept(s));
    forall n | Live(s) <= n < |s.order| && s.lo <= n ensures ShiftedAt(h, s.order, s.lo, n) {
      assert EntryAt(h, s.order, n);
      SmallSlot(n - s.lo, h.size);
    }
  }

  /** The block ahead of the restored tail block is the first one that was reused, and still empty. */
  lemma AheadIsEmpty(s: State, op: Operation)
    requires Misplaces(s, op)
    ensures var x := FailStep(s, op);
            && op.lo0 < |s.order| && HasAhead(x) && Ahead(x) == s.order[op.lo0]
            && s.order[op.lo0] < |s.flags| && AllSet(s.flags[s.order[op.lo0]])
  {
    IsShifted(s, op);
    assert OperationOk(op, s.order, s.lo, s.tail);
    FailRing(s.next, s.order, s.lo, s.tailBlock, op);
    assert RingAt(s.next, s.order[..op.start], op.lo0, op.start - 1);
    assert RingAt(s.next, s.order[..op.start], op.lo0, op.lo0);
    OldestIsFlagged(s, op.lo0);
  }

  lemma OldestIsFlagged(s: State, n: nat)
    requires Inv(s) && Flags(s) && Floor(s.prod, s.lo) <= n < s.lo && n < |s.order| && s.order[n] < |s.flags|
    ensures AllSet(s.flags[s.order[n]])
  {
    BaseMonotone(Floor(s.prod, s.lo), n);
    BaseMonotone(n + 1, s.lo);
    assert |s.flags[s.order[n]]| == BLOCK_SIZE;
    forall o | 0 <= o < BLOCK_SIZE ensures s.flags[s.order[n]][o] {
      NumUnique(Base(n) + o, n);
      OldIsFlagged(s, Base(n) + o);
    }
  }

  lemma OldIsFlagged(s: State, i: nat)
    requires Inv(s) && Flags(s) && Base(Floor(s.prod, s.lo)) <= i < Base(s.lo)
    ensures FlagSet(s.order, s.flags, i)
  {
    Windows(s);
    assert Settled(s.order, s.flags, s.owner, s.cons, i);
    if Wanted(s.owner, s.cons, i) {
      ConsumerFacts(s, s.owner[i]);
    }
  }

  // ---- The next call ----

  /** What the next call leaves as the exit left it: memory, the index below slot `used`, the elements. */
  ghost predicate Beside(x: State, s: State, used: nat) {
    && s.headers != [] && |x.headers| == |s.headers| && x.indexSize == s.indexSize
    && x.next == s.next && x.cells == s.cells && x.tail == s.tail && x.head == s.head && x.cons == s.cons
    && Last(x.headers).size == Last(s.headers).size && |Last(x.headers).entries| == |Last(s.headers).entries|
    && used <= |Last(s.headers).entries|
    && forall k :: 0 <= k < used ==> Last(x.headers).entries[k] == Last(s.headers).entries[k]
  }

  /** The front of the current index is slot `used`, of block number `start`. */
  ghost predicate Fronted(x: State, used: nat, start: nat) {
    && x.headers != [] && Last(x.headers).front == used < |Last(x.headers).entries|
    && Last(x.headers).entries[used].base == Base(start)
  }

  /** The call has put the reused block into slot `used`, as number `start`. */
  ghost predicate Entered(x: State, s: State, used: nat, start: nat) {
    && Beside(x, s, used) && x.prod.Running? && x.prod.op.firstAlloc == x.tailBlock && x.tailBlock.At?
    && x.tailBlock.block < |x.flags| == |x.next|
    && used < |Last(x.headers).entries| == x.indexSize && Last(x.headers).entries[used].base == Base(start)
    && x.nextSlot == NextSlot(used, x.indexSize)
  }

  lemma NextCallReuses(s: State, op: Operation, items: seq<Elem>) returns (x1: State, x2: State)
    requires Misplaces(s, op) && BlocksFor(s.tail + |items|) == op.start + 1
    ensures Next(FailStep(s, op), Begin(items), x1) && Next(x1, Reuse, x2)
    ensures Entered(x2, s, op.used0, op.start) && x2.prod.stage == FromAhead && x2.prod.op.need == 0
  {
    IsShifted(s, op);
    AheadIsEmpty(s, op);
    BasesInIsNeed(s.tail, |items|);
    RoundUpIsBase(s.tail);
    assert OperationOk(op, s.order, s.lo, s.tail) && op.front0 == op.used0;
    x1 := Apply(FailStep(s, op), Begin(items));
    x2 := Apply(x1, Reuse);
  }

  lemma NextCallStops(s: State, used: nat, start: nat, x: State) returns (x1: State, x2: State)
    requires Entered(x, s, used, start) && x.prod.stage == FromAhead && x.prod.op.need == 0
    ensures Next(x, StopReuse, x1) && Next(x1, Produce, x2)
    ensures Entered(x2, s, used, start) && x2.prod.stage.Reset? && At(x2.prod.stage.block) == x2.tailBlock
  {
    x1 := Apply(x, StopReuse);
    x2 := Apply(x1, Produce);
  }

  lemma NextCallPublishes(s: State, used: nat, start: nat, x: State) returns (x1: State, x2: State)
    requires Entered(x, s, used, start) && x.prod.stage.Reset? && At(x.prod.stage.block) == x.tailBlock
    ensures Next(x, Produce, x1) && Next(x1, Produce, x2)
    ensures Beside(x2, s, used) && Fronted(x2, used, start)
  {
    x1 := Apply(x, Produce);
    x2 := Apply(x1, Produce);
  }

  // ---- The next consumer ----

  /** Consumer t has claimed the element at `head` and reached `stage`. */
  ghost predicate Seeks(x: State, s: State, used: nat, start: nat, t: Tid, stage: Stage) {
    && s.headers != [] && |x.headers| == |s.headers| && x.cells == s.cells
    && Last(x.headers).size == Last(s.headers).size && |Last(x.headers).entries| == |Last(s.headers).entries|
    && used <= |Last(s.headers).entries|
    && (forall k :: 0 <= k < used ==> Last(x.headers).entries[k] == Last(s.headers).entries[k])
    && Fronted(x, used, start)
    && t < |x.cons| && x.cons[t] == Busy(s.head, s.head + 1, s.head, s.head, [], stage)
  }

  lemma NextClaim(s: State, used: nat, start: nat, x: State, t: Tid) returns (x1: State, x2: State, x3: State)
    requires Beside(x, s, used) && Fronted(x, used, start) && s.head < s.tail && t < |s.cons| && s.cons[t].Idle?
    ensures Next(x, Claim(t, 1), x1) && Next(x1, Consume(t), x2) && Next(x2, Consume(t), x3)
    ensures Seeks(x3, s, used, start, t, x3.cons[t].stage)
    ensures x3.cons[t].stage.ReadBase? && x3.cons[t].stage.h == |s.headers| - 1 && x3.cons[t].stage.front == used
  {
    x1 := Apply(x, Claim(t, 1));
    x2 := Apply(x1, Consume(t));
    x3 := Apply(x2, Consume(t));
  }

  lemma NextLookup(s: State, used: nat, start: nat, x: State, t: Tid, num: int, slot: nat) returns (x1: State, x2: State)
    requires s.headers != [] && |Last(s.headers).entries| > used
    requires Seeks(x, s, used, start, t, ReadBase(|s.headers| - 1, used, num))
    requires slot < used && start == Num(s.head) + (used - slot)
    ensures Next(x, Consume(t), x1) && Next(x1, Consume(t), x2)
    ensures Seeks(x2, s, used, start, t, Take(|s.headers| - 1, slot, Last(s.headers).entries[slot].block))
  {
    LookupBack(used, start, Num(s.head), |Last(s.headers).entries|);
    x1 := Apply(x, Consume(t));
    x2 := Apply(x1, Consume(t));
  }

  /** Looking back from slot `used` and number `start` to number n. */
  lemma LookupBack(used: nat, start: nat, n: nat, size: nat)
    requires used < size && n <= start <= n + used
    ensures Lookup(used, Base(start), Base(n), size) == used - (start - n)
  {
    BaseDistance(start, n);
    LookupIs(used, Base(start), Base(n), size, n - start);
    Circular.DivModUnique(used + (n - start), size, 0, used - (start - n));
  }

  /** The slot that is found has a block in which the element at `head` is not. */
  lemma WrongBlock(s: State, op: Operation) returns (slot: nat)
    requires Misplaces(s, op)
    ensures slot < op.used0 && op.start == Num(s.head) + (op.used0 - slot)
    ensures s.headers != [] && op.used0 < |Last(s.headers).entries|
    ensures s.head < |s.elems| && CellOk(s.order, s.cells, s.elems, s.head)
    ensures Last(s.headers).entries[slot].block != s.order[Num(s.head)]
  {
    IsShifted(s, op);
    var n := Num(s.head);
    slot := n - op.lo0;
    assert OperationOk(op, s.order, s.lo, s.tail);
    assert ShiftedAt(Last(s.headers), s.order, s.lo, n + op.reused);
    assert CellOk(s.order, s.cells, s.elems, s.head);
    assert Apart(s.order, n, n + op.reused);
  }

  /**
    After every such exit that leaves an element in the queue, the next call that needs one block
    and the next consumer lead to a consumer that takes the wrong block for its element.
   */
  lemma EveryLookupGoesWrong(s: State, op: Operation, items: seq<Elem>, t: Tid) returns (s': State)
    requires Misplaces(s, op) && BlocksFor(s.tail + |items|) == op.start + 1 && t < |s.cons| && s.cons[t].Idle?
    ensures Path(FailStep(s, op),
                 [Begin(items), Reuse, StopReuse] + [Produce, Produce, Produce] + [Claim(t, 1), Consume(t)] + [Consume(t), Consume(t), Consume(t)],
                 s')
    ensures t < |s'.cons| && s'.cons[t].Busy? && s'.cons[t].index == s.head && s'.cons[t].stage.Take?
    ensures CellOk(s.order, s'.cells, s.elems, s.head) && s'.cons[t].stage.block != s.order[Num(s.head)]
  {
    var slot := WrongBlock(s, op);
    var x1, x2 := NextCallReuses(s, op, items);
    var x3, x4 := NextCallStops(s, op.used0, op.start, x2);
    var x5, x6 := NextCallPublishes(s, op.used0, op.start, x4);
    var x7, x8, x9 := NextClaim(s, op.used0, op.start, x6, t);
    var x10, x11 := NextLookup(s, op.used0, op.start, x9, t, x9.cons[t].stage.num, slot);
    Path3(FailStep(s, op), Begin(items), x1, Reuse, x2, StopReuse, x3);
    Path3(x3, Produce, x4, Produce, x5, Produce, x6);
    Path2(x6, Claim(t, 1), x7, Consume(t), x8);
    Path3(x8, Consume(t), x9, Consume(t), x10, Consume(t), x11);
    PathsJoin(FailStep(s, op), [Begin(items), Reuse, StopReuse], x3, [Produce, Produce, Produce], x6, [Claim(t, 1), Consume(t)], x8);
    PathJoins(FailStep(s, op), [Begin(items), Reuse, StopReuse] + [Produce, Produce, Produce] + [Claim(t, 1), Consume(t)], x8,
              [Consume(t), Consume(t), Consume(t)], x11);
    s' := x11;
  }

  // ---- When a call ends like this ----

  lemma RoundKeepsFlags(s: State, p: Supply, s': State)
    requires Inv(s) && Flags(s) && Acquiring(s.prod) && !Stopped(s, p) && Next(s, Choice(s, p), s')
    ensures Flags(s') && s'.head == s.head && s'.tail == s.tail
  {
    NextFlags(s, Choice(s, p), s');
  }

  lemma {:induction false} SettleKeepsFlags(s: State, p: Supply)
    requires Inv(s) && Flags(s) && Acquiring(s.prod)
    ensures Flags(Settle(s, p)) && Settle(s, p).head == s.head && Settle(s, p).tail == s.tail
    decreases s.prod.op.need, if s.prod.stage.FromAhead? then 1 else 0, if IndexFull(s) then 1 else 0
  {
    if !Stopped(s, p) {
      var s' := SettleMoves(s, p);
      RoundKeepsFlags(s, p, s');
      SettleKeepsFlags(s', p);
    }
  }

  /** With a full index, a reusable block, and not enough of those, when an index can be had but no block. */
  lemma MisplacedAfterCall(s: State, items: seq<Elem>, p: Supply)
    requires Inv(s) && Flags(s) && s.prod.Ready? && s.head < s.tail && Needed(s, items) > 0
    requires IndexFull(s) && p.canGrow && p.allowed > 0 && p.blocks == 0
    requires Reusable(s, items) > 0 && Missing(s, items) > 0
    ensures var r := Acquired(s, items, p); r.prod.Running? && Misplaces(r, r.prod.op)
  {
    CallOutcome(s, items, p);
    BeginInv(s, items);
    SettleKeepsFlags(Apply(s, Begin(items)), p);
  }
}
