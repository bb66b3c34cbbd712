module ExplicitDestructor {
  /** Destroying an explicit producer that nobody uses any more. */

  import opened Basics
  import opened Blocks
  import opened Sequences
  import opened Deliveries
  import opened ExplicitQueue
  import opened ExplicitFrames
  import opened ExplicitConsumerSteps
  import opened ExplicitFifo

  // ---- An index that is taken is flagged, or still wanted by its owner ----

  ghost predicate FlagSet(order: seq<Block>, flags: seq<seq<bool>>, i: nat) {
    && InMemory(order, |flags|, i)
    && |flags[order[Num(i)]]| == BLOCK_SIZE
    && flags[order[Num(i)]][Off(i)]
  }

  ghost predicate Wanted(owner: seq<Tid>, cons: seq<Consumer>, i: nat) {
    && i < |owner| && owner[i] < |cons|
    && cons[owner[i]].Busy? && cons[owner[i]].from <= i < cons[owner[i]].end
  }

  ghost predicate Settled(order: seq<Block>, flags: seq<seq<bool>>, owner: seq<Tid>, cons: seq<Consumer>, i: nat) {
    Wanted(owner, cons, i) || FlagSet(order, flags, i)
  }

  ghost predicate SettledOk(order: seq<Block>, flags: seq<seq<bool>>, owner: seq<Tid>, cons: seq<Consumer>, lo: nat) {
    forall i :: Base(lo) <= i < |owner| ==> Settled(order, flags, owner, cons, i)
  }

  ghost predicate Flags(s: State) {
    SettledOk(s.order, s.flags, s.owner, s.cons, Floor(s.prod, s.lo))
  }

  lemma ReuseFlags(s: State)
    requires Inv(s) && Enabled(s, Reuse) && InBounds(s, Reuse) && Flags(s)
    ensures Flags(Apply(s, Reuse))
  {
    var s' := Apply(s, Reuse);
    forall i | Base(Floor(s'.prod, s'.lo)) <= i < |s'.owner| ensures Settled(s'.order, s'.flags, s'.owner, s'.cons, i) {
      assert Settled(s.order, s.flags, s.owner, s.cons, i);
    }
  }

  lemma InsertFlags(s: State)
    requires Inv(s) && Enabled(s, Insert) && InBounds(s, Insert) && Flags(s)
    ensures Flags(Apply(s, Insert))
  {
    var s' := Apply(s, Insert);
    forall i | Base(Floor(s'.prod, s'.lo)) <= i < |s'.owner| ensures Settled(s'.order, s'.flags, s'.owner, s'.cons, i) {
      assert Settled(s.order, s.flags, s.owner, s.cons, i);
    }
  }

  /** The blocks that are reset hold no index below `tail`. */
  lemma ResetKeepsFlags(s: State, op: Operation, b: Block, j: nat)
    requires Inv(s) && s.prod == Running(op, Reset(b, j)) && b < |s.flags| && b < |s.next| && Flags(s)
    ensures Flags(ResetStep(s, op, b, j))
  {
    var flags' := s.flags[b := Repeat(BLOCK_SIZE, false)];
    forall i | Base(s.lo) <= i < |s.owner| ensures Settled(s.order, flags', s.owner, s.cons, i) {
      assert Settled(s.order, s.flags, s.owner, s.cons, i);
      NumAtLeast(i, s.lo);
      ClaimedBelow(op, s.order, s.tail, i, j);
      assert Apart(s.order, Num(i), j);
    }
  }

  lemma ClaimedBelow(op: Operation, order: seq<Block>, tail: nat, i: nat, j: nat)
    requires op.start == BlocksFor(tail) && i < tail && op.start <= j
    ensures Num(i) < j
  {
    NumAtLeast(i, j);
    BaseMonotone(op.start, j);
  }

  lemma ProduceFlags(s: State)
    requires Inv(s) && Enabled(s, Produce) && InBounds(s, Produce) && Flags(s)
    ensures Flags(Apply(s, Produce))
  {
    if s.prod.stage.Reset? {
      ResetKeepsFlags(s, s.prod.op, s.prod.stage.block, s.prod.stage.j);
    } else if s.prod.stage.FromPool? {
      BaseMonotone(s.prod.op.lo0, s.lo);
    }
  }

  /** What a failing exit puts back at the old end of the ring is flagged. */
  lemma FailFlags(s: State, op: Operation)
    requires Inv(s) && s.prod == Running(op, FromPool) && Flags(s)
    ensures Flags(FailStep(s, op))
  {
    var s' := FailStep(s, op);
    assert OperationOk(op, s.order, s.lo, s.tail);
    forall i | Base(op.lo0) <= i < |s'.owner| ensures Settled(s'.order, s'.flags, s'.owner, s'.cons, i) {
      assert Settled(s.order, s.flags, s.owner, s.cons, i);
      NumAtLeast(i, op.start);
    }
  }

  lemma ClaimFlags(s: State, t: Tid, count: nat)
    requires Inv(s) && Enabled(s, Claim(t, count)) && Flags(s)
    ensures Flags(ClaimStep(s, t, count))
  {
    var s' := ClaimStep(s, t, count);
    forall i | Base(Floor(s'.prod, s'.lo)) <= i < |s'.owner| ensures Settled(s'.order, s'.flags, s'.owner, s'.cons, i) {
      if i < |s.owner| {
        assert Settled(s.order, s.flags, s.owner, s.cons, i);
      }
    }
  }

  lemma SetEmptySetsFlags(s: State, t: Tid, c: Consumer)
    requires Inv(s) && t < |s.cons| && s.cons[t] == c && c.Busy? && c.stage.SetEmpty? && InBounds(s, Consume(t)) && Flags(s)
    ensures Flags(ConsumeStep(s, t))
  {
    SetEmptyFlags(s, t, c);
    SetEmptyChanges(s, t, c, ConsumeStep(s, t));
    FlagsAfter(s.order, s.flags, s.owner, s.cons, Floor(s.prod, s.lo), t, c.index, ConsumeStep(s, t).cons[t]);
  }

  lemma SetEmptyChanges(s: State, t: Tid, c: Consumer, s': State)
    requires t < |s.cons| && s.cons[t] == c && c.Busy? && c.stage.SetEmpty? && InBounds(s, Consume(t))
    requires InMemory(s.order, |s.flags|, c.from) && c.stage.block == s.order[Num(c.from)] && s' == ConsumeStep(s, t)
    ensures s'.flags == Flag(s.order, s.flags, c.from, c.index) && s'.cons == s.cons[t := s'.cons[t]]
    ensures s' == s.(flags := s'.flags, cons := s'.cons, log := s'.log)
    ensures if c.index == c.end then s'.cons[t].Idle? else s'.cons[t].Busy? && s'.cons[t].from == c.index && s'.cons[t].end == c.end
  {
  }

  lemma FlagsAfter(order: seq<Block>, flags: seq<seq<bool>>, owner: seq<Tid>, cons: seq<Consumer>, lo: nat, t: Tid, index: nat, c': Consumer)
    requires SettledOk(order, flags, owner, cons, lo) && t < |cons| && cons[t].Busy? && cons[t].from < index <= cons[t].end
    requires InMemory(order, |flags|, cons[t].from) && |flags[order[Num(cons[t].from)]]| == BLOCK_SIZE
    requires Num(index - 1) == Num(cons[t].from) && Off(cons[t].from) + (index - cons[t].from) <= BLOCK_SIZE
    requires if index == cons[t].end then c'.Idle? else c'.Busy? && c'.from == index && c'.end == cons[t].end
    ensures SettledOk(order, Flag(order, flags, cons[t].from, index), owner, cons[t := c'], lo)
  {
    var flags', cons' := Flag(order, flags, cons[t].from, index), cons[t := c'];
    forall i | Base(lo) <= i < |owner| ensures Settled(order, flags', owner, cons', i) {
      assert Settled(order, flags, owner, cons, i);
      if cons[t].from <= i < index {
        FlaggedHere(order, flags, cons[t].from, index, i);
      }
    }
  }

  lemma FlaggedHere(order: seq<Block>, flags: seq<seq<bool>>, from: nat, index: nat, i: nat)
    requires InMemory(order, |flags|, from) && |flags[order[Num(from)]]| == BLOCK_SIZE && from <= i < index
    requires Num(index - 1) == Num(from) && Off(from) + (index - from) <= BLOCK_SIZE
    ensures FlagSet(order, Flag(order, flags, from, index), i)
  {
    NumMonotone(from, i);
    NumMonotone(i, index - 1);
  }

  lemma ConsumeFlags(s: State, t: Tid)
    requires Inv(s) && Enabled(s, Consume(t)) && InBounds(s, Consume(t)) && Flags(s)
    ensures Flags(ConsumeStep(s, t))
  {
    ConsumerFacts(s, t);
    if s.cons[t].stage.SetEmpty? {
      SetEmptySetsFlags(s, t, s.cons[t]);
    } else {
      FlagsNothing(s, t, s.cons[t], ConsumeStep(s, t));
      WantedStays(s.order, s.flags, s.owner, s.cons, Floor(s.prod, s.lo), t, ConsumeStep(s, t).cons[t]);
    }
  }

  lemma FlagsNothing(s: State, t: Tid, c: Consumer, s': State)
    requires t < |s.cons| && s.cons[t] == c && c.Busy? && !c.stage.SetEmpty? && InBounds(s, Consume(t)) && s' == ConsumeStep(s, t)
    ensures s' == s.(cells := s'.cells, cons := s.cons[t := s'.cons[t]])
    ensures s'.cons[t].Busy? && s'.cons[t].from == c.from && s'.cons[t].end == c.end
  {
  }

  lemma WantedStays(order: seq<Block>, flags: seq<seq<bool>>, owner: seq<Tid>, cons: seq<Consumer>, lo: nat, t: Tid, c': Consumer)
    requires SettledOk(order, flags, owner, cons, lo) && t < |cons| && cons[t].Busy?
    requires c'.Busy? && c'.from == cons[t].from && c'.end == cons[t].end
    ensures SettledOk(order, flags, owner, cons[t := c'], lo)
  {
    var cons' := cons[t := c'];
    forall i | Base(lo) <= i < |owner| ensures Settled(order, flags, owner, cons', i) {
      assert Settled(order, flags, owner, cons, i);
    }
  }

  lemma NextFlags(s: State, a: Action, s': State)
    requires Inv(s) && Next(s, a, s') && Flags(s)
    ensures Flags(s')
  {
    match a
    case Fail => FailFlags(s, s.prod.op);
    case Reuse => ReuseFlags(s);
    case Insert => InsertFlags(s);
    case Produce => ProduceFlags(s);
    case Claim(t, count) => ClaimFlags(s, t, count);
    case Consume(t) => ConsumeFlags(s, t);
    case _ =>
  }

  lemma {:induction false} FlagsHold(run: seq<State>, acts: seq<Action>, n: nat)
    requires IsSoundRun(run, acts) && n < |run|
    ensures Flags(run[n])
    decreases n
  {
    if n > 0 {
      FlagsHold(run, acts, n - 1);
      FlagsGoOn(run, acts, n - 1);
    }
  }

  lemma FlagsGoOn(run: seq<State>, acts: seq<Action>, n: nat)
    requires IsSoundRun(run, acts) && n < |acts| && Flags(run[n])
    ensures Flags(run[n + 1])
  {
    SoundStep(run, acts, n);
    NextFlags(run[n], acts[n], run[n + 1]);
  }

  // ---- What is left ----

  ghost predicate Quiet(s: State) {
    s.prod.Ready? && forall t :: 0 <= t < |s.cons| ==> s.cons[t].Idle?
  }

  /** A block of the ring has all flags set exactly when all its elements were dequeued. */
  lemma EmptyMeansDequeued(s: State, n: nat)
    requires Inv(s) && Flags(s) && Quiet(s) && s.lo <= n < |s.order|
    ensures s.order[n] < |s.flags| && (AllSet(s.flags[s.order[n]]) <==> Base(n + 1) <= s.head)
  {
    assert RingAt(s.next, s.order, s.lo, n);
    BaseMonotone(s.lo, n);
    var fs := s.flags[s.order[n]];
    if Base(n + 1) <= s.head {
      forall o | 0 <= o < |fs| ensures fs[o] {
        NumUnique(Base(n) + o, n);
        assert Settled(s.order, s.flags, s.owner, s.cons, Base(n) + o);
      }
    } else {
      var i := if Base(n) <= s.head then s.head else Base(n);
      BaseMonotone(n + 1, |s.order|);
      NumUnique(i, n);
      assert FlagClear(s.order, s.flags, i);
    }
  }

  lemma RemainingElement(s: State, n: nat, o: nat)
    requires Inv(s) && s.prod.Ready? && n < |s.order| && o < BLOCK_SIZE && s.head <= Base(n) + o < s.tail
    ensures s.order[n] < |s.cells| && o < |s.cells[s.order[n]]| && |s.elems| == s.tail
    ensures s.cells[s.order[n]][o] == Full(s.elems[Base(n) + o])
  {
    NumUnique(Base(n) + o, n);
    assert CellOk(s.order, s.cells, s.elems, Base(n) + o);
  }

  lemma LastBlockEnd(s: State)
    requires Inv(s) && s.prod.Ready? && s.order != []
    ensures var last := if Off(s.tail) == 0 then BLOCK_SIZE else Off(s.tail);
            s.tail == Base(|s.order| - 1) + last && 0 < last <= BLOCK_SIZE
  {
    if s.tail < Base(|s.order|) {
      NumUnique(s.tail, |s.order| - 1);
    } else {
      NumUnique(s.tail, |s.order|);
    }
  }

  // ---- The destructor ----

  /** The partially dequeued block, found by walking the index from its oldest entry. */
  method FindHalfDequeued(s: State) returns (block: Ptr)
    requires Inv(s) && s.prod.Ready? && s.order != [] && (Off(s.head) != 0 ==> s.low <= s.lo)
    ensures Off(s.head) == 0 ==> block == Null
    ensures Off(s.head) != 0 ==> s.lo <= Num(s.head) < |s.order| && block == At(s.order[Num(s.head)])
  {
    NumIsQuotient(s.head);
    block := Null;
    if s.head % BLOCK_SIZE != 0 {
      HeadBlock(s);
      var h := Last(s.headers);
      ghost var k := 0;
      ListedInState(s, 0);
      var i := Back(s.nextSlot, s.slotsUsed, s.indexSize);
      while h.entries[i].base + BLOCK_SIZE < s.head
        invariant k < s.slotsUsed && s.lo + k <= Num(s.head)
        invariant i < |h.entries| && i == Back(s.nextSlot, s.slotsUsed - k, s.indexSize)
        invariant h.entries[i] == Entry(Base(s.lo + k), s.order[s.lo + k])
        decreases s.slotsUsed - k
      {
        NumAtLeast(s.head, s.lo + k + 1);
        k := k + 1;
        ListedInState(s, k);
        i := NextSlot(i, s.indexSize);
      }
      HalfBlock(s.head, s.lo + k);
      block := At(h.entries[i].block);
    }
  }

  lemma HalfBlock(head: nat, n: nat)
    requires n <= Num(head) && head <= Base(n) + BLOCK_SIZE && Off(head) != 0
    ensures n == Num(head)
  {
    NumAtLeast(head, n + 1);
    if n < Num(head) {
      NumUnique(head, n + 1);
    }
  }

  lemma HeadBlock(s: State)
    requires Inv(s) && s.prod.Ready? && s.order != [] && Off(s.head) != 0
    ensures s.lo <= Num(s.head) < |s.order| && s.slotsUsed == |s.order| - s.lo > 0
    ensures s.headers != [] && |Last(s.headers).entries| == s.indexSize
  {
    Windows(s);
    NumAtLeast(s.head, s.lo);
    NumAtLeast(s.head, |s.order|);
    if s.head == Base(|s.order|) {
      NumUnique(s.head, |s.order|);
    }
    assert HeaderOk(s.headers[|s.headers| - 1], s.order, Kept(s));
  }

  /** The first index of block number n, or of a later one, that is not dequeued. */
  ghost function LeftFrom(s: State, n: nat): nat {
    if Base(n) <= s.head then s.head else Base(n)
  }

  /** Where the elements of block number n end. */
  ghost function LeftTo(s: State, n: nat): nat {
    if n + 1 < |s.order| then Base(n + 1) else s.tail
  }

  /** Destroy what is left in block number n, which is not empty. */
  method DestroyBlock(s: State, ghost n: nat, block: Block, half: Ptr, destroyed0: seq<Elem>) returns (destroyed: seq<Elem>)
    requires Inv(s) && s.prod.Ready? && s.lo <= n < |s.order| && block == s.order[n] && s.head < Base(n + 1)
    requires Off(s.head) != 0 ==> s.lo <= Num(s.head) < |s.order|
    requires half == if Off(s.head) == 0 then Null else At(s.order[Num(s.head)])
    requires s.head <= s.tail == |s.elems| && Base(n) <= s.tail
    requires destroyed0 == s.elems[s.head..LeftFrom(s, n)]
    ensures s.tailBlock == At(s.order[|s.order| - 1]) && LeftTo(s, n) <= s.tail
    ensures destroyed == s.elems[s.head..LeftTo(s, n)]
  {
    var i, lastValidIndex, stop := BlockBounds(s, n, block, half);
    var more := DestroyRange(s, n, block, i, stop, lastValidIndex);
    destroyed := destroyed0 + more;
    SlicesJoin(s.elems, s.head, LeftFrom(s, n), LeftTo(s, n), destroyed0, more);
  }

  lemma SlicesJoin<T>(xs: seq<T>, a: nat, b: nat, c: nat, ys: seq<T>, zs: seq<T>)
    requires a <= b <= c <= |xs| && ys == xs[a..b] && zs == xs[b..c]
    ensures ys + zs == xs[a..c]
  {
  }

  method DestroyRange(s: State, ghost n: nat, block: Block, i: nat, ghost stop: nat, lastValidIndex: nat) returns (more: seq<Elem>)
    requires Inv(s) && s.prod.Ready? && s.lo <= n < |s.order| && block == s.order[n] && i <= stop <= BLOCK_SIZE
    requires s.head <= Base(n) + i && Base(n) + stop <= s.tail == |s.elems| && lastValidIndex <= BLOCK_SIZE
    requires stop == if At(block) == s.tailBlock then lastValidIndex else BLOCK_SIZE
    ensures more == s.elems[Base(n) + i..Base(n) + stop]
  {
    BlockHolds(s, n, i, stop);
    more := DestroyCells(s.cells[block], At(block) == s.tailBlock, i, lastValidIndex, s.elems[Base(n) + i..Base(n) + stop]);
  }

  lemma BlockHolds(s: State, n: nat, i: nat, stop: nat)
    requires Inv(s) && s.prod.Ready? && s.lo <= n < |s.order| && i <= stop <= BLOCK_SIZE
    requires s.head <= Base(n) + i && Base(n) + stop <= s.tail == |s.elems|
    ensures s.order[n] < |s.cells| && |s.cells[s.order[n]]| == BLOCK_SIZE
    ensures forall o :: i <= o < stop ==> s.cells[s.order[n]][o] == Full(s.elems[Base(n) + i..Base(n) + stop][o - i])
  {
    InMemoryBlock(s, n);
    forall o | i <= o < stop ensures s.cells[s.order[n]][o] == Full(s.elems[Base(n) + i..Base(n) + stop][o - i]) {
      RemainingElement(s, n, o);
    }
  }

  lemma InMemoryBlock(s: State, n: nat)
    requires Inv(s) && s.lo <= n < |s.order|
    ensures s.order[n] < |s.cells| && |s.cells[s.order[n]]| == BLOCK_SIZE
  {
    assert RingAt(s.next, s.order, s.lo, n);
  }

  /** The offsets between which block number n still holds elements, as the destructor computes them. */
  method BlockBounds(s: State, ghost n: nat, block: Block, half: Ptr) returns (i: nat, lastValidIndex: nat, ghost stop: nat)
    requires Inv(s) && s.prod.Ready? && s.lo <= n < |s.order| && block == s.order[n] && s.head < Base(n + 1) && Base(n) <= s.tail
    requires Off(s.head) != 0 ==> s.lo <= Num(s.head) < |s.order|
    requires half == if Off(s.head) == 0 then Null else At(s.order[Num(s.head)])
    ensures s.tailBlock == At(s.order[|s.order| - 1])
    ensures Base(n) + i == LeftFrom(s, n) && i <= stop <= BLOCK_SIZE && lastValidIndex <= BLOCK_SIZE
    ensures s.head <= LeftFrom(s, n) <= LeftTo(s, n) == Base(n) + stop <= s.tail
    ensures stop == if At(block) == s.tailBlock then lastValidIndex else BLOCK_SIZE
  {
    NumIsQuotient(s.head);
    NumIsQuotient(s.tail);
    LastBlockEnd(s);
    BlockCases(s, n);
    i := if At(block) == half then s.head % BLOCK_SIZE else 0;
    lastValidIndex := if s.tail % BLOCK_SIZE == 0 then BLOCK_SIZE else s.tail % BLOCK_SIZE;
    stop := if At(block) == s.tailBlock then lastValidIndex else BLOCK_SIZE;
  }

  /** Destroy elements from offset i0 to the end of the block, or of the queue in the tail block. */
  method DestroyCells(cells: seq<Cell>, isTailBlock: bool, i0: nat, lastValidIndex: nat, ghost es: seq<Elem>) returns (destroyed: seq<Elem>)
    requires |cells| == BLOCK_SIZE && lastValidIndex <= BLOCK_SIZE
    requires var stop := if isTailBlock then lastValidIndex else BLOCK_SIZE;
             i0 <= stop && |es| == stop - i0 && forall o :: i0 <= o < stop ==> cells[o] == Full(es[o - i0])
    ensures destroyed == es
  {
    destroyed := [];
    var i := i0;
    while i != BLOCK_SIZE && (!isTailBlock || i != lastValidIndex)
      invariant i0 <= i <= if isTailBlock then lastValidIndex else BLOCK_SIZE
      invariant destroyed == es[..i - i0]
      decreases BLOCK_SIZE - i
    {
      destroyed := destroyed + [cells[i].elem];
      i := i + 1;
    }
  }

  lemma BlockCases(s: State, n: nat)
    requires Inv(s) && s.prod.Ready? && s.lo <= n < |s.order| && s.head < Base(n + 1)
    requires Off(s.head) != 0 ==> s.lo <= Num(s.head) < |s.order|
    ensures s.tailBlock == At(s.order[|s.order| - 1]) && (n + 1 < |s.order| <==> At(s.order[n]) != s.tailBlock)
    ensures n + 1 < |s.order| ==> Base(n + 1) <= s.tail
    ensures Base(n) <= s.head ==> Num(s.head) == n
    ensures Off(s.head) != 0 && Base(n) > s.head ==> s.order[n] != s.order[Num(s.head)]
    ensures Base(n) <= s.head && Off(s.head) == 0 ==> s.head == Base(n)
  {
    if n + 1 < |s.order| {
      assert Apart(s.order, n, |s.order| - 1);
      BaseMonotone(n + 1, |s.order| - 1);
    }
    if Base(n) <= s.head {
      NumUnique(s.head, n);
    } else if Off(s.head) != 0 {
      NumAtLeast(s.head, n);
      assert Apart(s.order, Num(s.head), n);
    }
  }

  lemma NextInRing(s: State, n: nat)
    requires Inv(s) && s.lo <= n < |s.order|
    ensures s.order[n] < |s.next| && s.next[s.order[n]] == s.order[if n + 1 < |s.order| then n + 1 else s.lo]
    ensures s.tailBlock == At(s.order[|s.order| - 1]) && (At(s.order[n]) == s.tailBlock <==> n + 1 == |s.order|)
  {
    assert RingAt(s.next, s.order, s.lo, n);
    if n + 1 < |s.order| {
      assert Apart(s.order, n, |s.order| - 1);
    }
  }

  /**
    The destructor destroys exactly the elements from `head` up to `tail`, in order, wherever they
    lie in the ring.
   */
  method DestroyElements(s: State) returns (destroyed: seq<Elem>)
    requires Inv(s) && Flags(s) && Quiet(s) && (Off(s.head) != 0 ==> s.low <= s.lo)
    ensures s.head <= s.tail == |s.elems| && destroyed == s.elems[s.head..s.tail]
  {
    destroyed := [];
    if s.tailBlock != Null {
      var halfDequeuedBlock := FindHalfDequeued(s);
      NextInRing(s, |s.order| - 1);
      var block := s.next[s.tailBlock.block];
      ghost var n := s.lo;
      LastBlockEnd(s);
      StartsAtOldest(s);
      var more := true;
      while more
        invariant s.lo <= n < |s.order| && block == s.order[n] && Base(n) <= s.tail
        invariant more ==> destroyed == s.elems[s.head..LeftFrom(s, n)]
        invariant !more ==> destroyed == s.elems[s.head..s.tail]
        decreases |s.order| - n, more
      {
        EmptyMeansDequeued(s, n);
        if !AllSet(s.flags[block]) {
          destroyed := DestroyBlock(s, n, block, halfDequeuedBlock, destroyed);
        }
        NextInRing(s, n);
        AfterBlock(s, n);
        more := At(block) != s.tailBlock;
        if more {
          block := s.next[block];
          n := n + 1;
        }
      }
    }
  }

  lemma StartsAtOldest(s: State)
    requires Inv(s) && s.order != [] && s.prod.Ready?
    ensures s.lo < |s.order| && Base(s.lo) <= s.head <= s.tail == |s.elems|
    ensures s.elems[s.head..s.head] == []
  {
    Windows(s);
  }

  lemma AfterBlock(s: State, n: nat)
    requires Inv(s) && s.prod.Ready? && s.lo <= n < |s.order|
    ensures n + 1 < |s.order| ==> Base(n + 1) <= s.tail
    ensures n + 1 == |s.order| && Base(n + 1) <= s.head ==> s.head == s.tail
  {
    LastBlockEnd(s);
    if n + 1 < |s.order| {
      BaseMonotone(n + 1, |s.order| - 1);
    }
  }

  /** The destructor then destroys every block of the ring once, wherever it starts. */
  method DestroyRing(next: seq<Block>, tailBlock: Ptr, ghost order: seq<Block>, ghost lo: nat) returns (freed: seq<Block>)
    requires RingOk(next, order, lo, tailBlock)
    ensures multiset(freed) == multiset(order[lo..])
    ensures forall i, j :: 0 <= i < j < |freed| ==> freed[i] != freed[j]
  {
    freed := [];
    if tailBlock != Null {
      RingFacts(next, order, lo, tailBlock, |order| - 1, |order| - 1);
      assert RingAt(next, order, lo, |order| - 1);
      var last := tailBlock.block;
      freed := [last];
      var block := next[last];
      ghost var n := lo;
      while block != last
        invariant lo <= n < |order| && block == order[n]
        invariant freed == [last] + order[lo..n]
        decreases |order| - n
      {
        assert RingAt(next, order, lo, n);
        freed := freed + [block];
        block := next[block];
        n := n + 1;
      }
      RingFacts(next, order, lo, tailBlock, n, |order| - 1);
      assert order[lo..] == order[lo..n] + [last];
      RingIsDistinct(next, order, lo, tailBlock, n, freed);
    }
  }

  lemma RingIsDistinct(next: seq<Block>, order: seq<Block>, lo: nat, tailBlock: Ptr, n: nat, freed: seq<Block>)
    requires RingOk(next, order, lo, tailBlock) && lo <= n < |order| && n + 1 == |order| && freed == [order[n]] + order[lo..n]
    ensures forall i, j :: 0 <= i < j < |freed| ==> freed[i] != freed[j]
  {
    forall i, j | 0 <= i < j < |freed| ensures freed[i] != freed[j] {
      RingFacts(next, order, lo, tailBlock, lo + j - 1, if i == 0 then n else lo + i - 1);
    }
  }
}
