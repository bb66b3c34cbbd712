module ExplicitConsumerSteps {
  /** The consumers' steps keep the invariant of an explicit queue. */

  import opened Basics
  import opened Blocks
  import opened Sequences
  import opened Deliveries
  import opened ExplicitQueue
  import opened ExplicitFrames

  lemma ReadyCoversTail(prod: Producer, headers: seq<Header>, order: seq<Block>, lo: nat, tail: nat, elems: seq<Elem>)
    requires ProducerOk(prod, headers, order, lo, tail, elems) && |elems| <= Base(|order|) && tail <= |elems|
    ensures tail <= Base(ReadyBlocks(prod, order))
  {
    if prod.Running? && prod.stage.Reset? {
      BaseMonotone(prod.op.start, prod.stage.j);
    }
  }

  lemma ClaimMoves(s: State, t: Tid, count: nat)
    requires Inv(s) && t < |s.cons| && s.cons[t].Idle? && 0 < count && s.head + count <= s.tail
    ensures Inv(ClaimStep(s, t, count))
  {
    ReadyCoversTail(s.prod, s.headers, s.order, s.lo, s.tail, s.elems);
    var c := Busy(s.head, s.head + count, s.head, s.head, [], LoadHeader);
    var owner' := s.owner + Repeat(count, t);
    assert JobOk(s.order, s.flags, s.cells, s.elems, owner', Live(s), t, c);
    ClaimConsumers(s.order, s.flags, s.cells, s.elems, s.owner, Live(s), s.headers, s.cons, t, count, c);
  }

  lemma ClaimConsumers(order: seq<Block>, flags: seq<seq<bool>>, cells: seq<seq<Cell>>, elems: seq<Elem>, owner: seq<Tid>,
                       lo: nat, headers: seq<Header>, cons: seq<Consumer>, t: Tid, count: nat, c: Consumer)
    requires ConsumersOk(order, flags, cells, elems, owner, lo, headers, cons) && t < |cons|
    requires ConsumerOk(order, flags, cells, elems, owner + Repeat(count, t), lo, headers, t, c)
    ensures ConsumersOk(order, flags, cells, elems, owner + Repeat(count, t), lo, headers, cons[t := c])
  {
    var owner', cons' := owner + Repeat(count, t), cons[t := c];
    forall u | 0 <= u < |cons'| ensures ConsumerOk(order, flags, cells, elems, owner', lo, headers, u, cons'[u]) {
      if u != t {
        assert ConsumerOk(order, flags, cells, elems, owner, lo, headers, u, cons[u]);
      }
    }
  }

  /** A step that changes only the consumer's own stage. */
  lemma StageMoves(s: State, t: Tid, c: Consumer, stage: Stage)
    requires Inv(s) && t < |s.cons| && s.cons[t] == c && c.Busy?
    requires StageOk(s.headers, s.order, c.(stage := stage))
    ensures Inv(SetConsumer(s, t, c.(stage := stage)))
  {
    var c' := c.(stage := stage);
    assert ConsumerOk(s.order, s.flags, s.cells, s.elems, s.owner, Live(s), s.headers, t, c);
    assert JobOk(s.order, s.flags, s.cells, s.elems, s.owner, Live(s), t, c');
  }

  /** What consumer `t` knows. */
  lemma ConsumerFacts(s: State, t: Tid)
    requires Inv(s) && t < |s.cons| && s.cons[t].Busy?
    ensures JobOk(s.order, s.flags, s.cells, s.elems, s.owner, Live(s), t, s.cons[t])
    ensures StageOk(s.headers, s.order, s.cons[t])
    ensures s.lo <= Live(s) <= Num(s.cons[t].from) && Kept(s) <= Live(s) && Base(Live(s)) <= s.cons[t].from && s.cons[t].from < s.cons[t].end
    ensures Num(s.cons[t].from) <= Num(s.cons[t].end - 1)
    ensures s.cons[t].end <= s.tail
  {
    assert ConsumerOk(s.order, s.flags, s.cells, s.elems, s.owner, Live(s), s.headers, t, s.cons[t]);
    Windows(s);
    NumAtLeast(s.cons[t].from, Live(s));
    NumMonotone(s.cons[t].from, s.cons[t].end - 1);
  }

  lemma LoadHeaderMoves(s: State, t: Tid)
    requires Inv(s) && t < |s.cons| && s.cons[t].Busy? && s.cons[t].stage == LoadHeader
    ensures s.headers != [] && Inv(SetConsumer(s, t, s.cons[t].(stage := LoadFront(|s.headers| - 1))))
  {
    ConsumerFacts(s, t);
    LoadHeaderStage(s.headers, s.order, s.lo, s.tail, s.slotsUsed, s.indexSize, s.nextSlot, s.cons[t]);
    StageMoves(s, t, s.cons[t], LoadFront(|s.headers| - 1));
  }

  /** What is claimed is published in the current header. */
  lemma LoadHeaderStage(headers: seq<Header>, order: seq<Block>, lo: nat, tail: nat, used: nat, size: nat, slot: nat, c: Consumer)
    requires CurrentOk(headers, order, lo, tail, used, size, slot)
    requires c.Busy? && c.stage == LoadHeader && c.from < c.end <= tail && StageOk(headers, order, c)
    ensures headers != [] && StageOk(headers, order, c.(stage := LoadFront(|headers| - 1)))
  {
    NumAtLeast(c.end - 1, Last(headers).frontNum + 1);
  }

  lemma LoadFrontMoves(s: State, t: Tid, h: nat)
    requires Inv(s) && t < |s.cons| && s.cons[t].Busy? && s.cons[t].stage == LoadFront(h)
    ensures h < |s.headers|
    ensures Inv(SetConsumer(s, t, s.cons[t].(stage := ReadBase(h, s.headers[h].front, s.headers[h].frontNum))))
  {
    ConsumerFacts(s, t);
    assert HeaderOk(s.headers[h], s.order, Kept(s));
    StageMoves(s, t, s.cons[t], ReadBase(h, s.headers[h].front, s.headers[h].frontNum));
  }

  /** The slot computed from any header and any front still names the block of the claimed index. */
  lemma ReadBaseMoves(s: State, t: Tid, h: nat, front: int, num: int) returns (slot: nat)
    requires Inv(s) && t < |s.cons| && s.cons[t].Busy? && s.cons[t].stage == ReadBase(h, front, num)
    ensures h < |s.headers| && 0 <= front < |s.headers[h].entries| && s.headers[h].size > 0
    ensures slot == Lookup(front, s.headers[h].entries[front].base, Base(Num(s.cons[t].first)), |s.headers[h].entries|)
    ensures s.headers[h].first <= Num(s.cons[t].first) && slot == SlotOf(Num(s.cons[t].first) - s.headers[h].first, s.headers[h].size)
    ensures Inv(SetConsumer(s, t, s.cons[t].(stage := ReadBlock(h, slot))))
  {
    ConsumerFacts(s, t);
    slot := ReadBaseSlot(s.headers, s.order, Kept(s), s.cons[t], h, front, num);
    StageMoves(s, t, s.cons[t], ReadBlock(h, slot));
  }

  lemma ReadBaseSlot(headers: seq<Header>, order: seq<Block>, low: nat, c: Consumer, h: nat, front: int, num: int) returns (slot: nat)
    requires HeadersOk(headers, order, low) && StageOk(headers, order, c)
    requires c.Busy? && c.stage == ReadBase(h, front, num) && c.from < c.end && low <= Num(c.from) <= Num(c.end - 1)
    ensures h < |headers| && 0 <= front < |headers[h].entries|
    ensures slot == Lookup(front, headers[h].entries[front].base, Base(Num(c.first)), |headers[h].entries|)
    ensures headers[h].size > 0 && headers[h].first <= Num(c.first)
    ensures slot == SlotOf(Num(c.first) - headers[h].first, headers[h].size)
    ensures StageOk(headers, order, c.(stage := ReadBlock(h, slot)))
  {
    var hd, n := headers[h], Num(c.from);
    assert HeaderOk(hd, order, low);
    assert EntryAt(hd, order, num);
    LookupIsSlot(hd.first, num - hd.first, n - hd.first, hd.size);
    slot := SlotOf(n - hd.first, hd.size);
  }

  lemma ReadBlockMoves(s: State, t: Tid, h: nat, slot: nat)
    requires Inv(s) && t < |s.cons| && s.cons[t].Busy? && s.cons[t].stage == ReadBlock(h, slot)
    ensures h < |s.headers| && slot < |s.headers[h].entries|
    ensures Inv(SetConsumer(s, t, s.cons[t].(stage := Take(h, slot, s.headers[h].entries[slot].block))))
  {
    ConsumerFacts(s, t);
    var c := s.cons[t];
    assert HeaderOk(s.headers[h], s.order, Kept(s));
    assert EntryAt(s.headers[h], s.order, Num(c.from));
    StageMoves(s, t, c, Take(h, slot, s.headers[h].entries[slot].block));
  }

  /** The element taken at index i is the i-th one enqueued. */
  lemma TakeIsFifo(s: State, t: Tid, h: nat, slot: nat, b: Block)
    requires Inv(s) && t < |s.cons| && s.cons[t].Busy? && s.cons[t].stage == Take(h, slot, b)
    ensures h < |s.headers| && b < |s.cells| && |s.cells[b]| == BLOCK_SIZE && s.cons[t].index < |s.elems|
    ensures InMemory(s.order, |s.cells|, s.cons[t].index) && b == s.order[Num(s.cons[t].index)]
    ensures s.cells[b][Off(s.cons[t].index)] == Full(s.elems[s.cons[t].index])
  {
    ConsumerFacts(s, t);
    assert CellOk(s.order, s.cells, s.elems, s.cons[t].index);
  }

  lemma TakeMoves(s: State, t: Tid, c: Consumer, h: nat, slot: nat, b: Block)
    requires Inv(s) && t < |s.cons| && s.cons[t] == c && c.Busy? && c.stage == Take(h, slot, b)
    ensures b < |s.cells| && |s.cells[b]| == BLOCK_SIZE && s.cells[b][Off(c.index)].Full?
    ensures Inv(TakeStep(s, t, c, h, slot, b))
  {
    TakeIsFifo(s, t, h, slot, b);
    var s' := TakeStep(s, t, c, h, slot, b);
    TakeShape(s, t, c, h, slot, b, s');
    TakeData(s, t, c, s'.cons[t]);
    TakeRest(s, s');
  }

  lemma TakeShape(s: State, t: Tid, c: Consumer, h: nat, slot: nat, b: Block, s': State)
    requires t < |s.cons| && s.cons[t] == c && c.Busy? && c.stage == Take(h, slot, b) && c.index < |s.elems|
    requires b < |s.cells| && |s.cells[b]| == BLOCK_SIZE && s.cells[b][Off(c.index)] == Full(s.elems[c.index])
    requires InMemory(s.order, |s.cells|, c.index) && b == s.order[Num(c.index)] && s' == TakeStep(s, t, c, h, slot, b)
    ensures s' == s.(cells := Put(s.order, s.cells, c.index, Raw), cons := s.cons[t := s'.cons[t]])
    ensures s'.cons[t] == c.(index := c.index + 1, got := c.got + [s.elems[c.index]],
                             stage := if c.index + 1 == c.end || Off(c.index + 1) == 0 then SetEmpty(h, slot, b) else c.stage)
  {
  }

  lemma TakeData(s: State, t: Tid, c: Consumer, c': Consumer)
    requires Inv(s) && t < |s.cons| && s.cons[t] == c && c.Busy? && c.stage.Take? && c.index < |s.elems|
    requires InMemory(s.order, |s.cells|, c.index) && |s.cells[s.order[Num(c.index)]]| == BLOCK_SIZE
    requires c' == c.(index := c.index + 1, got := c.got + [s.elems[c.index]],
                      stage := if c.index + 1 == c.end || Off(c.index + 1) == 0
                               then SetEmpty(c.stage.h, c.stage.slot, c.stage.block) else c.stage)
    ensures CellsOn(s.order, Put(s.order, s.cells, c.index, Raw), s.elems, s.head, |s.elems|)
    ensures ConsumersOk(s.order, s.flags, Put(s.order, s.cells, c.index, Raw), s.elems, s.owner, Live(s), s.headers, s.cons[t := c'])
  {
    ConsumerFacts(s, t);
    Windows(s);
    CellsFrame(s.order, Live(s), s.cells, s.elems, c.index, Raw, s.head, |s.elems|);
    TakeOwn(s.order, s.flags, s.cells, s.elems, s.owner, Live(s), s.headers, s.cons, t, c, c');
  }

  lemma TakeOwn(order: seq<Block>, flags: seq<seq<bool>>, cells: seq<seq<Cell>>, elems: seq<Elem>, owner: seq<Tid>,
                lo: nat, headers: seq<Header>, cons: seq<Consumer>, t: Tid, c: Consumer, c': Consumer)
    requires ConsumersOk(order, flags, cells, elems, owner, lo, headers, cons) && Distinct(order, lo)
    requires t < |cons| && cons[t] == c && c.Busy? && c.stage.Take? && c.index < |elems|
    requires InMemory(order, |cells|, c.index) && |cells[order[Num(c.index)]]| == BLOCK_SIZE
    requires c' == c.(index := c.index + 1, got := c.got + [elems[c.index]],
                      stage := if c.index + 1 == c.end || Off(c.index + 1) == 0
                               then SetEmpty(c.stage.h, c.stage.slot, c.stage.block) else c.stage)
    ensures ConsumersOk(order, flags, Put(order, cells, c.index, Raw), elems, owner, lo, headers, cons[t := c'])
  {
    assert ConsumerOk(order, flags, cells, elems, owner, lo, headers, t, c);
    TakeJob(order, flags, cells, elems, owner, lo, headers, t, c, c');
    TakeConsumers(order, flags, cells, elems, owner, lo, headers, cons, t, c.index, c');
  }

  lemma TakeRest(s: State, s': State)
    requires Inv(s) && s' == s.(cells := s'.cells, cons := s'.cons)
    requires |s'.cells| == |s.cells| && forall b :: 0 <= b < |s.cells| ==> |s'.cells[b]| == |s.cells[b]|
    requires CellsOn(s.order, s'.cells, s.elems, s.head, |s.elems|)
    requires ConsumersOk(s.order, s.flags, s'.cells, s.elems, s.owner, Live(s), s.headers, s'.cons)
    ensures Inv(s')
  {
  }

  lemma TakeJob(order: seq<Block>, flags: seq<seq<bool>>, cells: seq<seq<Cell>>, elems: seq<Elem>, owner: seq<Tid>,
                lo: nat, headers: seq<Header>, t: Tid, c: Consumer, c': Consumer)
    requires Distinct(order, lo) && c.Busy? && c.stage.Take? && ConsumerOk(order, flags, cells, elems, owner, lo, headers, t, c)
    requires InMemory(order, |cells|, c.index) && |cells[order[Num(c.index)]]| == BLOCK_SIZE && c.index < c.end && c.index < |elems|
    requires c' == c.(index := c.index + 1, got := c.got + [elems[c.index]],
                      stage := if c.index + 1 == c.end || Off(c.index + 1) == 0
                               then SetEmpty(c.stage.h, c.stage.slot, c.stage.block) else c.stage)
    ensures ConsumerOk(order, flags, Put(order, cells, c.index, Raw), elems, owner, lo, headers, t, c')
  {
    var i := c.index;
    CellsFrame(order, lo, cells, elems, i, Raw, i + 1, c.end);
    assert elems[c.first..i + 1] == elems[c.first..i] + [elems[i]];
    if Off(i + 1) == 0 {
      NextBlockNum(i);
    } else {
      NextInBlock(i);
    }
  }

  lemma TakeConsumers(order: seq<Block>, flags: seq<seq<bool>>, cells: seq<seq<Cell>>, elems: seq<Elem>, owner: seq<Tid>,
                      lo: nat, headers: seq<Header>, cons: seq<Consumer>, t: Tid, j: nat, c': Consumer)
    requires ConsumersOk(order, flags, cells, elems, owner, lo, headers, cons) && t < |cons| && Distinct(order, lo)
    requires InMemory(order, |cells|, j) && |cells[order[Num(j)]]| == BLOCK_SIZE && Base(lo) <= j < |owner| && owner[j] == t
    requires ConsumerOk(order, flags, Put(order, cells, j, Raw), elems, owner, lo, headers, t, c')
    ensures ConsumersOk(order, flags, Put(order, cells, j, Raw), elems, owner, lo, headers, cons[t := c'])
  {
    var cells', cons' := Put(order, cells, j, Raw), cons[t := c'];
    forall u | 0 <= u < |cons'| ensures ConsumerOk(order, flags, cells', elems, owner, lo, headers, u, cons'[u]) {
      if u != t {
        assert ConsumerOk(order, flags, cells, elems, owner, lo, headers, u, cons[u]);
        JobTaken(order, flags, cells, elems, owner, lo, u, cons[u], t, j);
      }
    }
  }

  lemma SetEmptyMoves(s: State, t: Tid, c: Consumer, h: nat, slot: nat, b: Block)
    requires Inv(s) && t < |s.cons| && s.cons[t] == c && c.Busy? && c.stage == SetEmpty(h, slot, b)
    ensures h < |s.headers| && b < |s.flags| && c.from <= c.index
    ensures |s.flags[b]| == BLOCK_SIZE && Off(c.from) + (c.index - c.from) <= BLOCK_SIZE
    ensures Inv(SetEmptyStep(s, t, c, h, slot, b))
  {
    SetEmptyFlags(s, t, c);
    var flags' := Flag(s.order, s.flags, c.from, c.index);
    var c' := if c.index == c.end then Idle
              else c.(from := c.index, stage := ReadBlock(h, NextSlot(slot, s.headers[h].size)));
    SetEmptyOwn(s, t, c, c');
    SetEmptyRest(s, SetEmptyStep(s, t, c, h, slot, b), t, c, flags', c');
  }

  lemma SetEmptyOwn(s: State, t: Tid, c: Consumer, c': Consumer)
    requires Inv(s) && t < |s.cons| && s.cons[t] == c && c.Busy? && c.stage.SetEmpty?
    requires c.stage.h < |s.headers| && InMemory(s.order, |s.flags|, c.from) && |s.flags[s.order[Num(c.from)]]| == BLOCK_SIZE
    requires Base(Live(s)) <= c.from < c.index <= |s.owner| && Num(c.index - 1) == Num(c.from)
    requires Off(c.from) + (c.index - c.from) <= BLOCK_SIZE && forall k :: c.from <= k < c.index ==> s.owner[k] == t
    requires c' == if c.index == c.end then Idle
                   else c.(from := c.index, stage := ReadBlock(c.stage.h, NextSlot(c.stage.slot, s.headers[c.stage.h].size)))
    ensures ConsumersOk(s.order, Flag(s.order, s.flags, c.from, c.index), s.cells, s.elems, s.owner, Live(s), s.headers, s.cons[t := c'])
  {
    assert ConsumerOk(s.order, s.flags, s.cells, s.elems, s.owner, Live(s), s.headers, t, c);
    SetEmptyJob(s.order, s.flags, s.cells, s.elems, s.owner, Live(s), s.headers, t, c, c');
    SetEmptyConsumers(s.order, s.flags, s.cells, s.elems, s.owner, Live(s), s.headers, s.cons, t, c.from, c.index, c');
  }

  lemma SetEmptyRest(s: State, s': State, t: Tid, c: Consumer, flags': seq<seq<bool>>, c': Consumer)
    requires Inv(s) && t < |s.cons| && c.Busy? && c.first <= c.end <= |s.elems|
    requires c.index == c.end ==> c.got == s.elems[c.first..c.end]
    requires |flags'| == |s.flags| && forall b :: 0 <= b < |s.flags| ==> |flags'[b]| == |s.flags[b]|
    requires FlagsOn(s.order, flags', s.head, Base(ReadyBlocks(s.prod, s.order)))
    requires ConsumersOk(s.order, flags', s.cells, s.elems, s.owner, Live(s), s.headers, s.cons[t := c'])
    requires s' == s.(flags := flags', cons := s.cons[t := c'],
                      log := if c.index == c.end then s.log + [Delivery(t, c.first, c.end, c.got)] else s.log)
    ensures Inv(s')
  {
    assert forall j :: 0 <= j < |s.log| ==> DeliveryOk(s.log[j], s.elems);
  }

  /** The flags of indices [from, index), all in one block, are set. */
  ghost function Flag(order: seq<Block>, flags: seq<seq<bool>>, from: nat, index: nat): (r: seq<seq<bool>>)
    requires InMemory(order, |flags|, from) && from <= index && Off(from) + (index - from) <= |flags[order[Num(from)]]|
    ensures |r| == |flags| && forall b :: 0 <= b < |flags| ==> |r[b]| == |flags[b]|
  {
    flags[order[Num(from)] := Flagged(flags[order[Num(from)]], Off(from), index - from)]
  }

  lemma SetEmptyFlags(s: State, t: Tid, c: Consumer)
    requires Inv(s) && t < |s.cons| && s.cons[t] == c && c.Busy? && c.stage.SetEmpty?
    ensures c.stage.h < |s.headers| && c.stage.block < |s.flags| && |s.flags[c.stage.block]| == BLOCK_SIZE
    ensures Base(Live(s)) <= c.from < c.index <= c.end <= s.head
    ensures InMemory(s.order, |s.flags|, c.from) && c.stage.block == s.order[Num(c.from)] && Num(c.index - 1) == Num(c.from)
    ensures Off(c.from) + (c.index - c.from) <= BLOCK_SIZE
    ensures c.first <= c.from < c.end <= |s.elems| && c.got == s.elems[c.first..c.index]
    ensures (forall k :: c.from <= k < c.index ==> s.owner[k] == t) && c.stage.h < |s.headers| && s.headers[c.stage.h].size > 0
    ensures FlagsOn(s.order, Flag(s.order, s.flags, c.from, c.index), s.head, Base(ReadyBlocks(s.prod, s.order)))
  {
    Windows(s);
    assert ConsumerOk(s.order, s.flags, s.cells, s.elems, s.owner, Live(s), s.headers, t, c);
    SetEmptyKnows(s.order, s.flags, s.cells, s.elems, s.owner, Live(s), s.headers, t, c);
    FlaggedFrame(s.order, Live(s), s.flags, c.from, c.index, s.head, Base(ReadyBlocks(s.prod, s.order)));
  }

  lemma SetEmptyKnows(order: seq<Block>, flags: seq<seq<bool>>, cells: seq<seq<Cell>>, elems: seq<Elem>, owner: seq<Tid>,
                      lo: nat, headers: seq<Header>, t: Tid, c: Consumer)
    requires ConsumerOk(order, flags, cells, elems, owner, lo, headers, t, c) && c.Busy? && c.stage.SetEmpty?
    ensures c.stage.h < |headers| && headers[c.stage.h].size > 0
    ensures Base(lo) <= c.from < c.index <= c.end <= |owner| && c.first <= c.from && c.end <= |elems|
    ensures InMemory(order, |flags|, c.from) && c.stage.block == order[Num(c.from)] && |flags[c.stage.block]| == BLOCK_SIZE
    ensures Num(c.index - 1) == Num(c.from) && Off(c.from) + (c.index - c.from) <= BLOCK_SIZE
    ensures c.got == elems[c.first..c.index] && forall k :: c.from <= k < c.index ==> owner[k] == t
  {
    assert FlagClear(order, flags, c.from);
  }

  lemma SetEmptyJob(order: seq<Block>, flags: seq<seq<bool>>, cells: seq<seq<Cell>>, elems: seq<Elem>, owner: seq<Tid>,
                    lo: nat, headers: seq<Header>, t: Tid, c: Consumer, c': Consumer)
    requires Distinct(order, lo) && c.Busy? && c.stage.SetEmpty? && ConsumerOk(order, flags, cells, elems, owner, lo, headers, t, c)
    requires InMemory(order, |flags|, c.from) && |flags[order[Num(c.from)]]| == BLOCK_SIZE
    requires c.from < c.index && Off(c.from) + (c.index - c.from) <= BLOCK_SIZE
    requires c.stage.h < |headers| && headers[c.stage.h].size > 0
    requires c' == if c.index == c.end then Idle
                   else c.(from := c.index, stage := ReadBlock(c.stage.h, NextSlot(c.stage.slot, headers[c.stage.h].size)))
    ensures ConsumerOk(order, Flag(order, flags, c.from, c.index), cells, elems, owner, lo, headers, t, c')
  {
    if c.index < c.end {
      FlaggedFrame(order, lo, flags, c.from, c.index, c.index, c.end);
      var n := Num(c.from);
      NumUnique(c.index, n + 1);
      var hd := headers[c.stage.h];
      assert SlotOf(n + 1 - hd.first, hd.size) == NextSlot(SlotOf(n - hd.first, hd.size), hd.size);
    }
  }

  lemma SetEmptyConsumers(order: seq<Block>, flags: seq<seq<bool>>, cells: seq<seq<Cell>>, elems: seq<Elem>, owner: seq<Tid>,
                          lo: nat, headers: seq<Header>, cons: seq<Consumer>, t: Tid, from: nat, index: nat, c': Consumer)
    requires ConsumersOk(order, flags, cells, elems, owner, lo, headers, cons) && t < |cons| && Distinct(order, lo)
    requires InMemory(order, |flags|, from) && |flags[order[Num(from)]]| == BLOCK_SIZE && Base(lo) <= from < index <= |owner|
    requires Num(index - 1) == Num(from) && Off(from) + (index - from) <= BLOCK_SIZE
    requires forall k :: from <= k < index ==> owner[k] == t
    requires ConsumerOk(order, Flag(order, flags, from, index), cells, elems, owner, lo, headers, t, c')
    ensures ConsumersOk(order, Flag(order, flags, from, index), cells, elems, owner, lo, headers, cons[t := c'])
  {
    var flags', cons' := Flag(order, flags, from, index), cons[t := c'];
    forall u | 0 <= u < |cons'| ensures ConsumerOk(order, flags', cells, elems, owner, lo, headers, u, cons'[u]) {
      if u != t {
        assert ConsumerOk(order, flags, cells, elems, owner, lo, headers, u, cons[u]);
        JobFlagged(order, flags, cells, elems, owner, lo, u, cons[u], t, from, index);
      }
    }
  }

  lemma ConsumeInv(s: State, t: Tid)
    requires Inv(s) && Enabled(s, Consume(t))
    ensures InBounds(s, Consume(t)) && Inv(Apply(s, Consume(t)))
  {
    var c := s.cons[t];
    match c.stage
    case LoadHeader => LoadHeaderMoves(s, t);
    case LoadFront(h) => LoadFrontMoves(s, t, h);
    case ReadBase(h, front, num) => var slot := ReadBaseMoves(s, t, h, front, num);
    case ReadBlock(h, slot) => ReadBlockMoves(s, t, h, slot);
    case Take(h, slot, b) => TakeMoves(s, t, c, h, slot, b); TakeIsFifo(s, t, h, slot, b);
    case SetEmpty(h, slot, b) => SetEmptyMoves(s, t, c, h, slot, b);
  }
}
