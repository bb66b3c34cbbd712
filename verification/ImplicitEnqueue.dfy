/** Acquiring blocks, constructing elements and publishing them keep the invariant of an implicit queue. */
module ImplicitEnqueue {
  import opened Basics
  import opened Blocks
  import opened Sequences
  import opened Deliveries
  import opened ImplicitQueue
  import opened ImplicitInvariant
  import opened ImplicitIndex
  import opened ImplicitFrames

  // ---- Getting a block ----

  /** The block that holds the next index, if it is partly filled, is still the producer's. */
  lemma TailBlockIsLive(s: State)
    requires Inv(s) && Off(s.tail) != 0
    ensures |s.phase| > 0 && s.phase[|s.phase| - 1].Live?
    ensures s.order[|s.phase| - 1] < |s.where| && s.where[s.order[|s.phase| - 1]] == |s.phase| - 1
  {
    var n := |s.phase| - 1;
    if s.tail == Base(|s.phase|) {
      NumUnique(s.tail, |s.phase|);
    }
    assert PhaseAt(s.phase, s.order, s.counters, s.done, s.lo, n);
    assert NumberAt(s.order, s.phase, s.where, Back(s.prod), n);
  }

  ghost predicate Obtainable(where: seq<int>, pool: set<Block>, b: Block) {
    b == |where| || (b < |where| && where[b] == IN_POOL)
  }

  ghost function WhereWith(where: seq<int>, b: Block, n: nat): seq<int>
    requires b <= |where|
  {
    if b < |where| then where[b := n] else where + [n]
  }

  /** Blocks the producer or a consumer has are not obtainable. */
  lemma HeldIsOther(order: seq<Block>, phase: seq<Phase>, where: seq<int>, pool: set<Block>, b: Block, n: nat)
    requires PlacesOk(order, phase, where, pool, 0) && Obtainable(where, pool, b) && Holds(order, phase, 0, n)
    ensures order[n] < |where| && where[order[n]] == n && order[n] != b
  {
    assert NumberAt(order, phase, where, 0, n);
  }

  lemma GetPlaces(order: seq<Block>, phase: seq<Phase>, where: seq<int>, pool: set<Block>, b: Block)
    requires PlacesOk(order, phase, where, pool, 0) && Obtainable(where, pool, b)
    ensures PlacesOk(order + [b], phase, WhereWith(where, b, |order|), pool - {b}, 0)
  {
    var order', where', pool' := order + [b], WhereWith(where, b, |order|), pool - {b};
    forall m | 0 <= m < |order'| ensures NumberAt(order', phase, where', 0, m) {
      if m < |order| {
        assert NumberAt(order, phase, where, 0, m);
      }
    }
    forall a | 0 <= a < |where'| ensures PlaceAt(order', phase, where', pool', 0, a) {
      if a < |where| {
        assert PlaceAt(order, phase, where, pool, 0, a);
      }
    }
  }

  /** The block acquired before, to which the next one is linked, is the last one in order. */
  ghost predicate HasPrevious(s: State, op: Operation) {
    (Off(s.tail) != 0 || op.firstAlloc != Null) ==>
      && |s.order| > 0 && op.tailBlock == At(s.order[|s.order| - 1]) && op.tailBlock.block < |s.next|
      && Holds(s.order, s.phase, 0, |s.order| - 1)
  }

  lemma GetObtainable(s: State, op: Operation, e: EntryId, b: Block)
    requires Inv(s) && s.prod == Running(op, Requisition(e)) && (b in s.pool || b == |s.next|)
    ensures Obtainable(s.where, s.pool, b) && e == s.ent[|s.order|] && e < |s.vals|
    ensures GetBlockInBounds(s, op, e, b)
    ensures HasPrevious(s, op)
  {
    if b in s.pool {
      assert PlaceAt(s.order, s.phase, s.where, s.pool, 0, b);
    }
    assert KeyAt(s.keys, s.ent, |s.order|);
    if Off(s.tail) != 0 {
      TailBlockIsLive(s);
    }
    if |s.phase| < |s.order| {
      assert NumberAt(s.order, s.phase, s.where, 0, |s.order| - 1);
    }
  }

  lemma GetChain(s: State, op: Operation, e: EntryId, b: Block, next: seq<Ptr>)
    requires Inv(s) && s.prod == Running(op, Requisition(e)) && Obtainable(s.where, s.pool, b)
    requires b < |next| && |s.next| <= |next| && forall a :: 0 <= a < |s.next| ==> next[a] == s.next[a]
    requires HasPrevious(s, op) && |s.where| == |s.next|
    ensures ChainOk(Linked(next, op, s.tail, b), s.order + [b], |s.phase|, s.tail, 0)
  {
    var next', order' := Linked(next, op, s.tail, b), s.order + [b];
    var last := |s.order| - 1;
    if Off(s.tail) != 0 || op.firstAlloc != Null {
      HeldIsOther(s.order, s.phase, s.where, s.pool, b, last);
    }
    forall m | |s.phase| <= m < |order'| ensures ChainAt(next', order', m) {
      if m < |s.order| {
        assert ChainAt(s.next, s.order, m);
        HeldIsOther(s.order, s.phase, s.where, s.pool, b, m);
      }
    }
    if Off(s.tail) != 0 {
      TailBlockIsLive(s);
      HeldIsOther(s.order, s.phase, s.where, s.pool, b, |s.phase| - 1);
    }
  }

  /** The entry of the next number is given block b. */
  lemma GetValues(vals: seq<Value>, keys: seq<Key>, ent: seq<EntryId>, lo: nat, order: seq<Block>, phase: seq<Phase>, b: Block)
    requires ValuesOk(vals, ent, lo, order, phase, |phase|, |order|) && KeysOk(keys, ent, lo) && |keys| == |vals|
    requires lo <= |phase| <= |order| < |ent|
    ensures ent[|order|] < |vals|
    ensures ValuesOk(vals[ent[|order|] := Is(b)], ent, lo, order + [b], phase, |phase|, -1)
  {
    var n := |order|;
    assert KeyAt(keys, ent, n);
    var vals' := vals[ent[n] := Is(b)];
    forall m | lo <= m < |ent| ensures ValueAt(vals', ent, order + [b], phase, |phase|, m) {
      if m != n {
        OtherEntry(keys, ent, lo, m, n);
        assert ValueAt(vals, ent, order, phase, |phase|, m);
      }
    }
  }

  lemma GetPhases(s: State, b: Block, counters: seq<nat>)
    requires PlacesOk(s.order, s.phase, s.where, s.pool, 0) && Obtainable(s.where, s.pool, b)
    requires PhasesOk(s.phase, s.order, s.counters, s.done, s.lo) && FreshCounters(s.counters, s.order, |s.phase|)
    requires b < |counters| && |s.counters| <= |counters| && forall a :: 0 <= a < |s.counters| && a != b ==> counters[a] == s.counters[a]
    requires counters[b] == 0
    ensures PhasesOk(s.phase, s.order + [b], counters, s.done, s.lo) && FreshCounters(counters, s.order + [b], |s.phase|)
  {
    var order' := s.order + [b];
    forall n | 0 <= n < |s.phase| ensures PhaseAt(s.phase, order', counters, s.done, s.lo, n) {
      assert PhaseAt(s.phase, s.order, s.counters, s.done, s.lo, n);
      if s.phase[n].Live? {
        HeldIsOther(s.order, s.phase, s.where, s.pool, b, n);
      }
    }
    forall n | |s.phase| <= n < |order'| ensures order'[n] < |counters| && counters[order'[n]] == 0 {
      if n < |s.order| {
        HeldIsOther(s.order, s.phase, s.where, s.pool, b, n);
      }
    }
  }

  /** The block in which construction starts: the tail block, or the first new one on a boundary. */
  lemma FirstBlock(op: Operation, order: seq<Block>, n: nat, tail: nat, tailBlock: Ptr)
    requires OperationOk(op, order, n, tail, tailBlock) && TailOk(tail, tailBlock, order, n) && n < |order|
    ensures Num(tail) < |order|
    ensures (if Off(tail) == 0 then op.firstAlloc else op.startBlock) == At(order[Num(tail)])
  {
    if Off(tail) == 0 {
      BlocksForUnique(tail, Num(tail));
    } else {
      BlocksForUnique(tail, Num(tail) + 1);
    }
  }

  lemma GetOperation(s: State, op: Operation, e: EntryId, b: Block, prod': Producer)
    requires Inv(s) && s.prod == Running(op, Requisition(e))
    requires var op' := WithBlock(op, b);
             prod' == Running(op', if op'.need == 0 then Construct(0, if Off(s.tail) == 0 then op'.firstAlloc else op'.startBlock)
                                   else Acquire)
    ensures ProducerOk(prod', s.order + [b], |s.phase|, s.tail, s.tailBlock, s.elems)
  {
    var op', order' := WithBlock(op, b), s.order + [b];
    assert OperationOk(op', order', |s.phase|, s.tail, s.tailBlock);
    assert TailOk(s.tail, s.tailBlock, order', |s.phase|);
    if op'.need == 0 {
      FirstBlock(op', order', |s.phase|, s.tail, s.tailBlock);
    }
  }

  lemma GetData(s: State, b: Block, order': seq<Block>, where': seq<int>, cells': seq<seq<Cell>>)
    requires Inv(s) && Obtainable(s.where, s.pool, b) && order' == s.order + [b] && where' == WhereWith(s.where, b, |s.order|)
    requires s.cells <= cells'
    ensures CellsOn(order', where', cells', s.elems, s.head, |s.elems|)
    ensures ConsumersOk(order', where', s.phase, cells', s.elems, s.owner, s.done, s.headers, s.cons)
  {
    forall n: nat ensures Stays(s.order, s.where, s.cells, order', where', cells', n) {
    }
    CellsStay(s.order, s.where, s.cells, s.elems, order', where', cells', s.head, |s.elems|);
    ConsumersStay(s.order, s.where, s.phase, s.cells, s.elems, s.owner, s.done, s.headers, s.cons, order', where', cells');
  }

  lemma GetBlockMoves(s: State, op: Operation, e: EntryId, b: Block)
    requires Inv(s) && s.prod == Running(op, Requisition(e)) && (b in s.pool || b == |s.next|)
    ensures GetBlockInBounds(s, op, e, b) && Inv(GetBlockStep(s, op, e, b))
  {
    GetObtainable(s, op, e, b);
    var s' := GetMemory(s, op, e, b);
    GetValues(s.vals, s.keys, s.ent, s.lo, s.order, s.phase, b);
    GetOperation(s, op, e, b, s'.prod);
    GetData(s, b, s'.order, s'.where, s'.cells);
    GetRest(s, op, e, s');
  }

  lemma GetMemory(s: State, op: Operation, e: EntryId, b: Block) returns (s': State)
    requires Inv(s) && s.prod == Running(op, Requisition(e)) && (b in s.pool || b == |s.next|) && GetBlockInBounds(s, op, e, b)
    requires Obtainable(s.where, s.pool, b) && HasPrevious(s, op)
    ensures s' == GetBlockStep(s, op, e, b) && s'.where == WhereWith(s.where, b, |s.order|) && s.cells <= s'.cells
    ensures MemoryOk(s'.next, s'.counters, s'.cells, s'.where)
    ensures PlacesOk(s'.order, s.phase, s'.where, s'.pool, 0) && ChainOk(s'.next, s'.order, |s.phase|, s.tail, 0)
    ensures PhasesOk(s.phase, s'.order, s'.counters, s.done, s.lo) && FreshCounters(s'.counters, s'.order, |s.phase|)
  {
    s' := GetBlockStep(s, op, e, b);
    assert s'.pool == s.pool - {b};
    GetPlaces(s.order, s.phase, s.where, s.pool, b);
    GetChain(s, op, e, b, TakeFromPool(s, b).next);
    GetPhases(s, b, s'.counters);
  }

  lemma GetRest(s: State, op: Operation, e: EntryId, s': State)
    requires Inv(s) && s.prod == Running(op, Requisition(e)) && |s.order| < |s'.ent|
    requires s' == s.(next := s'.next, counters := s'.counters, cells := s'.cells, where := s'.where, pool := s'.pool,
                      vals := s'.vals, order := s'.order, prod := s'.prod)
    requires MemoryOk(s'.next, s'.counters, s'.cells, s'.where)
    requires s'.prod.Running? && (s'.prod.stage.Acquire? || s'.prod.stage.Construct?) && |s'.order| == |s.order| + 1
    requires PlacesOk(s'.order, s.phase, s'.where, s'.pool, 0) && ChainOk(s'.next, s'.order, |s.phase|, s.tail, 0)
    requires PhasesOk(s.phase, s'.order, s'.counters, s.done, s.lo) && FreshCounters(s'.counters, s'.order, |s.phase|)
    requires ValuesOk(s'.vals, s.ent, s.lo, s'.order, s.phase, |s.phase|, -1) && |s'.vals| == |s.vals|
    requires ProducerOk(s'.prod, s'.order, |s.phase|, s.tail, s.tailBlock, s.elems)
    requires CellsOn(s'.order, s'.where, s'.cells, s.elems, s.head, |s.elems|)
    requires ConsumersOk(s'.order, s'.where, s.phase, s'.cells, s.elems, s.owner, s.done, s.headers, s.cons)
    ensures Inv(s')
  {
  }

  // ---- Constructing ----

  lemma ConstructDone(s: State, op: Operation, k: nat, into: Ptr)
    requires Inv(s) && s.prod == Running(op, Construct(k, into)) && k >= |op.items|
    ensures Inv(s.(prod := Running(op, StoreTail)))
  {
    assert op.items[..|op.items|] == op.items;
  }

  /** The block in hand is that of the next index, and is the producer's. */
  lemma ConstructPlace(s: State, op: Operation, k: nat, into: Ptr)
    requires Inv(s) && s.prod == Running(op, Construct(k, into)) && k < |op.items|
    ensures |s.elems| == s.tail + k && |s.cells| == |s.next| && Placed(s.order, s.where, s.cells, |s.elems|)
    ensures into == At(s.order[Num(|s.elems|)]) && |s.order| == BlocksFor(s.tail + |op.items|)
    ensures |s.phase| - 1 <= Num(|s.elems|)
    ensures Num(|s.elems|) < |s.phase| ==> Off(s.tail) != 0
  {
    var n := Num(|s.elems|);
    if n < |s.phase| {
      NumAtLeast(|s.elems|, |s.phase|);
      if s.tail == Base(|s.phase|) {
      } else {
        NumUnique(s.tail, |s.phase| - 1);
        NumUnique(|s.elems|, |s.phase| - 1);
        assert Base(|s.phase| - 1) < s.tail;
        TailBlockIsLive(s);
      }
    }
    assert NumberAt(s.order, s.phase, s.where, 0, n);
  }

  /** Where construction goes on after index i. */
  lemma NextBlock(next: seq<Ptr>, order: seq<Block>, where: seq<int>, op: Operation, n: nat, tail: nat, tailBlock: Ptr, i: nat)
    requires ChainOk(next, order, n, tail, 0) && OperationOk(op, order, n, tail, tailBlock)
    requires |order| == BlocksFor(tail + |op.items|) && TailOk(tail, tailBlock, order, n)
    requires tail <= i < tail + |op.items| && Num(i) < |order| && n - 1 <= Num(i)
    requires Num(i) < n ==> Off(tail) != 0
    requires order[Num(i)] < |where| && where[order[Num(i)]] == Num(i)
    requires |order| > 0 && (n < |order| ==> order[|order| - 1] < |where| && where[order[|order| - 1]] == |order| - 1)
    ensures i + 1 < tail + |op.items| ==>
              && Num(i + 1) < |order|
              && (Off(i + 1) == 0 && At(order[Num(i)]) != op.tailBlock ==> order[Num(i)] < |next|)
              && At(order[Num(i + 1)]) ==
                 if Off(i + 1) == 0 && At(order[Num(i)]) != op.tailBlock then next[order[Num(i)]] else At(order[Num(i)])
  {
    var m := Num(i);
    if i + 1 < tail + |op.items| {
      NumAtLeast(i + 1, |order|);
      if Off(i + 1) == 0 {
        NextBlockNum(i);
        assert m >= n ==> ChainAt(next, order, m);
      } else {
        NextInBlock(i);
      }
    }
  }

  lemma ConstructMoves(s: State, op: Operation, k: nat, into: Ptr)
    requires Inv(s) && s.prod == Running(op, Construct(k, into)) && k < |op.items|
    ensures into.At? && into.block < |s.cells| == |s.next| && |s.cells[into.block]| == BLOCK_SIZE
    ensures Inv(ConstructStep(s, op, k, into.block))
  {
    ConstructPlace(s, op, k, into);
    var s' := ConstructStep(s, op, k, into.block);
    ConstructTarget(s, op, k, into);
    ConstructData(s, op.items[k]);
    ConstructRest(s, op, k, s');
  }

  lemma ConstructTarget(s: State, op: Operation, k: nat, into: Ptr)
    requires Inv(s) && s.prod == Running(op, Construct(k, into)) && k < |op.items|
    requires into.At? && into.block < |s.cells| == |s.next| && |s.cells[into.block]| == BLOCK_SIZE
    ensures k + 1 < |op.items| ==>
              && Num(s.tail + k + 1) < |s.order|
              && ConstructStep(s, op, k, into.block).prod.stage.into == At(s.order[Num(s.tail + k + 1)])
  {
    ConstructPlace(s, op, k, into);
    if |s.phase| < |s.order| {
      assert NumberAt(s.order, s.phase, s.where, 0, |s.order| - 1);
    }
    NextBlock(s.next, s.order, s.where, op, |s.phase|, s.tail, s.tailBlock, s.tail + k);
  }

  lemma ConstructData(s: State, e: Elem)
    requires Inv(s) && Placed(s.order, s.where, s.cells, |s.elems|)
    ensures var cells' := Put(s.order, s.cells, |s.elems|, Full(e));
            && CellsOn(s.order, s.where, cells', s.elems + [e], s.head, |s.elems| + 1)
            && ConsumersOk(s.order, s.where, s.phase, cells', s.elems + [e], s.owner, s.done, s.headers, s.cons)
  {
    var i := |s.elems|;
    var cells' := Put(s.order, s.cells, i, Full(e));
    CellsFrame(s.order, s.where, s.cells, s.elems, i, Full(e), s.head, i);
    CellsMoreElems(s.order, s.where, cells', s.elems, e, s.head, i);
    assert CellOk(s.order, s.where, cells', s.elems + [e], i);
    ConsumersConstruct(s.order, s.where, s.phase, s.cells, s.elems, e, s.owner, s.done, s.headers, s.cons);
  }

  lemma ConstructRest(s: State, op: Operation, k: nat, s': State)
    requires Inv(s) && k < |op.items| && s.prod.Running? && s.prod.op == op && s.prod.stage.Construct? && s.prod.stage.k == k
    requires |s.elems| == s.tail + k
    requires s' == s.(cells := s'.cells, elems := s.elems + [op.items[k]], prod := s'.prod)
    requires s'.prod.Running? && s'.prod.op == op && s'.prod.stage.Construct? && s'.prod.stage.k == k + 1
    requires k + 1 < |op.items| ==> Num(s.tail + k + 1) < |s.order| && s'.prod.stage.into == At(s.order[Num(s.tail + k + 1)])
    requires |s'.cells| == |s.cells| && forall b :: 0 <= b < |s.cells| ==> |s'.cells[b]| == |s.cells[b]|
    requires CellsOn(s.order, s.where, s'.cells, s'.elems, s.head, |s'.elems|)
    requires ConsumersOk(s.order, s.where, s.phase, s'.cells, s'.elems, s.owner, s.done, s.headers, s.cons)
    ensures Inv(s')
  {
    SliceGrows(s.elems, s.tail, op.items, k);
    LogGrows(s.log, s.elems, op.items[k]);
  }

  // ---- Publishing ----

  lemma PublishPhases(s: State)
    requires PhasesOk(s.phase, s.order, s.counters, s.done, s.lo) && FreshCounters(s.counters, s.order, |s.phase|)
    requires |s.phase| <= |s.order| && s.lo <= |s.phase| && |s.done| <= Base(|s.phase|)
    ensures PhasesOk(s.phase + Repeat(|s.order| - |s.phase|, Live), s.order, s.counters, s.done, s.lo)
  {
    var phase' := s.phase + Repeat(|s.order| - |s.phase|, Live);
    forall n | 0 <= n < |phase'| ensures PhaseAt(phase', s.order, s.counters, s.done, s.lo, n) {
      if n < |s.phase| {
        assert PhaseAt(s.phase, s.order, s.counters, s.done, s.lo, n);
      } else {
        BaseMonotone(|s.phase|, n);
        CountNone(s.done, Base(n), Base(n + 1));
      }
    }
  }

  lemma PublishPlaces(order: seq<Block>, phase: seq<Phase>, where: seq<int>, pool: set<Block>)
    requires PlacesOk(order, phase, where, pool, 0)
    ensures PlacesOk(order, phase + Repeat(|order| - |phase|, Live), where, pool, 0)
  {
    var phase' := phase + Repeat(|order| - |phase|, Live);
    forall m | 0 <= m < |order| ensures NumberAt(order, phase', where, 0, m) {
      assert NumberAt(order, phase, where, 0, m);
    }
    forall a | 0 <= a < |where| ensures PlaceAt(order, phase', where, pool, 0, a) {
      assert PlaceAt(order, phase, where, pool, 0, a);
    }
  }

  lemma PublishValues(vals: seq<Value>, ent: seq<EntryId>, lo: nat, order: seq<Block>, phase: seq<Phase>)
    requires ValuesOk(vals, ent, lo, order, phase, |phase|, -1) && |phase| <= |order|
    ensures ValuesOk(vals, ent, lo, order, phase + Repeat(|order| - |phase|, Live), |order|, -1)
  {
    var phase' := phase + Repeat(|order| - |phase|, Live);
    forall n | lo <= n < |ent| ensures ValueAt(vals, ent, order, phase', |order|, n) {
      assert ValueAt(vals, ent, order, phase, |phase|, n);
    }
  }

  lemma PublishTail(s: State, op: Operation)
    requires Inv(s) && s.prod == Running(op, StoreTail)
    ensures TailOk(s.tail + |op.items|, op.tailBlock, s.order, |s.order|)
  {
    var n := |s.phase|;
    if s.tail < Base(n) {
      NumUnique(s.tail, n - 1);
    }
  }

  lemma StoreTailMoves(s: State, op: Operation)
    requires Inv(s) && s.prod == Running(op, StoreTail)
    ensures |s.phase| <= |s.order| && Inv(StoreTailStep(s, op))
  {
    var s' := StoreTailStep(s, op);
    PublishPhases(s);
    PublishPlaces(s.order, s.phase, s.where, s.pool);
    PublishValues(s.vals, s.ent, s.lo, s.order, s.phase);
    PublishTail(s, op);
    forall n | 0 <= n < |s'.phase| ensures FreerAt(s'.phase, s.cons, n) {
      assert n < |s.phase| ==> FreerAt(s.phase, s.cons, n);
    }
    ConsumersPublish(s.order, s.where, s.phase, |s.order| - |s.phase|, s.cells, s.elems, s.owner, s.done, s.headers, s.cons);
  }
}
