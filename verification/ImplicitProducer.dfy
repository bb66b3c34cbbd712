module ImplicitProducer {
  /** The producer's steps keep the invariant of an implicit queue. */

  import opened Basics
  import opened Blocks
  import opened ImplicitQueue
  import opened ImplicitInvariant
  import opened ImplicitIndex
  import opened ImplicitFrames

  // ---- Starting an operation ----

  lemma BeginMoves(s: State, items: seq<Elem>)
    requires Inv(s) && s.prod.Ready?
    ensures Inv(BeginStep(s, items))
  {
    RoundUpIsBase(s.tail);
    BasesInIsNeed(s.tail, |items|);
    var op := BeginStep(s, items).prod.op;
    if op.need == 0 && 0 < |items| {
      NumUnique(s.tail, |s.order| - 1);
    }
  }

  lemma RefuseMoves(s: State, op: Operation)
    requires Inv(s) && s.prod == Running(op, Acquire)
    ensures Inv(s.(prod := Running(op, Undo(op.firstAlloc, RoundUp(s.tail), 0))))
  {
    RoundUpIsBase(s.tail);
  }

  // ---- Inserting into the index ----

  /** What the producer reads in the entry for the next number. */
  lemma NextEntryFacts(s: State, op: Operation)
    requires Inv(s) && s.prod == Running(op, Acquire)
    ensures HasNextEntry(s.headers, |s.keys|) && |s.keys| == |s.vals|
    ensures var e, h := NextEntry(s.headers, |s.keys|), Last(s.headers);
            && e < |s.keys| == |s.vals|
            && (s.keys[e] != Invalid ==> s.vals[e] != Unset)
            && (|s.order| < |s.ent| ==> e == s.ent[|s.order|] && s.keys[e] == Key(Base(|s.order|)) && s.vals[e] == Nothing)
            && (|s.order| == |s.ent| && s.keys[e] != Invalid ==>
                  |s.ent| >= h.first + h.capacity && s.lo < |s.ent| && e == s.ent[s.lo])
  {
    var n := |s.order|;
    NextEntryIs(s.headers, s.keys, s.ent, s.lo, s.nextCapacity, n);
    if n < |s.ent| {
      assert KeyAt(s.keys, s.ent, n);
      assert ValueAt(s.vals, s.ent, s.order, s.phase, |s.phase|, n);
    } else if s.lo < |s.ent| {
      assert ValueAt(s.vals, s.ent, s.order, s.phase, |s.phase|, s.lo);
    }
  }

  /** A number loses its entry only after its block has left the index. */
  lemma OldestIsDead(s: State, op: Operation)
    requires Inv(s) && s.prod == Running(op, Acquire)
    requires s.lo < |s.ent| && s.ent[s.lo] < |s.vals| && s.vals[s.ent[s.lo]] == Nothing && |s.order| == |s.ent|
    ensures s.lo < |s.phase| && !s.phase[s.lo].Live? && !s.phase[s.lo].Draining?
  {
    assert ValueAt(s.vals, s.ent, s.order, s.phase, |s.phase|, s.lo);
  }

  lemma InsertMoves(s: State, op: Operation)
    requires Inv(s) && s.prod == Running(op, Acquire)
    requires HasNextEntry(s.headers, |s.keys|) && |s.keys| == |s.vals| && EntryFree(s.keys, s.vals, NextEntry(s.headers, |s.keys|))
    ensures Inv(InsertStep(s, op))
  {
    NextEntryFacts(s, op);
    var s' := InsertStep(s, op);
    if |s.order| < |s.ent| {
      assert s'.keys == s.keys;
    } else {
      InsertNew(s, op, NextEntry(s.headers, |s.keys|), s');
    }
  }

  lemma InsertNew(s: State, op: Operation, e: EntryId, s': State)
    requires Inv(s) && s.prod == Running(op, Acquire) && |s.order| == |s.ent|
    requires HasNextEntry(s.headers, |s.keys|) && e == NextEntry(s.headers, |s.keys|) && e < |s.vals| == |s.keys|
    requires EntryFree(s.keys, s.vals, e) && s' == InsertStep(s, op)
    ensures Inv(s')
  {
    var n := |s.order|;
    InsertIndex(s.headers, s.keys, s.ent, s.lo, s.nextCapacity, n, e, s'.lo);
    if s.keys[e] != Invalid {
      OldestIsDead(s, op);
    }
    InsertPhases(s, s'.lo);
    InsertValues(s.vals, s.ent, s.lo, s.order, s.phase, s'.lo, e);
    InsertRest(s, op, e, s');
  }

  lemma InsertRest(s: State, op: Operation, e: EntryId, s': State)
    requires Inv(s) && s.prod == Running(op, Acquire) && |s.order| == |s.ent| && HasNextEntry(s.headers, |s.keys|)
    requires s' == s.(keys := s'.keys, ent := s.ent + [e], lo := s'.lo, prod := s'.prod,
                      headers := ReplaceLast(s.headers, Last(s.headers).(limit := |s.ent| + 1)))
    requires s'.prod == Running(op, InsertTail(NextSlot(Last(s.headers).tail, Last(s.headers).capacity), e))
    requires |s'.keys| == |s.keys| && s'.lo <= |s.phase|
    requires HeadersOk(s'.headers, s'.ent, s'.lo, |s'.keys|) && KeysOk(s'.keys, s'.ent, s'.lo)
    requires CurrentOk(s'.headers, s'.keys, s'.ent, s'.lo, s.nextCapacity, |s.order| - 1)
    requires PhasesOk(s.phase, s.order, s.counters, s.done, s'.lo)
    requires ValuesOk(s.vals, s'.ent, s'.lo, s.order, s.phase, |s.phase|, |s.order|)
    ensures Inv(s')
  {
    assert HeadersExtend(s.headers, s'.headers, |s.phase| - 1);
    ConsumersHeaders(s.order, s.where, s.phase, s.cells, s.elems, s.owner, s.done, s.headers, s'.headers, s.cons);
  }

  lemma InsertPhases(s: State, lo': nat)
    requires PhasesOk(s.phase, s.order, s.counters, s.done, s.lo)
    requires lo' == s.lo || (lo' == s.lo + 1 && s.lo < |s.phase| && !s.phase[s.lo].Live? && !s.phase[s.lo].Draining?)
    ensures PhasesOk(s.phase, s.order, s.counters, s.done, lo')
  {
    forall n | 0 <= n < |s.phase| ensures PhaseAt(s.phase, s.order, s.counters, s.done, lo', n) {
      assert PhaseAt(s.phase, s.order, s.counters, s.done, s.lo, n);
    }
  }

  lemma InsertValues(vals: seq<Value>, ent: seq<EntryId>, lo: nat, order: seq<Block>, phase: seq<Phase>, lo': nat, e: EntryId)
    requires ValuesOk(vals, ent, lo, order, phase, |phase|, -1) && lo <= lo' && |order| == |ent|
    ensures ValuesOk(vals, ent + [e], lo', order, phase, |phase|, |order|)
  {
    forall n | lo' <= n < |ent| + 1 && n != |order| ensures ValueAt(vals, ent + [e], order, phase, |phase|, n) {
      assert ValueAt(vals, ent, order, phase, |phase|, n);
    }
  }

  // ---- Growing the index ----

  lemma GrowMoves(s: State, op: Operation)
    requires Inv(s) && s.prod == Running(op, Acquire)
    requires HasNextEntry(s.headers, |s.keys|) && |s.keys| == |s.vals| && !EntryFree(s.keys, s.vals, NextEntry(s.headers, |s.keys|))
    ensures InBounds(s, Grow) && Inv(GrowStep(s))
  {
    NextEntryFacts(s, op);
    var h := s.headers[|s.headers| - 1];
    assert HeaderOk(h, s.ent, s.lo, |s.keys|);
    var s' := GrowStep(s);
    GrowIndex(s.headers, s.keys, s.ent, s.lo, s.nextCapacity, Last(s'.headers));
    forall n | s.lo <= n < |s.ent| ensures ValueAt(s'.vals, s.ent, s.order, s.phase, |s.phase|, n) {
      assert ValueAt(s.vals, s.ent, s.order, s.phase, |s.phase|, n);
    }
    assert HeadersExtend(s.headers, s'.headers, |s.phase| - 1);
    ConsumersHeaders(s.order, s.where, s.phase, s.cells, s.elems, s.owner, s.done, s.headers, s'.headers, s.cons);
  }

  /** After growing there is a free entry: the source's assertion in `insert_block_index_entry`. */
  lemma GrowMakesRoom(s: State, op: Operation)
    requires Inv(s) && s.prod == Running(op, Acquire)
    requires HasNextEntry(s.headers, |s.keys|) && |s.keys| == |s.vals| && !EntryFree(s.keys, s.vals, NextEntry(s.headers, |s.keys|))
    requires InBounds(s, Grow)
    ensures var s' := GrowStep(s);
            HasNextEntry(s'.headers, |s'.keys|) && s'.keys[NextEntry(s'.headers, |s'.keys|)] == Invalid
  {
    NextEntryFacts(s, op);
    GrowMoves(s, op);
    var s' := GrowStep(s);
    assert s'.prod == Running(op, Acquire);
    var h, h' := Last(s.headers), Last(s'.headers);
    assert NextSlot(h'.tail, h'.capacity) == h.capacity;
  }

  // ---- Moving the index tail ----

  lemma InsertTailMoves(s: State, op: Operation, slot: nat, e: EntryId)
    requires Inv(s) && s.prod == Running(op, InsertTail(slot, e))
    ensures s.headers != [] && Inv(InsertTailStep(s, op, slot, e))
  {
    var s' := InsertTailStep(s, op, slot, e);
    AdvanceTail(s.headers, s.keys, s.ent, s.lo, s.nextCapacity, |s.order|, Last(s'.headers));
    ConsumersHeaders(s.order, s.where, s.phase, s.cells, s.elems, s.owner, s.done, s.headers, s'.headers, s.cons);
  }

  // ---- Undoing ----

  /** Number n's entry is emptied. */
  lemma ValuesCleared(vals: seq<Value>, keys: seq<Key>, ent: seq<EntryId>, lo: nat, order: seq<Block>, phase: seq<Phase>,
                      vlo: nat, skip: int, n: nat, vlo': nat)
    requires ValuesOk(vals, ent, lo, order, phase, vlo, skip) && KeysOk(keys, ent, lo) && |keys| == |vals|
    requires lo <= n < |ent| && |phase| <= n && vlo <= vlo'
    requires skip == -1 || skip == n
    requires if n < |order| then vlo == n && vlo' == n + 1 else vlo' == vlo
    ensures ent[n] < |vals| && ValuesOk(vals[ent[n] := Nothing], ent, lo, order, phase, vlo', -1)
  {
    assert KeyAt(keys, ent, n);
    var vals' := vals[ent[n] := Nothing];
    forall m | lo <= m < |ent| ensures ValueAt(vals', ent, order, phase, vlo', m) {
      if m != n {
        OtherEntry(keys, ent, lo, m, n);
        assert ValueAt(vals, ent, order, phase, vlo, m);
      }
    }
  }

  lemma OutOfMemoryMoves(s: State, op: Operation, e: EntryId)
    requires Inv(s) && s.prod == Running(op, Requisition(e))
    ensures s.headers != [] && Last(s.headers).capacity > 0 && e < |s.vals|
    ensures Inv(OutOfMemoryStep(s, op, e))
  {
    var n := |s.order|;
    RewindTail(s.headers, s.keys, s.ent, s.lo, s.nextCapacity, n);
    ValuesCleared(s.vals, s.keys, s.ent, s.lo, s.order, s.phase, |s.phase|, n, n, |s.phase|);
    RoundUpIsBase(s.tail);
    OutOfMemoryRest(s, op, OutOfMemoryStep(s, op, e));
  }

  lemma OutOfMemoryRest(s: State, op: Operation, s': State)
    requires Inv(s) && s.prod.Running? && s.prod.op == op && s.prod.stage.Requisition? && |s'.vals| == |s.vals|
    requires s' == s.(headers := s'.headers, vals := s'.vals, prod := Running(op, Undo(op.firstAlloc, Base(BlocksFor(s.tail)), 0)))
    requires HeadersOk(s'.headers, s.ent, s.lo, |s.keys|) && HeadersExtend(s.headers, s'.headers, |s.order| - 1)
    requires CurrentOk(s'.headers, s.keys, s.ent, s.lo, s.nextCapacity, |s.order| - 1)
    requires ValuesOk(s'.vals, s.ent, s.lo, s.order, s.phase, |s.phase|, -1)
    ensures Inv(s')
  {
    ExtendsWeaker(s.headers, s'.headers, |s.order| - 1, |s.phase| - 1);
    ConsumersHeaders(s.order, s.where, s.phase, s.cells, s.elems, s.owner, s.done, s.headers, s'.headers, s.cons);
  }

  lemma ExtendsWeaker(headers: seq<Header>, headers': seq<Header>, m: int, m': int)
    requires HeadersExtend(headers, headers', m) && m' <= m
    ensures HeadersExtend(headers, headers', m')
  {
    forall j | 0 <= j < |headers| ensures Extends(headers[j], headers'[j], m') {
      assert Extends(headers[j], headers'[j], m);
    }
  }

  /** The lookup during a rollback finds the entry of the block being undone, with the tail rewound past it or not. */
  lemma UndoFinds(s: State, op: Operation, b: Block, base: nat, k: nat)
    requires Inv(s) && s.prod == Running(op, Undo(At(b), base, k))
    ensures UndoInBounds(s, b, base)
    ensures |s.phase| + k < |s.order| && b == s.order[|s.phase| + k]
    ensures var h := Last(s.headers); h.index[LookFrom(h, s.keys, h.tail, base)] == s.ent[|s.phase| + k]
  {
    var n := |s.phase| + k;
    var h := s.headers[|s.headers| - 1];
    assert HeaderOk(h, s.ent, s.lo, |s.keys|);
    LookupFinds(h, s.ent, s.lo, s.keys, h.tail, h.tailNum, n);
    assert ValueAt(s.vals, s.ent, s.order, s.phase, n, n);
    assert ChainAt(s.next, s.order, n);
  }

  lemma UndoMoves(s: State, op: Operation, b: Block, base: nat, k: nat)
    requires Inv(s) && s.prod == Running(op, Undo(At(b), base, k))
    ensures UndoInBounds(s, b, base) && Inv(UndoStep(s, op, b, base, k))
  {
    UndoFinds(s, op, b, base, k);
    var s' := UndoIndex(s, op, b, base, k);
    assert ChainAt(s.next, s.order, |s.phase| + k);
    ConsumersHeaders(s.order, s.where, s.phase, s.cells, s.elems, s.owner, s.done, s.headers, s'.headers, s.cons);
  }

  lemma UndoIndex(s: State, op: Operation, b: Block, base: nat, k: nat) returns (s': State)
    requires Inv(s) && s.prod == Running(op, Undo(At(b), base, k)) && UndoInBounds(s, b, base)
    ensures s' == UndoStep(s, op, b, base, k) && IndexInv(s')
    ensures HeadersExtend(s.headers, s'.headers, |s.phase| - 1)
  {
    UndoFinds(s, op, b, base, k);
    var n := |s.phase| + k;
    RewindTail(s.headers, s.keys, s.ent, s.lo, s.nextCapacity, |s.order| - 1 - k);
    ValuesCleared(s.vals, s.keys, s.ent, s.lo, s.order, s.phase, n, -1, n, n + 1);
    s' := UndoStep(s, op, b, base, k);
    ExtendsWeaker(s.headers, s'.headers, |s.order| - 2 - k, |s.phase| - 1);
    UndoIndexRest(s, op, k, s');
  }

  lemma UndoIndexRest(s: State, op: Operation, k: nat, s': State)
    requires IndexInv(s) && s.prod.Running? && |s.phase| + k < |s.order| && |s'.vals| == |s.vals|
    requires s' == s.(vals := s'.vals, headers := s'.headers, prod := s'.prod)
    requires s'.prod.Running? && s'.prod.stage.Undo? && s'.prod.stage.k == k + 1
    requires HeadersOk(s'.headers, s.ent, s.lo, |s.keys|)
    requires CurrentOk(s'.headers, s.keys, s.ent, s.lo, s.nextCapacity, |s.order| - 2 - k)
    requires ValuesOk(s'.vals, s.ent, s.lo, s.order, s.phase, |s.phase| + k + 1, -1)
    ensures IndexInv(s')
  {
  }

  lemma UndoneMoves(s: State, op: Operation, base: nat, k: nat)
    requires Inv(s) && s.prod == Running(op, Undo(Null, base, k))
    ensures Inv(s.(prod := Running(op, GiveBack(op.firstAlloc, 0))))
  {
  }

  lemma GiveBackMoves(s: State, op: Operation, b: Block, k: nat)
    requires Inv(s) && s.prod == Running(op, GiveBack(At(b), k))
    ensures b < |s.next| && b < |s.where| && b !in s.pool
    ensures Inv(GiveBackStep(s, op, b, k))
  {
    var n := |s.phase| + k;
    assert ChainAt(s.next, s.order, n);
    assert NumberAt(s.order, s.phase, s.where, k, n);
    assert PlaceAt(s.order, s.phase, s.where, s.pool, k, b);
    GiveBackPlaces(s.order, s.phase, s.where, s.pool, k);
    GiveBackData(s, op, n, s.where[b := IN_POOL]);
    GiveBackRest(s, op, GiveBackStep(s, op, b, k), k);
  }

  lemma GiveBackData(s: State, op: Operation, n: nat, where': seq<int>)
    requires Inv(s) && s.prod.Running? && s.prod.stage.GiveBack? && |s.phase| <= n < |s.order| && s.order[n] < |s.where|
    requires where' == s.where[s.order[n] := IN_POOL] && s.where[s.order[n]] == n
    ensures CellsOn(s.order, where', s.cells, s.elems, s.head, |s.elems|)
    ensures ConsumersOk(s.order, where', s.phase, s.cells, s.elems, s.owner, s.done, s.headers, s.cons)
  {
    forall i | s.head <= i < |s.elems| ensures Stays(s.order, s.where, s.cells, s.order, where', s.cells, Num(i)) {
      NumAtLeast(i, |s.phase|);
    }
    CellsStay(s.order, s.where, s.cells, s.elems, s.order, where', s.cells, s.head, |s.elems|);
    ConsumersStay(s.order, s.where, s.phase, s.cells, s.elems, s.owner, s.done, s.headers, s.cons, s.order, where', s.cells);
  }

  lemma GiveBackRest(s: State, op: Operation, s': State, k: nat)
    requires Inv(s) && s.prod.Running? && s.prod.op == op && s.prod.stage.GiveBack? && s.prod.stage.k == k && |s.phase| + k < |s.order|
    requires s' == s.(pool := s'.pool, where := s'.where, prod := Running(op, GiveBack(s.next[s.order[|s.phase| + k]], k + 1)))
    requires |s'.where| == |s.where| && PlacesOk(s.order, s.phase, s'.where, s'.pool, k + 1)
    requires ChainAt(s.next, s.order, |s.phase| + k)
    requires CellsOn(s.order, s'.where, s.cells, s.elems, s.head, |s.elems|)
    requires ConsumersOk(s.order, s'.where, s.phase, s.cells, s.elems, s.owner, s.done, s.headers, s.cons)
    ensures Inv(s')
  {
  }

  /** The k-th block of the operation goes back to the pool. */
  lemma GiveBackPlaces(order: seq<Block>, phase: seq<Phase>, where: seq<int>, pool: set<Block>, k: nat)
    requires PlacesOk(order, phase, where, pool, k) && |phase| + k < |order|
    ensures order[|phase| + k] < |where|
    ensures var b := order[|phase| + k]; PlacesOk(order, phase, where[b := IN_POOL], pool + {b}, k + 1)
  {
    var n := |phase| + k;
    var b := order[n];
    assert NumberAt(order, phase, where, k, n);
    var where', pool', k' := where[b := IN_POOL], pool + {b}, k + 1;
    forall m | 0 <= m < |order| ensures NumberAt(order, phase, where', k', m) {
      assert NumberAt(order, phase, where, k, m);
    }
    forall a | 0 <= a < |where'| ensures PlaceAt(order, phase, where', pool', k', a) {
      assert PlaceAt(order, phase, where, pool, k, a);
    }
  }

  lemma GiveUpMoves(s: State, op: Operation, k: nat)
    requires Inv(s) && s.prod == Running(op, GiveBack(Null, k))
    ensures Inv(GiveUpStep(s))
  {
    var order' := s.order[..|s.phase|];
    GiveUpPlaces(s.order, s.phase, s.where, s.pool, k);
    GiveUpValues(s);
    forall i | s.head <= i < |s.elems| ensures Stays(s.order, s.where, s.cells, order', s.where, s.cells, Num(i)) {
      NumAtLeast(i, |s.phase|);
    }
    CellsStay(s.order, s.where, s.cells, s.elems, order', s.where, s.cells, s.head, |s.elems|);
    ConsumersStay(s.order, s.where, s.phase, s.cells, s.elems, s.owner, s.done, s.headers, s.cons, order', s.where, s.cells);
    forall n | 0 <= n < |s.phase| ensures PhaseAt(s.phase, order', s.counters, s.done, s.lo, n) {
      assert PhaseAt(s.phase, s.order, s.counters, s.done, s.lo, n);
    }
  }

  lemma GiveUpPlaces(order: seq<Block>, phase: seq<Phase>, where: seq<int>, pool: set<Block>, k: nat)
    requires PlacesOk(order, phase, where, pool, k) && |phase| + k == |order|
    ensures PlacesOk(order[..|phase|], phase, where, pool, 0)
  {
    var order' := order[..|phase|];
    forall m | 0 <= m < |order'| ensures NumberAt(order', phase, where, 0, m) {
      assert NumberAt(order, phase, where, k, m);
    }
    forall a | 0 <= a < |where| ensures PlaceAt(order', phase, where, pool, 0, a) {
      assert PlaceAt(order, phase, where, pool, k, a);
    }
  }

  lemma GiveUpValues(s: State)
    requires |s.phase| <= |s.order| && ValuesOk(s.vals, s.ent, s.lo, s.order, s.phase, |s.order|, -1)
    ensures ValuesOk(s.vals, s.ent, s.lo, s.order[..|s.phase|], s.phase, |s.phase|, -1)
  {
    forall n | s.lo <= n < |s.ent| ensures ValueAt(s.vals, s.ent, s.order[..|s.phase|], s.phase, |s.phase|, n) {
      assert ValueAt(s.vals, s.ent, s.order, s.phase, |s.order|, n);
    }
  }
}
