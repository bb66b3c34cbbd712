module ImplicitCells {
  /**
    The storage of the implicit producer's blocks: an element is constructed in a place that holds
    none, a stored element is that of an index still to be dequeued, and a block in the pool holds
    none. What this queue gives back is clean if what it gets is, so the same is asked of the other
    producers that share the pool.
   */

  import opened Basics
  import opened Blocks
  import opened Sequences
  import opened Deliveries
  import opened ImplicitQueue
  import opened ImplicitInvariant
  import opened ImplicitFrames
  import opened ImplicitEnqueue
  import opened ImplicitConsumer
  import opened ImplicitRuns

  // ---- Every element stored is still to be dequeued ----

  /** Index i is claimed, and its owner has not moved the element out. */
  ghost predicate Untaken(owner: seq<Tid>, cons: seq<Consumer>, i: nat) {
    && i < |owner| && owner[i] < |cons|
    && cons[owner[i]].Busy? && cons[owner[i]].index <= i < cons[owner[i]].end
  }

  /** Index i is constructed, and not yet moved out. */
  ghost predicate Remains(owner: seq<Tid>, cons: seq<Consumer>, n: nat, i: nat) {
    i < n && (|owner| <= i || Untaken(owner, cons, i))
  }

  /** Index i remains in the o-th place of block b. */
  ghost predicate HomeOf(order: seq<Block>, owner: seq<Tid>, cons: seq<Consumer>, n: nat, b: Block, o: nat, i: nat) {
    Remains(owner, cons, n, i) && Num(i) < |order| && order[Num(i)] == b && Off(i) == o
  }

  ghost predicate Accounted(order: seq<Block>, owner: seq<Tid>, cons: seq<Consumer>, n: nat, b: Block, o: nat) {
    exists i :: HomeOf(order, owner, cons, n, b, o, i)
  }

  /** Block b is the pool's or this queue's, and its o-th place holds an element. */
  ghost predicate FullAt(cells: seq<seq<Cell>>, where: seq<int>, b: Block, o: nat) {
    b < |cells| && b < |where| && where[b] != ELSEWHERE && o < |cells[b]| && cells[b][o].Full?
  }

  ghost predicate StoredOk(order: seq<Block>, cells: seq<seq<Cell>>, where: seq<int>, owner: seq<Tid>, cons: seq<Consumer>, n: nat) {
    forall b, o :: FullAt(cells, where, b, o) ==> Accounted(order, owner, cons, n, b, o)
  }

  ghost predicate Stored(s: State) {
    StoredOk(s.order, s.cells, s.where, s.owner, s.cons, |s.elems|)
  }

  /** No new element is stored, and what remains keeps its place. */
  lemma StoredStays(s: State, s': State)
    requires Stored(s) && |s'.elems| == |s.elems|
    requires forall b, o :: FullAt(s'.cells, s'.where, b, o) ==> FullAt(s.cells, s.where, b, o)
    requires forall i :: Remains(s.owner, s.cons, |s.elems|, i) ==> Remains(s'.owner, s'.cons, |s.elems|, i)
    requires forall i :: Remains(s.owner, s.cons, |s.elems|, i) && Num(i) < |s.order| ==> Num(i) < |s'.order| && s'.order[Num(i)] == s.order[Num(i)]
    ensures Stored(s')
  {
    forall b: Block, o: nat | FullAt(s'.cells, s'.where, b, o) ensures Accounted(s'.order, s'.owner, s'.cons, |s.elems|, b, o) {
      assert Accounted(s.order, s.owner, s.cons, |s.elems|, b, o);
      var i :| HomeOf(s.order, s.owner, s.cons, |s.elems|, b, o, i);
      assert HomeOf(s'.order, s'.owner, s'.cons, |s.elems|, b, o, i);
    }
  }

  lemma RemainsInPlace(s: State, i: nat)
    requires Inv(s) && Remains(s.owner, s.cons, |s.elems|, i)
    ensures CellOk(s.order, s.where, s.cells, s.elems, i)
  {
    if i < |s.owner| {
      ConsumerFacts(s, s.owner[i]);
    }
  }

  /** The blocks in the pool hold no elements. */
  lemma PoolIsClean(s: State, b: Block)
    requires Inv(s) && Stored(s) && b in s.pool
    ensures b < |s.cells| && forall o :: 0 <= o < |s.cells[b]| ==> s.cells[b][o] == Raw
  {
    assert PlaceAt(s.order, s.phase, s.where, s.pool, Back(s.prod), b);
    forall o: nat | o < |s.cells[b]| ensures s.cells[b][o] == Raw {
      if FullAt(s.cells, s.where, b, o) {
        assert Accounted(s.order, s.owner, s.cons, |s.elems|, b, o);
        var i :| HomeOf(s.order, s.owner, s.cons, |s.elems|, b, o, i);
        RemainsInPlace(s, i);
      }
    }
  }

  // ---- Constructing ----

  lemma ConstructStores(s: State, op: Operation, k: nat, into: Ptr)
    requires Inv(s) && Stored(s) && s.prod == Running(op, Construct(k, into)) && k < |op.items|
    ensures into.At? && into.block < |s.cells| == |s.next| && |s.cells[into.block]| == BLOCK_SIZE
    ensures s.cells[into.block][Off(s.tail + k)] == Raw
    ensures Stored(ConstructStep(s, op, k, into.block))
  {
    ConstructPlace(s, op, k, into);
    PlaceIsRaw(s);
    StoredMore(s.order, s.cells, s.where, s.owner, s.cons, |s.elems|, Full(op.items[k]));
  }

  /** The place of an index that is not yet constructed holds nothing. */
  lemma PlaceIsRaw(s: State)
    requires Inv(s) && Stored(s) && Placed(s.order, s.where, s.cells, |s.elems|)
    ensures s.cells[s.order[Num(|s.elems|)]][Off(|s.elems|)] == Raw
  {
    var b, o := s.order[Num(|s.elems|)], Off(|s.elems|);
    if FullAt(s.cells, s.where, b, o) {
      assert Accounted(s.order, s.owner, s.cons, |s.elems|, b, o);
      var i :| HomeOf(s.order, s.owner, s.cons, |s.elems|, b, o, i);
      RemainsInPlace(s, i);
      SameSpot(i, |s.elems|);
    }
  }

  lemma StoredMore(order: seq<Block>, cells: seq<seq<Cell>>, where: seq<int>, owner: seq<Tid>, cons: seq<Consumer>, n: nat, x: Cell)
    requires StoredOk(order, cells, where, owner, cons, n) && |owner| <= n && Placed(order, where, cells, n)
    ensures StoredOk(order, Put(order, cells, n, x), where, owner, cons, n + 1)
  {
    var cells' := Put(order, cells, n, x);
    forall b, o | FullAt(cells', where, b, o) ensures Accounted(order, owner, cons, n + 1, b, o) {
      if b == order[Num(n)] && o == Off(n) {
        assert HomeOf(order, owner, cons, n + 1, b, o, n);
      } else {
        assert FullAt(cells, where, b, o) && Accounted(order, owner, cons, n, b, o);
        var i :| HomeOf(order, owner, cons, n, b, o, i);
        assert HomeOf(order, owner, cons, n + 1, b, o, i);
      }
    }
  }

  // ---- The producer's other steps ----

  lemma GetBlockStores(s: State, op: Operation, e: EntryId, b: Block)
    requires Inv(s) && s.prod == Running(op, Requisition(e)) && Enabled(s, GetBlock(b)) && GetBlockInBounds(s, op, e, b) && Stored(s)
    ensures Stored(GetBlockStep(s, op, e, b))
  {
    var s' := GetBlockStep(s, op, e, b);
    GetBlockCells(s, op, e, b, s');
    forall a: Block, o: nat | FullAt(s'.cells, s'.where, a, o) ensures FullAt(s.cells, s.where, a, o) {
      if b < |s.where| {
        assert PlaceAt(s.order, s.phase, s.where, s.pool, Back(s.prod), b);
      } else {
        NewBlockIsRaw(s.cells, s.where, s'.where, a, o);
      }
    }
    StoredStays(s, s');
  }

  lemma GetBlockCells(s: State, op: Operation, e: EntryId, b: Block, s': State)
    requires GetBlockInBounds(s, op, e, b) && s' == GetBlockStep(s, op, e, b)
    ensures s'.order == s.order + [b] && s'.owner == s.owner && s'.cons == s.cons && s'.elems == s.elems
    ensures b < |s.where| ==> s'.cells == s.cells && s'.where == s.where[b := |s.order|]
    ensures b >= |s.where| ==> s'.cells == s.cells + [Repeat(BLOCK_SIZE, Raw)] && s'.where == s.where + [|s.order|]
  {
  }

  lemma NewBlockIsRaw(cells: seq<seq<Cell>>, where: seq<int>, where': seq<int>, b: Block, o: nat)
    requires |cells| == |where| && where <= where' && FullAt(cells + [Repeat(BLOCK_SIZE, Raw)], where', b, o)
    ensures FullAt(cells, where, b, o)
  {
  }

  lemma ProduceStores(s: State)
    requires Inv(s) && Enabled(s, Produce) && InBounds(s, Produce) && Stored(s)
    ensures Stored(Apply(s, Produce))
  {
    var op, s' := s.prod.op, Apply(s, Produce);
    match s.prod.stage
    case Construct(k, into) =>
      if k < |op.items| {
        ConstructStores(s, op, k, into);
      }
    case GiveBack(at, k) =>
      if at.At? {
        GiveBackStores(s, op, at.block, k);
      } else {
        GiveUpStores(s);
      }
    case _ => StoredStays(s, s');
  }

  lemma GiveBackStores(s: State, op: Operation, b: Block, k: nat)
    requires Inv(s) && s.prod == Running(op, GiveBack(At(b), k)) && InBounds(s, Produce) && Stored(s)
    ensures Stored(GiveBackStep(s, op, b, k))
  {
    var s' := GiveBackStep(s, op, b, k);
    assert ChainAt(s.next, s.order, |s.phase| + k);
    assert NumberAt(s.order, s.phase, s.where, k, |s.phase| + k);
    StoredStays(s, s');
  }

  /** The numbers given up hold nothing. */
  lemma GiveUpStores(s: State)
    requires Inv(s) && s.prod.Running? && s.prod.stage.GiveBack? && |s.phase| <= |s.order| && Stored(s)
    ensures Stored(GiveUpStep(s))
  {
    forall i: nat | Remains(s.owner, s.cons, |s.elems|, i) ensures Num(i) < |s.phase| {
      NumAtLeast(i, |s.phase|);
    }
    StoredStays(s, GiveUpStep(s));
  }

  // ---- Consumers ----

  lemma ClaimStores(s: State, t: Tid, count: nat)
    requires Inv(s) && Enabled(s, Claim(t, count)) && Stored(s)
    ensures Stored(ClaimStep(s, t, count))
  {
    var s' := ClaimStep(s, t, count);
    forall i: nat | Remains(s.owner, s.cons, |s.elems|, i) ensures Remains(s'.owner, s'.cons, |s.elems|, i) {
      if i < |s.owner| {
        assert s.owner[i] != t;
      }
    }
    StoredStays(s, s');
  }

  /** The element taken is destroyed, and no other place changes. */
  lemma TakeStores(s: State, t: Tid, c: Consumer, h: nat, slot: nat, b: Block)
    requires Inv(s) && t < |s.cons| && s.cons[t] == c && c.Busy? && c.stage == Take(h, slot, b) && Stored(s)
    requires ConsumeInBounds(s, t)
    ensures Stored(TakeStep(s, t, c, h, slot, b))
    ensures !FullAt(TakeStep(s, t, c, h, slot, b).cells, s.where, b, Off(c.index))
  {
    TakeIsFifo(s, t, h, slot, b);
    var s' := TakeStep(s, t, c, h, slot, b);
    TakeKeeps(s.order, s.cells, s.where, s.owner, s.cons, |s.elems|, t, b, s'.cells, s'.cons);
  }

  lemma TakeKeeps(order: seq<Block>, cells: seq<seq<Cell>>, where: seq<int>, owner: seq<Tid>, cons: seq<Consumer>, n: nat, t: Tid, b: Block,
                  cells': seq<seq<Cell>>, cons': seq<Consumer>)
    requires StoredOk(order, cells, where, owner, cons, n) && t < |cons| && cons[t].Busy? && |cons'| == |cons|
    requires b < |cells| && Off(cons[t].index) < |cells[b]| && Num(cons[t].index) < |order| && order[Num(cons[t].index)] == b
    requires cells' == cells[b := cells[b][Off(cons[t].index) := Raw]]
    requires cons'[t].Busy? && cons'[t].index == cons[t].index + 1 && cons'[t].end == cons[t].end && cons' == cons[t := cons'[t]]
    ensures StoredOk(order, cells', where, owner, cons', n)
  {
    forall b', o | FullAt(cells', where, b', o) ensures Accounted(order, owner, cons', n, b', o) {
      assert FullAt(cells, where, b', o) && Accounted(order, owner, cons, n, b', o);
      var i :| HomeOf(order, owner, cons, n, b', o, i);
      assert i != cons[t].index;
      assert HomeOf(order, owner, cons', n, b', o, i);
    }
  }

  /** The other steps of a consumer move no element. */
  lemma MovesNothing(s: State, t: Tid, c: Consumer, s': State)
    requires t < |s.cons| && s.cons[t] == c && c.Busy? && !c.stage.Take? && ConsumeInBounds(s, t) && s' == ConsumeStep(s, t)
    ensures s'.order == s.order && s'.cells == s.cells && s'.owner == s.owner && s'.elems == s.elems && s'.cons == s.cons[t := s'.cons[t]]
    ensures s'.where == if c.stage.AddBlock? then s.where[c.stage.block := IN_POOL] else s.where
    ensures s'.cons[t].Busy? ==> s'.cons[t].index == c.index && s'.cons[t].end == c.end
  {
  }

  lemma EndsTaken(s: State, t: Tid, c: Consumer, s': State)
    requires Inv(s) && t < |s.cons| && s.cons[t] == c && c.Busy? && !c.stage.Take? && ConsumeInBounds(s, t) && s' == ConsumeStep(s, t)
    ensures s'.cons[t].Idle? ==> c.index == c.end
    ensures c.stage.AddBlock? ==> c.stage.block < |s.where| && s.where[c.stage.block] >= 0
  {
    ConsumerFacts(s, t);
    if c.stage.AddBlock? {
      assert NumberAt(s.order, s.phase, s.where, Back(s.prod), c.stage.num);
    }
  }

  lemma ConsumeStores(s: State, t: Tid)
    requires Inv(s) && Enabled(s, Consume(t)) && ConsumeInBounds(s, t) && Stored(s)
    ensures Stored(ConsumeStep(s, t))
  {
    var c := s.cons[t];
    if c.stage.Take? {
      TakeStores(s, t, c, c.stage.h, c.stage.slot, c.stage.block);
    } else {
      var s' := ConsumeStep(s, t);
      MovesNothing(s, t, c, s');
      EndsTaken(s, t, c, s');
      StoredStays(s, s');
    }
  }

  // ---- Other producers ----

  ghost predicate Clean(s: State, b: Block) {
    b < |s.cells| && forall o :: 0 <= o < |s.cells[b]| ==> s.cells[b][o] == Raw
  }

  /** What others put into the pool holds no elements. */
  ghost predicate Tidy(s: State, a: Action) {
    a.Others? && a.move.Return? ==> Clean(s, a.b)
  }

  lemma OthersStores(s: State, b: Block, move: Move)
    requires Inv(s) && Enabled(s, Others(b, move)) && InBounds(s, Others(b, move)) && Tidy(s, Others(b, move)) && Stored(s)
    ensures Stored(OthersStep(s, b, move))
  {
    var s' := OthersStep(s, b, move);
    forall a: Block, o: nat | FullAt(s'.cells, s'.where, a, o) ensures FullAt(s.cells, s.where, a, o) {
      if move.Make? {
        NewBlockIsRaw(s.cells, s.where, s'.where, a, o);
      }
    }
    StoredStays(s, s');
  }

  lemma NextStores(s: State, a: Action, s': State)
    requires Inv(s) && Next(s, a, s') && Tidy(s, a) && Stored(s)
    ensures Stored(s')
  {
    match a
    case GetBlock(b) => GetBlockStores(s, s.prod.op, s.prod.stage.entry, b);
    case Produce => ProduceStores(s);
    case Claim(t, count) => ClaimStores(s, t, count);
    case Consume(t) => ConsumeStores(s, t);
    case Others(b, move) => OthersStores(s, b, move);
    case _ =>
  }

  // ---- Runs ----

  ghost predicate TidyAt(run: seq<State>, acts: seq<Action>, i: nat) {
    i < |acts| && i < |run| && Tidy(run[i], acts[i])
  }

  /** A run that starts with a clean pool and in which others return clean blocks. */
  ghost predicate IsTidyRun(run: seq<State>, acts: seq<Action>, capacity: nat) {
    && IsRun(run, acts, capacity)
    && (forall b :: b in run[0].pool ==> Clean(run[0], b))
    && forall i :: 0 <= i < |acts| ==> TidyAt(run, acts, i)
  }

  lemma {:induction false} NothingIsLeftBehind(run: seq<State>, acts: seq<Action>, capacity: nat, n: nat)
    requires IsTidyRun(run, acts, capacity) && n < |run|
    ensures Stored(run[n])
    decreases n
  {
    if n > 0 {
      NothingIsLeftBehind(run, acts, capacity, n - 1);
      StoresGoOn(run, acts, capacity, n - 1);
    }
  }

  lemma StoresGoOn(run: seq<State>, acts: seq<Action>, capacity: nat, n: nat)
    requires IsTidyRun(run, acts, capacity) && n < |acts| && Stored(run[n])
    ensures Stored(run[n + 1])
  {
    RunsAreSafe(run, acts, capacity, n);
    RunStep(run, acts, capacity, n);
    assert TidyAt(run, acts, n);
    NextStores(run[n], acts[n], run[n + 1]);
  }

  /** The pool stays clean, though this queue's consumers and its failing calls fill it. */
  lemma PoolStaysClean(run: seq<State>, acts: seq<Action>, capacity: nat, n: nat, b: Block)
    requires IsTidyRun(run, acts, capacity) && n < |run| && b in run[n].pool
    ensures Clean(run[n], b)
  {
    RunsAreSafe(run, acts, capacity, n);
    NothingIsLeftBehind(run, acts, capacity, n);
    PoolIsClean(run[n], b);
  }

  /** No element is constructed over another. */
  lemma ConstructedOnRaw(run: seq<State>, acts: seq<Action>, capacity: nat, n: nat, op: Operation, k: nat, into: Ptr)
    requires IsTidyRun(run, acts, capacity) && n < |run| && run[n].prod == Running(op, Construct(k, into)) && k < |op.items|
    ensures into.At? && into.block < |run[n].cells| && |run[n].cells[into.block]| == BLOCK_SIZE
    ensures run[n].cells[into.block][Off(run[n].tail + k)] == Raw
  {
    RunsAreSafe(run, acts, capacity, n);
    NothingIsLeftBehind(run, acts, capacity, n);
    ConstructStores(run[n], op, k, into);
  }
}
