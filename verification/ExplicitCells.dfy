module ExplicitCells {
  /**
    The storage of the explicit producer's blocks: an element is constructed in a place that holds
    none, and every place that holds one is that of an index still to be dequeued. So what the
    consumers have destroyed and what the destructor finds are all the elements there ever were.
   */

  import opened Basics
  import opened Blocks
  import opened Sequences
  import opened Deliveries
  import opened ExplicitQueue
  import opened ExplicitFrames
  import opened ExplicitConsumerSteps
  import opened ExplicitProducerSteps
  import opened ExplicitFifo
  import opened ExplicitDestructor

  // ---- Every element stored is still to be dequeued ----

  /** Index i is claimed, and its owner has not moved the element out. */
  ghost predicate Untaken(owner: seq<Tid>, cons: seq<Consumer>, i: nat) {
    && i < |owner| && owner[i] < |cons|
    && cons[owner[i]].Busy? && cons[owner[i]].index <= i < cons[owner[i]].end
  }

  /** Index i is constructed, and not yet moved out. */
  ghost predicate Remains(owner: seq<Tid>, cons: seq<Consumer>, n: nat, i: nat) {
    i < n && (|owner| <= i || Untaken(owner, cons, i))
  }

  ghost predicate HomeOf(order: seq<Block>, owner: seq<Tid>, cons: seq<Consumer>, n: nat, b: Block, o: nat, i: nat) {
    Remains(owner, cons, n, i) && PlaceOf(order, b, o, i)
  }

  ghost predicate Accounted(order: seq<Block>, owner: seq<Tid>, cons: seq<Consumer>, n: nat, b: Block, o: nat) {
    exists i :: HomeOf(order, owner, cons, n, b, o, i)
  }

  ghost predicate FullAt(cells: seq<seq<Cell>>, b: Block, o: nat) {
    b < |cells| && o < |cells[b]| && cells[b][o].Full?
  }

  ghost predicate StoredOk(order: seq<Block>, cells: seq<seq<Cell>>, owner: seq<Tid>, cons: seq<Consumer>, n: nat) {
    forall b, o :: FullAt(cells, b, o) ==> Accounted(order, owner, cons, n, b, o)
  }

  ghost predicate Stored(s: State) {
    StoredOk(s.order, s.cells, s.owner, s.cons, |s.elems|)
  }

  /** No new element is stored, and what remains keeps its place. */
  lemma StoredStays(order: seq<Block>, cells: seq<seq<Cell>>, owner: seq<Tid>, cons: seq<Consumer>, n: nat,
                    order': seq<Block>, cells': seq<seq<Cell>>, owner': seq<Tid>, cons': seq<Consumer>)
    requires StoredOk(order, cells, owner, cons, n)
    requires forall b, o :: FullAt(cells', b, o) ==> FullAt(cells, b, o)
    requires forall i :: Remains(owner, cons, n, i) ==> Remains(owner', cons', n, i)
    requires forall i :: Remains(owner, cons, n, i) && Num(i) < |order| ==> Num(i) < |order'| && order'[Num(i)] == order[Num(i)]
    ensures StoredOk(order', cells', owner', cons', n)
  {
    forall b, o | FullAt(cells', b, o) ensures Accounted(order', owner', cons', n, b, o) {
      assert Accounted(order, owner, cons, n, b, o);
      var i :| HomeOf(order, owner, cons, n, b, o, i);
      assert HomeOf(order', owner', cons', n, b, o, i);
    }
  }

  // ---- Constructing ----

  /** The place of an index that is not yet constructed holds nothing. */
  lemma PlaceIsRaw(s: State)
    requires Inv(s) && Stored(s) && InMemory(s.order, |s.cells|, |s.elems|) && s.lo <= Num(|s.elems|)
    ensures |s.cells[s.order[Num(|s.elems|)]]| == BLOCK_SIZE
    ensures s.cells[s.order[Num(|s.elems|)]][Off(|s.elems|)] == Raw
  {
    var b, o := s.order[Num(|s.elems|)], Off(|s.elems|);
    if FullAt(s.cells, b, o) {
      assert Accounted(s.order, s.owner, s.cons, |s.elems|, b, o);
      var i :| HomeOf(s.order, s.owner, s.cons, |s.elems|, b, o, i);
      RemainsInRing(s, i);
      NumAtLeast(|s.elems|, s.lo);
      SpotsApart(s.order, s.lo, i, |s.elems|);
    }
  }

  lemma RemainsInRing(s: State, i: nat)
    requires Inv(s) && Remains(s.owner, s.cons, |s.elems|, i)
    ensures Base(s.lo) <= i && Num(i) < |s.order|
    ensures CellOk(s.order, s.cells, s.elems, i)
  {
    BaseMonotone(s.lo, Live(s));
    if i < |s.owner| {
      ConsumerFacts(s, s.owner[i]);
    }
    assert CellOk(s.order, s.cells, s.elems, i);
  }

  lemma ConstructStores(s: State, op: Operation, k: nat, into: Ptr)
    requires Inv(s) && Stored(s) && s.prod == Running(op, Construct(k, into)) && k < |op.items|
    ensures into.At? && into.block < |s.cells| == |s.next| && |s.cells[into.block]| == BLOCK_SIZE
    ensures s.cells[into.block][Off(s.tail + k)] == Raw
    ensures Stored(ConstructStep(s, op, k, into.block))
  {
    ConstructPlace(s, op, k, into);
    PlaceIsRaw(s);
    StoredMore(s.order, s.cells, s.owner, s.cons, |s.elems|, Full(op.items[k]));
  }

  lemma StoredMore(order: seq<Block>, cells: seq<seq<Cell>>, owner: seq<Tid>, cons: seq<Consumer>, n: nat, x: Cell)
    requires StoredOk(order, cells, owner, cons, n) && |owner| <= n
    requires InMemory(order, |cells|, n) && |cells[order[Num(n)]]| == BLOCK_SIZE
    ensures StoredOk(order, Put(order, cells, n, x), owner, cons, n + 1)
  {
    var cells' := Put(order, cells, n, x);
    forall b, o | FullAt(cells', b, o) ensures Accounted(order, owner, cons, n + 1, b, o) {
      if b == order[Num(n)] && o == Off(n) {
        assert HomeOf(order, owner, cons, n + 1, b, o, n);
      } else {
        assert FullAt(cells, b, o) && Accounted(order, owner, cons, n, b, o);
        var i :| HomeOf(order, owner, cons, n, b, o, i);
        assert HomeOf(order, owner, cons, n + 1, b, o, i);
      }
    }
  }

  lemma ProduceStores(s: State)
    requires Inv(s) && Enabled(s, Produce) && InBounds(s, Produce) && Stored(s)
    ensures Stored(Apply(s, Produce))
  {
    if s.prod.stage.Construct? && s.prod.stage.k < |s.prod.op.items| {
      ConstructStores(s, s.prod.op, s.prod.stage.k, s.prod.stage.into);
    } else {
      var s' := Apply(s, Produce);
      assert s'.cells == s.cells && s'.elems == s.elems && s'.order == s.order;
    }
  }

  // ---- Blocks ----

  lemma InsertStores(s: State)
    requires Inv(s) && Enabled(s, Insert) && InBounds(s, Insert) && Stored(s)
    ensures Stored(Apply(s, Insert))
  {
    var s' := Apply(s, Insert);
    forall b: Block, o: nat | FullAt(s'.cells, b, o) ensures FullAt(s.cells, b, o) {
      NewBlockIsRaw(s.cells, b, o);
    }
    StoredStays(s.order, s.cells, s.owner, s.cons, |s.elems|, s'.order, s'.cells, s'.owner, s'.cons);
  }

  lemma NewBlockIsRaw(cells: seq<seq<Cell>>, b: Block, o: nat)
    requires FullAt(cells + [Repeat(BLOCK_SIZE, Raw)], b, o)
    ensures FullAt(cells, b, o)
  {
  }

  lemma ReuseStores(s: State)
    requires Inv(s) && Enabled(s, Reuse) && InBounds(s, Reuse) && Stored(s)
    ensures Stored(Apply(s, Reuse))
  {
    var s' := Apply(s, Reuse);
    StoredStays(s.order, s.cells, s.owner, s.cons, |s.elems|, s'.order, s'.cells, s'.owner, s'.cons);
  }

  /** A failing exit gives up only numbers that hold nothing. */
  lemma FailStores(s: State, op: Operation)
    requires Inv(s) && s.prod == Running(op, FromPool) && Stored(s)
    ensures Stored(FailStep(s, op))
  {
    var s' := FailStep(s, op);
    forall i | Remains(s.owner, s.cons, |s.elems|, i) && Num(i) < |s.order|
      ensures Num(i) < |s'.order| && s'.order[Num(i)] == s.order[Num(i)]
    {
      NumAtLeast(i, op.start);
    }
    StoredStays(s.order, s.cells, s.owner, s.cons, |s.elems|, s'.order, s'.cells, s'.owner, s'.cons);
  }

  // ---- Consumers ----

  lemma ClaimStores(s: State, t: Tid, count: nat)
    requires Inv(s) && Enabled(s, Claim(t, count)) && Stored(s)
    ensures Stored(ClaimStep(s, t, count))
  {
    var s' := ClaimStep(s, t, count);
    forall i: nat | Remains(s.owner, s.cons, |s.elems|, i) ensures Remains(s'.owner, s'.cons, |s.elems|, i) {
      if i < |s.owner| {
        assert s.owner[i] != t;
      }
    }
    StoredStays(s.order, s.cells, s.owner, s.cons, |s.elems|, s'.order, s'.cells, s'.owner, s'.cons);
  }

  /** The element taken is destroyed, and no other place changes. */
  lemma TakeStores(s: State, t: Tid, c: Consumer, h: nat, slot: nat, b: Block)
    requires Inv(s) && t < |s.cons| && s.cons[t] == c && c.Busy? && c.stage == Take(h, slot, b) && Stored(s)
    requires InBounds(s, Consume(t))
    ensures Stored(TakeStep(s, t, c, h, slot, b))
    ensures !FullAt(TakeStep(s, t, c, h, slot, b).cells, b, Off(c.index))
  {
    ConsumerFacts(s, t);
    var s' := TakeStep(s, t, c, h, slot, b);
    TakeKeeps(s.order, s.cells, s.owner, s.cons, |s.elems|, t, b, s'.cells, s'.cons);
  }

  lemma TakeKeeps(order: seq<Block>, cells: seq<seq<Cell>>, owner: seq<Tid>, cons: seq<Consumer>, n: nat, t: Tid, b: Block,
                  cells': seq<seq<Cell>>, cons': seq<Consumer>)
    requires StoredOk(order, cells, owner, cons, n) && t < |cons| && cons[t].Busy? && |cons'| == |cons|
    requires b < |cells| && Off(cons[t].index) < |cells[b]| && Num(cons[t].index) < |order| && order[Num(cons[t].index)] == b
    requires cells' == cells[b := cells[b][Off(cons[t].index) := Raw]]
    requires cons'[t].Busy? && cons'[t].index == cons[t].index + 1 && cons'[t].end == cons[t].end && cons' == cons[t := cons'[t]]
    ensures StoredOk(order, cells', owner, cons', n)
  {
    forall b', o | FullAt(cells', b', o) ensures Accounted(order, owner, cons', n, b', o) {
      assert FullAt(cells, b', o) && Accounted(order, owner, cons, n, b', o);
      var i :| HomeOf(order, owner, cons, n, b', o, i);
      assert i != cons[t].index;
      assert HomeOf(order, owner, cons', n, b', o, i);
    }
  }

  /** The other steps of a consumer move no element. */
  lemma MovesNothing(s: State, t: Tid, c: Consumer, s': State)
    requires t < |s.cons| && s.cons[t] == c && c.Busy? && !c.stage.Take? && InBounds(s, Consume(t)) && s' == ConsumeStep(s, t)
    ensures s'.order == s.order && s'.cells == s.cells && s'.owner == s.owner && s'.elems == s.elems && s'.cons == s.cons[t := s'.cons[t]]
    ensures s'.cons[t].Idle? ==> c.index == c.end
    ensures s'.cons[t].Busy? ==> s'.cons[t].index == c.index && s'.cons[t].end == c.end
  {
  }

  lemma ConsumeStores(s: State, t: Tid)
    requires Inv(s) && Enabled(s, Consume(t)) && InBounds(s, Consume(t)) && Stored(s)
    ensures Stored(ConsumeStep(s, t))
  {
    var c := s.cons[t];
    if c.stage.Take? {
      TakeStores(s, t, c, c.stage.h, c.stage.slot, c.stage.block);
    } else {
      var s' := ConsumeStep(s, t);
      MovesNothing(s, t, c, s');
      StoredStays(s.order, s.cells, s.owner, s.cons, |s.elems|, s'.order, s'.cells, s'.owner, s'.cons);
    }
  }

  lemma NextStores(s: State, a: Action, s': State)
    requires Inv(s) && Next(s, a, s') && Stored(s)
    ensures Stored(s')
  {
    match a
    case Fail => FailStores(s, s.prod.op);
    case Reuse => ReuseStores(s);
    case Insert => InsertStores(s);
    case Produce => ProduceStores(s);
    case Claim(t, count) => ClaimStores(s, t, count);
    case Consume(t) => ConsumeStores(s, t);
    case _ =>
  }

  // ---- Runs ----

  /** In every run whose failing exits are sound, a stored element is that of an index still to be dequeued. */
  lemma {:induction false} NothingIsLeftBehind(run: seq<State>, acts: seq<Action>, n: nat)
    requires IsSoundRun(run, acts) && n < |run|
    ensures Stored(run[n])
    decreases n
  {
    if n > 0 {
      NothingIsLeftBehind(run, acts, n - 1);
      StoresGoOn(run, acts, n - 1);
    }
  }

  lemma StoresGoOn(run: seq<State>, acts: seq<Action>, n: nat)
    requires IsSoundRun(run, acts) && n < |acts| && Stored(run[n])
    ensures Stored(run[n + 1])
  {
    SoundStep(run, acts, n);
    NextStores(run[n], acts[n], run[n + 1]);
  }

  /** No element is constructed over another. */
  lemma ConstructedOnRaw(run: seq<State>, acts: seq<Action>, n: nat, op: Operation, k: nat, into: Ptr)
    requires IsSoundRun(run, acts) && n < |run| && run[n].prod == Running(op, Construct(k, into)) && k < |op.items|
    ensures into.At? && into.block < |run[n].cells| && |run[n].cells[into.block]| == BLOCK_SIZE
    ensures run[n].cells[into.block][Off(run[n].tail + k)] == Raw
  {
    SoundRunsAreSafe(run, acts, n);
    NothingIsLeftBehind(run, acts, n);
    ConstructStores(run[n], op, k, into);
  }

  /** With nothing under way the places that hold an element are those of the indices from head to tail. */
  lemma QuietCells(run: seq<State>, acts: seq<Action>, n: nat, b: Block, o: nat)
    requires IsSoundRun(run, acts) && n < |run| && Quiet(run[n])
    ensures FullAt(run[n].cells, b, o) <==> exists i :: run[n].head <= i < run[n].tail && PlaceOf(run[n].order, b, o, i)
  {
    SoundRunsAreSafe(run, acts, n);
    NothingIsLeftBehind(run, acts, n);
    var s := run[n];
    if FullAt(s.cells, b, o) {
      assert Accounted(s.order, s.owner, s.cons, |s.elems|, b, o);
      var i: nat :| HomeOf(s.order, s.owner, s.cons, |s.elems|, b, o, i);
      assert !Untaken(s.owner, s.cons, i);
      assert s.head <= i < s.tail && PlaceOf(s.order, b, o, i);
    }
    if i :| s.head <= i < s.tail && PlaceOf(s.order, b, o, i) {
      assert CellOk(s.order, s.cells, s.elems, i);
    }
  }
}
