/** What other producers do with the pool they share keeps the invariant of an implicit queue. */
module ImplicitOthers {
  import opened Basics
  import opened Blocks
  import opened Sequences
  import opened Deliveries
  import opened ImplicitQueue
  import opened ImplicitInvariant
  import opened ImplicitIndex
  import opened ImplicitFrames

  lemma OthersPlaces(order: seq<Block>, phase: seq<Phase>, where: seq<int>, pool: set<Block>, back: nat, b: Block, w: int)
    requires PlacesOk(order, phase, where, pool, back) && b < |where| && where[b] < 0 && (w == IN_POOL || w == ELSEWHERE)
    ensures PlacesOk(order, phase, where[b := w], if w == IN_POOL then pool + {b} else pool - {b}, back)
  {
    var where', pool' := where[b := w], if w == IN_POOL then pool + {b} else pool - {b};
    forall n | 0 <= n < |order| ensures NumberAt(order, phase, where', back, n) {
      assert NumberAt(order, phase, where, back, n);
    }
    forall a | 0 <= a < |where'| ensures PlaceAt(order, phase, where', pool', back, a) {
      assert PlaceAt(order, phase, where, pool, back, a);
    }
  }

  lemma MakePlaces(order: seq<Block>, phase: seq<Phase>, where: seq<int>, pool: set<Block>, back: nat)
    requires PlacesOk(order, phase, where, pool, back)
    ensures PlacesOk(order, phase, where + [ELSEWHERE], pool, back)
  {
    var where' := where + [ELSEWHERE];
    forall n | 0 <= n < |order| ensures NumberAt(order, phase, where', back, n) {
      assert NumberAt(order, phase, where, back, n);
    }
    forall a | 0 <= a < |where'| ensures PlaceAt(order, phase, where', pool, back, a) {
      assert a < |where| ==> PlaceAt(order, phase, where, pool, back, a);
    }
  }

  /** Every block that a number holds has the memory it had. */
  ghost predicate HeldUnchanged(s: State, s': State) {
    forall b :: 0 <= b < |s.where| && s.where[b] >= 0 ==> SameBlock(s, s', b)
  }

  ghost predicate SameBlock(s: State, s': State, b: Block) {
    && b < |s.where| == |s.next| == |s.counters| == |s.cells|
    && b < |s'.where| == |s'.next| == |s'.counters| == |s'.cells|
    && s'.where[b] == s.where[b] && s'.next[b] == s.next[b] && s'.counters[b] == s.counters[b] && s'.cells[b] == s.cells[b]
  }

  lemma HeldNumber(s: State, s': State, n: nat)
    requires PlacesOk(s.order, s.phase, s.where, s.pool, Back(s.prod)) && HeldUnchanged(s, s')
    requires Holds(s.order, s.phase, Back(s.prod), n)
    ensures s.order[n] < |s.where| && s.where[s.order[n]] == n && SameBlock(s, s', s.order[n])
  {
    assert NumberAt(s.order, s.phase, s.where, Back(s.prod), n);
  }

  lemma OthersPhases(s: State, s': State)
    requires PlacesOk(s.order, s.phase, s.where, s.pool, Back(s.prod)) && HeldUnchanged(s, s')
    requires PhasesOk(s.phase, s.order, s.counters, s.done, s.lo) && FreshCounters(s.counters, s.order, |s.phase| + Back(s.prod))
    ensures PhasesOk(s.phase, s.order, s'.counters, s.done, s.lo)
    ensures FreshCounters(s'.counters, s.order, |s.phase| + Back(s.prod))
  {
    forall n | 0 <= n < |s.phase| ensures PhaseAt(s.phase, s.order, s'.counters, s.done, s.lo, n) {
      assert PhaseAt(s.phase, s.order, s.counters, s.done, s.lo, n);
      if s.phase[n].Live? {
        HeldNumber(s, s', n);
      }
    }
    forall n | |s.phase| + Back(s.prod) <= n < |s.order| ensures s.order[n] < |s'.counters| && s'.counters[s.order[n]] == 0 {
      HeldNumber(s, s', n);
    }
  }

  /** The tail's own block, if it has room, is still the producer's. */
  lemma TailHolds(s: State)
    requires BlocksInv(s) && TailOk(s.tail, s.tailBlock, s.order, |s.phase|) && |s.done| <= s.tail && Off(s.tail) != 0
    ensures |s.phase| > 0 && Holds(s.order, s.phase, Back(s.prod), |s.phase| - 1)
  {
    var n := |s.phase| - 1;
    if s.tail == Base(|s.phase|) {
      NumUnique(s.tail, |s.phase|);
    }
    assert PhaseAt(s.phase, s.order, s.counters, s.done, s.lo, n);
  }

  lemma OthersChain(s: State, s': State)
    requires BlocksInv(s) && TailOk(s.tail, s.tailBlock, s.order, |s.phase|) && |s.done| <= s.tail && HeldUnchanged(s, s')
    ensures ChainOk(s'.next, s.order, |s.phase|, s.tail, Back(s.prod))
  {
    forall m | |s.phase| + Back(s.prod) <= m < |s.order| ensures ChainAt(s'.next, s.order, m) {
      assert ChainAt(s.next, s.order, m);
      HeldNumber(s, s', m);
    }
    if Off(s.tail) != 0 {
      TailHolds(s);
      HeldNumber(s, s', |s.phase| - 1);
    }
  }

  lemma OthersData(s: State, s': State)
    requires Inv(s) && HeldUnchanged(s, s')
    ensures CellsOn(s.order, s'.where, s'.cells, s.elems, s.head, |s.elems|)
    ensures ConsumersOk(s.order, s'.where, s.phase, s'.cells, s.elems, s.owner, s.done, s.headers, s.cons)
  {
    forall n: nat ensures Stays(s.order, s.where, s.cells, s.order, s'.where, s'.cells, n) {
      assert n < |s.order| && s.order[n] < |s.where| && s.where[s.order[n]] == n ==> SameBlock(s, s', s.order[n]);
    }
    CellsStay(s.order, s.where, s.cells, s.elems, s.order, s'.where, s'.cells, s.head, |s.elems|);
    ConsumersStay(s.order, s.where, s.phase, s.cells, s.elems, s.owner, s.done, s.headers, s.cons, s.order, s'.where, s'.cells);
  }

  lemma OthersRest(s: State, s': State)
    requires Inv(s) && HeldUnchanged(s, s')
    requires s' == s.(next := s'.next, counters := s'.counters, cells := s'.cells, pool := s'.pool, where := s'.where)
    requires MemoryOk(s'.next, s'.counters, s'.cells, s'.where)
    requires PlacesOk(s.order, s.phase, s'.where, s'.pool, Back(s.prod))
    ensures Inv(s')
  {
    OthersPhases(s, s');
    OthersChain(s, s');
    OthersData(s, s');
  }

  lemma OthersMove(s: State, b: Block, move: Move)
    requires Inv(s) && Enabled(s, Others(b, move))
    ensures InBounds(s, Others(b, move)) && Inv(OthersStep(s, b, move))
  {
    OthersChange(s, b, move, OthersStep(s, b, move));
    OthersRest(s, OthersStep(s, b, move));
  }

  lemma OthersChange(s: State, b: Block, move: Move, s': State)
    requires MemoryOk(s.next, s.counters, s.cells, s.where) && PlacesOk(s.order, s.phase, s.where, s.pool, Back(s.prod))
    requires Enabled(s, Others(b, move)) && InBounds(s, Others(b, move)) && s' == OthersStep(s, b, move)
    ensures s' == s.(next := s'.next, counters := s'.counters, cells := s'.cells, pool := s'.pool, where := s'.where)
    ensures HeldUnchanged(s, s') && MemoryOk(s'.next, s'.counters, s'.cells, s'.where)
    ensures PlacesOk(s.order, s.phase, s'.where, s'.pool, Back(s.prod))
  {
    match move
    case Borrow => OthersPlaces(s.order, s.phase, s.where, s.pool, Back(s.prod), b, ELSEWHERE);
    case Make => MakePlaces(s.order, s.phase, s.where, s.pool, Back(s.prod));
    case Use(_, _, _) =>
    case Return => OthersPlaces(s.order, s.phase, s.where, s.pool, Back(s.prod), b, IN_POOL);
  }
}
