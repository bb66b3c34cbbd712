module ExplicitFailure {
  /**
    The failing exits of the explicit producer's bulk enqueue.

    They restore the number of index slots in use but leave the blocks already inserted in the ring,
    so "slots used equals ring length" survives exactly when the pool or the index refused the
    first block asked of it.
   */

  import opened Basics
  import opened Blocks
  import Circular
  import opened Deliveries
  import opened ExplicitQueue
  import opened ExplicitFrames
  import opened ExplicitProducerSteps
  import opened ExplicitFifo

  // ---- The ring, as a program can walk it ----

  /** `ring` lists the blocks from the one after b round to b. */
  ghost predicate RingThrough(next: seq<Block>, b: Block, ring: seq<Block>) {
    && ring != [] && ring[|ring| - 1] == b
    && (forall i :: 0 <= i < |ring| ==> ring[i] < |next|)
    && next[b] == ring[0]
    && (forall i :: 0 < i < |ring| ==> next[ring[i - 1]] == ring[i])
    && (forall i, j :: 0 <= i < j < |ring| ==> ring[i] != ring[j])
  }

  lemma {:induction false} SamePrefix(next: seq<Block>, b: Block, r1: seq<Block>, r2: seq<Block>, i: nat)
    requires RingThrough(next, b, r1) && RingThrough(next, b, r2) && i < |r1| && i < |r2|
    ensures r1[i] == r2[i]
  {
    if i > 0 {
      SamePrefix(next, b, r1, r2, i - 1);
      assert next[r1[i - 1]] == r1[i] && next[r2[i - 1]] == r2[i];
    }
  }

  /** There is one ring through a block. */
  lemma RingIsUnique(next: seq<Block>, b: Block, r1: seq<Block>, r2: seq<Block>)
    requires RingThrough(next, b, r1) && RingThrough(next, b, r2)
    ensures |r1| == |r2|
  {
    SamePrefix(next, b, r1, r2, if |r1| < |r2| then |r1| - 1 else |r2| - 1);
  }

  /** The blocks from number p + 1 round to number p. */
  function Rotated(order: seq<Block>, lo: nat, p: nat): seq<Block>
    requires lo <= p < |order|
  {
    order[p + 1..] + order[lo..p + 1]
  }

  lemma RotatedAt(order: seq<Block>, lo: nat, p: nat, i: nat)
    requires lo <= p < |order| && i < |order| - lo
    ensures Rotated(order, lo, p)[i] == order[if p + 1 + i < |order| then p + 1 + i else lo + (p + 1 + i - |order|)]
  {
  }

  /** The blocks of the ring, starting anywhere, are a ring. */
  lemma OrderIsRing(next: seq<Block>, order: seq<Block>, lo: nat, tailBlock: Ptr, p: nat)
    requires RingOk(next, order, lo, tailBlock) && lo <= p < |order|
    ensures RingThrough(next, order[p], Rotated(order, lo, p))
  {
    var ring := Rotated(order, lo, p);
    RotatedAt(order, lo, p, 0);
    RotatedAt(order, lo, p, |ring| - 1);
    RingFacts(next, order, lo, tailBlock, p, p);
    forall i | 0 <= i < |ring| ensures ring[i] < |next| {
      RotatedAt(order, lo, p, i);
      var n := if p + 1 + i < |order| then p + 1 + i else lo + (p + 1 + i - |order|);
      RingFacts(next, order, lo, tailBlock, n, n);
    }
    assert RingAt(next, order, lo, p);
    forall i | 0 < i < |ring| ensures next[ring[i - 1]] == ring[i] {
      RotatedAt(order, lo, p, i);
      RotatedAt(order, lo, p, i - 1);
      assert RingAt(next, order, lo, if p + i < |order| then p + i else lo + (p + i - |order|));
    }
    forall i, j | 0 <= i < j < |ring| ensures ring[i] != ring[j] {
      RotatedAt(order, lo, p, i);
      RotatedAt(order, lo, p, j);
      RingFacts(next, order, lo, tailBlock, if p + 1 + i < |order| then p + 1 + i else lo + (p + 1 + i - |order|),
                if p + 1 + j < |order| then p + 1 + j else lo + (p + 1 + j - |order|));
    }
  }

  /** Between calls, and during one, the slots in use are as many as the blocks of the ring. */
  lemma SlotsAreRingLength(s: State, ring: seq<Block>)
    requires Inv(s) && s.tailBlock.At? && RingThrough(s.next, s.tailBlock.block, ring)
    ensures s.slotsUsed == |ring|
  {
    OrderIsRing(s.next, s.order, s.lo, s.tailBlock, |s.order| - 1);
    RingIsUnique(s.next, s.tailBlock.block, ring, Rotated(s.order, s.lo, |s.order| - 1));
  }

  // ---- What a failing exit does to the count ----

  /** The slots in use are as many as the blocks of the ring through the tail block. */
  ghost predicate CountIsRight(s: State) {
    if s.tailBlock.Null? then s.slotsUsed == 0
    else forall ring: seq<Block> :: RingThrough(s.next, s.tailBlock.block, ring) ==> |ring| == s.slotsUsed
  }

  lemma TailBlockAfter(s: State, op: Operation)
    requires Inv(s) && s.prod == Running(op, FromPool)
    ensures FailStep(s, op).tailBlock.Null? ==> op.used0 == op.inserted == 0
    ensures FailStep(s, op).tailBlock.At? ==>
              exists p: nat :: s.lo <= p < |s.order| && FailStep(s, op).tailBlock == At(s.order[p])
  {
    assert OperationOk(op, s.order, s.lo, s.tail);
    if op.start == 0 {
      assert op.inserted > 0 ==> FailStep(s, op).tailBlock == At(s.order[op.start]);
    } else if s.lo < op.start {
      assert FailStep(s, op).tailBlock == At(s.order[op.start - 1]);
    } else {
      var p := op.start - 1 + op.used0;
      assert Again(s.order, p, op.used0);
      assert FailStep(s, op).tailBlock == At(s.order[p]);
    }
  }

  /** After a failing exit the ring is longer than the count by the blocks that were inserted. */
  lemma RingAfterFailure(s: State, op: Operation, ring: seq<Block>)
    requires Inv(s) && s.prod == Running(op, FromPool)
    requires FailStep(s, op).tailBlock.At? && RingThrough(s.next, FailStep(s, op).tailBlock.block, ring)
    ensures |ring| == FailStep(s, op).slotsUsed + op.inserted
  {
    TailBlockAfter(s, op);
    var p: nat :| s.lo <= p < |s.order| && FailStep(s, op).tailBlock == At(s.order[p]);
    OrderIsRing(s.next, s.order, s.lo, s.tailBlock, p);
    RingIsUnique(s.next, s.order[p], ring, Rotated(s.order, s.lo, p));
    assert OperationOk(op, s.order, s.lo, s.tail);
  }

  lemma FailureKeepsCount(s: State, op: Operation)
    requires Inv(s) && s.prod == Running(op, FromPool)
    ensures CountIsRight(FailStep(s, op)) <==> op.inserted == 0
  {
    var s' := FailStep(s, op);
    TailBlockAfter(s, op);
    if s'.tailBlock.At? {
      forall ring: seq<Block> | RingThrough(s.next, s'.tailBlock.block, ring) ensures |ring| == op.used0 + op.inserted {
        RingAfterFailure(s, op, ring);
      }
      var p: nat :| s.lo <= p < |s.order| && s'.tailBlock == At(s.order[p]);
      OrderIsRing(s.next, s.order, s.lo, s.tailBlock, p);
    }
  }

  // ---- Over a run: from the call to the exit ----

  /** How many blocks steps `from` to `to` of a run inserted. */
  function Inserts(acts: seq<Action>, from: nat, to: nat): nat
    requires from <= to <= |acts|
  {
    if from == to then 0 else Inserts(acts, from, to - 1) + if acts[to - 1].Insert? then 1 else 0
  }

  lemma InsertedMoves(s: State, a: Action, s': State)
    requires Next(s, a, s') && s'.prod.Running?
    ensures a.Begin? ==> s'.prod.op.inserted == 0
    ensures !a.Begin? ==> s.prod.Running? && s'.prod.op.inserted == s.prod.op.inserted + if a.Insert? then 1 else 0
  {
  }

  lemma {:induction false} InsertsCounted(run: seq<State>, acts: seq<Action>, i: nat, j: nat, items: seq<Elem>)
    requires IsRun(run, acts) && i < j < |run| && acts[i] == Begin(items)
    requires forall m :: i < m <= j ==> run[m].prod.Running?
    ensures run[j].prod.op.inserted == Inserts(acts, i, j)
    decreases j
  {
    assert StepAt(run, acts, j - 1);
    InsertedMoves(run[j - 1], acts[j - 1], run[j]);
    if i == j - 1 {
      assert Inserts(acts, i, i) == 0;
    } else {
      InsertsCounted(run, acts, i, j - 1, items);
      assert run[j - 1].prod.Running?;
    }
  }

  /**
    A call that fails, at any point and with any consumers, returns false with the queue as it was,
    and leaves "slots used equals ring length" right if and only if it had inserted no block.
   */
  lemma FailedCall(run: seq<State>, acts: seq<Action>, i: nat, j: nat, items: seq<Elem>)
    requires IsRun(run, acts) && SoundUpTo(run, acts, i) && i < j < |acts| && acts[i] == Begin(items) && acts[j] == Fail
    requires forall m :: i < m <= j ==> run[m].prod.Running?
    ensures run[j + 1].prod == Ready(false) && run[j + 1].tail == run[i].tail && run[j + 1].elems == run[j].elems
    ensures CountIsRight(run[j + 1]) <==> Inserts(acts, i, j) == 0
  {
    InsertsCounted(run, acts, i, j, items);
    StillUnderway(run, acts, i, j, items);
    RunStep(run, acts, j);
    FailureKeepsCount(run[j], run[j].prod.op);
  }

  // ---- Before the call: when does it fail, and with what? ----

  /** What the two acquisition loops do next. */
  ghost function Choice(s: State, p: Supply): Action
    requires Acquiring(s.prod)
  {
    var op := s.prod.op;
    if s.prod.stage.FromAhead? then if CanReuse(s) then Reuse else StopReuse
    else if op.need == 0 then Produce
    else if p.allowed <= op.inserted then Fail
    else if IndexFull(s) then if p.canGrow then Grow else Fail
    else if p.blocks <= op.inserted then Fail
    else Insert
  }

  /** The loops are over: there are enough blocks, or there is no next one. */
  ghost predicate Stopped(s: State, p: Supply) {
    Acquiring(s.prod) && (Choice(s, p) == Produce || Choice(s, p) == Fail)
  }

  /** What one round of the loops leads to. */
  ghost predicate Round(s: State, p: Supply, s': State) {
    && Acquiring(s.prod) && Next(s, Choice(s, p), s') && Inv(s') && Acquiring(s'.prod)
    && s'.prod.op.need <= s.prod.op.need
    && (s'.prod.op.need == s.prod.op.need ==>
          if s.prod.stage.FromAhead? then s'.prod.stage.FromPool?
          else IndexFull(s) && s'.prod.stage.FromPool? && !IndexFull(s'))
  }

  lemma RoundMoves(s: State, p: Supply)
    requires Inv(s) && Acquiring(s.prod) && !Stopped(s, p)
    ensures Enabled(s, Choice(s, p)) && InBounds(s, Choice(s, p)) && Round(s, p, Apply(s, Choice(s, p)))
  {
    ApplyInv(s, Choice(s, p));
    RoundMeasure(s, p, Apply(s, Choice(s, p)));
  }

  lemma RoundMeasure(s: State, p: Supply, s': State)
    requires Inv(s) && Acquiring(s.prod) && !Stopped(s, p) && Next(s, Choice(s, p), s')
    ensures Acquiring(s'.prod) && s'.prod.op.need <= s.prod.op.need
    ensures s'.prod.op.need == s.prod.op.need ==>
              if s.prod.stage.FromAhead? then s'.prod.stage.FromPool?
              else IndexFull(s) && s'.prod.stage.FromPool? && !IndexFull(s')
  {
  }

  /** The state in which the loops stop. */
  ghost function Settle(s: State, p: Supply): (r: State)
    requires Inv(s) && Acquiring(s.prod)
    ensures Inv(r) && Stopped(r, p)
    decreases s.prod.op.need, if s.prod.stage.FromAhead? then 1 else 0, if IndexFull(s) then 1 else 0
  {
    if Stopped(s, p) then s
    else
      RoundMoves(s, p);
      Settle(Apply(s, Choice(s, p)), p)
  }

  function Min(m: nat, n: nat): nat {
    if m < n then m else n
  }

  /** The number of blocks with all flags set that come first among numbers n to end. */
  ghost function EmptyRun(flags: seq<seq<bool>>, order: seq<Block>, n: nat, end: nat): nat
    decreases end - n
  {
    if n < end && n < |order| && order[n] < |flags| && AllSet(flags[order[n]]) then 1 + EmptyRun(flags, order, n + 1, end) else 0
  }

  /** How many more blocks the index has room for. */
  ghost function Room(s: State, p: Supply, wanted: nat): nat {
    if p.canGrow then wanted
    else if s.headers == [] || s.indexSize <= s.slotsUsed then 0
    else s.indexSize - s.slotsUsed
  }

  /** In the loop over the pool: how many blocks are still inserted. */
  ghost function Obtained(s: State, p: Supply): nat
    requires s.prod.Running?
  {
    var op := s.prod.op;
    Min(Min(op.need, Room(s, p, op.need)),
        if op.inserted < Min(p.blocks, p.allowed) then Min(p.blocks, p.allowed) - op.inserted else 0)
  }

  lemma {:induction false} PoolEnds(s: State, p: Supply)
    requires Inv(s) && s.prod.Running? && s.prod.stage.FromPool?
    ensures var r, op := Settle(s, p), s.prod.op;
            && r.prod.stage.FromPool? && r.prod.op.reused == op.reused
            && r.prod.op.inserted == op.inserted + Obtained(s, p)
            && r.prod.op.need == op.need - Obtained(s, p)
    decreases s.prod.op.need, if IndexFull(s) then 1 else 0
  {
    if !Stopped(s, p) {
      RoundMoves(s, p);
      var s' := Apply(s, Choice(s, p));
      PoolRound(s, p, s');
      PoolEnds(s', p);
    } else {
      PoolStops(s, p);
    }
  }

  lemma PoolStops(s: State, p: Supply)
    requires Inv(s) && s.prod.Running? && s.prod.stage.FromPool? && Stopped(s, p)
    ensures Obtained(s, p) == 0
  {
  }

  lemma PoolRound(s: State, p: Supply, s': State)
    requires Inv(s) && s.prod.Running? && s.prod.stage.FromPool? && !Stopped(s, p)
    requires Next(s, Choice(s, p), s')
    ensures s'.prod.Running? && s'.prod.stage.FromPool? && s'.prod.op.reused == s.prod.op.reused
    ensures s'.prod.op.inserted + Obtained(s', p) == s.prod.op.inserted + Obtained(s, p)
    ensures s'.prod.op.need + s'.prod.op.inserted == s.prod.op.need + s.prod.op.inserted
  {
  }

  /** A larger index was made for nothing. */
  lemma PoolGrows(s: State, p: Supply)
    requires Inv(s) && s.prod.Running? && s.prod.stage.FromPool? && s.prod.op.inserted == 0 && !s.prod.op.grown
    requires Obtained(s, p) == 0
    ensures Settle(s, p).prod.op.grown <==> s.prod.op.need > 0 && p.allowed > 0 && IndexFull(s) && p.canGrow
  {
    if !Stopped(s, p) {
      RoundMoves(s, p);
      var s' := Apply(s, Choice(s, p));
      PoolRound(s, p, s');
      assert Choice(s, p) == Grow && Stopped(s', p);
    }
  }

  // What the call gets, from what can be seen before it.

  /** Blocks from the pool for a call that still needs q. */
  ghost function FromSupply(s: State, p: Supply, q: nat): nat {
    Min(Min(q, Room(s, p, q)), Min(p.blocks, p.allowed))
  }

  lemma CanReuseMeans(s: State)
    requires Inv(s) && s.prod.Running? && s.prod.stage.FromAhead?
    ensures CanReuse(s) <==>
              && s.prod.op.need > 0 && s.lo < s.prod.op.start
              && s.order[s.lo] < |s.flags| && AllSet(s.flags[s.order[s.lo]])
  {
    var op := s.prod.op;
    assert OperationOk(op, s.order, s.lo, s.tail);
    if s.order != [] {
      AheadIsOldest(s);
      if op.start < |s.order| && s.lo < op.start {
        assert Apart(s.order, s.lo, op.start);
      }
    }
  }

  lemma AheadRound(s: State, p: Supply, s': State)
    requires Inv(s) && s.prod.Running? && s.prod.stage.FromAhead? && Next(s, Choice(s, p), s')
    ensures var op := s.prod.op;
            if CanReuse(s)
            then s'.prod == Running(s'.prod.op, FromAhead) && s'.prod.op.need == op.need - 1 && s'.prod.op.reused == op.reused + 1
                 && s'.prod.op.start == op.start && s'.lo == s.lo + 1 && s.order <= s'.order
                 && s'.headers != [] && s.headers != []
            else s' == s.(prod := Running(op, FromPool))
    ensures s'.flags == s.flags && s'.slotsUsed == s.slotsUsed && s'.indexSize == s.indexSize
    ensures s'.prod.op.inserted == s.prod.op.inserted && s'.prod.op.grown == s.prod.op.grown
  {
  }

  lemma {:induction false} EmptyRunGrows(flags: seq<seq<bool>>, order: seq<Block>, order': seq<Block>, n: nat, end: nat)
    requires order <= order' && end <= |order|
    ensures EmptyRun(flags, order', n, end) == EmptyRun(flags, order, n, end)
    decreases end - n
  {
    if n < end && order[n] < |flags| && AllSet(flags[order[n]]) {
      EmptyRunGrows(flags, order, order', n + 1, end);
    }
  }

  /** In the loop over the blocks ahead: the loops end in `r` after reusing e more. */
  ghost predicate Ends(s: State, p: Supply, r: State, e: nat) {
    && s.prod.Running? && r.prod.Running? && e <= s.prod.op.need
    && var op, j := s.prod.op, FromSupply(s, p, s.prod.op.need - e);
       && r.prod.stage.FromPool? && r.prod.op.reused == op.reused + e
       && r.prod.op.inserted == j && r.prod.op.need == op.need - e - j
       && (j == 0 ==> (r.prod.op.grown <==> op.need > e && p.allowed > 0 && IndexFull(s) && p.canGrow))
  }

  lemma EndsEarlier(s: State, p: Supply, s': State, r: State, e: nat)
    requires s.prod.Running? && s'.prod.Running? && Ends(s', p, r, e)
    requires s.prod.op.need == s'.prod.op.need + 1 && s'.prod.op.reused == s.prod.op.reused + 1
    requires s'.headers != [] && s.headers != [] && s'.slotsUsed == s.slotsUsed && s'.indexSize == s.indexSize
    ensures Ends(s, p, r, e + 1)
  {
  }

  lemma EndsHere(s: State, p: Supply)
    requires Inv(s) && s.prod.Running? && s.prod.stage.FromPool? && s.prod.op.inserted == 0 && !s.prod.op.grown
    ensures Ends(s, p, Settle(s, p), 0)
  {
    PoolEnds(s, p);
    if Obtained(s, p) == 0 {
      PoolGrows(s, p);
    }
  }

  /** One round of the loop over the blocks ahead. */
  ghost predicate AheadTo(s: State, s': State) {
    && s.prod.Running? && s'.prod.Running? && s'.prod.op.inserted == s.prod.op.inserted && s'.prod.op.grown == s.prod.op.grown
    && if s.prod.op.need > 0 && s.lo < s.prod.op.start <= |s.order| && s.order[s.lo] < |s.flags| && AllSet(s.flags[s.order[s.lo]])
       then && s'.prod.stage.FromAhead? && s.prod.op.need == s'.prod.op.need + 1 && s'.prod.op.reused == s.prod.op.reused + 1
            && s'.lo == s.lo + 1 && s.order <= s'.order && s'.flags == s.flags && s'.prod.op.start == s.prod.op.start
            && s'.headers != [] && s.headers != [] && s'.slotsUsed == s.slotsUsed && s'.indexSize == s.indexSize
       else s' == s.(prod := Running(s.prod.op, FromPool))
  }

  lemma AheadMoves(s: State, p: Supply) returns (s': State)
    requires Inv(s) && s.prod.Running? && s.prod.stage.FromAhead?
    ensures AheadTo(s, s') && Inv(s') && Acquiring(s'.prod) && Settle(s, p) == Settle(s', p)
  {
    RoundMoves(s, p);
    s' := Apply(s, Choice(s, p));
    CanReuseMeans(s);
    AheadRound(s, p, s');
    assert OperationOk(s.prod.op, s.order, s.lo, s.tail);
  }

  ghost function ReuseCount(s: State): nat
    requires s.prod.Running?
  {
    Min(s.prod.op.need, EmptyRun(s.flags, s.order, s.lo, s.prod.op.start))
  }

  lemma {:induction false} AheadEnds(s: State, p: Supply)
    requires Inv(s) && s.prod.Running? && s.prod.stage.FromAhead? && s.prod.op.inserted == 0 && !s.prod.op.grown
    ensures Ends(s, p, Settle(s, p), ReuseCount(s))
    decreases s.prod.op.need
  {
    var s' := AheadMoves(s, p);
    if s'.prod.stage.FromAhead? {
      AheadEnds(s', p);
      ReuseEnds(s, p, s', Settle(s', p));
    } else {
      EndsHere(s', p);
      StopEnds(s, p, s', Settle(s', p));
    }
  }

  lemma ReuseEnds(s: State, p: Supply, s': State, r: State)
    requires AheadTo(s, s') && s'.prod.stage.FromAhead? && Ends(s', p, r, ReuseCount(s'))
    ensures Ends(s, p, r, ReuseCount(s))
  {
    ReuseCounts(s, s');
    EndsEarlier(s, p, s', r, ReuseCount(s'));
  }

  lemma StopEnds(s: State, p: Supply, s': State, r: State)
    requires AheadTo(s, s') && s'.prod.stage.FromPool? && s.prod.op.start <= |s.order| && Ends(s', p, r, 0)
    ensures Ends(s, p, r, ReuseCount(s))
  {
    StopCounts(s);
    EndsBefore(s, p, s', r);
  }

  lemma EndsBefore(s: State, p: Supply, s': State, r: State)
    requires s.prod.Running? && s' == s.(prod := Running(s.prod.op, FromPool)) && Ends(s', p, r, 0)
    ensures Ends(s, p, r, 0)
  {
  }

  lemma ReuseCounts(s: State, s': State)
    requires s.prod.Running? && s'.prod.Running? && s.lo < s.prod.op.start <= |s.order| && s.prod.op.need == s'.prod.op.need + 1
    requires s.order[s.lo] < |s.flags| && AllSet(s.flags[s.order[s.lo]])
    requires s'.lo == s.lo + 1 && s.order <= s'.order && s'.flags == s.flags && s'.prod.op.start == s.prod.op.start
    ensures ReuseCount(s) == ReuseCount(s') + 1
  {
    EmptyRunGrows(s.flags, s.order, s'.order, s.lo + 1, s.prod.op.start);
  }

  lemma StopCounts(s: State)
    requires s.prod.Running? && s.prod.op.start <= |s.order|
    requires s.lo < s.prod.op.start <= |s.order| ==>
               s.prod.op.need == 0 || s.order[s.lo] >= |s.flags| || !AllSet(s.flags[s.order[s.lo]])
    ensures ReuseCount(s) == 0
  {
  }

  // ---- The outcome of a call, from what can be seen before it ----

  /** Blocks the call needs. */
  ghost function Needed(s: State, items: seq<Elem>): nat {
    Circular.BasesIn(s.tail, |items|, BLOCK_SIZE)
  }

  /** Blocks it can reuse. */
  ghost function Reusable(s: State, items: seq<Elem>): nat {
    Min(Needed(s, items), EmptyRun(s.flags, s.order, s.lo, |s.order|))
  }

  /** Blocks from the pool that it asks for. */
  ghost function Missing(s: State, items: seq<Elem>): nat {
    Needed(s, items) - Reusable(s, items)
  }

  /** Blocks from the pool that it gets. */
  ghost function Got(s: State, items: seq<Elem>, p: Supply): nat {
    FromSupply(s, p, Missing(s, items))
  }

  /** The state in which the acquisition loops of a call stop. */
  ghost function Acquired(s: State, items: seq<Elem>, p: Supply): (r: State)
    requires Inv(s) && s.prod.Ready? && Needed(s, items) > 0
    ensures Inv(r) && Stopped(r, p)
  {
    BeginInv(s, items);
    Settle(Apply(s, Begin(items)), p)
  }

  lemma CallOutcome(s: State, items: seq<Elem>, p: Supply)
    requires Inv(s) && s.prod.Ready? && Needed(s, items) > 0
    ensures var r, q, j := Acquired(s, items, p), Missing(s, items), Got(s, items, p);
            && r.prod.Running? && r.prod.stage.FromPool?
            && r.prod.op.reused == Reusable(s, items) && r.prod.op.inserted == j && r.prod.op.need == q - j
            && (Choice(r, p) == Fail <==> j < q)
            && (j == 0 ==> (r.prod.op.grown <==> q > 0 && p.allowed > 0 && IndexFull(s) && p.canGrow))
  {
    BeginInv(s, items);
    var s' := Apply(s, Begin(items));
    BeginStarts(s, items, s');
    AheadEnds(s', p);
    StoppedMeans(Settle(s', p), p);
  }

  lemma BeginStarts(s: State, items: seq<Elem>, s': State)
    requires s.prod.Ready? && Needed(s, items) > 0 && s' == Apply(s, Begin(items))
    ensures s'.prod.Running? && s'.prod.stage.FromAhead? && !s'.prod.op.grown
    ensures s'.prod.op.inserted == s'.prod.op.reused == 0 && s'.prod.op.need == Needed(s, items)
    ensures s'.prod.op.start == |s.order| && ReuseCount(s') == Reusable(s, items)
    ensures forall p: Supply, q: nat :: FromSupply(s', p, q) == FromSupply(s, p, q)
    ensures IndexFull(s') == IndexFull(s)
  {
  }

  lemma StoppedMeans(r: State, p: Supply)
    requires Stopped(r, p)
    ensures r.prod.stage.FromPool? && (Choice(r, p) == Fail <==> r.prod.op.need > 0)
  {
  }

  /**
    A call that meets no interference wants q blocks from the pool and gets j of them, both known
    beforehand. It fails exactly when j < q, and then the count survives exactly when j is 0.
   */
  lemma CountAfterCall(s: State, items: seq<Elem>, p: Supply)
    requires Inv(s) && s.prod.Ready? && Needed(s, items) > 0
    ensures var r, q, j := Acquired(s, items, p), Missing(s, items), Got(s, items, p);
            && r.prod.Running?
            && (Choice(r, p) == Fail <==> j < q)
            && (j < q ==> (CountIsRight(FailStep(r, r.prod.op)) <==> j == 0))
  {
    CallOutcome(s, items, p);
    var r := Acquired(s, items, p);
    FailureKeepsCount(r, r.prod.op);
  }

  /**
    The invariant survives exactly when, besides, no block was reused before the index was replaced
    by one that is then not filled.
   */
  lemma InvariantAfterCall(s: State, items: seq<Elem>, p: Supply)
    requires Inv(s) && s.prod.Ready? && Needed(s, items) > 0 && Got(s, items, p) < Missing(s, items)
    ensures var r := Acquired(s, items, p);
            && r.prod.Running?
            && (Inv(FailStep(r, r.prod.op)) <==>
                  Got(s, items, p) == 0
                  && (Reusable(s, items) > 0 ==> p.allowed == 0 || !IndexFull(s) || !p.canGrow))
  {
    CallOutcome(s, items, p);
    var r := Acquired(s, items, p);
    FailMoves(r, r.prod.op);
  }

  // What is computed by these functions is a run.

  ghost predicate Chosen(run: seq<State>, acts: seq<Action>, p: Supply, i: nat) {
    StepAt(run, acts, i) && Acquiring(run[i].prod) && acts[i] == Choice(run[i], p)
  }

  /** A run of such choices from s to r. */
  ghost predicate Leads(s: State, run: seq<State>, acts: seq<Action>, p: Supply, r: State) {
    && |run| == |acts| + 1 && run[0] == s && run[|acts|] == r
    && forall i :: 0 <= i < |acts| ==> Chosen(run, acts, p, i)
  }

  lemma LeadsFrom(s: State, s': State, run: seq<State>, acts: seq<Action>, p: Supply, r: State)
    requires Leads(s', run, acts, p, r) && Acquiring(s.prod) && Next(s, Choice(s, p), s')
    ensures Leads(s, [s] + run, [Choice(s, p)] + acts, p, r)
  {
    var run', acts' := [s] + run, [Choice(s, p)] + acts;
    forall i | 0 <= i < |acts'| ensures Chosen(run', acts', p, i) {
      assert i > 0 ==> Chosen(run, acts, p, i - 1);
    }
  }

  lemma SettleMoves(s: State, p: Supply) returns (s': State)
    requires Inv(s) && Acquiring(s.prod) && !Stopped(s, p)
    ensures Round(s, p, s') && Settle(s, p) == Settle(s', p)
  {
    RoundMoves(s, p);
    s' := Apply(s, Choice(s, p));
  }

  lemma {:induction false} SettleIsRun(s: State, p: Supply) returns (run: seq<State>, acts: seq<Action>)
    requires Inv(s) && Acquiring(s.prod)
    ensures Leads(s, run, acts, p, Settle(s, p))
    decreases s.prod.op.need, if s.prod.stage.FromAhead? then 1 else 0, if IndexFull(s) then 1 else 0
  {
    if Stopped(s, p) {
      run, acts := [s], [];
    } else {
      var s' := SettleMoves(s, p);
      run, acts := SettleIsRun(s', p);
      LeadsFrom(s, s', run, acts, p, Settle(s, p));
      run, acts := [s] + run, [Choice(s, p)] + acts;
    }
  }
}
