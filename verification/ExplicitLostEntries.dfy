module ExplicitLostEntries {
  /**
    Index entries lost to a failing bulk enqueue that keeps the count.

    Blocks taken from ahead are entered in the index at once. When the call then fails, they are
    the oldest of the ring again, but if the index had no slots to spare their new entries have
    replaced their old ones. Consumers never want those; the destructor starts from them.
   */

  import opened Basics
  import opened Blocks
  import opened Deliveries
  import opened ExplicitQueue
  import opened ExplicitFrames
  import opened ExplicitProducerSteps
  import opened ExplicitFifo
  import opened ExplicitFailure

  /** All blocks of the ring have their entries, and only reusing blocks can change that. */
  ghost predicate Whole(s: State) {
    && s.low <= s.lo
    && (Acquiring(s.prod) && !s.prod.op.grown ==> s.low <= s.prod.op.lo0 || s.low + s.indexSize <= |s.order|)
  }

  /** A failing exit has reused no more blocks than the index had slots to spare. */
  predicate Spares(s: State, a: Action) {
    a.Fail? && s.prod.Running? ==> s.prod.op.used0 + s.prod.op.reused <= s.indexSize
  }

  lemma WholeMoves(s: State, a: Action, s': State)
    requires Inv(s) && Next(s, a, s') && Sound(s, a) && Whole(s) && Spares(s, a)
    ensures Whole(s')
  {
    if a.Consume? {
      ConsumeLeaves(s, a.t, s');
    } else {
      Windows(s);
      WholeFacts(s);
      ProduceWhole(s, a, s');
    }
  }

  lemma WholeFacts(s: State)
    requires Inv(s)
    ensures s.headers != [] ==> |s.order| - s.lo <= s.indexSize
    ensures s.slotsUsed == |s.order| - s.lo
    ensures s.prod.Running? ==> OperationOk(s.prod.op, s.order, s.lo, s.tail)
  {
  }

  lemma ProduceWhole(s: State, a: Action, s': State)
    requires Next(s, a, s') && Sound(s, a) && Whole(s) && Spares(s, a) && !a.Consume?
    requires s.headers != [] ==> |s.order| - s.lo <= s.indexSize
    requires s.slotsUsed == |s.order| - s.lo
    requires s.prod.Running? ==> OperationOk(s.prod.op, s.order, s.lo, s.tail)
    ensures Whole(s')
  {
  }

  lemma ConsumeLeaves(s: State, t: Tid, s': State)
    requires Next(s, Consume(t), s')
    ensures s'.prod == s.prod && s'.low == s.low && s'.lo == s.lo && s'.order == s.order && s'.indexSize == s.indexSize
  {
  }

  ghost predicate SparesAt(run: seq<State>, acts: seq<Action>, i: nat) {
    i < |acts| && i < |run| && Spares(run[i], acts[i])
  }

  /** In a run whose failing exits are of that kind, the index lists the whole ring. */
  lemma {:induction false} IndexIsWhole(run: seq<State>, acts: seq<Action>, n: nat)
    requires IsSoundRun(run, acts) && n < |run| && forall i :: 0 <= i < n ==> SparesAt(run, acts, i)
    ensures Whole(run[n])
    decreases n
  {
    if n > 0 {
      IndexIsWhole(run, acts, n - 1);
      WholeGoesOn(run, acts, n - 1);
    }
  }

  lemma WholeGoesOn(run: seq<State>, acts: seq<Action>, n: nat)
    requires IsSoundRun(run, acts) && n < |acts| && Whole(run[n]) && SparesAt(run, acts, n)
    ensures Whole(run[n + 1])
  {
    SoundStep(run, acts, n);
    WholeMoves(run[n], acts[n], run[n + 1]);
  }

  /**
    Otherwise the oldest slot in use, where the destructor starts to look for the block of head, has
    the base of a block past the tail, and not that of the oldest block.
   */
  lemma FailureHidesOldest(s: State, op: Operation)
    requires Inv(s) && s.prod == Running(op, FromPool) && op.need > 0 && SafeFail(op) && op.used0 + op.reused > s.indexSize
    ensures var s' := FailStep(s, op);
            && s'.slotsUsed > 0 && Lists(s'.headers, s'.nextSlot, s'.slotsUsed)
            && var base := Listed(Last(s'.headers).entries, s'.nextSlot, s'.slotsUsed, 0).base;
               base >= s'.tail >= s'.head && base > Base(s'.lo)
  {
    assert OperationOk(op, s.order, s.lo, s.tail);
    OldestSlot(s, op);
    BaseMonotone(op.start, op.lo0 + s.indexSize);
    BaseMonotone(op.lo0, op.lo0 + s.indexSize);
  }

  lemma OldestSlot(s: State, op: Operation)
    requires Inv(s) && s.prod == Running(op, FromPool) && SafeFail(op) && op.used0 + op.reused > s.indexSize
    ensures 0 < op.used0 <= s.indexSize
    ensures var s' := FailStep(s, op);
            && Lists(s'.headers, s'.nextSlot, s'.slotsUsed)
            && Listed(Last(s'.headers).entries, s'.nextSlot, s'.slotsUsed, 0).base == Base(op.lo0 + s.indexSize)
  {
    assert OperationOk(op, s.order, s.lo, s.tail) && Restorable(op, s.headers, s.indexSize);
    Windows(s);
    var h := Last(s.headers);
    assert HeaderOk(h, s.order, Kept(s));
    Rewritten(h, s.order, Kept(s), op.lo0, op.start, op.used0, op.front0);
  }

  /** The slot of number lo0 is now that of the number one round later. */
  lemma Rewritten(h: Header, order: seq<Block>, low: nat, lo0: nat, start: nat, used: nat, front: nat)
    requires HeaderOk(h, order, low) && used == start - lo0 <= h.size && h.first <= start
    requires low <= start && lo0 + h.size < |order| == h.filled
    requires front == SlotOf(start - h.first, h.size)
    ensures Back(front, used, h.size) < |h.entries| && h.entries[Back(front, used, h.size)].base == Base(lo0 + h.size)
  {
    SlotWraps(start - h.first, h.size);
    BackIsSlot(lo0 + h.size - h.first, used, h.size);
    assert EntryAt(h, order, lo0 + h.size);
  }

  /** A failing exit loses entries exactly when it had reused more blocks than there were slots to spare. */
  lemma LosesEntries(s: State, op: Operation)
    requires Inv(s) && Whole(s) && s.prod == Running(op, FromPool) && op.need > 0 && SafeFail(op)
    ensures FailStep(s, op).low <= FailStep(s, op).lo <==> op.used0 + op.reused <= s.indexSize
  {
    if op.used0 + op.reused <= s.indexSize {
      WholeMoves(s, Fail, FailStep(s, op));
    } else {
      FailureHidesOldest(s, op);
      FailInv(s, op);
      NotOldest(FailStep(s, op));
    }
  }

  lemma NotOldest(s: State)
    requires Inv(s) && s.slotsUsed > 0 && Lists(s.headers, s.nextSlot, s.slotsUsed)
    requires Listed(Last(s.headers).entries, s.nextSlot, s.slotsUsed, 0).base > Base(s.lo)
    ensures s.lo < s.low
  {
    ListedInState(s, 0);
  }

  // ---- From what can be seen before the call ----

  ghost predicate Kin(s: State, r: State) {
    && s.prod.Running? && r.prod.Running? && Whole(r) && r.prod.op.used0 == s.prod.op.used0
    && (!r.prod.op.grown ==> r.indexSize == s.indexSize && !s.prod.op.grown)
  }

  lemma RoundIsKin(s: State, p: Supply, s': State)
    requires Inv(s) && Whole(s) && Acquiring(s.prod) && !Stopped(s, p) && Next(s, Choice(s, p), s')
    ensures Kin(s, s')
  {
    WholeMoves(s, Choice(s, p), s');
  }

  lemma {:induction false} SettleIsKin(s: State, p: Supply)
    requires Inv(s) && Whole(s) && Acquiring(s.prod)
    ensures Kin(s, Settle(s, p))
    decreases s.prod.op.need, if s.prod.stage.FromAhead? then 1 else 0, if IndexFull(s) then 1 else 0
  {
    if !Stopped(s, p) {
      var s' := SettleMoves(s, p);
      RoundIsKin(s, p, s');
      SettleIsKin(s', p);
    }
  }

  /**
    A call that fails with nothing but reused blocks to undo leaves the index whole exactly when the
    slots in use and the blocks it could reuse fit into it.
   */
  lemma IndexAfterCall(s: State, items: seq<Elem>, p: Supply)
    requires Inv(s) && s.low <= s.lo && s.prod.Ready? && Needed(s, items) > 0
    requires Got(s, items, p) == 0 < Missing(s, items)
    requires Reusable(s, items) > 0 ==> p.allowed == 0 || !IndexFull(s) || !p.canGrow
    ensures var r := Acquired(s, items, p);
            && r.prod.Running? && Inv(FailStep(r, r.prod.op))
            && (FailStep(r, r.prod.op).low <= FailStep(r, r.prod.op).lo
                <==> Reusable(s, items) == 0 || s.slotsUsed + Reusable(s, items) <= s.indexSize)
  {
    CallOutcome(s, items, p);
    InvariantAfterCall(s, items, p);
    BeginInv(s, items);
    SettleIsKin(Apply(s, Begin(items)), p);
    var r := Acquired(s, items, p);
    LosesEntries(r, r.prod.op);
    UsedFits(r, r.prod.op);
  }

  lemma UsedFits(s: State, op: Operation)
    requires Inv(s) && s.prod == Running(op, FromPool) && SafeFail(op)
    ensures op.used0 <= s.slotsUsed && (s.headers != [] ==> s.slotsUsed <= s.indexSize) && (s.headers == [] ==> op.used0 == 0)
  {
    assert OperationOk(op, s.order, s.lo, s.tail);
  }
}
