module ImplicitRuns {
  /**
    What every run of an implicit producer and its consumers achieves: bulk enqueue is all or nothing,
    every element is delivered once, and every block goes back to the pool once, when it is empty.
   */

  import opened Basics
  import opened Blocks
  import opened Sequences
  import opened Deliveries
  import opened ImplicitQueue
  import opened ImplicitInvariant
  import opened ImplicitIndex
  import opened ImplicitProducer
  import opened ImplicitEnqueue
  import opened ImplicitConsumer
  import opened ImplicitOthers

  lemma ProduceMoves(s: State)
    requires Inv(s) && Enabled(s, Produce)
    ensures InBounds(s, Produce) && Inv(Apply(s, Produce))
  {
    var op := s.prod.op;
    match s.prod.stage
    case InsertTail(slot, e) => InsertTailMoves(s, op, slot, e);
    case Undo(at, base, k) => if at.At? { UndoMoves(s, op, at.block, base, k); } else { UndoneMoves(s, op, base, k); }
    case GiveBack(at, k) => if at.At? { GiveBackMoves(s, op, at.block, k); } else { GiveUpMoves(s, op, k); }
    case Construct(k, into) => if k < |op.items| { ConstructMoves(s, op, k, into); } else { ConstructDone(s, op, k, into); }
    case StoreTail => StoreTailMoves(s, op);
  }

  /** Every enabled action is in bounds, meets the source's assertions and keeps the invariant. */
  lemma ApplyInv(s: State, a: Action)
    requires Inv(s) && Enabled(s, a)
    ensures InBounds(s, a) && Inv(Apply(s, a))
  {
    match a
    case Begin(items) => BeginMoves(s, items);
    case Insert => NextEntryFacts(s, s.prod.op); InsertMoves(s, s.prod.op);
    case Grow => NextEntryFacts(s, s.prod.op); GrowMoves(s, s.prod.op);
    case GetBlock(b) => GetBlockMoves(s, s.prod.op, s.prod.stage.entry, b);
    case OutOfMemory => OutOfMemoryMoves(s, s.prod.op, s.prod.stage.entry);
    case Refuse => RefuseMoves(s, s.prod.op);
    case Produce => ProduceMoves(s);
    case Claim(t, count) => ClaimMoves(s, t, count);
    case Consume(t) => ConsumeMoves(s, t);
    case Others(b, move) => OthersMove(s, b, move);
  }

  ghost predicate Next(s: State, a: Action, s': State) {
    Enabled(s, a) && InBounds(s, a) && s' == Apply(s, a)
  }

  ghost predicate StepAt(run: seq<State>, acts: seq<Action>, i: nat) {
    i < |acts| && i + 1 < |run| && Next(run[i], acts[i], run[i + 1])
  }

  ghost predicate IsRun(run: seq<State>, acts: seq<Action>, capacity: nat) {
    && |run| == |acts| + 1
    && Init(run[0], capacity)
    && forall i :: 0 <= i < |acts| ==> StepAt(run, acts, i)
  }

  lemma {:induction false} RunsAreSafe(run: seq<State>, acts: seq<Action>, capacity: nat, i: nat)
    requires IsRun(run, acts, capacity) && i < |run|
    ensures Inv(run[i])
    decreases i
  {
    if i == 0 {
      InitInv(run[0], capacity);
    } else {
      RunsAreSafe(run, acts, capacity, i - 1);
      RunStep(run, acts, capacity, i - 1);
      NextInv(run[i - 1], acts[i - 1], run[i]);
    }
  }

  lemma NextInv(s: State, a: Action, s': State)
    requires Inv(s) && Next(s, a, s')
    ensures Inv(s')
  {
    ApplyInv(s, a);
  }

  lemma RunStep(run: seq<State>, acts: seq<Action>, capacity: nat, i: nat)
    requires IsRun(run, acts, capacity) && i < |acts|
    ensures i + 1 < |run| && Next(run[i], acts[i], run[i + 1])
  {
    assert StepAt(run, acts, i);
  }

  // ---- Bulk enqueue is all or nothing ----

  /** The current index as the producer sees it: the slot after its tail is the next number's. */
  ghost predicate TailRestored(s: State) {
    && s.headers != []
    && var h := Last(s.headers);
    && h.capacity > 0 && h.first <= |s.phase|
    && NextSlot(h.tail, h.capacity) == SlotOf(|s.phase| - h.first, h.capacity)
  }

  /** No entry holds a block that is not that of an enqueued number. */
  ghost predicate EntriesClear(s: State) {
    forall n :: s.lo <= n < |s.ent| && n >= |s.phase| ==> s.ent[n] < |s.vals| && s.vals[s.ent[n]] == Nothing
  }

  /** Every block that neither the pool nor another producer has is that of an enqueued number. */
  ghost predicate BlocksReturned(s: State) {
    forall b :: 0 <= b < |s.where| && b !in s.pool && s.where[b] != ELSEWHERE ==> 0 <= s.where[b] < |s.phase|
  }

  lemma BetweenOperations(s: State)
    requires Inv(s) && s.prod.Ready?
    ensures TailRestored(s) && EntriesClear(s) && BlocksReturned(s)
  {
    forall n | s.lo <= n < |s.ent| && n >= |s.phase| ensures s.ent[n] < |s.vals| && s.vals[s.ent[n]] == Nothing {
      assert ValueAt(s.vals, s.ent, s.order, s.phase, |s.phase|, n);
    }
    forall b | 0 <= b < |s.where| && b !in s.pool && s.where[b] != ELSEWHERE ensures 0 <= s.where[b] < |s.phase| {
      assert PlaceAt(s.order, s.phase, s.where, s.pool, 0, b);
    }
  }

  /** The queue, the tail index and the tail block. */
  ghost predicate SameTail(s: State, s': State) {
    && s.tail <= |s.elems| && s'.tail <= |s'.elems|
    && s'.tail == s.tail && s'.tailBlock == s.tailBlock && Enqueued(s'.elems, s'.tail) == Enqueued(s.elems, s.tail)
  }

  lemma TailMoves(s: State, a: Action, s': State)
    requires Inv(s) && Next(s, a, s')
    ensures s.tail <= |s.elems| && s'.tail <= |s'.elems|
    ensures if a == Produce && s.prod.stage == StoreTail then Enqueued(s'.elems, s'.tail) == Enqueued(s.elems, s.tail) + s.prod.op.items
            else SameTail(s, s')
  {
    if a.Consume? {
      ConsumeKeeps(s, a.t);
    } else {
      ProduceKeeps(s, a);
    }
    assert s'.elems[..s.tail] == s.elems[..s.tail];
    if a == Produce && s.prod.stage == StoreTail {
      assert s.elems == s.elems[..s.tail] + s.elems[s.tail..];
    }
  }

  lemma ConsumeKeeps(s: State, t: Tid)
    requires Inv(s) && t < |s.cons| && s.cons[t].Busy? && ConsumeInBounds(s, t)
    ensures var s' := ConsumeStep(s, t);
            && s'.elems == s.elems && s'.tail == s.tail && s'.tailBlock == s.tailBlock && s'.prod == s.prod
            && s'.tail <= |s'.elems|
  {
  }

  lemma ProduceKeeps(s: State, a: Action)
    requires Inv(s) && Enabled(s, a) && InBounds(s, a) && !a.Consume?
    ensures var s' := Apply(s, a);
            && s.elems <= s'.elems && s.tail <= |s.elems| && s'.tail <= |s'.elems|
            && if a == Produce && s.prod.stage == StoreTail
               then s'.elems == s.elems && s'.tail == |s.elems| && s.elems[s.tail..] == s.prod.op.items
               else s'.tail == s.tail && s'.tailBlock == s.tailBlock
  {
  }

  /** Between the call with `items` and its return, with the tail as it was at the call. */
  ghost predicate Underway(s0: State, s: State, items: seq<Elem>) {
    s.prod.Running? && s.prod.op.items == items && SameTail(s0, s)
  }

  /** After the call: everything was appended, or the tail is as it was, and the result says which. */
  ghost predicate Returned(s0: State, s: State, items: seq<Elem>) {
    && s.prod.Ready? && s0.tail <= |s0.elems| && s.tail <= |s.elems|
    && (s.prod.result ==> Enqueued(s.elems, s.tail) == Enqueued(s0.elems, s0.tail) + items)
    && (!s.prod.result ==> SameTail(s0, s))
  }

  lemma OperationKeeps(s0: State, s: State, a: Action, s': State, items: seq<Elem>)
    requires Inv(s) && Next(s, a, s') && Underway(s0, s, items)
    ensures Underway(s0, s', items) || Returned(s0, s', items)
  {
    TailMoves(s, a, s');
    if a.Consume? {
      ConsumeKeeps(s, a.t);
    } else {
      ResultTells(s, a, s');
    }
  }

  /** A call that ends has stored the tail, or failed. */
  lemma ResultTells(s: State, a: Action, s': State)
    requires Next(s, a, s') && !a.Consume? && s.prod.Running?
    ensures s'.prod.Running? ==> s'.prod.op.items == s.prod.op.items && !(a == Produce && s.prod.stage == StoreTail)
    ensures s'.prod.Ready? ==> a == Produce && s'.prod.result == (s.prod.stage == StoreTail)
  {
  }

  lemma BeginKeeps(s: State, items: seq<Elem>, s': State)
    requires Inv(s) && Next(s, Begin(items), s')
    ensures Underway(s, s', items)
  {
  }

  lemma RunBegins(run: seq<State>, acts: seq<Action>, capacity: nat, i: nat, items: seq<Elem>)
    requires IsRun(run, acts, capacity) && i + 1 < |run| && acts[i] == Begin(items)
    ensures Underway(run[i], run[i + 1], items)
  {
    RunsAreSafe(run, acts, capacity, i);
    RunStep(run, acts, capacity, i);
    BeginKeeps(run[i], items, run[i + 1]);
  }

  lemma RunKeeps(run: seq<State>, acts: seq<Action>, capacity: nat, s0: State, j: nat, items: seq<Elem>)
    requires IsRun(run, acts, capacity) && j + 1 < |run| && Underway(s0, run[j], items)
    ensures Underway(s0, run[j + 1], items) || Returned(s0, run[j + 1], items)
  {
    RunsAreSafe(run, acts, capacity, j);
    RunStep(run, acts, capacity, j);
    OperationKeeps(s0, run[j], acts[j], run[j + 1], items);
  }

  lemma {:induction false} StillUnderway(run: seq<State>, acts: seq<Action>, capacity: nat, i: nat, j: nat, items: seq<Elem>)
    requires IsRun(run, acts, capacity) && i < j < |run| && acts[i] == Begin(items)
    requires forall m :: i < m < j ==> run[m].prod.Running?
    ensures Underway(run[i], run[j], items) || Returned(run[i], run[j], items)
    decreases j
  {
    if i == j - 1 {
      RunBegins(run, acts, capacity, i, items);
    } else {
      StillUnderway(run, acts, capacity, i, j - 1, items);
      RunKeeps(run, acts, capacity, run[i], j - 1, items);
    }
  }

  /**
    An enqueue of any number of elements, interleaved with any consumers and with other producers on
    the same pool, returns true after appending all of them, or false with the queue and the tail as
    they were; either way the index tail is where the next block belongs, no entry holds a block that
    is not enqueued, and no other block is kept.
   */
  lemma AllOrNothing(run: seq<State>, acts: seq<Action>, capacity: nat, i: nat, j: nat, items: seq<Elem>)
    requires IsRun(run, acts, capacity) && i < j < |run| && acts[i] == Begin(items) && run[j].prod.Ready?
    requires forall m :: i < m < j ==> run[m].prod.Running?
    ensures run[i].tail <= |run[i].elems| && run[j].tail <= |run[j].elems|
    ensures if run[j].prod.result then Enqueued(run[j].elems, run[j].tail) == Enqueued(run[i].elems, run[i].tail) + items
            else SameTail(run[i], run[j])
    ensures TailRestored(run[j]) && EntriesClear(run[j]) && BlocksReturned(run[j])
  {
    StillUnderway(run, acts, capacity, i, j, items);
    RunReturns(run, acts, capacity, j);
  }

  lemma RunReturns(run: seq<State>, acts: seq<Action>, capacity: nat, j: nat)
    requires IsRun(run, acts, capacity) && j < |run| && run[j].prod.Ready?
    ensures TailRestored(run[j]) && EntriesClear(run[j]) && BlocksReturned(run[j])
  {
    RunsAreSafe(run, acts, capacity, j);
    BetweenOperations(run[j]);
  }

  // ---- Every element is delivered exactly once ----

  function SpanOf(c: Consumer): Span {
    if c.Busy? then Held(c.first, c.end) else Free
  }

  function Spans(cons: seq<Consumer>): (r: seq<Span>)
    ensures |r| == |cons| && forall t :: 0 <= t < |cons| ==> r[t] == SpanOf(cons[t])
  {
    seq(|cons|, t requires 0 <= t < |cons| => SpanOf(cons[t]))
  }

  /** An index that is claimed and not counted is wanted by its owner. */
  ghost predicate Wanted(owner: seq<Tid>, done: seq<bool>, cons: seq<Consumer>, i: nat) {
    && i < |owner| && i < |done|
    && (done[i] || (owner[i] < |cons| && cons[owner[i]].Busy? && cons[owner[i]].from <= i < cons[owner[i]].end))
  }

  ghost predicate HistoryInv(s: State) {
    && HistoryOk(s.owner, Spans(s.cons), s.log)
    && |s.owner| == |s.done| && forall i :: 0 <= i < |s.done| ==> Wanted(s.owner, s.done, s.cons, i)
  }

  lemma ClaimHistory(s: State, t: Tid, count: nat)
    requires Inv(s) && Enabled(s, Claim(t, count)) && HistoryInv(s)
    ensures HistoryInv(ClaimStep(s, t, count))
  {
    var s' := ClaimStep(s, t, count);
    NewClaim(s.owner, Spans(s.cons), s.log, t, count);
    assert Spans(s'.cons) == Spans(s.cons)[t := Held(s.head, s.head + count)];
    forall i | 0 <= i < |s'.done| ensures Wanted(s'.owner, s'.done, s'.cons, i) {
      assert i < |s.done| ==> Wanted(s.owner, s.done, s.cons, i);
    }
  }

  /** A consumer keeps what it has claimed until it is done, and then delivers it. */
  lemma ConsumerEnds(s: State, t: Tid, s': State)
    requires Inv(s) && t < |s.cons| && s.cons[t].Busy? && ConsumeInBounds(s, t) && s' == ConsumeStep(s, t)
    ensures |s'.cons| == |s.cons| && s'.cons == s.cons[t := s'.cons[t]] && s'.owner == s.owner
    ensures var c := s.cons[t];
            if s'.cons[t].Idle? then s'.log == s.log + [Delivery(t, c.first, c.end, c.got)]
            else s'.log == s.log && s'.cons[t].first == c.first && s'.cons[t].end == c.end
  {
    ConsumerFacts(s, t);
  }

  lemma DeliverHistory(s: State, t: Tid, s': State)
    requires Inv(s) && t < |s.cons| && s.cons[t].Busy? && ConsumeInBounds(s, t) && HistoryInv(s)
    requires s' == ConsumeStep(s, t)
    ensures HistoryOk(s'.owner, Spans(s'.cons), s'.log) && s'.owner == s.owner
  {
    ConsumerFacts(s, t);
    ConsumerEnds(s, t, s');
    var c := s.cons[t];
    if s'.cons[t].Idle? {
      Finish(s.owner, Spans(s.cons), s.log, t, Delivery(t, c.first, c.end, c.got));
      assert Spans(s'.cons) == Spans(s.cons)[t := Free];
    } else {
      assert Spans(s'.cons) == Spans(s.cons);
    }
  }

  lemma CountHistory(s: State, t: Tid, s': State)
    requires Inv(s) && t < |s.cons| && s.cons[t].Busy? && ConsumeInBounds(s, t) && HistoryInv(s)
    requires s' == ConsumeStep(s, t)
    ensures |s'.owner| == |s'.done| && forall i :: 0 <= i < |s'.done| ==> Wanted(s'.owner, s'.done, s'.cons, i)
  {
    CountChanges(s, t, s');
    forall i | 0 <= i < |s'.done| ensures Wanted(s'.owner, s'.done, s'.cons, i) {
      assert Wanted(s.owner, s.done, s.cons, i);
    }
  }

  /** A consumer's first uncounted index moves past exactly what it counts. */
  lemma CountChanges(s: State, t: Tid, s': State)
    requires Inv(s) && t < |s.cons| && s.cons[t].Busy? && ConsumeInBounds(s, t)
    requires s' == ConsumeStep(s, t)
    ensures s'.owner == s.owner && |s'.done| == |s.done| && |s'.cons| == |s.cons| && s'.cons == s.cons[t := s'.cons[t]]
    ensures forall i :: 0 <= i < |s.done| && s.done[i] ==> s'.done[i]
    ensures forall i :: 0 <= i < |s.done| && s.cons[t].from <= i < s.cons[t].end ==>
              s'.done[i] || (s'.cons[t].Busy? && s'.cons[t].from <= i < s'.cons[t].end)
  {
    ConsumerFacts(s, t);
    if s.cons[t].stage.SetEmpty? {
      CountsHere(s, t, s.cons[t], s');
    } else {
      CountsNothing(s, t, s.cons[t], s');
    }
  }

  lemma CountsHere(s: State, t: Tid, c: Consumer, s': State)
    requires t < |s.cons| && s.cons[t] == c && c.Busy? && c.stage.SetEmpty? && ConsumeInBounds(s, t) && s' == ConsumeStep(s, t)
    ensures s'.owner == s.owner && s'.cons == s.cons[t := s'.cons[t]]
    ensures c.from <= c.index <= |s.done| && s'.done == Flagged(s.done, c.from, c.index - c.from)
    ensures if s'.cons[t].Idle? then c.index == c.end else s'.cons[t].from == c.index && s'.cons[t].end == c.end
  {
  }

  lemma CountsNothing(s: State, t: Tid, c: Consumer, s': State)
    requires t < |s.cons| && s.cons[t] == c && c.Busy? && !c.stage.SetEmpty? && ConsumeInBounds(s, t) && s' == ConsumeStep(s, t)
    ensures s'.owner == s.owner && s'.cons == s.cons[t := s'.cons[t]] && s'.done == s.done
    ensures if s'.cons[t].Idle? then c.from == c.end else s'.cons[t].from == c.from && s'.cons[t].end == c.end
  {
  }

  lemma OtherHistory(s: State, a: Action)
    requires Inv(s) && Enabled(s, a) && InBounds(s, a) && !a.Claim? && !a.Consume?
    ensures var s' := Apply(s, a); s'.cons == s.cons && s'.log == s.log && s'.owner == s.owner && s'.done == s.done
  {
  }

  lemma HistoryNext(s: State, a: Action, s': State)
    requires Inv(s) && Next(s, a, s') && HistoryInv(s)
    ensures HistoryInv(s')
  {
    match a
    case Claim(t, count) => ClaimHistory(s, t, count);
    case Consume(t) => DeliverHistory(s, t, s'); CountHistory(s, t, s');
    case _ => OtherHistory(s, a);
  }

  lemma InitHistory(s: State, capacity: nat)
    requires Init(s, capacity)
    ensures HistoryInv(s)
  {
  }

  lemma {:induction false} HistoryHolds(run: seq<State>, acts: seq<Action>, capacity: nat, n: nat)
    requires IsRun(run, acts, capacity) && n < |run|
    ensures HistoryInv(run[n])
    decreases n
  {
    if n == 0 {
      InitHistory(run[0], capacity);
    } else {
      HistoryHolds(run, acts, capacity, n - 1);
      HistoryGoesOn(run, acts, capacity, n - 1);
    }
  }

  lemma HistoryGoesOn(run: seq<State>, acts: seq<Action>, capacity: nat, n: nat)
    requires IsRun(run, acts, capacity) && n < |acts| && HistoryInv(run[n])
    ensures HistoryInv(run[n + 1])
  {
    RunsAreSafe(run, acts, capacity, n);
    RunStep(run, acts, capacity, n);
    HistoryNext(run[n], acts[n], run[n + 1]);
  }

  /**
    In every state of every run, an index below `head` is either still claimed by its owner or
    delivered exactly once, to its owner, as the element that was enqueued at that position.
   */
  lemma DeliveredExactlyOnce(run: seq<State>, acts: seq<Action>, capacity: nat, n: nat, i: nat)
    requires IsRun(run, acts, capacity) && n < |run| && i < run[n].head
    ensures OnceAndOnlyOnce(run[n].owner, Spans(run[n].cons), run[n].log, run[n].elems, i)
  {
    HistoryHolds(run, acts, capacity, n);
    RunsAreSafe(run, acts, capacity, n);
    HistoryMeans(run[n].owner, Spans(run[n].cons), run[n].log, run[n].elems, i);
  }

  // ---- Every block is in one place and is freed once ----

  ghost predicate HoldsIn(s: State, n: nat, b: Block) {
    Holds(s.order, s.phase, Back(s.prod), n) && s.order[n] == b
  }

  /** A block is in the pool, or with another producer, or holds exactly one number. */
  lemma OnePlace(s: State, b: Block)
    requires Inv(s) && b < |s.next|
    ensures b < |s.where| && !(b in s.pool && s.where[b] == ELSEWHERE)
    ensures b in s.pool || s.where[b] == ELSEWHERE <==> !exists n: nat :: HoldsIn(s, n, b)
    ensures forall m: nat, n: nat :: HoldsIn(s, m, b) && HoldsIn(s, n, b) ==> m == n
  {
    assert PlaceAt(s.order, s.phase, s.where, s.pool, Back(s.prod), b);
    assert s.where[b] >= 0 ==> HoldsIn(s, s.where[b], b);
    forall n: nat | HoldsIn(s, n, b) ensures s.where[b] == n {
      assert NumberAt(s.order, s.phase, s.where, Back(s.prod), n);
    }
  }

  /** How far a block is on its way back to the pool, and who takes it there. */
  ghost predicate Follows(p: Phase, p': Phase, a: Action) {
    || p' == p
    || (p.Live? && p'.Draining? && a == Consume(p'.who))
    || (p.Draining? && p' == Loose(p.who) && a == Consume(p.who))
    || (p.Loose? && p' == Gone && a == Consume(p.who))
  }

  /**
    A block goes back to the pool by the steps of one consumer, the one that made its count
    complete, and only when all its elements have been counted.
   */
  lemma FreedByOne(s: State, a: Action, n: nat)
    requires Inv(s) && Enabled(s, a) && InBounds(s, a) && n < |s.phase|
    ensures n < |Apply(s, a).phase| && n < |s.order| && Follows(s.phase[n], Apply(s, a).phase[n], a)
    ensures !Apply(s, a).phase[n].Live? ==> AllDone(Apply(s, a).done, n)
    ensures s.phase[n].Loose? && Apply(s, a).phase[n].Gone? ==>
              s.order[n] !in s.pool && s.order[n] in Apply(s, a).pool
  {
    ApplyInv(s, a);
    var s' := Apply(s, a);
    if a.Consume? {
      ConsumeFollows(s, a.t, n);
      if s.phase[n].Loose? {
        ConsumeFrees(s, a.t, n);
      }
    } else {
      ProduceFollows(s, a, n);
    }
    assert PhaseAt(s'.phase, s'.order, s'.counters, s'.done, s'.lo, n);
  }

  lemma ConsumeFollows(s: State, t: Tid, n: nat)
    requires Inv(s) && t < |s.cons| && s.cons[t].Busy? && ConsumeInBounds(s, t) && n < |s.phase|
    ensures n < |ConsumeStep(s, t).phase| && Follows(s.phase[n], ConsumeStep(s, t).phase[n], Consume(t))
  {
    ConsumerFacts(s, t);
    var c := s.cons[t];
    if c.stage.SetEmpty? {
      SetEmptyFacts(s, t, c);
    }
    PhaseFollows(s, t, c, n);
  }

  lemma PhaseFollows(s: State, t: Tid, c: Consumer, n: nat)
    requires t < |s.cons| && s.cons[t] == c && c.Busy? && ConsumeInBounds(s, t) && n < |s.phase|
    requires c.stage.SetEmpty? ==> Num(c.index - 1) < |s.phase| && s.phase[Num(c.index - 1)].Live?
    requires c.stage.NullEntry? ==> 0 <= c.stage.num < |s.phase| && s.phase[c.stage.num] == Draining(t)
    requires c.stage.AddBlock? ==> 0 <= c.stage.num < |s.phase| && s.phase[c.stage.num] == Loose(t)
    ensures n < |ConsumeStep(s, t).phase| && Follows(s.phase[n], ConsumeStep(s, t).phase[n], Consume(t))
  {
  }

  /** Only a block that is not in the pool is added to it. */
  lemma ConsumeFrees(s: State, t: Tid, n: nat)
    requires Inv(s) && t < |s.cons| && s.cons[t].Busy? && ConsumeInBounds(s, t) && n < |s.phase| && s.phase[n].Loose?
    ensures n < |s.order| && n < |ConsumeStep(s, t).phase|
    ensures ConsumeStep(s, t).phase[n].Gone? ==> s.order[n] !in s.pool && s.order[n] in ConsumeStep(s, t).pool
  {
    ConsumerFacts(s, t);
    assert NumberAt(s.order, s.phase, s.where, Back(s.prod), n);
    assert PlaceAt(s.order, s.phase, s.where, s.pool, Back(s.prod), s.order[n]);
  }

  lemma ProduceFollows(s: State, a: Action, n: nat)
    requires Inv(s) && Enabled(s, a) && InBounds(s, a) && !a.Consume? && n < |s.phase|
    ensures n < |Apply(s, a).phase| && Apply(s, a).phase[n] == s.phase[n] && n < |s.order|
  {
  }

  ghost predicate Quiet(s: State) {
    s.prod.Ready? && forall t :: 0 <= t < |s.cons| ==> s.cons[t].Idle?
  }

  /** When nothing is under way, exactly the blocks all of whose elements are dequeued have been given back to the pool. */
  lemma QuietPhases(s: State, n: nat)
    requires Inv(s) && HistoryInv(s) && Quiet(s) && n < |s.phase|
    ensures if Base(n + 1) <= s.head then s.phase[n].Gone? else s.phase[n].Live?
  {
    assert PhaseAt(s.phase, s.order, s.counters, s.done, s.lo, n);
    assert FreerAt(s.phase, s.cons, n);
    if Base(n + 1) <= s.head {
      forall i | Base(n) <= i < Base(n + 1) ensures s.done[i] {
        assert Wanted(s.owner, s.done, s.cons, i);
      }
      CountAll(s.done, Base(n), Base(n + 1));
    }
  }

  lemma {:induction false} CountAll(done: seq<bool>, a: nat, b: nat)
    requires b <= |done| && a <= b && forall i :: a <= i < b ==> done[i]
    ensures Count(done, a, b) == b - a
    decreases b - a
  {
    if a < b {
      CountAll(done, a + 1, b);
    }
  }
}
