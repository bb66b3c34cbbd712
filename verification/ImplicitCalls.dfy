module ImplicitCalls {
  /**
    What the calls of an implicit queue give: an enqueue returns false only if it was refused room,
    memory or a block, which alone can be told beforehand; it and a dequeue end after a bounded number
    of their own steps, whatever other threads do.
   */

  import opened Basics
  import opened Blocks
  import opened Sequences
  import opened Deliveries
  import opened ImplicitQueue
  import opened ImplicitInvariant
  import opened ImplicitIndex
  import opened ImplicitProducer
  import opened ImplicitConsumer
  import opened ImplicitRuns
  import Circular

  // ---- When an enqueue returns false ----

  predicate Refused(a: Action) {
    a.OutOfMemory? || a.Refuse?
  }

  /** The call has not been refused anything. */
  predicate GoesWell(prod: Producer) {
    prod.Running? && !prod.stage.Undo? && !prod.stage.GiveBack?
  }

  predicate RollsBack(prod: Producer) {
    prod.Running? && (prod.stage.Undo? || prod.stage.GiveBack?)
  }

  predicate OfProducer(a: Action) {
    !a.Claim? && !a.Consume? && !a.Others?
  }

  lemma OthersLeaveProducer(s: State, a: Action, s': State)
    requires Next(s, a, s') && !OfProducer(a)
    ensures s'.prod == s.prod
  {
  }

  lemma CallStep(s: State, a: Action, s': State)
    requires Next(s, a, s') && s.prod.Running?
    ensures GoesWell(s.prod) && !Refused(a) ==> GoesWell(s'.prod) || s'.prod == Ready(true)
    ensures GoesWell(s.prod) && Refused(a) ==> RollsBack(s'.prod)
    ensures RollsBack(s.prod) ==> !Refused(a) && (RollsBack(s'.prod) || s'.prod == Ready(false))
  {
    if !OfProducer(a) {
      OthersLeaveProducer(s, a, s');
    }
  }

  /** Among steps `from` to `to` of a run there is a refusal. */
  ghost predicate RefusedIn(acts: seq<Action>, from: nat, to: nat) {
    exists m :: from <= m < to && m < |acts| && Refused(acts[m])
  }

  ghost predicate CallState(prod: Producer, refused: bool) {
    if refused then RollsBack(prod) || prod == Ready(false) else GoesWell(prod) || prod == Ready(true)
  }

  lemma CallAt(s: State, a: Action, s': State, refused: bool)
    requires Next(s, a, s') && s.prod.Running? && CallState(s.prod, refused)
    ensures CallState(s'.prod, refused || Refused(a))
  {
    CallStep(s, a, s');
  }

  lemma {:induction false} CallSoFar(run: seq<State>, acts: seq<Action>, capacity: nat, i: nat, j: nat, items: seq<Elem>)
    requires IsRun(run, acts, capacity) && i < j < |run| && acts[i] == Begin(items)
    requires forall m :: i < m < j ==> run[m].prod.Running?
    ensures CallState(run[j].prod, RefusedIn(acts, i, j))
    decreases j
  {
    RunStep(run, acts, capacity, j - 1);
    if j > i + 1 {
      CallSoFar(run, acts, capacity, i, j - 1, items);
      CallAt(run[j - 1], acts[j - 1], run[j], RefusedIn(acts, i, j - 1));
    }
  }

  /** An enqueue returns true exactly when it was not refused room, memory or a block. */
  lemma ResultIs(run: seq<State>, acts: seq<Action>, capacity: nat, i: nat, j: nat, items: seq<Elem>)
    requires IsRun(run, acts, capacity) && i < j < |run| && acts[i] == Begin(items) && run[j].prod.Ready?
    requires forall m :: i < m < j ==> run[m].prod.Running?
    ensures run[j].prod.result <==> !exists m :: i < m < j && Refused(acts[m])
  {
    CallSoFar(run, acts, capacity, i, j, items);
  }

  // ---- An enqueue without interference ----

  /** Blocks acquired so far. */
  function Gotten(s: State): nat {
    if |s.phase| <= |s.order| then |s.order| - |s.phase| else 0
  }

  ghost predicate NextFree(s: State) {
    HasNextEntry(s.headers, |s.keys|) && |s.keys| == |s.vals| && EntryFree(s.keys, s.vals, NextEntry(s.headers, |s.keys|))
  }

  /** What the producer does next. */
  ghost function Choice(s: State, p: Supply): Action
    requires s.prod.Running?
  {
    match s.prod.stage
    case Acquire =>
      if p.allowed <= Gotten(s) then Refuse
      else if NextFree(s) then Insert
      else if p.canGrow then Grow else Refuse
    case Requisition(_) => if p.blocks <= Gotten(s) then OutOfMemory else GetBlock(|s.next|)
    case _ => Produce
  }

  /** The slots `from` + 1 to n places after the tail of the current index have free entries. */
  ghost predicate FreeAhead(h: Header, keys: seq<Key>, vals: seq<Value>, from: nat, n: nat) {
    && |keys| == |vals| && h.tail < |h.index| == h.capacity && n <= h.capacity
    && forall k :: from < k <= n ==> FreeAt(h, keys, vals, k)
  }

  ghost predicate FreeAt(h: Header, keys: seq<Key>, vals: seq<Value>, k: nat)
    requires h.tail < |h.index| == h.capacity && k <= h.capacity && |keys| == |vals|
  {
    h.index[Forward(h.tail, k, h.capacity)] < |keys| && EntryFree(keys, vals, h.index[Forward(h.tail, k, h.capacity)])
  }

  /** The index can take the blocks still needed. */
  ghost predicate HasRoom(s: State, p: Supply)
    requires s.prod.Running?
  {
    p.canGrow ||
    (s.headers != [] &&
     var h, need := Last(s.headers), s.prod.op.need;
     match s.prod.stage
     case Acquire => FreeAhead(h, s.keys, s.vals, 0, need)
     case InsertTail(_, _) => FreeAhead(h, s.keys, s.vals, 1, need)
     case Requisition(_) => 0 < need <= h.capacity && FreeAhead(h, s.keys, s.vals, 0, need - 1)
     case _ => true)
  }

  /** There will be enough of everything. Once a block's entry is inserted it is allowed. */
  ghost predicate Enough(s: State, p: Supply)
    requires s.prod.Running?
  {
    var total := Gotten(s) + s.prod.op.need;
    match s.prod.stage
    case Acquire => total <= p.blocks && total <= p.allowed && HasRoom(s, p)
    case InsertTail(_, _) => total <= p.blocks && (s.prod.op.need > 1 ==> total <= p.allowed) && HasRoom(s, p)
    case Requisition(_) => total <= p.blocks && (s.prod.op.need > 1 ==> total <= p.allowed) && HasRoom(s, p)
    case Construct(_, _) => true
    case StoreTail => true
    case _ => false
  }

  /** Other places than k lead to other entries. */
  lemma OtherPlace(h: Header, j: nat, k: nat)
    requires h.tail < |h.index| == h.capacity && Injective(h.index) && 0 < j <= h.capacity && 0 < k <= h.capacity && j != k
    ensures h.index[Forward(h.tail, j, h.capacity)] != h.index[Forward(h.tail, k, h.capacity)]
  {
    var a, b := Forward(h.tail, j, h.capacity), Forward(h.tail, k, h.capacity);
    assert a != b && h.index[if a < b then a else b] != h.index[if a < b then b else a];
  }

  ghost predicate IndexFacts(h: Header, keys: seq<Key>, vals: seq<Value>) {
    h.tail < |h.index| == h.capacity && Injective(h.index) && SlotsIn(h.index, |keys|) && |keys| == |vals|
  }

  lemma CurrentFacts(s: State)
    requires IndexInv(s)
    ensures s.headers != [] && IndexFacts(Last(s.headers), s.keys, s.vals)
  {
    assert HeaderOk(s.headers[|s.headers| - 1], s.ent, s.lo, |s.keys|);
  }

  /** Writing a key and a value to the entry in place k leaves the other places free or not. */
  lemma FreeElsewhere(h: Header, h': Header, keys: seq<Key>, vals: seq<Value>, keys': seq<Key>, vals': seq<Value>, j: nat, k: nat)
    requires IndexFacts(h, keys, vals) && h'.index == h.index && h'.tail == h.tail && h'.capacity == h.capacity
    requires 0 < j <= h.capacity && 0 < k <= h.capacity && j != k && |keys'| == |keys| == |vals'|
    requires forall e :: 0 <= e < |keys| && e != h.index[Forward(h.tail, k, h.capacity)] ==> keys'[e] == keys[e] && vals'[e] == vals[e]
    ensures FreeAt(h', keys', vals', j) <==> FreeAt(h, keys, vals, j)
  {
    OtherPlace(h, j, k);
  }

  lemma InsertKeepsRoom(h: Header, h': Header, keys: seq<Key>, vals: seq<Value>, keys': seq<Key>, n: nat)
    requires IndexFacts(h, keys, vals) && h'.index == h.index && h'.tail == h.tail && h'.capacity == h.capacity && 0 < n
    requires FreeAt(h, keys, vals, 1) && |keys'| == |keys|
    requires forall e :: 0 <= e < |keys| && e != h.index[Forward(h.tail, 1, h.capacity)] ==> keys'[e] == keys[e]
    ensures FreeAhead(h', keys', vals, 1, n) <==> FreeAhead(h, keys, vals, 0, n)
  {
    if n <= h.capacity {
      forall k | 1 < k <= n ensures FreeAt(h', keys', vals, k) <==> FreeAt(h, keys, vals, k) {
        FreeElsewhere(h, h', keys, vals, keys', vals, k, 1);
      }
    }
  }

  /** The tail moves one place. */
  lemma TailMovesOn(h: Header, h': Header, keys: seq<Key>, vals: seq<Value>, n: nat)
    requires IndexFacts(h, keys, vals) && h'.index == h.index && h'.capacity == h.capacity && h'.tail == NextSlot(h.tail, h.capacity)
    requires 0 < n <= h.capacity
    ensures FreeAhead(h', keys, vals, 0, n - 1) <==> FreeAhead(h, keys, vals, 1, n)
  {
    forall k | 0 < k <= n - 1 ensures FreeAt(h', keys, vals, k) <==> FreeAt(h, keys, vals, k + 1) {
      assert Forward(h'.tail, k, h.capacity) == Forward(h.tail, k + 1, h.capacity);
    }
    if FreeAhead(h', keys, vals, 0, n - 1) {
      forall k | 1 < k <= n ensures FreeAt(h, keys, vals, k) {
        assert FreeAt(h', keys, vals, k - 1);
      }
    }
  }

  /** A block is put in the entry at the tail, which is not free any more. */
  lemma BlockFillsEntry(h: Header, keys: seq<Key>, vals: seq<Value>, vals': seq<Value>, n: nat)
    requires IndexFacts(h, keys, vals) && 0 < n && |vals'| == |vals| && keys[h.index[h.tail]].Key? && vals'[h.index[h.tail]].Is?
    requires forall e :: 0 <= e < |keys| && e != h.index[h.tail] ==> vals'[e] == vals[e]
    ensures FreeAhead(h, keys, vals', 0, n - 1) <==> n <= h.capacity && FreeAhead(h, keys, vals, 0, n - 1)
  {
    assert Forward(h.tail, h.capacity, h.capacity) == h.tail;
    if n <= h.capacity {
      forall k | 0 < k <= n - 1 ensures FreeAt(h, keys, vals', k) <==> FreeAt(h, keys, vals, k) {
        FreeElsewhere(h, h, keys, vals, keys, vals', k, h.capacity);
      }
    } else if n - 1 == h.capacity {
      assert !FreeAt(h, keys, vals', h.capacity);
    }
  }

  // The choices keep the answer to whether there will be enough.

  lemma AtAcquire(s: State, p: Supply, s': State)
    requires Inv(s) && s.prod.Running? && s.prod.stage.Acquire? && Next(s, Choice(s, p), s')
    ensures s'.prod.Running? && (Enough(s', p) <==> Enough(s, p))
  {
    CurrentFacts(s);
    NextEntryFacts(s, s.prod.op);
    var h := Last(s.headers);
    assert Forward(h.tail, 1, h.capacity) == NextSlot(h.tail, h.capacity) || h.capacity == 1;
    assert FreeAt(h, s.keys, s.vals, 1) <==> NextFree(s);
    match Choice(s, p)
    case Refuse =>
    case Insert => InsertKeepsRoom(h, Last(s'.headers), s.keys, s.vals, s'.keys, s.prod.op.need);
    case Grow =>
  }

  lemma AtInsertTail(s: State, p: Supply, s': State)
    requires Inv(s) && s.prod.Running? && s.prod.stage.InsertTail? && Next(s, Choice(s, p), s')
    ensures s'.prod.Running? && (Enough(s', p) <==> Enough(s, p))
  {
    CurrentFacts(s);
    if s.prod.op.need <= Last(s.headers).capacity {
      TailMovesOn(Last(s.headers), Last(s'.headers), s.keys, s.vals, s.prod.op.need);
    }
  }

  lemma AtRequisition(s: State, p: Supply, s': State)
    requires Inv(s) && s.prod.Running? && s.prod.stage.Requisition? && Next(s, Choice(s, p), s')
    ensures s'.prod.Running? && (Enough(s', p) <==> Enough(s, p))
  {
    if Choice(s, p) == GetBlock(|s.next|) {
      CurrentFacts(s);
      PendingEntry(s);
      BlockFillsEntry(Last(s.headers), s.keys, s.vals, s'.vals, s.prod.op.need);
    }
  }

  /** The entry that waits for a block is the one at the tail. */
  lemma PendingEntry(s: State)
    requires Inv(s) && s.prod.Running? && s.prod.stage.Requisition?
    ensures s.headers != [] && Last(s.headers).tail < |Last(s.headers).index|
    ensures Last(s.headers).index[Last(s.headers).tail] == s.prod.stage.entry < |s.keys| && s.keys[s.prod.stage.entry].Key?
  {
    var h, n := s.headers[|s.headers| - 1], |s.order|;
    assert HeaderOk(h, s.ent, s.lo, |s.keys|);
    assert Listed(h, s.ent, n) && KeyAt(s.keys, s.ent, n);
  }

  lemma AtOther(s: State, p: Supply, s': State)
    requires Inv(s) && s.prod.Running? && Next(s, Choice(s, p), s')
    requires !s.prod.stage.Acquire? && !s.prod.stage.InsertTail? && !s.prod.stage.Requisition?
    ensures if s'.prod.Running? then Enough(s', p) <==> Enough(s, p) else s'.prod.result <==> Enough(s, p)
  {
  }

  lemma ChoiceKeeps(s: State, p: Supply, s': State)
    requires Inv(s) && s.prod.Running? && Next(s, Choice(s, p), s')
    ensures if s'.prod.Running? then Enough(s', p) <==> Enough(s, p) else s'.prod.result <==> Enough(s, p)
  {
    match s.prod.stage
    case Acquire => AtAcquire(s, p, s');
    case InsertTail(_, _) => AtInsertTail(s, p, s');
    case Requisition(_) => AtRequisition(s, p, s');
    case _ => AtOther(s, p, s');
  }

  // The choices come to an end.

  function PhaseLeft(prod: Producer): nat
    requires prod.Running?
  {
    match prod.stage
    case Acquire => 2
    case InsertTail(_, _) => 2
    case Requisition(_) => 2
    case Undo(_, _, _) => 1
    case Construct(_, _) => 1
    case _ => 0
  }

  ghost function WorkLeft(s: State): nat
    requires s.prod.Running?
  {
    match s.prod.stage
    case Undo(_, _, k) => if |s.phase| + k <= |s.order| then |s.order| - |s.phase| - k else 0
    case GiveBack(_, k) => if |s.phase| + k <= |s.order| then |s.order| - |s.phase| - k else 0
    case Construct(k, _) => if k <= |s.prod.op.items| then |s.prod.op.items| - k else 0
    case StoreTail => 0
    case _ => s.prod.op.need
  }

  ghost function StageLeft(s: State): nat
    requires s.prod.Running?
  {
    match s.prod.stage
    case Acquire => if NextFree(s) then 2 else 3
    case InsertTail(_, _) => 1
    case _ => 0
  }

  ghost predicate Less(s': State, s: State)
    requires s.prod.Running?
  {
    s'.prod.Running? ==>
      || PhaseLeft(s'.prod) < PhaseLeft(s.prod)
      || (PhaseLeft(s'.prod) == PhaseLeft(s.prod) && WorkLeft(s') < WorkLeft(s))
      || (PhaseLeft(s'.prod) == PhaseLeft(s.prod) && WorkLeft(s') == WorkLeft(s) && StageLeft(s') < StageLeft(s))
  }

  /** Every step of the producer in a call brings its end nearer, whatever it is refused. */
  lemma ProducerEnds(s: State, a: Action, s': State)
    requires Inv(s) && s.prod.Running? && OfProducer(a) && Next(s, a, s')
    ensures Less(s', s)
  {
    if a == Grow {
      NextEntryFacts(s, s.prod.op);
      GrowMakesRoom(s, s.prod.op);
    } else {
      OtherEnds(s, a, s');
    }
  }

  lemma OtherEnds(s: State, a: Action, s': State)
    requires Inv(s) && s.prod.Running? && OfProducer(a) && !a.Grow? && Next(s, a, s')
    ensures Less(s', s)
  {
  }

  /** Steps of other threads do not put it off. */
  lemma OthersDoNotDelay(s: State, a: Action, s': State)
    requires Inv(s) && s.prod.Running? && !OfProducer(a) && Next(s, a, s')
    ensures s'.prod == s.prod && WorkLeft(s') == WorkLeft(s) && StageLeft(s') <= StageLeft(s)
  {
    OthersLeaveProducer(s, a, s');
    if a.Consume? {
      ConsumeFreesOnly(s, a.t, s');
    } else {
      IndexIsLeft(s, a, s');
    }
  }

  lemma IndexIsLeft(s: State, a: Action, s': State)
    requires !OfProducer(a) && !a.Consume? && Next(s, a, s')
    ensures s'.headers == s.headers && s'.keys == s.keys && s'.vals == s.vals && s'.phase == s.phase && s'.order == s.order
  {
  }

  /** A consumer may empty an entry, and changes nothing else in the index. */
  lemma ConsumeFreesOnly(s: State, t: Tid, s': State)
    requires ConsumeInBounds(s, t) && s' == ConsumeStep(s, t)
    ensures s'.headers == s.headers && s'.keys == s.keys && |s'.vals| == |s.vals| && |s'.phase| == |s.phase| && s'.order == s.order
    ensures forall e :: 0 <= e < |s.vals| ==> s'.vals[e] == s.vals[e] || s'.vals[e] == Nothing
  {
  }

  lemma ChoiceIsEnabled(s: State, p: Supply)
    requires Inv(s) && s.prod.Running?
    ensures Enabled(s, Choice(s, p))
  {
    if s.prod.stage.Acquire? {
      NextEntryFacts(s, s.prod.op);
    }
  }

  ghost predicate Chosen(run: seq<State>, acts: seq<Action>, p: Supply, i: nat) {
    StepAt(run, acts, i) && run[i].prod.Running? && acts[i] == Choice(run[i], p)
  }

  /** A run of such choices from s to r. */
  ghost predicate Leads(s: State, run: seq<State>, acts: seq<Action>, p: Supply, r: State) {
    && |run| == |acts| + 1 && run[0] == s && run[|acts|] == r
    && forall i :: 0 <= i < |acts| ==> Chosen(run, acts, p, i)
  }

  lemma LeadsFrom(s: State, s': State, run: seq<State>, acts: seq<Action>, p: Supply, r: State)
    requires Leads(s', run, acts, p, r) && s.prod.Running? && Next(s, Choice(s, p), s')
    ensures Leads(s, [s] + run, [Choice(s, p)] + acts, p, r)
  {
    var run', acts' := [s] + run, [Choice(s, p)] + acts;
    forall i | 0 <= i < |acts'| ensures Chosen(run', acts', p, i) {
      assert i > 0 ==> Chosen(run, acts, p, i - 1);
    }
  }

  lemma ChoiceMoves(s: State, p: Supply) returns (s': State)
    requires Inv(s) && s.prod.Running?
    ensures Next(s, Choice(s, p), s') && Inv(s') && Less(s', s)
    ensures if s'.prod.Running? then Enough(s', p) <==> Enough(s, p) else s'.prod.result <==> Enough(s, p)
  {
    s' := ChoiceIsNext(s, p);
    ChoiceKeeps(s, p, s');
    ProducerEnds(s, Choice(s, p), s');
  }

  lemma ChoiceIsNext(s: State, p: Supply) returns (s': State)
    requires Inv(s) && s.prod.Running?
    ensures Next(s, Choice(s, p), s') && Inv(s') && OfProducer(Choice(s, p))
  {
    ChoiceIsEnabled(s, p);
    s' := NextOf(s, Choice(s, p));
  }

  lemma NextOf(s: State, a: Action) returns (s': State)
    requires Inv(s) && Enabled(s, a)
    ensures Next(s, a, s') && Inv(s')
  {
    ApplyInv(s, a);
    s' := Apply(s, a);
  }

  lemma {:induction false} FinishAlone(s: State, p: Supply) returns (run: seq<State>, acts: seq<Action>, r: State)
    requires Inv(s) && s.prod.Running?
    ensures Leads(s, run, acts, p, r) && Inv(r) && r.prod.Ready? && (r.prod.result <==> Enough(s, p))
    decreases PhaseLeft(s.prod), WorkLeft(s), StageLeft(s)
  {
    var s' := ChoiceMoves(s, p);
    if s'.prod.Running? {
      run, acts, r := FinishAlone(s', p);
      LeadsFrom(s, s', run, acts, p, r);
      run, acts := [s] + run, [Choice(s, p)] + acts;
    } else {
      run, acts, r := [s, s'], [Choice(s, p)], s';
      assert Chosen(run, acts, p, 0);
    }
  }

  // What can be told before the call.

  /** Blocks the call needs. */
  ghost function Needed(s: State, items: seq<Elem>): nat {
    Circular.BasesIn(s.tail, |items|, BLOCK_SIZE)
  }

  /** There are blocks enough, they are allowed, and the index can grow or has free entries in its next slots. */
  ghost predicate Obtainable(s: State, items: seq<Elem>, p: Supply) {
    Needed(s, items) > 0 ==>
      && Needed(s, items) <= p.blocks && Needed(s, items) <= p.allowed
      && (p.canGrow || (s.headers != [] && FreeAhead(Last(s.headers), s.keys, s.vals, 0, Needed(s, items))))
  }

  /** An enqueue that meets no interference ends, and succeeds exactly when what it needs can be had. */
  lemma EnqueueAlone(s: State, items: seq<Elem>, p: Supply) returns (run: seq<State>, acts: seq<Action>, r: State)
    requires Inv(s) && s.prod.Ready?
    ensures Enabled(s, Begin(items)) && Leads(Apply(s, Begin(items)), run, acts, p, r)
    ensures Inv(r) && r.prod.Ready? && (r.prod.result <==> Obtainable(s, items, p))
  {
    ApplyInv(s, Begin(items));
    var s' := Apply(s, Begin(items));
    assert ProducerOk(s.prod, s.order, |s.phase|, s.tail, s.tailBlock, s.elems);
    run, acts, r := FinishAlone(s', p);
  }

  /** Any block of the pool serves a call that wants one, and so does a new one. */
  lemma PoolServes(s: State, b: Block) returns (s': State)
    requires Inv(s) && s.prod.Running? && s.prod.stage.Requisition? && (b in s.pool || b == |s.where|)
    ensures Next(s, GetBlock(b), s') && Inv(s')
    ensures s'.pool == s.pool - {b} && s'.order == s.order + [b] && b < |s'.counters| && s'.counters[b] == 0
    ensures b < |s'.where| && s'.where[b] == |s.order|
    ensures |s.where| <= |s'.where| && forall a :: 0 <= a < |s.where| && a != b ==> s'.where[a] == s.where[a]
  {
    assert b in s.pool ==> PlaceAt(s.order, s.phase, s.where, s.pool, Back(s.prod), b);
    s' := NextOf(s, GetBlock(b));
    NewIsElsewhere(s);
    ServesShape(s, s.prod.op, s.prod.stage.entry, b, s');
  }

  lemma ServesShape(s: State, op: Operation, e: EntryId, b: Block, s': State)
    requires GetBlockInBounds(s, op, e, b) && s' == GetBlockStep(s, op, e, b) && (b == |s.where| ==> b !in s.pool)
    ensures s'.pool == s.pool - {b} && s'.order == s.order + [b] && b < |s'.counters| && s'.counters[b] == 0
    ensures b < |s'.where| && s'.where[b] == |s.order|
    ensures |s.where| <= |s'.where| && forall a :: 0 <= a < |s.where| && a != b ==> s'.where[a] == s.where[a]
  {
  }

  lemma NewIsElsewhere(s: State)
    requires Inv(s)
    ensures |s.where| !in s.pool
  {
  }

  // ---- A dequeue, whatever other threads do ----

  /** More than the steps that a consumer still has to take. */
  function StepsLeft(c: Consumer): int {
    if c.Idle? then 0 else
    6 * (c.end - c.from) + (c.end - c.index) +
    match c.stage
    case LoadHeader => 6
    case LoadTail(_) => 5
    case ReadKey(_, _, _) => 4
    case ReadValue(_, _) => 3
    case Take(_, _, _) => 2
    case SetEmpty(_, _, _) => 1
    case NullEntry(_, _, _, _) => 5
    case AddBlock(_, _, _, _) => 4
  }

  /** A consumer's step is never held up, and each brings it nearer to its end. */
  lemma ConsumerEndsSoon(s: State, t: Tid)
    requires Inv(s) && t < |s.cons| && s.cons[t].Busy?
    ensures ConsumeInBounds(s, t) && t < |ConsumeStep(s, t).cons|
    ensures StepsLeft(ConsumeStep(s, t).cons[t]) < StepsLeft(s.cons[t])
  {
    ConsumeMoves(s, t);
    ConsumerFacts(s, t);
    StepCounts(s, t, s.cons[t]);
  }

  lemma StepCounts(s: State, t: Tid, c: Consumer)
    requires t < |s.cons| && s.cons[t] == c && c.Busy? && ConsumeInBounds(s, t) && c.from <= c.index <= c.end
    ensures t < |ConsumeStep(s, t).cons| && StepsLeft(ConsumeStep(s, t).cons[t]) < StepsLeft(c)
  {
  }

  /** What the consumer claimed is delivered when it is done, in order. */
  lemma ConsumerDelivers(s: State, t: Tid)
    requires Inv(s) && t < |s.cons| && s.cons[t].Busy?
    ensures ConsumeInBounds(s, t) && t < |ConsumeStep(s, t).cons| && s.cons[t].first <= s.cons[t].end <= |s.elems|
    ensures var c, s' := s.cons[t], ConsumeStep(s, t);
            if s'.cons[t].Idle? then s'.log == s.log + [Delivery(t, c.first, c.end, s.elems[c.first..c.end])]
            else s'.log == s.log && s'.cons[t].first == c.first && s'.cons[t].end == c.end
  {
    ConsumeMoves(s, t);
    ConsumerFacts(s, t);
    ConsumerEnds(s, t, ConsumeStep(s, t));
  }

  /** How many of steps `from` to `to` are consumer t's. */
  function OwnSteps(acts: seq<Action>, t: Tid, from: nat, to: nat): nat
    requires from <= to <= |acts|
  {
    if from == to then 0 else OwnSteps(acts, t, from, to - 1) + if acts[to - 1] == Consume(t) then 1 else 0
  }

  lemma OthersLeaveConsumer(s: State, a: Action, s': State, t: Tid)
    requires Next(s, a, s') && t < |s.cons| && s.cons[t].Busy? && a != Consume(t)
    ensures |s'.cons| == |s.cons| && s'.cons[t] == s.cons[t]
  {
    if a.Consume? {
      OneConsumes(s, a.t, s');
    } else if a.Produce? {
      ProduceLeavesConsumers(s, s.prod.op, s.prod.stage, s');
    }
  }

  lemma OneConsumes(s: State, u: Tid, s': State)
    requires ConsumeInBounds(s, u) && s' == ConsumeStep(s, u)
    ensures |s'.cons| == |s.cons| && s'.cons == s.cons[u := s'.cons[u]]
  {
  }

  lemma ProduceLeavesConsumers(s: State, op: Operation, stage: ProducerStage, s': State)
    requires ProduceInBounds(s, op, stage) && s' == ProduceStep(s, op, stage)
    ensures s'.cons == s.cons
  {
  }

  ghost predicate Dequeuing(run: seq<State>, acts: seq<Action>, t: Tid, i: nat, k: nat, count: nat) {
    && i < k < |run| && i < |acts| && k <= |acts| && t < |run[k].cons| && run[k].cons[t].Busy?
    && run[k].cons[t].first == run[i].head && run[k].cons[t].end == run[i].head + count
    && OwnSteps(acts, t, i + 1, k) + StepsLeft(run[k].cons[t]) <= 7 * count + 6
  }

  lemma DequeueGoesOn(run: seq<State>, acts: seq<Action>, capacity: nat, t: Tid, i: nat, k: nat, count: nat)
    requires IsRun(run, acts, capacity) && k < |acts| && Dequeuing(run, acts, t, i, k, count)
    ensures t < |run[k + 1].cons| && run[i].head + count <= |run[k].elems|
    ensures if run[k + 1].cons[t].Busy? then Dequeuing(run, acts, t, i, k + 1, count)
            else && OwnSteps(acts, t, i + 1, k + 1) <= 7 * count + 6
                 && run[k + 1].log == run[k].log + [Delivery(t, run[i].head, run[i].head + count, run[k].elems[run[i].head..run[i].head + count])]
  {
    RunsAreSafe(run, acts, capacity, k);
    RunStep(run, acts, capacity, k);
    ConsumerDelivers(run[k], t);
    if acts[k] == Consume(t) {
      ConsumerEndsSoon(run[k], t);
      StepsLeftPositive(run[k], t);
    } else {
      OthersLeaveConsumer(run[k], acts[k], run[k + 1], t);
    }
  }

  lemma StepsLeftPositive(s: State, t: Tid)
    requires Inv(s) && t < |s.cons| && s.cons[t].Busy?
    ensures StepsLeft(s.cons[t]) > 0
  {
    ConsumerFacts(s, t);
  }

  lemma {:induction false} StillDequeuing(run: seq<State>, acts: seq<Action>, capacity: nat, t: Tid, i: nat, k: nat, count: nat)
    requires IsRun(run, acts, capacity) && i < k < |run| && acts[i] == Claim(t, count)
    requires forall m :: i < m <= k ==> t < |run[m].cons| && run[m].cons[t].Busy?
    ensures Dequeuing(run, acts, t, i, k, count)
    decreases k
  {
    if k == i + 1 {
      RunStep(run, acts, capacity, i);
    } else {
      StillDequeuing(run, acts, capacity, t, i, k - 1, count);
      DequeueGoesOn(run, acts, capacity, t, i, k - 1, count);
    }
  }

  /**
    A dequeue of `count` elements is over after at most 7 * count + 6 of its own steps, whatever other
    threads do, and delivers the elements that were claimed.
   */
  lemma DequeueIsWaitFree(run: seq<State>, acts: seq<Action>, capacity: nat, t: Tid, i: nat, j: nat, count: nat)
    requires IsRun(run, acts, capacity) && i + 1 < j < |run| && acts[i] == Claim(t, count)
    requires forall m :: i < m < j ==> t < |run[m].cons| && run[m].cons[t].Busy?
    ensures OwnSteps(acts, t, i + 1, j) <= 7 * count + 6 && t < |run[j].cons| && run[i].head + count <= |run[j - 1].elems|
    ensures run[j].cons[t].Idle? ==>
              run[j].log == run[j - 1].log
                + [Delivery(t, run[i].head, run[i].head + count, run[j - 1].elems[run[i].head..run[i].head + count])]
  {
    StillDequeuing(run, acts, capacity, t, i, j - 1, count);
    DequeueGoesOn(run, acts, capacity, t, i, j - 1, count);
    RunsAreSafe(run, acts, capacity, j);
    if run[j].cons[t].Busy? {
      StepsLeftPositive(run[j], t);
    }
  }
}
