module ExplicitCalls {
  /**
    What the calls of an explicit queue give: an enqueue returns false only by its failing exit, and
    alone exactly when it gets fewer blocks than it wants; it and a dequeue end after a bounded number
    of their own steps, whatever other threads do.
   */

  import opened Basics
  import opened Blocks
  import opened Deliveries
  import opened ExplicitQueue
  import opened ExplicitFrames
  import opened ExplicitProducerSteps
  import opened ExplicitConsumerSteps
  import opened ExplicitFifo
  import opened ExplicitFailure

  // ---- When an enqueue returns false ----

  predicate OfProducer(a: Action) {
    !a.Claim? && !a.Consume?
  }

  lemma CallStep(s: State, a: Action, s': State)
    requires Next(s, a, s') && s.prod.Running?
    ensures s'.prod.Running? || s'.prod == Ready(a != Fail)
    ensures a == Fail ==> s'.prod == Ready(false)
  {
  }

  /** An enqueue returns true exactly when its last step is not the failing exit. */
  lemma ResultIs(run: seq<State>, acts: seq<Action>, i: nat, j: nat, items: seq<Elem>)
    requires IsRun(run, acts) && i < j < |run| && acts[i] == Begin(items) && run[j].prod.Ready?
    requires forall m :: i < m < j ==> run[m].prod.Running?
    ensures i + 1 < j && (run[j].prod.result <==> acts[j - 1] != Fail)
    ensures forall m :: i < m < j - 1 ==> acts[m] != Fail
  {
    assert StepAt(run, acts, i) && StepAt(run, acts, j - 1);
    assert i + 1 < j;
    CallStep(run[j - 1], acts[j - 1], run[j]);
    forall m | i < m < j - 1 ensures acts[m] != Fail {
      assert StepAt(run, acts, m);
      CallStep(run[m], acts[m], run[m + 1]);
    }
  }

  // ---- An enqueue ends ----

  function PhaseLeft(stage: ProducerStage): nat {
    match stage
    case FromAhead => 4
    case FromPool => 4
    case Reset(_, _) => 3
    case Publish => 2
    case Construct(_, _) => 1
    case StoreTail => 0
  }

  ghost function WorkLeft(s: State): nat
    requires s.prod.Running?
  {
    match s.prod.stage
    case FromAhead => s.prod.op.need
    case FromPool => s.prod.op.need
    case Reset(_, j) => if j <= |s.order| then |s.order| - j else 0
    case Construct(k, _) => if k <= |s.prod.op.items| then |s.prod.op.items| - k else 0
    case _ => 0
  }

  ghost function StageLeft(s: State): nat
    requires s.prod.Running?
  {
    if s.prod.stage.FromAhead? then 2 else if s.prod.stage.FromPool? && IndexFull(s) then 1 else 0
  }

  ghost predicate Less(s': State, s: State)
    requires s.prod.Running?
  {
    s'.prod.Running? ==>
      || PhaseLeft(s'.prod.stage) < PhaseLeft(s.prod.stage)
      || (PhaseLeft(s'.prod.stage) == PhaseLeft(s.prod.stage) && WorkLeft(s') < WorkLeft(s))
      || (PhaseLeft(s'.prod.stage) == PhaseLeft(s.prod.stage) && WorkLeft(s') == WorkLeft(s) && StageLeft(s') < StageLeft(s))
  }

  /** Every step of the producer in a call brings its end nearer, whatever it is refused. */
  lemma ProducerEnds(s: State, a: Action, s': State)
    requires Inv(s) && s.prod.Running? && OfProducer(a) && Next(s, a, s')
    ensures Less(s', s)
  {
    if a == Produce && s.prod.stage.Reset? {
      ResetEnds(s, s.prod.op, s.prod.stage.block, s.prod.stage.j);
    } else {
      OtherEnds(s, a, s');
    }
  }

  lemma ResetEnds(s: State, op: Operation, b: Block, j: nat)
    requires Inv(s) && s.prod == Running(op, Reset(b, j)) && b < |s.flags| && b < |s.next|
    ensures Less(ResetStep(s, op, b, j), s)
  {
    ResetNext(s.next, s.order, s.lo, s.tailBlock, j);
  }

  lemma OtherEnds(s: State, a: Action, s': State)
    requires Inv(s) && s.prod.Running? && OfProducer(a) && Next(s, a, s') && !(a == Produce && s.prod.stage.Reset?)
    ensures Less(s', s)
  {
  }

  /** Steps of consumers do not put it off. */
  lemma OthersDoNotDelay(s: State, a: Action, s': State)
    requires s.prod.Running? && !OfProducer(a) && Next(s, a, s')
    ensures s'.prod == s.prod && WorkLeft(s') == WorkLeft(s) && StageLeft(s') == StageLeft(s)
  {
  }

  // ---- An enqueue without interference ----

  /** With its blocks acquired, a call goes on to its end. */
  lemma {:induction false} FinishAlone(s: State) returns (acts: seq<Action>, r: State)
    requires Inv(s) && s.prod.Running? && Enabled(s, Produce)
    ensures Path(s, acts, r) && Inv(r) && r.prod == Ready(true)
    ensures forall i :: 0 <= i < |acts| ==> acts[i] == Produce
    decreases PhaseLeft(s.prod.stage), WorkLeft(s), StageLeft(s)
  {
    var s' := FinishStep(s);
    if s'.prod.Running? {
      acts, r := FinishAlone(s');
      PathJoins(s, [Produce], s', acts, r);
      acts := [Produce] + acts;
    } else {
      acts, r := [Produce], s';
    }
  }

  lemma FinishStep(s: State) returns (s': State)
    requires Inv(s) && s.prod.Running? && Enabled(s, Produce)
    ensures Path(s, [Produce], s') && Inv(s') && Less(s', s)
    ensures if s'.prod.Running? then Enabled(s', Produce) else s'.prod == Ready(true)
  {
    ProduceInv(s);
    s' := Apply(s, Produce);
    ProducerEnds(s, Produce, s');
    PathStep(s, Produce, s');
    if s'.prod.Running? {
      ProducesAgain(s, s');
    } else {
      CallStep(s, Produce, s');
    }
  }

  lemma ProducesAgain(s: State, s': State)
    requires Inv(s) && s.prod.Running? && Next(s, Produce, s') && s'.prod.Running?
    ensures Enabled(s', Produce)
  {
  }

  /** A call of `SettleIsRun` is a path. */
  lemma LeadsIsPath(s: State, run: seq<State>, acts: seq<Action>, p: Supply, r: State)
    requires Leads(s, run, acts, p, r)
    ensures Path(s, acts, r)
  {
    forall i | 0 <= i < |acts| ensures StepAt(run, acts, i) {
      assert Chosen(run, acts, p, i);
    }
    assert Along(run, acts);
  }

  /** An enqueue that meets no interference ends, and succeeds exactly when it gets the blocks it wants. */
  lemma EnqueueAlone(s: State, items: seq<Elem>, p: Supply) returns (acts: seq<Action>, r: State)
    requires Inv(s) && s.prod.Ready?
    ensures Path(s, [Begin(items)] + acts, r) && r.prod.Ready?
    ensures r.prod.result <==> Needed(s, items) > 0 ==> Got(s, items, p) == Missing(s, items)
    ensures r.prod.result ==> Inv(r)
  {
    BeginInv(s, items);
    var s1 := Apply(s, Begin(items));
    PathStep(s, Begin(items), s1);
    if Needed(s, items) == 0 {
      acts, r := FinishAlone(s1);
    } else {
      acts, r := AcquireAndFinish(s, items, p, s1);
    }
    PathJoins(s, [Begin(items)], s1, acts, r);
  }

  lemma AcquireAndFinish(s: State, items: seq<Elem>, p: Supply, s1: State) returns (acts: seq<Action>, r: State)
    requires Inv(s) && s.prod.Ready? && Needed(s, items) > 0 && s1 == Apply(s, Begin(items))
    ensures Path(s1, acts, r) && r.prod.Ready? && (r.prod.result <==> Got(s, items, p) == Missing(s, items))
    ensures r.prod.result ==> Inv(r)
  {
    BeginInv(s, items);
    var s2 := Acquired(s, items, p);
    var run, more := SettleIsRun(s1, p);
    LeadsIsPath(s1, run, more, p, s2);
    acts, r := AfterAcquiring(s, items, p, s2);
    PathJoins(s1, more, s2, acts, r);
    acts := more + acts;
  }

  lemma AfterAcquiring(s: State, items: seq<Elem>, p: Supply, s2: State) returns (acts: seq<Action>, r: State)
    requires Inv(s) && s.prod.Ready? && Needed(s, items) > 0 && s2 == Acquired(s, items, p)
    ensures Path(s2, acts, r) && r.prod.Ready? && (r.prod.result <==> Got(s, items, p) == Missing(s, items))
    ensures r.prod.result ==> Inv(r)
  {
    CallOutcome(s, items, p);
    if Choice(s2, p) == Fail {
      acts, r := [Fail], Apply(s2, Fail);
      PathStep(s2, Fail, r);
    } else {
      acts, r := FinishAlone(s2);
    }
  }

  // ---- A dequeue, whatever other threads do ----

  /** More than the steps that a consumer still has to take. */
  function StepsLeft(c: Consumer): int {
    if c.Idle? then 0 else
    3 * (c.end - c.from) + (c.end - c.index) +
    match c.stage
    case LoadHeader => 6
    case LoadFront(_) => 5
    case ReadBase(_, _, _) => 4
    case ReadBlock(_, _) => 3
    case Take(_, _, _) => 2
    case SetEmpty(_, _, _) => 1
  }

  /** A consumer's step is never held up, and each brings it nearer to its end. */
  lemma ConsumerEndsSoon(s: State, t: Tid)
    requires Inv(s) && t < |s.cons| && s.cons[t].Busy?
    ensures InBounds(s, Consume(t)) && t < |ConsumeStep(s, t).cons|
    ensures 0 < StepsLeft(s.cons[t]) && StepsLeft(ConsumeStep(s, t).cons[t]) < StepsLeft(s.cons[t])
  {
    ConsumeInv(s, t);
    ConsumerFacts(s, t);
    StepCounts(s, t, s.cons[t]);
  }

  lemma StepCounts(s: State, t: Tid, c: Consumer)
    requires t < |s.cons| && s.cons[t] == c && c.Busy? && InBounds(s, Consume(t)) && c.from <= c.index <= c.end
    requires c.stage.SetEmpty? ==> c.from < c.index
    ensures t < |ConsumeStep(s, t).cons| && StepsLeft(ConsumeStep(s, t).cons[t]) < StepsLeft(c)
  {
  }

  /** What the consumer claimed is delivered when it is done, in order. */
  lemma ConsumerDelivers(s: State, t: Tid)
    requires Inv(s) && t < |s.cons| && s.cons[t].Busy?
    ensures InBounds(s, Consume(t)) && t < |ConsumeStep(s, t).cons| && s.cons[t].first <= s.cons[t].end <= |s.elems|
    ensures var c, s' := s.cons[t], ConsumeStep(s, t);
            if s'.cons[t].Idle? then s'.log == s.log + [Delivery(t, c.first, c.end, s.elems[c.first..c.end])]
            else s'.log == s.log && s'.cons[t].first == c.first && s'.cons[t].end == c.end
  {
    ConsumeInv(s, t);
    ConsumerFacts(s, t);
  }

  /** How many of steps `from` to `to` are consumer t's. */
  function OwnSteps(acts: seq<Action>, t: Tid, from: nat, to: nat): nat
    requires from <= to <= |acts|
  {
    if from == to then 0 else OwnSteps(acts, t, from, to - 1) + if acts[to - 1] == Consume(t) then 1 else 0
  }

  lemma OthersLeaveConsumer(s: State, a: Action, s': State, t: Tid)
    requires Next(s, a, s') && t < |s.cons| && s.cons[t].Busy? && a != Consume(t)
    ensures |s'.cons| == |s.cons| && s'.cons[t] == s.cons[t]
  {
  }

  ghost predicate Dequeuing(run: seq<State>, acts: seq<Action>, t: Tid, i: nat, k: nat, count: nat) {
    && i < k < |run| && i < |acts| && k <= |acts| && t < |run[k].cons| && run[k].cons[t].Busy?
    && run[k].cons[t].first == run[i].head && run[k].cons[t].end == run[i].head + count
    && OwnSteps(acts, t, i + 1, k) + StepsLeft(run[k].cons[t]) <= 4 * count + 6
  }

  lemma DequeueGoesOn(run: seq<State>, acts: seq<Action>, t: Tid, i: nat, k: nat, count: nat)
    requires IsSoundRun(run, acts) && k < |acts| && Dequeuing(run, acts, t, i, k, count)
    ensures t < |run[k + 1].cons| && run[i].head + count <= |run[k].elems|
    ensures if run[k + 1].cons[t].Busy? then Dequeuing(run, acts, t, i, k + 1, count)
            else && OwnSteps(acts, t, i + 1, k + 1) <= 4 * count + 6
                 && run[k + 1].log == run[k].log + [Delivery(t, run[i].head, run[i].head + count, run[k].elems[run[i].head..run[i].head + count])]
  {
    ConsumerStepAt(run, acts, k, t);
  }

  lemma ConsumerStepAt(run: seq<State>, acts: seq<Action>, k: nat, t: Tid)
    requires IsSoundRun(run, acts) && k < |acts| && t < |run[k].cons| && run[k].cons[t].Busy?
    ensures t < |run[k + 1].cons| && run[k].cons[t].first <= run[k].cons[t].end <= |run[k].elems| && 0 < StepsLeft(run[k].cons[t])
    ensures StepsLeft(run[k + 1].cons[t]) + (if acts[k] == Consume(t) then 1 else 0) <= StepsLeft(run[k].cons[t])
    ensures var c := run[k].cons[t];
            if run[k + 1].cons[t].Idle? then run[k + 1].log == run[k].log + [Delivery(t, c.first, c.end, run[k].elems[c.first..c.end])]
            else run[k + 1].cons[t].first == c.first && run[k + 1].cons[t].end == c.end
  {
    SoundStep(run, acts, k);
    ConsumerStep(run[k], acts[k], run[k + 1], t);
  }

  lemma ConsumerStep(s: State, a: Action, s': State, t: Tid)
    requires Inv(s) && Next(s, a, s') && t < |s.cons| && s.cons[t].Busy?
    ensures t < |s'.cons| && s.cons[t].first <= s.cons[t].end <= |s.elems| && 0 < StepsLeft(s.cons[t])
    ensures StepsLeft(s'.cons[t]) + (if a == Consume(t) then 1 else 0) <= StepsLeft(s.cons[t])
    ensures var c := s.cons[t];
            if s'.cons[t].Idle? then s'.log == s.log + [Delivery(t, c.first, c.end, s.elems[c.first..c.end])]
            else s'.cons[t].first == c.first && s'.cons[t].end == c.end
  {
    ConsumerDelivers(s, t);
    ConsumerEndsSoon(s, t);
    if a != Consume(t) {
      OthersLeaveConsumer(s, a, s', t);
    }
  }

  lemma {:induction false} StillDequeuing(run: seq<State>, acts: seq<Action>, t: Tid, i: nat, k: nat, count: nat)
    requires IsSoundRun(run, acts) && i < k < |run| && acts[i] == Claim(t, count)
    requires forall m :: i < m <= k ==> t < |run[m].cons| && run[m].cons[t].Busy?
    ensures Dequeuing(run, acts, t, i, k, count)
    decreases k
  {
    if k == i + 1 {
      SoundStep(run, acts, i);
    } else {
      StillDequeuing(run, acts, t, i, k - 1, count);
      DequeueGoesOn(run, acts, t, i, k - 1, count);
    }
  }

  /**
    A dequeue of `count` elements is over after at most 4 * count + 6 of its own steps, whatever other
    threads do, and delivers the elements that were claimed.
   */
  lemma DequeueIsWaitFree(run: seq<State>, acts: seq<Action>, t: Tid, i: nat, j: nat, count: nat)
    requires IsSoundRun(run, acts) && i + 1 < j < |run| && acts[i] == Claim(t, count)
    requires forall m :: i < m < j ==> t < |run[m].cons| && run[m].cons[t].Busy?
    ensures OwnSteps(acts, t, i + 1, j) <= 4 * count + 6 && t < |run[j].cons| && run[i].head + count <= |run[j - 1].elems|
    ensures run[j].cons[t].Idle? ==>
              run[j].log == run[j - 1].log
                + [Delivery(t, run[i].head, run[i].head + count, run[j - 1].elems[run[i].head..run[i].head + count])]
  {
    StillDequeuing(run, acts, t, i, j - 1, count);
    DequeueGoesOn(run, acts, t, i, j - 1, count);
    if run[j].cons[t].Busy? {
      SoundRunsAreSafe(run, acts, j);
      ConsumerEndsSoon(run[j], t);
    }
  }
}
