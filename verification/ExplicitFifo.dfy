module ExplicitFifo {
  /**
    What every run of an explicit producer and its consumers achieves: a first-in first-out queue
    that loses and duplicates nothing, and a ring that agrees with its index.
   */

  import opened Basics
  import opened Blocks
  import opened Deliveries
  import opened ExplicitQueue
  import opened ExplicitFrames
  import opened ExplicitProducerSteps
  import opened ExplicitConsumerSteps

  // ---- Every run ----

  /** The action is not a failing exit that leaves a block it inserted, or an index it replaced after reusing one. */
  predicate Sound(s: State, a: Action) {
    a.Fail? && s.prod.Running? ==> SafeFail(s.prod.op)
  }

  /** Every enabled action is in bounds, and keeps the invariant exactly when it is sound. */
  lemma ApplyInv(s: State, a: Action)
    requires Inv(s) && Enabled(s, a)
    ensures InBounds(s, a) && (Inv(Apply(s, a)) <==> Sound(s, a))
  {
    match a
    case Begin(items) => BeginInv(s, items);
    case Reuse => ReuseInv(s);
    case StopReuse => StopReuseInv(s);
    case Grow => GrowInv(s);
    case Insert => InsertInv(s);
    case Fail => FailMoves(s, s.prod.op);
    case Produce => ProduceInv(s);
    case Claim(t, count) => ClaimMoves(s, t, count);
    case Consume(t) => ConsumeInv(s, t);
  }

  ghost predicate Next(s: State, a: Action, s': State) {
    Enabled(s, a) && InBounds(s, a) && s' == Apply(s, a)
  }

  ghost predicate StepAt(run: seq<State>, acts: seq<Action>, i: nat) {
    i < |acts| && i + 1 < |run| && Next(run[i], acts[i], run[i + 1])
  }

  ghost predicate IsRun(run: seq<State>, acts: seq<Action>) {
    && |run| == |acts| + 1
    && Init(run[0])
    && forall i :: 0 <= i < |acts| ==> StepAt(run, acts, i)
  }

  ghost predicate SoundAt(run: seq<State>, acts: seq<Action>, i: nat) {
    i < |acts| && i < |run| && Sound(run[i], acts[i])
  }

  ghost predicate SoundUpTo(run: seq<State>, acts: seq<Action>, n: nat) {
    forall i :: 0 <= i < n ==> SoundAt(run, acts, i)
  }

  ghost predicate InvAt(run: seq<State>, i: nat) {
    i < |run| && Inv(run[i])
  }

  ghost predicate SafeUpTo(run: seq<State>, n: nat) {
    forall i :: 0 <= i <= n ==> InvAt(run, i)
  }

  lemma {:induction false} SoundIsSafe(run: seq<State>, acts: seq<Action>, n: nat)
    requires IsRun(run, acts) && n < |run| && SoundUpTo(run, acts, n)
    ensures InvAt(run, n)
    decreases n
  {
    if n == 0 {
      InitInv(run[0]);
    } else {
      SoundIsSafe(run, acts, n - 1);
      RunStep(run, acts, n - 1);
      assert SoundAt(run, acts, n - 1);
    }
  }

  lemma SafeIsSound(run: seq<State>, acts: seq<Action>, n: nat)
    requires IsRun(run, acts) && n < |acts| && InvAt(run, n) && InvAt(run, n + 1)
    ensures SoundAt(run, acts, n)
  {
    RunStep(run, acts, n);
  }

  /** A run keeps the invariant as long as, and only as long as, its failing exits are sound. */
  lemma RunsAreSafe(run: seq<State>, acts: seq<Action>, n: nat)
    requires IsRun(run, acts) && n < |run|
    ensures SafeUpTo(run, n) <==> SoundUpTo(run, acts, n)
  {
    if SoundUpTo(run, acts, n) {
      forall i | 0 <= i <= n ensures InvAt(run, i) {
        SoundIsSafe(run, acts, i);
      }
    } else if SafeUpTo(run, n) {
      var i :| 0 <= i < n && !SoundAt(run, acts, i);
      SafeIsSound(run, acts, i);
    }
  }

  lemma RunStep(run: seq<State>, acts: seq<Action>, n: nat)
    requires IsRun(run, acts) && n < |acts| && Inv(run[n])
    ensures Next(run[n], acts[n], run[n + 1]) && (Inv(run[n + 1]) <==> SoundAt(run, acts, n))
  {
    assert StepAt(run, acts, n);
    ApplyInv(run[n], acts[n]);
  }

  /** A run whose failing exits are sound. */
  ghost predicate IsSoundRun(run: seq<State>, acts: seq<Action>) {
    IsRun(run, acts) && SoundUpTo(run, acts, |acts|)
  }

  lemma SoundRunsAreSafe(run: seq<State>, acts: seq<Action>, n: nat)
    requires IsSoundRun(run, acts) && n < |run|
    ensures Inv(run[n])
  {
    RunsAreSafe(run, acts, n);
    assert InvAt(run, n);
  }

  lemma SoundStep(run: seq<State>, acts: seq<Action>, n: nat)
    requires IsSoundRun(run, acts) && n < |acts|
    ensures Inv(run[n]) && Next(run[n], acts[n], run[n + 1]) && Sound(run[n], acts[n])
  {
    SoundRunsAreSafe(run, acts, n);
    RunStep(run, acts, n);
    assert SoundAt(run, acts, n);
  }

  // ---- Finite stretches of runs ----

  /** Actions that lead from s to s', each of them enabled and in bounds. */
  ghost predicate Path(s: State, acts: seq<Action>, s': State) {
    exists run: seq<State> :: Along(run, acts) && run[0] == s && run[|acts|] == s'
  }

  ghost predicate Along(run: seq<State>, acts: seq<Action>) {
    |run| == |acts| + 1 && forall i :: 0 <= i < |acts| ==> StepAt(run, acts, i)
  }

  lemma PathStep(s: State, a: Action, s': State)
    requires Next(s, a, s')
    ensures Path(s, [a], s')
  {
    var run := [s, s'];
    assert StepAt(run, [a], 0);
    assert Along(run, [a]);
  }

  lemma PathJoins(s: State, acts: seq<Action>, s': State, acts': seq<Action>, s'': State)
    requires Path(s, acts, s') && Path(s', acts', s'')
    ensures Path(s, acts + acts', s'')
  {
    var r: seq<State> :| Along(r, acts) && r[0] == s && r[|acts|] == s';
    var r': seq<State> :| Along(r', acts') && r'[0] == s' && r'[|acts'|] == s'';
    var run := r + r'[1..];
    RunsJoin(r, acts, r', acts', run);
    assert run[|acts + acts'|] == s'';
  }

  lemma RunsJoin(r: seq<State>, acts: seq<Action>, r': seq<State>, acts': seq<Action>, run: seq<State>)
    requires Along(r, acts) && Along(r', acts') && r[|acts|] == r'[0] && run == r + r'[1..]
    ensures Along(run, acts + acts')
  {
    var all := acts + acts';
    forall i | 0 <= i < |all| ensures StepAt(run, all, i) {
      if i < |acts| {
        FirstPart(r, acts, r', acts', run, i);
      } else {
        SecondPart(r, acts, r', acts', run, i - |acts|);
      }
    }
  }

  lemma FirstPart(r: seq<State>, acts: seq<Action>, r': seq<State>, acts': seq<Action>, run: seq<State>, i: nat)
    requires Along(r, acts) && Along(r', acts') && r[|acts|] == r'[0] && run == r + r'[1..] && i < |acts|
    ensures StepAt(run, acts + acts', i)
  {
    assert StepAt(r, acts, i);
    assert run[i] == r[i] && run[i + 1] == r[i + 1] && (acts + acts')[i] == acts[i];
  }

  lemma SecondPart(r: seq<State>, acts: seq<Action>, r': seq<State>, acts': seq<Action>, run: seq<State>, i: nat)
    requires Along(r, acts) && Along(r', acts') && r[|acts|] == r'[0] && run == r + r'[1..] && i < |acts'|
    ensures StepAt(run, acts + acts', |acts| + i)
  {
    assert StepAt(r', acts', i);
    assert run[|acts| + i] == r'[i] && run[|acts| + i + 1] == r'[i + 1] && (acts + acts')[|acts| + i] == acts'[i];
  }

  lemma Path2(s: State, a1: Action, s1: State, a2: Action, s2: State)
    requires Next(s, a1, s1) && Next(s1, a2, s2)
    ensures Path(s, [a1, a2], s2)
  {
    PathStep(s, a1, s1);
    PathStep(s1, a2, s2);
    PathJoins(s, [a1], s1, [a2], s2);
    assert [a1] + [a2] == [a1, a2];
  }

  lemma Path3(s: State, a1: Action, s1: State, a2: Action, s2: State, a3: Action, s3: State)
    requires Next(s, a1, s1) && Next(s1, a2, s2) && Next(s2, a3, s3)
    ensures Path(s, [a1, a2, a3], s3)
  {
    Path2(s, a1, s1, a2, s2);
    PathStep(s2, a3, s3);
    PathJoins(s, [a1, a2], s2, [a3], s3);
    assert [a1, a2] + [a3] == [a1, a2, a3];
  }

  lemma PathsJoin(s: State, acts1: seq<Action>, s1: State, acts2: seq<Action>, s2: State, acts3: seq<Action>, s3: State)
    requires Path(s, acts1, s1) && Path(s1, acts2, s2) && Path(s2, acts3, s3)
    ensures Path(s, acts1 + acts2 + acts3, s3)
  {
    PathJoins(s, acts1, s1, acts2, s2);
    PathJoins(s, acts1 + acts2, s2, acts3, s3);
  }

  // ---- The queue of enqueued elements ----

  /** The only step that changes the queue appends all items of an operation at once. */
  lemma EnqueueAppends(s: State, a: Action, s': State)
    requires Inv(s) && Next(s, a, s')
    ensures s.tail <= |s.elems| && s'.tail <= |s'.elems|
    ensures Enqueued(s'.elems, s'.tail) == Enqueued(s.elems, s.tail) + if a == Produce && s.prod.stage == StoreTail then s.prod.op.items else []
  {
    if a.Consume? {
      ConsumeKeeps(s, a.t);
    } else {
      ProduceKeeps(s, a);
    }
    assert s'.elems[..s.tail] == s.elems[..s.tail];
    if a == Produce && s.prod.stage == StoreTail {
      assert s.elems == s.elems[..s.tail] + s.elems[s.tail..];
    }
  }

  lemma ConsumeKeeps(s: State, t: Tid)
    requires Inv(s) && Enabled(s, Consume(t)) && InBounds(s, Consume(t))
    ensures var s' := ConsumeStep(s, t); s'.elems == s.elems && s'.tail == s.tail <= |s.elems|
  {
  }

  lemma ProduceKeeps(s: State, a: Action)
    requires Inv(s) && Enabled(s, a) && InBounds(s, a) && !a.Consume?
    ensures var s' := Apply(s, a);
            && s.elems <= s'.elems && s.tail <= |s.elems|
            && if a == Produce && s.prod.stage == StoreTail
               then s'.elems == s.elems && s'.tail == |s.elems| && s.elems[s.tail..] == s.prod.op.items
               else s'.tail == s.tail
  {
  }

  /** Between the call with `items` and its return, with the queue as it was at the call. */
  ghost predicate Underway(s0: State, s: State, items: seq<Elem>) {
    && s0.tail <= |s0.elems| && s.tail <= |s.elems|
    && s.prod.Running? && s.prod.op.items == items && s.tail == s0.tail && Enqueued(s.elems, s.tail) == Enqueued(s0.elems, s0.tail)
  }

  /** After the call: everything was appended, or nothing was, and the result says which. */
  ghost predicate Returned(s0: State, s: State, items: seq<Elem>) {
    && s0.tail <= |s0.elems| && s.tail <= |s.elems| && s.prod.Ready?
    && (s.prod.result ==> Enqueued(s.elems, s.tail) == Enqueued(s0.elems, s0.tail) + items)
    && (!s.prod.result ==> s.tail == s0.tail && Enqueued(s.elems, s.tail) == Enqueued(s0.elems, s0.tail))
  }

  lemma OperationKeeps(s0: State, s: State, a: Action, s': State, items: seq<Elem>)
    requires Inv(s) && Next(s, a, s') && Underway(s0, s, items)
    ensures Underway(s0, s', items) || Returned(s0, s', items)
  {
    EnqueueAppends(s, a, s');
    if a.Consume? {
      ConsumeKeeps(s, a.t);
      assert s'.prod == s.prod;
    } else {
      ProduceKeeps(s, a);
      ResultTells(s, a, s');
    }
  }

  /** A call that ends has stored the tail, or failed. */
  lemma ResultTells(s: State, a: Action, s': State)
    requires Next(s, a, s') && !a.Consume? && s.prod.Running?
    ensures s'.prod.Running? ==> s'.prod.op.items == s.prod.op.items && !(a == Produce && s.prod.stage == StoreTail)
    ensures s'.prod.Ready? ==> s'.prod.result == (a == Produce && s.prod.stage == StoreTail)
  {
  }

  lemma BeginKeeps(s: State, items: seq<Elem>, s': State)
    requires Inv(s) && Next(s, Begin(items), s')
    ensures Underway(s, s', items)
  {
  }

  /** A step that does not end the call is sound. */
  lemma StillSafe(s: State, a: Action, s': State)
    requires Inv(s) && Next(s, a, s') && s'.prod.Running?
    ensures Inv(s')
  {
    ApplyInv(s, a);
  }

  lemma CallBegins(run: seq<State>, acts: seq<Action>, i: nat, items: seq<Elem>)
    requires IsRun(run, acts) && SoundUpTo(run, acts, i) && i < |acts| && acts[i] == Begin(items)
    ensures Inv(run[i + 1]) && Underway(run[i], run[i + 1], items)
  {
    RunsAreSafe(run, acts, i);
    assert InvAt(run, i);
    RunStep(run, acts, i);
    BeginKeeps(run[i], items, run[i + 1]);
  }

  lemma CallGoesOn(run: seq<State>, acts: seq<Action>, s0: State, j: nat, items: seq<Elem>)
    requires IsRun(run, acts) && j < |acts| && Inv(run[j]) && Underway(s0, run[j], items)
    ensures (Inv(run[j + 1]) && Underway(s0, run[j + 1], items)) || Returned(s0, run[j + 1], items)
  {
    RunStep(run, acts, j);
    OperationKeeps(s0, run[j], acts[j], run[j + 1], items);
    if run[j + 1].prod.Running? {
      StillSafe(run[j], acts[j], run[j + 1]);
    }
  }

  lemma {:induction false} StillUnderway(run: seq<State>, acts: seq<Action>, i: nat, j: nat, items: seq<Elem>)
    requires IsRun(run, acts) && SoundUpTo(run, acts, i) && i < j < |run| && acts[i] == Begin(items)
    requires forall m :: i < m < j ==> run[m].prod.Running?
    ensures (Inv(run[j]) && Underway(run[i], run[j], items)) || Returned(run[i], run[j], items)
    decreases j
  {
    if i == j - 1 {
      CallBegins(run, acts, i, items);
    } else {
      StillUnderway(run, acts, i, j - 1, items);
      CallGoesOn(run, acts, run[i], j - 1, items);
    }
  }

  /**
    An enqueue of any number of elements, interleaved with any consumers, returns true after
    appending all of them, or false with the queue and its tail as they were, however it failed.
   */
  lemma AllOrNothing(run: seq<State>, acts: seq<Action>, i: nat, j: nat, items: seq<Elem>)
    requires IsRun(run, acts) && SoundUpTo(run, acts, i) && i < j < |run| && acts[i] == Begin(items) && run[j].prod.Ready?
    requires forall m :: i < m < j ==> run[m].prod.Running?
    ensures run[i].tail <= |run[i].elems| && run[j].tail <= |run[j].elems|
    ensures if run[j].prod.result then Enqueued(run[j].elems, run[j].tail) == Enqueued(run[i].elems, run[i].tail) + items
            else run[j].tail == run[i].tail && Enqueued(run[j].elems, run[j].tail) == Enqueued(run[i].elems, run[i].tail)
  {
    StillUnderway(run, acts, i, j, items);
  }

  // ---- Ring and index ----

  /** The k-th oldest of the `used` entries that end before `nextSlot`. */
  ghost function Listed(entries: seq<Entry>, nextSlot: nat, used: nat, k: nat): Entry
    requires nextSlot < |entries| && k < used <= |entries|
  {
    entries[Back(nextSlot, used - k, |entries|)]
  }

  /** The current index has entries for `used` blocks. */
  ghost predicate Lists(headers: seq<Header>, nextSlot: nat, used: nat) {
    headers != [] && nextSlot < |Last(headers).entries| && used <= |Last(headers).entries|
  }

  lemma ListedIsOrder(headers: seq<Header>, order: seq<Block>, lo: nat, low: nat, tail: nat, used: nat, size: nat, nextSlot: nat, k: nat)
    requires HeadersOk(headers, order, low) && CurrentOk(headers, order, lo, tail, used, size, nextSlot) && k < used
    ensures Lists(headers, nextSlot, used) && |Last(headers).entries| == size && lo + used == |order|
    ensures low <= lo + k ==> Listed(Last(headers).entries, nextSlot, used, k) == Entry(Base(lo + k), order[lo + k])
  {
    var h := headers[|headers| - 1];
    assert HeaderOk(h, order, low);
    if low <= lo + k {
      assert EntryAt(h, order, lo + k);
      BackIsSlot(lo + k - h.first, used - k, h.size);
    }
  }

  /** The k-th oldest block of the ring is listed with its base, unless its entry is lost. */
  lemma ListedInState(s: State, k: nat)
    requires Inv(s) && k < s.slotsUsed
    ensures Lists(s.headers, s.nextSlot, s.slotsUsed) && |Last(s.headers).entries| == s.indexSize && s.lo + s.slotsUsed == |s.order|
    ensures s.low <= s.lo + k ==> Listed(Last(s.headers).entries, s.nextSlot, s.slotsUsed, k) == Entry(Base(s.lo + k), s.order[s.lo + k])
  {
    HeadersLater(s.headers, s.order, Kept(s), Live(s));
    ListedIsOrder(s.headers, s.order, s.lo, Live(s), s.tail, s.slotsUsed, s.indexSize, s.nextSlot, k);
  }

  /**
    The last `slotsUsed` slots of the current index list the blocks of the ring, once each and in
    ring order from the block ahead of the tail block, with bases BLOCK_SIZE apart. Only the oldest
    ones, of numbers below `low`, may have lost their entries, by a failing exit.
   */
  lemma RingMatchesIndex(s: State, k: nat, j: nat)
    requires Inv(s) && k < s.slotsUsed && j < s.slotsUsed && s.low <= s.lo + k && s.low <= s.lo + j
    ensures Lists(s.headers, s.nextSlot, s.slotsUsed) && HasAhead(s)
    ensures var e := Last(s.headers).entries;
            var entry := Listed(e, s.nextSlot, s.slotsUsed, k);
            && (k == 0 ==> entry.block == Ahead(s) && entry.base == Base(s.lo))
            && (k + 1 == s.slotsUsed ==> s.tailBlock == At(entry.block))
            && (k + 1 < s.slotsUsed ==>
                  entry.block < |s.next|
                  && Listed(e, s.nextSlot, s.slotsUsed, k + 1) == Entry(entry.base + BLOCK_SIZE, s.next[entry.block]))
            && (j != k ==> Listed(e, s.nextSlot, s.slotsUsed, j).block != entry.block)
  {
    ListedInState(s, k);
    ListedInState(s, j);
    if k + 1 < s.slotsUsed {
      ListedInState(s, k + 1);
    }
    RingFacts(s.next, s.order, s.lo, s.tailBlock, s.lo + k, s.lo + j);
    AheadIsOldest(s);
  }

  lemma RingFacts(next: seq<Block>, order: seq<Block>, lo: nat, tailBlock: Ptr, m: nat, n: nat)
    requires RingOk(next, order, lo, tailBlock) && lo <= m < |order| && lo <= n < |order|
    ensures order[m] < |next| && (m + 1 < |order| ==> next[order[m]] == order[m + 1])
    ensures m != n ==> order[m] != order[n]
  {
    assert RingAt(next, order, lo, m);
    if m != n {
      assert Apart(order, if m < n then m else n, if m < n then n else m);
    }
  }

  /** A block is reused only after each of its elements was claimed, taken and flagged by its consumer. */
  lemma OnlyEmptyBlocksAreReused(s: State, i: nat)
    requires Inv(s) && Enabled(s, Reuse) && s.order != [] && Ahead(s) == s.order[s.lo]
    requires Base(s.lo) <= i < Base(s.lo + 1)
    ensures i < s.head <= |s.elems|
    ensures forall t :: 0 <= t < |s.cons| && s.cons[t].Busy? ==> i < s.cons[t].from
  {
    ReuseUnclaimed(s);
    forall t | 0 <= t < |s.cons| && s.cons[t].Busy? ensures i < s.cons[t].from {
      WantsLater(s, t);
    }
  }

  lemma WantsLater(s: State, t: Tid)
    requires Inv(s) && s.lo < |s.order| && s.order[s.lo] < |s.flags| && AllSet(s.flags[s.order[s.lo]])
    requires t < |s.cons| && s.cons[t].Busy?
    ensures Base(s.lo + 1) <= s.cons[t].from
  {
    ConsumerFacts(s, t);
    Windows(s);
    EmptyBlockIsDone(s.order, s.lo, s.flags, s.cons[t].from, s.cons[t].end);
  }

  lemma AheadIsOldest(s: State)
    requires Inv(s) && s.order != []
    ensures HasAhead(s) && Ahead(s) == s.order[s.lo]
  {
    assert RingAt(s.next, s.order, s.lo, |s.order| - 1);
  }

  // ---- Every element is delivered exactly once ----

  function SpanOf(c: Consumer): Span {
    if c.Busy? then Held(c.first, c.end) else Free
  }

  function Spans(cons: seq<Consumer>): (r: seq<Span>)
    ensures |r| == |cons| && forall t :: 0 <= t < |cons| ==> r[t] == SpanOf(cons[t])
  {
    seq(|cons|, t requires 0 <= t < |cons| => SpanOf(cons[t]))
  }

  lemma HistoryNext(s: State, a: Action, s': State)
    requires Inv(s) && Next(s, a, s') && HistoryOk(s.owner, Spans(s.cons), s.log)
    ensures HistoryOk(s'.owner, Spans(s'.cons), s'.log)
  {
    match a
    case Claim(t, count) => ClaimHistory(s, t, count);
    case Consume(t) => ConsumeHistory(s, t);
    case _ => OtherHistory(s, a);
  }

  lemma ClaimHistory(s: State, t: Tid, count: nat)
    requires Inv(s) && Enabled(s, Claim(t, count)) && HistoryOk(s.owner, Spans(s.cons), s.log)
    ensures HistoryOk(ClaimStep(s, t, count).owner, Spans(ClaimStep(s, t, count).cons), s.log)
  {
    NewClaim(s.owner, Spans(s.cons), s.log, t, count);
    assert Spans(ClaimStep(s, t, count).cons) == Spans(s.cons)[t := Held(s.head, s.head + count)];
  }

  lemma OtherHistory(s: State, a: Action)
    requires Enabled(s, a) && InBounds(s, a) && !a.Claim? && !a.Consume?
    ensures var s' := Apply(s, a); s'.cons == s.cons && s'.log == s.log && s'.owner == s.owner
  {
  }

  lemma ConsumeHistory(s: State, t: Tid)
    requires Inv(s) && Enabled(s, Consume(t)) && InBounds(s, Consume(t)) && HistoryOk(s.owner, Spans(s.cons), s.log)
    ensures HistoryOk(s.owner, Spans(ConsumeStep(s, t).cons), ConsumeStep(s, t).log) && ConsumeStep(s, t).owner == s.owner
  {
    ConsumerFacts(s, t);
    var c, s' := s.cons[t], ConsumeStep(s, t);
    if c.stage.SetEmpty? && c.index == c.end {
      Finish(s.owner, Spans(s.cons), s.log, t, Delivery(t, c.first, c.end, c.got));
      assert Spans(s'.cons) == Spans(s.cons)[t := Free];
    } else {
      assert Spans(s'.cons) == Spans(s.cons);
    }
  }

  lemma {:induction false} HistoryHolds(run: seq<State>, acts: seq<Action>, n: nat)
    requires IsSoundRun(run, acts) && n < |run|
    ensures HistoryOk(run[n].owner, Spans(run[n].cons), run[n].log)
    decreases n
  {
    if n == 0 {
      InitHistory(run[0]);
    } else {
      HistoryHolds(run, acts, n - 1);
      HistoryGoesOn(run, acts, n - 1);
    }
  }

  lemma HistoryGoesOn(run: seq<State>, acts: seq<Action>, n: nat)
    requires IsSoundRun(run, acts) && n < |acts| && HistoryOk(run[n].owner, Spans(run[n].cons), run[n].log)
    ensures HistoryOk(run[n + 1].owner, Spans(run[n + 1].cons), run[n + 1].log)
  {
    SoundStep(run, acts, n);
    HistoryNext(run[n], acts[n], run[n + 1]);
  }

  lemma InitHistory(s: State)
    requires Init(s)
    ensures HistoryOk(s.owner, Spans(s.cons), s.log)
  {
  }

  /**
    In every state of every run, an index below `head` is either still claimed by its owner or
    delivered exactly once, to its owner, as the element that was enqueued at that position.
   */
  lemma DeliveredExactlyOnce(run: seq<State>, acts: seq<Action>, n: nat, i: nat)
    requires IsSoundRun(run, acts) && n < |run| && i < run[n].head
    ensures OnceAndOnlyOnce(run[n].owner, Spans(run[n].cons), run[n].log, run[n].elems, i)
  {
    HistoryHolds(run, acts, n);
    SoundRunsAreSafe(run, acts, n);
    HistoryMeans(run[n].owner, Spans(run[n].cons), run[n].log, run[n].elems, i);
  }

  /** Once no consumer is busy, everything below `head` has been delivered. */
  lemma NothingIsLost(run: seq<State>, acts: seq<Action>, n: nat, i: nat)
    requires IsSoundRun(run, acts) && n < |run| && i < run[n].head
    requires forall t :: 0 <= t < |run[n].cons| ==> run[n].cons[t].Idle?
    ensures InLog(run[n].log, i)
  {
    DeliveredExactlyOnce(run, acts, n, i);
  }
}
