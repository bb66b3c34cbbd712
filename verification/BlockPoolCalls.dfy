module BlockPoolCalls {
  /**
    What calls of the block pool give: alone, a requisition takes the next block of the initial
    array, else the first of the free list, and a release puts its block on the list; with any
    interference, a requisition goes on to allocate only if it found the list empty.
   */

  import opened Basics
  import opened BlockPool
  import opened BlockPoolSteps
  import opened BlockOwnership

  // ---- Alone ----

  ghost predicate Alone(s: State, t: Tid) {
    t < |s.pc| && forall u :: 0 <= u < |s.pc| && u != t ==> s.pc[u] == Idle
  }

  ghost predicate SoloAt(run: seq<State>, t: Tid, i: nat) {
    i + 1 < |run| && WellFormed(run[i]) && t < |run[i].pc| && run[i + 1] == Run(run[i], t)
  }

  /** Thread t takes n steps from s to r, and no other thread takes one. */
  ghost predicate Solo(s: State, t: Tid, n: nat, r: State) {
    exists run: seq<State> :: SoloRun(run, t, n) && run[0] == s && run[n] == r
  }

  ghost predicate SoloRun(run: seq<State>, t: Tid, n: nat) {
    |run| == n + 1 && forall i :: 0 <= i < n ==> SoloAt(run, t, i)
  }

  lemma SoloThree(s: State, t: Tid, s1: State, s2: State, s3: State)
    requires WellFormed(s) && WellFormed(s1) && WellFormed(s2) && t < |s.pc| == |s1.pc| == |s2.pc|
    requires s1 == Run(s, t) && s2 == Run(s1, t) && s3 == Run(s2, t)
    ensures Solo(s, t, 3, s3)
  {
    var run := [s, s1, s2, s3];
    assert SoloAt(run, t, 0) && SoloAt(run, t, 1) && SoloAt(run, t, 2);
    assert SoloRun(run, t, 3);
  }

  lemma SoloTwo(s: State, t: Tid, s1: State, s2: State)
    requires WellFormed(s) && WellFormed(s1) && t < |s.pc| == |s1.pc|
    requires s1 == Run(s, t) && s2 == Run(s1, t)
    ensures Solo(s, t, 2, s2)
  {
    var run := [s, s1, s2];
    assert SoloAt(run, t, 0) && SoloAt(run, t, 1);
    assert SoloRun(run, t, 2);
  }

  lemma SoloOne(s: State, t: Tid, s1: State)
    requires WellFormed(s) && t < |s.pc| && s1 == Run(s, t)
    ensures Solo(s, t, 1, s1)
  {
    var run := [s, s1];
    assert SoloAt(run, t, 0);
    assert SoloRun(run, t, 1);
  }

  lemma SoloJoins(s: State, t: Tid, m: nat, r: State, n: nat, q: State)
    requires Solo(s, t, m, r) && Solo(r, t, n, q)
    ensures Solo(s, t, m + n, q)
  {
    var one: seq<State> :| SoloRun(one, t, m) && one[0] == s && one[m] == r;
    var two: seq<State> :| SoloRun(two, t, n) && two[0] == r && two[n] == q;
    var run := one + two[1..];
    forall i | 0 <= i < m + n ensures SoloAt(run, t, i) {
      if i < m {
        assert SoloAt(one, t, i);
      } else {
        assert SoloAt(two, t, i - m);
      }
    }
    assert SoloRun(run, t, m + n) && run[m + n] == q;
  }

  /** No other thread holds a reference. */
  lemma AloneWord(s: State, t: Tid, b: Block)
    requires Inv(s) && Alone(s, t) && b < |s.refs| && !Holds(s.pc[t], b)
    ensures Holders(s.pc, b) == 0
    ensures s.phase[b].Listed? ==> s.refs[b] == 1
    ensures s.phase[b] == Adding(t) && s.pc[t] == SetFlag(b) ==> s.refs[b] == 0
  {
    NoHolders(s.pc, b);
    assert BlockInv(s.phase[b], s.refs[b], s.pc, b);
  }

  /** The first block of the list is given to t, and nothing else has changed. */
  ghost predicate TookFirst(s: State, r: State, t: Tid) {
    && s.chain != [] && t < |s.pc| && s.chain[0] < |s.phase| == |s.refs|
    && r == s.(head := Link(s.chain, 1), chain := s.chain[1..], pc := s.pc[t := Idle],
               phase := s.phase[s.chain[0] := Owned(t)], refs := s.refs[s.chain[0] := 0])
  }

  /** The reference to the first block is acquired. */
  lemma TryGetAcquires(s: State, t: Tid) returns (r: State)
    requires Inv(s) && Alone(s, t) && s.pc[t] == LoadHead && s.chain != []
    ensures s.chain[0] < |s.refs| && Inv(r) && Solo(s, t, 3, r)
    ensures r == s.(pc := s.pc[t := LoadNext(s.chain[0])], refs := s.refs[s.chain[0] := 2])
  {
    var b := s.chain[0];
    assert Linked(s.next, s.phase, s.chain, 0);
    AloneWord(s, t, b);
    RunInv(s, t);
    var s1 := Run(s, t);
    assert s1.pc[t] == LoadRefs(b);
    RunInv(s1, t);
    var s2 := Run(s1, t);
    assert s2.pc[t] == Acquire(b, 1);
    RunInv(s2, t);
    r := Run(s2, t);
    SoloThree(s, t, s1, s2, r);
    assert r.pc == s.pc[t := LoadNext(b)];
  }

  lemma TryGetUnlinks(s: State, t: Tid, b: Block) returns (r: State)
    requires Inv(s) && t < |s.pc| && s.pc[t] == LoadNext(b) && s.chain != [] && s.chain[0] == b && b < |s.refs| && s.refs[b] == 2
    ensures b < |s.phase| && Solo(s, t, 3, r)
    ensures r == s.(head := Link(s.chain, 1), chain := s.chain[1..], pc := s.pc[t := Idle],
                    phase := s.phase[b := Owned(t)], refs := s.refs[b := 0])
  {
    assert Linked(s.next, s.phase, s.chain, 0);
    RunInv(s, t);
    var s1 := Run(s, t);
    assert s1.pc[t] == SwapHead(b, Link(s.chain, 1));
    RunInv(s1, t);
    var s2 := Run(s1, t);
    assert s2.pc[t] == DropTwo(b) && s2.phase == s.phase[b := Unlinked(t)];
    RunInv(s2, t);
    r := Run(s2, t);
    SoloThree(s, t, s1, s2, r);
    assert r.pc == s.pc[t := Idle] && r.phase == s.phase[b := Owned(t)];
  }

  /** `try_get` without interference takes the first block of the list in six steps. */
  lemma TryGetTakesFirst(s: State, t: Tid) returns (r: State)
    requires Inv(s) && Alone(s, t) && s.pc[t] == LoadHead && s.chain != []
    ensures Solo(s, t, 6, r) && TookFirst(s, r, t)
  {
    var b := s.chain[0];
    var s3 := TryGetAcquires(s, t);
    r := TryGetUnlinks(s3, t, b);
    SoloJoins(s, t, 3, s3, 3, r);
    assert r.pc == s.pc[t := Idle] && r.refs == s.refs[b := 0];
  }

  /** What a requisition without interference ends with. */
  ghost predicate Requisitioned(s: State, r: State, t: Tid) {
    && t < |s.pc| && s.poolSize <= |s.phase|
    && if s.poolIndex < s.poolSize
       then r == s.(poolIndex := s.poolIndex + 1, pc := s.pc[t := Idle], phase := s.phase[s.poolIndex := Owned(t)])
       else if s.chain != [] then TookFirst(s, r, t)
       else r == s.(pc := s.pc[t := Allocate])
  }

  lemma TakesFromPool(s: State, t: Tid) returns (r: State)
    requires Inv(s) && t < |s.pc| && s.pc[t] == PoolLoad && s.poolIndex < s.poolSize
    ensures Solo(s, t, 2, r) && s.poolSize <= |s.phase|
    ensures r == s.(poolIndex := s.poolIndex + 1, pc := s.pc[t := Idle], phase := s.phase[s.poolIndex := Owned(t)])
  {
    RunInv(s, t);
    var s1 := Run(s, t);
    r := Run(s1, t);
    SoloTwo(s, t, s1, r);
    assert r.pc == s.pc[t := Idle];
  }

  lemma LeavesPool(s: State, t: Tid) returns (r: State)
    requires Inv(s) && t < |s.pc| && s.pc[t] == PoolLoad && s.poolIndex >= s.poolSize
    ensures Solo(s, t, 1, r) && Inv(r) && r == s.(pc := s.pc[t := LoadHead])
  {
    RunInv(s, t);
    r := Run(s, t);
    SoloOne(s, t, r);
  }

  lemma FindsNothing(s: State, t: Tid) returns (r: State)
    requires Inv(s) && t < |s.pc| && s.pc[t] == LoadHead && s.chain == []
    ensures Solo(s, t, 1, r) && r == s.(pc := s.pc[t := Allocate])
  {
    r := Run(s, t);
    SoloOne(s, t, r);
  }

  /**
    A requisition without interference gets the next block of the initial array, else the first one
    of the list, and goes on to allocate exactly when there is neither.
   */
  lemma RequisitionAlone(s: State, t: Tid) returns (n: nat, r: State)
    requires Inv(s) && Alone(s, t) && s.pc[t] == PoolLoad
    ensures Solo(s, t, n, r) && Requisitioned(s, r, t)
  {
    if s.poolIndex < s.poolSize {
      n := 2;
      r := TakesFromPool(s, t);
    } else {
      var s1 := LeavesPool(s, t);
      if s.chain != [] {
        r := TryGetTakesFirst(s1, t);
        n := 7;
        SoloJoins(s, t, 1, s1, 6, r);
        assert r.pc == s.pc[t := Idle];
      } else {
        r := FindsNothing(s1, t);
        n := 2;
        SoloJoins(s, t, 1, s1, 1, r);
        assert r.pc == s.pc[t := Allocate];
      }
    }
  }

  /** `add` without interference makes the block the first of the list in five steps. */
  lemma AddAlone(s: State, t: Tid, b: Block) returns (r: State)
    requires Inv(s) && Alone(s, t) && s.pc[t] == SetFlag(b) && b < |s.refs|
    ensures Solo(s, t, 5, r) && b < |s.phase| == |s.next|
    ensures r == s.(head := At(b), chain := [b] + s.chain, pc := s.pc[t := Idle],
                    phase := s.phase[b := Listed], refs := s.refs[b := 1], next := s.next[b := s.head])
  {
    assert ThreadInv(s.next, s.phase, s.pc[t], t);
    AloneWord(s, t, b);
    var s2 := AddStarts(s, t, b);
    r := AddPublishes(s2, t, b);
    SoloJoins(s, t, 2, s2, 3, r);
    assert r.pc == s.pc[t := Idle] && r.refs == s.refs[b := 1];
  }

  lemma AddStarts(s: State, t: Tid, b: Block) returns (r: State)
    requires Inv(s) && t < |s.pc| && s.pc[t] == SetFlag(b) && b < |s.refs| && s.refs[b] == 0
    ensures Solo(s, t, 2, r) && Inv(r)
    ensures r == s.(pc := s.pc[t := StoreNext(b, s.head, Return)], refs := s.refs[b := SHOULD_BE_ON_FREELIST])
  {
    RunInv(s, t);
    var s1 := Run(s, t);
    assert s1.pc[t] == ReadHead(b, Return);
    RunInv(s1, t);
    r := Run(s1, t);
    SoloTwo(s, t, s1, r);
    assert r.pc == s.pc[t := StoreNext(b, s.head, Return)];
  }

  lemma AddPublishes(s: State, t: Tid, b: Block) returns (r: State)
    requires Inv(s) && t < |s.pc| && s.pc[t] == StoreNext(b, s.head, Return)
    ensures Solo(s, t, 3, r) && b < |s.phase| == |s.next| == |s.refs|
    ensures r == s.(head := At(b), chain := [b] + s.chain, pc := s.pc[t := Idle],
                    phase := s.phase[b := Listed], refs := s.refs[b := 1], next := s.next[b := s.head])
  {
    RunInv(s, t);
    var s1 := Run(s, t);
    RunInv(s1, t);
    var s2 := Run(s1, t);
    r := Run(s2, t);
    SoloThree(s, t, s1, s2, r);
    assert r.pc == s.pc[t := Idle];
  }

  // ---- With any interference ----

  /** The head that a thread in `try_get` has loaded and not yet followed. */
  function Remembered(q: Pc): (p: seq<Ptr>)
    ensures |p| <= 1
  {
    match q
    case DropOne(_, seen) => [seen]
    case ReadHead(_, after) => FromAfter(after)
    case StoreNext(_, _, after) => FromAfter(after)
    case StoreRefs(_, _, after) => FromAfter(after)
    case Publish(_, _, after) => FromAfter(after)
    case GiveBack(_, _, after) => FromAfter(after)
    case _ => []
  }

  function FromAfter(after: After): (p: seq<Ptr>)
    ensures |p| <= 1
  {
    match after
    case Return => []
    case Resume(h) => [h]
  }

  /** A step loads the head, or goes on with what was loaded, or does neither. */
  lemma RemembersHead(s: State, a: Action, s': State, t: Tid)
    requires Next(s, a, s') && t < |s.pc|
    ensures |s'.pc| == |s.pc|
    ensures Remembered(s'.pc[t]) != [] ==>
              Remembered(s'.pc[t]) == Remembered(s.pc[t])
              || (a == Step(t) && s.pc[t].SwapHead? && Remembered(s'.pc[t]) == [s.head])
    ensures s'.pc[t] == Allocate ==>
              || s.pc[t] == Allocate
              || (a == Step(t) && s.pc[t].LoadHead? && s.head.Null?)
              || (a == Step(t) && Remembered(s.pc[t]) == [Null])
  {
    if a == Step(t) {
      OwnStep(s, t, s');
    } else {
      OtherStep(s, a, s', t);
    }
  }

  lemma OtherStep(s: State, a: Action, s': State, t: Tid)
    requires Next(s, a, s') && t < |s.pc| && a != Step(t)
    ensures |s'.pc| == |s.pc| && (s'.pc[t] == s.pc[t] || s'.pc[t].Idle? || s'.pc[t].PoolLoad? || s'.pc[t].SetFlag?)
  {
    if a.Step? {
      OnlyOwnPc(s, a.t);
    }
  }

  lemma OnlyOwnPc(s: State, t: Tid)
    requires WellFormed(s) && t < |s.pc|
    ensures t < |Run(s, t).pc| && Run(s, t).pc == s.pc[t := Run(s, t).pc[t]]
  {
  }

  ghost predicate RemembersOwn(s: State, t: Tid, q: Pc)
    requires t < |s.pc|
  {
    && (Remembered(q) != [] ==>
          Remembered(q) == Remembered(s.pc[t]) || (s.pc[t].SwapHead? && Remembered(q) == [s.head]))
    && (q == Allocate ==>
          s.pc[t] == Allocate || (s.pc[t].LoadHead? && s.head.Null?) || Remembered(s.pc[t]) == [Null])
  }

  lemma OwnStep(s: State, t: Tid, s': State)
    requires WellFormed(s) && t < |s.pc| && s' == Run(s, t)
    ensures |s'.pc| == |s.pc| && RemembersOwn(s, t, s'.pc[t])
  {
    OnlyOwnPc(s, t);
    if HasAfter(s.pc[t]) {
      AddStep(s, t);
    } else {
      GetStep(s, t);
    }
  }

  lemma AddStep(s: State, t: Tid)
    requires WellFormed(s) && t < |s.pc| && HasAfter(s.pc[t])
    ensures t < |Run(s, t).pc| && RemembersOwn(s, t, Run(s, t).pc[t])
  {
    OnlyOwnPc(s, t);
  }

  lemma GetStep(s: State, t: Tid)
    requires WellFormed(s) && t < |s.pc| && !HasAfter(s.pc[t])
    ensures t < |Run(s, t).pc| && RemembersOwn(s, t, Run(s, t).pc[t])
  {
    OnlyOwnPc(s, t);
  }

  /** Thread t loaded the head at step k, found the list empty, and has been in the same call since. */
  ghost predicate FoundEmpty(run: seq<State>, acts: seq<Action>, t: Tid, k: nat, i: nat) {
    && k < i <= |acts| && k < |run| && acts[k] == Step(t) && t < |run[k].pc|
    && (run[k].pc[t].LoadHead? || run[k].pc[t].SwapHead?)
    && run[k].head == Null && run[k].chain == []
    && forall m :: k <= m < i ==> InCall(run, t, m)
  }

  ghost predicate InCall(run: seq<State>, t: Tid, m: nat) {
    m < |run| && t < |run[m].pc| && run[m].pc[t] != Idle
  }

  lemma {:induction false} RememberedIsEmpty(run: seq<State>, acts: seq<Action>, t: Tid, i: nat) returns (k: nat)
    requires IsRun(run, acts) && i < |run| && t < |run[i].pc| && Remembered(run[i].pc[t]) == [Null]
    ensures FoundEmpty(run, acts, t, k, i)
    decreases i
  {
    if i > 0 {
      RememberedBefore(run, acts, t, i - 1);
      if Remembered(run[i - 1].pc[t]) == [Null] {
        k := RememberedIsEmpty(run, acts, t, i - 1);
        Longer(run, acts, t, k, i - 1);
      } else {
        k := i - 1;
      }
    }
  }

  lemma RememberedBefore(run: seq<State>, acts: seq<Action>, t: Tid, i: nat)
    requires IsRun(run, acts) && i < |acts| && t < |run[i + 1].pc| && Remembered(run[i + 1].pc[t]) == [Null]
    ensures t < |run[i].pc| && InCall(run, t, i)
    ensures Remembered(run[i].pc[t]) == [Null] || FoundEmpty(run, acts, t, i, i + 1)
  {
    RunsAreSafe(run, acts, i);
    assert StepAt(run, acts, i);
    SameThreads(run[i], acts[i], run[i + 1]);
    RemembersHead(run[i], acts[i], run[i + 1], t);
  }

  lemma SameThreads(s: State, a: Action, s': State)
    requires Next(s, a, s')
    ensures |s'.pc| == |s.pc|
  {
    if a.Step? {
      OnlyOwnPc(s, a.t);
    }
  }

  lemma Longer(run: seq<State>, acts: seq<Action>, t: Tid, k: nat, i: nat)
    requires FoundEmpty(run, acts, t, k, i) && InCall(run, t, i) && i < |acts|
    ensures FoundEmpty(run, acts, t, k, i + 1)
  {
  }

  /**
    Whatever the other threads do, a requisition goes on to allocate only if there was a moment
    during the call at which it loaded the head and the list was empty.
   */
  lemma AllocatesOnlyWhenEmpty(run: seq<State>, acts: seq<Action>, t: Tid, i: nat) returns (k: nat)
    requires IsRun(run, acts) && i + 1 < |run| && t < |run[i].pc|
    requires run[i].pc[t] != Allocate && t < |run[i + 1].pc| && run[i + 1].pc[t] == Allocate
    ensures FoundEmpty(run, acts, t, k, i + 1)
  {
    RunsAreSafe(run, acts, i);
    assert StepAt(run, acts, i);
    RemembersHead(run[i], acts[i], run[i + 1], t);
    if run[i].pc[t].LoadHead? {
      k := i;
      assert InCall(run, t, k);
    } else {
      k := RememberedIsEmpty(run, acts, t, i);
      assert InCall(run, t, i);
      Longer(run, acts, t, k, i);
    }
  }

  // ---- What a call ends with ----

  /** Inside `requisition_block`, also while it lists a block another thread released. */
  predicate Requisitioning(q: Pc) {
    || q.PoolLoad? || q.PoolTake? || q.LoadHead? || q.LoadRefs? || q.Acquire? || q.LoadNext? || q.SwapHead?
    || q.DropTwo? || q.DropOne? || q.Allocate? || (HasAfter(q) && q.after.Resume?)
  }

  /** Inside `add_block_to_free_list`. */
  predicate Releasing(q: Pc) {
    q.SetFlag? || (HasAfter(q) && q.after.Return?)
  }

  /** The one block whose owner t has become. */
  ghost predicate Gains(phase: seq<Phase>, phase': seq<Phase>, t: Tid, b: Block) {
    b < |phase'| && phase'[b] == Owned(t) && (b < |phase| ==> !phase[b].Owned?)
    && (phase' == phase + [Owned(t)] || (b < |phase| && phase' == phase[b := Owned(t)]))
  }

  /** A requisition stays one until it ends with a new block of its own, or without one after allocation failed. */
  lemma RequisitionEnds(s: State, a: Action, s': State, t: Tid)
    requires Inv(s) && Next(s, a, s') && t < |s.pc| && Requisitioning(s.pc[t])
    ensures |s'.pc| == |s.pc|
    ensures || Requisitioning(s'.pc[t])
            || (s'.pc[t] == Idle && exists b: Block :: Gains(s.phase, s'.phase, t, b))
            || (s'.pc[t] == Idle && a == Finish(t, false))
  {
    if a == Step(t) {
      OnlyOwnPc(s, t);
      RequisitionSteps(s, t, s');
    } else if a == Finish(t, true) {
      assert Gains(s.phase, s'.phase, t, |s.phase|);
    } else {
      SameCall(s, a, s', t);
    }
  }

  lemma SameCall(s: State, a: Action, s': State, t: Tid)
    requires Next(s, a, s') && t < |s.pc| && s.pc[t] != Idle && a != Step(t) && a != Finish(t, true)
    ensures |s'.pc| == |s.pc| && (s'.pc[t] == s.pc[t] || (a == Finish(t, false) && s'.pc[t] == Idle))
  {
    if a.Step? {
      OnlyOwnPc(s, a.t);
    }
  }

  lemma RequisitionSteps(s: State, t: Tid, s': State)
    requires Inv(s) && t < |s.pc| && Requisitioning(s.pc[t]) && s' == Run(s, t) && s'.pc == s.pc[t := s'.pc[t]]
    ensures Requisitioning(s'.pc[t]) || (s'.pc[t] == Idle && exists b: Block :: Gains(s.phase, s'.phase, t, b))
  {
    assert ThreadInv(s.next, s.phase, s.pc[t], t);
    if s.pc[t].PoolTake? && s.poolIndex < s.poolSize {
      assert Gains(s.phase, s'.phase, t, s.poolIndex);
    } else if s.pc[t].DropTwo? {
      assert Gains(s.phase, s'.phase, t, s.pc[t].node);
    } else {
      RequisitionGoesOn(s, t, s');
    }
  }

  lemma RequisitionGoesOn(s: State, t: Tid, s': State)
    requires WellFormed(s) && t < |s.pc| && Requisitioning(s.pc[t]) && s' == Run(s, t) && s'.pc == s.pc[t := s'.pc[t]]
    requires s.pc[t].PoolTake? ==> s.poolIndex >= s.poolSize
    requires !s.pc[t].DropTwo?
    ensures Requisitioning(s'.pc[t])
  {
  }

  /** A release stays one until its block is on the list or left to a thread that holds a reference to it. */
  lemma ReleaseEnds(s: State, a: Action, s': State, t: Tid)
    requires Inv(s) && Next(s, a, s') && t < |s.pc| && Releasing(s.pc[t])
    ensures |s'.pc| == |s.pc| && s.pc[t].node < |s'.phase|
    ensures || (Releasing(s'.pc[t]) && s'.pc[t].node == s.pc[t].node)
            || (s'.pc[t] == Idle && (s'.phase[s.pc[t].node].Listed? || s'.phase[s.pc[t].node].Waiting?))
  {
    if a == Step(t) {
      OnlyOwnPc(s, t);
      ReleaseSteps(s, t, s');
    } else {
      SameCall(s, a, s', t);
      SameSize(s, a, s');
    }
  }

  lemma SameSize(s: State, a: Action, s': State)
    requires Next(s, a, s')
    ensures |s.phase| <= |s'.phase|
  {
  }

  lemma ReleaseSteps(s: State, t: Tid, s': State)
    requires WellFormed(s) && t < |s.pc| && Releasing(s.pc[t]) && s' == Run(s, t) && s'.pc == s.pc[t := s'.pc[t]]
    ensures s.pc[t].node < |s'.phase|
    ensures || (Releasing(s'.pc[t]) && s'.pc[t].node == s.pc[t].node)
            || (s'.pc[t] == Idle && (s'.phase[s.pc[t].node].Listed? || s'.phase[s.pc[t].node].Waiting?))
  {
  }

  /** The calls begin as such. */
  lemma CallsBegin(s: State, a: Action, s': State)
    requires Next(s, a, s')
    ensures a.Requisition? ==> a.t < |s'.pc| && Requisitioning(s'.pc[a.t])
    ensures a.Release? ==> a.t < |s'.pc| && Releasing(s'.pc[a.t]) && s'.pc[a.t].node == a.b
  {
  }

  // ---- Whole calls, alone ----

  ghost predicate AllIdle(s: State) {
    forall u :: 0 <= u < |s.pc| ==> s.pc[u] == Idle
  }

  /** What a requisition ends with; `memory` says whether a block could be allocated. */
  ghost predicate Given(s: State, r: State, t: Tid, memory: bool) {
    && t < |s.pc| && s.poolSize <= |s.phase|
    && if s.poolIndex < s.poolSize then r == s.(poolIndex := s.poolIndex + 1, phase := s.phase[s.poolIndex := Owned(t)])
       else if s.chain != [] then TookFirst(s, r, t)
       else if memory then r == s.(next := s.next + [Null], refs := s.refs + [0], phase := s.phase + [Owned(t)])
       else r == s
  }

  /**
    With no other call under way a requisition gives the next block of the initial array, else the
    first of the list, else a new one, and nothing only if there is none of these.
   */
  lemma RequisitionGives(s: State, t: Tid, memory: bool) returns (n: nat, q: State, r: State)
    requires Inv(s) && AllIdle(s) && t < |s.pc|
    ensures Enabled(s, Requisition(t)) && Solo(Apply(s, Requisition(t)), t, n, q) && WellFormed(q)
    ensures r == if Enabled(q, Finish(t, memory)) then Apply(q, Finish(t, memory)) else q
    ensures Given(s, r, t, memory)
  {
    ApplyInv(s, Requisition(t));
    var s0 := Apply(s, Requisition(t));
    n, q := RequisitionAlone(s0, t);
    SoloInv(s0, t, n, q);
    r := if Enabled(q, Finish(t, memory)) then Apply(q, Finish(t, memory)) else q;
    assert s0.pc[t := Idle] == s.pc;
    assert q.pc == s.pc || q.pc[t := Idle] == s.pc;
  }

  /** Releasing a block and requisitioning one, undisturbed and with the initial array used up, gives it back. */
  lemma ReleasedIsReused(s: State, t: Tid, b: Block) returns (r: State, n: nat, q: State)
    requires Inv(s) && AllIdle(s) && Enabled(s, Release(t, b)) && s.poolIndex >= s.poolSize
    ensures Solo(Apply(s, Release(t, b)), t, 5, r) && WellFormed(r) && Enabled(r, Requisition(t))
    ensures Solo(Apply(r, Requisition(t)), t, n, q)
    ensures b < |s.phase| && q.phase == s.phase && q.chain == s.chain && q.head == s.head && q.pc == s.pc
  {
    ApplyInv(s, Release(t, b));
    var s0 := Apply(s, Release(t, b));
    assert ThreadInv(s0.next, s0.phase, s0.pc[t], t);
    r := AddAlone(s0, t, b);
    SoloInv(s0, t, 5, r);
    ApplyInv(r, Requisition(t));
    n, q := RequisitionAlone(Apply(r, Requisition(t)), t);
    assert q.pc == s.pc && q.phase == s.phase;
  }

  lemma SoloInv(s: State, t: Tid, n: nat, r: State)
    requires Inv(s) && Solo(s, t, n, r)
    ensures Inv(r)
  {
    var run: seq<State> :| SoloRun(run, t, n) && run[0] == s && run[n] == r;
    SoloRunInv(run, t, n, n);
  }

  lemma SoloStepInv(run: seq<State>, t: Tid, i: nat)
    requires i + 1 < |run| && SoloAt(run, t, i) && Inv(run[i])
    ensures Inv(run[i + 1])
  {
    RunInv(run[i], t);
  }

  lemma {:induction false} SoloRunInv(run: seq<State>, t: Tid, n: nat, i: nat)
    requires SoloRun(run, t, n) && Inv(run[0]) && i <= n
    ensures Inv(run[i])
    decreases i
  {
    if i > 0 {
      SoloRunInv(run, t, n, i - 1);
      SoloStepInv(run, t, i - 1);
    }
  }
}
