module SemaphoreRuns {
  /** What the semaphore guarantees in every run: conservation of tokens, no stranded waiter. */

  import opened Basics
  import opened Totals
  import opened Semaphore

  lemma InitInv(s: State)
    requires Init(s)
    ensures Inv(s)
  {
    TotalZero(Registered, s.pcs);
    TotalZero(ToRelease, s.pcs);
  }

  /** What one thread's step does to the two balances. */
  lemma StepBalances(s: State, a: Action, s': State)
    requires Enabled(s, a) && s' == Apply(s, a)
    requires a.Timeout? || a.Step? || a.Retry? ==> ThreadOk(s.pcs[a.t], s.taken[a.t])
    ensures |s'.pcs| == |s.pcs| && s'.pcs == s.pcs[a.t := s'.pcs[a.t]]
    ensures s'.acquired + Positive(s'.count) + s'.kernel + ToRelease(s'.pcs[a.t]) + s.issued
         == s.acquired + Positive(s.count) + s.kernel + ToRelease(s.pcs[a.t]) + s'.issued
    ensures Registered(s'.pcs[a.t]) + Positive(-s.count) + s.kernel + ToRelease(s.pcs[a.t])
         == Registered(s.pcs[a.t]) + Positive(-s'.count) + s'.kernel + ToRelease(s'.pcs[a.t])
  {
    if a.Step? {
      MoveBalances(s, a, s');
    } else {
      OtherBalances(s, a, s');
    }
  }

  lemma MoveBalances(s: State, a: Action, s': State)
    requires a.Step? && Enabled(s, a) && s' == Apply(s, a) && ThreadOk(s.pcs[a.t], s.taken[a.t])
    ensures |s'.pcs| == |s.pcs| && s'.pcs == s.pcs[a.t := s'.pcs[a.t]]
    ensures s'.acquired + Positive(s'.count) + s'.kernel + ToRelease(s'.pcs[a.t]) + s.issued
         == s.acquired + Positive(s.count) + s.kernel + ToRelease(s.pcs[a.t]) + s'.issued
    ensures Registered(s'.pcs[a.t]) + Positive(-s.count) + s.kernel + ToRelease(s.pcs[a.t])
         == Registered(s.pcs[a.t]) + Positive(-s'.count) + s'.kernel + ToRelease(s'.pcs[a.t])
  {
  }

  lemma OtherBalances(s: State, a: Action, s': State)
    requires !a.Step? && Enabled(s, a) && s' == Apply(s, a)
    ensures |s'.pcs| == |s.pcs| && s'.pcs == s.pcs[a.t := s'.pcs[a.t]]
    ensures s'.acquired + Positive(s'.count) + s'.kernel + ToRelease(s'.pcs[a.t]) + s.issued
         == s.acquired + Positive(s.count) + s.kernel + ToRelease(s.pcs[a.t]) + s'.issued
    ensures Registered(s'.pcs[a.t]) + Positive(-s.count) + s.kernel + ToRelease(s.pcs[a.t])
         == Registered(s.pcs[a.t]) + Positive(-s'.count) + s'.kernel + ToRelease(s'.pcs[a.t])
  {
  }

  lemma ApplyInv(s: State, a: Action)
    requires Inv(s) && Enabled(s, a)
    ensures Inv(Apply(s, a))
  {
    var s' := Apply(s, a);
    assert ThreadOk(s.pcs[a.t], s.taken[a.t]);
    StepBalances(s, a, s');
    TotalUpdate(Registered, s.pcs, a.t, s'.pcs[a.t]);
    TotalUpdate(ToRelease, s.pcs, a.t, s'.pcs[a.t]);
    ThreadMoves(s, a, s');
  }

  lemma ThreadMoves(s: State, a: Action, s': State)
    requires ThreadsOk(s.pcs, s.taken) && Enabled(s, a) && s' == Apply(s, a)
    ensures ThreadsOk(s'.pcs, s'.taken)
  {
    assert ThreadOk(s.pcs[a.t], s.taken[a.t]);
    OwnThreadMoves(s, a, s');
    OnlyOneThreadMoves(s, a, s');
    forall t | 0 <= t < |s'.pcs| ensures ThreadOk(s'.pcs[t], s'.taken[t]) {
      if t != a.t {
        assert ThreadOk(s.pcs[t], s.taken[t]);
      }
    }
  }

  lemma OwnThreadMoves(s: State, a: Action, s': State)
    requires Enabled(s, a) && s' == Apply(s, a) && ThreadOk(s.pcs[a.t], s.taken[a.t])
    ensures |s'.taken| == |s'.pcs| == |s.pcs| && ThreadOk(s'.pcs[a.t], s'.taken[a.t])
  {
    if a.Step? {
      StepThreadMoves(s, a.t, s');
    }
  }

  lemma StepThreadMoves(s: State, t: Tid, s': State)
    requires Enabled(s, Step(t)) && s' == StepOf(s, t) && ThreadOk(s.pcs[t], s.taken[t])
    ensures |s'.taken| == |s'.pcs| == |s.pcs| && ThreadOk(s'.pcs[t], s'.taken[t])
  {
    if s.pcs[t].Subtract? || s.pcs[t].Sleep? || s.pcs[t].UndoSwap? {
      TokenMoves(s, t, s');
    } else {
      TryMoves(s, t, s');
    }
  }

  lemma TokenMoves(s: State, t: Tid, s': State)
    requires Enabled(s, Step(t)) && s' == StepOf(s, t) && ThreadOk(s.pcs[t], s.taken[t])
    requires s.pcs[t].Subtract? || s.pcs[t].Sleep? || s.pcs[t].UndoSwap?
    ensures |s'.taken| == |s'.pcs| == |s.pcs| && ThreadOk(s'.pcs[t], s'.taken[t])
  {
  }

  lemma TryMoves(s: State, t: Tid, s': State)
    requires Enabled(s, Step(t)) && s' == StepOf(s, t) && ThreadOk(s.pcs[t], s.taken[t])
    requires !s.pcs[t].Subtract? && !s.pcs[t].Sleep? && !s.pcs[t].UndoSwap?
    ensures |s'.taken| == |s'.pcs| == |s.pcs| && ThreadOk(s'.pcs[t], s'.taken[t])
  {
  }

  lemma OnlyOneThreadMoves(s: State, a: Action, s': State)
    requires Enabled(s, a) && s' == Apply(s, a)
    ensures |s'.taken| == |s'.pcs| == |s.pcs|
    ensures s'.pcs == s.pcs[a.t := s'.pcs[a.t]] && s'.taken == s.taken[a.t := s'.taken[a.t]]
  {
  }

  // ---- Every run ----

  ghost predicate StepAt(run: seq<State>, acts: seq<Action>, i: nat) {
    i < |acts| && i + 1 < |run| && Enabled(run[i], acts[i]) && run[i + 1] == Apply(run[i], acts[i])
  }

  ghost predicate IsRun(run: seq<State>, acts: seq<Action>) {
    && |run| == |acts| + 1
    && Init(run[0])
    && forall i :: 0 <= i < |acts| ==> StepAt(run, acts, i)
  }

  /** No token is lost, duplicated or taken before it is signalled, in any run. */
  lemma {:induction false} TokensAreConserved(run: seq<State>, acts: seq<Action>, i: nat)
    requires IsRun(run, acts) && i < |run|
    ensures Inv(run[i])
    ensures run[i].acquired + Positive(run[i].count) + run[i].kernel + Pending(run[i].pcs) == run[i].issued
    ensures Waiters(run[i].pcs) == Positive(-run[i].count) + run[i].kernel + Pending(run[i].pcs)
    ensures run[i].acquired <= run[i].issued
    decreases i
  {
    if i == 0 {
      InitInv(run[0]);
    } else {
      TokensAreConserved(run, acts, i - 1);
      assert StepAt(run, acts, i - 1);
      ApplyInv(run[i - 1], acts[i - 1]);
    }
  }

  /**
    A waiter is never stranded: it can undo its registration, or a kernel token is there, or a
    signaller is about to release one.
   */
  lemma WaiterIsNeverStranded(s: State, t: Tid)
    requires Inv(s) && t < |s.pcs| && Registered(s.pcs[t]) == 1
    ensures s.count < 0 || s.kernel > 0 || exists u :: 0 <= u < |s.pcs| && s.pcs[u].Release? && s.pcs[u].count > 0
  {
    TotalAtLeast(Registered, s.pcs, t);
    if Pending(s.pcs) > 0 {
      TotalPositive(ToRelease, s.pcs);
      var u :| 0 <= u < |s.pcs| && ToRelease(s.pcs[u]) > 0;
      assert s.pcs[u].Release? && s.pcs[u].count > 0;
    }
  }

  /** When nobody is signalling, there are kernel tokens or idle count for exactly the threads that are not asleep. */
  lemma QuietWaiters(s: State)
    requires Inv(s) && forall t :: 0 <= t < |s.pcs| ==> !s.pcs[t].Release?
    ensures Waiters(s.pcs) == Positive(-s.count) + s.kernel
    ensures s.kernel == 0 && s.count >= 0 ==> Waiters(s.pcs) == 0
  {
    TotalZero(ToRelease, s.pcs);
  }

  /** A call returns between none and `max` tokens, exactly those it took from the semaphore. */
  lemma ResultIsWhatWasTaken(s: State, t: Tid)
    requires Inv(s) && t < |s.pcs| && s.pcs[t].Done? && s.pcs[t].call.Acquire?
    ensures t < |s.taken| && s.pcs[t].result == s.taken[t] && s.pcs[t].result <= s.pcs[t].call.max
    ensures s.pcs[t].call.spins && !s.pcs[t].call.timed && s.pcs[t].call.max > 0 ==> s.pcs[t].result > 0
  {
    assert ThreadOk(s.pcs[t], s.taken[t]);
  }

  /** `waitMany` without a timeout asserts a positive result: that holds exactly when it is asked for one. */
  lemma WaitManyAssertion(s: State, t: Tid)
    requires Inv(s) && t < |s.pcs| && s.pcs[t].Done?
    requires s.pcs[t].call.Acquire? && s.pcs[t].call.many && s.pcs[t].call.spins && !s.pcs[t].call.timed
    ensures s.pcs[t].result > 0 <==> s.pcs[t].call.max > 0
  {
    assert ThreadOk(s.pcs[t], s.taken[t]);
  }

  /** From any start, a call for no tokens returns at once with none, so the assertion does fail. */
  lemma WaitManyForNone(s: State, t: Tid) returns (run: seq<State>, acts: seq<Action>)
    requires Init(s) && t < |s.pcs|
    ensures acts == [Begin(t, Acquire(0, true, true, false)), Step(t), Step(t)] && run != [] && run[0] == s
    ensures IsRun(run, acts) && t < |run[3].pcs| && run[3].pcs[t] == Done(Acquire(0, true, true, false), 0)
  {
    acts := [Begin(t, Acquire(0, true, true, false)), Step(t), Step(t)];
    var s1 := Apply(s, acts[0]);
    var s2 := Apply(s1, acts[1]);
    run := [s, s1, s2, Apply(s2, acts[2])];
    assert StepAt(run, acts, 0) && StepAt(run, acts, 1) && StepAt(run, acts, 2);
  }

  /** What a step takes is what `acquired` grows by, and a thread that takes tokens had them available. */
  lemma TakenIsAvailable(s: State, a: Action)
    requires Inv(s) && Enabled(s, a)
    ensures Apply(s, a).acquired >= s.acquired
    ensures Apply(s, a).acquired - s.acquired <= Positive(s.count) + s.kernel
  {
  }
}
