module BlockingRuns {
  /** What the blocking queue guarantees in every run: tokens stand for elements. */

  import opened Basics
  import opened Totals
  import opened BlockingQueue
  import Semaphore
  import SemaphoreRuns

  lemma InitInv(s: State)
    requires Init(s)
    ensures Inv(s)
  {
    SemaphoreRuns.InitInv(s.sema);
    TotalZero(Held, s.jobs);
    TotalZero(Owed, s.jobs);
  }

  /** The semaphore's step in an action of the blocking queue, if it has one. */
  ghost function SemaAction(s: State, a: Action): Semaphore.Action
    requires Enabled(s, a) && (a.Start? ==> a.request.Dequeue?) && (a.Start? || a.Enqueued? || a.Sema? || a.Acquired?)
  {
    match a
    case Start(t, request) => Semaphore.Begin(t, CallOf(request))
    case Enqueued(t) => Semaphore.Begin(t, Semaphore.Signal(s.jobs[t].count))
    case Sema(b) => b
    case Acquired(t) => Semaphore.End(t)
  }

  ghost predicate HasSema(a: Action) {
    a.Enqueued? || a.Sema? || a.Acquired? || (a.Start? && a.request.Dequeue?)
  }

  ghost function TidOf(a: Action): Tid {
    if a.Sema? then a.a.t else a.t
  }

  /** How one step of the semaphore changes what is available, owed and held. */
  lemma SemaBalances(sema: Semaphore.State, b: Semaphore.Action, sema': Semaphore.State)
    requires Semaphore.Inv(sema) && Semaphore.Enabled(sema, b) && sema' == Semaphore.Apply(sema, b)
    ensures Semaphore.Inv(sema') && |sema'.pcs| == |sema.pcs|
    ensures Available(sema') + sema'.acquired + sema.issued == Available(sema) + sema.acquired + sema'.issued
    ensures sema'.pcs == sema.pcs[b.t := sema'.pcs[b.t]] && sema'.taken == sema.taken[b.t := sema'.taken[b.t]]
  {
    SemaphoreRuns.ApplyInv(sema, b);
    SemaphoreRuns.OnlyOneThreadMoves(sema, b, sema');
  }

  /** A signal issues what it was called with when it adds to the count; an acquisition counts what it takes. */
  lemma OwnCounts(sema: Semaphore.State, b: Semaphore.Action, sema': Semaphore.State)
    requires Semaphore.Enabled(sema, b) && !b.Begin? && !b.End? && sema' == Semaphore.Apply(sema, b)
    requires Semaphore.ThreadOk(sema.pcs[b.t], sema.taken[b.t])
    ensures |sema'.pcs| == |sema'.taken| == |sema.pcs| && !sema'.pcs[b.t].Idle? && (IsSignal(sema.pcs[b.t]) <==> IsSignal(sema'.pcs[b.t]))
    ensures sema'.acquired - sema.acquired == sema'.taken[b.t] - sema.taken[b.t]
    ensures IsSignal(sema.pcs[b.t]) ==>
              && sema'.acquired == sema.acquired && !sema'.pcs[b.t].Add?
              && sema'.issued - sema.issued == if sema.pcs[b.t].Add? then sema.pcs[b.t].count else 0
    ensures !IsSignal(sema.pcs[b.t]) ==> sema'.issued == sema.issued
  {
  }

  /** What one action does to the balance, and that the thread's job stays in step with the semaphore. */
  lemma JobMoves(s: State, a: Action, s': State)
    requires Inv(s) && Enabled(s, a) && s' == Apply(s, a)
    ensures TidOf(a) < |s.jobs| && s'.jobs == s.jobs[TidOf(a) := s'.jobs[TidOf(a)]]
    ensures Semaphore.Inv(s'.sema) && |s'.sema.pcs| == |s'.sema.taken| == |s.jobs|
    ensures JobOk(s'.jobs[TidOf(a)], s'.sema.pcs[TidOf(a)], s'.sema.taken[TidOf(a)])
    ensures Available(s'.sema) + Held(s'.jobs[TidOf(a)]) + Owed(s'.jobs[TidOf(a)]) + s.unclaimed
         == Available(s.sema) + Held(s.jobs[TidOf(a)]) + Owed(s.jobs[TidOf(a)]) + s'.unclaimed
    ensures s'.sema.pcs == s.sema.pcs[TidOf(a) := s'.sema.pcs[TidOf(a)]]
    ensures s'.sema.taken == s.sema.taken[TidOf(a) := s'.sema.taken[TidOf(a)]]
  {
    var t := TidOf(a);
    assert JobOk(s.jobs[t], s.sema.pcs[t], s.sema.taken[t]) && Semaphore.ThreadOk(s.sema.pcs[t], s.sema.taken[t]);
    if HasSema(a) {
      var b := SemaAction(s, a);
      SemaBalances(s.sema, b, s'.sema);
      if a.Sema? {
        OwnCounts(s.sema, b, s'.sema);
      }
    }
  }

  lemma ApplyInv(s: State, a: Action)
    requires Inv(s) && Enabled(s, a)
    ensures Inv(Apply(s, a))
  {
    var s' := Apply(s, a);
    JobMoves(s, a, s');
    var t := TidOf(a);
    TotalUpdate(Held, s.jobs, t, s'.jobs[t]);
    TotalUpdate(Owed, s.jobs, t, s'.jobs[t]);
    forall u | 0 <= u < |s'.jobs| ensures JobOk(s'.jobs[u], s'.sema.pcs[u], s'.sema.taken[u]) {
      if u != t {
        assert JobOk(s.jobs[u], s.sema.pcs[u], s.sema.taken[u]);
      }
    }
  }

  // ---- Every run ----

  ghost predicate StepAt(run: seq<State>, acts: seq<Action>, i: nat) {
    i < |acts| && i + 1 < |run| && Enabled(run[i], acts[i]) && run[i + 1] == Apply(run[i], acts[i])
  }

  ghost predicate IsRun(run: seq<State>, acts: seq<Action>) {
    && |run| == |acts| + 1
    && Init(run[0])
    && forall i :: 0 <= i < |acts| ==> StepAt(run, acts, i)
  }

  /** Tokens available, tokens held and elements not yet signalled are together the unclaimed elements. */
  lemma {:induction false} TokensAreElements(run: seq<State>, acts: seq<Action>, i: nat)
    requires IsRun(run, acts) && i < |run|
    ensures Inv(run[i])
    ensures Available(run[i].sema) + Total(Held, run[i].jobs) + Total(Owed, run[i].jobs) == run[i].unclaimed
    decreases i
  {
    if i == 0 {
      InitInv(run[0]);
    } else {
      TokensAreElements(run, acts, i - 1);
      assert StepAt(run, acts, i - 1);
      ApplyInv(run[i - 1], acts[i - 1]);
    }
  }

  /** A consumer that calls the inner queue again has an element there to get, whatever others have claimed. */
  lemma NeverSpinsOnEmpty(run: seq<State>, acts: seq<Action>, i: nat, t: Tid)
    requires IsRun(run, acts) && i < |run| && t < |run[i].jobs|
    requires run[i].jobs[t].Draining? && run[i].jobs[t].count != run[i].jobs[t].max
    ensures run[i].unclaimed >= run[i].jobs[t].max - run[i].jobs[t].count > 0
  {
    TokensAreElements(run, acts, i);
    var s := run[i];
    assert JobOk(s.jobs[t], s.sema.pcs[t], s.sema.taken[t]);
    TotalAtLeast(Held, s.jobs, t);
  }

  /** Two spinning consumers never compete for the same last elements: there are enough for both. */
  lemma EnoughForAll(s: State, t: Tid, u: Tid)
    requires Inv(s) && t < u < |s.jobs|
    ensures s.unclaimed >= Held(s.jobs[t]) + Held(s.jobs[u])
  {
    TotalUpdate(Held, s.jobs, t, Free);
    TotalAtLeast(Held, s.jobs[t := Free], u);
  }

  /** When no operation is under way, the semaphore's count is the number of elements in the queue. */
  lemma QuietCountIsSize(s: State)
    requires Inv(s) && forall t :: 0 <= t < |s.jobs| ==> s.jobs[t].Free?
    ensures s.sema.count == s.unclaimed && s.sema.kernel == 0
  {
    TotalZero(Held, s.jobs);
    TotalZero(Owed, s.jobs);
    forall t | 0 <= t < |s.jobs| ensures Semaphore.Registered(s.sema.pcs[t]) == 0 && Semaphore.ToRelease(s.sema.pcs[t]) == 0 {
      assert JobOk(s.jobs[t], s.sema.pcs[t], s.sema.taken[t]);
    }
    TotalZero(Semaphore.Registered, s.sema.pcs);
    TotalZero(Semaphore.ToRelease, s.sema.pcs);
  }
}
