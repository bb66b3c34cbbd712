module BlockingCalls {
  /**
    What the calls of the blocking queue give: a dequeue gets as many elements as it took tokens, at
    most as many as it asked for, and at least one if it waits without a timeout; an enqueue that is
    not refused adds its elements and signals as many.
   */

  import opened Basics
  import opened Totals
  import opened BlockingQueue
  import opened BlockingRuns
  import Semaphore
  import SemaphoreRuns
  import SemaphoreCalls

  /** The elements that consumer t claims in steps `from` to `to`. */
  function Claimed(acts: seq<Action>, t: Tid, from: nat, to: nat): nat
    requires from <= to <= |acts|
  {
    if from == to then 0
    else Claimed(acts, t, from, to - 1) + if acts[to - 1].Claim? && acts[to - 1].t == t then acts[to - 1].k else 0
  }

  /** What a call for `max` may return. */
  predicate Allowed(n: nat, max: nat, many: bool, waits: bool, timed: bool) {
    n <= max && (!many ==> n <= 1) && (waits && !timed && max > 0 ==> n > 0)
  }

  /** How a dequeue stands, with `tokens` the number of tokens its semaphore call returned, and n elements claimed. */
  ghost predicate DequeueState(s: State, t: Tid, request: Request, tokens: nat, n: nat)
    requires request.Dequeue?
  {
    && t < |s.jobs| == |s.sema.pcs|
    && match s.jobs[t]
       case Acquiring(_) => n == 0 && SemaphoreCalls.CallIn(s.sema.pcs[t]) == [Semaphore.Acquire(request.max, request.many, request.waits, request.timed)]
       case Draining(max, count) =>
         max == tokens && count == n <= max && Allowed(max, request.max, request.many, request.waits, request.timed)
       case Free => n == tokens && Allowed(n, request.max, request.many, request.waits, request.timed)
       case _ => false
  }

  ghost predicate Started(s: State, s': State, t: Tid, request: Request) {
    Enabled(s, Start(t, request)) && s' == Apply(s, Start(t, request))
  }

  lemma DequeueStarts(s: State, s': State, t: Tid, request: Request)
    requires request.Dequeue? && Started(s, s', t, request)
    ensures DequeueState(s', t, request, 0, 0)
  {
  }

  lemma OthersLeave(s: State, a: Action, s': State, t: Tid)
    requires Inv(s) && Enabled(s, a) && s' == Apply(s, a) && t < |s.jobs| && TidOf(a) != t
    ensures t < |s'.jobs| == |s'.sema.pcs| && s'.jobs[t] == s.jobs[t] && s'.sema.pcs[t] == s.sema.pcs[t]
  {
    JobMoves(s, a, s');
  }

  lemma SemaphoreMoves(s: State, b: Semaphore.Action, s': State, t: Tid, request: Request)
    requires Inv(s) && request.Dequeue? && Enabled(s, Sema(b)) && s' == Apply(s, Sema(b)) && b.t == t
    requires s.jobs[t].Acquiring? && DequeueState(s, t, request, 0, 0)
    ensures DequeueState(s', t, request, 0, 0) && s'.jobs[t].Acquiring?
  {
    SemaphoreCalls.CallStays(s.sema, b, t);
    SemaphoreRuns.OnlyOneThreadMoves(s.sema, b, s'.sema);
  }

  /** The semaphore call returns with what it was allowed to take. */
  lemma SemaphoreReturns(s: State, s': State, t: Tid, request: Request)
    requires Inv(s) && request.Dequeue? && Enabled(s, Acquired(t)) && s' == Apply(s, Acquired(t))
    requires !request.many ==> request.max == 1
    requires s.jobs[t].Acquiring? && DequeueState(s, t, request, 0, 0)
    ensures DequeueState(s', t, request, s.sema.taken[t], 0) && s'.jobs[t].Draining?
  {
    assert Semaphore.ThreadOk(s.sema.pcs[t], s.sema.taken[t]);
    SemaphoreRuns.OnlyOneThreadMoves(s.sema, Semaphore.End(t), s'.sema);
  }

  /** How many tokens the call has been given after a step. */
  ghost function TokensAfter(s: State, a: Action, t: Tid, tokens: nat): nat {
    if a == Acquired(t) && t < |s.sema.taken| then s.sema.taken[t] else tokens
  }

  lemma DequeueStep(s: State, a: Action, s': State, t: Tid, request: Request, tokens: nat, n: nat)
    requires Inv(s) && request.Dequeue? && Enabled(s, a) && s' == Apply(s, a) && (!request.many ==> request.max == 1)
    requires DequeueState(s, t, request, tokens, n) && !s.jobs[t].Free? && (s.jobs[t].Acquiring? ==> tokens == 0)
    ensures DequeueState(s', t, request, TokensAfter(s, a, t, tokens), n + if a.Claim? && a.t == t then a.k else 0)
    ensures s'.jobs[t].Acquiring? ==> s.jobs[t].Acquiring? && TokensAfter(s, a, t, tokens) == 0
  {
    assert JobOk(s.jobs[t], s.sema.pcs[t], s.sema.taken[t]);
    if TidOf(a) != t {
      OthersLeave(s, a, s', t);
    } else if a.Sema? {
      if s.jobs[t].Acquiring? {
        SemaphoreMoves(s, a.a, s', t, request);
      }
    } else if a.Acquired? {
      SemaphoreReturns(s, s', t, request);
    }
  }

  /** The tokens that t's semaphore call returned in steps `from` to `to`. */
  ghost function Tokens(run: seq<State>, acts: seq<Action>, t: Tid, from: nat, to: nat): nat
    requires from <= to <= |acts| && |run| == |acts| + 1
  {
    if from == to then 0 else TokensAfter(run[to - 1], acts[to - 1], t, Tokens(run, acts, t, from, to - 1))
  }

  ghost predicate DequeueAt(run: seq<State>, acts: seq<Action>, t: Tid, i: nat, j: nat, request: Request) {
    && i < j < |run| == |acts| + 1 && request.Dequeue?
    && DequeueState(run[j], t, request, Tokens(run, acts, t, i + 1, j), Claimed(acts, t, i + 1, j))
    && (run[j].jobs[t].Acquiring? ==> Tokens(run, acts, t, i + 1, j) == 0)
  }

  lemma DequeueGoesOn(run: seq<State>, acts: seq<Action>, t: Tid, i: nat, j: nat, request: Request)
    requires IsRun(run, acts) && j < |acts| && DequeueAt(run, acts, t, i, j, request) && !run[j].jobs[t].Free?
    requires !request.many ==> request.max == 1
    ensures DequeueAt(run, acts, t, i, j + 1, request)
  {
    TokensAreElements(run, acts, j);
    assert StepAt(run, acts, j);
    DequeueStep(run[j], acts[j], run[j + 1], t, request, Tokens(run, acts, t, i + 1, j), Claimed(acts, t, i + 1, j));
  }

  lemma {:induction false} DequeueSoFar(run: seq<State>, acts: seq<Action>, t: Tid, i: nat, j: nat, request: Request)
    requires IsRun(run, acts) && i < j < |run| && acts[i] == Start(t, request) && request.Dequeue?
    requires forall m :: i < m < j ==> t < |run[m].jobs| && !run[m].jobs[t].Free?
    ensures DequeueAt(run, acts, t, i, j, request)
    decreases j
  {
    assert StepAt(run, acts, i);
    if j == i + 1 {
      DequeueStarts(run[i], run[j], t, request);
    } else {
      DequeueSoFar(run, acts, t, i, j - 1, request);
      DequeueGoesOn(run, acts, t, i, j - 1, request);
    }
  }

  /**
    A dequeue claims, in however many calls of the inner queue, exactly as many elements as its
    semaphore call returned tokens: at most `max`, at most one if it is not a bulk call, and at least
    one if it waits for any without a timeout.
   */
  lemma DequeueGets(run: seq<State>, acts: seq<Action>, t: Tid, i: nat, j: nat, max: nat, many: bool, waits: bool, timed: bool)
    requires IsRun(run, acts) && i < j < |run| && acts[i] == Start(t, Dequeue(max, many, waits, timed))
    requires t < |run[j].jobs| && run[j].jobs[t].Free?
    requires forall m :: i < m < j ==> t < |run[m].jobs| && !run[m].jobs[t].Free?
    ensures var n := Claimed(acts, t, i + 1, j);
            && n == Tokens(run, acts, t, i + 1, j) && n <= max && (!many ==> n <= 1)
            && (waits && !timed && max > 0 ==> n > 0)
  {
    DequeueSoFar(run, acts, t, i, j, Dequeue(max, many, waits, timed));
  }

  // ---- Enqueuing ----

  /** Elements that t's steps `from` to `to` add to the inner queue. */
  ghost function Added(run: seq<State>, acts: seq<Action>, t: Tid, from: nat, to: nat): int
    requires from <= to <= |acts| && |run| == |acts| + 1
  {
    if from == to then 0
    else Added(run, acts, t, from, to - 1) + if TidOf(acts[to - 1]) == t then run[to].unclaimed - run[to - 1].unclaimed else 0
  }

  /** Tokens that they give to the semaphore. */
  ghost function Given(run: seq<State>, acts: seq<Action>, t: Tid, from: nat, to: nat): int
    requires from <= to <= |acts| && |run| == |acts| + 1
  {
    if from == to then 0
    else Given(run, acts, t, from, to - 1) + if TidOf(acts[to - 1]) == t then run[to].sema.issued - run[to - 1].sema.issued else 0
  }

  ghost predicate EnqueueState(s: State, t: Tid, count: nat, added: int, given: int, refused: bool) {
    && t < |s.jobs| == |s.sema.pcs|
    && match s.jobs[t]
       case Enqueuing(c) => c == count && added == given == 0 && !refused
       case Signalling(owed) => added == count && given == count - owed && !refused && (s.sema.pcs[t].Add? ==> s.sema.pcs[t].count == count)
       case Free => added == given == if refused then 0 else count
       case _ => false
  }

  lemma EnqueueStep(s: State, a: Action, s': State, t: Tid, count: nat, added: int, given: int, refused: bool)
    requires Inv(s) && Enabled(s, a) && s' == Apply(s, a)
    requires EnqueueState(s, t, count, added, given, refused) && !s.jobs[t].Free?
    ensures TidOf(a) != t ==> EnqueueState(s', t, count, added, given, refused || a == Refused(t))
    ensures TidOf(a) == t ==>
              EnqueueState(s', t, count, added + (s'.unclaimed - s.unclaimed), given + (s'.sema.issued - s.sema.issued), refused || a == Refused(t))
  {
    assert JobOk(s.jobs[t], s.sema.pcs[t], s.sema.taken[t]);
    if TidOf(a) != t {
      OthersLeave(s, a, s', t);
    } else if a.Sema? {
      assert Semaphore.ThreadOk(s.sema.pcs[t], s.sema.taken[t]);
      OwnCounts(s.sema, a.a, s'.sema);
    }
  }

  ghost predicate RefusedIn(acts: seq<Action>, t: Tid, from: nat, to: nat) {
    exists m :: from <= m < to && m < |acts| && acts[m] == Refused(t)
  }

  ghost predicate EnqueueAt(run: seq<State>, acts: seq<Action>, t: Tid, i: nat, j: nat, count: nat) {
    && i < j < |run| == |acts| + 1
    && EnqueueState(run[j], t, count, Added(run, acts, t, i + 1, j), Given(run, acts, t, i + 1, j), RefusedIn(acts, t, i + 1, j))
  }

  lemma EnqueueGoesOn(run: seq<State>, acts: seq<Action>, t: Tid, i: nat, j: nat, count: nat)
    requires IsRun(run, acts) && j < |acts| && EnqueueAt(run, acts, t, i, j, count) && !run[j].jobs[t].Free?
    ensures EnqueueAt(run, acts, t, i, j + 1, count)
  {
    TokensAreElements(run, acts, j);
    assert StepAt(run, acts, j);
    EnqueueStep(run[j], acts[j], run[j + 1], t, count, Added(run, acts, t, i + 1, j), Given(run, acts, t, i + 1, j),
                RefusedIn(acts, t, i + 1, j));
    assert RefusedIn(acts, t, i + 1, j + 1) <==> RefusedIn(acts, t, i + 1, j) || acts[j] == Refused(t);
  }

  lemma {:induction false} EnqueueSoFar(run: seq<State>, acts: seq<Action>, t: Tid, i: nat, j: nat, count: nat)
    requires IsRun(run, acts) && i < j < |run| && acts[i] == Start(t, Enqueue(count))
    requires forall m :: i < m < j ==> t < |run[m].jobs| && !run[m].jobs[t].Free?
    ensures EnqueueAt(run, acts, t, i, j, count)
    decreases j
  {
    assert StepAt(run, acts, i);
    if j > i + 1 {
      EnqueueSoFar(run, acts, t, i, j - 1, count);
      EnqueueGoesOn(run, acts, t, i, j - 1, count);
    }
  }

  /** An enqueue adds its elements and gives as many tokens, or, if the inner queue refuses it, does neither. */
  lemma EnqueueGives(run: seq<State>, acts: seq<Action>, t: Tid, i: nat, j: nat, count: nat)
    requires IsRun(run, acts) && i < j < |run| && acts[i] == Start(t, Enqueue(count))
    requires t < |run[j].jobs| && run[j].jobs[t].Free?
    requires forall m :: i < m < j ==> t < |run[m].jobs| && !run[m].jobs[t].Free?
    ensures Added(run, acts, t, i + 1, j) == Given(run, acts, t, i + 1, j)
         == if exists m :: i < m < j && acts[m] == Refused(t) then 0 else count
  {
    EnqueueSoFar(run, acts, t, i, j, count);
    assert RefusedIn(acts, t, i + 1, j) <==> exists m :: i < m < j && acts[m] == Refused(t);
  }

  // ---- Whole calls, alone ----

  /** The actions are enabled one after the other, from s to r. */
  ghost predicate Leads(s: State, acts: seq<Action>, r: State)
    decreases |acts|
  {
    if acts == [] then r == s
    else Enabled(s, acts[0]) && Leads(Apply(s, acts[0]), acts[1..], r)
  }

  lemma {:induction false} LeadsOn(s: State, acts: seq<Action>, q: State, a: Action)
    requires Leads(s, acts, q) && Enabled(q, a)
    ensures Leads(s, acts + [a], Apply(q, a))
    decreases |acts|
  {
    if acts == [] {
      assert Leads(Apply(q, a), [], Apply(q, a));
    } else {
      LeadsOn(Apply(s, acts[0]), acts[1..], q, a);
      assert (acts + [a])[1..] == acts[1..] + [a];
    }
  }

  lemma LeadsFour(s: State, a: Action, b: Action, c: Action, d: Action, s1: State, s2: State, s3: State, r: State)
    requires Enabled(s, a) && s1 == Apply(s, a) && Enabled(s1, b) && s2 == Apply(s1, b)
    requires Enabled(s2, c) && s3 == Apply(s2, c) && Enabled(s3, d) && r == Apply(s3, d)
    ensures Leads(s, [a, b, c, d], r)
  {
    assert Leads(s, [], s);
    LeadsOn(s, [], s, a);
    LeadsOn(s, [a], s1, b);
    LeadsOn(s, [a, b], s2, c);
    LeadsOn(s, [a, b, c], s3, d);
    assert [] + [a] == [a] && [a] + [b] == [a, b] && [a, b] + [c] == [a, b, c] && [a, b, c] + [d] == [a, b, c, d];
  }

  ghost predicate AllFree(s: State) {
    forall u :: 0 <= u < |s.jobs| ==> s.jobs[u].Free?
  }

  /** With no other call under way, an enqueue that is not refused adds its elements and as many tokens. */
  lemma EnqueueAlone(s: State, t: Tid, count: nat) returns (r: State)
    requires Inv(s) && AllFree(s) && t < |s.jobs|
    ensures Leads(s, [Start(t, Enqueue(count)), Enqueued(t), Sema(Semaphore.Step(t)), Acquired(t)], r)
    ensures r.unclaimed == s.unclaimed + count && r.sema.count == s.sema.count + count && r.jobs == s.jobs
  {
    QuietCountIsSize(s);
    assert JobOk(s.jobs[t], s.sema.pcs[t], s.sema.taken[t]);
    var s1 := Apply(s, Start(t, Enqueue(count)));
    var s2 := Apply(s1, Enqueued(t));
    var s3 := Apply(s2, Sema(Semaphore.Step(t)));
    r := Apply(s3, Acquired(t));
    LeadsFour(s, Start(t, Enqueue(count)), Enqueued(t), Sema(Semaphore.Step(t)), Acquired(t), s1, s2, s3, r);
    assert r.jobs == s.jobs;
  }

  function Lesser(m: nat, n: nat): nat {
    if m < n then m else n
  }

  /** The semaphore's part of a dequeue: with no other call under way it takes a token for each element it can get. */
  lemma TokensAlone(s: State, t: Tid, request: Request) returns (r: State)
    requires Inv(s) && AllFree(s) && t < |s.jobs| && request.Dequeue? && (!request.many ==> request.max == 1)
    requires s.unclaimed > 0 || !request.waits || request.max == 0
    ensures Leads(s, [Start(t, request), Sema(Semaphore.Step(t)), Sema(Semaphore.Step(t)), Acquired(t)], r)
    ensures r.jobs == s.jobs[t := Draining(Lesser(s.unclaimed, request.max), 0)]
    ensures r.unclaimed == s.unclaimed && r.sema.count == s.unclaimed - Lesser(s.unclaimed, request.max)
    ensures |r.sema.pcs| == |r.sema.taken| == |r.jobs|
  {
    QuietCountIsSize(s);
    assert JobOk(s.jobs[t], s.sema.pcs[t], s.sema.taken[t]);
    var sema := SemaphoreCalls.TryAlone(s.sema, t, CallOf(request));
    var s1 := Apply(s, Start(t, request));
    assert SemaphoreCalls.Steps(s1.sema, t, 2, sema);
    var s2 := Apply(s1, Sema(Semaphore.Step(t)));
    assert SemaphoreCalls.Steps(s2.sema, t, 1, sema);
    var s3 := Apply(s2, Sema(Semaphore.Step(t)));
    assert SemaphoreCalls.Steps(s3.sema, t, 0, sema);
    assert s3.jobs == s.jobs[t := s3.jobs[t]];
    r := TokensReturned(s3, t, Lesser(s.unclaimed, request.max));
    LeadsFour(s, Start(t, request), Sema(Semaphore.Step(t)), Sema(Semaphore.Step(t)), Acquired(t), s1, s2, s3, r);
    assert r.jobs == s.jobs[t := r.jobs[t]];
  }

  lemma TokensReturned(s: State, t: Tid, n: nat) returns (r: State)
    requires t < |s.jobs| == |s.sema.pcs| == |s.sema.taken| && s.jobs[t].Acquiring? && s.sema.pcs[t].Done? && s.sema.pcs[t].result == n
    ensures Enabled(s, Acquired(t)) && r == Apply(s, Acquired(t))
    ensures r.jobs == s.jobs[t := Draining(n, 0)] && r.unclaimed == s.unclaimed && r.sema.count == s.sema.count
    ensures |r.sema.pcs| == |r.sema.taken| == |r.jobs|
  {
    r := Apply(s, Acquired(t));
  }

  /**
    With no other call under way a dequeue of any kind that finds elements, and one that does not
    wait in any case, ends with as many as it may have.
   */
  lemma DequeueAlone(s: State, t: Tid, request: Request) returns (r: State)
    requires Inv(s) && AllFree(s) && t < |s.jobs| && request.Dequeue? && (!request.many ==> request.max == 1)
    requires s.unclaimed > 0 || !request.waits || request.max == 0
    ensures var n := Lesser(s.unclaimed, request.max);
            && Leads(s, [Start(t, request), Sema(Semaphore.Step(t)), Sema(Semaphore.Step(t)), Acquired(t), Claim(t, n), Finish(t)], r)
            && r.unclaimed == s.unclaimed - n && r.sema.count == s.sema.count - n && r.jobs == s.jobs
  {
    QuietCountIsSize(s);
    var n := Lesser(s.unclaimed, request.max);
    var s4 := TokensAlone(s, t, request);
    var acts := [Start(t, request), Sema(Semaphore.Step(t)), Sema(Semaphore.Step(t)), Acquired(t)];
    LeadsOn(s, acts, s4, Claim(t, n));
    var s5 := Apply(s4, Claim(t, n));
    LeadsOn(s, acts + [Claim(t, n)], s5, Finish(t));
    r := Apply(s5, Finish(t));
    assert acts + [Claim(t, n)] + [Finish(t)] == [Start(t, request), Sema(Semaphore.Step(t)), Sema(Semaphore.Step(t)), Acquired(t), Claim(t, n), Finish(t)];
    assert r.jobs == s.jobs;
  }
}
