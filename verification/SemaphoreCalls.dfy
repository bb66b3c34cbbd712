module SemaphoreCalls {
  /**
    What calls of the semaphore give: a call keeps to what it was asked for, one swap takes as many
    tokens as there are, up to that, a try gives up only if it saw none, and undisturbed calls end
    with the tokens that were there.
   */

  import opened Basics
  import opened Totals
  import opened Semaphore
  import opened SemaphoreRuns

  // ---- A call keeps to what it was asked for ----

  /** The call a thread is in. */
  function CallIn(pc: Pc): seq<Call> {
    match pc
    case Idle => []
    case Add(count) => [Signal(count)]
    case Release(_) => []
    case TryLoad(call, _, _) => [call]
    case TrySwap(call, _, _, _) => [call]
    case SpinLoad(call, _) => [call]
    case SpinSwap(call, _, _) => [call]
    case Subtract(call) => [call]
    case Sleep(call) => [call]
    case UndoLoad(call) => [call]
    case UndoSwap(call, _) => [call]
    case Done(call, _) => [call]
  }

  lemma CallStays(s: State, a: Action, t: Tid)
    requires Enabled(s, a) && t < |s.pcs| && !(a.Begin? && a.t == t) && !(a.End? && a.t == t)
    requires CallIn(s.pcs[t]) != [] && CallIn(s.pcs[t])[0].Acquire?
    ensures t < |Apply(s, a).pcs| && CallIn(Apply(s, a).pcs[t]) == CallIn(s.pcs[t])
  {
    if a.t == t {
      OwnCallStays(s, a);
    } else {
      OnlyOneThreadMoves(s, a, Apply(s, a));
    }
  }

  lemma OwnCallStays(s: State, a: Action)
    requires Enabled(s, a) && !a.Begin? && !a.End? && CallIn(s.pcs[a.t]) != [] && CallIn(s.pcs[a.t])[0].Acquire?
    ensures a.t < |Apply(s, a).pcs| && CallIn(Apply(s, a).pcs[a.t]) == CallIn(s.pcs[a.t])
  {
  }

  // ---- What one swap takes ----

  /** A swap that succeeds takes as many tokens as the count has, up to what is still wanted. */
  lemma SwapTakesAll(s: State, t: Tid)
    requires Enabled(s, Step(t)) && s.pcs[t].TrySwap? && s.pcs[t].seen > 0
    ensures var pc, s' := s.pcs[t], StepOf(s, t);
            var n := s.count - s'.count;
            && s'.count >= 0 && 0 <= n <= pc.max && (n == pc.max || s'.count == 0)
            && t < |s'.pcs| && t < |s'.taken| && s'.pcs[t] == Done(pc.call, pc.got + n) && s'.taken[t] == s.taken[t] + n
  {
  }

  // ---- Undisturbed ----

  ghost predicate Steps(s: State, t: Tid, n: nat, r: State)
    decreases n
  {
    if n == 0 then r == s
    else Enabled(s, Step(t)) && Steps(StepOf(s, t), t, n - 1, r)
  }

  function Min(m: int, n: int): int {
    if m < n then m else n
  }

  /** With tokens in the count a call takes all it may at once; without, one that does not wait gets none. */
  lemma TryAlone(s: State, t: Tid, call: Call) returns (r: State)
    requires Enabled(s, Begin(t, call)) && call.Acquire? && (s.count > 0 || !call.spins || call.max == 0)
    ensures Steps(Apply(s, Begin(t, call)), t, 2, r)
    ensures var n := if s.count > 0 then Min(s.count, call.max) else 0;
            && t < |s.pcs| == |s.taken|
            && r == s.(count := s.count - n, acquired := s.acquired + n,
                       pcs := s.pcs[t := Done(call, n)], taken := s.taken[t := n])
  {
    var s0 := Apply(s, Begin(t, call));
    var s1 := StepOf(s0, t);
    r := StepOf(s1, t);
    assert Steps(r, t, 0, r);
    assert Steps(s1, t, 1, r);
    assert r.pcs == s.pcs[t := r.pcs[t]] && r.taken == s.taken[t := r.taken[t]];
  }

  /** Without tokens, a call that waits spins, then registers and sleeps. */
  lemma WaitAlone(s: State, t: Tid, call: Call) returns (r: State)
    requires Enabled(s, Begin(t, call)) && call.Acquire? && s.count <= 0 && call.spins && call.max > 0
    ensures Steps(Apply(s, Begin(t, call)), t, 2 * SPINS + 3, r)
    ensures t < |s.pcs| == |s.taken|
    ensures r == s.(count := s.count - 1, pcs := s.pcs[t := Sleep(call)], taken := s.taken[t := 0])
  {
    var s0 := Apply(s, Begin(t, call));
    var s1 := StepOf(s0, t);
    var s2 := StepOf(s1, t);
    assert s2 == s.(pcs := s.pcs[t := SpinLoad(call, SPINS)], taken := s.taken[t := 0]);
    r := SpinsAlone(s2, t, call, SPINS);
    assert Steps(s1, t, 2 * SPINS + 2, r);
    assert r.pcs == s.pcs[t := Sleep(call)];
  }

  lemma {:induction false} SpinsAlone(s: State, t: Tid, call: Call, spins: nat) returns (r: State)
    requires t < |s.pcs| == |s.taken| && s.pcs[t] == SpinLoad(call, spins) && call.Acquire? && s.count <= 0 && spins > 0
    ensures Steps(s, t, 2 * spins + 1, r)
    ensures r == s.(count := s.count - 1, pcs := s.pcs[t := Sleep(call)])
    decreases spins
  {
    var s1 := StepOf(s, t);
    var s2 := StepOf(s1, t);
    assert s2 == s.(pcs := s.pcs[t := AfterSpin(call, spins)]);
    if spins > 1 {
      r := SpinsAlone(s2, t, call, spins - 1);
    } else {
      r := StepOf(s2, t);
      assert Steps(r, t, 0, r);
      assert Steps(s2, t, 1, r);
    }
    assert Steps(s1, t, 2 * spins, r);
    assert r.pcs == s.pcs[t := Sleep(call)];
  }

  /** A call that spins takes what it finds. */
  lemma SpinTakes(s: State, t: Tid, call: Call, spins: nat) returns (r: State)
    requires t < |s.pcs| == |s.taken| && s.pcs[t] == SpinLoad(call, spins) && call.Acquire? && s.count > 0 && s.taken[t] == 0
    ensures Steps(s, t, 2, r)
    ensures var n := Min(s.count, call.max);
            r == s.(count := s.count - n, acquired := s.acquired + n, pcs := s.pcs[t := Done(call, n)], taken := s.taken[t := n])
  {
    var s1 := StepOf(s, t);
    r := StepOf(s1, t);
    assert Steps(r, t, 0, r);
    assert Steps(s1, t, 1, r);
    assert r.pcs == s.pcs[t := r.pcs[t]] && r.taken == s.taken[t := r.taken[t]];
  }

  /** After its first token a call is done, or takes as many more as it may. */
  lemma MoreAlone(s: State, t: Tid, call: Call) returns (n: nat, r: State)
    requires t < |s.pcs| == |s.taken| && call.Acquire? && call.max > 0 && s.pcs[t] == AfterOne(call)
    requires s.taken[t] == 1 && (!call.many ==> call.max == 1)
    ensures Steps(s, t, n, r)
    ensures var k := if s.count > 0 then Min(s.count, call.max - 1) else 0;
            r == s.(count := s.count - k, acquired := s.acquired + k, pcs := s.pcs[t := Done(call, 1 + k)], taken := s.taken[t := 1 + k])
  {
    if call.max == 1 {
      n, r := 0, s;
    } else {
      var s1 := StepOf(s, t);
      r := StepOf(s1, t);
      n := 2;
      assert Steps(r, t, 0, r);
      assert Steps(s1, t, 1, r);
    }
    assert r.pcs == s.pcs[t := r.pcs[t]] && r.taken == s.taken[t := r.taken[t]];
  }

  /** A call that has spun and finds tokens after all takes as many as it may. */
  lemma SubtractAlone(s: State, t: Tid, call: Call) returns (n: nat, r: State)
    requires t < |s.pcs| == |s.taken| && s.pcs[t] == Subtract(call) && call.Acquire? && call.max > 0 && s.count > 0
    requires s.taken[t] == 0 && (!call.many ==> call.max == 1)
    ensures Steps(s, t, n, r)
    ensures var k := Min(s.count, call.max);
            r == s.(count := s.count - k, acquired := s.acquired + k, pcs := s.pcs[t := Done(call, k)], taken := s.taken[t := k])
  {
    var s1 := StepOf(s, t);
    n, r := MoreAlone(s1, t, call);
    n := n + 1;
    assert r.pcs == s.pcs[t := r.pcs[t]] && r.taken == s.taken[t := r.taken[t]];
  }

  /** What a call that takes a kernel token ends with, and what the count then has. */
  ghost predicate Woken(s: State, t: Tid, call: Call, r: State)
    requires call.Acquire? && call.max > 0 && s.kernel > 0 && t < |s.pcs| && t < |s.taken|
  {
    var k := 1 + if s.count > 0 then Min(s.count, call.max - 1) else 0;
    r == s.(kernel := s.kernel - 1, count := s.count - (k - 1), acquired := s.acquired + k,
            pcs := s.pcs[t := Done(call, k)], taken := s.taken[t := k])
  }

  /** With a kernel token a sleeper gets it, and a call for many what the count then has. */
  lemma WakeAlone(s: State, t: Tid, call: Call) returns (n: nat, r: State)
    requires t < |s.pcs| == |s.taken| && s.pcs[t] == Sleep(call) && call.Acquire? && call.max > 0 && s.kernel > 0
    requires s.taken[t] == 0 && (!call.many ==> call.max == 1)
    ensures Steps(s, t, n, r) && Woken(s, t, call, r)
  {
    var s1 := StepOf(s, t);
    n, r := MoreAlone(s1, t, call);
    n := n + 1;
    assert r.pcs == s.pcs[t := r.pcs[t]] && r.taken == s.taken[t := r.taken[t]];
  }

  /** A call that timed out but was signalled meanwhile takes the kernel token that is there for it. */
  lemma LateWakeAlone(s: State, t: Tid, call: Call) returns (n: nat, r: State)
    requires t < |s.pcs| == |s.taken| && s.pcs[t] == UndoLoad(call) && call.Acquire? && call.max > 0 && s.kernel > 0
    requires s.taken[t] == 0 && (!call.many ==> call.max == 1) && s.count >= 0
    ensures Steps(s, t, n, r) && Woken(s, t, call, r)
  {
    var s1 := StepOf(s, t);
    var s2 := StepOf(s1, t);
    n, r := MoreAlone(s2, t, call);
    assert Steps(s1, t, n + 1, r);
    n := n + 2;
    assert r.pcs == s.pcs[t := r.pcs[t]] && r.taken == s.taken[t := r.taken[t]];
  }

  /** A timed sleeper that times out with no kernel token takes its registration back and gets nothing. */
  lemma TimeoutAlone(s: State, t: Tid, call: Call) returns (r: State)
    requires t < |s.pcs| == |s.taken| && s.pcs[t] == Sleep(call) && call.Acquire? && call.timed && s.count < 0
    ensures Enabled(s, Timeout(t)) && Steps(Apply(s, Timeout(t)), t, 2, r)
    ensures r == s.(count := s.count + 1, pcs := s.pcs[t := Done(call, 0)])
  {
    var s0 := Apply(s, Timeout(t));
    var s1 := StepOf(s0, t);
    r := StepOf(s1, t);
    assert Steps(r, t, 0, r);
    assert Steps(s1, t, 1, r);
    assert r.pcs == s.pcs[t := Done(call, 0)];
  }

  /** A signal adds its tokens, and wakes as many waiters as it has tokens for. */
  lemma SignalAlone(s: State, t: Tid, count: nat) returns (n: nat, r: State)
    requires Enabled(s, Begin(t, Signal(count)))
    ensures Steps(Apply(s, Begin(t, Signal(count))), t, n, r)
    ensures t < |s.pcs| == |s.taken|
    ensures t < |r.pcs| && r.pcs[t].Done? && r.pcs[t].call.Signal? && r.pcs[t].result == 0
    ensures r == s.(count := s.count + count, issued := s.issued + count, kernel := r.kernel,
                    pcs := s.pcs[t := r.pcs[t]], taken := s.taken[t := 0])
    ensures r.kernel == s.kernel + if s.count < 0 then Min(-s.count, count) else 0
  {
    var s0 := Apply(s, Begin(t, Signal(count)));
    var s1 := StepOf(s0, t);
    if s1.pcs[t].Release? {
      n, r := 2, StepOf(s1, t);
      assert Steps(r, t, 0, r);
      assert Steps(s1, t, 1, r);
    } else {
      n, r := 1, s1;
      assert Steps(s1, t, 0, s1);
    }
    assert r.pcs == s.pcs[t := r.pcs[t]];
  }

  // ---- With any interference: a try gives up only if it saw no token ----

  /** t read the count at step k, saw no token, and has been in the same call since. */
  ghost predicate SawNone(run: seq<State>, acts: seq<Action>, t: Tid, k: nat, i: nat) {
    && k < i <= |acts| && k < |run| && run[k].count <= 0 && (acts[k] == Step(t) || acts[k] == Retry(t))
    && forall m :: k < m < i ==> InCall(run, t, m)
  }

  ghost predicate InCall(run: seq<State>, t: Tid, m: nat) {
    m < |run| && t < |run[m].pcs| && !run[m].pcs[t].Idle?
  }

  predicate SeesNone(pc: Pc) {
    pc.TrySwap? && pc.seen <= 0
  }

  lemma ReadsCount(s: State, a: Action, t: Tid)
    requires Enabled(s, a) && t < |s.pcs|
    ensures t < |Apply(s, a).pcs|
    ensures SeesNone(Apply(s, a).pcs[t]) ==>
              (Apply(s, a).pcs[t] == s.pcs[t]) || ((a == Step(t) || a == Retry(t)) && s.count <= 0)
  {
    OnlyOneThreadMoves(s, a, Apply(s, a));
  }

  lemma {:induction false} SeenNone(run: seq<State>, acts: seq<Action>, t: Tid, i: nat) returns (k: nat)
    requires IsRun(run, acts) && i < |run| && t < |run[i].pcs| && SeesNone(run[i].pcs[t])
    ensures SawNone(run, acts, t, k, i)
    decreases i
  {
    if i > 0 {
      assert StepAt(run, acts, i - 1);
      OnlyOneThreadMoves(run[i - 1], acts[i - 1], run[i]);
      ReadsCount(run[i - 1], acts[i - 1], t);
      if run[i].pcs[t] == run[i - 1].pcs[t] {
        k := SeenNone(run, acts, t, i - 1);
        assert InCall(run, t, i - 1);
      } else {
        k := i - 1;
      }
    }
  }

  /** A call that does not wait and wants tokens returns none only if there was a moment in it without tokens. */
  lemma NoneOnlyIfNone(run: seq<State>, acts: seq<Action>, t: Tid, i: nat) returns (k: nat)
    requires IsRun(run, acts) && i < |acts| && t < |run[i].pcs| && t < |run[i + 1].pcs|
    requires !run[i].pcs[t].Done? && run[i + 1].pcs[t].Done? && run[i + 1].pcs[t].result == 0
    requires run[i + 1].pcs[t].call.Acquire? && !run[i + 1].pcs[t].call.spins && run[i + 1].pcs[t].call.max > 0
    ensures SawNone(run, acts, t, k, i + 1)
  {
    TokensAreConserved(run, acts, i);
    assert StepAt(run, acts, i);
    assert ThreadOk(run[i].pcs[t], run[i].taken[t]);
    OnlyOneThreadMoves(run[i], acts[i], run[i + 1]);
    GivesUp(run[i], acts[i], t);
    k := SeenNone(run, acts, t, i);
    assert InCall(run, t, i);
  }

  lemma GivesUp(s: State, a: Action, t: Tid)
    requires Enabled(s, a) && t < |s.pcs| && t < |s.taken| && ThreadOk(s.pcs[t], s.taken[t])
    requires var s' := Apply(s, a);
             && t < |s'.pcs| && !s.pcs[t].Done? && s'.pcs[t].Done? && s'.pcs[t].result == 0
             && s'.pcs[t].call.Acquire? && !s'.pcs[t].call.spins && s'.pcs[t].call.max > 0
    ensures SeesNone(s.pcs[t])
  {
    OnlyOneThreadMoves(s, a, Apply(s, a));
  }
}
