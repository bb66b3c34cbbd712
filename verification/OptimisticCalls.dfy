module OptimisticCalls {
  /**
    What a dequeue claims, whatever other consumers and the producer do: exactly as many elements as
    the values it read at four moments of the call allow.
   */

  import opened Basics
  import opened Sequences
  import opened OptimisticDequeue
  import opened OptimisticRuns

  // ---- The step that decides ----

  /** A ticket wins exactly when it would still be below the tail if all earlier overcommits were undone. */
  lemma TicketsAreDecided(s: State, t: Tid, u: nat)
    requires Inv(s) && t < |s.pc| && s.pc[t].ReloadTail? && u < |s.tickets|
    ensures TicketsOf(s.pc[t], |s.tickets|) && |Run(s, t).tickets| == |s.tickets|
    ensures var q, m := s.pc[t], Run(s, t).tickets[u];
            if q.mine <= u < q.mine + q.desired then m == if u - q.overcommit < s.tail then Won(t) else Lost(t)
            else m == s.tickets[u]
  {
    var q := s.pc[t];
    assert Holds(s.tickets, q, t) && Reads(s.tickets, s.tail, s.overcommit, q);
    var a := Granted(s.tail, q.desired, q.overcommit, q.mine);
    DecidedIs(s.tickets, t, q.desired, a, q.mine, u);
  }

  /** How many of `desired` tickets, from `mine` on, are below the tail. */
  function Available(tail: nat, desired: nat, overcommit: nat, mine: nat): nat {
    if mine - overcommit >= tail then 0
    else if mine + desired - overcommit <= tail then desired
    else tail + overcommit - mine
  }

  /** The consumer goes on to claim as many, and to return the others if there are any. */
  lemma GrantIsExact(s: State, t: Tid)
    requires Inv(s) && t < |s.pc| && s.pc[t].ReloadTail?
    ensures TicketsOf(s.pc[t], |s.tickets|) && t < |Run(s, t).pc|
    ensures var q, n := s.pc[t], Available(s.tail, s.pc[t].desired, s.pc[t].overcommit, s.pc[t].mine);
            n <= q.desired
            && Run(s, t).pc[t] == if n < q.desired then AddOvercommit(q.desired, n, q.mine) else ClaimHead(n, q.mine)
  {
    assert Holds(s.tickets, s.pc[t], t) && Reads(s.tickets, s.tail, s.overcommit, s.pc[t]);
  }

  // ---- A whole call ----

  /** The steps of a call that read the overcommit, read the optimistic count, add to it, and reload the tail. */
  datatype Moments = Moments(readsOvercommit: nat, readsCount: nat, takes: nat, reloads: nat)

  ghost predicate Steps(run: seq<State>, acts: seq<Action>, t: Tid, k: nat) {
    k < |run| && k < |acts| && acts[k] == Step(t) && t < |run[k].pc|
  }

  /** What the call asks for. */
  ghost function Desired(run: seq<State>, i: nat, max: nat, w: Moments): nat
    requires i < |run| && w.readsOvercommit < |run| && w.readsCount < |run|
  {
    var d := run[i].tail - (run[w.readsCount].optimistic - run[w.readsOvercommit].overcommit);
    if d <= 0 then 0 else if d < max then d else max
  }

  /** What it gets. */
  ghost function Result(run: seq<State>, i: nat, max: nat, w: Moments): nat
    requires i < |run| && w.readsOvercommit < |run| && w.readsCount < |run| && w.takes < |run| && w.reloads < |run|
  {
    Available(run[w.reloads].tail, Desired(run, i, max, w), run[w.readsOvercommit].overcommit, run[w.takes].optimistic)
  }

  ghost function ClaimsOf(claims: seq<Tid>, t: Tid): nat {
    if claims == [] then 0 else ClaimsOf(claims[..|claims| - 1], t) + if claims[|claims| - 1] == t then 1 else 0
  }

  ghost predicate ReadOvercommit(run: seq<State>, acts: seq<Action>, t: Tid, i: nat, k: nat, w: Moments) {
    && i < w.readsOvercommit < k <= |acts| && |run| == |acts| + 1
    && Steps(run, acts, t, w.readsOvercommit) && run[w.readsOvercommit].pc[t].LoadOvercommit?
  }

  ghost predicate ReadCount(run: seq<State>, acts: seq<Action>, t: Tid, i: nat, k: nat, w: Moments) {
    && ReadOvercommit(run, acts, t, i, k, w) && w.readsOvercommit < w.readsCount < k
    && Steps(run, acts, t, w.readsCount) && run[w.readsCount].pc[t].LoadOptimistic?
  }

  ghost predicate Took(run: seq<State>, acts: seq<Action>, t: Tid, i: nat, k: nat, w: Moments) {
    && ReadCount(run, acts, t, i, k, w) && w.readsCount < w.takes < k
    && Steps(run, acts, t, w.takes) && run[w.takes].pc[t].TakeTickets?
  }

  ghost predicate Reloaded(run: seq<State>, acts: seq<Action>, t: Tid, i: nat, k: nat, w: Moments) {
    && Took(run, acts, t, i, k, w) && w.takes < w.reloads < k
    && Steps(run, acts, t, w.reloads) && run[w.reloads].pc[t].ReloadTail?
  }

  /** How far the call has come after step k - 1. */
  ghost predicate Reached(run: seq<State>, acts: seq<Action>, t: Tid, max: nat, i: nat, k: nat, w: Moments)
    requires i < k < |run| && t < |run[k].pc|
  {
    match run[k].pc[t]
    case Idle => false
    case LoadOvercommit(mx, tl) => mx == max && tl == run[i].tail
    case LoadOptimistic(mx, tl, oc) =>
      mx == max && tl == run[i].tail && ReadOvercommit(run, acts, t, i, k, w) && oc == run[w.readsOvercommit].overcommit
    case TakeTickets(d, oc) =>
      ReadCount(run, acts, t, i, k, w) && d == Desired(run, i, max, w) && oc == run[w.readsOvercommit].overcommit
    case ReloadTail(d, oc, mine) =>
      && Took(run, acts, t, i, k, w) && d == Desired(run, i, max, w) && oc == run[w.readsOvercommit].overcommit
      && mine == run[w.takes].optimistic
    case AddOvercommit(d, a, mine) =>
      Reloaded(run, acts, t, i, k, w) && d == Desired(run, i, max, w) && a == Result(run, i, max, w)
    case ClaimHead(a, mine) =>
      Reloaded(run, acts, t, i, k, w) && a == Result(run, i, max, w)
  }

  /** The call is over: it wanted nothing, or got what it could. */
  ghost predicate Returned(run: seq<State>, acts: seq<Action>, t: Tid, max: nat, i: nat, k: nat, w: Moments)
    requires i < k < |run|
  {
    && ReadCount(run, acts, t, i, k, w)
    && if Desired(run, i, max, w) == 0 then ClaimsOf(run[k].claims, t) == ClaimsOf(run[i].claims, t)
       else && Reloaded(run, acts, t, i, k, w)
            && ClaimsOf(run[k].claims, t) == ClaimsOf(run[i].claims, t) + Result(run, i, max, w)
  }

  lemma {:induction false} ClaimsConcat(a: seq<Tid>, b: seq<Tid>, t: Tid)
    ensures ClaimsOf(a + b, t) == ClaimsOf(a, t) + ClaimsOf(b, t)
  {
    if b == [] {
      assert a + b == a;
    } else {
      ClaimsConcat(a, b[..|b| - 1], t);
      assert (a + b)[..|a + b| - 1] == a + b[..|b| - 1];
    }
  }

  lemma {:induction false} ClaimsUniform(n: nat, u: Tid, t: Tid)
    ensures ClaimsOf(Repeat(n, u), t) == if u == t then n else 0
  {
    if n > 0 {
      ClaimsUniform(n - 1, u, t);
      assert Repeat(n, u)[..n - 1] == Repeat(n - 1, u);
    }
  }

  /** Another thread's step, or an enqueue. */
  lemma OthersLeave(s: State, a: Action, t: Tid)
    requires Enabled(s, a) && t < |s.pc| && s.pc[t] != Idle && a != Step(t)
    ensures var s' := Apply(s, a);
            |s'.pc| == |s.pc| && s'.pc[t] == s.pc[t] && ClaimsOf(s'.claims, t) == ClaimsOf(s.claims, t)
  {
    if a.Step? && s.pc[a.t].ClaimHead? {
      ClaimsConcat(s.claims, Repeat(s.pc[a.t].actual, a.t), t);
      ClaimsUniform(s.pc[a.t].actual, a.t, t);
    }
  }

  /** How far a call has come stays true while others move. */
  lemma StillReached(run: seq<State>, acts: seq<Action>, t: Tid, max: nat, i: nat, k: nat, w: Moments)
    requires i < k && k + 1 < |run| == |acts| + 1 && t < |run[k].pc| && t < |run[k + 1].pc| && run[k + 1].pc[t] == run[k].pc[t]
    requires Reached(run, acts, t, max, i, k, w)
    ensures Reached(run, acts, t, max, i, k + 1, w)
  {
  }

  lemma OwnClaims(s: State, t: Tid)
    requires t < |s.pc| && TicketsOf(s.pc[t], |s.tickets|)
    ensures ClaimsOf(Run(s, t).claims, t) == ClaimsOf(s.claims, t) + if s.pc[t].ClaimHead? then s.pc[t].actual else 0
  {
    if s.pc[t].ClaimHead? {
      ClaimsConcat(s.claims, Repeat(s.pc[t].actual, t), t);
      ClaimsUniform(s.pc[t].actual, t, t);
    }
  }

  ghost predicate Progress(run: seq<State>, acts: seq<Action>, t: Tid, max: nat, i: nat, k: nat, w: Moments)
    requires i < k < |run| && t < |run[k].pc|
  {
    if run[k].pc[t] == Idle then Returned(run, acts, t, max, i, k, w)
    else Reached(run, acts, t, max, i, k, w) && ClaimsOf(run[k].claims, t) == ClaimsOf(run[i].claims, t)
  }

  lemma OwnStep(run: seq<State>, acts: seq<Action>, t: Tid, max: nat, i: nat, k: nat, w: Moments) returns (w': Moments)
    requires i < k && k + 1 < |run| == |acts| + 1 && StepAt(run, acts, k) && Inv(run[k]) && acts[k] == Step(t) && t < |run[k].pc|
    requires run[k].pc[t] != Idle && Progress(run, acts, t, max, i, k, w)
    ensures t < |run[k + 1].pc| && Progress(run, acts, t, max, i, k + 1, w')
  {
    var s := run[k];
    match s.pc[t]
    case LoadOvercommit(_, _) => w' := OwnRead(run, acts, t, max, i, k, w);
    case LoadOptimistic(_, _, _) => w' := OwnRead(run, acts, t, max, i, k, w);
    case TakeTickets(_, _) => OwnClaims(s, t); w' := w.(takes := k);
    case ReloadTail(_, _, _) => w' := OwnReload(run, acts, t, max, i, k, w);
    case AddOvercommit(_, _, _) => OwnEnd(run, acts, t, max, i, k, w); w' := w;
    case ClaimHead(_, _) => OwnEnd(run, acts, t, max, i, k, w); w' := w;
  }

  lemma OwnReload(run: seq<State>, acts: seq<Action>, t: Tid, max: nat, i: nat, k: nat, w: Moments) returns (w': Moments)
    requires i < k && k + 1 < |run| == |acts| + 1 && StepAt(run, acts, k) && Inv(run[k]) && acts[k] == Step(t) && t < |run[k].pc|
    requires run[k].pc[t].ReloadTail? && Progress(run, acts, t, max, i, k, w)
    ensures t < |run[k + 1].pc| && Progress(run, acts, t, max, i, k + 1, w')
  {
    OwnClaims(run[k], t);
    GrantIsExact(run[k], t);
    w' := w.(reloads := k);
  }

  lemma OwnEnd(run: seq<State>, acts: seq<Action>, t: Tid, max: nat, i: nat, k: nat, w: Moments)
    requires i < k && k + 1 < |run| == |acts| + 1 && StepAt(run, acts, k) && acts[k] == Step(t) && t < |run[k].pc|
    requires (run[k].pc[t].AddOvercommit? || run[k].pc[t].ClaimHead?) && Progress(run, acts, t, max, i, k, w)
    ensures t < |run[k + 1].pc| && Progress(run, acts, t, max, i, k + 1, w)
  {
    OwnClaims(run[k], t);
  }

  lemma OwnRead(run: seq<State>, acts: seq<Action>, t: Tid, max: nat, i: nat, k: nat, w: Moments) returns (w': Moments)
    requires i < k && k + 1 < |run| == |acts| + 1 && StepAt(run, acts, k) && acts[k] == Step(t) && t < |run[k].pc|
    requires run[k].pc[t].LoadOvercommit? || run[k].pc[t].LoadOptimistic?
    requires Progress(run, acts, t, max, i, k, w)
    ensures t < |run[k + 1].pc| && Progress(run, acts, t, max, i, k + 1, w')
  {
    OwnClaims(run[k], t);
    w' := if run[k].pc[t].LoadOvercommit? then w.(readsOvercommit := k) else w.(readsCount := k);
  }

  lemma OneStep(run: seq<State>, acts: seq<Action>, t: Tid, max: nat, i: nat, k: nat, w: Moments) returns (w': Moments)
    requires i < k && k + 1 < |run| == |acts| + 1 && StepAt(run, acts, k) && Inv(run[k]) && t < |run[k].pc|
    requires run[k].pc[t] != Idle && Progress(run, acts, t, max, i, k, w)
    ensures t < |run[k + 1].pc| && Progress(run, acts, t, max, i, k + 1, w')
  {
    if acts[k] == Step(t) {
      w' := OwnStep(run, acts, t, max, i, k, w);
    } else {
      OthersLeave(run[k], acts[k], t);
      StillReached(run, acts, t, max, i, k, w);
      w' := w;
    }
  }

  lemma {:induction false} CallProgress(run: seq<State>, acts: seq<Action>, t: Tid, max: nat, i: nat, k: nat) returns (w: Moments)
    requires IsRun(run, acts) && i < k < |run| && acts[i] == Dequeue(t, max)
    requires forall m :: i < m < k ==> t < |run[m].pc| && run[m].pc[t] != Idle
    ensures t < |run[k].pc| && Progress(run, acts, t, max, i, k, w)
    decreases k
  {
    if k == i + 1 {
      w := CallStarts(run, acts, t, max, i);
    } else {
      w := CallProgress(run, acts, t, max, i, k - 1);
      w := CallGoesOn(run, acts, t, max, i, k - 1, w);
    }
  }

  lemma CallStarts(run: seq<State>, acts: seq<Action>, t: Tid, max: nat, i: nat) returns (w: Moments)
    requires IsRun(run, acts) && i < |acts| && acts[i] == Dequeue(t, max)
    ensures t < |run[i + 1].pc| && Progress(run, acts, t, max, i, i + 1, w)
  {
    assert StepAt(run, acts, i);
    w := Moments(0, 0, 0, 0);
  }

  lemma CallGoesOn(run: seq<State>, acts: seq<Action>, t: Tid, max: nat, i: nat, k: nat, w: Moments) returns (w': Moments)
    requires IsRun(run, acts) && i < k < |acts| && t < |run[k].pc| && run[k].pc[t] != Idle && Progress(run, acts, t, max, i, k, w)
    ensures t < |run[k + 1].pc| && Progress(run, acts, t, max, i, k + 1, w')
  {
    RunsAreSafe(run, acts, k);
    assert StepAt(run, acts, k);
    w' := OneStep(run, acts, t, max, i, k, w);
  }

  /**
    What a dequeue of up to `max` elements claims, from the tail at the call, the overcommit, the
    count and the tail that it read, in this order, whatever happens in between.
   */
  lemma CallClaims(run: seq<State>, acts: seq<Action>, t: Tid, max: nat, i: nat, j: nat) returns (w: Moments)
    requires IsRun(run, acts) && i < j < |run| && acts[i] == Dequeue(t, max) && t < |run[j].pc| && run[j].pc[t] == Idle
    requires forall m :: i < m < j ==> t < |run[m].pc| && run[m].pc[t] != Idle
    ensures ReadCount(run, acts, t, i, j, w)
    ensures Desired(run, i, max, w) == 0 ==> ClaimsOf(run[j].claims, t) == ClaimsOf(run[i].claims, t)
    ensures Desired(run, i, max, w) > 0 ==>
              && Reloaded(run, acts, t, i, j, w)
              && ClaimsOf(run[j].claims, t) == ClaimsOf(run[i].claims, t) + Result(run, i, max, w)
  {
    w := CallProgress(run, acts, t, max, i, j);
  }
}
