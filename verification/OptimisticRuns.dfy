module OptimisticRuns {
  /** What the counters guarantee in every run of any number of consumers. */

  import opened Basics
  import opened OptimisticDequeue

  // ---- What the protocol guarantees ----

  /** There are no more winners than elements. */
  lemma {:induction false} WinnersBelowTail(h: seq<Mark>, tail: nat, k: nat)
    requires Winners(h, tail) && k <= |h|
    ensures Count(h[..k], WINNERS) <= tail
    decreases k
  {
    if k > 0 {
      var p := h[..k - 1];
      assert h[..k][..k - 1] == p;
      WinnersBelowTail(h, tail, k - 1);
      assert WinnerAt(h, tail, k - 1);
      if KindOf(h[k - 1]) in WINNERS {
        CountDisjoint(p, WINNERS, LOSERS);
        CountBound(p, WINNERS + LOSERS);
      }
    }
  }

  /** Head never passes tail, not even counting the claims that have been won but not yet made. */
  lemma HeadNeverPassesTail(s: State)
    requires Inv(s)
    ensures s.head + Count(s.tickets, {KWon}) <= s.tail
    ensures s.head <= s.tail
  {
    var h := s.tickets;
    assert h[..|h|] == h;
    WinnersBelowTail(h, s.tail, |h|);
    CountDisjoint(h, {KClaimed}, {KWon});
    assert {KClaimed} + {KWon} == WINNERS;
  }

  /** A consumer about to claim finds that many elements between head and tail. */
  lemma ClaimIsBacked(s: State, t: Tid)
    requires Inv(s) && t < |s.pc| && s.pc[t].ClaimHead?
    ensures 0 < s.pc[t].actual && s.head + s.pc[t].actual <= s.tail
  {
    assert Holds(s.tickets, s.pc[t], t) && Reads(s.tickets, s.tail, s.overcommit, s.pc[t]);
    ClaimHeadInv(s, t);
    HeadNeverPassesTail(Run(s, t));
  }

  /** The source's assertion `overcommit <= myDequeueCount`. */
  lemma OvercommitIsCovered(s: State, t: Tid)
    requires Inv(s) && t < |s.pc| && s.pc[t].ReloadTail?
    ensures s.pc[t].overcommit <= s.pc[t].mine
  {
    assert Reads(s.tickets, s.tail, s.overcommit, s.pc[t]);
    CountBound(s.tickets[..s.pc[t].mine], LOSERS);
  }

  /** Every unit of the optimistic count is a claimed element, a returned unit, or still outstanding. */
  lemma TicketsAreConserved(s: State)
    requires Inv(s)
    ensures s.optimistic == s.head + s.overcommit + Count(s.tickets, OUTSTANDING)
  {
    var h := s.tickets;
    CountDisjoint(h, {KClaimed}, {KReturned});
    CountDisjoint(h, {KClaimed} + {KReturned}, OUTSTANDING);
    assert {KClaimed} + {KReturned} + OUTSTANDING == {KOpen, KWon, KLost, KClaimed, KReturned};
    CountAll(h);
  }

  lemma {:induction false} CountAll(h: seq<Mark>)
    ensures Count(h, {KOpen, KWon, KLost, KClaimed, KReturned}) == |h|
  {
    if h != [] {
      CountAll(h[..|h| - 1]);
    }
  }

  /** A thread that is not in the middle of a dequeue has no outstanding ticket. */
  ghost predicate Settled(q: Pc) {
    !q.ReloadTail? && !q.AddOvercommit? && !q.ClaimHead?
  }

  lemma SettledHoldsNone(h: seq<Mark>, q: Pc, t: Tid, u: nat)
    requires Settled(q) && Holds(h, q, t) && u < |h|
    ensures h[u] != Open(t) && h[u] != Won(t) && h[u] != Lost(t)
  {
    assert Named(h[u], t, false, false, false);
  }

  /** The effective dequeue count is eventually consistent: with nothing in flight it equals the head. */
  lemma QuietCountIsHead(s: State)
    requires Inv(s)
    requires forall t :: 0 <= t < |s.pc| ==> Settled(s.pc[t])
    ensures s.optimistic - s.overcommit == s.head
  {
    var h := s.tickets;
    forall u | 0 <= u < |h| ensures KindOf(h[u]) !in OUTSTANDING {
      if h[u].Open? || h[u].Won? || h[u].Lost? {
        SettledHoldsNone(h, s.pc[h[u].t], h[u].t, u);
      }
    }
    CountMonotone(h, OUTSTANDING, h, {});
    CountNone(h);
    TicketsAreConserved(s);
  }

  lemma {:induction false} CountNone(h: seq<Mark>)
    ensures Count(h, {}) == 0
  {
    if h != [] {
      CountNone(h[..|h| - 1]);
    }
  }

  /** Claims are final, and an index is claimed only by the consumer whose step moved the head past it. */
  lemma ClaimsAreFinal(s: State, a: Action)
    requires Inv(s) && Enabled(s, a)
    ensures s.claims <= Apply(s, a).claims && |Apply(s, a).claims| == Apply(s, a).head
    ensures forall i :: s.head <= i < Apply(s, a).head ==> a.Step? && Apply(s, a).claims[i] == a.t
  {
    ApplyInv(s, a);
  }

  ghost function SoloRun(s: State, t: Tid, steps: nat): State
    requires t < |s.pc|
    ensures |SoloRun(s, t, steps).pc| == |s.pc|
    decreases steps
  {
    if steps == 0 || !TicketsOf(s.pc[t], |s.tickets|) then s else SoloRun(Run(s, t), t, steps - 1)
  }

  lemma {:induction false} SoloIdle(s: State, t: Tid, steps: nat)
    requires t < |s.pc| && s.pc[t] == Idle
    ensures SoloRun(s, t, steps) == s
    decreases steps
  {
    if steps > 0 {
      SoloIdle(s, t, steps - 1);
    }
  }

  lemma SoloReads(s: State, t: Tid, max: nat)
    requires t < |s.pc| && s.pc[t] == Idle && max > 0
    requires s.optimistic - s.overcommit == s.head <= s.tail
    ensures SoloRun(Apply(s, Dequeue(t, max)), t, 5)
         == SoloRun(Goto(s, t, if s.head < s.tail then TakeTickets(Min(s.tail - s.head, max), s.overcommit) else Idle), t, 3)
  {
    var s0 := Apply(s, Dequeue(t, max));
    var s1 := Run(s0, t);
    var s2 := Run(s1, t);
    assert SoloRun(s0, t, 5) == SoloRun(s1, t, 4) == SoloRun(s2, t, 3);
    assert s2.pc == s.pc[t := s2.pc[t]];
  }

  lemma SoloTakes(s: State, t: Tid, d: nat)
    requires t < |s.pc| && s.pc[t] == TakeTickets(d, s.overcommit) && d > 0 && |s.tickets| == s.optimistic
    requires s.optimistic - s.overcommit == s.head && s.head + d <= s.tail
    ensures SoloRun(s, t, 3).pc[t] == Idle
    ensures SoloRun(s, t, 3).head == s.head + d
    ensures SoloRun(s, t, 3).optimistic == s.optimistic + d && SoloRun(s, t, 3).overcommit == s.overcommit
  {
    var s1 := Run(s, t);
    var s2 := Run(s1, t);
    assert Granted(s.tail, d, s.overcommit, s.optimistic) == d;
    assert s2.pc[t] == ClaimHead(d, s.optimistic);
    assert SoloRun(s, t, 3) == SoloRun(s1, t, 2) == SoloRun(s2, t, 1) == Run(s2, t);
  }

  /**
    A consumer that runs while nobody else is in the middle of a dequeue takes exactly
    min(max, tail - head) elements, and none when there are none.
   */
  lemma SoloDequeueTakesWhatIsThere(s: State, t: Tid, max: nat)
    requires Inv(s) && t < |s.pc| && s.pc[t] == Idle && max > 0
    requires forall u :: 0 <= u < |s.pc| ==> Settled(s.pc[u])
    ensures var s' := SoloRun(Apply(s, Dequeue(t, max)), t, 5);
            && s'.pc[t] == Idle
            && s'.head == s.head + Min(max, s.tail - s.head)
            && s'.optimistic - s'.overcommit == s'.head
  {
    QuietCountIsHead(s);
    HeadNeverPassesTail(s);
    SoloReads(s, t, max);
    if s.head < s.tail {
      var d := Min(s.tail - s.head, max);
      SoloTakes(Goto(s, t, TakeTickets(d, s.overcommit)), t, d);
    } else {
      SoloIdle(Goto(s, t, Idle), t, 3);
    }
  }

  // ---- Every run ----

  ghost predicate StepAt(run: seq<State>, acts: seq<Action>, i: nat) {
    i < |acts| && i + 1 < |run| && Enabled(run[i], acts[i]) && run[i + 1] == Apply(run[i], acts[i])
  }

  ghost predicate IsRun(run: seq<State>, acts: seq<Action>) {
    && |run| == |acts| + 1
    && Init(run[0])
    && forall i :: 0 <= i < |acts| ==> StepAt(run, acts, i)
  }

  lemma {:induction false} RunsAreSafe(run: seq<State>, acts: seq<Action>, i: nat)
    requires IsRun(run, acts) && i < |run|
    ensures Inv(run[i]) && run[i].head <= run[i].tail
    decreases i
  {
    if i == 0 {
      InitInv(run[0]);
    } else {
      RunsAreSafe(run, acts, i - 1);
      assert StepAt(run, acts, i - 1);
      ApplyInv(run[i - 1], acts[i - 1]);
      HeadNeverPassesTail(run[i]);
    }
  }
}
