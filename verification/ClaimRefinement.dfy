module ClaimRefinement {
  /**
    The queue machines claim in one step what a consumer of OptimisticDequeue claims in several.

    Whenever that consumer adds to the head, the step `Claim` of either queue machine is enabled and
    has the same effect on head, tail and claims; its other steps leave these alone. Storing the
    tail is the only other step of a queue machine that changes them, and is `Enqueue` there.
   */

  import opened Basics
  import opened Sequences
  import Tickets = OptimisticDequeue
  import OptimisticRuns
  import Explicit = ExplicitQueue
  import Implicit = ImplicitQueue

  /** The counters agree, and each claimed index has the same claimer. */
  ghost predicate Agrees(c: Tickets.State, head: nat, tail: nat, owner: seq<Tid>) {
    c.head == head && c.tail == tail && c.claims == owner
  }

  /** A step of the counters other than a claim or an enqueue is none of a queue machine. */
  lemma OtherSteps(c: Tickets.State, a: Tickets.Action)
    requires Tickets.Inv(c) && Tickets.Enabled(c, a) && !a.Enqueue? && !(a.Step? && c.pc[a.t].ClaimHead?)
    ensures Agrees(Tickets.Apply(c, a), c.head, c.tail, c.claims)
  {
  }

  lemma ExplicitClaims(c: Tickets.State, s: Explicit.State, t: Tid)
    requires Tickets.Inv(c) && Agrees(c, s.head, s.tail, s.owner)
    requires t < |c.pc| && c.pc[t].ClaimHead? && t < |s.cons| && s.cons[t].Idle?
    ensures Tickets.Enabled(c, Tickets.Step(t)) && Explicit.Enabled(s, Explicit.Claim(t, c.pc[t].actual))
    ensures var c', s' := Tickets.Apply(c, Tickets.Step(t)), Explicit.Apply(s, Explicit.Claim(t, c.pc[t].actual));
            Agrees(c', s'.head, s'.tail, s'.owner) && s'.head == s.head + c.pc[t].actual > s.head
  {
    OptimisticRuns.ClaimIsBacked(c, t);
    assert Tickets.Reads(c.tickets, c.tail, c.overcommit, c.pc[t]);
  }

  lemma ImplicitClaims(c: Tickets.State, s: Implicit.State, t: Tid)
    requires Tickets.Inv(c) && Agrees(c, s.head, s.tail, s.owner)
    requires t < |c.pc| && c.pc[t].ClaimHead? && t < |s.cons| && s.cons[t].Idle?
    ensures Tickets.Enabled(c, Tickets.Step(t)) && Implicit.Enabled(s, Implicit.Claim(t, c.pc[t].actual))
    ensures var c', s' := Tickets.Apply(c, Tickets.Step(t)), Implicit.Apply(s, Implicit.Claim(t, c.pc[t].actual));
            Agrees(c', s'.head, s'.tail, s'.owner) && s'.head == s.head + c.pc[t].actual > s.head
  {
    OptimisticRuns.ClaimIsBacked(c, t);
    assert Tickets.Reads(c.tickets, c.tail, c.overcommit, c.pc[t]);
  }

  /** What the counters do while a queue machine takes a step other than a claim. */
  ghost function Follow(c: Tickets.State, publishes: bool, count: nat): Tickets.State {
    if publishes then Tickets.Apply(c, Tickets.Enqueue(count)) else c
  }

  lemma ExplicitSteps(c: Tickets.State, s: Explicit.State, a: Explicit.Action)
    requires Agrees(c, s.head, s.tail, s.owner) && Explicit.Enabled(s, a) && Explicit.InBounds(s, a) && !a.Claim?
    ensures var s' := Explicit.Apply(s, a);
            var publishes := a.Produce? && s.prod.stage.StoreTail?;
            var c' := Follow(c, publishes, if publishes then |s.prod.op.items| else 0);
            Agrees(c', s'.head, s'.tail, s'.owner)
  {
  }

  lemma ImplicitSteps(c: Tickets.State, s: Implicit.State, a: Implicit.Action)
    requires Agrees(c, s.head, s.tail, s.owner) && Implicit.Enabled(s, a) && Implicit.InBounds(s, a) && !a.Claim?
    ensures var s' := Implicit.Apply(s, a);
            var publishes := a.Produce? && s.prod.stage.StoreTail?;
            var c' := Follow(c, publishes, if publishes then |s.prod.op.items| else 0);
            Agrees(c', s'.head, s'.tail, s'.owner)
  {
  }
}
