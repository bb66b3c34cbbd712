module BlockOwnership {
  /** What every run of the block pool guarantees: each block is in one place, with one owner, and none is lost. */

  import opened Basics
  import opened BlockPool
  import opened BlockPoolSteps

  // ---- Every run ----

  ghost predicate Next(s: State, a: Action, s': State) {
    WellFormed(s) && Enabled(s, a) && s' == Apply(s, a)
  }

  ghost predicate StepAt(run: seq<State>, acts: seq<Action>, i: nat) {
    i < |acts| && i + 1 < |run| && Next(run[i], acts[i], run[i + 1])
  }

  ghost predicate IsRun(run: seq<State>, acts: seq<Action>) {
    && |run| == |acts| + 1
    && Init(run[0])
    && forall i :: 0 <= i < |acts| ==> StepAt(run, acts, i)
  }

  /** The invariant holds in every state of every run; in particular no enabled action is ever undefined. */
  lemma {:induction false} RunsAreSafe(run: seq<State>, acts: seq<Action>, i: nat)
    requires IsRun(run, acts) && i < |run|
    ensures Inv(run[i])
    decreases i
  {
    if i == 0 {
      InitInv(run[0]);
    } else {
      RunsAreSafe(run, acts, i - 1);
      assert StepAt(run, acts, i - 1);
      NextInv(run[i - 1], acts[i - 1], run[i]);
    }
  }

  lemma NextInv(s: State, a: Action, s': State)
    requires Inv(s) && Next(s, a, s')
    ensures Inv(s')
  {
    ApplyInv(s, a);
  }

  /**
    No ABA in any run: whenever the head swap of `try_get` succeeds, the `next` read before it is
    the node's present `next`, the node is the first of the list, and its flag is clear.
   */
  lemma NoABA(run: seq<State>, acts: seq<Action>, i: nat, t: Tid)
    requires IsRun(run, acts) && i < |run| && t < |run[i].pc|
    requires run[i].pc[t].SwapHead? && run[i].head == At(run[i].pc[t].node)
    ensures run[i].pc[t].node < |run[i].next| && run[i].pc[t].succ == run[i].next[run[i].pc[t].node]
    ensures run[i].chain != [] && run[i].chain[0] == run[i].pc[t].node
    ensures run[i].pc[t].node < |run[i].refs| && run[i].refs[run[i].pc[t].node] < SHOULD_BE_ON_FREELIST
  {
    RunsAreSafe(run, acts, i);
    SwapIsCurrent(run[i], t);
  }

  /** A thread is carrying `b` between the list and a client. */
  ghost predicate Carries(s: State, t: Tid, b: Block) {
    t < |s.pc| && (Adds(s.pc[t], b) || s.pc[t] == DropTwo(b))
  }

  /**
    Each block is in exactly one place, and the place can be read off the program's own
    variables: the pool counter, the list, the program counters and the flag.
   */
  lemma OnePlace(s: State, b: Block)
    requires Inv(s) && b < |s.refs|
    ensures s.phase[b].Unissued? <==> s.poolIndex <= b < s.poolSize
    ensures s.phase[b].Listed? <==> b in s.chain
    ensures forall t: Tid :: Carries(s, t, b) <==> s.phase[b] == Adding(t) || s.phase[b] == Unlinked(t)
    ensures s.phase[b].Waiting? <==> s.refs[b] >= SHOULD_BE_ON_FREELIST && forall t: Tid :: !Carries(s, t, b)
  {
    assert BlockInv(s.phase[b], s.refs[b], s.pc, b);
    HoldersBound(s.pc, b);
    if b in s.chain {
      var i :| 0 <= i < |s.chain| && s.chain[i] == b;
      assert Linked(s.next, s.phase, s.chain, i);
    }
    forall t: Tid ensures Carries(s, t, b) <==> s.phase[b] == Adding(t) || s.phase[b] == Unlinked(t) {
      if t < |s.pc| {
        assert ThreadInv(s.next, s.phase, s.pc[t], t);
      }
    }
    if s.phase[b].Adding? {
      assert Carries(s, s.phase[b].adder, b);
    }
  }

  /** The list owns a reference while the block is listed, tentatively listed, or unlinked but not yet released. */
  ghost predicate ListReference(s: State, b: Block)
    requires b < |s.phase|
  {
    match s.phase[b]
    case Listed => true
    case Unlinked(_) => true
    case Adding(t) => t < |s.pc| && (s.pc[t].Publish? || s.pc[t].GiveBack?)
    case _ => false
  }

  /** The low 31 bits of `freeListRefs` count the references in flight plus the list's own. */
  lemma ReferenceCount(s: State, b: Block)
    requires Inv(s) && b < |s.refs|
    ensures RefsOf(s.refs[b]) == Holders(s.pc, b) + (if ListReference(s, b) then 1 else 0)
  {
    assert BlockInv(s.phase[b], s.refs[b], s.pc, b);
    HoldersBound(s.pc, b);
  }

  ghost function Walk(next: seq<Ptr>, from: Ptr, steps: nat): Ptr {
    if steps == 0 then from
    else var p := Walk(next, from, steps - 1);
         if p.At? && p.block < |next| then next[p.block] else Null
  }

  /** Following `freeListNext` from the head visits the listed blocks once each and then ends. */
  lemma {:induction false} ListIsTheChain(s: State, i: nat)
    requires Inv(s) && i <= |s.chain|
    ensures Walk(s.next, s.head, i) == Link(s.chain, i)
    ensures Walk(s.next, s.head, i).Null? <==> i == |s.chain|
  {
    if i > 0 {
      ListIsTheChain(s, i - 1);
      assert Linked(s.next, s.phase, s.chain, i - 1);
    }
  }

  /**
    No block is ever given to two owners: an owned block stays with its owner until that owner
    hands it over or releases it, and only a block that nobody owns is given out.
   */
  lemma OwnersAreExclusive(s: State, a: Action, b: Block)
    requires Inv(s) && Enabled(s, a) && b < |s.refs|
    ensures s.phase[b].Owned? ==>
              || Apply(s, a).phase[b] == s.phase[b]
              || a == Release(s.phase[b].owner, b)
              || (exists to :: a == HandOver(b, to))
    ensures !s.phase[b].Owned? && Apply(s, a).phase[b].Owned? ==>
              && a.Step?
              && Apply(s, a).phase[b] == Owned(a.t)
              && (s.phase[b] == Unlinked(a.t) || s.phase[b].Unissued?)
  {
    assert BlockInv(s.phase[b], s.refs[b], s.pc, b);
    if a.Step? {
      assert ThreadInv(s.next, s.phase, s.pc[a.t], a.t);
      StepOnPhase(s, a.t, b);
    }
  }

  /** How a step of one thread can change the phase of a block. */
  lemma StepOnPhase(s: State, t: Tid, b: Block)
    requires Inv(s) && t < |s.pc| && b < |s.refs|
    ensures s.phase[b].Owned? ==> Run(s, t).phase[b] == s.phase[b]
    ensures !s.phase[b].Owned? && Run(s, t).phase[b].Owned? ==>
              Run(s, t).phase[b] == Owned(t) && (s.phase[b] == Unlinked(t) || s.phase[b].Unissued?)
  {
    assert ThreadInv(s.next, s.phase, s.pc[t], t);
    match s.pc[t]
    case SwapHead(c, _) =>
      if s.head == At(c) { SwapIsCurrent(s, t); }
    case DropOne(c, _) =>
      if s.refs[c] == SHOULD_BE_ON_FREELIST + 1 { DropOneInherits(s, t); }
    case _ =>
  }

  /** A waiting block always has a thread that must come back for it: that thread's swap cannot succeed. */
  lemma WaitingHasAnHeir(s: State, b: Block) returns (t: Tid)
    requires Inv(s) && b < |s.refs| && s.phase[b].Waiting?
    ensures t < |s.pc| && Holds(s.pc[t], b) && !s.pc[t].DropTwo?
    ensures s.pc[t].SwapHead? ==> Run(s, t).pc[t] == DropOne(b, s.head)
    ensures s.pc[t].DropOne? && Holders(s.pc, b) == 1 ==> Run(s, t).phase[b] == Adding(t)
  {
    assert BlockInv(s.phase[b], s.refs[b], s.pc, b);
    t := SomeHolder(s.pc, b);
    assert ThreadInv(s.next, s.phase, s.pc[t], t);
    if s.pc[t].SwapHead? && s.head == At(b) {
      SwapIsCurrent(s, t);
    }
  }

  /** When all threads are idle, every block is unissued, with a client, or on the list. */
  lemma NothingIsLost(s: State, b: Block)
    requires Inv(s) && b < |s.refs|
    requires forall t :: 0 <= t < |s.pc| ==> s.pc[t] == Idle
    ensures s.phase[b].Unissued? || s.phase[b].Owned? || b in s.chain
  {
    NoHolders(s.pc, b);
    assert BlockInv(s.phase[b], s.refs[b], s.pc, b);
  }
}
