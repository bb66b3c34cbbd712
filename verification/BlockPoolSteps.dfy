/** Every step of every thread keeps the invariant of the block pool. */
module BlockPoolSteps {
  import opened Basics
  import opened BlockPool

  /** A block that neither the old nor the new program counter of the moving thread is about. */
  lemma BlockFrame(p: Phase, w: nat, pc: seq<Pc>, t: Tid, q: Pc, b: Block)
    requires t < |pc| && BlockInv(p, w, pc, b)
    requires !Holds(pc[t], b) && !Holds(q, b) && !Adds(pc[t], b)
    ensures BlockInv(p, w, pc[t := q], b)
  {
    HoldersUpdate(pc, t, q, b);
  }

  /** Program counters that neither hold nor add a block. */
  predicate Quiet(q: Pc) {
    !HasNode(q) || q.LoadRefs? || q.Acquire?
  }

  lemma QuietBlocks(phase: seq<Phase>, refs: seq<nat>, pc: seq<Pc>, t: Tid, q: Pc)
    requires t < |pc| && Blocks(phase, refs, pc) && Quiet(pc[t]) && Quiet(q)
    ensures Blocks(phase, refs, pc[t := q])
  {
    forall b | 0 <= b < |refs| ensures BlockInv(phase[b], refs[b], pc[t := q], b) {
      BlockFrame(phase[b], refs[b], pc, t, q, b);
    }
  }

  lemma QuietThreads(next: seq<Ptr>, phase: seq<Phase>, pc: seq<Pc>, t: Tid, q: Pc)
    requires t < |pc| && Threads(next, phase, pc) && Quiet(q)
    requires |next| == |phase| && ThreadInv(next, phase, q, t)
    ensures Threads(next, phase, pc[t := q])
  {
  }

  /** Steps that touch only the program counter, and leave one that holds and adds nothing. */
  lemma QuietStep(s: State, t: Tid, q: Pc)
    requires Inv(s) && t < |s.pc| && PcOk(|s.refs|, q)
    requires Quiet(s.pc[t]) && Quiet(q) && ThreadInv(s.next, s.phase, q, t)
    ensures Inv(Goto(s, t, q))
  {
    QuietBlocks(s.phase, s.refs, s.pc, t, q);
    QuietThreads(s.next, s.phase, s.pc, t, q);
  }

  /** A step of `t` about block `b` that changes `b`'s word and phase only. */
  lemma NodeBlocks(phase: seq<Phase>, refs: seq<nat>, pc: seq<Pc>, t: Tid, q: Pc, b: Block, p: Phase, w: nat)
    requires t < |pc| && b < |refs| && Blocks(phase, refs, pc)
    requires (Quiet(pc[t]) || pc[t].node == b) && (Quiet(q) || q.node == b)
    requires BlockInv(p, w, pc[t := q], b)
    ensures Blocks(phase[b := p], refs[b := w], pc[t := q])
  {
    var phase', refs', pc' := phase[b := p], refs[b := w], pc[t := q];
    forall c | 0 <= c < |refs| ensures BlockInv(phase'[c], refs'[c], pc', c) {
      if c != b {
        BlockFrame(phase[c], refs[c], pc, t, q, c);
      }
    }
  }

  /** Phases in which no thread other than `t` is obliged to do something with the block. */
  predicate Exclusive(p: Phase, t: Tid) {
    p.Unissued? || p.Owned? || p.Waiting? || p.Listed? || p == Adding(t) || p == Unlinked(t)
  }

  lemma OtherThreads(next: seq<Ptr>, phase: seq<Phase>, pc: seq<Pc>, t: Tid, q: Pc, b: Block, p: Phase, nx: Ptr)
    requires t < |pc| && b < |next| == |phase| && Threads(next, phase, pc)
    requires p == phase[b] || Exclusive(phase[b], t)
    requires nx == next[b] || (Exclusive(phase[b], t) && Holders(pc, b) == 0)
    requires ThreadInv(next[b := nx], phase[b := p], q, t)
    ensures Threads(next[b := nx], phase[b := p], pc[t := q])
  {
    var next', phase', pc' := next[b := nx], phase[b := p], pc[t := q];
    forall u | 0 <= u < |pc'| ensures ThreadInv(next', phase', pc'[u], u) {
      if u != t && HasNode(pc[u]) && pc[u].node == b {
        assert ThreadInv(next, phase, pc[u], u);
        if Holds(pc[u], b) {
          HolderCounts(pc, u, b);
        }
      } else if u != t {
        assert ThreadInv(next, phase, pc[u], u);
      }
    }
  }

  lemma ChainFrame(head: Ptr, next: seq<Ptr>, phase: seq<Phase>, chain: seq<Block>, b: Block, p: Phase, nx: Ptr)
    requires b < |next| == |phase| && ChainInv(head, next, phase, chain)
    requires p == phase[b] || (!phase[b].Listed? && !p.Listed?)
    requires nx == next[b] || !phase[b].Listed?
    ensures ChainInv(head, next[b := nx], phase[b := p], chain)
  {
    var next', phase' := next[b := nx], phase[b := p];
    forall i | 0 <= i < |chain| ensures Linked(next', phase', chain, i) {
      assert Linked(next, phase, chain, i);
    }
  }

  /** A step of `t`, at block `b`, that leaves the list alone. */
  lemma NodeStep(s: State, t: Tid, q: Pc, b: Block, p: Phase, w: nat, nx: Ptr)
    requires Inv(s) && t < |s.pc| && b < |s.refs|
    requires (Quiet(s.pc[t]) || s.pc[t].node == b) && (Quiet(q) || q.node == b)
    requires PcOk(|s.refs|, q) && PtrOk(|s.refs|, nx) && w < REFS_MODULUS
    requires p == s.phase[b] || (Exclusive(s.phase[b], t) && !s.phase[b].Listed? && !s.phase[b].Unissued? && !p.Listed? && !p.Unissued?)
    requires nx == s.next[b] || (Exclusive(s.phase[b], t) && !s.phase[b].Listed? && Holders(s.pc, b) == 0)
    requires BlockInv(p, w, s.pc[t := q], b)
    requires ThreadInv(s.next[b := nx], s.phase[b := p], q, t)
    ensures Inv(s.(next := s.next[b := nx], refs := s.refs[b := w], phase := s.phase[b := p], pc := s.pc[t := q]))
  {
    NodeBlocks(s.phase, s.refs, s.pc, t, q, b, p, w);
    OtherThreads(s.next, s.phase, s.pc, t, q, b, p, nx);
    ChainFrame(s.head, s.next, s.phase, s.chain, b, p, nx);
  }

  /** `NodeStep` when only the word changes. */
  lemma WordStep(s: State, t: Tid, q: Pc, b: Block, w: nat)
    requires Inv(s) && t < |s.pc| && b < |s.refs|
    requires (Quiet(s.pc[t]) || s.pc[t].node == b) && (Quiet(q) || q.node == b)
    requires PcOk(|s.refs|, q) && w < REFS_MODULUS
    requires BlockInv(s.phase[b], w, s.pc[t := q], b)
    requires ThreadInv(s.next, s.phase, q, t)
    ensures Inv(Goto(SetRefs(s, b, w), t, q))
  {
    assert s.next == s.next[b := s.next[b]] && s.phase == s.phase[b := s.phase[b]];
    NodeStep(s, t, q, b, s.phase[b], w, s.next[b]);
  }

  /** `NodeStep` when the word and the phase change. */
  lemma PhaseStep(s: State, t: Tid, q: Pc, b: Block, p: Phase, w: nat)
    requires Inv(s) && t < |s.pc| && b < |s.refs|
    requires (Quiet(s.pc[t]) || s.pc[t].node == b) && (Quiet(q) || q.node == b)
    requires PcOk(|s.refs|, q) && w < REFS_MODULUS
    requires Exclusive(s.phase[b], t) && !s.phase[b].Listed? && !s.phase[b].Unissued? && !p.Listed? && !p.Unissued?
    requires BlockInv(p, w, s.pc[t := q], b)
    requires ThreadInv(s.next, s.phase[b := p], q, t)
    ensures Inv(Goto(SetPhase(SetRefs(s, b, w), b, p), t, q))
  {
    assert s.next == s.next[b := s.next[b]];
    NodeStep(s, t, q, b, p, w, s.next[b]);
  }

  /** `NodeStep` when only the program counter changes. */
  lemma MoveStep(s: State, t: Tid, q: Pc, b: Block)
    requires Inv(s) && t < |s.pc| && b < |s.refs|
    requires HasNode(s.pc[t]) && s.pc[t].node == b && q != Idle && HasNode(q) && q.node == b
    requires PcOk(|s.refs|, q)
    requires BlockInv(s.phase[b], s.refs[b], s.pc[t := q], b)
    requires ThreadInv(s.next, s.phase, q, t)
    ensures Inv(Goto(s, t, q))
  {
    assert s.refs == s.refs[b := s.refs[b]];
    WordStep(s, t, q, b, s.refs[b]);
  }

  /** Holders after thread `t` moves, and the facts about the word it starts from. */
  lemma Counts(s: State, t: Tid, q: Pc, b: Block)
    requires Inv(s) && t < |s.pc| && b < |s.refs|
    ensures Holders(s.pc[t := q], b) + (if Holds(s.pc[t], b) then 1 else 0)
         == Holders(s.pc, b) + (if Holds(q, b) then 1 else 0)
    ensures Holders(s.pc, b) <= |s.pc|
    ensures Holds(s.pc[t], b) ==> Holders(s.pc, b) >= 1
    ensures BlockInv(s.phase[b], s.refs[b], s.pc, b)
    ensures ThreadInv(s.next, s.phase, s.pc[t], t)
  {
    HoldersUpdate(s.pc, t, q, b);
    HoldersBound(s.pc, b);
    if Holds(s.pc[t], b) {
      HolderCounts(s.pc, t, b);
    }
  }

  lemma AcquireStep(s: State, t: Tid)
    requires Inv(s) && t < |s.pc| && s.pc[t].Acquire?
    ensures Inv(Run(s, t))
  {
    if s.refs[s.pc[t].node] == s.pc[t].word {
      AcquireSucceeds(s, t);
    } else {
      QuietStep(s, t, LoadHead);
    }
  }

  lemma AcquireSucceeds(s: State, t: Tid)
    requires Inv(s) && t < |s.pc| && s.pc[t].Acquire? && s.refs[s.pc[t].node] == s.pc[t].word
    ensures Inv(Run(s, t))
  {
    var b := s.pc[t].node;
    Counts(s, t, LoadNext(b), b);
    WordStep(s, t, LoadNext(b), b, FetchAdd(s.pc[t].word, 1));
  }

  lemma LoadNextStep(s: State, t: Tid)
    requires Inv(s) && t < |s.pc| && s.pc[t].LoadNext?
    ensures Inv(Run(s, t))
  {
    var b := s.pc[t].node;
    Counts(s, t, SwapHead(b, s.next[b]), b);
    MoveStep(s, t, SwapHead(b, s.next[b]), b);
  }

  lemma SwapHeadFails(s: State, t: Tid)
    requires Inv(s) && t < |s.pc| && s.pc[t].SwapHead? && s.head != At(s.pc[t].node)
    ensures Inv(Run(s, t))
  {
    var b := s.pc[t].node;
    Counts(s, t, DropOne(b, s.head), b);
    MoveStep(s, t, DropOne(b, s.head), b);
  }

  lemma DropTwoStep(s: State, t: Tid)
    requires Inv(s) && t < |s.pc| && s.pc[t].DropTwo?
    ensures Inv(Run(s, t))
  {
    var b := s.pc[t].node;
    Counts(s, t, Idle, b);
    PhaseStep(s, t, Idle, b, Owned(t), FetchAdd(s.refs[b], -2));
  }

  /** The last holder of a waiting block becomes its adder. */
  lemma DropOneInherits(s: State, t: Tid)
    requires Inv(s) && t < |s.pc| && s.pc[t].DropOne?
    requires s.refs[s.pc[t].node] == SHOULD_BE_ON_FREELIST + 1
    ensures s.phase[s.pc[t].node].Waiting? && Inv(Run(s, t))
  {
    var b, seen := s.pc[t].node, s.pc[t].seen;
    var q := ReadHead(b, Resume(seen));
    Counts(s, t, q, b);
    assert s.phase[b].Waiting?;
    PhaseStep(s, t, q, b, Adding(t), FetchAdd(s.refs[b], -1));
  }

  lemma DropOneLeaves(s: State, t: Tid)
    requires Inv(s) && t < |s.pc| && s.pc[t].DropOne?
    requires s.refs[s.pc[t].node] != SHOULD_BE_ON_FREELIST + 1
    ensures Inv(Run(s, t))
  {
    var b, w, q := s.pc[t].node, s.refs[s.pc[t].node], LoopWith(s.pc[t].seen);
    Counts(s, t, q, b);
    assert FetchAdd(w, -1) == w - 1;
    assert PlaceOk(s.phase[b], b, s.pc[t := q]);
    assert WordOk(s.phase[b], w - 1, Holders(s.pc[t := q], b), s.pc[t := q]);
    WordStep(s, t, q, b, w - 1);
  }

  lemma SetFlagStep(s: State, t: Tid)
    requires Inv(s) && t < |s.pc| && s.pc[t].SetFlag?
    ensures Inv(Run(s, t))
  {
    var b := s.pc[t].node;
    var w := FetchAdd(s.refs[b], SHOULD_BE_ON_FREELIST);
    if s.refs[b] == 0 {
      Counts(s, t, ReadHead(b, Return), b);
      WordStep(s, t, ReadHead(b, Return), b, w);
    } else {
      Counts(s, t, Idle, b);
      PhaseStep(s, t, Idle, b, Waiting, w);
    }
  }

  lemma ReadHeadStep(s: State, t: Tid)
    requires Inv(s) && t < |s.pc| && s.pc[t].ReadHead?
    ensures Inv(Run(s, t))
  {
    var b := s.pc[t].node;
    var q := StoreNext(b, s.head, s.pc[t].after);
    Counts(s, t, q, b);
    MoveStep(s, t, q, b);
  }

  lemma StoreNextStep(s: State, t: Tid)
    requires Inv(s) && t < |s.pc| && s.pc[t].StoreNext?
    ensures Inv(Run(s, t))
  {
    var b, seen := s.pc[t].node, s.pc[t].seen;
    var q := StoreRefs(b, seen, s.pc[t].after);
    Counts(s, t, q, b);
    assert s.refs == s.refs[b := s.refs[b]] && s.phase == s.phase[b := s.phase[b]];
    NodeStep(s, t, q, b, s.phase[b], s.refs[b], seen);
  }

  lemma StoreRefsStep(s: State, t: Tid)
    requires Inv(s) && t < |s.pc| && s.pc[t].StoreRefs?
    ensures Inv(Run(s, t))
  {
    var b := s.pc[t].node;
    var q := Publish(b, s.pc[t].seen, s.pc[t].after);
    Counts(s, t, q, b);
    WordStep(s, t, q, b, 1);
  }

  lemma PublishFails(s: State, t: Tid)
    requires Inv(s) && t < |s.pc| && s.pc[t].Publish? && s.head != s.pc[t].seen
    ensures Inv(Run(s, t))
  {
    var b := s.pc[t].node;
    var q := GiveBack(b, s.head, s.pc[t].after);
    Counts(s, t, q, b);
    MoveStep(s, t, q, b);
  }

  lemma GiveBackStep(s: State, t: Tid)
    requires Inv(s) && t < |s.pc| && s.pc[t].GiveBack?
    ensures Inv(Run(s, t))
  {
    if s.refs[s.pc[t].node] == 1 {
      GiveBackAgain(s, t);
    } else {
      GiveBackLeaves(s, t);
    }
  }

  lemma GiveBackAgain(s: State, t: Tid)
    requires Inv(s) && t < |s.pc| && s.pc[t].GiveBack? && s.refs[s.pc[t].node] == 1
    ensures Inv(Run(s, t))
  {
    var b := s.pc[t].node;
    var q := StoreNext(b, s.pc[t].seen, s.pc[t].after);
    Counts(s, t, q, b);
    WordStep(s, t, q, b, FetchAdd(s.refs[b], SHOULD_BE_ON_FREELIST - 1));
  }

  lemma GiveBackLeaves(s: State, t: Tid)
    requires Inv(s) && t < |s.pc| && s.pc[t].GiveBack? && s.refs[s.pc[t].node] != 1
    ensures Inv(Run(s, t))
  {
    var b, after := s.pc[t].node, s.pc[t].after;
    Counts(s, t, Leave(after), b);
    PhaseStep(s, t, Leave(after), b, Waiting, FetchAdd(s.refs[b], SHOULD_BE_ON_FREELIST - 1));
  }

  /**
    No ABA: when the swap in `try_get` is about to succeed, the `next` read earlier is the
    node's present successor, and the node is the first of the list, with its flag clear.
   */
  lemma SwapIsCurrent(s: State, t: Tid)
    requires Inv(s) && t < |s.pc| && s.pc[t].SwapHead? && s.head == At(s.pc[t].node)
    ensures s.chain != [] && s.chain[0] == s.pc[t].node
    ensures s.pc[t].succ == s.next[s.pc[t].node] == Link(s.chain, 1)
    ensures s.phase[s.pc[t].node] == Listed && s.refs[s.pc[t].node] < SHOULD_BE_ON_FREELIST
  {
    Counts(s, t, s.pc[t], s.pc[t].node);
    assert Linked(s.next, s.phase, s.chain, 0);
  }

  lemma PopChain(next: seq<Ptr>, phase: seq<Phase>, chain: seq<Block>, b: Block, p: Phase)
    requires |chain| > 0 && b == chain[0] < |next| == |phase| && !p.Listed?
    requires ChainInv(At(b), next, phase, chain)
    ensures ChainInv(Link(chain, 1), next, phase[b := p], chain[1..])
  {
    var rest, phase' := chain[1..], phase[b := p];
    forall i | 0 <= i < |rest| ensures Linked(next, phase', rest, i) {
      assert Linked(next, phase, chain, i + 1);
      assert rest[i] == chain[i + 1] && chain[0] != chain[i + 1];
    }
    forall c | 0 <= c < |phase'| && phase'[c] == Listed ensures c in rest {
      assert c in chain;
    }
  }

  lemma PushChain(head: Ptr, next: seq<Ptr>, phase: seq<Phase>, chain: seq<Block>, b: Block)
    requires b < |next| == |phase| && !phase[b].Listed? && next[b] == head
    requires ChainInv(head, next, phase, chain)
    ensures ChainInv(At(b), next, phase[b := Listed], [b] + chain)
  {
    var chain', phase' := [b] + chain, phase[b := Listed];
    forall i | 0 <= i < |chain'| ensures Linked(next, phase', chain', i) {
      if i > 0 {
        assert Linked(next, phase, chain, i - 1);
      }
    }
    forall i, j | 0 <= i < j < |chain'| ensures chain'[i] != chain'[j] {
      assert Linked(next, phase, chain, j - 1);
    }
    forall c | 0 <= c < |phase'| && phase'[c] == Listed ensures c in chain' {
      assert c != b ==> c in chain;
    }
  }

  lemma SwapHeadSucceeds(s: State, t: Tid)
    requires Inv(s) && t < |s.pc| && s.pc[t].SwapHead? && s.head == At(s.pc[t].node)
    ensures Inv(Run(s, t))
  {
    var b := s.pc[t].node;
    var q, p := DropTwo(b), Unlinked(t);
    SwapIsCurrent(s, t);
    Counts(s, t, q, b);
    PopChain(s.next, s.phase, s.chain, b, p);
    assert s.refs == s.refs[b := s.refs[b]] && s.next == s.next[b := s.next[b]];
    NodeBlocks(s.phase, s.refs, s.pc, t, q, b, p, s.refs[b]);
    OtherThreads(s.next, s.phase, s.pc, t, q, b, p, s.next[b]);
  }

  lemma PublishSucceeds(s: State, t: Tid)
    requires Inv(s) && t < |s.pc| && s.pc[t].Publish? && s.head == s.pc[t].seen
    ensures Inv(Run(s, t))
  {
    var b := s.pc[t].node;
    var q := Leave(s.pc[t].after);
    Counts(s, t, q, b);
    PushChain(s.head, s.next, s.phase, s.chain, b);
    assert s.refs == s.refs[b := s.refs[b]] && s.next == s.next[b := s.next[b]];
    NodeBlocks(s.phase, s.refs, s.pc, t, q, b, Listed, s.refs[b]);
    OtherThreads(s.next, s.phase, s.pc, t, q, b, Listed, s.next[b]);
  }

  lemma PoolTakeStep(s: State, t: Tid)
    requires Inv(s) && t < |s.pc| && s.pc[t].PoolTake?
    ensures Inv(Run(s, t))
  {
    var i := s.poolIndex;
    if i < s.poolSize {
      var p := Owned(t);
      Counts(s, t, Idle, i);
      ChainFrame(s.head, s.next, s.phase, s.chain, i, p, s.next[i]);
      assert s.refs == s.refs[i := s.refs[i]] && s.next == s.next[i := s.next[i]];
      NodeBlocks(s.phase, s.refs, s.pc, t, Idle, i, p, s.refs[i]);
      OtherThreads(s.next, s.phase, s.pc, t, Idle, i, p, s.next[i]);
    } else {
      QuietStep(s, t, LoadHead);
    }
  }

  lemma ReleaseStep(s: State, t: Tid, b: Block)
    requires Inv(s) && Enabled(s, Release(t, b))
    ensures Inv(Apply(s, Release(t, b)))
  {
    Counts(s, t, SetFlag(b), b);
    assert s.refs == s.refs[b := s.refs[b]];
    PhaseStep(s, t, SetFlag(b), b, Adding(t), s.refs[b]);
  }

  lemma HandOverStep(s: State, b: Block, to: Tid)
    requires Inv(s) && Enabled(s, HandOver(b, to))
    ensures Inv(Apply(s, HandOver(b, to)))
  {
    var p, phase' := Owned(to), s.phase[b := Owned(to)];
    assert s.next == s.next[b := s.next[b]];
    ChainFrame(s.head, s.next, s.phase, s.chain, b, p, s.next[b]);
    forall c | 0 <= c < |s.refs| ensures BlockInv(phase'[c], s.refs[c], s.pc, c) {
      assert BlockInv(s.phase[c], s.refs[c], s.pc, c);
    }
    forall u | 0 <= u < |s.pc| ensures ThreadInv(s.next, phase', s.pc[u], u) {
      assert ThreadInv(s.next, s.phase, s.pc[u], u);
    }
  }

  lemma FinishStep(s: State, t: Tid, ok: bool)
    requires Inv(s) && Enabled(s, Finish(t, ok))
    ensures Inv(Apply(s, Finish(t, ok)))
  {
    QuietStep(s, t, Idle);
    if ok {
      var s0 := Goto(s, t, Idle);
      var n, next', refs', phase' := |s.refs|, s.next + [Null], s.refs + [0], s.phase + [Owned(t)];
      forall c | 0 <= c < |refs'| ensures BlockInv(phase'[c], refs'[c], s0.pc, c) {
        if c < n {
          assert BlockInv(s0.phase[c], s0.refs[c], s0.pc, c);
        } else {
          NoHolders(s0.pc, c);
        }
      }
      forall i | 0 <= i < |s.chain| ensures Linked(next', phase', s.chain, i) {
        assert Linked(s.next, s.phase, s.chain, i);
      }
      forall u | 0 <= u < |s0.pc| ensures ThreadInv(next', phase', s0.pc[u], u) {
        assert ThreadInv(s0.next, s0.phase, s0.pc[u], u);
      }
    }
  }

  lemma RunInv(s: State, t: Tid)
    requires Inv(s) && t < |s.pc|
    ensures Inv(Run(s, t))
  {
    match s.pc[t]
    case Idle =>
    case Allocate =>
    case PoolLoad => QuietStep(s, t, Run(s, t).pc[t]);
    case PoolTake => PoolTakeStep(s, t);
    case LoadHead => QuietStep(s, t, Run(s, t).pc[t]);
    case LoadRefs(_) => QuietStep(s, t, Run(s, t).pc[t]);
    case Acquire(_, _) => AcquireStep(s, t);
    case LoadNext(_) => LoadNextStep(s, t);
    case SwapHead(b, _) => if s.head == At(b) { SwapHeadSucceeds(s, t); } else { SwapHeadFails(s, t); }
    case DropTwo(_) => DropTwoStep(s, t);
    case DropOne(b, _) =>
      if s.refs[b] == SHOULD_BE_ON_FREELIST + 1 { DropOneInherits(s, t); } else { DropOneLeaves(s, t); }
    case SetFlag(_) => SetFlagStep(s, t);
    case ReadHead(_, _) => ReadHeadStep(s, t);
    case StoreNext(_, _, _) => StoreNextStep(s, t);
    case StoreRefs(_, _, _) => StoreRefsStep(s, t);
    case Publish(_, seen, _) => if s.head == seen { PublishSucceeds(s, t); } else { PublishFails(s, t); }
    case GiveBack(_, _, _) => GiveBackStep(s, t);
  }

  /** Every enabled action keeps the invariant. */
  lemma ApplyInv(s: State, a: Action)
    requires Inv(s) && Enabled(s, a)
    ensures Inv(Apply(s, a))
  {
    match a
    case Requisition(t) => QuietStep(s, t, PoolLoad);
    case Release(t, b) => ReleaseStep(s, t, b);
    case HandOver(b, to) => HandOverStep(s, b, to);
    case Step(t) => RunInv(s, t);
    case Finish(t, ok) => FinishStep(s, t, ok);
  }
}
