/**
  The shared pool of blocks: the initial array that is handed out by a counter, and the
  reference-counted lock-free free list.

  Any number of threads run `requisition_block` and `add_block_to_free_list`. Every atomic
  operation of the source is one step of one thread, and a thread's program counter says
  which operation it is about to perform and which local variables it carries.
 */
module BlockPool {
  import opened Basics

  const SHOULD_BE_ON_FREELIST: nat := 0x8000_0000
  const REFS_MODULUS: nat := 0x1_0000_0000

  /** `fetch_add` on the 32-bit word `freeListRefs`. */
  function FetchAdd(word: nat, delta: int): nat {
    (word + delta) % REFS_MODULUS
  }

  /** `word & REFS_MASK` */
  function RefsOf(word: nat): nat {
    word % SHOULD_BE_ON_FREELIST
  }

  /** What a thread does once `add_knowing_refcount_is_zero` returns: leave `add`, or go on with
      the loop of `try_get` at the head it saw. */
  datatype After = Return | Resume(seen: Ptr)

  datatype Pc =
    | Idle
    // requisition_block
    | PoolLoad
    | PoolTake
    // FreeList::try_get
    | LoadHead
    | LoadRefs(node: Block)
    | Acquire(node: Block, word: nat)
    | LoadNext(node: Block)
    | SwapHead(node: Block, succ: Ptr)
    | DropTwo(node: Block)
    | DropOne(node: Block, seen: Ptr)
    // the allocation at the end of requisition_block
    | Allocate
    // FreeList::add
    | SetFlag(node: Block)
    // FreeList::add_knowing_refcount_is_zero
    | ReadHead(node: Block, after: After)
    | StoreNext(node: Block, seen: Ptr, after: After)
    | StoreRefs(node: Block, seen: Ptr, after: After)
    | Publish(node: Block, seen: Ptr, after: After)
    | GiveBack(node: Block, seen: Ptr, after: After)

  /** Where a block is. `phase` is a history variable: no step of the program reads it. */
  datatype Phase =
    | Unissued            // still in the initial array
    | Owned(owner: Tid)   // handed out, owned by a client thread
    | Adding(adder: Tid)  // one thread is inside `add` or `add_knowing_refcount_is_zero` with it
    | Listed              // on the free list
    | Unlinked(taker: Tid)// taken off the list by one thread that has not yet dropped its references
    | Waiting             // flagged; the last thread holding a reference must list it

  datatype State = State(
    poolSize: nat,
    poolIndex: nat,
    head: Ptr,
    next: seq<Ptr>,      // freeListNext, by block
    refs: seq<nat>,      // freeListRefs, by block
    pc: seq<Pc>,         // by thread
    phase: seq<Phase>,   // history variable, by block
    chain: seq<Block>    // history variable: the blocks reachable from `head`
  )

  // ---- The program ----

  /** Blocks a program counter mentions are allocated. */
  predicate PtrOk(n: nat, p: Ptr) {
    p.At? ==> p.block < n
  }

  predicate AfterOk(n: nat, a: After) {
    a.Resume? ==> PtrOk(n, a.seen)
  }

  predicate HasNode(q: Pc) {
    !(q.Idle? || q.PoolLoad? || q.PoolTake? || q.LoadHead? || q.Allocate?)
  }

  predicate HasAfter(q: Pc) {
    q.ReadHead? || q.StoreNext? || q.StoreRefs? || q.Publish? || q.GiveBack?
  }

  predicate HasSeen(q: Pc) {
    q.DropOne? || q.StoreNext? || q.StoreRefs? || q.Publish? || q.GiveBack?
  }

  predicate PcOk(n: nat, q: Pc) {
    && (HasNode(q) ==> q.node < n)
    && (HasAfter(q) ==> AfterOk(n, q.after))
    && (HasSeen(q) ==> PtrOk(n, q.seen))
    && (q.SwapHead? ==> PtrOk(n, q.succ))
    && (q.Acquire? ==> q.word < REFS_MODULUS)
  }

  ghost predicate PtrsOk(n: nat, next: seq<Ptr>) {
    forall b :: 0 <= b < |next| ==> PtrOk(n, next[b])
  }

  ghost predicate WordsOk(refs: seq<nat>) {
    forall b :: 0 <= b < |refs| ==> refs[b] < REFS_MODULUS
  }

  ghost predicate PcsOk(n: nat, pc: seq<Pc>) {
    forall t :: 0 <= t < |pc| ==> PcOk(n, pc[t])
  }

  ghost predicate WellFormed(s: State) {
    && |s.next| == |s.refs| == |s.phase|
    && s.poolSize <= |s.refs|
    && PtrOk(|s.refs|, s.head)
    && PtrsOk(|s.refs|, s.next)
    && WordsOk(s.refs)
    && PcsOk(|s.refs|, s.pc)
  }

  function Goto(s: State, t: Tid, q: Pc): State
    requires t < |s.pc|
  {
    s.(pc := s.pc[t := q])
  }

  function SetPhase(s: State, b: Block, p: Phase): State
    requires b < |s.phase|
  {
    s.(phase := s.phase[b := p])
  }

  function SetRefs(s: State, b: Block, word: nat): State
    requires b < |s.refs|
  {
    s.(refs := s.refs[b := word])
  }

  /** The head of the loop in `try_get`: leave with null, or go on with the head seen. */
  function LoopWith(seen: Ptr): Pc {
    if seen.Null? then Allocate else LoadRefs(seen.block)
  }

  function Leave(after: After): Pc {
    match after
    case Return => Idle
    case Resume(h) => LoopWith(h)
  }

  /** One atomic operation of a running thread. */
  function Run(s: State, t: Tid): State
    requires WellFormed(s) && t < |s.pc|
  {
    match s.pc[t]
    case Idle => s
    case Allocate => s
    case PoolLoad =>
      Goto(s, t, if s.poolIndex >= s.poolSize then LoadHead else PoolTake)
    case PoolTake =>
      var i := s.poolIndex;
      var s1 := s.(poolIndex := i + 1);
      if i < s.poolSize then Goto(SetPhase(s1, i, Owned(t)), t, Idle) else Goto(s1, t, LoadHead)
    case LoadHead =>
      Goto(s, t, LoopWith(s.head))
    case LoadRefs(b) =>
      var w := s.refs[b];
      Goto(s, t, if RefsOf(w) == 0 then LoadHead else Acquire(b, w))
    case Acquire(b, w) =>
      if s.refs[b] == w
      then Goto(SetRefs(s, b, FetchAdd(w, 1)), t, LoadNext(b))
      else Goto(s, t, LoadHead)
    case LoadNext(b) =>
      Goto(s, t, SwapHead(b, s.next[b]))
    case SwapHead(b, succ) =>
      if s.head == At(b)
      then Goto(SetPhase(s.(head := succ, chain := if s.chain == [] then [] else s.chain[1..]), b, Unlinked(t)),
                t, DropTwo(b))
      else Goto(s, t, DropOne(b, s.head))
    case DropTwo(b) =>
      Goto(SetPhase(SetRefs(s, b, FetchAdd(s.refs[b], -2)), b, Owned(t)), t, Idle)
    case DropOne(b, seen) =>
      var s1 := SetRefs(s, b, FetchAdd(s.refs[b], -1));
      if s.refs[b] == SHOULD_BE_ON_FREELIST + 1
      then Goto(SetPhase(s1, b, Adding(t)), t, ReadHead(b, Resume(seen)))
      else Goto(s1, t, LoopWith(seen))
    case SetFlag(b) =>
      var s1 := SetRefs(s, b, FetchAdd(s.refs[b], SHOULD_BE_ON_FREELIST));
      if s.refs[b] == 0
      then Goto(s1, t, ReadHead(b, Return))
      else Goto(SetPhase(s1, b, Waiting), t, Idle)
    case ReadHead(b, after) =>
      Goto(s, t, StoreNext(b, s.head, after))
    case StoreNext(b, seen, after) =>
      Goto(s.(next := s.next[b := seen]), t, StoreRefs(b, seen, after))
    case StoreRefs(b, seen, after) =>
      Goto(SetRefs(s, b, 1), t, Publish(b, seen, after))
    case Publish(b, seen, after) =>
      if s.head == seen
      then Goto(SetPhase(s.(head := At(b), chain := [b] + s.chain), b, Listed), t, Leave(after))
      else Goto(s, t, GiveBack(b, s.head, after))
    case GiveBack(b, seen, after) =>
      var s1 := SetRefs(s, b, FetchAdd(s.refs[b], SHOULD_BE_ON_FREELIST - 1));
      if s.refs[b] == 1
      then Goto(s1, t, StoreNext(b, seen, after))
      else Goto(SetPhase(s1, b, Waiting), t, Leave(after))
  }

  /** What can happen next. Clients start operations only when idle, and give only blocks they own. */
  datatype Action =
    | Requisition(t: Tid)
    | Release(t: Tid, b: Block)
    | HandOver(b: Block, to: Tid)
    | Step(t: Tid)
    | Finish(t: Tid, ok: bool)

  ghost predicate Enabled(s: State, a: Action) {
    match a
    case Requisition(t) => t < |s.pc| && s.pc[t] == Idle
    case Release(t, b) => t < |s.pc| && s.pc[t] == Idle && b < |s.phase| && s.phase[b] == Owned(t)
    case HandOver(b, to) => to < |s.pc| && b < |s.phase| && s.phase[b].Owned?
    case Step(t) => t < |s.pc|
    case Finish(t, _) => t < |s.pc| && s.pc[t] == Allocate
  }

  ghost function Apply(s: State, a: Action): State
    requires WellFormed(s) && Enabled(s, a)
  {
    match a
    case Requisition(t) => Goto(s, t, PoolLoad)
    case Release(t, b) => Goto(SetPhase(s, b, Adding(t)), t, SetFlag(b))
    case HandOver(b, to) => SetPhase(s, b, Owned(to))
    case Step(t) => Run(s, t)
    case Finish(t, ok) =>
      if !ok then Goto(s, t, Idle) else
      Goto(s.(next := s.next + [Null], refs := s.refs + [0], phase := s.phase + [Owned(t)]), t, Idle)
  }

  ghost predicate Init(s: State) {
    && s.poolIndex == 0 && s.head == Null && s.chain == []
    && |s.next| == |s.refs| == |s.phase| == s.poolSize
    && (forall b :: 0 <= b < |s.refs| ==> s.refs[b] == 0 && s.next[b] == Null && s.phase[b] == Unissued)
    && (forall t :: 0 <= t < |s.pc| ==> s.pc[t] == Idle)
    && |s.pc| + 2 < SHOULD_BE_ON_FREELIST
  }

  // ---- Counting the references that threads hold ----

  predicate Holds(q: Pc, b: Block) {
    (q.LoadNext? || q.SwapHead? || q.DropTwo? || q.DropOne?) && q.node == b
  }

  predicate Adds(q: Pc, b: Block) {
    (q.SetFlag? || HasAfter(q)) && q.node == b
  }

  /** How many threads hold a reference to `b` obtained in `try_get`. */
  ghost function Holders(pc: seq<Pc>, b: Block): nat {
    if pc == [] then 0
    else Holders(pc[..|pc| - 1], b) + (if Holds(pc[|pc| - 1], b) then 1 else 0)
  }

  lemma {:induction false} HoldersUpdate(pc: seq<Pc>, t: Tid, q: Pc, b: Block)
    requires t < |pc|
    ensures Holders(pc[t := q], b) + (if Holds(pc[t], b) then 1 else 0)
         == Holders(pc, b) + (if Holds(q, b) then 1 else 0)
  {
    var n := |pc| - 1;
    if t < n {
      HoldersUpdate(pc[..n], t, q, b);
      assert pc[t := q][..n] == pc[..n][t := q];
    } else {
      assert pc[t := q][..n] == pc[..n];
    }
  }

  lemma {:induction false} HoldersBound(pc: seq<Pc>, b: Block)
    ensures Holders(pc, b) <= |pc|
  {
    if pc != [] {
      HoldersBound(pc[..|pc| - 1], b);
    }
  }

  lemma {:induction false} HolderCounts(pc: seq<Pc>, t: Tid, b: Block)
    requires t < |pc| && Holds(pc[t], b)
    ensures Holders(pc, b) >= 1
  {
    if t < |pc| - 1 {
      HolderCounts(pc[..|pc| - 1], t, b);
    }
  }

  lemma {:induction false} SomeHolder(pc: seq<Pc>, b: Block) returns (t: Tid)
    requires Holders(pc, b) >= 1
    ensures t < |pc| && Holds(pc[t], b)
  {
    if Holds(pc[|pc| - 1], b) {
      t := |pc| - 1;
    } else {
      t := SomeHolder(pc[..|pc| - 1], b);
    }
  }

  lemma {:induction false} NoHolders(pc: seq<Pc>, b: Block)
    requires forall t :: 0 <= t < |pc| ==> !Holds(pc[t], b)
    ensures Holders(pc, b) == 0
  {
    if pc != [] {
      NoHolders(pc[..|pc| - 1], b);
    }
  }

  // ---- The invariant ----

  /** The word `w` of a block in phase `p`, of which `k` threads hold a reference. */
  ghost predicate WordOk(p: Phase, w: nat, k: nat, pc: seq<Pc>) {
    match p
    case Unissued => w == 0 && k == 0
    case Owned(_) => w == k
    case Listed => w == k + 1
    case Unlinked(_) => w == k + 1
    case Waiting => w == SHOULD_BE_ON_FREELIST + k && k >= 1
    case Adding(t) =>
      t < |pc| &&
      if pc[t].SetFlag? then w == k
      else if pc[t].Publish? || pc[t].GiveBack? then w == k + 1
      else w == SHOULD_BE_ON_FREELIST && k == 0
  }

  /** A block in transit belongs to the thread whose program counter says so. */
  ghost predicate PlaceOk(p: Phase, b: Block, pc: seq<Pc>) {
    && (p.Adding? ==> p.adder < |pc| && Adds(pc[p.adder], b))
    && (p.Unlinked? ==> p.taker < |pc| && pc[p.taker] == DropTwo(b))
  }

  ghost predicate BlockInv(p: Phase, w: nat, pc: seq<Pc>, b: Block) {
    WordOk(p, w, Holders(pc, b), pc) && PlaceOk(p, b, pc)
  }

  /** What thread `t` at `q` relies on. */
  ghost predicate ThreadInv(next: seq<Ptr>, phase: seq<Phase>, q: Pc, t: Tid) {
    HasNode(q) ==>
      && q.node < |next| == |phase|
      && (q.SetFlag? || HasAfter(q) ==> phase[q.node] == Adding(t))
      && (q.DropTwo? ==> phase[q.node] == Unlinked(t))
      && (q.Acquire? ==> RefsOf(q.word) != 0)
      && (q.SwapHead? ==> next[q.node] == q.succ)
      && (q.StoreRefs? || q.Publish? ==> next[q.node] == q.seen)
  }

  ghost function Link(chain: seq<Block>, i: nat): Ptr {
    if i < |chain| then At(chain[i]) else Null
  }

  ghost predicate Linked(next: seq<Ptr>, phase: seq<Phase>, chain: seq<Block>, i: nat)
    requires i < |chain|
  {
    chain[i] < |next| == |phase| && phase[chain[i]] == Listed && next[chain[i]] == Link(chain, i + 1)
  }

  ghost predicate Distinct(chain: seq<Block>) {
    forall i, j :: 0 <= i < j < |chain| ==> chain[i] != chain[j]
  }

  /** The list is a duplicate-free chain made of exactly the listed blocks. */
  ghost predicate ChainInv(head: Ptr, next: seq<Ptr>, phase: seq<Phase>, chain: seq<Block>) {
    && head == Link(chain, 0)
    && (forall i :: 0 <= i < |chain| ==> Linked(next, phase, chain, i))
    && Distinct(chain)
    && (forall b :: 0 <= b < |phase| && phase[b] == Listed ==> b in chain)
  }

  ghost predicate IssuedInv(poolIndex: nat, poolSize: nat, phase: seq<Phase>) {
    forall b :: 0 <= b < |phase| ==> (phase[b].Unissued? <==> poolIndex <= b < poolSize)
  }

  ghost predicate Blocks(phase: seq<Phase>, refs: seq<nat>, pc: seq<Pc>)
  {
    |phase| == |refs| && forall b :: 0 <= b < |refs| ==> BlockInv(phase[b], refs[b], pc, b)
  }

  ghost predicate Threads(next: seq<Ptr>, phase: seq<Phase>, pc: seq<Pc>) {
    forall t :: 0 <= t < |pc| ==> ThreadInv(next, phase, pc[t], t)
  }

  ghost predicate Inv(s: State) {
    && WellFormed(s)
    && |s.pc| + 2 < SHOULD_BE_ON_FREELIST
    && IssuedInv(s.poolIndex, s.poolSize, s.phase)
    && ChainInv(s.head, s.next, s.phase, s.chain)
    && Blocks(s.phase, s.refs, s.pc)
    && Threads(s.next, s.phase, s.pc)
  }

  lemma InitInv(s: State)
    requires Init(s)
    ensures Inv(s)
  {
    forall b | 0 <= b < |s.refs| ensures BlockInv(s.phase[b], s.refs[b], s.pc, b) {
      NoHolders(s.pc, b);
    }
  }
}
