module ImplicitDestructor {
  /** Destroying an implicit producer that nobody uses any more. */

  import opened Basics
  import opened Blocks
  import opened Deliveries
  import opened ImplicitQueue
  import opened ImplicitInvariant
  import opened ImplicitIndex
  import opened ImplicitFrames
  import opened ImplicitRuns
  import Circular

  /** What is at an index that has not been dequeued, and how the destructor finds it. */
  lemma RemainingElement(s: State, i: nat)
    requires Inv(s) && s.prod.Ready? && s.head <= i < s.tail
    ensures var n := Num(i);
            && n < |s.phase| == |s.order| && s.lo <= n && s.headers != []
            && var h := Last(s.headers);
            && CanLook(h, s.keys, h.tail)
            && var e := h.index[LookFrom(h, s.keys, h.tail, Base(n))];
            && e < |s.vals| && s.vals[e] == Is(s.order[n])
            && s.order[n] < |s.cells| && Off(i) < |s.cells[s.order[n]]| && i < |s.elems|
            && s.cells[s.order[n]][Off(i)] == Full(s.elems[i])
  {
    var n := Num(i);
    assert CellOk(s.order, s.where, s.cells, s.elems, i);
    assert PhaseAt(s.phase, s.order, s.counters, s.done, s.lo, n);
    var h := s.headers[|s.headers| - 1];
    assert HeaderOk(h, s.ent, s.lo, |s.keys|);
    LookupFinds(h, s.ent, s.lo, s.keys, h.tail, |s.phase| - 1, n);
    assert ValueAt(s.vals, s.ent, s.order, s.phase, |s.phase|, n);
  }

  /** The blocks of numbers from that of `head` on are those that neither the pool nor others have, each once. */
  lemma RemainingBlocks(s: State)
    requires Inv(s) && HistoryInv(s) && Quiet(s)
    ensures Num(s.head) <= |s.phase| == |s.order|
    ensures var left := s.order[Num(s.head)..];
            && (forall i, j :: 0 <= i < j < |left| ==> left[i] != left[j])
            && (forall b :: b in left ==> b < |s.where|)
            && (forall b :: 0 <= b < |s.where| ==> (b in left <==> b !in s.pool && s.where[b] != ELSEWHERE))
  {
    var first := Num(s.head);
    NumAtLeast(s.head, |s.phase| + 1);
    var left := s.order[first..];
    forall n | first <= n < |s.order| ensures s.order[n] < |s.where| && s.where[s.order[n]] == n {
      QuietPhases(s, n);
      NumAtLeast(s.head, n + 1);
      assert NumberAt(s.order, s.phase, s.where, 0, n);
    }
    forall b | 0 <= b < |s.where| ensures b in left <==> b !in s.pool && s.where[b] != ELSEWHERE {
      assert PlaceAt(s.order, s.phase, s.where, s.pool, 0, b);
      if b !in s.pool && s.where[b] != ELSEWHERE {
        QuietPhases(s, s.where[b]);
        NumAtLeast(s.head, s.where[b] + 1);
        assert left[s.where[b] - first] == b;
      }
    }
  }

  lemma OnBoundary(i: nat)
    ensures Num(i) == i / BLOCK_SIZE && Off(i) == i % BLOCK_SIZE
    ensures Circular.BlockBase(i, BLOCK_SIZE) == Base(Num(i))
  {
    NumIsQuotient(i);
    BaseIsProduct(Num(i));
  }

  /** The block of the last element dequeued or destroyed below `index`. */
  ghost function Before(index: nat): nat
    requires index > 0
  {
    Num(index - 1)
  }

  lemma Stepping(index: nat)
    requires index > 0
    ensures Num(index) == if Off(index) == 0 then Before(index) + 1 else Before(index)
  {
    if Off(index) == 0 {
      NextBlockNum(index - 1);
    } else {
      NextInBlock(index - 1);
    }
  }

  /** The last block in order is the tail block, and it is a remaining one unless its end was reached. */
  lemma LastBlock(s: State)
    requires Inv(s) && s.prod.Ready?
    ensures s.tail > 0 ==> |s.order| > 0 && Before(s.tail) == |s.order| - 1
    ensures s.tailBlock == if |s.order| > 0 then At(s.order[|s.order| - 1]) else Null
    ensures s.head == s.tail && Off(s.tail) == 0 ==> Num(s.head) == |s.order|
    ensures s.head == s.tail && Off(s.tail) != 0 ==> |s.order| > 0 && Num(s.head) == |s.order| - 1
  {
    if s.tail > 0 {
      NumUnique(s.tail - 1, |s.phase| - 1);
    }
    if Off(s.tail) == 0 {
      BlocksForUnique(s.tail, Num(s.tail));
    } else {
      BlocksForUnique(s.tail, Num(s.tail) + 1);
    }
  }

  lemma BlockOffset(i: nat)
    ensures i % BLOCK_SIZE == Off(i)
  {
    NumIsQuotient(i);
  }

  /** The element at an index, where the destructor looks for it. */
  lemma TakesElement(s: State, index: nat)
    requires Inv(s) && s.prod.Ready? && s.head <= index < s.tail
    ensures index % BLOCK_SIZE == Off(index) && Num(index) < |s.order| && s.order[Num(index)] < |s.cells| && index < |s.elems|
    ensures Off(index) < |s.cells[s.order[Num(index)]]| && s.cells[s.order[Num(index)]][Off(index)] == Full(s.elems[index])
  {
    RemainingElement(s, index);
    BlockOffset(index);
  }

  lemma SliceMore<T>(xs: seq<T>, a: nat, b: nat)
    requires a <= b < |xs|
    ensures xs[a..b] + [xs[b]] == xs[a..b + 1]
  {
  }

  /** The block of an index that has not been dequeued, through the block index. */
  method FindBlock(s: State, index: nat) returns (block: Ptr)
    requires Inv(s) && s.prod.Ready? && s.head <= index < s.tail
    ensures Num(index) < |s.order| && block == At(s.order[Num(index)])
  {
    RemainingElement(s, index);
    OnBoundary(index);
    var h := Last(s.headers);
    block := At(s.vals[h.index[LookFrom(h, s.keys, h.tail, Circular.BlockBase(index, BLOCK_SIZE))]].block);
  }

  /**
    The destructor destroys exactly the elements that were not dequeued, in order, and returns to
    the pool exactly the blocks that neither it nor another producer has, each once.
   */
  method Destroy(s: State) returns (destroyed: seq<Elem>, freed: seq<Block>)
    requires Inv(s) && HistoryInv(s) && Quiet(s)
    ensures s.head <= s.tail <= |s.elems| && destroyed == s.elems[s.head..s.tail]
    ensures forall i, j :: 0 <= i < j < |freed| ==> freed[i] != freed[j]
    ensures forall b :: b in freed ==> b < |s.where|
    ensures forall b :: 0 <= b < |s.where| ==> (b in freed <==> b !in s.pool && s.where[b] != ELSEWHERE)
  {
    RemainingBlocks(s);
    LastBlock(s);
    destroyed, freed := [], [];
    var index, block := s.head, Null;
    var forceFreeLastBlock := index != s.tail;
    while index != s.tail
      invariant s.head <= index <= s.tail <= |s.elems|
      invariant destroyed == s.elems[s.head..index]
      invariant index == s.head ==> block == Null && freed == []
      invariant index > s.head ==> Before(index) < |s.order| && block == At(s.order[Before(index)])
      invariant index > s.head ==> Num(s.head) <= Before(index) && freed == s.order[Num(s.head)..Before(index)]
      decreases s.tail - index
    {
      TakesElement(s, index);
      if index > 0 {
        Stepping(index);
      }
      if index % BLOCK_SIZE == 0 || block == Null {
        if block.At? {
          SliceMore(s.order, Num(s.head), Before(index));
          freed := freed + [block.block];
        }
        block := FindBlock(s, index);
      }
      SliceMore(s.elems, s.head, index);
      destroyed := destroyed + [s.cells[block.block][index % BLOCK_SIZE].elem];
      index := index + 1;
    }
    BlockOffset(s.tail);
    if s.tailBlock.At? && (forceFreeLastBlock || s.tail % BLOCK_SIZE != 0) {
      freed := freed + [s.tailBlock.block];
    }
    assert freed == s.order[Num(s.head)..];
  }
}
