/** What the steps of an explicit queue leave unchanged: elements, ring, index and consumers. */
module ExplicitFrames {
  import opened Basics
  import opened Blocks
  import opened Sequences
  import opened Deliveries
  import opened ExplicitQueue

  // ---- Memory frames ----

  /** Index i is the o-th place of block b. */
  ghost predicate PlaceOf(order: seq<Block>, b: Block, o: nat, i: nat) {
    Num(i) < |order| && order[Num(i)] == b && Off(i) == o
  }

  /** The cell of index i is set to x. */
  ghost function Put(order: seq<Block>, cells: seq<seq<Cell>>, i: nat, x: Cell): (r: seq<seq<Cell>>)
    requires InMemory(order, |cells|, i) && |cells[order[Num(i)]]| == BLOCK_SIZE
    ensures |r| == |cells| && forall b :: 0 <= b < |cells| ==> |r[b]| == |cells[b]|
  {
    cells[order[Num(i)] := cells[order[Num(i)]][Off(i) := x]]
  }

  lemma SpotsApart(order: seq<Block>, lo: nat, i: nat, j: nat)
    requires Distinct(order, lo) && i != j && Base(lo) <= i && Base(lo) <= j
    requires Num(i) < |order| && Num(j) < |order|
    ensures order[Num(i)] != order[Num(j)] || Off(i) != Off(j)
  {
    NumAtLeast(i, lo);
    NumAtLeast(j, lo);
    if Num(i) == Num(j) {
      SameSpot(i, j);
    } else {
      assert Apart(order, if Num(i) < Num(j) then Num(i) else Num(j), if Num(i) < Num(j) then Num(j) else Num(i));
    }
  }

  /** Writing the cell of index j leaves the cells of other live indices alone. */
  lemma CellFrame(order: seq<Block>, lo: nat, cells: seq<seq<Cell>>, elems: seq<Elem>, j: nat, x: Cell, i: nat)
    requires Distinct(order, lo) && i != j && Base(lo) <= i && Base(lo) <= j
    requires InMemory(order, |cells|, j) && |cells[order[Num(j)]]| == BLOCK_SIZE
    requires CellOk(order, cells, elems, i)
    ensures CellOk(order, Put(order, cells, j, x), elems, i)
  {
    SpotsApart(order, lo, i, j);
  }

  lemma CellsFrame(order: seq<Block>, lo: nat, cells: seq<seq<Cell>>, elems: seq<Elem>, j: nat, x: Cell, from: nat, to: nat)
    requires Distinct(order, lo) && Base(lo) <= from && Base(lo) <= j && !(from <= j < to)
    requires InMemory(order, |cells|, j) && |cells[order[Num(j)]]| == BLOCK_SIZE
    requires CellsOn(order, cells, elems, from, to)
    ensures CellsOn(order, Put(order, cells, j, x), elems, from, to)
  {
    var cells' := Put(order, cells, j, x);
    forall i | from <= i < to ensures CellOk(order, cells', elems, i) {
      assert CellOk(order, cells, elems, i);
      CellFrame(order, lo, cells, elems, j, x, i);
    }
  }

  /** Constructing one more element. */
  lemma CellsMoreElems(order: seq<Block>, cells: seq<seq<Cell>>, elems: seq<Elem>, e: Elem, from: nat, to: nat)
    requires CellsOn(order, cells, elems, from, to)
    ensures CellsOn(order, cells, elems + [e], from, to)
  {
    forall i | from <= i < to ensures CellOk(order, cells, elems + [e], i) {
      assert CellOk(order, cells, elems, i);
    }
  }

  /** New block numbers, and new memory. */
  lemma CellsGrow(order: seq<Block>, order': seq<Block>, cells: seq<seq<Cell>>, cells': seq<seq<Cell>>, elems: seq<Elem>, from: nat, to: nat)
    requires order <= order' && cells <= cells'
    requires CellsOn(order, cells, elems, from, to)
    ensures CellsOn(order', cells', elems, from, to)
  {
    forall i | from <= i < to ensures CellOk(order', cells', elems, i) {
      assert CellOk(order, cells, elems, i);
    }
  }

  lemma FlagsGrow(order: seq<Block>, order': seq<Block>, flags: seq<seq<bool>>, flags': seq<seq<bool>>, from: nat, to: nat)
    requires order <= order' && flags <= flags'
    requires FlagsOn(order, flags, from, to)
    ensures FlagsOn(order', flags', from, to)
  {
    forall i | from <= i < to ensures FlagClear(order', flags', i) {
      assert FlagClear(order, flags, i);
    }
  }

  /** Setting flags of block number n, at indices below `done`, leaves the flags from `done` on alone. */
  lemma FlagsFrame(order: seq<Block>, lo: nat, flags: seq<seq<bool>>, n: nat, fs: seq<bool>, from: nat, to: nat)
    requires Distinct(order, lo) && Base(lo) <= from && lo <= n < |order| && order[n] < |flags| && |fs| == BLOCK_SIZE
    requires FlagsOn(order, flags, from, to)
    requires forall i :: from <= i < to && Num(i) == n ==> !fs[Off(i)]
    ensures FlagsOn(order, flags[order[n] := fs], from, to)
  {
    var flags' := flags[order[n] := fs];
    forall i | from <= i < to ensures FlagClear(order, flags', i) {
      assert FlagClear(order, flags, i);
      NumAtLeast(i, lo);
      if Num(i) != n {
        assert Apart(order, if Num(i) < n then Num(i) else n, if Num(i) < n then n else Num(i));
      }
    }
  }

  // ---- Windows ----

  lemma Windows(s: State)
    requires Inv(s)
    ensures s.lo <= Live(s) <= |s.order| && Kept(s) <= Live(s) && Base(s.lo) <= Base(Live(s)) <= s.head <= s.tail
    ensures Distinct(s.order, Live(s))
    ensures s.prod.Running? ==> Live(s) <= s.prod.op.start
  {
    BaseMonotone(s.lo, Live(s));
    Below(s.tail, Live(s), |s.order|);
    if s.prod.Running? {
      Below(s.tail, Live(s), s.prod.op.start);
    }
    DistinctLater(s.order, s.lo, Live(s));
  }

  lemma Below(tail: nat, m: nat, n: nat)
    requires Base(m) <= tail <= Base(n)
    ensures m <= n
  {
    if n < m {
      BaseMonotone(n, m);
    }
  }

  lemma DistinctLater(order: seq<Block>, lo: nat, low: nat)
    requires Distinct(order, lo) && lo <= low
    ensures Distinct(order, low)
  {
    forall m, n | low <= m < n < |order| ensures Apart(order, m, n) {
      assert Apart(order, m, n);
    }
  }

  // ---- Ring frames ----

  lemma RingReuse(next: seq<Block>, order: seq<Block>, lo: nat, tailBlock: Ptr)
    requires RingOk(next, order, lo, tailBlock) && order != []
    ensures order[|order| - 1] < |next| && next[order[|order| - 1]] == order[lo]
    ensures RingOk(next, order + [order[lo]], lo + 1, At(order[lo]))
  {
    var n, lo', order' := |order|, lo + 1, order + [order[lo]];
    assert RingAt(next, order, lo, n - 1);
    forall m | lo' <= m < |order'| ensures RingAt(next, order', lo', m) {
      if m < n {
        assert RingAt(next, order, lo, m);
      } else {
        assert RingAt(next, order, lo, lo);
      }
    }
    forall m, k | lo + 1 <= m < k < |order'| ensures Apart(order', m, k) {
      if k < n {
        assert Apart(order, m, k);
      } else {
        assert Apart(order, lo, m);
      }
    }
  }

  lemma RingInsert(next: seq<Block>, order: seq<Block>, lo: nat, tailBlock: Ptr)
    requires RingOk(next, order, lo, tailBlock)
    requires tailBlock.At? ==> tailBlock.block < |next|
    ensures var next' := if tailBlock.Null? then next + [|next|]
                         else next[tailBlock.block := |next|] + [next[tailBlock.block]];
            RingOk(next', order + [|next|], lo, At(|next|))
  {
    var b, n, order' := |next|, |order|, order + [|next|];
    var next' := if tailBlock.Null? then next + [b] else next[tailBlock.block := b] + [next[tailBlock.block]];
    forall m | lo <= m < |order'| ensures RingAt(next', order', lo, m) {
      if n > 0 {
        assert RingAt(next, order, lo, n - 1);
      }
      if m < n - 1 {
        assert RingAt(next, order, lo, m);
        assert Apart(order, m, n - 1);
      }
    }
    forall m, k | lo <= m < k < |order'| ensures Apart(order', m, k) {
      assert RingAt(next, order, lo, m);
      if k < n {
        assert Apart(order, m, k);
      }
    }
  }

  // ---- Index frames ----

  lemma {:induction false} BackIsSlot(k: nat, j: nat, size: nat)
    requires size > 0 && j <= size
    ensures Back(SlotOf(k + j, size), j, size) == SlotOf(k, size)
    decreases j
  {
    if j > 0 {
      BackIsSlot(k + 1, j - 1, size);
      var next := SlotOf(k + 1, size);
      assert next == NextSlot(SlotOf(k, size), size);
    }
  }

  /** A header that is not written to, as the ring moves on. */
  lemma HeaderFrame(h: Header, order: seq<Block>, lo: nat, order': seq<Block>, lo': nat)
    requires HeaderOk(h, order, lo) && order <= order' && lo <= lo'
    ensures HeaderOk(h, order', lo')
  {
    forall n | lo' <= n < h.filled ensures EntryAt(h, order', n) {
      assert EntryAt(h, order, n);
    }
  }

  lemma HeaderWritten(h: Header, order: seq<Block>, lo: nat, lo': nat, slot: nat, b: Block)
    requires HeaderOk(h, order, lo) && h.filled == |order| && lo <= lo' <= |order| + 1
    requires h.first <= |order| && slot == SlotOf(|order| - h.first, h.size) && |order| + 1 - lo' <= h.size
    ensures slot < |h.entries|
    ensures HeaderOk(Written(h, slot, Base(|order|), b, |order|), order + [b], lo')
  {
    var h', order' := Written(h, slot, Base(|order|), b, |order|), order + [b];
    forall n | lo' <= n < h'.filled ensures EntryAt(h', order', n) {
      if n < |order| {
        assert EntryAt(h, order, n);
        SlotsDiffer(n - h.first, |order| - h.first, h.size);
      }
    }
  }

  /** Everything a consumer may know about a header stays true. */
  ghost predicate Extends(h: Header, h': Header) {
    h'.size == h.size && h'.first == h.first && h.filled <= h'.filled && h.frontNum <= h'.frontNum
  }

  ghost predicate HeadersExtend(headers: seq<Header>, headers': seq<Header>) {
    |headers| <= |headers'| && forall j :: 0 <= j < |headers| ==> Extends(headers[j], headers'[j])
  }

  lemma StageFrame(headers: seq<Header>, headers': seq<Header>, order: seq<Block>, order': seq<Block>, c: Consumer)
    requires HeadersExtend(headers, headers') && order <= order' && StageOk(headers, order, c)
    requires c.Busy? ==> c.from < c.end
    ensures StageOk(headers', order', c)
  {
    if c.Busy? && c.stage.LoadFront? { assert Extends(headers[c.stage.h], headers'[c.stage.h]); }
    if c.Busy? && c.stage.ReadBase? { assert Extends(headers[c.stage.h], headers'[c.stage.h]); }
    if c.Busy? && c.stage.ReadBlock? { assert Extends(headers[c.stage.h], headers'[c.stage.h]); }
    if c.Busy? && c.stage.Take? { assert Extends(headers[c.stage.h], headers'[c.stage.h]); }
    if c.Busy? && c.stage.SetEmpty? { assert Extends(headers[c.stage.h], headers'[c.stage.h]); }
  }

  lemma HeadersReplaceLast(headers: seq<Header>, h: Header, order: seq<Block>, lo: nat, order': seq<Block>, lo': nat)
    requires HeadersOk(headers, order, lo) && headers != [] && order <= order' && lo <= lo'
    requires HeaderOk(h, order', lo') && Extends(Last(headers), h)
    ensures HeadersOk(headers[|headers| - 1 := h], order', lo')
    ensures HeadersExtend(headers, headers[|headers| - 1 := h])
  {
    var headers' := headers[|headers| - 1 := h];
    forall j | 0 <= j < |headers'| ensures HeaderOk(headers'[j], order', lo') {
      if j < |headers| - 1 {
        HeaderFrame(headers[j], order, lo, order', lo');
      }
    }
  }

  /** Acquiring block `b` as number |order|. */
  lemma IndexAcquire(headers: seq<Header>, order: seq<Block>, lo: nat, lo': nat, slot: nat, b: Block)
    requires HeadersOk(headers, order, lo) && headers != []
    requires Last(headers).filled == |order| && Last(headers).first <= |order|
    requires slot == SlotOf(|order| - Last(headers).first, Last(headers).size)
    requires lo <= lo' <= |order| + 1 && |order| + 1 - lo' <= Last(headers).size
    ensures slot < |Last(headers).entries|
    ensures HeadersOk(headers[|headers| - 1 := Written(Last(headers), slot, Base(|order|), b, |order|)], order + [b], lo')
    ensures HeadersExtend(headers, headers[|headers| - 1 := Written(Last(headers), slot, Base(|order|), b, |order|)])
  {
    var h := Last(headers);
    assert HeaderOk(h, order, lo);
    HeaderWritten(h, order, lo, lo', slot, b);
    HeadersReplaceLast(headers, Written(h, slot, Base(|order|), b, |order|), order, lo, order + [b], lo');
  }

  lemma CurrentAcquire(headers: seq<Header>, h': Header, order: seq<Block>, lo: nat, lo': nat, tail: nat,
                       used: nat, used': nat, size: nat, slot: nat, b: Block)
    requires CurrentOk(headers, order, lo, tail, used, size, slot) && headers != []
    requires lo' <= |order| + 1 && used' == |order| + 1 - lo' <= size
    requires h'.size == size && h'.filled == |order| + 1 && h'.first == Last(headers).first && h'.frontNum == Last(headers).frontNum
    ensures CurrentOk(headers[|headers| - 1 := h'], order + [b], lo', tail, used', size, NextSlot(slot, size))
  {
    var k := |order| - h'.first;
    assert SlotOf(k + 1, size) == NextSlot(SlotOf(k, size), size);
  }

  /** A window that starts later asks less of the headers. */
  lemma HeadersLater(headers: seq<Header>, order: seq<Block>, low: nat, low': nat)
    requires HeadersOk(headers, order, low) && low <= low'
    ensures HeadersOk(headers, order, low')
  {
    forall j | 0 <= j < |headers| ensures HeaderOk(headers[j], order, low') {
      HeaderFrame(headers[j], order, low, order, low');
    }
  }

  /** The copied entries are in the slots of the new index that belong to them. */
  lemma GrownEntries(h: Header, order: seq<Block>, lo: nat, low: nat, used: nat, slot: nat, h': Header)
    requires HeaderOk(h, order, low) && h.filled == |order| && used == |order| - lo <= h.size && lo <= |order|
    requires slot < h.size && slot == SlotOf(|order| - h.first, h.size) && h.first <= |order|
    requires h'.size == 2 * h.size && h'.first == lo && h'.filled == |order| && h'.entries == Copied(h.entries, slot, used, 2 * h.size)
    ensures forall n :: low <= n < |order| && lo <= n ==> EntryAt(h', order, n)
  {
    forall n | low <= n < |order| && lo <= n ensures EntryAt(h', order, n) {
      assert EntryAt(h, order, n);
      GrownEntry(h, order, lo, used, slot, h', n);
    }
  }

  lemma GrownEntry(h: Header, order: seq<Block>, lo: nat, used: nat, slot: nat, h': Header, n: nat)
    requires h.size > 0 && |h.entries| == h.size && used == |order| - lo <= h.size && lo <= n < |order| && EntryAt(h, order, n)
    requires slot < h.size && slot == SlotOf(|order| - h.first, h.size) && h.first <= |order|
    requires h'.size == 2 * h.size && h'.first == lo && h'.entries == Copied(h.entries, slot, used, 2 * h.size)
    ensures EntryAt(h', order, n)
  {
    BackIsSlot(n - h.first, |order| - n, h.size);
    SmallSlot(n - lo, 2 * h.size);
  }

  /** Doubling the index. The new one has no entries for numbers that have left the ring. */
  lemma IndexGrow(headers: seq<Header>, order: seq<Block>, lo: nat, low: nat, tail: nat, used: nat, size: nat, slot: nat, used0: nat, h': Header)
    requires HeadersOk(headers, order, low) && CurrentOk(headers, order, lo, tail, used, size, slot)
    requires used > 0 ==> slot < |Last(headers).entries| && used <= |Last(headers).entries|
    requires headers == [] || used == size
    requires used0 <= used && tail <= Base(lo + used0) && (used > 0 ==> headers != [])
    requires h' == Header(2 * size, used0 - 1, Copied(if headers == [] then [] else Last(headers).entries, slot, used, 2 * size),
                          lo, |order|, lo + used0 - 1)
    ensures HeadersOk(headers + [h'], order, Max(low, lo))
    ensures HeadersExtend(headers, headers + [h'])
    ensures CurrentOk(headers + [h'], order, lo, tail, used, 2 * size, used)
  {
    if headers != [] {
      GrownEntries(headers[|headers| - 1], order, lo, low, used, slot, h');
    }
    if used0 > 0 {
      SmallSlot(used0 - 1, 2 * size);
    }
    SmallSlot(used, 2 * size);
    HeadersLater(headers, order, low, Max(low, lo));
  }

  /** Publishing the front. */
  lemma IndexPublish(headers: seq<Header>, h': Header, order: seq<Block>, low: nat, slot: nat, size: nat)
    requires HeadersOk(headers, order, low) && headers != [] && low < |order|
    requires Last(headers).filled == |order| && Last(headers).size == size > 0
    requires slot == SlotOf(|order| - Last(headers).first, size)
    requires h' == Last(headers).(front := Back(slot, 1, size), frontNum := |order| - 1)
    ensures HeadersOk(headers[|headers| - 1 := h'], order, low)
    ensures HeadersExtend(headers, headers[|headers| - 1 := h'])
  {
    var h := Last(headers);
    assert HeaderOk(h, order, low);
    BackIsSlot(|order| - 1 - h.first, 1, size);
    forall n | low <= n < h'.filled ensures EntryAt(h', order, n) {
      assert EntryAt(h, order, n);
    }
    HeadersReplaceLast(headers, h', order, low, order, low);
  }

  lemma CurrentPublish(headers: seq<Header>, h': Header, order: seq<Block>, lo: nat, tail: nat, used: nat, size: nat, slot: nat)
    requires CurrentOk(headers, order, lo, tail, used, size, slot) && headers != []
    requires h'.size == size && h'.filled == |order| && h'.first == Last(headers).first && h'.frontNum == |order| - 1
    requires tail <= Base(|order|)
    ensures CurrentOk(headers[|headers| - 1 := h'], order, lo, tail, used, size, slot)
  {
  }

  // ---- Consumer frames ----

  lemma JobGrow(order: seq<Block>, order': seq<Block>, flags: seq<seq<bool>>, flags': seq<seq<bool>>,
                cells: seq<seq<Cell>>, cells': seq<seq<Cell>>, elems: seq<Elem>, owner: seq<Tid>,
                lo: nat, lo': nat, t: Tid, c: Consumer)
    requires JobOk(order, flags, cells, elems, owner, lo, t, c)
    requires order <= order' && flags <= flags' && cells <= cells'
    requires c.Busy? ==> Base(lo') <= c.from
    ensures JobOk(order', flags', cells', elems, owner, lo', t, c)
  {
    if c.Busy? {
      CellsGrow(order, order', cells, cells', elems, c.index, c.end);
      FlagsGrow(order, order', flags, flags', c.from, c.end);
    }
  }

  /** A block all of whose flags are set holds no index that is still needed. */
  lemma EmptyBlockIsDone(order: seq<Block>, lo: nat, flags: seq<seq<bool>>, from: nat, to: nat)
    requires lo < |order| && order[lo] < |flags| && AllSet(flags[order[lo]])
    requires Base(lo) <= from < to && FlagsOn(order, flags, from, to)
    ensures Base(lo + 1) <= from
  {
    assert FlagClear(order, flags, from);
    if from < Base(lo + 1) {
      NumUnique(from, lo);
    }
  }

  lemma JobReset(order: seq<Block>, flags: seq<seq<bool>>, cells: seq<seq<Cell>>, elems: seq<Elem>, owner: seq<Tid>,
                 lo: nat, t: Tid, c: Consumer, n: nat)
    requires Distinct(order, lo) && lo <= n < |order| && order[n] < |flags|
    requires JobOk(order, flags, cells, elems, owner, lo, t, c)
    ensures JobOk(order, flags[order[n] := Repeat(BLOCK_SIZE, false)], cells, elems, owner, lo, t, c)
  {
    if c.Busy? {
      FlagsFrame(order, lo, flags, n, Repeat(BLOCK_SIZE, false), c.from, c.end);
    }
  }

  lemma JobConstruct(order: seq<Block>, flags: seq<seq<bool>>, cells: seq<seq<Cell>>, elems: seq<Elem>, e: Elem,
                     owner: seq<Tid>, lo: nat, t: Tid, c: Consumer)
    requires Distinct(order, lo) && Base(lo) <= |elems| && |owner| <= |elems|
    requires InMemory(order, |cells|, |elems|) && |cells[order[Num(|elems|)]]| == BLOCK_SIZE
    requires JobOk(order, flags, cells, elems, owner, lo, t, c)
    ensures JobOk(order, flags, Put(order, cells, |elems|, Full(e)), elems + [e], owner, lo, t, c)
  {
    if c.Busy? {
      CellsFrame(order, lo, cells, elems, |elems|, Full(e), c.index, c.end);
      CellsMoreElems(order, Put(order, cells, |elems|, Full(e)), elems, e, c.index, c.end);
      assert (elems + [e])[c.first..c.index] == elems[c.first..c.index];
    }
  }

  /** Another consumer destroys the element at index `j` that it owns. */
  lemma JobTaken(order: seq<Block>, flags: seq<seq<bool>>, cells: seq<seq<Cell>>, elems: seq<Elem>, owner: seq<Tid>,
                 lo: nat, u: Tid, c: Consumer, t: Tid, j: nat)
    requires Distinct(order, lo) && u != t && Base(lo) <= j < |owner| && owner[j] == t
    requires InMemory(order, |cells|, j) && |cells[order[Num(j)]]| == BLOCK_SIZE
    requires JobOk(order, flags, cells, elems, owner, lo, u, c)
    ensures JobOk(order, flags, Put(order, cells, j, Raw), elems, owner, lo, u, c)
  {
    if c.Busy? {
      CellsFrame(order, lo, cells, elems, j, Raw, c.index, c.end);
    }
  }

  /** Setting the flags of indices [from, index), all in one block, leaves the flags of other indices alone. */
  lemma FlaggedFrame(order: seq<Block>, lo: nat, flags: seq<seq<bool>>, from: nat, index: nat, i: nat, j: nat)
    requires Distinct(order, lo) && Base(lo) <= from < index && Base(lo) <= i
    requires Num(index - 1) == Num(from) && InMemory(order, |flags|, from) && |flags[order[Num(from)]]| == BLOCK_SIZE
    requires j <= from || index <= i
    requires FlagsOn(order, flags, i, j)
    ensures Off(from) + (index - from) <= BLOCK_SIZE
    ensures FlagsOn(order, flags[order[Num(from)] := Flagged(flags[order[Num(from)]], Off(from), index - from)], i, j)
  {
    var n := Num(from);
    NumAtLeast(from, lo);
    var fs := Flagged(flags[order[n]], Off(from), index - from);
    forall k | i <= k < j && Num(k) == n ensures !fs[Off(k)] {
      assert FlagClear(order, flags, k);
      assert k == Base(n) + Off(k) && from == Base(n) + Off(from);
    }
    FlagsFrame(order, lo, flags, n, fs, i, j);
  }

  lemma JobFlagged(order: seq<Block>, flags: seq<seq<bool>>, cells: seq<seq<Cell>>, elems: seq<Elem>, owner: seq<Tid>,
                   lo: nat, u: Tid, c: Consumer, t: Tid, from: nat, index: nat)
    requires Distinct(order, lo) && u != t && Base(lo) <= from < index <= |owner|
    requires forall k :: from <= k < index ==> owner[k] == t
    requires Num(index - 1) == Num(from) && InMemory(order, |flags|, from) && |flags[order[Num(from)]]| == BLOCK_SIZE
    requires JobOk(order, flags, cells, elems, owner, lo, u, c)
    ensures Off(from) + (index - from) <= BLOCK_SIZE
    ensures JobOk(order, flags[order[Num(from)] := Flagged(flags[order[Num(from)]], Off(from), index - from)], cells, elems, owner, lo, u, c)
  {
    NumAtLeast(from, lo);
    if c.Busy? {
      OwnersApart(owner, from, index, t, c.from, c.end, u);
      FlaggedFrame(order, lo, flags, from, index, c.from, c.end);
    }
  }
}
