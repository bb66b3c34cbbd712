/** What the steps of an implicit queue leave unchanged: elements, consumers, places and counts. */
module ImplicitFrames {
  import opened Basics
  import opened Blocks
  import opened Sequences
  import opened Deliveries
  import opened ImplicitQueue
  import opened ImplicitInvariant
  import opened ImplicitIndex

  // ---- Elements ----

  ghost function Put(order: seq<Block>, cells: seq<seq<Cell>>, i: nat, x: Cell): (r: seq<seq<Cell>>)
    requires Num(i) < |order| && order[Num(i)] < |cells| && |cells[order[Num(i)]]| == BLOCK_SIZE
    ensures |r| == |cells| && forall b :: 0 <= b < |cells| ==> |r[b]| == |cells[b]|
  {
    cells[order[Num(i)] := cells[order[Num(i)]][Off(i) := x]]
  }

  ghost predicate Placed(order: seq<Block>, where: seq<int>, cells: seq<seq<Cell>>, i: nat) {
    && Num(i) < |order|
    && var b := order[Num(i)];
    && b < |where| && b < |cells| && where[b] == Num(i) && |cells[b]| == BLOCK_SIZE
  }

  /** Writing the cell of index j leaves the cells of other indices alone. */
  lemma CellsFrame(order: seq<Block>, where: seq<int>, cells: seq<seq<Cell>>, elems: seq<Elem>, j: nat, x: Cell, from: nat, to: nat)
    requires Placed(order, where, cells, j) && !(from <= j < to)
    requires CellsOn(order, where, cells, elems, from, to)
    ensures CellsOn(order, where, Put(order, cells, j, x), elems, from, to)
  {
    var cells' := Put(order, cells, j, x);
    forall i | from <= i < to ensures CellOk(order, where, cells', elems, i) {
      assert CellOk(order, where, cells, elems, i);
      if Num(i) == Num(j) {
        SameSpot(i, j);
      }
    }
  }

  lemma CellsMoreElems(order: seq<Block>, where: seq<int>, cells: seq<seq<Cell>>, elems: seq<Elem>, e: Elem, from: nat, to: nat)
    requires CellsOn(order, where, cells, elems, from, to)
    ensures CellsOn(order, where, cells, elems + [e], from, to)
  {
    forall i | from <= i < to ensures CellOk(order, where, cells, elems + [e], i) {
      assert CellOk(order, where, cells, elems, i);
    }
  }

  /** The block of number n stays where it is, with what it holds. */
  ghost predicate Stays(order: seq<Block>, where: seq<int>, cells: seq<seq<Cell>>,
                        order': seq<Block>, where': seq<int>, cells': seq<seq<Cell>>, n: nat) {
    n < |order| && order[n] < |where| && order[n] < |cells| && where[order[n]] == n ==>
      && n < |order'| && order'[n] == order[n] && order[n] < |where'| && where'[order[n]] == n
      && order[n] < |cells'| && cells'[order[n]] == cells[order[n]]
  }

  lemma CellsStay(order: seq<Block>, where: seq<int>, cells: seq<seq<Cell>>, elems: seq<Elem>,
                  order': seq<Block>, where': seq<int>, cells': seq<seq<Cell>>, from: nat, to: nat)
    requires CellsOn(order, where, cells, elems, from, to)
    requires forall i :: from <= i < to ==> Stays(order, where, cells, order', where', cells', Num(i))
    ensures CellsOn(order', where', cells', elems, from, to)
  {
    forall i | from <= i < to ensures CellOk(order', where', cells', elems, i) {
      assert CellOk(order, where, cells, elems, i);
      assert Stays(order, where, cells, order', where', cells', Num(i));
    }
  }

  // ---- Consumers ----

  lemma StageHeaders(headers: seq<Header>, headers': seq<Header>, order: seq<Block>, phase: seq<Phase>, t: Tid, c: Consumer)
    requires StageOk(headers, order, phase, t, c) && HeadersExtend(headers, headers', |phase| - 1)
    requires c.Busy? ==> c.first < c.end && Num(c.end - 1) < |phase|
    ensures StageOk(headers', order, phase, t, c)
  {
    if c.Busy? && !c.stage.LoadHeader? && c.stage.h < |headers| {
      assert Extends(headers[c.stage.h], headers'[c.stage.h], |phase| - 1);
    }
  }

  /** A change of the index only. */
  lemma ConsumersHeaders(order: seq<Block>, where: seq<int>, phase: seq<Phase>, cells: seq<seq<Cell>>, elems: seq<Elem>,
                         owner: seq<Tid>, done: seq<bool>, headers: seq<Header>, headers': seq<Header>, cons: seq<Consumer>)
    requires ConsumersOk(order, where, phase, cells, elems, owner, done, headers, cons)
    requires HeadersExtend(headers, headers', |phase| - 1)
    ensures ConsumersOk(order, where, phase, cells, elems, owner, done, headers', cons)
  {
    forall t | 0 <= t < |cons| ensures ConsumerOk(order, where, phase, cells, elems, owner, done, headers', t, cons[t]) {
      assert ConsumerOk(order, where, phase, cells, elems, owner, done, headers, t, cons[t]);
      StageHeaders(headers, headers', order, phase, t, cons[t]);
    }
  }

  /** A change of the blocks of later numbers only. */
  lemma ConsumersStay(order: seq<Block>, where: seq<int>, phase: seq<Phase>, cells: seq<seq<Cell>>, elems: seq<Elem>,
                      owner: seq<Tid>, done: seq<bool>, headers: seq<Header>, cons: seq<Consumer>,
                      order': seq<Block>, where': seq<int>, cells': seq<seq<Cell>>)
    requires ConsumersOk(order, where, phase, cells, elems, owner, done, headers, cons)
    requires |phase| <= |order| && |phase| <= |order'| && order[..|phase|] == order'[..|phase|]
    requires forall n :: 0 <= n < |phase| ==> Stays(order, where, cells, order', where', cells', n)
    ensures ConsumersOk(order', where', phase, cells', elems, owner, done, headers, cons)
  {
    assert forall n :: 0 <= n < |phase| ==> order[n] == order[..|phase|][n];
    assert forall n :: 0 <= n < |phase| ==> order'[n] == order'[..|phase|][n];
    forall t | 0 <= t < |cons| ensures ConsumerOk(order', where', phase, cells', elems, owner, done, headers, t, cons[t]) {
      var c := cons[t];
      assert ConsumerOk(order, where, phase, cells, elems, owner, done, headers, t, c);
      if c.Busy? {
        JobStays(order, where, cells, elems, owner, done, |phase|, t, c, order', where', cells');
        StageStays(headers, order, order', phase, t, c);
      }
    }
  }

  lemma StageStays(headers: seq<Header>, order: seq<Block>, order': seq<Block>, phase: seq<Phase>, t: Tid, c: Consumer)
    requires StageOk(headers, order, phase, t, c) && c.Busy? && c.first <= c.from <= c.index <= c.end && c.first < c.end
    requires Num(c.end - 1) < |phase|
    requires |phase| <= |order| && |phase| <= |order'| && forall n :: 0 <= n < |phase| ==> order[n] == order'[n]
    ensures StageOk(headers, order', phase, t, c)
  {
    if c.from < c.end {
      NumMonotone(c.from, c.end - 1);
    }
  }

  lemma JobStays(order: seq<Block>, where: seq<int>, cells: seq<seq<Cell>>, elems: seq<Elem>, owner: seq<Tid>, done: seq<bool>,
                 n: nat, t: Tid, c: Consumer, order': seq<Block>, where': seq<int>, cells': seq<seq<Cell>>)
    requires JobOk(order, where, cells, elems, owner, done, n, t, c) && c.Busy?
    requires forall m :: 0 <= m < n ==> Stays(order, where, cells, order', where', cells', m)
    ensures JobOk(order', where', cells', elems, owner, done, n, t, c)
  {
    forall i | c.index <= i < c.end ensures Stays(order, where, cells, order', where', cells', Num(i)) {
      NumMonotone(i, c.end - 1);
    }
    CellsStay(order, where, cells, elems, order', where', cells', c.index, c.end);
  }

  /** One more element is constructed. */
  lemma ConsumersConstruct(order: seq<Block>, where: seq<int>, phase: seq<Phase>, cells: seq<seq<Cell>>, elems: seq<Elem>, e: Elem,
                           owner: seq<Tid>, done: seq<bool>, headers: seq<Header>, cons: seq<Consumer>)
    requires ConsumersOk(order, where, phase, cells, elems, owner, done, headers, cons)
    requires Placed(order, where, cells, |elems|) && |owner| <= |elems|
    ensures ConsumersOk(order, where, phase, Put(order, cells, |elems|, Full(e)), elems + [e], owner, done, headers, cons)
  {
    var cells' := Put(order, cells, |elems|, Full(e));
    forall t | 0 <= t < |cons| ensures ConsumerOk(order, where, phase, cells', elems + [e], owner, done, headers, t, cons[t]) {
      var c := cons[t];
      assert ConsumerOk(order, where, phase, cells, elems, owner, done, headers, t, c);
      if c.Busy? {
        CellsFrame(order, where, cells, elems, |elems|, Full(e), c.index, c.end);
        CellsMoreElems(order, where, cells', elems, e, c.index, c.end);
        assert (elems + [e])[c.first..c.index] == elems[c.first..c.index];
      }
    }
  }

  /** The elements of one operation are published. */
  lemma ConsumersPublish(order: seq<Block>, where: seq<int>, phase: seq<Phase>, more: nat, cells: seq<seq<Cell>>, elems: seq<Elem>,
                         owner: seq<Tid>, done: seq<bool>, headers: seq<Header>, cons: seq<Consumer>)
    requires ConsumersOk(order, where, phase, cells, elems, owner, done, headers, cons)
    ensures ConsumersOk(order, where, phase + Repeat(more, Live), cells, elems, owner, done, headers, cons)
  {
    var phase' := phase + Repeat(more, Live);
    forall t | 0 <= t < |cons| ensures ConsumerOk(order, where, phase', cells, elems, owner, done, headers, t, cons[t]) {
      assert ConsumerOk(order, where, phase, cells, elems, owner, done, headers, t, cons[t]);
    }
  }

  // ---- Counting ----

  lemma UndoneMore(done: seq<bool>, more: seq<bool>, i: nat, j: nat)
    requires Undone(done, i, j)
    ensures Undone(done + more, i, j)
  {
    forall k | i <= k < j ensures NotDone(done + more, k) {
      assert NotDone(done, k);
    }
  }

  /** Flagging some indices leaves the others as they were. */
  lemma UndoneBeside(done: seq<bool>, from: nat, index: nat, i: nat, j: nat)
    requires Undone(done, i, j) && from <= index <= |done| && (j <= from || index <= i)
    ensures Undone(Flagged(done, from, index - from), i, j)
  {
    var done' := Flagged(done, from, index - from);
    forall k | i <= k < j ensures NotDone(done', k) {
      assert NotDone(done, k);
    }
  }

  lemma {:induction false} CountBound(done: seq<bool>, a: nat, b: nat)
    ensures Count(done, a, b) <= if a <= b then b - a else 0
    decreases b - a
  {
    if a < b {
      CountBound(done, a + 1, b);
    }
  }

  ghost predicate IsDone(done: seq<bool>, i: nat) {
    i < |done| && done[i]
  }

  /** The count is complete exactly when every index is done. */
  lemma {:induction false} CountFull(done: seq<bool>, a: nat, b: nat)
    requires a <= b
    ensures Count(done, a, b) == b - a <==> forall i :: a <= i < b ==> IsDone(done, i)
    decreases b - a
  {
    if a < b {
      CountBound(done, a + 1, b);
      CountFull(done, a + 1, b);
      assert IsDone(done, a) <==> Count(done, a, b) == 1 + Count(done, a + 1, b);
    }
  }

  lemma {:induction false} CountSame(done: seq<bool>, done': seq<bool>, a: nat, b: nat)
    requires forall i :: a <= i < b ==> (i < |done| && done[i] <==> i < |done'| && done'[i])
    ensures Count(done, a, b) == Count(done', a, b)
    decreases b - a
  {
    if a < b {
      CountSame(done, done', a + 1, b);
    }
  }

  lemma {:induction false} CountNone(done: seq<bool>, a: nat, b: nat)
    requires forall i :: a <= i < b ==> i >= |done| || !done[i]
    ensures Count(done, a, b) == 0
    decreases b - a
  {
    if a < b {
      CountNone(done, a + 1, b);
    }
  }

  /** Flagging indices [i, j) that were not done adds j - i to the count of any range around them. */
  lemma {:induction false} CountFlagged(done: seq<bool>, i: nat, j: nat, a: nat, b: nat)
    requires i <= j <= |done| && Undone(done, i, j) && a <= b
    requires (a <= i && j <= b) || i == j
    ensures Count(Flagged(done, i, j - i), a, b) == Count(done, a, b) + (j - i)
    decreases b - a
  {
    var done' := Flagged(done, i, j - i);
    if a < b {
      if a < i || i == j {
        CountFlagged(done, i, j, a + 1, b);
      } else {
        assert NotDone(done, i);
        var after := Flagged(done, i + 1, j - (i + 1));
        CountSame(done', after, a + 1, b);
        CountFlagged(done, i + 1, j, a + 1, b);
      }
    }
  }
}
