/** The consumers' steps keep the invariant of an implicit queue. */
module ImplicitConsumer {
  import opened Basics
  import opened Blocks
  import opened Sequences
  import opened Deliveries
  import opened ImplicitQueue
  import opened ImplicitInvariant
  import opened ImplicitIndex
  import opened ImplicitFrames

  // ---- Frames ----

  ghost predicate IsFreer(c: Consumer) {
    c.Busy? && (c.stage.NullEntry? || c.stage.AddBlock?)
  }

  /** A consumer that has no empty block in hand changes its state. */
  lemma FreersUnmoved(phase: seq<Phase>, cons: seq<Consumer>, t: Tid, c': Consumer)
    requires FreersOk(phase, cons) && t < |cons| && !IsFreer(cons[t])
    ensures FreersOk(phase, cons[t := c'])
  {
    var cons' := cons[t := c'];
    forall n | 0 <= n < |phase| ensures FreerAt(phase, cons', n) {
      assert FreerAt(phase, cons, n);
    }
  }

  /** Consumer t moves on with the block of number n, which gets a new phase. */
  lemma FreersMove(phase: seq<Phase>, cons: seq<Consumer>, t: Tid, c': Consumer, n: nat, p: Phase)
    requires FreersOk(phase, cons) && t < |cons| && n < |phase|
    requires IsFreer(cons[t]) ==> cons[t].stage.num == n
    requires p.Draining? ==> p.who == t && c'.Busy? && c'.stage.NullEntry? && c'.stage.num == n
    requires p.Loose? ==> p.who == t && c'.Busy? && c'.stage.AddBlock? && c'.stage.num == n
    ensures FreersOk(phase[n := p], cons[t := c'])
  {
    var phase', cons' := phase[n := p], cons[t := c'];
    forall m | 0 <= m < |phase| ensures FreerAt(phase', cons', m) {
      assert FreerAt(phase, cons, m);
    }
  }

  /** A consumer replaces its own state, and nothing the others rely on changes. */
  lemma OneConsumer(order: seq<Block>, where: seq<int>, phase: seq<Phase>, cells: seq<seq<Cell>>, elems: seq<Elem>,
                    owner: seq<Tid>, done: seq<bool>, headers: seq<Header>, cons: seq<Consumer>, t: Tid, c': Consumer)
    requires ConsumersOk(order, where, phase, cells, elems, owner, done, headers, cons) && t < |cons|
    requires ConsumerOk(order, where, phase, cells, elems, owner, done, headers, t, c')
    ensures ConsumersOk(order, where, phase, cells, elems, owner, done, headers, cons[t := c'])
  {
    var cons' := cons[t := c'];
    forall u | 0 <= u < |cons'| ensures ConsumerOk(order, where, phase, cells, elems, owner, done, headers, u, cons'[u]) {
      if u != t {
        assert ConsumerOk(order, where, phase, cells, elems, owner, done, headers, u, cons[u]);
      }
    }
  }

  // ---- Claiming ----

  lemma ClaimPhases(phase: seq<Phase>, order: seq<Block>, counters: seq<nat>, done: seq<bool>, lo: nat, count: nat)
    requires PhasesOk(phase, order, counters, done, lo)
    ensures PhasesOk(phase, order, counters, done + Repeat(count, false), lo)
  {
    var done' := done + Repeat(count, false);
    forall n | 0 <= n < |phase| ensures PhaseAt(phase, order, counters, done', lo, n) {
      assert PhaseAt(phase, order, counters, done, lo, n);
      CountSame(done, done', Base(n), Base(n + 1));
    }
  }

  lemma ClaimConsumers(order: seq<Block>, where: seq<int>, phase: seq<Phase>, cells: seq<seq<Cell>>, elems: seq<Elem>,
                       owner: seq<Tid>, done: seq<bool>, headers: seq<Header>, cons: seq<Consumer>, t: Tid, count: nat)
    requires ConsumersOk(order, where, phase, cells, elems, owner, done, headers, cons) && |owner| == |done|
    ensures ConsumersOk(order, where, phase, cells, elems, owner + Repeat(count, t), done + Repeat(count, false), headers, cons)
  {
    var owner', done' := owner + Repeat(count, t), done + Repeat(count, false);
    forall u | 0 <= u < |cons| ensures ConsumerOk(order, where, phase, cells, elems, owner', done', headers, u, cons[u]) {
      assert ConsumerOk(order, where, phase, cells, elems, owner, done, headers, u, cons[u]);
      if cons[u].Busy? {
        UndoneMore(done, Repeat(count, false), cons[u].from, cons[u].end);
      }
    }
  }

  lemma ClaimMoves(s: State, t: Tid, count: nat)
    requires Inv(s) && t < |s.cons| && s.cons[t].Idle? && 0 < count && s.head + count <= s.tail
    ensures Inv(ClaimStep(s, t, count))
  {
    var c := Busy(s.head, s.head + count, s.head, s.head, [], LoadHeader);
    var owner', done' := s.owner + Repeat(count, t), s.done + Repeat(count, false);
    NumAtLeast(c.end - 1, |s.phase|);
    ClaimPhases(s.phase, s.order, s.counters, s.done, s.lo, count);
    ClaimConsumers(s.order, s.where, s.phase, s.cells, s.elems, s.owner, s.done, s.headers, s.cons, t, count);
    OneConsumer(s.order, s.where, s.phase, s.cells, s.elems, owner', done', s.headers, s.cons, t, c);
    FreersUnmoved(s.phase, s.cons, t, c);
  }

  // ---- Finding the block ----

  /** A claimed index that is not counted yet is in a live block, which has kept its entry. */
  lemma PendingIsLive(s: State, t: Tid, i: nat)
    requires Inv(s) && t < |s.cons| && s.cons[t].Busy? && s.cons[t].from <= i < s.cons[t].end
    ensures Num(i) < |s.phase| && s.phase[Num(i)].Live? && s.lo <= Num(i) <= Num(s.cons[t].end - 1)
  {
    var c := s.cons[t];
    assert ConsumerOk(s.order, s.where, s.phase, s.cells, s.elems, s.owner, s.done, s.headers, t, c);
    NumMonotone(i, c.end - 1);
    assert NotDone(s.done, i);
    assert PhaseAt(s.phase, s.order, s.counters, s.done, s.lo, Num(i));
  }

  /** What consumer `t` knows. */
  lemma ConsumerFacts(s: State, t: Tid)
    requires Inv(s) && t < |s.cons| && s.cons[t].Busy?
    ensures JobOk(s.order, s.where, s.cells, s.elems, s.owner, s.done, |s.phase|, t, s.cons[t])
    ensures StageOk(s.headers, s.order, s.phase, t, s.cons[t])
    ensures s.cons[t].from < s.cons[t].end ==>
              && s.lo <= Num(s.cons[t].from) <= Num(s.cons[t].end - 1) < |s.phase|
              && s.phase[Num(s.cons[t].from)].Live?
  {
    assert ConsumerOk(s.order, s.where, s.phase, s.cells, s.elems, s.owner, s.done, s.headers, t, s.cons[t]);
    if s.cons[t].from < s.cons[t].end {
      PendingIsLive(s, t, s.cons[t].from);
    }
  }

  /** A step that changes only the consumer's own stage. */
  lemma StageMoves(s: State, t: Tid, c: Consumer, stage: Stage)
    requires Inv(s) && t < |s.cons| && s.cons[t] == c && c.Busy? && !IsFreer(c)
    requires StageOk(s.headers, s.order, s.phase, t, c.(stage := stage))
    ensures Inv(SetConsumer(s, t, c.(stage := stage)))
  {
    var c' := c.(stage := stage);
    assert ConsumerOk(s.order, s.where, s.phase, s.cells, s.elems, s.owner, s.done, s.headers, t, c);
    assert JobOk(s.order, s.where, s.cells, s.elems, s.owner, s.done, |s.phase|, t, c');
    OneConsumer(s.order, s.where, s.phase, s.cells, s.elems, s.owner, s.done, s.headers, s.cons, t, c');
    FreersUnmoved(s.phase, s.cons, t, c');
  }

  lemma LoadHeaderMoves(s: State, t: Tid)
    requires Inv(s) && t < |s.cons| && s.cons[t].Busy? && s.cons[t].stage == LoadHeader
    ensures s.headers != [] && Inv(SetConsumer(s, t, s.cons[t].(stage := LoadTail(|s.headers| - 1))))
  {
    ConsumerFacts(s, t);
    StageMoves(s, t, s.cons[t], LoadTail(|s.headers| - 1));
  }

  lemma LoadTailMoves(s: State, t: Tid, h: nat)
    requires Inv(s) && t < |s.cons| && s.cons[t].Busy? && s.cons[t].stage == LoadTail(h)
    ensures h < |s.headers|
    ensures Inv(SetConsumer(s, t, s.cons[t].(stage := ReadKey(h, s.headers[h].tail, s.headers[h].tailNum))))
  {
    ConsumerFacts(s, t);
    assert HeaderOk(s.headers[h], s.ent, s.lo, |s.keys|);
    StageMoves(s, t, s.cons[t], ReadKey(h, s.headers[h].tail, s.headers[h].tailNum));
  }

  /**
    Whatever header and tail slot a consumer has, and whatever was inserted or undone since it read
    them, lookup ends at the entry of its block, with that block's base as key and the block as value.
   */
  lemma LookupIsRight(s: State, t: Tid, h: nat, front: nat, num: int)
    requires Inv(s) && t < |s.cons| && s.cons[t].Busy? && s.cons[t].stage == ReadKey(h, front, num)
    ensures h < |s.headers| && CanLook(s.headers[h], s.keys, front)
    ensures var n := Num(s.cons[t].first);
            var slot := LookFrom(s.headers[h], s.keys, front, Base(n));
            && Found(s.headers[h], s.keys, s.vals, slot, Base(n)) && n < |s.order|
            && s.vals[s.headers[h].index[slot]] == Is(s.order[n])
            && SlotAt(s.headers, h, slot, n, Num(s.cons[t].end - 1))
  {
    ConsumerFacts(s, t);
    var hd, n := s.headers[h], Num(s.cons[t].first);
    assert HeaderOk(hd, s.ent, s.lo, |s.keys|);
    LookupFinds(hd, s.ent, s.lo, s.keys, front, num, n);
    assert ValueAt(s.vals, s.ent, s.order, s.phase, ValuedFrom(s.prod, s.order, s.phase), n);
  }

  lemma ReadKeyMoves(s: State, t: Tid, h: nat, front: nat, num: int)
    requires Inv(s) && t < |s.cons| && s.cons[t].Busy? && s.cons[t].stage == ReadKey(h, front, num)
    ensures ConsumeInBounds(s, t)
    ensures Inv(SetConsumer(s, t, s.cons[t].(stage := ReadValue(h, LookFrom(s.headers[h], s.keys, front, Base(Num(s.cons[t].first)))))))
  {
    LookupIsRight(s, t, h, front, num);
    ConsumerFacts(s, t);
    StageMoves(s, t, s.cons[t], ReadValue(h, LookFrom(s.headers[h], s.keys, front, Base(Num(s.cons[t].first)))));
  }

  /** A listed number that is live has its block as value. */
  lemma ValueIsBlock(s: State, h: nat, slot: nat, n: nat, m: nat)
    requires Inv(s) && SlotAt(s.headers, h, slot, n, m) && s.lo <= n <= m && n < |s.phase|
    requires s.phase[n].Live? || s.phase[n].Draining?
    ensures slot < |s.headers[h].index| && n < |s.ent| && s.headers[h].index[slot] == s.ent[n] < |s.vals|
    ensures s.vals[s.ent[n]] == Is(s.order[n])
  {
    var hd := s.headers[h];
    assert HeaderOk(hd, s.ent, s.lo, |s.keys|);
    assert Listed(hd, s.ent, n);
    assert ValueAt(s.vals, s.ent, s.order, s.phase, ValuedFrom(s.prod, s.order, s.phase), n);
  }

  lemma ReadValueMoves(s: State, t: Tid, h: nat, slot: nat)
    requires Inv(s) && t < |s.cons| && s.cons[t].Busy? && s.cons[t].stage == ReadValue(h, slot)
    ensures ConsumeInBounds(s, t)
    ensures Inv(SetConsumer(s, t, s.cons[t].(stage := Take(h, slot, s.vals[s.headers[h].index[slot]].block))))
  {
    ConsumerFacts(s, t);
    var c := s.cons[t];
    ValueIsBlock(s, h, slot, Num(c.from), Num(c.end - 1));
    StageMoves(s, t, c, Take(h, slot, s.order[Num(c.from)]));
  }

  // ---- Taking elements ----

  /** The element taken at index i is the i-th one enqueued. */
  lemma TakeIsFifo(s: State, t: Tid, h: nat, slot: nat, b: Block)
    requires Inv(s) && t < |s.cons| && s.cons[t].Busy? && s.cons[t].stage == Take(h, slot, b)
    ensures b < |s.cells| && |s.cells[b]| == BLOCK_SIZE && s.cons[t].index < |s.elems|
    ensures Placed(s.order, s.where, s.cells, s.cons[t].index) && b == s.order[Num(s.cons[t].index)]
    ensures s.cells[b][Off(s.cons[t].index)] == Full(s.elems[s.cons[t].index])
  {
    ConsumerFacts(s, t);
    assert CellOk(s.order, s.where, s.cells, s.elems, s.cons[t].index);
  }

  lemma TakeMoves(s: State, t: Tid, c: Consumer, h: nat, slot: nat, b: Block)
    requires Inv(s) && t < |s.cons| && s.cons[t] == c && c.Busy? && c.stage == Take(h, slot, b)
    ensures b < |s.cells| && |s.cells[b]| == BLOCK_SIZE && s.cells[b][Off(c.index)].Full?
    ensures Inv(TakeStep(s, t, c, h, slot, b))
  {
    TakeIsFifo(s, t, h, slot, b);
    ConsumerFacts(s, t);
    var s' := TakeStep(s, t, c, h, slot, b);
    TakeData(s, t, c, s'.cons[t]);
    FreersUnmoved(s.phase, s.cons, t, s'.cons[t]);
    TakeRest(s, s');
  }

  lemma TakeData(s: State, t: Tid, c: Consumer, c': Consumer)
    requires Inv(s) && t < |s.cons| && s.cons[t] == c && c.Busy? && c.stage.Take? && c.index < c.end && c.index < |s.elems|
    requires c.index < |s.owner| && s.owner[c.index] == t && Placed(s.order, s.where, s.cells, c.index)
    requires c' == c.(index := c.index + 1, got := c.got + [s.elems[c.index]],
                      stage := if c.index + 1 == c.end || Off(c.index + 1) == 0
                               then SetEmpty(c.stage.h, c.stage.slot, c.stage.block) else c.stage)
    ensures CellsOn(s.order, s.where, Put(s.order, s.cells, c.index, Raw), s.elems, s.head, |s.elems|)
    ensures ConsumersOk(s.order, s.where, s.phase, Put(s.order, s.cells, c.index, Raw), s.elems, s.owner, s.done, s.headers, s.cons[t := c'])
  {
    var cells' := Put(s.order, s.cells, c.index, Raw);
    assert ConsumerOk(s.order, s.where, s.phase, s.cells, s.elems, s.owner, s.done, s.headers, t, c);
    CellsFrame(s.order, s.where, s.cells, s.elems, c.index, Raw, s.head, |s.elems|);
    TakeConsumers(s.order, s.where, s.phase, s.cells, s.elems, s.owner, s.done, s.headers, s.cons, t, c.index);
    TakeJob(s.order, s.where, s.phase, s.cells, s.elems, s.owner, s.done, s.headers, t, c, c');
    OthersAndOne(s.order, s.where, s.phase, cells', s.elems, s.owner, s.done, s.headers, s.cons, t, c');
  }

  lemma TakeRest(s: State, s': State)
    requires Inv(s) && s' == s.(cells := s'.cells, cons := s'.cons) && FreersOk(s.phase, s'.cons)
    requires |s'.cells| == |s.cells| && forall b :: 0 <= b < |s.cells| ==> |s'.cells[b]| == |s.cells[b]|
    requires CellsOn(s.order, s.where, s'.cells, s.elems, s.head, |s.elems|)
    requires ConsumersOk(s.order, s.where, s.phase, s'.cells, s.elems, s.owner, s.done, s.headers, s'.cons)
    ensures Inv(s')
  {
  }

  ghost predicate OthersOk(order: seq<Block>, where: seq<int>, phase: seq<Phase>, cells: seq<seq<Cell>>, elems: seq<Elem>,
                           owner: seq<Tid>, done: seq<bool>, headers: seq<Header>, cons: seq<Consumer>, t: Tid) {
    forall u :: 0 <= u < |cons| && u != t ==> ConsumerOk(order, where, phase, cells, elems, owner, done, headers, u, cons[u])
  }

  lemma OthersAndOne(order: seq<Block>, where: seq<int>, phase: seq<Phase>, cells: seq<seq<Cell>>, elems: seq<Elem>,
                     owner: seq<Tid>, done: seq<bool>, headers: seq<Header>, cons: seq<Consumer>, t: Tid, c': Consumer)
    requires OthersOk(order, where, phase, cells, elems, owner, done, headers, cons, t) && t < |cons|
    requires ConsumerOk(order, where, phase, cells, elems, owner, done, headers, t, c')
    ensures ConsumersOk(order, where, phase, cells, elems, owner, done, headers, cons[t := c'])
  {
    var cons' := cons[t := c'];
    forall u | 0 <= u < |cons'| ensures ConsumerOk(order, where, phase, cells, elems, owner, done, headers, u, cons'[u]) {
      if u != t {
        assert ConsumerOk(order, where, phase, cells, elems, owner, done, headers, u, cons[u]);
      }
    }
  }

  lemma TakeConsumers(order: seq<Block>, where: seq<int>, phase: seq<Phase>, cells: seq<seq<Cell>>, elems: seq<Elem>,
                      owner: seq<Tid>, done: seq<bool>, headers: seq<Header>, cons: seq<Consumer>, t: Tid, j: nat)
    requires ConsumersOk(order, where, phase, cells, elems, owner, done, headers, cons)
    requires Placed(order, where, cells, j) && j < |owner| && owner[j] == t
    ensures OthersOk(order, where, phase, Put(order, cells, j, Raw), elems, owner, done, headers, cons, t)
  {
    var cells' := Put(order, cells, j, Raw);
    forall u | 0 <= u < |cons| && u != t ensures ConsumerOk(order, where, phase, cells', elems, owner, done, headers, u, cons[u]) {
      var c := cons[u];
      assert ConsumerOk(order, where, phase, cells, elems, owner, done, headers, u, c);
      if c.Busy? {
        CellsFrame(order, where, cells, elems, j, Raw, c.index, c.end);
      }
    }
  }

  lemma TakeJob(order: seq<Block>, where: seq<int>, phase: seq<Phase>, cells: seq<seq<Cell>>, elems: seq<Elem>, owner: seq<Tid>,
                done: seq<bool>, headers: seq<Header>, t: Tid, c: Consumer, c': Consumer)
    requires c.Busy? && c.stage.Take? && ConsumerOk(order, where, phase, cells, elems, owner, done, headers, t, c)
    requires Placed(order, where, cells, c.index) && c.index < c.end && c.index < |elems|
    requires c' == c.(index := c.index + 1, got := c.got + [elems[c.index]],
                      stage := if c.index + 1 == c.end || Off(c.index + 1) == 0
                               then SetEmpty(c.stage.h, c.stage.slot, c.stage.block) else c.stage)
    ensures ConsumerOk(order, where, phase, Put(order, cells, c.index, Raw), elems, owner, done, headers, t, c')
  {
    var i := c.index;
    CellsFrame(order, where, cells, elems, i, Raw, i + 1, c.end);
    assert elems[c.first..i + 1] == elems[c.first..i] + [elems[i]];
    if Off(i + 1) == 0 {
      NextBlockNum(i);
    } else {
      NextInBlock(i);
    }
  }

  // ---- Counting ----

  /** Indices [from, index) of block number n are counted; its count was and stays right. */
  lemma CountMoves(done: seq<bool>, from: nat, index: nat, n: nat, counter: nat)
    requires from < index <= |done| && Undone(done, from, index) && Num(from) == n && Num(index - 1) == n
    requires counter == Count(done, Base(n), Base(n + 1))
    ensures var done' := Flagged(done, from, index - from);
            && counter + (index - from) == Count(done', Base(n), Base(n + 1)) <= BLOCK_SIZE
            && (counter + (index - from) == BLOCK_SIZE <==> AllDone(done', n))
  {
    var done' := Flagged(done, from, index - from);
    CountFlagged(done, from, index, Base(n), Base(n + 1));
    CountBound(done', Base(n), Base(n + 1));
    CountFull(done', Base(n), Base(n + 1));
    if counter + (index - from) == BLOCK_SIZE {
      assert IsDone(done', Base(n + 1) - 1);
      forall i | Base(n) <= i < Base(n + 1) ensures i < |done'| && done'[i] {
        assert IsDone(done', i);
      }
    }
  }

  /** Counting in block number n does not change what is done of other blocks. */
  lemma OtherCounts(done: seq<bool>, from: nat, index: nat, n: nat, m: nat)
    requires from < index <= |done| && Num(from) == n && Num(index - 1) == n && m != n
    ensures var done' := Flagged(done, from, index - from);
            && Count(done', Base(m), Base(m + 1)) == Count(done, Base(m), Base(m + 1))
            && (AllDone(done, m) <==> AllDone(done', m))
  {
    var done' := Flagged(done, from, index - from);
    if m < n {
      BaseMonotone(m + 1, n);
    } else {
      BaseMonotone(n + 1, m);
    }
    CountSame(done, done', Base(m), Base(m + 1));
    assert forall i :: Base(m) <= i < Base(m + 1) && i < |done| ==> done[i] == done'[i];
  }

  lemma SetEmptyPhases(s: State, from: nat, index: nat, n: nat, counters': seq<nat>, done': seq<bool>, phase': seq<Phase>)
    requires PhasesOk(s.phase, s.order, s.counters, s.done, s.lo) && PlacesOk(s.order, s.phase, s.where, s.pool, Back(s.prod))
    requires n < |s.phase| && n < |s.order| && s.phase[n].Live? && s.order[n] < |s.counters| && |s.counters| == |s.where|
    requires from < index <= |s.done| && Undone(s.done, from, index) && Num(from) == n && Num(index - 1) == n
    requires counters' == s.counters[s.order[n] := s.counters[s.order[n]] + (index - from)]
    requires done' == Flagged(s.done, from, index - from)
    requires if counters'[s.order[n]] == BLOCK_SIZE then exists t: Tid :: phase' == s.phase[n := Draining(t)] else phase' == s.phase
    ensures counters'[s.order[n]] <= BLOCK_SIZE
    ensures PhasesOk(phase', s.order, counters', done', s.lo)
  {
    assert PhaseAt(s.phase, s.order, s.counters, s.done, s.lo, n);
    assert NumberAt(s.order, s.phase, s.where, Back(s.prod), n);
    CountMoves(s.done, from, index, n, s.counters[s.order[n]]);
    forall m | 0 <= m < |phase'| ensures PhaseAt(phase', s.order, counters', done', s.lo, m) {
      assert PhaseAt(s.phase, s.order, s.counters, s.done, s.lo, m);
      if m != n {
        OtherCounts(s.done, from, index, n, m);
        assert NumberAt(s.order, s.phase, s.where, Back(s.prod), m);
      }
    }
  }

  /** Number n passes from one phase to another without losing its block or leaving the index. */
  lemma PhasePlaces(order: seq<Block>, phase: seq<Phase>, where: seq<int>, pool: set<Block>, back: nat, n: nat, p: Phase)
    requires PlacesOk(order, phase, where, pool, back) && n < |phase| && !phase[n].Gone? && !p.Gone?
    ensures PlacesOk(order, phase[n := p], where, pool, back)
  {
    var phase' := phase[n := p];
    forall m | 0 <= m < |order| ensures NumberAt(order, phase', where, back, m) {
      assert NumberAt(order, phase, where, back, m);
    }
    forall b | 0 <= b < |where| ensures PlaceAt(order, phase', where, pool, back, b) {
      assert PlaceAt(order, phase, where, pool, back, b);
    }
  }

  lemma PhaseValues(vals: seq<Value>, ent: seq<EntryId>, lo: nat, order: seq<Block>, phase: seq<Phase>, vlo: nat, skip: int, n: nat, p: Phase)
    requires ValuesOk(vals, ent, lo, order, phase, vlo, skip) && n < |phase|
    requires (phase[n].Live? && p.Draining?) || (phase[n].Loose? && p.Gone?)
    ensures ValuesOk(vals, ent, lo, order, phase[n := p], vlo, skip)
  {
    var phase' := phase[n := p];
    forall m | lo <= m < |ent| && m != skip ensures ValueAt(vals, ent, order, phase', vlo, m) {
      assert ValueAt(vals, ent, order, phase, vlo, m);
    }
  }

  /** Another consumer's indices are counted, and number n, which is live, may be found empty. */
  lemma SetEmptyOthers(order: seq<Block>, where: seq<int>, phase: seq<Phase>, cells: seq<seq<Cell>>, elems: seq<Elem>,
                       owner: seq<Tid>, done: seq<bool>, headers: seq<Header>, cons: seq<Consumer>, t: Tid,
                       from: nat, index: nat, n: nat, phase': seq<Phase>)
    requires ConsumersOk(order, where, phase, cells, elems, owner, done, headers, cons)
    requires from < index <= |owner| == |done| && forall k :: from <= k < index ==> owner[k] == t
    requires n < |phase| && phase[n].Live? && (phase' == phase || phase' == phase[n := Draining(t)])
    ensures OthersOk(order, where, phase', cells, elems, owner, Flagged(done, from, index - from), headers, cons, t)
  {
    var done' := Flagged(done, from, index - from);
    forall u | 0 <= u < |cons| && u != t ensures ConsumerOk(order, where, phase', cells, elems, owner, done', headers, u, cons[u]) {
      var c := cons[u];
      assert ConsumerOk(order, where, phase, cells, elems, owner, done, headers, u, c);
      if c.Busy? && c.from < c.end {
        OwnersApart(owner, from, index, t, c.from, c.end, u);
        UndoneBeside(done, from, index, c.from, c.end);
      }
    }
  }

  /** What the consumer knows when it counts. */
  lemma SetEmptyFacts(s: State, t: Tid, c: Consumer)
    requires Inv(s) && t < |s.cons| && s.cons[t] == c && c.Busy? && c.stage.SetEmpty?
    ensures var n := Num(c.from);
            && c.from < c.index <= c.end <= |s.owner| == |s.done| && Num(c.index - 1) == n
            && n < |s.phase| && n < |s.order| && s.phase[n].Live? && c.stage.block == s.order[n] && s.lo <= n
            && s.order[n] < |s.counters| && Undone(s.done, c.from, c.index)
            && forall k :: c.from <= k < c.index ==> s.owner[k] == t
    ensures c.stage.h < |s.headers|
    ensures ConsumerOk(s.order, s.where, s.phase, s.cells, s.elems, s.owner, s.done, s.headers, t, c)
  {
    assert ConsumerOk(s.order, s.where, s.phase, s.cells, s.elems, s.owner, s.done, s.headers, t, c);
    PendingIsLive(s, t, c.from);
    LiveBlock(s, Num(c.from));
  }

  lemma LiveBlock(s: State, n: nat)
    requires PhasesOk(s.phase, s.order, s.counters, s.done, s.lo) && n < |s.phase| && s.phase[n].Live?
    ensures n < |s.order| && s.lo <= n && s.order[n] < |s.counters|
  {
    assert PhaseAt(s.phase, s.order, s.counters, s.done, s.lo, n);
  }

  lemma SetEmptyMoves(s: State, t: Tid, c: Consumer, h: nat, slot: nat, b: Block)
    requires Inv(s) && t < |s.cons| && s.cons[t] == c && c.Busy? && c.stage == SetEmpty(h, slot, b)
    ensures SetEmptyInBounds(s, t, c, h, b) && Inv(SetEmptyStep(s, t, c, h, slot, b))
  {
    SetEmptyFacts(s, t, c);
    var n := Num(c.from);
    var counters', done', phase' := SetEmptyCounts(s, t, c, n);
    var s' := SetEmptyShape(s, t, c, h, slot, b, n, counters', done', phase');
    SetEmptyAfter(s, t, c, counters', s');
  }

  lemma SetEmptyAfter(s: State, t: Tid, c: Consumer, counters': seq<nat>, s': State)
    requires Inv(s) && t < |s.cons| && s.cons[t] == c && c.Busy? && c.stage.SetEmpty? && c.stage.h < |s.headers|
    requires c.stage.block < |s.counters| && c.from < c.index <= |s.done| && Num(c.from) < |s.phase|
    requires counters' == s.counters[c.stage.block := s.counters[c.stage.block] + (c.index - c.from)]
    requires PhasesOk(s'.phase, s.order, counters', s'.done, s.lo) && s'.done == Flagged(s.done, c.from, c.index - c.from)
    requires |s'.cons| == |s.cons|
    requires s' == s.(counters := counters', done := s'.done, phase := s'.phase, cons := s.cons[t := s'.cons[t]], log := s'.log)
    requires var c1, n := c.(from := c.index), Num(c.from);
             (s'.phase == s.phase[n := Draining(t)] && s'.cons[t] == c1.(stage := NullEntry(c.stage.h, c.stage.slot, c.stage.block, n)))
             || (s'.phase == s.phase && s'.cons[t] == Advance(s.headers, c1, c.stage.h, c.stage.slot))
    requires s'.log == s.log || (c.index == c.end && s'.log == s.log + [Delivery(t, c.first, c.end, c.got)])
    ensures Inv(s')
  {
    SetEmptyFacts(s, t, c);
    SetEmptyConsumers(s, t, c, s'.done, s'.phase, s'.cons[t]);
    SetEmptyRest(s, t, c, Num(c.from), counters', s'.done, s'.phase, s');
  }

  lemma SetEmptyShape(s: State, t: Tid, c: Consumer, h: nat, slot: nat, b: Block, n: nat,
                      counters': seq<nat>, done': seq<bool>, phase': seq<Phase>) returns (s': State)
    requires SetEmptyInBounds(s, t, c, h, b) && n == Num(c.index - 1)
    requires counters' == s.counters[b := s.counters[b] + (c.index - c.from)]
    requires done' == Flagged(s.done, c.from, c.index - c.from)
    requires phase' == if counters'[b] == BLOCK_SIZE then s.phase[n := Draining(t)] else s.phase
    ensures s' == SetEmptyStep(s, t, c, h, slot, b) && |s'.cons| == |s.cons|
    ensures s' == s.(counters := counters', done := done', phase := phase', cons := s.cons[t := s'.cons[t]], log := s'.log)
    ensures var c1 := c.(from := c.index);
            (phase' == s.phase[n := Draining(t)] && s'.cons[t] == c1.(stage := NullEntry(h, slot, b, n)))
            || (phase' == s.phase && s'.cons[t] == Advance(s.headers, c1, h, slot))
    ensures s'.log == s.log || (c.index == c.end && s'.log == s.log + [Delivery(t, c.first, c.end, c.got)])
  {
    s' := SetEmptyStep(s, t, c, h, slot, b);
  }

  lemma SetEmptyCounts(s: State, t: Tid, c: Consumer, n: nat) returns (counters': seq<nat>, done': seq<bool>, phase': seq<Phase>)
    requires Inv(s) && t < |s.cons| && s.cons[t] == c && c.Busy? && c.stage.SetEmpty? && n == Num(c.from)
    ensures c.stage.block < |s.counters| && c.from < c.index <= |s.done| && n < |s.phase|
    ensures counters' == s.counters[c.stage.block := s.counters[c.stage.block] + (c.index - c.from)]
    ensures done' == Flagged(s.done, c.from, c.index - c.from)
    ensures phase' == if counters'[c.stage.block] == BLOCK_SIZE then s.phase[n := Draining(t)] else s.phase
    ensures counters'[c.stage.block] <= BLOCK_SIZE && PhasesOk(phase', s.order, counters', done', s.lo)
  {
    SetEmptyFacts(s, t, c);
    var b := c.stage.block;
    counters' := s.counters[b := s.counters[b] + (c.index - c.from)];
    done' := Flagged(s.done, c.from, c.index - c.from);
    phase' := if counters'[b] == BLOCK_SIZE then s.phase[n := Draining(t)] else s.phase;
    SetEmptyPhases(s, c.from, c.index, n, counters', done', phase');
  }

  lemma SetEmptyConsumers(s: State, t: Tid, c: Consumer, done': seq<bool>, phase': seq<Phase>, c': Consumer)
    requires ConsumersOk(s.order, s.where, s.phase, s.cells, s.elems, s.owner, s.done, s.headers, s.cons)
    requires t < |s.cons| && s.cons[t] == c && c.Busy? && c.stage.SetEmpty? && c.stage.h < |s.headers|
    requires c.from < c.index <= |s.done| == |s.owner| && done' == Flagged(s.done, c.from, c.index - c.from)
    requires (forall k :: c.from <= k < c.index ==> s.owner[k] == t) && Num(c.from) < |s.phase| && s.phase[Num(c.from)].Live?
    requires var c1 := c.(from := c.index);
             (phase' == s.phase[Num(c.from) := Draining(t)] && c' == c1.(stage := NullEntry(c.stage.h, c.stage.slot, c.stage.block, Num(c.from))))
             || (phase' == s.phase && c' == Advance(s.headers, c1, c.stage.h, c.stage.slot))
    ensures ConsumersOk(s.order, s.where, phase', s.cells, s.elems, s.owner, done', s.headers, s.cons[t := c'])
  {
    assert ConsumerOk(s.order, s.where, s.phase, s.cells, s.elems, s.owner, s.done, s.headers, t, c);
    SetEmptyOthers(s.order, s.where, s.phase, s.cells, s.elems, s.owner, s.done, s.headers, s.cons, t, c.from, c.index, Num(c.from), phase');
    SetEmptyOwn(s, t, c, done', phase', c');
    OthersAndOne(s.order, s.where, phase', s.cells, s.elems, s.owner, done', s.headers, s.cons, t, c');
  }

  lemma SetEmptyOwn(s: State, t: Tid, c: Consumer, done': seq<bool>, phase': seq<Phase>, c': Consumer)
    requires c.Busy? && c.stage.SetEmpty? && c.from < c.index <= |s.done| && c.stage.h < |s.headers|
    requires ConsumerOk(s.order, s.where, s.phase, s.cells, s.elems, s.owner, s.done, s.headers, t, c)
    requires done' == Flagged(s.done, c.from, c.index - c.from) && Num(c.from) < |s.phase|
    requires var c1 := c.(from := c.index);
             (phase' == s.phase[Num(c.from) := Draining(t)] && c' == c1.(stage := NullEntry(c.stage.h, c.stage.slot, c.stage.block, Num(c.from))))
             || (phase' == s.phase && c' == Advance(s.headers, c1, c.stage.h, c.stage.slot))
    ensures ConsumerOk(s.order, s.where, phase', s.cells, s.elems, s.owner, done', s.headers, t, c')
  {
    SetEmptyJob(s.order, s.where, s.cells, s.elems, s.owner, s.done, |s.phase|, t, c, c');
    SetEmptyStage(s.headers, s.order, s.phase, phase', t, c, c');
  }

  lemma SetEmptyJob(order: seq<Block>, where: seq<int>, cells: seq<seq<Cell>>, elems: seq<Elem>, owner: seq<Tid>, done: seq<bool>,
                    n: nat, t: Tid, c: Consumer, c': Consumer)
    requires JobOk(order, where, cells, elems, owner, done, n, t, c) && c.Busy? && c.from < c.index <= |done|
    requires c'.Busy? ==> c' == c.(from := c.index, stage := c'.stage)
    ensures JobOk(order, where, cells, elems, owner, Flagged(done, c.from, c.index - c.from), n, t, c')
  {
    UndoneBeside(done, c.from, c.index, c.index, c.end);
  }

  lemma SetEmptyStage(headers: seq<Header>, order: seq<Block>, phase: seq<Phase>, phase': seq<Phase>, t: Tid, c: Consumer, c': Consumer)
    requires StageOk(headers, order, phase, t, c) && c.Busy? && c.stage.SetEmpty? && c.stage.h < |headers|
    requires c.first <= c.from < c.index <= c.end && c.first < c.end && Num(c.from) < |phase|
    requires var c1 := c.(from := c.index);
             (phase' == phase[Num(c.from) := Draining(t)] && c' == c1.(stage := NullEntry(c.stage.h, c.stage.slot, c.stage.block, Num(c.from))))
             || (phase' == phase && c' == Advance(headers, c1, c.stage.h, c.stage.slot))
    ensures StageOk(headers, order, phase', t, c')
  {
    if phase' == phase && c.index < c.end {
      NextSlotAt(headers, c.stage.h, c.stage.slot, Num(c.from), Num(c.end - 1));
      NumUnique(c.index, Num(c.from) + 1);
    }
  }

  /** The slot after that of number n is that of number n + 1. */
  lemma NextSlotAt(headers: seq<Header>, h: nat, slot: nat, n: nat, m: nat)
    requires SlotAt(headers, h, slot, n, m)
    ensures SlotAt(headers, h, NextSlot(slot, headers[h].capacity), n + 1, m)
  {
    var k := n - headers[h].first;
    assert SlotOf(k + 1, headers[h].capacity) == NextSlot(SlotOf(k, headers[h].capacity), headers[h].capacity);
  }

  lemma SetEmptyRest(s: State, t: Tid, c: Consumer, n: nat, counters': seq<nat>, done': seq<bool>, phase': seq<Phase>, s': State)
    requires Inv(s) && t < |s.cons| && s.cons[t] == c && c.Busy? && c.stage.SetEmpty? && n < |s.phase| && s.phase[n].Live?
    requires n < |s.order| && c.stage.block == s.order[n] && s.order[n] < |s.counters|
    requires |counters'| == |s.counters| && forall a :: 0 <= a < |counters'| && a != s.order[n] ==> counters'[a] == s.counters[a]
    requires |done'| == |s.done| && PhasesOk(phase', s.order, counters', done', s.lo)
    requires |s'.cons| == |s.cons|
    requires s' == s.(counters := counters', done := done', phase := phase', cons := s.cons[t := s'.cons[t]], log := s'.log)
    requires phase' == s.phase || (phase' == s.phase[n := Draining(t)] && s'.cons[t].Busy? && s'.cons[t].stage.NullEntry? && s'.cons[t].stage.num == n)
    requires s'.log == s.log || (c.index == c.end && s'.log == s.log + [Delivery(t, c.first, c.end, c.got)])
    requires ConsumersOk(s.order, s.where, phase', s.cells, s.elems, s.owner, done', s.headers, s'.cons)
    ensures Inv(s')
  {
    SetEmptyFreed(s, t, c, n, phase', s'.cons[t]);
    SetEmptyFresh(s, n, counters');
    LogMoves(s, t, c, s'.log);
    SetEmptyTogether(s, s');
  }

  lemma SetEmptyTogether(s: State, s': State)
    requires Inv(s) && s' == s.(counters := s'.counters, done := s'.done, phase := s'.phase, cons := s'.cons, log := s'.log)
    requires |s'.counters| == |s.counters| && |s'.done| == |s.done| && |s'.phase| == |s.phase|
    requires PhasesOk(s'.phase, s.order, s'.counters, s'.done, s.lo) && FreersOk(s'.phase, s'.cons)
    requires FreshCounters(s'.counters, s.order, |s.phase| + Back(s.prod))
    requires PlacesOk(s.order, s'.phase, s.where, s.pool, Back(s.prod))
    requires ValuesOk(s.vals, s.ent, s.lo, s.order, s'.phase, ValuedFrom(s.prod, s.order, s.phase), Pending(s.prod, s.order))
    requires ConsumersOk(s.order, s.where, s'.phase, s.cells, s.elems, s.owner, s'.done, s.headers, s'.cons)
    requires LogOk(s'.log, s.elems)
    ensures Inv(s')
  {
  }

  lemma SetEmptyFreed(s: State, t: Tid, c: Consumer, n: nat, phase': seq<Phase>, c': Consumer)
    requires Inv(s) && t < |s.cons| && s.cons[t] == c && c.Busy? && c.stage.SetEmpty? && n < |s.phase| && s.phase[n].Live?
    requires phase' == s.phase || (phase' == s.phase[n := Draining(t)] && c'.Busy? && c'.stage.NullEntry? && c'.stage.num == n)
    ensures FreersOk(phase', s.cons[t := c'])
    ensures PlacesOk(s.order, phase', s.where, s.pool, Back(s.prod))
    ensures ValuesOk(s.vals, s.ent, s.lo, s.order, phase', ValuedFrom(s.prod, s.order, s.phase), Pending(s.prod, s.order))
  {
    FreersUnmoved(s.phase, s.cons, t, c');
    if phase' != s.phase {
      FreersMove(s.phase, s.cons, t, c', n, Draining(t));
      PhasePlaces(s.order, s.phase, s.where, s.pool, Back(s.prod), n, Draining(t));
      PhaseValues(s.vals, s.ent, s.lo, s.order, s.phase, ValuedFrom(s.prod, s.order, s.phase), Pending(s.prod, s.order), n, Draining(t));
    }
  }

  lemma SetEmptyFresh(s: State, n: nat, counters': seq<nat>)
    requires PlacesOk(s.order, s.phase, s.where, s.pool, Back(s.prod)) && FreshCounters(s.counters, s.order, |s.phase| + Back(s.prod))
    requires n < |s.phase| && s.phase[n].Live? && |s.phase| <= |s.order|
    requires |counters'| == |s.counters| && forall a :: 0 <= a < |counters'| && a != s.order[n] ==> counters'[a] == s.counters[a]
    ensures FreshCounters(counters', s.order, |s.phase| + Back(s.prod))
  {
    assert NumberAt(s.order, s.phase, s.where, Back(s.prod), n);
    forall m | |s.phase| + Back(s.prod) <= m < |s.order| ensures s.order[m] < |counters'| && counters'[s.order[m]] == 0 {
      assert NumberAt(s.order, s.phase, s.where, Back(s.prod), m);
    }
  }

  lemma LogMoves(s: State, t: Tid, c: Consumer, log': seq<Delivery>)
    requires Inv(s) && t < |s.cons| && s.cons[t] == c && c.Busy?
    requires log' == s.log || (c.index == c.end && log' == s.log + [Delivery(t, c.first, c.end, c.got)])
    ensures LogOk(log', s.elems)
  {
    ConsumerFacts(s, t);
    assert forall j :: 0 <= j < |s.log| ==> DeliveryOk(s.log[j], s.elems);
  }

  // ---- Freeing the block ----

  lemma NullEntryMoves(s: State, t: Tid, c: Consumer, h: nat, slot: nat, b: Block, n: int)
    requires Inv(s) && t < |s.cons| && s.cons[t] == c && c.Busy? && c.stage == NullEntry(h, slot, b, n)
    ensures ConsumeInBounds(s, t) && Inv(NullEntryStep(s, t, c, h, slot, b, n))
  {
    NullFacts(s, t, c);
    NullOwn(s, t, c);
    var s' := NullEntryStep(s, t, c, h, slot, b, n);
    PhasePlaces(s.order, s.phase, s.where, s.pool, Back(s.prod), n, Loose(t));
    NullValues(s, n, t);
    FreersMove(s.phase, s.cons, t, s'.cons[t], n, Loose(t));
    NullPhases(s, n, t);
    PhaseChanges(s, t, n, Loose(t), s'.cons[t]);
    NullRest(s, s');
  }

  lemma NullRest(s: State, s': State)
    requires Inv(s) && |s'.phase| == |s.phase| && |s'.vals| == |s.vals|
    requires s' == s.(vals := s'.vals, phase := s'.phase, cons := s'.cons)
    requires PhasesOk(s'.phase, s.order, s.counters, s.done, s.lo) && FreersOk(s'.phase, s'.cons)
    requires PlacesOk(s.order, s'.phase, s.where, s.pool, Back(s.prod))
    requires ValuesOk(s'.vals, s.ent, s.lo, s.order, s'.phase, ValuedFrom(s.prod, s.order, s.phase), Pending(s.prod, s.order))
    requires ConsumersOk(s.order, s.where, s'.phase, s.cells, s.elems, s.owner, s.done, s.headers, s'.cons)
    ensures Inv(s')
  {
  }

  /** The entry is that of the empty block. */
  lemma NullFacts(s: State, t: Tid, c: Consumer)
    requires Inv(s) && t < |s.cons| && s.cons[t] == c && c.Busy? && c.stage.NullEntry?
    ensures 0 <= c.stage.num < |s.phase| && s.phase[c.stage.num] == Draining(t) && s.lo <= c.stage.num
    ensures c.stage.h < |s.headers| && c.stage.slot < |s.headers[c.stage.h].index| && c.stage.num < |s.ent|
    ensures s.headers[c.stage.h].index[c.stage.slot] == s.ent[c.stage.num] < |s.vals|
  {
    assert ConsumerOk(s.order, s.where, s.phase, s.cells, s.elems, s.owner, s.done, s.headers, t, c);
    var n := c.stage.num;
    assert PhaseAt(s.phase, s.order, s.counters, s.done, s.lo, n);
    NumMonotone(c.index - 1, c.end - 1);
    ValueIsBlock(s, c.stage.h, c.stage.slot, n, Num(c.end - 1));
  }

  lemma NullOwn(s: State, t: Tid, c: Consumer)
    requires Inv(s) && t < |s.cons| && s.cons[t] == c && c.Busy? && c.stage.NullEntry?
    ensures 0 <= c.stage.num < |s.phase|
    ensures ConsumerOk(s.order, s.where, s.phase[c.stage.num := Loose(t)], s.cells, s.elems, s.owner, s.done, s.headers, t,
                       c.(stage := AddBlock(c.stage.h, c.stage.slot, c.stage.block, c.stage.num)))
  {
    ConsumerFacts(s, t);
  }

  lemma NullPhases(s: State, n: nat, t: Tid)
    requires PhasesOk(s.phase, s.order, s.counters, s.done, s.lo) && n < |s.phase| && s.phase[n].Draining?
    ensures PhasesOk(s.phase[n := Loose(t)], s.order, s.counters, s.done, s.lo)
  {
    var phase' := s.phase[n := Loose(t)];
    forall m | 0 <= m < |phase'| ensures PhaseAt(phase', s.order, s.counters, s.done, s.lo, m) {
      assert PhaseAt(s.phase, s.order, s.counters, s.done, s.lo, m);
    }
  }

  lemma NullValues(s: State, n: nat, t: Tid)
    requires IndexInv(s) && n < |s.phase| && s.phase[n].Draining? && s.lo <= n
    ensures n < |s.ent| && s.ent[n] < |s.vals|
    ensures ValuesOk(s.vals[s.ent[n] := Nothing], s.ent, s.lo, s.order, s.phase[n := Loose(t)],
                     ValuedFrom(s.prod, s.order, s.phase), Pending(s.prod, s.order))
  {
    assert KeyAt(s.keys, s.ent, n);
    var vals', phase' := s.vals[s.ent[n] := Nothing], s.phase[n := Loose(t)];
    var vlo := ValuedFrom(s.prod, s.order, s.phase);
    forall m | s.lo <= m < |s.ent| && m != Pending(s.prod, s.order) ensures ValueAt(vals', s.ent, s.order, phase', vlo, m) {
      assert ValueAt(s.vals, s.ent, s.order, s.phase, vlo, m);
      if m != n {
        OtherEntry(s.keys, s.ent, s.lo, m, n);
      }
    }
  }

  /** The phase of a block that consumer t has found empty changes. */
  lemma PhaseChanges(s: State, t: Tid, n: nat, p: Phase, c': Consumer)
    requires Inv(s) && t < |s.cons| && n < |s.phase| && (s.phase[n] == Draining(t) || s.phase[n] == Loose(t))
    requires ConsumerOk(s.order, s.where, s.phase[n := p], s.cells, s.elems, s.owner, s.done, s.headers, t, c')
    ensures ConsumersOk(s.order, s.where, s.phase[n := p], s.cells, s.elems, s.owner, s.done, s.headers, s.cons[t := c'])
  {
    PhaseOthers(s.order, s.where, s.phase, s.cells, s.elems, s.owner, s.done, s.headers, s.cons, t, n, p);
    OthersAndOne(s.order, s.where, s.phase[n := p], s.cells, s.elems, s.owner, s.done, s.headers, s.cons, t, c');
  }

  lemma PhaseOthers(order: seq<Block>, where: seq<int>, phase: seq<Phase>, cells: seq<seq<Cell>>, elems: seq<Elem>,
                    owner: seq<Tid>, done: seq<bool>, headers: seq<Header>, cons: seq<Consumer>, t: Tid, n: nat, p: Phase)
    requires ConsumersOk(order, where, phase, cells, elems, owner, done, headers, cons)
    requires n < |phase| && (phase[n] == Draining(t) || phase[n] == Loose(t))
    ensures OthersOk(order, where, phase[n := p], cells, elems, owner, done, headers, cons, t)
  {
    var phase' := phase[n := p];
    forall u | 0 <= u < |cons| && u != t ensures ConsumerOk(order, where, phase', cells, elems, owner, done, headers, u, cons[u]) {
      assert ConsumerOk(order, where, phase, cells, elems, owner, done, headers, u, cons[u]);
    }
  }

  lemma AddBlockMoves(s: State, t: Tid, c: Consumer, h: nat, slot: nat, b: Block, n: int)
    requires Inv(s) && t < |s.cons| && s.cons[t] == c && c.Busy? && c.stage == AddBlock(h, slot, b, n)
    ensures ConsumeInBounds(s, t) && Inv(AddBlockStep(s, t, c, h, slot, b, n))
  {
    ConsumerFacts(s, t);
    assert NumberAt(s.order, s.phase, s.where, Back(s.prod), n);
    assert PlaceAt(s.order, s.phase, s.where, s.pool, Back(s.prod), b);
    var s' := AddBlockStep(s, t, c, h, slot, b, n);
    AddPhases(s, n, t, s'.cons[t]);
    AddConsumers(s, t, c, n, s'.cons[t]);
    AddUnclaimed(s, n);
    LogMoves(s, t, c, s'.log);
    AddRest(s, s', n);
  }

  lemma AddRest(s: State, s': State, n: nat)
    requires Inv(s) && n < |s.phase| && s.order[n] < |s.where| && s'.where == s.where[s.order[n] := IN_POOL] && |s'.phase| == |s.phase|
    requires s' == s.(pool := s'.pool, where := s'.where, phase := s'.phase, log := s'.log, cons := s'.cons)
    requires PhasesOk(s'.phase, s.order, s.counters, s.done, s.lo) && FreersOk(s'.phase, s'.cons)
    requires PlacesOk(s.order, s'.phase, s'.where, s'.pool, Back(s.prod))
    requires ValuesOk(s.vals, s.ent, s.lo, s.order, s'.phase, ValuedFrom(s.prod, s.order, s.phase), Pending(s.prod, s.order))
    requires ConsumersOk(s.order, s'.where, s'.phase, s.cells, s.elems, s.owner, s.done, s.headers, s'.cons)
    requires UnclaimedOk(s.order, s'.where, s.cells, s.elems, s.done, s.owner, s.head, s.tail)
    requires LogOk(s'.log, s.elems)
    ensures Inv(s')
  {
  }

  lemma AddPlaces(order: seq<Block>, phase: seq<Phase>, where: seq<int>, pool: set<Block>, back: nat, n: nat)
    requires PlacesOk(order, phase, where, pool, back) && n < |phase| && n < |order| && !phase[n].Gone?
    ensures order[n] < |where|
    ensures PlacesOk(order, phase[n := Gone], where[order[n] := IN_POOL], pool + {order[n]}, back)
  {
    assert NumberAt(order, phase, where, back, n);
    var phase', where', pool' := phase[n := Gone], where[order[n] := IN_POOL], pool + {order[n]};
    forall m | 0 <= m < |order| ensures NumberAt(order, phase', where', back, m) {
      assert NumberAt(order, phase, where, back, m);
    }
    forall b | 0 <= b < |where'| ensures PlaceAt(order, phase', where', pool', back, b) {
      assert PlaceAt(order, phase, where, pool, back, b);
    }
  }

  lemma AddPhases(s: State, n: nat, t: Tid, c': Consumer)
    requires Inv(s) && t < |s.cons| && n < |s.phase| && s.phase[n] == Loose(t)
    requires s.cons[t].Busy? && s.cons[t].stage.AddBlock? && s.cons[t].stage.num == n
    ensures s.order[n] < |s.where|
    ensures PhasesOk(s.phase[n := Gone], s.order, s.counters, s.done, s.lo)
    ensures FreersOk(s.phase[n := Gone], s.cons[t := c'])
    ensures PlacesOk(s.order, s.phase[n := Gone], s.where[s.order[n] := IN_POOL], s.pool + {s.order[n]}, Back(s.prod))
    ensures ValuesOk(s.vals, s.ent, s.lo, s.order, s.phase[n := Gone], ValuedFrom(s.prod, s.order, s.phase), Pending(s.prod, s.order))
  {
    AddPlaces(s.order, s.phase, s.where, s.pool, Back(s.prod), n);
    FreersMove(s.phase, s.cons, t, c', n, Gone);
    PhaseValues(s.vals, s.ent, s.lo, s.order, s.phase, ValuedFrom(s.prod, s.order, s.phase), Pending(s.prod, s.order), n, Gone);
    var phase' := s.phase[n := Gone];
    forall m | 0 <= m < |phase'| ensures PhaseAt(phase', s.order, s.counters, s.done, s.lo, m) {
      assert PhaseAt(s.phase, s.order, s.counters, s.done, s.lo, m);
    }
  }

  /** A block all of whose indices are done holds none that is still wanted. */
  lemma WantedStay(s: State, n: nat, from: nat, to: nat)
    requires AllDone(s.done, n) && CellsOn(s.order, s.where, s.cells, s.elems, from, to) && n < |s.order| && s.order[n] < |s.where|
    requires s.where[s.order[n]] == n && forall i :: from <= i < to && i < |s.done| ==> NotDone(s.done, i)
    ensures CellsOn(s.order, s.where[s.order[n] := IN_POOL], s.cells, s.elems, from, to)
  {
    var where' := s.where[s.order[n] := IN_POOL];
    forall i | from <= i < to ensures Stays(s.order, s.where, s.cells, s.order, where', s.cells, Num(i)) {
      assert CellOk(s.order, s.where, s.cells, s.elems, i);
      assert i < |s.done| ==> NotDone(s.done, i);
    }
    CellsStay(s.order, s.where, s.cells, s.elems, s.order, where', s.cells, from, to);
  }

  lemma AddUnclaimed(s: State, n: nat)
    requires Inv(s) && n < |s.phase| && s.phase[n].Loose?
    ensures s.order[n] < |s.where|
    ensures UnclaimedOk(s.order, s.where[s.order[n] := IN_POOL], s.cells, s.elems, s.done, s.owner, s.head, s.tail)
  {
    assert NumberAt(s.order, s.phase, s.where, Back(s.prod), n);
    assert PhaseAt(s.phase, s.order, s.counters, s.done, s.lo, n);
    WantedStay(s, n, s.head, |s.elems|);
  }

  lemma AddConsumers(s: State, t: Tid, c: Consumer, n: nat, c': Consumer)
    requires Inv(s) && t < |s.cons| && s.cons[t] == c && c.Busy? && c.stage.AddBlock? && c.stage.num == n && n < |s.phase| && s.phase[n] == Loose(t)
    requires c.stage.h < |s.headers| && c' == Advance(s.headers, c, c.stage.h, c.stage.slot)
    ensures s.order[n] < |s.where|
    ensures ConsumersOk(s.order, s.where[s.order[n] := IN_POOL], s.phase[n := Gone], s.cells, s.elems, s.owner, s.done, s.headers, s.cons[t := c'])
  {
    assert NumberAt(s.order, s.phase, s.where, Back(s.prod), n);
    assert PhaseAt(s.phase, s.order, s.counters, s.done, s.lo, n);
    AddOthers(s, t, n);
    AddOwn(s, t, c, n, c');
    OthersAndOne(s.order, s.where[s.order[n] := IN_POOL], s.phase[n := Gone], s.cells, s.elems, s.owner, s.done, s.headers, s.cons, t, c');
  }

  lemma AddOthers(s: State, t: Tid, n: nat)
    requires ConsumersOk(s.order, s.where, s.phase, s.cells, s.elems, s.owner, s.done, s.headers, s.cons)
    requires t < |s.cons| && n < |s.phase| && s.phase[n] == Loose(t)
    requires n < |s.order| && s.order[n] < |s.where| && s.where[s.order[n]] == n && AllDone(s.done, n)
    ensures OthersOk(s.order, s.where[s.order[n] := IN_POOL], s.phase[n := Gone], s.cells, s.elems, s.owner, s.done, s.headers, s.cons, t)
  {
    var where', phase' := s.where[s.order[n] := IN_POOL], s.phase[n := Gone];
    forall u | 0 <= u < |s.cons| && u != t
      ensures ConsumerOk(s.order, where', phase', s.cells, s.elems, s.owner, s.done, s.headers, u, s.cons[u])
    {
      assert ConsumerOk(s.order, s.where, s.phase, s.cells, s.elems, s.owner, s.done, s.headers, u, s.cons[u]);
      if s.cons[u].Busy? {
        WantedStay(s, n, s.cons[u].index, s.cons[u].end);
      }
    }
  }

  lemma AddOwn(s: State, t: Tid, c: Consumer, n: nat, c': Consumer)
    requires Inv(s) && t < |s.cons| && s.cons[t] == c && c.Busy? && c.stage.AddBlock? && c.stage.num == n && n < |s.phase|
    requires c.stage.h < |s.headers| && c' == Advance(s.headers, c, c.stage.h, c.stage.slot)
    requires AllDone(s.done, n) && s.order[n] < |s.where| && s.where[s.order[n]] == n
    ensures ConsumerOk(s.order, s.where[s.order[n] := IN_POOL], s.phase[n := Gone], s.cells, s.elems, s.owner, s.done, s.headers, t, c')
  {
    ConsumerFacts(s, t);
    if c.from < c.end {
      WantedStay(s, n, c.index, c.end);
      NextSlotAt(s.headers, c.stage.h, c.stage.slot, n, Num(c.end - 1));
      NumUnique(c.index, n + 1);
    }
  }

  lemma ConsumeMoves(s: State, t: Tid)
    requires Inv(s) && t < |s.cons| && s.cons[t].Busy?
    ensures ConsumeInBounds(s, t) && Inv(ConsumeStep(s, t))
  {
    var c := s.cons[t];
    match c.stage
    case LoadHeader => LoadHeaderMoves(s, t);
    case LoadTail(h) => LoadTailMoves(s, t, h);
    case ReadKey(h, front, num) => ReadKeyMoves(s, t, h, front, num);
    case ReadValue(h, slot) => ReadValueMoves(s, t, h, slot);
    case Take(h, slot, b) => TakeMoves(s, t, c, h, slot, b);
    case SetEmpty(h, slot, b) => SetEmptyMoves(s, t, c, h, slot, b);
    case NullEntry(h, slot, b, n) => NullEntryMoves(s, t, c, h, slot, b, n);
    case AddBlock(h, slot, b, n) => AddBlockMoves(s, t, c, h, slot, b, n);
  }
}
