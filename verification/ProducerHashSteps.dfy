/** Every step of the table from thread ids to implicit producers keeps its invariant. */
module ProducerHashSteps {
  import opened Basics
  import opened ProducerHash
  import opened ProducerHashLoad

  // ---- What a thread relies on when another thread moves ----

  ghost predicate OthersOk(tables: seq<Table>, reg: seq<Tid>, ownerOf: seq<Tid>, holder: Holder, hash: seq<nat>,
                           member: seq<Membership>, pcs: seq<Pc>, u: Tid) {
    && |hash| == |member| == |pcs|
    && forall t :: 0 <= t < |pcs| && t != u ==> ThreadOk(tables, reg, ownerOf, holder, hash[t], member[t], t, pcs[t])
  }

  lemma OthersAndOne(tables: seq<Table>, reg: seq<Tid>, ownerOf: seq<Tid>, holder: Holder, hash: seq<nat>,
                     member: seq<Membership>, pcs: seq<Pc>, u: Tid, m: Membership, pc: Pc)
    requires OthersOk(tables, reg, ownerOf, holder, hash, member, pcs, u) && u < |pcs|
    requires ThreadOk(tables, reg, ownerOf, holder, hash[u], m, u, pc)
    ensures ThreadsOk(tables, reg, ownerOf, holder, hash, member[u := m], pcs[u := pc])
  {
    var member', pcs' := member[u := m], pcs[u := pc];
    forall t | 0 <= t < |pcs'| ensures ThreadOk(tables, reg, ownerOf, holder, hash[t], member'[t], t, pcs'[t]) {
      if t != u {
        assert ThreadOk(tables, reg, ownerOf, holder, hash[t], member[t], t, pcs[t]);
      }
    }
  }

  /** Keys stay where they are, and no new one is t's. */
  ghost predicate KeysGrow(keys: seq<Slot>, keys': seq<Slot>, t: Tid) {
    && |keys'| == |keys|
    && forall i :: 0 <= i < |keys| ==> (keys[i].Full? ==> keys'[i] == keys[i]) && (keys'[i] == Full(t) ==> keys[i] == Full(t))
  }

  ghost predicate TablesGrow(tables: seq<Table>, tables': seq<Table>, t: Tid) {
    |tables'| == |tables| && forall a :: 0 <= a < |tables| ==> KeysGrow(tables[a].keys, tables'[a].keys, t)
  }

  lemma AbsentStays(tables: seq<Table>, tables': seq<Table>, t: Tid, from: nat)
    requires TablesGrow(tables, tables', t) && AbsentFrom(tables, t, from)
    ensures AbsentFrom(tables', t, from)
  {
    forall a | from <= a < |tables'| ensures NotIn(tables'[a], t) {
      assert KeysGrow(tables[a].keys, tables'[a].keys, t) && NotIn(tables[a], t);
    }
  }

  lemma SettledStays(tables: seq<Table>, tables': seq<Table>, reg: seq<Tid>, ownerOf: seq<Tid>, m: Membership, t: Tid)
    requires TablesGrow(tables, tables', t) && Settled(tables, reg, ownerOf, m, t)
    ensures Settled(tables', reg, ownerOf, m, t)
  {
    match m
    case Outside => AbsentStays(tables, tables', t, 0);
    case Member(p, j, i) => assert KeysGrow(tables[j].keys, tables'[j].keys, t);
  }

  lemma ProbingStays(tables: seq<Table>, tables': seq<Table>, t: Tid, hash: nat, j: nat, index: nat, d: nat)
    requires TablesGrow(tables, tables', t) && Probing(tables, hash, j, index, d)
    ensures Probing(tables', hash, j, index, d)
  {
    assert KeysGrow(tables[j].keys, tables'[j].keys, t);
  }

  lemma NotAmongStays(tables: seq<Table>, tables': seq<Table>, t: Tid, hash: nat, j: nat, d: nat)
    requires TablesGrow(tables, tables', t) && NotAmongFirst(tables, hash, j, d, t)
    ensures NotAmongFirst(tables', hash, j, d, t)
  {
    assert KeysGrow(tables[j].keys, tables'[j].keys, t);
  }

  /** What thread t relies on is kept when other threads take slots or store values. */
  lemma TablesOfOther(tables: seq<Table>, tables': seq<Table>, reg: seq<Tid>, ownerOf: seq<Tid>, holder: Holder, hash: nat,
                      m: Membership, t: Tid, pc: Pc)
    requires ThreadOk(tables, reg, ownerOf, holder, hash, m, t, pc) && TablesGrow(tables, tables', t)
    ensures ThreadOk(tables', reg, ownerOf, holder, hash, m, t, pc)
  {
    assert forall a :: 0 <= a < |tables| ==> KeysGrow(tables[a].keys, tables'[a].keys, t);
    if AbsentFrom(tables, t, 0) {
      AbsentStays(tables, tables', t, 0);
    }
    if Settled(tables, reg, ownerOf, m, t) {
      SettledStays(tables, tables', reg, ownerOf, m, t);
    }
    match pc
    case Look(main, table, index, d) =>
      AbsentStays(tables, tables', t, table + 1);
      ProbingStays(tables, tables', t, hash, table, index, d);
      NotAmongStays(tables, tables', t, hash, table, d);
    case CopyKey(main, index, d, value) =>
      AbsentStays(tables, tables', t, main);
      ProbingStays(tables, tables', t, hash, main, index, d);
    case InsertKey(main, index, d, value) =>
      ProbingStays(tables, tables', t, hash, main, index, d);
    case _ =>
  }

  /** Thread u takes an empty slot. */
  lemma OtherTakesKey(tables: seq<Table>, reg: seq<Tid>, ownerOf: seq<Tid>, holder: Holder, hash: nat, m: Membership,
                      t: Tid, pc: Pc, j: nat, i: nat, u: Tid)
    requires ThreadOk(tables, reg, ownerOf, holder, hash, m, t, pc) && t != u
    requires j < |tables| && i < |tables[j].keys| && tables[j].keys[i] == Empty
    ensures ThreadOk(WithKey(tables, j, i, u), reg, ownerOf, holder, hash, m, t, pc)
  {
    TablesOfOther(tables, WithKey(tables, j, i, u), reg, ownerOf, holder, hash, m, t, pc);
  }

  /** Only the values of a table change. */
  lemma OtherStoresValue(tables: seq<Table>, reg: seq<Tid>, ownerOf: seq<Tid>, holder: Holder, hash: nat, m: Membership,
                         t: Tid, pc: Pc, j: nat, i: nat, value: ProducerId)
    requires ThreadOk(tables, reg, ownerOf, holder, hash, m, t, pc) && j < |tables| && i < |tables[j].vals|
    ensures ThreadOk(WithValue(tables, j, i, value), reg, ownerOf, holder, hash, m, t, pc)
  {
    TablesOfOther(tables, WithValue(tables, j, i, value), reg, ownerOf, holder, hash, m, t, pc);
  }

  /** Thread u, which holds the lock, adds a table. */
  lemma OtherAddsTable(tables: seq<Table>, reg: seq<Tid>, ownerOf: seq<Tid>, hash: nat, m: Membership,
                       t: Tid, pc: Pc, prev: nat, capacity: nat, u: Tid)
    requires ThreadOk(tables, reg, ownerOf, HeldBy(u), hash, m, t, pc) && (t != u || !pc.Allocate?)
    ensures ThreadOk(tables + [NewTable(prev, capacity)], reg, ownerOf, HeldBy(u), hash, m, t, pc)
  {
    var tables' := tables + [NewTable(prev, capacity)];
    assert NotIn(tables'[|tables|], t);
  }

  lemma OtherIsCounted(tables: seq<Table>, reg: seq<Tid>, ownerOf: seq<Tid>, holder: Holder, hash: nat, m: Membership, t: Tid, pc: Pc, u: Tid)
    requires ThreadOk(tables, reg, ownerOf, holder, hash, m, t, pc) && t != u
    ensures ThreadOk(tables, reg + [u], ownerOf, holder, hash, m, t, pc)
  {
    AmongMore(reg, t, u);
  }

  lemma AmongMore(reg: seq<Tid>, t: Tid, u: Tid)
    ensures forall n :: Among(reg, t, n) ==> Among(reg + [u], t, n)
  {
    forall n | Among(reg, t, n) ensures Among(reg + [u], t, n) {
      var i :| 0 <= i < n && i < |reg| && reg[i] == t;
      assert (reg + [u])[i] == t;
    }
  }

  lemma OtherIsDropped(tables: seq<Table>, reg: seq<Tid>, ownerOf: seq<Tid>, holder: Holder, hash: nat, m: Membership, t: Tid, pc: Pc, u: Tid)
    requires ThreadOk(tables, reg, ownerOf, holder, hash, m, t, pc) && t != u
    ensures ThreadOk(tables, Without(reg, u), ownerOf, holder, hash, m, t, pc)
  {
    AmongLess(reg, t, u);
    if t in Without(reg, u) {
      WithoutMembers(reg, u, t);
    }
  }

  lemma AmongLess(reg: seq<Tid>, t: Tid, u: Tid)
    requires t != u
    ensures forall n :: Among(reg, t, n) ==> Among(Without(reg, u), t, n)
  {
    forall n | Among(reg, t, n) ensures Among(Without(reg, u), t, n) {
      WithoutAmong(reg, u, t, n);
    }
  }

  // ---- Tables ----

  lemma TakenMore(keys: seq<Slot>, home: nat, d: nat, i: nat, u: Tid)
    requires Taken(keys, home, d) && i < |keys|
    ensures Taken(keys[i := Full(u)], home, d)
  {
  }

  /** Taking the empty slot a probe sequence has come to. */
  lemma TableTakesKey(tb: Table, hash: seq<nat>, reg: seq<Tid>, d: nat, i: nat, u: Tid)
    requires TableOk(tb, hash, reg) && u < |hash| && i < |tb.keys| && tb.keys[i] == Empty && d < |tb.keys|
    requires i == Probe(Home(hash[u], |tb.keys|), d, |tb.keys|) && Taken(tb.keys, Home(hash[u], |tb.keys|), d)
    requires NotIn(tb, u) && Among(reg, u, Limit(|tb.keys|) - 1)
    ensures TableOk(tb.(keys := tb.keys[i := Full(u)]), hash, reg)
  {
    var tb' := tb.(keys := tb.keys[i := Full(u)]);
    forall k | 0 <= k < |tb'.keys| ensures KeyOk(tb', hash, reg, k) {
      assert KeyOk(tb, hash, reg, k);
      if k != i && tb.keys[k].Full? {
        var home := Home(hash[tb.keys[k].tid], |tb.keys|);
        TakenMore(tb.keys, home, Distance(home, k, |tb.keys|), i, u);
      } else if k == i {
        TakenMore(tb.keys, Home(hash[u], |tb.keys|), d, i, u);
      }
    }
    forall a, b | 0 <= a < b < |tb'.keys| ensures Different(tb'.keys, a, b) {
      assert Different(tb.keys, a, b);
    }
  }

  lemma TablesTakeKey(tables: seq<Table>, hash: seq<nat>, reg: seq<Tid>, j: nat, d: nat, i: nat, u: Tid)
    requires TablesOk(tables, hash, reg) && u < |hash| && j < |tables| && i < |tables[j].keys| && tables[j].keys[i] == Empty
    requires Probing(tables, hash[u], j, i, d) && NotIn(tables[j], u) && Among(reg, u, Limit(|tables[j].keys|) - 1)
    ensures TablesOk(WithKey(tables, j, i, u), hash, reg)
  {
    var tables' := WithKey(tables, j, i, u);
    TableTakesKey(tables[j], hash, reg, d, i, u);
    forall a | 0 <= a < |tables'| ensures LinkOk(tables', a) {
      assert LinkOk(tables, a);
    }
  }

  lemma TablesStoreValue(tables: seq<Table>, hash: seq<nat>, reg: seq<Tid>, j: nat, i: nat, value: ProducerId)
    requires TablesOk(tables, hash, reg) && j < |tables| && i < |tables[j].vals|
    ensures TablesOk(WithValue(tables, j, i, value), hash, reg)
  {
    var tables' := WithValue(tables, j, i, value);
    forall k | 0 <= k < |tables'[j].keys| ensures KeyOk(tables'[j], hash, reg, k) {
      assert KeyOk(tables[j], hash, reg, k);
    }
    forall a | 0 <= a < |tables'| ensures LinkOk(tables', a) {
      assert LinkOk(tables, a);
    }
  }

  lemma TablesAdd(tables: seq<Table>, hash: seq<nat>, reg: seq<Tid>, capacity: nat)
    requires TablesOk(tables, hash, reg) && capacity >= 2 * |tables[|tables| - 1].keys|
    ensures TablesOk(tables + [NewTable(|tables| - 1, capacity)], hash, reg)
  {
    var tables' := tables + [NewTable(|tables| - 1, capacity)];
    assert TableOk(tables[|tables| - 1], hash, reg);
    assert TableOk(tables'[|tables|], hash, reg);
    forall a | 0 <= a < |tables'| ensures LinkOk(tables', a) {
      assert a < |tables| ==> LinkOk(tables, a);
    }
  }

  /** The counted threads change, but not those whose ids are in tables. */
  lemma TablesCount(tables: seq<Table>, hash: seq<nat>, reg: seq<Tid>, reg': seq<Tid>)
    requires TablesOk(tables, hash, reg)
    requires forall j: nat, i: nat, n :: j < |tables| && i < |tables[j].keys| && tables[j].keys[i].Full? && Among(reg, tables[j].keys[i].tid, n)
               ==> Among(reg', tables[j].keys[i].tid, n)
    ensures TablesOk(tables, hash, reg')
  {
    forall j | 0 <= j < |tables| ensures TableOk(tables[j], hash, reg') {
      assert TableOk(tables[j], hash, reg);
      forall i | 0 <= i < |tables[j].keys| ensures KeyOk(tables[j], hash, reg', i) {
        assert KeyOk(tables[j], hash, reg, i);
      }
    }
  }

  lemma {:induction false} CapacityGrows(tables: seq<Table>, i: nat, j: nat)
    requires i <= j < |tables| && forall k :: 0 <= k < |tables| ==> LinkOk(tables, k)
    ensures |tables[i].keys| <= |tables[j].keys|
    decreases j
  {
    if i < j {
      CapacityGrows(tables, i, j - 1);
      assert LinkOk(tables, j);
    }
  }

  // ---- Values ----

  lemma ValuesUnmoved(tables: seq<Table>, member: seq<Membership>, pcs: seq<Pc>, u: Tid, pc: Pc)
    requires ValuesOk(tables, member, pcs) && u < |pcs| && !pcs[u].StoreValue?
    ensures ValuesOk(tables, member, pcs[u := pc])
  {
    var pcs' := pcs[u := pc];
    forall j: nat, i: nat | j < |tables| && i < |tables[j].keys| ensures ValueOk(tables, member, pcs', j, i) {
      assert ValueOk(tables, member, pcs, j, i);
    }
  }

  lemma ValuesTakeKey(tables: seq<Table>, member: seq<Membership>, pcs: seq<Pc>, j: nat, i: nat, u: Tid, m: Membership, value: ProducerId)
    requires ValuesOk(tables, member, pcs) && u < |pcs| == |member| && !pcs[u].StoreValue? && j < |tables| && i < |tables[j].keys| == |tables[j].vals|
    requires m.Member? && (m == member[u] || AbsentFrom(tables, u, 0))
    ensures ValuesOk(WithKey(tables, j, i, u), member[u := m], pcs[u := StoreValue(j, i, value)])
  {
    var tables', member', pcs' := WithKey(tables, j, i, u), member[u := m], pcs[u := StoreValue(j, i, value)];
    forall a: nat, b: nat | a < |tables'| && b < |tables'[a].keys| ensures ValueOk(tables', member', pcs', a, b) {
      assert ValueOk(tables, member, pcs, a, b);
      assert AbsentFrom(tables, u, 0) ==> NotIn(tables[a], u);
    }
  }

  lemma ValuesStore(tables: seq<Table>, member: seq<Membership>, pcs: seq<Pc>, j: nat, i: nat, u: Tid, value: ProducerId)
    requires ValuesOk(tables, member, pcs) && u < |pcs| == |member| && j < |tables| && i < |tables[j].keys| == |tables[j].vals|
    requires tables[j].keys[i] == Full(u) && member[u].Member? && value == member[u].producer && pcs[u] == StoreValue(j, i, value)
    ensures ValuesOk(WithValue(tables, j, i, value), member, pcs[u := Idle])
  {
    var tables', pcs' := WithValue(tables, j, i, value), pcs[u := Idle];
    forall a: nat, b: nat | a < |tables'| && b < |tables'[a].keys| ensures ValueOk(tables', member, pcs', a, b) {
      assert ValueOk(tables, member, pcs, a, b);
    }
  }

  lemma ValuesAdd(tables: seq<Table>, member: seq<Membership>, pcs: seq<Pc>, tb: Table)
    requires ValuesOk(tables, member, pcs) && forall i :: 0 <= i < |tb.keys| ==> tb.keys[i] == Empty
    ensures ValuesOk(tables + [tb], member, pcs)
  {
    forall a: nat, b: nat | a < |tables| + 1 && b < |(tables + [tb])[a].keys| ensures ValueOk(tables + [tb], member, pcs, a, b) {
      assert a < |tables| ==> ValueOk(tables, member, pcs, a, b);
    }
  }

  // ---- Steps ----

  /** A step that changes only the thread's own position. */
  lemma OwnStep(s: State, t: Tid, pc: Pc)
    requires Inv(s) && t < |s.pcs| && !s.pcs[t].StoreValue?
    requires ThreadOk(s.tables, s.reg, s.ownerOf, s.holder, s.hash[t], s.member[t], t, pc)
    ensures Inv(Goto(s, t, pc))
  {
    ValuesUnmoved(s.tables, s.member, s.pcs, t, pc);
    OthersAndOne(s.tables, s.reg, s.ownerOf, s.holder, s.hash, s.member, s.pcs, t, s.member[t], pc);
    assert s.member[t := s.member[t]] == s.member;
  }

  lemma Mine(s: State, t: Tid)
    requires Inv(s) && t < |s.pcs|
    ensures |s.hash| == |s.member| == |s.results| == |s.pcs| && s.tables != []
    ensures ThreadOk(s.tables, s.reg, s.ownerOf, s.holder, s.hash[t], s.member[t], t, s.pcs[t])
    ensures forall j: nat :: j < |s.tables| ==> TableAt(s, j)
  {
    forall j: nat | j < |s.tables| ensures TableAt(s, j) {
      assert TableOk(s.tables[j], s.hash, s.reg);
    }
  }

  lemma LoadMainMoves(s: State, t: Tid)
    requires Inv(s) && t < |s.pcs| && s.pcs[t].LoadMain?
    ensures InBounds(s, Step(t)) && Inv(StepOf(s, t))
  {
    Mine(s, t);
    OwnStep(s, t, StepOf(s, t).pcs[t]);
  }

  /** The next slot of a probe sequence. */
  lemma NextProbe(s: State, t: Tid, j: nat, index: nat, d: nat)
    requires Inv(s) && t < |s.pcs| && j < |s.tables| && t < |s.hash| && Probing(s.tables, s.hash[t], j, index, d)
    requires index < |s.tables[j].keys| && s.tables[j].keys[index].Full?
    ensures Probing(s.tables, s.hash[t], j, Wrapped(index + 1, |s.tables[j].keys|), d + 1)
  {
    var tb := s.tables[j];
    var home := Home(s.hash[t], |tb.keys|);
    assert Taken(tb.keys, home, d + 1);
    ProbeMeetsEmpty(tb, s.hash, s.reg, home, d + 1);
  }

  lemma FoundValue(s: State, t: Tid, j: nat, i: nat)
    requires Inv(s) && t < |s.pcs| && j < |s.tables| && i < |s.tables[j].keys| && s.tables[j].keys[i] == Full(t) && !s.pcs[t].StoreValue?
    ensures i < |s.tables[j].vals| && t < |s.member| && s.member[t].Member? && s.tables[j].vals[i] == s.member[t].producer
  {
    assert ValueOk(s.tables, s.member, s.pcs, j, i);
  }

  lemma LookBounds(s: State, t: Tid, main: nat, table: nat, index: nat, d: nat)
    requires Inv(s) && t < |s.pcs| && s.pcs[t] == Look(main, table, index, d)
    ensures InBounds(s, Step(t)) && s.tables[table].prev == table - 1
  {
    Mine(s, t);
    assert LinkOk(s.tables, table);
  }

  lemma LookMoves(s: State, t: Tid, main: nat, table: nat, index: nat, d: nat)
    requires Inv(s) && t < |s.pcs| && s.pcs[t] == Look(main, table, index, d)
    ensures InBounds(s, Step(t)) && Inv(LookStep(s, t, main, table, index, d))
  {
    Mine(s, t);
    LookBounds(s, t, main, table, index, d);
    var tb := s.tables[table];
    if tb.keys[index] == Full(t) {
      FoundValue(s, t, table, index);
      if table == main { ReturnMoves(s, t, tb.vals[index]); } else { LookToCopy(s, t, main, table, index, d); }
    } else if tb.keys[index] == Empty {
      LookOn(s, t, main, table, index, d);
    } else {
      NextProbe(s, t, table, index, d);
      OwnStep(s, t, Look(main, table, Wrapped(index + 1, |tb.keys|), d + 1));
    }
  }

  lemma ReturnMoves(s: State, t: Tid, value: ProducerId)
    requires Inv(s) && t < |s.pcs| == |s.results| && s.pcs[t].Look? && s.member[t].Member? && value == s.member[t].producer
    ensures Inv(Return(s, t, value))
  {
    Mine(s, t);
    OwnStep(s, t, Idle);
    ResultMore(s.member, s.results, t, value);
  }

  lemma ResultMore(member: seq<Membership>, results: seq<seq<ProducerId>>, t: Tid, value: ProducerId)
    requires ResultsOk(member, results) && t < |results| && member[t].Member? && value == member[t].producer
    ensures ResultsOk(member, results[t := results[t] + [value]])
  {
    assert ResultOk(member[t], results[t]);
  }

  lemma LookToCopy(s: State, t: Tid, main: nat, table: nat, index: nat, d: nat)
    requires Inv(s) && t < |s.pcs| && s.pcs[t] == Look(main, table, index, d) && InBounds(s, Step(t)) && table != main
    requires s.tables[table].keys[index] == Full(t)
    ensures Inv(LookStep(s, t, main, table, index, d))
  {
    Mine(s, t);
    FoundValue(s, t, table, index);
    OwnStep(s, t, CopyKey(main, Home(s.hash[t], |s.tables[main].keys|), 0, s.tables[table].vals[index]));
  }

  /** An empty slot: the id is not in this table. */
  lemma LookOn(s: State, t: Tid, main: nat, table: nat, index: nat, d: nat)
    requires Inv(s) && t < |s.pcs| && s.pcs[t] == Look(main, table, index, d) && InBounds(s, Step(t)) && s.tables[table].keys[index] == Empty
    ensures Inv(LookStep(s, t, main, table, index, d))
  {
    Mine(s, t);
    LookBounds(s, t, main, table, index, d);
    NotMetIsAbsent(s.tables[table], s.hash, s.reg, t, d);
    assert AbsentFrom(s.tables, t, table);
    OwnStep(s, t, LookStep(s, t, main, table, index, d).pcs[t]);
  }

  lemma KeyTaken(s: State, t: Tid, j: nat, i: nat, d: nat, m: Membership, value: ProducerId)
    requires Inv(s) && t < |s.pcs| && !s.pcs[t].StoreValue? && j < |s.tables| && i < |s.tables[j].keys| && s.tables[j].keys[i] == Empty
    requires Probing(s.tables, s.hash[t], j, i, d) && NotIn(s.tables[j], t) && Among(s.reg, t, Limit(|s.tables[j].keys|) - 1)
    requires m.Member? && value == m.producer && (m == s.member[t] || (AbsentFrom(s.tables, t, 0) && m.at == j && m.slot == i))
    requires m.producer < |s.ownerOf| && s.ownerOf[m.producer] == t
    requires Settled(s.tables, s.reg, s.ownerOf, s.member[t], t) || s.member[t] == Outside
    ensures Inv(Goto(s, t, StoreValue(j, i, value)).(tables := WithKey(s.tables, j, i, t), member := s.member[t := m]))
  {
    Mine(s, t);
    var tables' := WithKey(s.tables, j, i, t);
    TablesTakeKey(s.tables, s.hash, s.reg, j, d, i, t);
    ValuesTakeKey(s.tables, s.member, s.pcs, j, i, t, m, value);
    forall u | 0 <= u < |s.pcs| && u != t
      ensures ThreadOk(tables', s.reg, s.ownerOf, s.holder, s.hash[u], s.member[u], u, s.pcs[u])
    {
      assert ThreadOk(s.tables, s.reg, s.ownerOf, s.holder, s.hash[u], s.member[u], u, s.pcs[u]);
      OtherTakesKey(s.tables, s.reg, s.ownerOf, s.holder, s.hash[u], s.member[u], u, s.pcs[u], j, i, t);
    }
    OthersAndOne(tables', s.reg, s.ownerOf, s.holder, s.hash, s.member, s.pcs, t, m, StoreValue(j, i, value));
    MemberResults(s, t, m);
  }

  lemma MemberResults(s: State, t: Tid, m: Membership)
    requires ResultsOk(s.member, s.results) && t < |s.member| && (m == s.member[t] || s.member[t] == Outside)
    ensures ResultsOk(s.member[t := m], s.results)
  {
    assert ResultOk(s.member[t], s.results[t]);
    forall u | 0 <= u < |s.results| ensures ResultOk(s.member[t := m][u], s.results[u]) {
      assert ResultOk(s.member[u], s.results[u]);
    }
  }

  /** A copied id was counted early enough for the smaller table, hence for the bigger. */
  lemma CopyIsEarly(s: State, t: Tid, main: nat)
    requires Inv(s) && t < |s.pcs| && t < |s.member| && s.member[t].Member? && s.member[t].at < main < |s.tables|
    requires Settled(s.tables, s.reg, s.ownerOf, s.member[t], t)
    ensures Among(s.reg, t, Limit(|s.tables[main].keys|) - 1)
  {
    var j, i := s.member[t].at, s.member[t].slot;
    assert TableOk(s.tables[j], s.hash, s.reg);
    assert KeyOk(s.tables[j], s.hash, s.reg, i);
    CapacityGrows(s.tables, j, main);
    var k :| 0 <= k < Limit(|s.tables[j].keys|) - 1 && k < |s.reg| && s.reg[k] == t;
  }

  lemma CopyKeyMoves(s: State, t: Tid, main: nat, index: nat, d: nat, value: ProducerId)
    requires Inv(s) && t < |s.pcs| && s.pcs[t] == CopyKey(main, index, d, value)
    ensures InBounds(s, Step(t)) && Inv(CopyKeyStep(s, t, main, index, d, value))
  {
    Mine(s, t);
    if s.tables[main].keys[index] == Empty {
      CopyIsEarly(s, t, main);
      assert NotIn(s.tables[main], t);
      KeyTaken(s, t, main, index, d, s.member[t], value);
      assert s.member[t := s.member[t]] == s.member;
    } else {
      NextProbe(s, t, main, index, d);
      OwnStep(s, t, CopyKey(main, Wrapped(index + 1, |s.tables[main].keys|), d + 1, value));
    }
  }

  lemma InsertKeyMoves(s: State, t: Tid, main: nat, index: nat, d: nat, value: ProducerId)
    requires Inv(s) && t < |s.pcs| && s.pcs[t] == InsertKey(main, index, d, value)
    ensures InBounds(s, Step(t)) && Inv(InsertKeyStep(s, t, main, index, d, value))
  {
    Mine(s, t);
    if s.tables[main].keys[index] == Empty {
      assert NotIn(s.tables[main], t);
      KeyTaken(s, t, main, index, d, Member(value, main, index), value);
    } else {
      NextProbe(s, t, main, index, d);
      OwnStep(s, t, InsertKey(main, Wrapped(index + 1, |s.tables[main].keys|), d + 1, value));
    }
  }

  lemma StoreValueMoves(s: State, t: Tid, j: nat, i: nat, value: ProducerId)
    requires Inv(s) && t < |s.pcs| && s.pcs[t] == StoreValue(j, i, value)
    ensures InBounds(s, Step(t)) && Inv(StepOf(s, t))
  {
    Mine(s, t);
    var tables' := WithValue(s.tables, j, i, value);
    TablesStoreValue(s.tables, s.hash, s.reg, j, i, value);
    ValuesStore(s.tables, s.member, s.pcs, j, i, t, value);
    forall u | 0 <= u < |s.pcs|
      ensures ThreadOk(tables', s.reg, s.ownerOf, s.holder, s.hash[u], s.member[u], u, s.pcs[u])
    {
      assert ThreadOk(s.tables, s.reg, s.ownerOf, s.holder, s.hash[u], s.member[u], u, s.pcs[u]);
      OtherStoresValue(s.tables, s.reg, s.ownerOf, s.holder, s.hash[u], s.member[u], u, s.pcs[u], j, i, value);
    }
    assert ThreadOk(tables', s.reg, s.ownerOf, s.holder, s.hash[t], s.member[t], t, s.pcs[t]);
    OthersAndOne(tables', s.reg, s.ownerOf, s.holder, s.hash, s.member, s.pcs, t, s.member[t], Idle);
    assert s.member[t := s.member[t]] == s.member;
    ResultMore(s.member, s.results, t, value);
  }

  lemma FetchAddMoves(s: State, t: Tid, main: nat)
    requires Inv(s) && t < |s.pcs| && s.pcs[t] == FetchAdd(main)
    ensures InBounds(s, Step(t)) && Inv(StepOf(s, t))
  {
    Mine(s, t);
    var reg' := s.reg + [t];
    assert reg'[|s.reg|] == t;
    CountedTables(s, t);
    ValuesUnmoved(s.tables, s.member, s.pcs, t, TryLock(main, s.count + 1));
    forall u | 0 <= u < |s.pcs| && u != t
      ensures ThreadOk(s.tables, reg', s.ownerOf, s.holder, s.hash[u], s.member[u], u, s.pcs[u])
    {
      assert ThreadOk(s.tables, s.reg, s.ownerOf, s.holder, s.hash[u], s.member[u], u, s.pcs[u]);
      OtherIsCounted(s.tables, s.reg, s.ownerOf, s.holder, s.hash[u], s.member[u], u, s.pcs[u], t);
    }
    OthersAndOne(s.tables, reg', s.ownerOf, s.holder, s.hash, s.member, s.pcs, t, s.member[t], TryLock(main, s.count + 1));
    assert s.member[t := s.member[t]] == s.member;
  }

  lemma CountedTables(s: State, t: Tid)
    requires TablesOk(s.tables, s.hash, s.reg)
    ensures TablesOk(s.tables, s.hash, s.reg + [t])
  {
    forall j: nat, i: nat, n | j < |s.tables| && i < |s.tables[j].keys| && s.tables[j].keys[i].Full? && Among(s.reg, s.tables[j].keys[i].tid, n)
      ensures Among(s.reg + [t], s.tables[j].keys[i].tid, n)
    {
      AmongMore(s.reg, s.tables[j].keys[i].tid, t);
    }
    TablesCount(s.tables, s.hash, s.reg, s.reg + [t]);
  }

  /** Thread t stops being counted. */
  lemma DroppedMoves(s: State, t: Tid, pc: Pc)
    requires Inv(s) && t < |s.pcs| && ((s.pcs[t].Allocate? && pc == UnlockFail) || (s.pcs[t].Create? && pc == Idle))
    ensures Inv(Goto(s, t, pc).(count := s.count - 1, reg := Without(s.reg, t)))
  {
    Mine(s, t);
    var reg' := Without(s.reg, t);
    WithoutDistinct(s.reg, t);
    WithoutShorter(s.reg, t);
    DroppedTables(s, t);
    ValuesUnmoved(s.tables, s.member, s.pcs, t, pc);
    forall u | 0 <= u < |s.pcs| && u != t
      ensures ThreadOk(s.tables, reg', s.ownerOf, s.holder, s.hash[u], s.member[u], u, s.pcs[u])
    {
      assert ThreadOk(s.tables, s.reg, s.ownerOf, s.holder, s.hash[u], s.member[u], u, s.pcs[u]);
      OtherIsDropped(s.tables, s.reg, s.ownerOf, s.holder, s.hash[u], s.member[u], u, s.pcs[u], t);
    }
    OthersAndOne(s.tables, reg', s.ownerOf, s.holder, s.hash, s.member, s.pcs, t, s.member[t], pc);
    assert s.member[t := s.member[t]] == s.member;
  }

  lemma DroppedTables(s: State, t: Tid)
    requires TablesOk(s.tables, s.hash, s.reg) && AbsentFrom(s.tables, t, 0)
    ensures TablesOk(s.tables, s.hash, Without(s.reg, t))
  {
    forall j: nat, i: nat, n | j < |s.tables| && i < |s.tables[j].keys| && s.tables[j].keys[i].Full? && Among(s.reg, s.tables[j].keys[i].tid, n)
      ensures Among(Without(s.reg, t), s.tables[j].keys[i].tid, n)
    {
      assert NotIn(s.tables[j], t);
      WithoutAmong(s.reg, t, s.tables[j].keys[i].tid, n);
    }
    TablesCount(s.tables, s.hash, s.reg, Without(s.reg, t));
  }

  /** The resize lock passes to or from thread t. */
  lemma LockMoves(s: State, t: Tid, pc: Pc, holder': Holder)
    requires Inv(s) && t < |s.pcs| && !s.pcs[t].StoreValue?
    requires (s.holder == Nobody && holder' == HeldBy(t)) || (s.holder == HeldBy(t) && holder' == Nobody)
    requires ThreadOk(s.tables, s.reg, s.ownerOf, holder', s.hash[t], s.member[t], t, pc)
    ensures Inv(Goto(s, t, pc).(resizing := holder' != Nobody, holder := holder'))
  {
    ValuesUnmoved(s.tables, s.member, s.pcs, t, pc);
    forall u | 0 <= u < |s.pcs| && u != t
      ensures ThreadOk(s.tables, s.reg, s.ownerOf, holder', s.hash[u], s.member[u], u, s.pcs[u])
    {
      assert ThreadOk(s.tables, s.reg, s.ownerOf, s.holder, s.hash[u], s.member[u], u, s.pcs[u]);
    }
    OthersAndOne(s.tables, s.reg, s.ownerOf, holder', s.hash, s.member, s.pcs, t, s.member[t], pc);
    assert s.member[t := s.member[t]] == s.member;
  }

  lemma TryLockMoves(s: State, t: Tid, main: nat, n: int)
    requires Inv(s) && t < |s.pcs| && s.pcs[t] == TryLock(main, n)
    ensures InBounds(s, Step(t)) && Inv(StepOf(s, t))
  {
    Mine(s, t);
    if n >= Capacity(s.tables, main) / 2 && !s.resizing {
      LockMoves(s, t, Reload(n), HeldBy(t));
    } else {
      OwnStep(s, t, CheckRoom(main, n));
    }
  }

  lemma ReloadMoves(s: State, t: Tid, n: int)
    requires Inv(s) && t < |s.pcs| && s.pcs[t] == Reload(n)
    ensures InBounds(s, Step(t)) && Inv(StepOf(s, t))
  {
    Mine(s, t);
    OwnStep(s, t, StepOf(s, t).pcs[t]);
  }

  lemma AllocateMoves(s: State, t: Tid, main: nat, n: int)
    requires Inv(s) && t < |s.pcs| && s.pcs[t] == Allocate(main, n)
    ensures InBounds(s, Step(t)) && Inv(StepOf(s, t))
  {
    Mine(s, t);
    var capacity := Enough(2 * Capacity(s.tables, main), n);
    var tables' := s.tables + [NewTable(main, capacity)];
    TablesAdd(s.tables, s.hash, s.reg, capacity);
    ValuesAdd(s.tables, s.member, s.pcs, NewTable(main, capacity));
    ValuesUnmoved(tables', s.member, s.pcs, t, Unlock(|s.tables|, n));
    forall u | 0 <= u < |s.pcs| && u != t
      ensures ThreadOk(tables', s.reg, s.ownerOf, s.holder, s.hash[u], s.member[u], u, s.pcs[u])
    {
      assert ThreadOk(s.tables, s.reg, s.ownerOf, s.holder, s.hash[u], s.member[u], u, s.pcs[u]);
      OtherAddsTable(s.tables, s.reg, s.ownerOf, s.hash[u], s.member[u], u, s.pcs[u], main, capacity, t);
    }
    assert NotIn(tables'[|s.tables|], t);
    assert ThreadOk(tables', s.reg, s.ownerOf, s.holder, s.hash[t], s.member[t], t, Unlock(|s.tables|, n));
    OthersAndOne(tables', s.reg, s.ownerOf, s.holder, s.hash, s.member, s.pcs, t, s.member[t], Unlock(|s.tables|, n));
    assert s.member[t := s.member[t]] == s.member;
  }

  lemma UnlockMoves(s: State, t: Tid)
    requires Inv(s) && t < |s.pcs| && (s.pcs[t].Unlock? || s.pcs[t].UnlockFail?)
    ensures InBounds(s, Step(t)) && Inv(StepOf(s, t))
  {
    Mine(s, t);
    LockMoves(s, t, StepOf(s, t).pcs[t], Nobody);
  }

  lemma CheckRoomMoves(s: State, t: Tid, main: nat, n: int)
    requires Inv(s) && t < |s.pcs| && s.pcs[t] == CheckRoom(main, n)
    ensures InBounds(s, Step(t)) && Inv(StepOf(s, t))
  {
    Mine(s, t);
    OwnStep(s, t, StepOf(s, t).pcs[t]);
  }

  lemma OtherCreates(tables: seq<Table>, reg: seq<Tid>, ownerOf: seq<Tid>, holder: Holder, hash: nat, m: Membership, t: Tid, pc: Pc, u: Tid)
    requires ThreadOk(tables, reg, ownerOf, holder, hash, m, t, pc)
    ensures ThreadOk(tables, reg, ownerOf + [u], holder, hash, m, t, pc)
  {
  }

  lemma OwnCreates(tables: seq<Table>, reg: seq<Tid>, ownerOf: seq<Tid>, holder: Holder, hash: nat, m: Membership, t: Tid, main: nat, n: int)
    requires ThreadOk(tables, reg, ownerOf, holder, hash, m, t, Create(main, n)) && 0 < |tables[main].keys|
    ensures ThreadOk(tables, reg, ownerOf + [t], holder, hash, m, t,
                     InsertKey(main, Probe(Home(hash, |tables[main].keys|), 0, |tables[main].keys|), 0, |ownerOf|))
  {
    var i :| 0 <= i < n && i < |reg| && reg[i] == t;
    assert Among(reg, t, Limit(|tables[main].keys|) - 1);
  }

  lemma CreateMoves(s: State, t: Tid, main: nat, n: int)
    requires Inv(s) && t < |s.pcs| && s.pcs[t] == Create(main, n)
    ensures InBounds(s, Step(t)) && Inv(StepOf(s, t))
  {
    Mine(s, t);
    var ownerOf' := s.ownerOf + [t];
    var pc := StepOf(s, t).pcs[t];
    ValuesUnmoved(s.tables, s.member, s.pcs, t, pc);
    forall u | 0 <= u < |s.pcs| && u != t
      ensures ThreadOk(s.tables, s.reg, ownerOf', s.holder, s.hash[u], s.member[u], u, s.pcs[u])
    {
      OtherCreates(s.tables, s.reg, s.ownerOf, s.holder, s.hash[u], s.member[u], u, s.pcs[u], t);
    }
    OwnCreates(s.tables, s.reg, s.ownerOf, s.holder, s.hash[t], s.member[t], t, main, n);
    OthersAndOne(s.tables, s.reg, ownerOf', s.holder, s.hash, s.member, s.pcs, t, s.member[t], pc);
    assert s.member[t := s.member[t]] == s.member;
  }

  lemma StepMoves(s: State, t: Tid)
    requires Inv(s) && t < |s.pcs| && !s.pcs[t].Idle?
    ensures InBounds(s, Step(t)) && Inv(StepOf(s, t))
  {
    match s.pcs[t]
    case LoadMain => LoadMainMoves(s, t);
    case Look(main, table, index, d) => LookMoves(s, t, main, table, index, d);
    case CopyKey(main, index, d, value) => CopyKeyMoves(s, t, main, index, d, value);
    case StoreValue(table, index, value) => StoreValueMoves(s, t, table, index, value);
    case FetchAdd(main) => FetchAddMoves(s, t, main);
    case TryLock(main, n) => TryLockMoves(s, t, main, n);
    case Reload(n) => ReloadMoves(s, t, n);
    case Allocate(main, n) => AllocateMoves(s, t, main, n);
    case Unlock(main, n) => UnlockMoves(s, t);
    case UnlockFail => UnlockMoves(s, t);
    case CheckRoom(main, n) => CheckRoomMoves(s, t, main, n);
    case Create(main, n) => CreateMoves(s, t, main, n);
    case InsertKey(main, index, d, value) => InsertKeyMoves(s, t, main, index, d, value);
  }

  /** Every enabled action is in bounds, which includes that no probe loop outruns its table, and keeps the invariant. */
  lemma ApplyInv(s: State, a: Action)
    requires Inv(s) && Enabled(s, a)
    ensures InBounds(s, a) && Inv(Apply(s, a))
  {
    Mine(s, a.t);
    match a
    case Call(t) => OwnStep(s, t, LoadMain);
    case Step(t) => StepMoves(s, t);
    case FailAlloc(t) => DroppedMoves(s, t, UnlockFail);
    case FailCreate(t) => DroppedMoves(s, t, Idle);
  }
}
