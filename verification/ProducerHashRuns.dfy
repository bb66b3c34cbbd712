module ProducerHashRuns {
  /** What the table from thread ids to implicit producers guarantees in every run. */

  import opened Basics
  import opened ProducerHash
  import opened ProducerHashLoad
  import opened ProducerHashSteps

  // ---- Looking up ----

  /**
    The probe loops of a lookup by a thread between calls, over the newest table and those before
    it: they end, and find the thread's producer exactly when it has one.
   */
  method FindProducer(s: State, t: Tid) returns (found: bool, value: ProducerId)
    requires Inv(s) && t < |s.pcs| && s.pcs[t].Idle?
    ensures t < |s.member| && (found <==> s.member[t].Member?)
    ensures found ==> value == s.member[t].producer
  {
    Mine(s, t);
    found, value := false, 0;
    var hash := |s.tables| - 1;
    while hash >= 0
      invariant -1 <= hash < |s.tables| && AbsentFrom(s.tables, t, hash + 1)
      decreases hash
    {
      var j: nat := hash;
      var tb := s.tables[j];
      assert TableAt(s, j) && LinkOk(s.tables, j);
      ghost var d: nat := 0;
      var index: nat := Home(s.hash[t], |tb.keys|);
      while tb.keys[index] != Empty && tb.keys[index] != Full(t)
        invariant index < |tb.keys| && Probing(s.tables, s.hash[t], j, index, d) && NotAmongFirst(s.tables, s.hash[t], j, d, t)
        decreases |tb.keys| - d
      {
        NextProbe(s, t, j, index, d);
        index := Wrapped(index + 1, |tb.keys|);
        d := d + 1;
      }
      if tb.keys[index] == Full(t) {
        FoundValue(s, t, j, index);
        return true, tb.vals[index];
      }
      NotMetIsAbsent(tb, s.hash, s.reg, t, d);
      hash := tb.prev;
    }
  }

  // ---- Every run ----

  ghost predicate Next(s: State, a: Action, s': State) {
    Enabled(s, a) && InBounds(s, a) && s' == Apply(s, a)
  }

  ghost predicate StepAt(run: seq<State>, acts: seq<Action>, i: nat) {
    i < |acts| && i + 1 < |run| && Next(run[i], acts[i], run[i + 1])
  }

  ghost predicate IsRun(run: seq<State>, acts: seq<Action>) {
    && |run| == |acts| + 1
    && Init(run[0])
    && forall i :: 0 <= i < |acts| ==> StepAt(run, acts, i)
  }

  lemma {:induction false} RunsAreSafe(run: seq<State>, acts: seq<Action>, i: nat)
    requires IsRun(run, acts) && i < |run|
    ensures Inv(run[i])
    decreases i
  {
    if i == 0 {
      InitInv(run[0]);
    } else {
      RunsAreSafe(run, acts, i - 1);
      assert StepAt(run, acts, i - 1);
      ApplyInv(run[i - 1], acts[i - 1]);
    }
  }

  /** A thread gets the same producer from every call that does not fail, and no other thread gets it. */
  lemma AlwaysTheSameProducer(run: seq<State>, acts: seq<Action>, n: nat, t: Tid, u: Tid, i: nat, j: nat)
    requires IsRun(run, acts) && n < |run| && t < |run[n].results| && u < |run[n].results|
    requires i < |run[n].results[t]| && j < |run[n].results[u]|
    ensures run[n].results[t][i] == run[n].results[u][j] <==> t == u
  {
    RunsAreSafe(run, acts, n);
    ResultHasOwner(run[n], t, i);
    ResultHasOwner(run[n], u, j);
  }

  lemma ResultHasOwner(s: State, t: Tid, i: nat)
    requires Inv(s) && t < |s.results| && i < |s.results[t]|
    ensures t < |s.member| && s.member[t].Member? && s.results[t][i] == s.member[t].producer
    ensures s.results[t][i] < |s.ownerOf| && s.ownerOf[s.results[t][i]] == t
  {
    var value := s.results[t][i];
    assert ResultOk(s.member[t], s.results[t]);
    assert ThreadOk(s.tables, s.reg, s.ownerOf, s.holder, s.hash[t], s.member[t], t, s.pcs[t]);
  }

  /** No table holds an id twice, and copies of an id agree with the original. */
  lemma CopiesAgree(s: State, j: nat, i: nat, j': nat, i': nat)
    requires Inv(s) && j < |s.tables| && j' < |s.tables| && i < |s.tables[j].keys| && i' < |s.tables[j'].keys|
    requires s.tables[j].keys[i].Full? && s.tables[j].keys[i] == s.tables[j'].keys[i']
    requires s.tables[j].keys[i].tid < |s.pcs| && !s.pcs[s.tables[j].keys[i].tid].StoreValue?
    ensures j == j' ==> i == i'
    ensures i < |s.tables[j].vals| && i' < |s.tables[j'].vals| && s.tables[j].vals[i] == s.tables[j'].vals[i']
  {
    assert ValueOk(s.tables, s.member, s.pcs, j, i);
    assert ValueOk(s.tables, s.member, s.pcs, j', i');
    assert TableOk(s.tables[j], s.hash, s.reg);
    assert Different(s.tables[j].keys, if i < i' then i else i', if i < i' then i' else i);
  }

  /** In every reachable state a table that is not empty has fewer keys than three quarters of its slots, and an empty slot. */
  lemma TablesAreNeverFull(run: seq<State>, acts: seq<Action>, n: nat, j: nat)
    requires IsRun(run, acts) && n < |run| && j < |run[n].tables|
    ensures var keys := run[n].tables[j].keys;
            && Load(keys) == |KeySet(keys)|
            && (Load(keys) == 0 || Load(keys) < Limit(|keys|))
            && exists i :: 0 <= i < |keys| && keys[i] == Empty
  {
    RunsAreSafe(run, acts, n);
    var tb := run[n].tables[j];
    assert TableOk(tb, run[n].hash, run[n].reg);
    LoadBound(tb, run[n].hash, run[n].reg);
    LoadIsSize(tb.keys);
    if forall i :: 0 <= i < |tb.keys| ==> tb.keys[i].Full? {
      AllTaken(tb.keys);
    }
  }

  /** After a table is added there is room for the thread that added it. */
  lemma GrowingMakesRoom(s: State, t: Tid, main: nat, n: int)
    requires Inv(s) && t < |s.pcs| && s.pcs[t] == Allocate(main, n)
    ensures InBounds(s, Step(t))
    ensures var s' := StepOf(s, t);
            s'.pcs[t].Unlock? && s'.pcs[t].main < |s'.tables| && n < Limit(Capacity(s'.tables, s'.pcs[t].main))
  {
    Mine(s, t);
  }
}
