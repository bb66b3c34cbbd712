module ProducerHashTables {
  /**
    When and how far the table of producers grows, and what a call leaves in it: the id of its
    thread is in the newest table there was when it began, or in one that is newer still.
   */

  import opened Basics
  import opened ProducerHash
  import opened ProducerHashSteps
  import opened ProducerHashRuns
  import opened ProducerHashCalls

  // ---- Three quarters ----

  /** The limit on the number of ids is three quarters of the capacity, but for rounding. */
  lemma LimitIsThreeQuarters(capacity: nat)
    ensures 3 * capacity - 6 < 4 * Limit(capacity) <= 3 * capacity
    ensures capacity % 4 == 0 ==> 4 * Limit(capacity) == 3 * capacity
  {
    var q, r := capacity / 4, capacity % 4;
    assert capacity == 4 * q + r && capacity / 2 == 2 * q + r / 2;
  }

  /** A table with keys is less than three quarters full. */
  lemma ThreeQuartersAreNeverReached(run: seq<State>, acts: seq<Action>, n: nat, j: nat)
    requires IsRun(run, acts) && n < |run| && j < |run[n].tables|
    ensures var keys := run[n].tables[j].keys; |keys| > 0 && 4 * ProducerHashLoad.Load(keys) < 3 * |keys|
  {
    TablesAreNeverFull(run, acts, n, j);
    LimitIsThreeQuarters(|run[n].tables[j].keys|);
  }

  /** While another thread adds a table, a thread goes on as long as there is room, and else looks at the newest table again. */
  lemma RoomIsUsedMeanwhile(s: State, t: Tid, main: nat, n: int) returns (s1: State, s2: State)
    requires Inv(s) && t < |s.pcs| && s.pcs[t] == TryLock(main, n) && s.resizing
    ensures main < |s.tables| && Next(s, Step(t), s1) && Next(s1, Step(t), s2)
    ensures s2 == s.(pcs := s.pcs[t := s2.pcs[t]])
    ensures Capacity(s.tables, main) % 4 == 0 ==>
              s2.pcs[t] == if 4 * n < 3 * Capacity(s.tables, main) then Create(main, n) else TryLock(|s.tables| - 1, n)
  {
    ApplyInv(s, Step(t));
    Mine(s, t);
    s1 := StepOf(s, t);
    assert s1 == s.(pcs := s.pcs[t := CheckRoom(main, n)]);
    ApplyInv(s1, Step(t));
    s2 := StepOf(s1, t);
    LimitIsThreeQuarters(Capacity(s.tables, main));
    assert s2.pcs == s.pcs[t := s2.pcs[t]];
  }

  // ---- When the table grows ----

  /** Only a table that is at least half full is followed by another. */
  ghost predicate GrowsRightly(s: State, t: Tid) {
    t < |s.pcs| && s.pcs[t].Allocate? ==> s.pcs[t].main < |s.tables| && s.pcs[t].n >= Capacity(s.tables, s.pcs[t].main) / 2
  }

  /** Tables are added, and none changes its size. */
  lemma TablesStay(s: State, a: Action, s': State)
    requires Next(s, a, s')
    ensures |s.tables| <= |s'.tables| && forall j :: 0 <= j < |s.tables| ==> |s'.tables[j].keys| == |s.tables[j].keys|
  {
    if a.Step? && s.pcs[a.t].Look? {
      LookLeavesTables(s, a.t, s');
    } else if a.Step? && (s.pcs[a.t].CopyKey? || s.pcs[a.t].InsertKey?) {
      KeyLeavesSizes(s, a.t, s');
    }
  }

  lemma LookLeavesTables(s: State, t: Tid, s': State)
    requires InBounds(s, Step(t)) && s.pcs[t].Look? && s' == StepOf(s, t)
    ensures s'.tables == s.tables
  {
  }

  lemma KeyLeavesSizes(s: State, t: Tid, s': State)
    requires InBounds(s, Step(t)) && (s.pcs[t].CopyKey? || s.pcs[t].InsertKey?) && s' == StepOf(s, t)
    ensures |s'.tables| == |s.tables| && forall j :: 0 <= j < |s.tables| ==> |s'.tables[j].keys| == |s.tables[j].keys|
  {
  }

  lemma GrowsStep(s: State, a: Action, s': State, t: Tid)
    requires Inv(s) && Next(s, a, s') && GrowsRightly(s, t)
    ensures GrowsRightly(s', t)
  {
    TablesStay(s, a, s');
    if t < |s.pcs| && s.pcs[t] != Idle {
      if a == Step(t) {
        GrowsOwn(s, t, s');
      } else if a.t != t {
        OthersLeave(s, a, s', t);
      }
    } else if a.Step? {
      OnlyOwn(s, a.t);
    }
  }

  lemma GrowsOwn(s: State, t: Tid, s': State)
    requires InBounds(s, Step(t)) && s.pcs[t] != Idle && s' == StepOf(s, t)
    ensures GrowsRightly(s', t)
  {
  }

  lemma {:induction false} GrowthIsRight(run: seq<State>, acts: seq<Action>, t: Tid, i: nat)
    requires IsRun(run, acts) && i < |run|
    ensures GrowsRightly(run[i], t)
    decreases i
  {
    if i > 0 {
      GrowthIsRight(run, acts, t, i - 1);
      GrowthGoesOn(run, acts, t, i - 1);
    }
  }

  lemma GrowthGoesOn(run: seq<State>, acts: seq<Action>, t: Tid, i: nat)
    requires IsRun(run, acts) && i < |acts| && GrowsRightly(run[i], t)
    ensures GrowsRightly(run[i + 1], t)
  {
    RunsAreSafe(run, acts, i);
    assert StepAt(run, acts, i);
    GrowsStep(run[i], acts[i], run[i + 1], t);
  }

  /** r is `capacity` doubled some number of times. */
  predicate Doubled(capacity: nat, r: nat)
    decreases r
  {
    r == capacity || (r > capacity && r % 2 == 0 && Doubled(capacity, r / 2))
  }

  lemma {:induction false} EnoughIsLeast(capacity: nat, n: int)
    requires capacity > 0
    ensures Doubled(capacity, Enough(capacity, n))
    ensures n < Enough(capacity, n) / 2
    ensures Enough(capacity, n) > capacity ==> n >= Enough(capacity, n) / 4
    decreases 2 * n + 2 - capacity
  {
    if n >= capacity / 2 {
      EnoughIsLeast(2 * capacity, n);
      DoubledMore(capacity, Enough(2 * capacity, n));
    }
  }

  lemma {:induction false} DoubledMore(capacity: nat, r: nat)
    requires capacity > 0 && Doubled(2 * capacity, r)
    ensures Doubled(capacity, r)
    decreases r
  {
    if r != 2 * capacity {
      DoubledMore(capacity, r / 2);
    } else {
      assert Doubled(capacity, r / 2);
    }
  }

  /**
    A table is added only when the newest one is at least half full; it is the smallest of twice,
    four times, ... the newest one's size that the ids counted do not fill to the half.
   */
  lemma NewTableFits(run: seq<State>, acts: seq<Action>, i: nat)
    requires IsRun(run, acts) && i < |acts| && |run[i + 1].tables| != |run[i].tables|
    ensures |run[i].tables| > 0 && |run[i + 1].tables| == |run[i].tables| + 1
    ensures var t := acts[i].t; t < |run[i].pcs| && acts[i] == Step(t) && run[i].pcs[t].Allocate?
    ensures var n, old', new' := run[i].pcs[acts[i].t].n, Capacity(run[i].tables, |run[i].tables| - 1), Capacity(run[i + 1].tables, |run[i].tables|);
            && n >= old' / 2 && Doubled(2 * old', new') && n < new' / 2 && (new' > 2 * old' ==> n >= new' / 4)
  {
    RunsAreSafe(run, acts, i);
    assert StepAt(run, acts, i);
    GrowthIsRight(run, acts, acts[i].t, i);
    OnlyAllocateAdds(run[i], acts[i], run[i + 1]);
    Mine(run[i], acts[i].t);
    var main := |run[i].tables| - 1;
    assert LinkOk(run[i].tables, main) && TableOk(run[i].tables[main], run[i].hash, run[i].reg);
    EnoughIsLeast(2 * Capacity(run[i].tables, main), run[i].pcs[acts[i].t].n);
  }

  lemma OnlyAllocateAdds(s: State, a: Action, s': State)
    requires Next(s, a, s') && |s'.tables| != |s.tables|
    ensures a.t < |s.pcs| && a == Step(a.t) && s.pcs[a.t].Allocate?
  {
  }

  // ---- What a call leaves in the tables ----

  /** The tables t is concerned with are not older than table number from - 1. */
  ghost predicate Newer(s: State, t: Tid, from: nat) {
    && t < |s.pcs| && from <= |s.tables|
    && match s.pcs[t]
       case Look(main, _, _, _) => from <= main + 1
       case CopyKey(main, _, _, _) => from <= main + 1
       case StoreValue(table, _, _) => from <= table + 1
       case FetchAdd(main) => from <= main + 1
       case TryLock(main, _) => from <= main + 1
       case Allocate(main, _) => from <= main + 1
       case Unlock(main, _) => from <= main + 1
       case CheckRoom(main, _) => from <= main + 1
       case Create(main, _) => from <= main + 1
       case InsertKey(main, _, _, _) => from <= main + 1
       case _ => true
  }

  ghost predicate HasKey(tables: seq<Table>, t: Tid, from: nat) {
    exists j :: 0 <= j < |tables| && from <= j + 1 && !NotIn(tables[j], t)
  }

  ghost predicate LeavesState(s: State, t: Tid, from: nat, refused: bool) {
    && Newer(s, t, from)
    && (s.pcs[t] == UnlockFail ==> refused)
    && (s.pcs[t] == Idle ==> refused || HasKey(s.tables, t, from))
  }

  lemma NewerStep(s: State, t: Tid, from: nat, s': State)
    requires InBounds(s, Step(t)) && s.pcs[t] != Idle && s' == StepOf(s, t) && Newer(s, t, from)
    ensures Newer(s', t, from)
    ensures s'.pcs[t] == UnlockFail ==> s.pcs[t] == UnlockFail
  {
    if s.pcs[t].Look? {
      NewerLook(s, t, from, s');
    } else if s.pcs[t].CopyKey? || s.pcs[t].InsertKey? {
      NewerKey(s, t, from, s');
    } else {
      NewerRest(s, t, from, s');
    }
  }

  lemma NewerLook(s: State, t: Tid, from: nat, s': State)
    requires InBounds(s, Step(t)) && s.pcs[t].Look? && s' == StepOf(s, t) && Newer(s, t, from)
    ensures Newer(s', t, from) && s'.pcs[t] != UnlockFail
  {
  }

  lemma NewerKey(s: State, t: Tid, from: nat, s': State)
    requires InBounds(s, Step(t)) && (s.pcs[t].CopyKey? || s.pcs[t].InsertKey?) && s' == StepOf(s, t) && Newer(s, t, from)
    ensures Newer(s', t, from) && s'.pcs[t] != UnlockFail
  {
  }

  lemma NewerRest(s: State, t: Tid, from: nat, s': State)
    requires InBounds(s, Step(t)) && s.pcs[t] != Idle && !s.pcs[t].Look? && !s.pcs[t].CopyKey? && !s.pcs[t].InsertKey?
    requires s' == StepOf(s, t) && Newer(s, t, from)
    ensures Newer(s', t, from)
    ensures s'.pcs[t] == UnlockFail ==> s.pcs[t] == UnlockFail
  {
  }

  /** A call that returns a producer does so on finding the id in the table it began with, or on having put it there. */
  lemma EndsWithKey(s: State, t: Tid, from: nat, s': State)
    requires Inv(s) && InBounds(s, Step(t)) && s.pcs[t] != Idle && s' == StepOf(s, t) && Newer(s, t, from)
    requires t < |s'.pcs| && s'.pcs[t] == Idle && s.pcs[t] != UnlockFail
    ensures HasKey(s'.tables, t, from)
  {
    Mine(s, t);
    if s.pcs[t].StoreValue? {
      assert s'.tables[s.pcs[t].table].keys[s.pcs[t].index] == Full(t);
      assert !NotIn(s'.tables[s.pcs[t].table], t);
    } else {
      FoundAtOnce(s, t, s');
      assert !NotIn(s'.tables[s.pcs[t].main], t);
    }
  }

  lemma FoundAtOnce(s: State, t: Tid, s': State)
    requires InBounds(s, Step(t)) && s.pcs[t] != Idle && !s.pcs[t].StoreValue? && s.pcs[t] != UnlockFail && s' == StepOf(s, t)
    requires t < |s'.pcs| && s'.pcs[t] == Idle
    ensures s'.tables == s.tables && s.pcs[t].Look? && s.pcs[t].main < |s.tables| && s.pcs[t].index < |s.tables[s.pcs[t].main].keys|
    ensures s.tables[s.pcs[t].main].keys[s.pcs[t].index] == Full(t)
  {
  }

  lemma LeavesGoOn(s: State, a: Action, s': State, t: Tid, from: nat, refused: bool)
    requires Inv(s) && Next(s, a, s') && t < |s.pcs| && s.pcs[t] != Idle && LeavesState(s, t, from, refused)
    ensures LeavesState(s', t, from, refused || Refused(a, t))
  {
    if a == Step(t) {
      NewerStep(s, t, from, s');
      if s'.pcs[t] == Idle && s.pcs[t] != UnlockFail {
        EndsWithKey(s, t, from, s');
      }
    } else if a.t != t {
      TablesStay(s, a, s');
      OthersLeave(s, a, s', t);
    }
  }

  lemma {:induction false} LeavesSoFar(run: seq<State>, acts: seq<Action>, t: Tid, i: nat, j: nat)
    requires IsRun(run, acts) && i < j < |run| && acts[i] == Call(t)
    requires forall m :: i < m < j ==> t < |run[m].pcs| && run[m].pcs[t] != Idle
    ensures LeavesState(run[j], t, |run[i].tables|, RefusedIn(acts, t, i, j))
    decreases j
  {
    if j == i + 1 {
      LeavesBegin(run, acts, t, i);
    } else {
      LeavesSoFar(run, acts, t, i, j - 1);
      LeavesLonger(run, acts, t, i, j - 1);
    }
  }

  lemma LeavesBegin(run: seq<State>, acts: seq<Action>, t: Tid, i: nat)
    requires IsRun(run, acts) && i < |acts| && acts[i] == Call(t)
    ensures LeavesState(run[i + 1], t, |run[i].tables|, RefusedIn(acts, t, i, i + 1))
  {
    assert StepAt(run, acts, i);
  }

  lemma LeavesLonger(run: seq<State>, acts: seq<Action>, t: Tid, i: nat, j: nat)
    requires IsRun(run, acts) && i < j < |acts| && t < |run[j].pcs| && run[j].pcs[t] != Idle
    requires LeavesState(run[j], t, |run[i].tables|, RefusedIn(acts, t, i, j))
    ensures LeavesState(run[j + 1], t, |run[i].tables|, RefusedIn(acts, t, i, j + 1))
  {
    RunsAreSafe(run, acts, j);
    assert StepAt(run, acts, j);
    LeavesGoOn(run[j], acts[j], run[j + 1], t, |run[i].tables|, RefusedIn(acts, t, i, j));
    RefusedMore(acts, t, i, j);
  }

  /** A call that returns a producer leaves the thread's id in the table that was the newest when it began, or in a newer one. */
  lemma CallLeavesKey(run: seq<State>, acts: seq<Action>, t: Tid, i: nat, j: nat)
    requires IsRun(run, acts) && i < j < |run| && acts[i] == Call(t) && t < |run[j].pcs| && run[j].pcs[t] == Idle
    requires forall m :: i < m < j ==> t < |run[m].pcs| && run[m].pcs[t] != Idle && !Refused(acts[m], t)
    ensures exists k :: 0 <= k < |run[j].tables| && |run[i].tables| - 1 <= k && exists x :: 0 <= x < |run[j].tables[k].keys| && run[j].tables[k].keys[x] == Full(t)
  {
    LeavesSoFar(run, acts, t, i, j);
    assert !RefusedIn(acts, t, i, j);
    assert HasKey(run[j].tables, t, |run[i].tables|);
  }
}
