module ProducerHashCalls {
  /**
    What calls of the table return: a call that gets the memory it asks for returns the producer of
    its thread, any other returns null; and a call without interference ends.
   */

  import opened Basics
  import opened ProducerHash
  import opened ProducerHashSteps
  import opened ProducerHashRuns

  // ---- What a call returns ----

  predicate Refused(a: Action, t: Tid) {
    a == FailAlloc(t) || a == FailCreate(t)
  }

  ghost predicate RefusedIn(acts: seq<Action>, t: Tid, from: nat, to: nat) {
    exists m :: from <= m < to && m < |acts| && Refused(acts[m], t)
  }

  /** One value more, the thread's producer. */
  ghost predicate Returns(s: State, s': State, t: Tid) {
    && t < |s.results| && t < |s'.results| && t < |s'.member| && s'.member[t].Member?
    && s'.results[t] == s.results[t] + [s'.member[t].producer]
  }

  ghost predicate SameResults(s: State, s': State, t: Tid) {
    t < |s.results| && t < |s'.results| && s'.results[t] == s.results[t]
  }

  /** How a call stands: s0 is the state before it. */
  ghost predicate CallState(s0: State, s: State, t: Tid, refused: bool) {
    && t < |s.pcs|
    && if s.pcs[t] == Idle then if refused then SameResults(s0, s, t) else Returns(s0, s, t)
       else SameResults(s0, s, t) && (s.pcs[t] == UnlockFail <==> refused)
  }

  lemma OwnResult(s: State, t: Tid)
    requires Inv(s) && t < |s.pcs| && s.pcs[t] != Idle
    ensures InBounds(s, Step(t))
    ensures var s' := StepOf(s, t);
            && t < |s'.pcs| && (s'.pcs[t] != UnlockFail || s.pcs[t] == UnlockFail)
            && if s'.pcs[t] == Idle && s.pcs[t] != UnlockFail then Returns(s, s', t) else SameResults(s, s', t)
  {
    ApplyInv(s, Step(t));
    Mine(s, t);
    OwnResultShape(s, t);
    var s' := StepOf(s, t);
    assert ResultOk(s'.member[t], s'.results[t]);
  }

  lemma OwnResultShape(s: State, t: Tid)
    requires InBounds(s, Step(t)) && s.pcs[t] != Idle
    ensures var s' := StepOf(s, t);
            && |s'.pcs| == |s.pcs| && |s'.results| == |s.results|
            && (s'.pcs[t] != UnlockFail || s.pcs[t] == UnlockFail)
            && if s'.pcs[t] == Idle && s.pcs[t] != UnlockFail
               then |s'.results[t]| == |s.results[t]| + 1 && s.results[t] <= s'.results[t]
               else s'.results[t] == s.results[t]
  {
  }

  lemma OnlyOwn(s: State, u: Tid)
    requires InBounds(s, Step(u)) && s.pcs[u] != Idle
    ensures var s' := StepOf(s, u);
            && |s'.pcs| == |s.pcs| && s'.pcs == s.pcs[u := s'.pcs[u]]
            && |s'.results| == |s.results| && s'.results == s.results[u := s'.results[u]]
  {
  }

  lemma OthersLeave(s: State, a: Action, s': State, t: Tid)
    requires Next(s, a, s') && t < |s.pcs| && s.pcs[t] != Idle && a.t != t
    ensures |s'.pcs| == |s.pcs| && s'.pcs[t] == s.pcs[t] && SameResults(s, s', t)
  {
    if a.Step? {
      OnlyOwn(s, a.t);
    }
  }

  lemma CallGoesOn(s0: State, s: State, a: Action, s': State, t: Tid, refused: bool)
    requires Inv(s) && Next(s, a, s') && t < |s.pcs| && s.pcs[t] != Idle && CallState(s0, s, t, refused)
    ensures CallState(s0, s', t, refused || Refused(a, t))
  {
    if a == Step(t) {
      OwnResult(s, t);
    } else if a.t != t {
      OthersLeave(s, a, s', t);
    }
  }

  lemma {:induction false} CallSoFar(run: seq<State>, acts: seq<Action>, t: Tid, i: nat, j: nat)
    requires IsRun(run, acts) && i < j < |run| && acts[i] == Call(t)
    requires forall m :: i < m < j ==> t < |run[m].pcs| && run[m].pcs[t] != Idle
    ensures CallState(run[i], run[j], t, RefusedIn(acts, t, i, j))
    decreases j
  {
    if j == i + 1 {
      CallBegins(run, acts, t, i);
    } else {
      CallSoFar(run, acts, t, i, j - 1);
      CallLonger(run, acts, t, i, j - 1);
    }
  }

  lemma CallBegins(run: seq<State>, acts: seq<Action>, t: Tid, i: nat)
    requires IsRun(run, acts) && i < |acts| && acts[i] == Call(t)
    ensures CallState(run[i], run[i + 1], t, RefusedIn(acts, t, i, i + 1))
  {
    assert StepAt(run, acts, i);
  }

  lemma CallLonger(run: seq<State>, acts: seq<Action>, t: Tid, i: nat, j: nat)
    requires IsRun(run, acts) && i < j < |acts| && t < |run[j].pcs| && run[j].pcs[t] != Idle
    requires CallState(run[i], run[j], t, RefusedIn(acts, t, i, j))
    ensures CallState(run[i], run[j + 1], t, RefusedIn(acts, t, i, j + 1))
  {
    RunsAreSafe(run, acts, j);
    assert StepAt(run, acts, j);
    CallGoesOn(run[i], run[j], acts[j], run[j + 1], t, RefusedIn(acts, t, i, j));
    RefusedMore(acts, t, i, j);
  }

  lemma RefusedMore(acts: seq<Action>, t: Tid, i: nat, j: nat)
    requires i <= j < |acts|
    ensures RefusedIn(acts, t, i, j + 1) <==> RefusedIn(acts, t, i, j) || Refused(acts[j], t)
  {
  }

  /**
    A call that is not refused memory returns the producer of its thread, which is one value; a call
    that is refused memory returns null, and the thread's results are as before.
   */
  lemma CallReturns(run: seq<State>, acts: seq<Action>, t: Tid, i: nat, j: nat)
    requires IsRun(run, acts) && i < j < |run| && acts[i] == Call(t) && t < |run[j].pcs| && run[j].pcs[t] == Idle
    requires forall m :: i < m < j ==> t < |run[m].pcs| && run[m].pcs[t] != Idle
    ensures t < |run[i].results| && t < |run[j].results| && t < |run[j].member|
    ensures if exists m :: i < m < j && Refused(acts[m], t) then run[j].results[t] == run[i].results[t]
            else run[j].member[t].Member? && run[j].results[t] == run[i].results[t] + [run[j].member[t].producer]
  {
    CallSoFar(run, acts, t, i, j);
    RunsAreSafe(run, acts, j);
    if exists m :: i < m < j && Refused(acts[m], t) {
      var m :| i < m < j && Refused(acts[m], t);
      assert RefusedIn(acts, t, i, j);
    }
  }

  // ---- A call without interference ----

  /** Between taking and releasing the resize lock. */
  predicate InLock(pc: Pc) {
    pc.Reload? || pc.Allocate? || pc.Unlock? || pc.UnlockFail?
  }

  ghost predicate LockOk(s: State) {
    && (s.resizing <==> s.holder != Nobody)
    && (s.holder != Nobody ==> s.holder.who < |s.pcs| && InLock(s.pcs[s.holder.who]))
  }

  lemma LockStep(s: State, a: Action, s': State)
    requires Inv(s) && Next(s, a, s') && LockOk(s)
    ensures LockOk(s')
  {
    Mine(s, a.t);
    if a.Step? {
      OnlyOwn(s, a.t);
      LockOwn(s, a.t, s');
    }
  }

  lemma LockOwn(s: State, t: Tid, s': State)
    requires InBounds(s, Step(t)) && s.pcs[t] != Idle && s' == StepOf(s, t) && LockOk(s) && |s'.pcs| == |s.pcs|
    requires InLock(s.pcs[t]) ==> s.holder == HeldBy(t)
    requires s'.pcs == s.pcs[t := s'.pcs[t]]
    ensures LockOk(s')
  {
  }

  /** The resize lock is held only by a thread that is about to release it; with no call under way it is free. */
  lemma {:induction false} LockIsReleased(run: seq<State>, acts: seq<Action>, i: nat)
    requires IsRun(run, acts) && i < |run|
    ensures LockOk(run[i])
    decreases i
  {
    if i > 0 {
      LockIsReleased(run, acts, i - 1);
      LockGoesOn(run, acts, i - 1);
    }
  }

  lemma LockGoesOn(run: seq<State>, acts: seq<Action>, i: nat)
    requires IsRun(run, acts) && i < |acts| && LockOk(run[i])
    ensures LockOk(run[i + 1])
  {
    RunsAreSafe(run, acts, i);
    assert StepAt(run, acts, i);
    LockStep(run[i], acts[i], run[i + 1]);
  }

  /** No other thread is in a call, and t has found room if it is past looking for it. */
  ghost predicate Alone(s: State, t: Tid) {
    && t < |s.pcs| && (forall u :: 0 <= u < |s.pcs| && u != t ==> s.pcs[u] == Idle)
    && (!InLock(s.pcs[t]) ==> !s.resizing)
    && (s.pcs[t].Unlock? || s.pcs[t].CheckRoom? ==>
          s.pcs[t].main < |s.tables| && s.pcs[t].n < Limit(Capacity(s.tables, s.pcs[t].main)))
    && s.pcs[t] != UnlockFail
  }

  function StageLeft(pc: Pc): nat {
    match pc
    case Idle => 0
    case LoadMain => 13
    case Look(_, _, _, _) => 12
    case FetchAdd(_) => 11
    case TryLock(_, _) => 10
    case Reload(_) => 9
    case Allocate(_, _) => 8
    case Unlock(_, _) => 7
    case CheckRoom(_, _) => 6
    case Create(_, _) => 5
    case InsertKey(_, _, _, _) => 4
    case CopyKey(_, _, _, _) => 3
    case StoreValue(_, _, _) => 2
    case UnlockFail => 1
  }

  ghost function TablesLeft(pc: Pc): nat {
    if pc.Look? then pc.table else 0
  }

  ghost function SlotsLeft(s: State, t: Tid): nat
    requires t < |s.pcs|
  {
    match s.pcs[t]
    case Look(_, table, _, d) => if table < |s.tables| && d <= Capacity(s.tables, table) then Capacity(s.tables, table) - d else 0
    case CopyKey(main, _, d, _) => if main < |s.tables| && d <= Capacity(s.tables, main) then Capacity(s.tables, main) - d else 0
    case InsertKey(main, _, d, _) => if main < |s.tables| && d <= Capacity(s.tables, main) then Capacity(s.tables, main) - d else 0
    case _ => 0
  }

  ghost predicate Less(s': State, s: State, t: Tid)
    requires t < |s.pcs| && t < |s'.pcs|
  {
    || StageLeft(s'.pcs[t]) < StageLeft(s.pcs[t])
    || (StageLeft(s'.pcs[t]) == StageLeft(s.pcs[t]) && TablesLeft(s'.pcs[t]) < TablesLeft(s.pcs[t]))
    || (StageLeft(s'.pcs[t]) == StageLeft(s.pcs[t]) && TablesLeft(s'.pcs[t]) == TablesLeft(s.pcs[t]) && SlotsLeft(s', t) < SlotsLeft(s, t))
  }

  lemma AloneStep(s: State, t: Tid) returns (s': State)
    requires Inv(s) && Alone(s, t) && s.pcs[t] != Idle
    ensures Next(s, Step(t), s') && Inv(s') && Alone(s', t) && Less(s', s, t)
  {
    ApplyInv(s, Step(t));
    Mine(s, t);
    s' := StepOf(s, t);
    OnlyOwn(s, t);
    AloneShape(s, t, s');
  }

  lemma AloneShape(s: State, t: Tid, s': State)
    requires InBounds(s, Step(t)) && Alone(s, t) && s.pcs[t] != Idle && s' == StepOf(s, t) && |s'.pcs| == |s.pcs|
    requires forall j: nat :: j < |s.tables| ==> LinkOk(s.tables, j)
    requires s'.pcs == s.pcs[t := s'.pcs[t]]
    ensures Alone(s', t) && Less(s', s, t)
  {
    if s.pcs[t].Look? {
      assert LinkOk(s.tables, s.pcs[t].table);
      LookShape(s, t, s');
    } else {
      OtherShape(s, t, s');
    }
  }

  lemma LookShape(s: State, t: Tid, s': State)
    requires InBounds(s, Step(t)) && Alone(s, t) && s.pcs[t].Look? && s' == StepOf(s, t) && |s'.pcs| == |s.pcs|
    requires LinkOk(s.tables, s.pcs[t].table)
    requires s'.pcs == s.pcs[t := s'.pcs[t]]
    ensures Alone(s', t) && Less(s', s, t)
  {
  }

  lemma OtherShape(s: State, t: Tid, s': State)
    requires InBounds(s, Step(t)) && Alone(s, t) && s.pcs[t] != Idle && !s.pcs[t].Look? && s' == StepOf(s, t) && |s'.pcs| == |s.pcs|
    requires s'.pcs == s.pcs[t := s'.pcs[t]]
    ensures Alone(s', t) && Less(s', s, t)
  {
    if s.pcs[t].CopyKey? || s.pcs[t].InsertKey? {
      ProbeShape(s, t, s');
    } else {
      GrowShape(s, t, s');
    }
  }

  lemma ProbeShape(s: State, t: Tid, s': State)
    requires InBounds(s, Step(t)) && Alone(s, t) && (s.pcs[t].CopyKey? || s.pcs[t].InsertKey?) && s' == StepOf(s, t)
    requires |s'.pcs| == |s.pcs| && s'.pcs == s.pcs[t := s'.pcs[t]]
    ensures Alone(s', t) && Less(s', s, t)
  {
  }

  lemma GrowShape(s: State, t: Tid, s': State)
    requires InBounds(s, Step(t)) && Alone(s, t) && s.pcs[t] != Idle && s' == StepOf(s, t) && |s'.pcs| == |s.pcs|
    requires !s.pcs[t].Look? && !s.pcs[t].CopyKey? && !s.pcs[t].InsertKey?
    requires s'.pcs == s.pcs[t := s'.pcs[t]]
    ensures Alone(s', t) && Less(s', s, t)
  {
  }

  ghost predicate OwnStepAt(run: seq<State>, t: Tid, i: nat) {
    && i + 1 < |run| && t < |run[i].pcs| && run[i].pcs[t] != Idle
    && InBounds(run[i], Step(t)) && run[i + 1] == StepOf(run[i], t)
  }

  /** Steps of t lead from s to r. */
  ghost predicate Leads(run: seq<State>, t: Tid, s: State, r: State) {
    && run != [] && run[0] == s && run[|run| - 1] == r
    && forall i :: 0 <= i < |run| - 1 ==> OwnStepAt(run, t, i)
  }

  lemma LeadsOn(s: State, t: Tid, s': State, run: seq<State>, r: State)
    requires Leads([s, s'], t, s, s') && Leads(run, t, s', r)
    ensures Leads([s] + run, t, s, r)
  {
    var run' := [s] + run;
    forall i | 0 <= i < |run'| - 1 ensures OwnStepAt(run', t, i) {
      if i == 0 {
        assert OwnStepAt([s, s'], t, 0);
      } else {
        assert OwnStepAt(run, t, i - 1);
      }
    }
  }

  /** A step of the call ends it with the producer, or leaves less of it. */
  lemma NearerAlone(s: State, t: Tid) returns (s': State)
    requires Inv(s) && Alone(s, t) && s.pcs[t] != Idle
    ensures Leads([s, s'], t, s, s') && Inv(s') && Alone(s', t) && Less(s', s, t)
    ensures if s'.pcs[t] == Idle then Returns(s, s', t) else SameResults(s, s', t)
  {
    OwnResult(s, t);
    s' := AloneStep(s, t);
    assert OwnStepAt([s, s'], t, 0);
  }

  lemma {:induction false} EndsAlone(s: State, t: Tid) returns (run: seq<State>, r: State)
    requires Inv(s) && Alone(s, t) && s.pcs[t] != Idle
    ensures Leads(run, t, s, r) && Inv(r) && Returns(s, r, t) && t < |r.pcs| && r.pcs[t] == Idle
    decreases StageLeft(s.pcs[t]), TablesLeft(s.pcs[t]), SlotsLeft(s, t)
  {
    var s' := NearerAlone(s, t);
    if s'.pcs[t] == Idle {
      run, r := [s, s'], s';
    } else {
      run, r := EndsAlone(s', t);
      LeadsOn(s, t, s', run, r);
      run := [s] + run;
      ReturnsToo(s, s', r, t);
    }
  }

  lemma ReturnsToo(s: State, s': State, r: State, t: Tid)
    requires SameResults(s, s', t) && Returns(s', r, t)
    ensures Returns(s, r, t)
  {
  }

  /** A call without interference and with memory ends with the producer of its thread. */
  lemma CallAlone(s: State, t: Tid) returns (run: seq<State>, r: State)
    requires Inv(s) && LockOk(s) && t < |s.pcs| && forall u :: 0 <= u < |s.pcs| ==> s.pcs[u] == Idle
    ensures Enabled(s, Call(t)) && InBounds(s, Call(t)) && Leads(run, t, Apply(s, Call(t)), r)
    ensures Inv(r) && t < |r.pcs| && r.pcs[t] == Idle && Returns(s, r, t)
  {
    Mine(s, t);
    ApplyInv(s, Call(t));
    run, r := EndsAlone(Apply(s, Call(t)), t);
  }
}
