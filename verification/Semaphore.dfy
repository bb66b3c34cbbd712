/**
  The lightweight semaphore: a count that threads change in user space and a kernel semaphore they
  fall back on. A negative count says how many threads have registered to wait on the kernel.

  Any number of threads wait for one token or many, with or without a timeout, and signal. Each
  step is one operation on the count or on the kernel semaphore, which is a natural number here;
  when a timed wait gives up is left open, as is how often a weak compare-and-swap fails.
 */
module Semaphore {
  import opened Basics
  import opened Totals

  /** `max` is how many tokens at most, `spins` whether the call goes on to spin and sleep. */
  datatype Call =
    | Signal(count: nat)
    | Acquire(max: nat, many: bool, spins: bool, timed: bool)

  datatype Pc =
    | Idle
    | Add(count: nat)                               // signal
    | Release(count: nat)                           // signal: wake this many
    | TryLoad(call: Call, got: nat, max: nat)       // tryWait and tryWaitMany
    | TrySwap(call: Call, got: nat, max: nat, seen: int)
    | SpinLoad(call: Call, spins: nat)
    | SpinSwap(call: Call, spins: nat, seen: int)
    | Subtract(call: Call)
    | Sleep(call: Call)                             // wait or timed_wait on the kernel semaphore
    | UndoLoad(call: Call)                          // timed out
    | UndoSwap(call: Call, seen: int)
    | Done(call: Call, result: nat)

  datatype State = State(
    count: int,           // m_count
    kernel: nat,          // m_sema
    pcs: seq<Pc>,
    // history variables
    issued: nat,          // the initial tokens and those signalled
    acquired: nat,        // tokens taken by all calls
    taken: seq<nat>       // tokens taken by the present call of each thread
  )

  const SPINS: nat := 10000

  // ---- The program ----

  function Started(call: Call): Pc {
    match call
    case Signal(count) => Add(count)
    case Acquire(max, many, spins, timed) => TryLoad(call, 0, max)
  }

  ghost function Goto(s: State, t: Tid, pc: Pc): State
    requires t < |s.pcs|
  {
    s.(pcs := s.pcs[t := pc])
  }

  ghost function Took(s: State, t: Tid, k: nat): State
    requires t < |s.taken|
  {
    s.(acquired := s.acquired + k, taken := s.taken[t := s.taken[t] + k])
  }

  /** How many tokens a compare-and-swap from `seen` takes. */
  function Grab(seen: int, max: nat): nat
    requires seen > 0
  {
    if seen > max then max else seen
  }

  /** After the first token: a call for many tries for more. */
  function AfterOne(call: Call): Pc
    requires call.Acquire?
  {
    if call.many && call.max > 1 then TryLoad(call, 1, call.max - 1) else Done(call, 1)
  }

  /** `oldCount <= 0` ends the loop of tryWait and tryWaitMany. */
  function AfterTry(call: Call, got: nat): Pc
    requires call.Acquire?
  {
    if got == 0 && call.spins && call.max > 0 then SpinLoad(call, SPINS) else Done(call, got)
  }

  function AfterSpin(call: Call, spins: nat): Pc {
    if spins > 1 then SpinLoad(call, spins - 1) else Subtract(call)
  }

  datatype Action =
    | Begin(t: Tid, call: Call)
    | Step(t: Tid)
    | Retry(t: Tid)     // a weak compare-and-swap fails, or the count has changed
    | Timeout(t: Tid)
    | End(t: Tid)

  predicate IsAcquire(pc: Pc) {
    match pc
    case TryLoad(call, _, _) => call.Acquire?
    case TrySwap(call, _, _, _) => call.Acquire?
    case SpinLoad(call, _) => call.Acquire?
    case SpinSwap(call, _, _) => call.Acquire?
    case Subtract(call) => call.Acquire?
    case Sleep(call) => call.Acquire?
    case UndoLoad(call) => call.Acquire?
    case UndoSwap(call, _) => call.Acquire?
    case _ => true
  }

  ghost predicate Enabled(s: State, a: Action) {
    && a.t < |s.pcs| == |s.taken| && IsAcquire(s.pcs[a.t])
    && match a
       case Begin(t, call) => s.pcs[t].Idle? && (call.Acquire? && !call.many ==> call.max == 1)
       case Step(t) =>
         && !s.pcs[t].Idle? && !s.pcs[t].Done?
         && (s.pcs[t].TrySwap? && s.pcs[t].seen > 0 ==> s.count == s.pcs[t].seen)
         && (s.pcs[t].Sleep? ==> s.kernel > 0)
       case Retry(t) => s.pcs[t].TrySwap? && s.pcs[t].seen > 0
       case Timeout(t) => s.pcs[t].Sleep? && s.pcs[t].call.timed
       case End(t) => s.pcs[t].Done?
  }

  ghost function StepOf(s: State, t: Tid): State
    requires Enabled(s, Step(t))
  {
    match s.pcs[t]
    case Add(count) =>
      var release := if -s.count < count then -s.count else count;
      Goto(s, t, if release > 0 then Release(release) else Done(Signal(count), 0)).(count := s.count + count, issued := s.issued + count)
    case Release(count) => Goto(s, t, Done(Signal(count), 0)).(kernel := s.kernel + count)
    case TryLoad(call, got, max) => Goto(s, t, TrySwap(call, got, max, s.count))
    case TrySwap(call, got, max, seen) =>
      if seen <= 0 then Goto(s, t, AfterTry(call, got))
      else Took(Goto(s, t, Done(call, got + Grab(seen, max))).(count := seen - Grab(seen, max)), t, Grab(seen, max))
    case SpinLoad(call, spins) => Goto(s, t, SpinSwap(call, spins, s.count))
    case SpinSwap(call, spins, seen) =>
      if seen > 0 && s.count == seen
      then Took(Goto(s, t, Done(call, Grab(seen, call.max))).(count := seen - Grab(seen, call.max)), t, Grab(seen, call.max))
      else Goto(s, t, AfterSpin(call, spins))
    case Subtract(call) =>
      if s.count > 0 then Took(Goto(s, t, AfterOne(call)).(count := s.count - 1), t, 1)
      else Goto(s, t, Sleep(call)).(count := s.count - 1)
    case Sleep(call) => Took(Goto(s, t, AfterOne(call)).(kernel := s.kernel - 1), t, 1)
    case UndoLoad(call) => Goto(s, t, UndoSwap(call, s.count))
    case UndoSwap(call, seen) =>
      if seen >= 0 && s.kernel > 0 then Took(Goto(s, t, AfterOne(call)).(kernel := s.kernel - 1), t, 1)
      else if seen < 0 && s.count == seen then Goto(s, t, Done(call, 0)).(count := seen + 1)
      else Goto(s, t, UndoLoad(call))
  }

  ghost function Apply(s: State, a: Action): State
    requires Enabled(s, a)
  {
    match a
    case Begin(t, call) => Goto(s, t, Started(call)).(taken := s.taken[t := 0])
    case Step(t) => StepOf(s, t)
    case Retry(t) => Goto(s, t, s.pcs[t].(seen := s.count))
    case Timeout(t) => Goto(s, t, UndoLoad(s.pcs[t].call))
    case End(t) => Goto(s, t, Idle)
  }

  ghost predicate Init(s: State) {
    && s.count >= 0 && s.kernel == 0 && s.issued == s.count && s.acquired == 0
    && |s.taken| == |s.pcs| && forall t :: 0 <= t < |s.pcs| ==> s.pcs[t] == Idle
  }

  // ---- The invariant ----

  /** A thread that has lowered the count below zero and not been woken or undone it. */
  function Registered(pc: Pc): nat {
    if pc.Sleep? || pc.UndoLoad? || pc.UndoSwap? then 1 else 0
  }

  /** Kernel releases a signaller still has to make. */
  function ToRelease(pc: Pc): nat {
    if pc.Release? then pc.count else 0
  }

  function Positive(x: int): nat {
    if x > 0 then x else 0
  }

  ghost function Waiters(pcs: seq<Pc>): nat {
    Total(Registered, pcs)
  }

  ghost function Pending(pcs: seq<Pc>): nat {
    Total(ToRelease, pcs)
  }

  predicate CallOk(call: Call) {
    call.Acquire? && (!call.many ==> call.max == 1)
  }

  /** The first token has not been taken, and the call is one that waits. */
  predicate WaitOk(call: Call, taken: nat) {
    CallOk(call) && call.spins && call.max > 0 && taken == 0
  }

  ghost predicate ThreadOk(pc: Pc, taken: nat) {
    match pc
    case Idle => true
    case Add(count) => taken == 0
    case Release(count) => taken == 0
    case TryLoad(call, got, max) => CallOk(call) && got == taken && got + max == call.max && (got > 0 ==> call.many)
    case TrySwap(call, got, max, seen) => CallOk(call) && got == taken && got + max == call.max && (got > 0 ==> call.many)
    case SpinLoad(call, spins) => WaitOk(call, taken)
    case SpinSwap(call, spins, seen) => WaitOk(call, taken)
    case Subtract(call) => WaitOk(call, taken)
    case Sleep(call) => WaitOk(call, taken)
    case UndoLoad(call) => WaitOk(call, taken) && call.timed
    case UndoSwap(call, seen) => WaitOk(call, taken) && call.timed
    case Done(call, result) =>
      && result == taken
      && (call.Signal? ==> result == 0)
      && (call.Acquire? ==> result <= call.max && (call.spins && !call.timed && call.max > 0 ==> result > 0))
  }

  ghost predicate ThreadsOk(pcs: seq<Pc>, taken: seq<nat>) {
    |pcs| == |taken| && forall t :: 0 <= t < |pcs| ==> ThreadOk(pcs[t], taken[t])
  }

  ghost predicate Inv(s: State) {
    && ThreadsOk(s.pcs, s.taken)
    // tokens taken, available, in the kernel and on their way there are those issued
    && s.acquired + Positive(s.count) + s.kernel + Pending(s.pcs) == s.issued
    // registered waiters are those the count shows and those a kernel token is or will be there for
    && Waiters(s.pcs) == Positive(-s.count) + s.kernel + Pending(s.pcs)
  }
}
