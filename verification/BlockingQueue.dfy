/**
  The blocking queue: a queue and a semaphore whose tokens stand for its elements.

  Enqueuing adds the elements to the inner queue and then signals; dequeuing acquires tokens from
  the semaphore and then calls the inner queue until it has got as many elements. Threads interleave
  at every step of the semaphore. Of the inner queue only the number of elements enqueued and not
  claimed matters; an inner dequeue may come back with fewer than it was asked for, or none.
 */
module BlockingQueue {
  import opened Basics
  import opened Totals
  import Semaphore

  datatype Request = Enqueue(count: nat) | Dequeue(max: nat, many: bool, waits: bool, timed: bool)

  /** `owed` and `held` are history variables: elements not yet signalled, and tokens not yet spent. */
  datatype Job =
    | Free
    | Enqueuing(count: nat)                      // in the inner queue's enqueue
    | Signalling(owed: nat)
    | Acquiring(held: nat)
    | Draining(max: nat, count: nat)             // `count` of `max` elements dequeued

  datatype State = State(
    sema: Semaphore.State,
    unclaimed: nat,      // elements in the inner queue that no consumer has claimed
    jobs: seq<Job>
  )

  datatype Action =
    | Start(t: Tid, request: Request)
    | Enqueued(t: Tid)              // the inner enqueue succeeds: signal
    | Refused(t: Tid)               // it fails
    | Sema(a: Semaphore.Action)     // a step inside the semaphore
    | Acquired(t: Tid)              // the semaphore call returns
    | Claim(t: Tid, k: nat)         // one call of the inner dequeue claims k elements
    | Finish(t: Tid)

  ghost predicate Enabled(s: State, a: Action) {
    && |s.sema.pcs| == |s.sema.taken| == |s.jobs|
    && match a
       case Start(t, request) => t < |s.jobs| && s.jobs[t].Free? && s.sema.pcs[t].Idle?
                                 && (request.Dequeue? && !request.many ==> request.max == 1)
       case Enqueued(t) => t < |s.jobs| && s.jobs[t].Enqueuing? && s.sema.pcs[t].Idle?
       case Refused(t) => t < |s.jobs| && s.jobs[t].Enqueuing?
       case Sema(b) => !b.Begin? && !b.End? && Semaphore.Enabled(s.sema, b)
       case Acquired(t) => t < |s.jobs| && (s.jobs[t].Signalling? || s.jobs[t].Acquiring?)
                           && Semaphore.Enabled(s.sema, Semaphore.End(t))
       case Claim(t, k) => t < |s.jobs| && s.jobs[t].Draining? && s.jobs[t].count + k <= s.jobs[t].max && k <= s.unclaimed
       case Finish(t) => t < |s.jobs| && s.jobs[t].Draining? && s.jobs[t].count == s.jobs[t].max
  }

  function CallOf(request: Request): Semaphore.Call
    requires request.Dequeue?
  {
    Semaphore.Acquire(request.max, request.many, request.waits, request.timed)
  }

  ghost function SetJob(s: State, t: Tid, job: Job): State
    requires t < |s.jobs|
  {
    s.(jobs := s.jobs[t := job])
  }

  /** What a thread owes or holds after a step inside the semaphore. */
  ghost function JobAfter(job: Job, sema: Semaphore.State, t: Tid): Job
    requires t < |sema.pcs| == |sema.taken|
  {
    match job
    case Signalling(owed) => Signalling(if sema.pcs[t].Add? then sema.pcs[t].count else 0)
    case Acquiring(held) => Acquiring(sema.taken[t])
    case _ => job
  }

  ghost function Apply(s: State, a: Action): State
    requires Enabled(s, a)
  {
    match a
    case Start(t, request) =>
      if request.Enqueue? then SetJob(s, t, Enqueuing(request.count))
      else SetJob(s, t, Acquiring(0)).(sema := Semaphore.Apply(s.sema, Semaphore.Begin(t, CallOf(request))))
    case Enqueued(t) =>
      SetJob(s, t, Signalling(s.jobs[t].count)).(
        unclaimed := s.unclaimed + s.jobs[t].count,
        sema := Semaphore.Apply(s.sema, Semaphore.Begin(t, Semaphore.Signal(s.jobs[t].count))))
    case Refused(t) => SetJob(s, t, Free)
    case Sema(b) =>
      var sema' := Semaphore.Apply(s.sema, b);
      SetJob(s, b.t, JobAfter(s.jobs[b.t], sema', b.t)).(sema := sema')
    case Acquired(t) =>
      var sema' := Semaphore.Apply(s.sema, Semaphore.End(t));
      SetJob(s, t, if s.jobs[t].Signalling? then Free else Draining(s.sema.pcs[t].result, 0)).(sema := sema')
    case Claim(t, k) => SetJob(s, t, s.jobs[t].(count := s.jobs[t].count + k)).(unclaimed := s.unclaimed - k)
    case Finish(t) => SetJob(s, t, Free)
  }

  ghost predicate Init(s: State) {
    && Semaphore.Init(s.sema) && s.sema.count == 0 && s.unclaimed == 0
    && |s.sema.pcs| == |s.jobs| && forall t :: 0 <= t < |s.jobs| ==> s.jobs[t] == Free
  }

  // ---- The invariant ----

  /** Tokens a consumer has taken for elements it has not claimed yet. */
  function Held(job: Job): nat {
    match job
    case Acquiring(held) => held
    case Draining(max, count) => if count < max then max - count else 0
    case _ => 0
  }

  /** Elements a producer has put in the inner queue and not signalled yet. */
  function Owed(job: Job): nat {
    if job.Signalling? then job.owed else 0
  }

  /** Tokens that have been signalled and not taken. */
  ghost function Available(sema: Semaphore.State): nat {
    Semaphore.Positive(sema.count) + sema.kernel + Semaphore.Pending(sema.pcs)
  }

  ghost predicate IsSignal(pc: Semaphore.Pc) {
    pc.Add? || pc.Release? || (pc.Done? && pc.call.Signal?)
  }

  ghost predicate JobOk(job: Job, pc: Semaphore.Pc, taken: nat) {
    match job
    case Free => pc.Idle?
    case Enqueuing(count) => pc.Idle?
    case Signalling(owed) => IsSignal(pc) && owed == if pc.Add? then pc.count else 0
    case Acquiring(held) => !pc.Idle? && !IsSignal(pc) && held == taken
    case Draining(max, count) => pc.Idle? && count <= max
  }

  ghost predicate JobsOk(jobs: seq<Job>, pcs: seq<Semaphore.Pc>, taken: seq<nat>) {
    |jobs| == |pcs| == |taken| && forall t :: 0 <= t < |jobs| ==> JobOk(jobs[t], pcs[t], taken[t])
  }

  ghost predicate Inv(s: State) {
    && Semaphore.Inv(s.sema)
    && JobsOk(s.jobs, s.sema.pcs, s.sema.taken)
    && Available(s.sema) + Total(Held, s.jobs) + Total(Owed, s.jobs) == s.unclaimed
  }
}
