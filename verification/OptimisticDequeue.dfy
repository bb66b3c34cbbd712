/**
  The counters a consumer uses to claim elements of one producer: `tailIndex`, `headIndex`,
  `dequeueOptimisticCount` and `dequeueOvercommit`.

  The producer and any number of consumers interleave, one atomic operation per step; reads
  of `tailIndex`, `dequeueOvercommit` and `dequeueOptimisticCount` may be stale by the time
  they are used. `dequeue` is `dequeue_bulk` with `max == 1`: every test and update of the
  former is the latter's at that value. Counters are unbounded here; the module Circular
  relates them to the machine's wrapping ones.
 */
module OptimisticDequeue {
  import opened Basics
  import opened Sequences

  datatype Pc =
    | Idle
    | LoadOvercommit(max: nat, tail: nat)
    | LoadOptimistic(max: nat, tail: nat, overcommit: nat)
    | TakeTickets(desired: nat, overcommit: nat)
    | ReloadTail(desired: nat, overcommit: nat, mine: nat)
    | AddOvercommit(desired: nat, actual: nat, mine: nat)
    | ClaimHead(actual: nat, mine: nat)

  /**
    The fate of a ticket, that is of one unit added to `dequeueOptimisticCount`.
    Undecided, then won or lost by its thread when that thread reloads the tail, then
    settled when the thread claims from `headIndex` or adds to `dequeueOvercommit`.
   */
  datatype Mark = Open(t: Tid) | Won(t: Tid) | Lost(t: Tid) | Claimed | Returned

  datatype State = State(
    tail: nat,
    head: nat,
    optimistic: nat,
    overcommit: nat,
    pc: seq<Pc>,
    tickets: seq<Mark>,  // history variable: ticket u is the unit that took the count from u to u + 1
    claims: seq<Tid>     // history variable: element i was claimed by claims[i]
  )

  function Min(a: int, b: int): int {
    if a < b then a else b
  }

  /** Tickets [lo, lo + n) get mark `m`. */
  function Remark(h: seq<Mark>, lo: nat, n: nat, m: Mark): (r: seq<Mark>)
    requires lo + n <= |h|
    ensures |r| == |h|
    ensures forall i :: 0 <= i < |h| ==> r[i] == if lo <= i < lo + n then m else h[i]
  {
    h[..lo] + Repeat(n, m) + h[lo + n..]
  }

  /** How many of a thread's tickets win against the reloaded tail. */
  function Granted(tail: nat, desired: nat, overcommit: nat, mine: nat): (actual: nat)
    ensures actual <= desired
    ensures actual > 0 ==> actual <= tail - (mine as int - overcommit as int)
  {
    var available: int := tail as int - (mine as int - overcommit as int);
    if 0 < available then Min(desired, available) else 0
  }

  /** The relabelling done when a thread learns the fate of its tickets. */
  ghost function Decided(h: seq<Mark>, t: Tid, d: nat, a: nat, mine: nat): (h': seq<Mark>)
    requires a <= d && mine + d <= |h|
    ensures |h'| == |h|
  {
    Remark(Remark(h, mine, a, Won(t)), mine + a, d - a, Lost(t))
  }

  function Goto(s: State, t: Tid, q: Pc): State
    requires t < |s.pc|
  {
    s.(pc := s.pc[t := q])
  }

  /** A thread at `q` refers only to tickets that have been issued. */
  ghost predicate TicketsOf(q: Pc, n: nat) {
    match q
    case ReloadTail(d, _, mine) => mine + d <= n
    case AddOvercommit(d, a, mine) => a <= d && mine + d <= n
    case ClaimHead(a, mine) => mine + a <= n
    case _ => true
  }

  // ---- The program ----

  /** One atomic operation of consumer `t`. */
  ghost function Run(s: State, t: Tid): State
    requires t < |s.pc| && TicketsOf(s.pc[t], |s.tickets|)
  {
    match s.pc[t]
    case Idle => s
    case LoadOvercommit(max, tail) =>
      Goto(s, t, LoadOptimistic(max, tail, s.overcommit))
    case LoadOptimistic(max, tail, overcommit) =>
      var desired: int := tail - (s.optimistic - overcommit);
      Goto(s, t, if 0 < desired then TakeTickets(Min(desired, max), overcommit) else Idle)
    case TakeTickets(desired, overcommit) =>
      Goto(s.(optimistic := s.optimistic + desired, tickets := s.tickets + Repeat(desired, Open(t))),
           t, ReloadTail(desired, overcommit, s.optimistic))
    case ReloadTail(desired, overcommit, mine) =>
      var actual := Granted(s.tail, desired, overcommit, mine);
      Goto(s.(tickets := Decided(s.tickets, t, desired, actual, mine)),
           t, if actual < desired then AddOvercommit(desired, actual, mine) else ClaimHead(actual, mine))
    case AddOvercommit(desired, actual, mine) =>
      Goto(s.(overcommit := s.overcommit + (desired - actual),
              tickets := Remark(s.tickets, mine + actual, desired - actual, Returned)),
           t, if 0 < actual then ClaimHead(actual, mine) else Idle)
    case ClaimHead(actual, mine) =>
      Goto(s.(head := s.head + actual,
              tickets := Remark(s.tickets, mine, actual, Claimed),
              claims := s.claims + Repeat(actual, t)),
           t, Idle)
  }

  datatype Action = Enqueue(count: nat) | Dequeue(t: Tid, max: nat) | Step(t: Tid)

  ghost predicate Enabled(s: State, a: Action) {
    match a
    case Enqueue(_) => true
    case Dequeue(t, max) => t < |s.pc| && s.pc[t] == Idle && max > 0
    case Step(t) => t < |s.pc| && TicketsOf(s.pc[t], |s.tickets|)
  }

  /** The producer publishes elements by storing the tail; a dequeue starts by loading it. */
  ghost function Apply(s: State, a: Action): State
    requires Enabled(s, a)
  {
    match a
    case Enqueue(count) => s.(tail := s.tail + count)
    case Dequeue(t, max) => Goto(s, t, LoadOvercommit(max, s.tail))
    case Step(t) => Run(s, t)
  }

  ghost predicate Init(s: State) {
    && s.tail == s.head == s.optimistic == s.overcommit == 0
    && s.tickets == [] && s.claims == []
    && forall t :: 0 <= t < |s.pc| ==> s.pc[t] == Idle
  }

  // ---- Counting tickets ----

  datatype Kind = KOpen | KWon | KLost | KClaimed | KReturned

  function KindOf(m: Mark): Kind {
    match m
    case Open(_) => KOpen
    case Won(_) => KWon
    case Lost(_) => KLost
    case Claimed => KClaimed
    case Returned => KReturned
  }

  ghost function Count(h: seq<Mark>, ks: set<Kind>): nat {
    if h == [] then 0 else Count(h[..|h| - 1], ks) + (if KindOf(h[|h| - 1]) in ks then 1 else 0)
  }

  lemma {:induction false} CountConcat(a: seq<Mark>, b: seq<Mark>, ks: set<Kind>)
    ensures Count(a + b, ks) == Count(a, ks) + Count(b, ks)
  {
    if b == [] {
      assert a + b == a;
    } else {
      CountConcat(a, b[..|b| - 1], ks);
      assert (a + b)[..|a + b| - 1] == a + b[..|b| - 1];
    }
  }

  lemma {:induction false} CountUniform(h: seq<Mark>, ks: set<Kind>, k: Kind)
    requires forall i :: 0 <= i < |h| ==> KindOf(h[i]) == k
    ensures Count(h, ks) == if k in ks then |h| else 0
  {
    if h != [] {
      CountUniform(h[..|h| - 1], ks, k);
    }
  }

  lemma {:induction false} CountBound(h: seq<Mark>, ks: set<Kind>)
    ensures Count(h, ks) <= |h|
  {
    if h != [] {
      CountBound(h[..|h| - 1], ks);
    }
  }

  /** Counting with more kinds, or after marks have moved into the kinds counted, gives no less. */
  lemma {:induction false} CountMonotone(h: seq<Mark>, ks: set<Kind>, h': seq<Mark>, ks': set<Kind>)
    requires |h| == |h'|
    requires forall i :: 0 <= i < |h| && KindOf(h[i]) in ks ==> KindOf(h'[i]) in ks'
    ensures Count(h, ks) <= Count(h', ks')
  {
    if h != [] {
      CountMonotone(h[..|h| - 1], ks, h'[..|h| - 1], ks');
    }
  }

  lemma {:induction false} CountDisjoint(h: seq<Mark>, ks: set<Kind>, js: set<Kind>)
    requires ks !! js
    ensures Count(h, ks + js) == Count(h, ks) + Count(h, js)
  {
    if h != [] {
      CountDisjoint(h[..|h| - 1], ks, js);
    }
  }

  lemma CountRemark(h: seq<Mark>, lo: nat, n: nat, m: Mark, k: Kind, ks: set<Kind>)
    requires lo + n <= |h|
    requires forall i :: lo <= i < lo + n ==> KindOf(h[i]) == k
    ensures Count(Remark(h, lo, n, m), ks) + (if k in ks then n else 0)
         == Count(h, ks) + (if KindOf(m) in ks then n else 0)
  {
    var a, b, c, d := h[..lo], h[lo..lo + n], h[lo + n..], Repeat(n, m);
    assert h == a + b + c;
    CountConcat(a + b, c, ks);
    CountConcat(a, b, ks);
    CountConcat(a + d, c, ks);
    CountConcat(a, d, ks);
    CountUniform(b, ks, k);
    CountUniform(d, ks, KindOf(m));
  }

  /** Marks that are not counted become ones that are. */
  lemma CountGains(h: seq<Mark>, lo: nat, n: nat, m: Mark, k: Kind, ks: set<Kind>)
    requires lo + n <= |h| && k !in ks && KindOf(m) in ks
    requires forall i :: lo <= i < lo + n ==> KindOf(h[i]) == k
    ensures Count(Remark(h, lo, n, m), ks) == Count(h, ks) + n
  {
    CountRemark(h, lo, n, m, k, ks);
  }

  /** Marks that are not counted become others that are not. */
  lemma CountKeeps(h: seq<Mark>, lo: nat, n: nat, m: Mark, k: Kind, ks: set<Kind>)
    requires lo + n <= |h| && k !in ks && KindOf(m) !in ks
    requires forall i :: lo <= i < lo + n ==> KindOf(h[i]) == k
    ensures Count(Remark(h, lo, n, m), ks) == Count(h, ks)
  {
    CountRemark(h, lo, n, m, k, ks);
  }

  lemma CountKeepsTwice(h: seq<Mark>, lo: nat, a: nat, m: Mark, mid: nat, n: nat, l: Mark, k: Kind, ks: set<Kind>)
    requires lo + a <= |h| && mid + n <= |h| && k !in ks && KindOf(m) !in ks && KindOf(l) !in ks
    requires forall i :: lo <= i < lo + a ==> KindOf(h[i]) == k
    requires forall i :: mid <= i < mid + n ==> KindOf(Remark(h, lo, a, m)[i]) == k
    ensures Count(Remark(Remark(h, lo, a, m), mid, n, l), ks) == Count(h, ks)
  {
    CountKeeps(h, lo, a, m, k, ks);
    CountKeeps(Remark(h, lo, a, m), mid, n, l, k, ks);
  }

  // ---- The invariant ----

  ghost const LOSERS: set<Kind> := {KLost, KReturned}
  ghost const WINNERS: set<Kind> := {KWon, KClaimed}
  ghost const OUTSTANDING: set<Kind> := {KOpen, KWon, KLost}

  ghost function LostBelow(h: seq<Mark>, u: nat): nat
    requires u <= |h|
  {
    Count(h[..u], LOSERS)
  }

  /** A winning ticket, less the losing tickets before it, is an index below the tail. */
  ghost predicate WinnerAt(h: seq<Mark>, tail: nat, u: nat)
    requires u < |h|
  {
    KindOf(h[u]) in WINNERS ==> u - LostBelow(h, u) < tail
  }

  ghost predicate Winners(h: seq<Mark>, tail: nat) {
    forall u :: 0 <= u < |h| ==> WinnerAt(h, tail, u)
  }

  /** Thread `t` at `q` holds the tickets that carry its name, and no others. */
  ghost predicate Holds(h: seq<Mark>, q: Pc, t: Tid) {
    forall u :: 0 <= u < |h| ==> HoldsAt(h[u], q, t, u)
  }

  ghost predicate HoldsAt(m: Mark, q: Pc, t: Tid, u: nat) {
    match q
    case ReloadTail(d, _, mine) => Named(m, t, mine <= u < mine + d, false, false)
    case AddOvercommit(d, a, mine) => Named(m, t, false, mine <= u < mine + a, mine + a <= u < mine + d)
    case ClaimHead(a, mine) => Named(m, t, false, mine <= u < mine + a, false)
    case _ => Named(m, t, false, false, false)
  }

  ghost predicate Named(m: Mark, t: Tid, open: bool, won: bool, lost: bool) {
    (m == Open(t) <==> open) && (m == Won(t) <==> won) && (m == Lost(t) <==> lost)
  }

  /** Stale values are no larger than the present ones, and an overcommit read is covered by earlier losers. */
  ghost predicate Reads(h: seq<Mark>, tail: nat, overcommit: nat, q: Pc) {
    match q
    case Idle => true
    case LoadOvercommit(max, tl) => max > 0 && tl <= tail
    case LoadOptimistic(max, tl, oc) => max > 0 && tl <= tail && oc <= overcommit
    case TakeTickets(d, oc) => d > 0 && oc <= overcommit
    case ReloadTail(d, oc, mine) => d > 0 && mine + d <= |h| && oc <= LostBelow(h, mine)
    case AddOvercommit(d, a, mine) => a < d && mine + d <= |h|
    case ClaimHead(a, mine) => a > 0 && mine + a <= |h|
  }

  ghost predicate OwnedBelow(m: Mark, n: nat) {
    m.Open? || m.Won? || m.Lost? ==> m.t < n
  }

  ghost predicate Owned(h: seq<Mark>, n: nat) {
    forall u :: 0 <= u < |h| ==> OwnedBelow(h[u], n)
  }

  ghost predicate Threads(h: seq<Mark>, tail: nat, overcommit: nat, pc: seq<Pc>) {
    forall t :: 0 <= t < |pc| ==> Holds(h, pc[t], t) && Reads(h, tail, overcommit, pc[t])
  }

  ghost predicate Counters(h: seq<Mark>, head: nat, optimistic: nat, overcommit: nat) {
    && optimistic == |h|
    && head == Count(h, {KClaimed})
    && overcommit == Count(h, {KReturned})
  }

  ghost predicate Inv(s: State) {
    && Counters(s.tickets, s.head, s.optimistic, s.overcommit)
    && Winners(s.tickets, s.tail)
    && Owned(s.tickets, |s.pc|)
    && Threads(s.tickets, s.tail, s.overcommit, s.pc)
    && |s.claims| == s.head
  }

  lemma InitInv(s: State)
    requires Init(s)
    ensures Inv(s)
  {
  }

  /** From `h` to `h'` only tickets of thread `t` change, and a loser stays a loser. */
  ghost predicate Relabel(h: seq<Mark>, h': seq<Mark>, t: Tid) {
    && |h| == |h'|
    && forall u :: 0 <= u < |h| ==> h'[u] == h[u] || RelabelOne(h[u], h'[u], t)
  }

  ghost predicate RelabelOne(m: Mark, m': Mark, t: Tid) {
    || (m == Open(t) && (m' == Won(t) || m' == Lost(t)))
    || (m == Won(t) && m' == Claimed)
    || (m == Lost(t) && m' == Returned)
  }

  lemma LostBelowGrows(h: seq<Mark>, h': seq<Mark>, t: Tid, u: nat)
    requires Relabel(h, h', t) && u <= |h|
    ensures LostBelow(h, u) <= LostBelow(h', u)
  {
    CountMonotone(h[..u], LOSERS, h'[..u], LOSERS);
  }

  lemma LostBelowIncreases(h: seq<Mark>, u: nat, v: nat)
    requires u <= v <= |h|
    ensures LostBelow(h, u) <= LostBelow(h, v)
  {
    assert h[..v] == h[..u] + h[u..v];
    CountConcat(h[..u], h[u..v], LOSERS);
  }

  lemma RelabelOwned(h: seq<Mark>, h': seq<Mark>, t: Tid, n: nat)
    requires Relabel(h, h', t) && Owned(h, n) && t < n
    ensures Owned(h', n)
  {
    forall u | 0 <= u < |h'| ensures OwnedBelow(h'[u], n) {
      assert OwnedBelow(h[u], n);
    }
  }

  lemma OthersHold(h: seq<Mark>, h': seq<Mark>, q: Pc, u: Tid, t: Tid)
    requires Relabel(h, h', t) && u != t && Holds(h, q, u)
    ensures Holds(h', q, u)
  {
  }

  lemma OthersRead(h: seq<Mark>, h': seq<Mark>, tail: nat, oc: nat, oc': nat, q: Pc, t: Tid)
    requires Relabel(h, h', t) && Reads(h, tail, oc, q) && oc <= oc'
    ensures Reads(h', tail, oc', q)
  {
    if q.ReloadTail? {
      LostBelowGrows(h, h', t, q.mine);
    }
  }

  /** Thread `t` moves to `q` and relabels its own tickets. */
  lemma RelabelThreads(h: seq<Mark>, h': seq<Mark>, tail: nat, oc: nat, oc': nat, pc: seq<Pc>, t: Tid, q: Pc)
    requires t < |pc| && Threads(h, tail, oc, pc) && Relabel(h, h', t) && oc <= oc'
    requires Holds(h', q, t) && Reads(h', tail, oc', q)
    ensures Threads(h', tail, oc', pc[t := q])
  {
    var pc' := pc[t := q];
    forall u | 0 <= u < |pc'| ensures Holds(h', pc'[u], u) && Reads(h', tail, oc', pc'[u]) {
      if u != t {
        assert Holds(h, pc[u], u) && Reads(h, tail, oc, pc[u]);
        OthersHold(h, h', pc[u], u, t);
        OthersRead(h, h', tail, oc, oc', pc[u], t);
      }
    }
  }

  /** Winners stay winners below the tail; a new one is below it too when enough losers precede it. */
  lemma RelabelWinners(h: seq<Mark>, h': seq<Mark>, tail: nat, t: Tid, mine: nat, lost: nat)
    requires Relabel(h, h', t) && Winners(h, tail)
    requires mine <= |h| && lost <= LostBelow(h, mine)
    requires forall u :: 0 <= u < |h| && h[u] == Open(t) && h'[u] == Won(t) ==> mine <= u < tail + lost
    ensures Winners(h', tail)
  {
    forall u | 0 <= u < |h'| ensures WinnerAt(h', tail, u) {
      assert WinnerAt(h, tail, u);
      LostBelowGrows(h, h', t, u);
      if KindOf(h[u]) !in WINNERS && KindOf(h'[u]) in WINNERS {
        LostBelowIncreases(h, mine, u);
      }
    }
  }

  /** A step that touches only the program counter. */
  lemma MoveThreads(h: seq<Mark>, tail: nat, oc: nat, pc: seq<Pc>, t: Tid, q: Pc)
    requires t < |pc| && Threads(h, tail, oc, pc)
    requires Holds(h, q, t) && Reads(h, tail, oc, q)
    ensures Threads(h, tail, oc, pc[t := q])
  {
    RelabelThreads(h, h, tail, oc, oc, pc, t, q);
  }

  lemma EnqueueInv(s: State, count: nat)
    requires Inv(s)
    ensures Inv(Apply(s, Enqueue(count)))
  {
    var tail' := s.tail + count;
    forall u | 0 <= u < |s.tickets| ensures WinnerAt(s.tickets, tail', u) {
      assert WinnerAt(s.tickets, s.tail, u);
    }
    forall t | 0 <= t < |s.pc| ensures Holds(s.tickets, s.pc[t], t) && Reads(s.tickets, tail', s.overcommit, s.pc[t]) {
      assert Holds(s.tickets, s.pc[t], t) && Reads(s.tickets, s.tail, s.overcommit, s.pc[t]);
    }
  }

  lemma TakeTicketsInv(s: State, t: Tid)
    requires Inv(s) && t < |s.pc| && s.pc[t].TakeTickets?
    ensures Inv(Run(s, t))
  {
    var h, d, oc := s.tickets, s.pc[t].desired, s.pc[t].overcommit;
    var fresh' := Repeat(d, Open(t));
    var h' := h + fresh';
    var q := ReloadTail(d, oc, |h|);
    CountConcat(h, fresh', {KClaimed});
    CountConcat(h, fresh', {KReturned});
    CountUniform(fresh', {KClaimed}, KOpen);
    CountUniform(fresh', {KReturned}, KOpen);
    assert h'[..|h|] == h;
    CountMonotone(h, {KReturned}, h, LOSERS);
    assert Holds(h, s.pc[t], t);
    AppendThreads(h, fresh', s.tail, s.overcommit, s.pc, t, q);
    forall u | 0 <= u < |h'| ensures WinnerAt(h', s.tail, u) {
      if u < |h| {
        assert WinnerAt(h, s.tail, u) && h'[..u] == h[..u];
      }
    }
  }

  lemma AppendThreads(h: seq<Mark>, fresh': seq<Mark>, tail: nat, oc: nat, pc: seq<Pc>, t: Tid, q: Pc)
    requires t < |pc| && Threads(h, tail, oc, pc)
    requires forall i :: 0 <= i < |fresh'| ==> fresh'[i] == Open(t)
    requires Holds(h + fresh', q, t) && Reads(h + fresh', tail, oc, q)
    ensures Threads(h + fresh', tail, oc, pc[t := q])
  {
    var h', pc' := h + fresh', pc[t := q];
    forall u | 0 <= u < |pc'| ensures Holds(h', pc'[u], u) && Reads(h', tail, oc, pc'[u]) {
      if u != t {
        assert Holds(h, pc[u], u) && Reads(h, tail, oc, pc[u]);
        AppendHolds(h, fresh', pc[u], u, t);
        if pc[u].ReloadTail? {
          assert h'[..pc[u].mine] == h[..pc[u].mine];
        }
      }
    }
  }

  lemma AppendHolds(h: seq<Mark>, fresh': seq<Mark>, q: Pc, u: Tid, t: Tid)
    requires u != t && Holds(h, q, u) && TicketsOf(q, |h|)
    requires forall i :: 0 <= i < |fresh'| ==> fresh'[i] == Open(t)
    ensures Holds(h + fresh', q, u)
  {
    var h' := h + fresh';
    assert forall i :: 0 <= i < |h| ==> h'[i] == h[i];
    assert forall i :: |h| <= i < |h'| ==> h'[i] == Open(t);
  }

  lemma DecidedIs(h: seq<Mark>, t: Tid, d: nat, a: nat, mine: nat, u: nat)
    requires a <= d && mine + d <= |h| && u < |h|
    ensures Decided(h, t, d, a, mine)[u] ==
            if mine <= u < mine + a then Won(t) else if mine + a <= u < mine + d then Lost(t) else h[u]
  {
  }

  lemma DecidedRelabels(h: seq<Mark>, t: Tid, d: nat, a: nat, mine: nat, oc: nat)
    requires a <= d && mine + d <= |h| && Holds(h, ReloadTail(d, oc, mine), t)
    ensures Relabel(h, Decided(h, t, d, a, mine), t)
    ensures Holds(Decided(h, t, d, a, mine), AddOvercommit(d, a, mine), t)
    ensures a == d ==> Holds(Decided(h, t, d, a, mine), ClaimHead(a, mine), t)
  {
    var h' := Decided(h, t, d, a, mine);
    forall u | 0 <= u < |h|
      ensures h'[u] == h[u] || RelabelOne(h[u], h'[u], t)
      ensures Named(h'[u], t, false, mine <= u < mine + a, mine + a <= u < mine + d)
    {
      DecidedIs(h, t, d, a, mine, u);
      assert Named(h[u], t, mine <= u < mine + d, false, false);
    }
  }

  lemma StillOpen(h: seq<Mark>, t: Tid, lo: nat, a: nat, mid: nat, n: nat)
    requires mid == lo + a && mid + n <= |h|
    requires forall u :: lo <= u < mid + n ==> h[u] == Open(t)
    ensures forall i :: lo <= i < mid ==> KindOf(h[i]) == KOpen
    ensures forall i :: mid <= i < mid + n ==> KindOf(Remark(h, lo, a, Won(t))[i]) == KOpen
  {
    forall i | mid <= i < mid + n ensures KindOf(Remark(h, lo, a, Won(t))[i]) == KOpen {
      assert h[i] == Open(t);
    }
  }

  lemma DecidedCounts(h: seq<Mark>, t: Tid, lo: nat, a: nat, mid: nat, n: nat, ks: set<Kind>)
    requires mid == lo + a && mid + n <= |h|
    requires forall u :: lo <= u < mid + n ==> h[u] == Open(t)
    requires KOpen !in ks && KWon !in ks && KLost !in ks
    ensures Count(Decided(h, t, a + n, a, lo), ks) == Count(h, ks)
  {
    StillOpen(h, t, lo, a, mid, n);
    CountKeepsTwice(h, lo, a, Won(t), mid, n, Lost(t), KOpen, ks);
  }

  lemma DecidedWinners(h: seq<Mark>, t: Tid, d: nat, a: nat, mine: nat, oc: nat, tail: nat)
    requires a <= d && mine + d <= |h| && Holds(h, ReloadTail(d, oc, mine), t)
    requires Winners(h, tail) && oc <= LostBelow(h, mine)
    requires a > 0 ==> a <= tail - (mine - oc)
    ensures Winners(Decided(h, t, d, a, mine), tail)
  {
    var h' := Decided(h, t, d, a, mine);
    DecidedRelabels(h, t, d, a, mine, oc);
    forall u | 0 <= u < |h| && h[u] == Open(t) && h'[u] == Won(t) ensures mine <= u < tail + oc {
      DecidedIs(h, t, d, a, mine, u);
    }
    RelabelWinners(h, h', tail, t, mine, oc);
  }

  lemma ReloadTailInv(s: State, t: Tid)
    requires Inv(s) && t < |s.pc| && s.pc[t].ReloadTail?
    ensures Inv(Run(s, t))
  {
    var h, q, s' := s.tickets, s.pc[t], Run(s, t);
    assert Holds(h, q, t) && Reads(h, s.tail, s.overcommit, q);
    var d, oc, mine := q.desired, q.overcommit, q.mine;
    var a := Granted(s.tail, d, oc, mine);
    assert q == ReloadTail(d, oc, mine);
    DecidedRelabels(h, t, d, a, mine, oc);
    RelabelOwned(h, Decided(h, t, d, a, mine), t, |s.pc|);
    DecidedMoves(h, s.head, s.tail, s.overcommit, s.pc, t, d, a, mine, oc);
  }

  lemma DecidedMoves(h: seq<Mark>, head: nat, tail: nat, committed: nat, pc: seq<Pc>, t: Tid, d: nat, a: nat, mine: nat, oc: nat)
    requires t < |pc| && a <= d && d > 0 && mine + d <= |h|
    requires Counters(h, head, |h|, committed) && Winners(h, tail) && Threads(h, tail, committed, pc)
    requires Holds(h, ReloadTail(d, oc, mine), t) && oc <= LostBelow(h, mine)
    requires a > 0 ==> a <= tail - (mine - oc)
    ensures Counters(Decided(h, t, d, a, mine), head, |h|, committed)
    ensures Winners(Decided(h, t, d, a, mine), tail)
    ensures Threads(Decided(h, t, d, a, mine), tail, committed, pc[t := if a < d then AddOvercommit(d, a, mine) else ClaimHead(a, mine)])
  {
    var h' := Decided(h, t, d, a, mine);
    DecidedCounters(h, head, committed, t, d, a, mine, oc);
    DecidedRelabels(h, t, d, a, mine, oc);
    DecidedWinners(h, t, d, a, mine, oc, tail);
    RelabelThreads(h, h', tail, committed, committed, pc, t, if a < d then AddOvercommit(d, a, mine) else ClaimHead(a, mine));
  }

  lemma DecidedCounters(h: seq<Mark>, head: nat, committed: nat, t: Tid, d: nat, a: nat, mine: nat, oc: nat)
    requires a <= d && mine + d <= |h| && Counters(h, head, |h|, committed) && Holds(h, ReloadTail(d, oc, mine), t)
    ensures Counters(Decided(h, t, d, a, mine), head, |h|, committed)
  {
    forall u | mine <= u < mine + d ensures h[u] == Open(t) {
      assert HoldsAt(h[u], ReloadTail(d, oc, mine), t, u);
    }
    DecidedCounts(h, t, mine, a, mine + a, d - a, {KClaimed});
    DecidedCounts(h, t, mine, a, mine + a, d - a, {KReturned});
  }

  lemma ReturnedRelabels(h: seq<Mark>, t: Tid, d: nat, a: nat, mine: nat, lo: nat, n: nat)
    requires a <= d && mine + d <= |h| && Holds(h, AddOvercommit(d, a, mine), t)
    requires lo == mine + a && n == d - a
    ensures forall u :: lo <= u < lo + n ==> h[u] == Lost(t)
    ensures Relabel(h, Remark(h, lo, n, Returned), t)
    ensures Holds(Remark(h, lo, n, Returned), ClaimHead(a, mine), t)
    ensures a == 0 ==> Holds(Remark(h, lo, n, Returned), Idle, t)
  {
    var h' := Remark(h, lo, n, Returned);
    forall u | 0 <= u < |h|
      ensures h'[u] == h[u] || RelabelOne(h[u], h'[u], t)
      ensures Named(h'[u], t, false, mine <= u < lo, false)
      ensures lo <= u < lo + n ==> h[u] == Lost(t)
    {
      assert Named(h[u], t, false, mine <= u < lo, lo <= u < lo + n);
    }
  }

  lemma AddOvercommitInv(s: State, t: Tid)
    requires Inv(s) && t < |s.pc| && s.pc[t].AddOvercommit?
    ensures Inv(Run(s, t))
  {
    var q := s.pc[t];
    assert Holds(s.tickets, q, t) && Reads(s.tickets, s.tail, s.overcommit, q);
    assert q == AddOvercommit(q.desired, q.actual, q.mine);
    var h', pc' := AddOvercommitKeeps(s.tickets, s.head, s.tail, s.overcommit, s.pc, t, q.desired, q.actual, q.mine);
    AddOvercommitTo(s, t, q.desired, q.actual, q.mine, h', pc');
  }

  lemma AddOvercommitTo(s: State, t: Tid, d: nat, a: nat, mine: nat, h': seq<Mark>, pc': seq<Pc>)
    requires t < |s.pc| && s.pc[t] == AddOvercommit(d, a, mine) && a <= d && mine + d <= |s.tickets|
    requires h' == Remark(s.tickets, mine + a, d - a, Returned) && pc' == s.pc[t := if 0 < a then ClaimHead(a, mine) else Idle]
    requires Counters(h', s.head, s.optimistic, s.overcommit + (d - a)) && Winners(h', s.tail)
    requires Owned(h', |pc'|) && Threads(h', s.tail, s.overcommit + (d - a), pc') && |s.claims| == s.head
    ensures Inv(Run(s, t))
  {
    assert Run(s, t) == s.(tickets := h', overcommit := s.overcommit + (d - a), pc := pc');
  }

  lemma AddOvercommitKeeps(h: seq<Mark>, head: nat, tail: nat, oc: nat, pc: seq<Pc>, t: Tid, d: nat, a: nat, mine: nat)
    returns (h': seq<Mark>, pc': seq<Pc>)
    requires t < |pc| && a <= d && mine + d <= |h|
    requires Counters(h, head, |h|, oc) && Winners(h, tail) && Threads(h, tail, oc, pc) && Owned(h, |pc|)
    requires Holds(h, AddOvercommit(d, a, mine), t)
    ensures h' == Remark(h, mine + a, d - a, Returned) && pc' == pc[t := if 0 < a then ClaimHead(a, mine) else Idle]
    ensures Counters(h', head, |h|, oc + (d - a)) && Winners(h', tail) && Owned(h', |pc|) && Threads(h', tail, oc + (d - a), pc')
  {
    ReturnedRelabels(h, t, d, a, mine, mine + a, d - a);
    h', pc' := AddOvercommitMoves(h, head, tail, oc, pc, t, a, mine, mine + a, d - a);
    RelabelOwned(h, h', t, |pc|);
  }

  lemma AddOvercommitMoves(h: seq<Mark>, head: nat, tail: nat, oc: nat, pc: seq<Pc>, t: Tid, a: nat, mine: nat, lo: nat, n: nat)
    returns (h': seq<Mark>, pc': seq<Pc>)
    requires t < |pc| && lo + n <= |h| && lo == mine + a
    requires Counters(h, head, |h|, oc) && Winners(h, tail) && Threads(h, tail, oc, pc)
    requires forall u :: lo <= u < lo + n ==> h[u] == Lost(t)
    requires Relabel(h, Remark(h, lo, n, Returned), t)
    requires Holds(Remark(h, lo, n, Returned), ClaimHead(a, mine), t)
    requires a == 0 ==> Holds(Remark(h, lo, n, Returned), Idle, t)
    ensures h' == Remark(h, lo, n, Returned) && pc' == pc[t := if 0 < a then ClaimHead(a, mine) else Idle]
    ensures Relabel(h, h', t)
    ensures Counters(h', head, |h|, oc + n) && Winners(h', tail) && Threads(h', tail, oc + n, pc')
  {
    h', pc' := Remark(h, lo, n, Returned), pc[t := if 0 < a then ClaimHead(a, mine) else Idle];
    CountKeeps(h, lo, n, Returned, KLost, {KClaimed});
    CountGains(h, lo, n, Returned, KLost, {KReturned});
    RelabelWinners(h, h', tail, t, 0, 0);
    RelabelThreads(h, h', tail, oc, oc + n, pc, t, if 0 < a then ClaimHead(a, mine) else Idle);
  }

  lemma ClaimedRelabels(h: seq<Mark>, t: Tid, a: nat, mine: nat)
    requires mine + a <= |h| && Holds(h, ClaimHead(a, mine), t)
    ensures Relabel(h, Remark(h, mine, a, Claimed), t)
    ensures Holds(Remark(h, mine, a, Claimed), Idle, t)
  {
    var h' := Remark(h, mine, a, Claimed);
    forall u | 0 <= u < |h|
      ensures h'[u] == h[u] || RelabelOne(h[u], h'[u], t)
      ensures HoldsAt(h'[u], Idle, t, u)
    {
      assert HoldsAt(h[u], ClaimHead(a, mine), t, u);
    }
  }

  lemma ClaimedAre(h: seq<Mark>, t: Tid, a: nat, mine: nat)
    requires mine + a <= |h| && Holds(h, ClaimHead(a, mine), t)
    ensures forall u :: mine <= u < mine + a ==> KindOf(h[u]) == KWon
  {
    forall u | mine <= u < mine + a ensures KindOf(h[u]) == KWon {
      assert HoldsAt(h[u], ClaimHead(a, mine), t, u);
    }
  }

  lemma ClaimedCounts(h: seq<Mark>, t: Tid, a: nat, mine: nat)
    requires mine + a <= |h| && Holds(h, ClaimHead(a, mine), t)
    ensures Count(Remark(h, mine, a, Claimed), {KClaimed}) == Count(h, {KClaimed}) + a
    ensures Count(Remark(h, mine, a, Claimed), {KReturned}) == Count(h, {KReturned})
  {
    ClaimedAre(h, t, a, mine);
    CountGains(h, mine, a, Claimed, KWon, {KClaimed});
    CountKeeps(h, mine, a, Claimed, KWon, {KReturned});
  }

  lemma ClaimHeadInv(s: State, t: Tid)
    requires Inv(s) && t < |s.pc| && s.pc[t].ClaimHead?
    ensures Inv(Run(s, t))
  {
    var h, q, s' := s.tickets, s.pc[t], Run(s, t);
    assert Holds(h, q, t) && Reads(h, s.tail, s.overcommit, q);
    ClaimedRelabels(h, t, q.actual, q.mine);
    ClaimedCounts(h, t, q.actual, q.mine);
    RelabelWinners(h, s'.tickets, s.tail, t, 0, 0);
    RelabelThreads(h, s'.tickets, s.tail, s.overcommit, s.overcommit, s.pc, t, Idle);
  }

  /** Every enabled action keeps the invariant. */
  lemma ApplyInv(s: State, a: Action)
    requires Inv(s) && Enabled(s, a)
    ensures Inv(Apply(s, a))
  {
    match a
    case Enqueue(count) => EnqueueInv(s, count);
    case Dequeue(t, max) =>
      assert Holds(s.tickets, s.pc[t], t) && Reads(s.tickets, s.tail, s.overcommit, s.pc[t]);
      MoveThreads(s.tickets, s.tail, s.overcommit, s.pc, t, LoadOvercommit(max, s.tail));
    case Step(t) =>
      assert Holds(s.tickets, s.pc[t], t) && Reads(s.tickets, s.tail, s.overcommit, s.pc[t]);
      match s.pc[t] {
        case Idle =>
        case LoadOvercommit(_, _) => MoveThreads(s.tickets, s.tail, s.overcommit, s.pc, t, Run(s, t).pc[t]);
        case LoadOptimistic(_, _, _) => MoveThreads(s.tickets, s.tail, s.overcommit, s.pc, t, Run(s, t).pc[t]);
        case TakeTickets(_, _) => TakeTicketsInv(s, t);
        case ReloadTail(_, _, _) => ReloadTailInv(s, t);
        case AddOvercommit(_, _, _) => AddOvercommitInv(s, t);
        case ClaimHead(_, _) => ClaimHeadInv(s, t);
      }
  }
}
