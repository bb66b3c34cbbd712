module Deliveries {
  /**
    What consumers got, shared by both kinds of producer: every claimed index is in its owner's hands
    or in exactly one delivery, its owner's.
   */

  import opened Basics
  import opened Blocks
  import opened Sequences

  /** Everything enqueued so far, in order. */
  ghost function Enqueued(elems: seq<Elem>, tail: nat): seq<Elem>
    requires tail <= |elems|
  {
    elems[..tail]
  }

  /** Indices [first, end) as consumer `consumer` got them. */
  datatype Delivery = Delivery(consumer: Tid, first: nat, end: nat, got: seq<Elem>)

  /** The indices a consumer has claimed and not finished with. */
  datatype Span = Free | Held(first: nat, end: nat)

  predicate Claims(c: Span, i: nat) {
    c.Held? && c.first <= i < c.end
  }

  predicate Delivers(d: Delivery, i: nat) {
    d.first <= i < d.end
  }

  ghost predicate InLog(log: seq<Delivery>, i: nat) {
    exists j :: 0 <= j < |log| && Delivers(log[j], i)
  }

  ghost predicate DeliveryOk(d: Delivery, elems: seq<Elem>) {
    d.first <= d.end <= |elems| && d.got == elems[d.first..d.end]
  }

  ghost predicate LogOk(log: seq<Delivery>, elems: seq<Elem>) {
    forall j :: 0 <= j < |log| ==> DeliveryOk(log[j], elems)
  }

  lemma LogGrows(log: seq<Delivery>, elems: seq<Elem>, e: Elem)
    requires LogOk(log, elems)
    ensures LogOk(log, elems + [e])
  {
    forall j | 0 <= j < |log| ensures DeliveryOk(log[j], elems + [e]) {
      var d := log[j];
      assert DeliveryOk(d, elems);
      assert (elems + [e])[d.first..d.end] == elems[d.first..d.end];
    }
  }

  /** Stretches of indices owned by different consumers do not overlap. */
  lemma OwnersApart(owner: seq<Tid>, a: nat, a': nat, t: Tid, b: nat, b': nat, u: Tid)
    requires a < a' <= |owner| && b < b' <= |owner| && t != u
    requires forall i :: a <= i < a' ==> owner[i] == t
    requires forall i :: b <= i < b' ==> owner[i] == u
    ensures a' <= b || b' <= a
  {
    var later := owner[if a < b then b else a];
  }

  ghost predicate AccountedFor(owner: seq<Tid>, spans: seq<Span>, log: seq<Delivery>, i: nat) {
    && i < |owner| && owner[i] < |spans|
    && (Claims(spans[owner[i]], i) <==> !InLog(log, i))
    && (forall j, k :: 0 <= j < |log| && 0 <= k < |log| && Delivers(log[j], i) && Delivers(log[k], i) ==> j == k)
    && (forall j :: 0 <= j < |log| && Delivers(log[j], i) ==> log[j].consumer == owner[i])
  }

  ghost predicate HistoryOk(owner: seq<Tid>, spans: seq<Span>, log: seq<Delivery>) {
    && (forall i :: 0 <= i < |owner| ==> AccountedFor(owner, spans, log, i))
    && (forall j :: 0 <= j < |log| ==> log[j].end <= |owner|)
  }

  lemma NewClaim(owner: seq<Tid>, spans: seq<Span>, log: seq<Delivery>, t: Tid, count: nat)
    requires HistoryOk(owner, spans, log) && t < |spans| && spans[t] == Free
    ensures HistoryOk(owner + Repeat(count, t), spans[t := Held(|owner|, |owner| + count)], log)
  {
    var owner', spans' := owner + Repeat(count, t), spans[t := Held(|owner|, |owner| + count)];
    forall i | 0 <= i < |owner'| ensures AccountedFor(owner', spans', log, i) {
      if i < |owner| {
        assert AccountedFor(owner, spans, log, i);
      }
    }
  }

  lemma Finish(owner: seq<Tid>, spans: seq<Span>, log: seq<Delivery>, t: Tid, d: Delivery)
    requires HistoryOk(owner, spans, log) && t < |spans| && spans[t] == Held(d.first, d.end)
    requires d.consumer == t && d.end <= |owner|
    requires forall i :: d.first <= i < d.end ==> owner[i] == t
    ensures HistoryOk(owner, spans[t := Free], log + [d])
  {
    var spans', log' := spans[t := Free], log + [d];
    forall i | 0 <= i < |owner| ensures AccountedFor(owner, spans', log', i) {
      assert AccountedFor(owner, spans, log, i);
      assert forall j :: 0 <= j < |log| ==> log'[j] == log[j];
      if Delivers(d, i) {
        assert Claims(spans[t], i) && !InLog(log, i);
        assert Delivers(log'[|log|], i);
      } else if InLog(log, i) {
        var j :| 0 <= j < |log| && Delivers(log[j], i);
        assert Delivers(log'[j], i);
      }
    }
  }

  ghost predicate Received(owner: seq<Tid>, elems: seq<Elem>, d: Delivery, i: nat) {
    && Delivers(d, i) && i < |owner| && i < |elems|
    && d.consumer == owner[i] && |d.got| == d.end - d.first && d.got[i - d.first] == elems[i]
  }

  /** Index i, once claimed, is still held by its owner or was received, as the i-th element, exactly once. */
  ghost predicate OnceAndOnlyOnce(owner: seq<Tid>, spans: seq<Span>, log: seq<Delivery>, elems: seq<Elem>, i: nat) {
    && i < |owner| && owner[i] < |spans|
    && (Claims(spans[owner[i]], i) <==> !InLog(log, i))
    && (forall j :: 0 <= j < |log| && Delivers(log[j], i) ==> Received(owner, elems, log[j], i))
    && (forall j, k :: 0 <= j < |log| && 0 <= k < |log| && Delivers(log[j], i) && Delivers(log[k], i) ==> j == k)
  }

  lemma HistoryMeans(owner: seq<Tid>, spans: seq<Span>, log: seq<Delivery>, elems: seq<Elem>, i: nat)
    requires HistoryOk(owner, spans, log) && LogOk(log, elems) && i < |owner|
    ensures OnceAndOnlyOnce(owner, spans, log, elems, i)
  {
    assert AccountedFor(owner, spans, log, i);
    forall j | 0 <= j < |log| && Delivers(log[j], i) ensures Received(owner, elems, log[j], i) {
      assert DeliveryOk(log[j], elems);
    }
  }
}
