module ImplicitIndex {
  /**
    The block index of an implicit producer: inserting, growing, moving the tail and looking up keep
    its invariant, whatever header is used and whatever was inserted and undone before.
   */

  import opened Basics
  import opened Blocks
  import opened Sequences
  import opened ImplicitQueue
  import opened ImplicitInvariant

  // ---- Looking up ----

  /** From the slot of any number that has kept its entry, lookup finds the slot of any other. */
  lemma LookupFinds(h: Header, ent: seq<EntryId>, lo: nat, keys: seq<Key>, front: nat, num: nat, n: nat)
    requires HeaderOk(h, ent, lo, |keys|) && KeysOk(keys, ent, lo)
    requires lo <= num < h.limit && lo <= n < h.limit && front == SlotOf(num - h.first, h.capacity)
    ensures CanLook(h, keys, front)
    ensures LookFrom(h, keys, front, Base(n)) == SlotOf(n - h.first, h.capacity)
    ensures h.index[SlotOf(n - h.first, h.capacity)] == ent[n] && keys[ent[n]] == Key(Base(n))
  {
    assert Listed(h, ent, num) && KeyAt(keys, ent, num);
    assert Listed(h, ent, n) && KeyAt(keys, ent, n);
    LookupIsSlot(h.first, num - h.first, n - h.first, h.capacity);
  }

  // ---- Headers that are not written to ----

  lemma HeaderFrame(h: Header, ent: seq<EntryId>, lo: nat, nKeys: nat, ent': seq<EntryId>, lo': nat, nKeys': nat)
    requires HeaderOk(h, ent, lo, nKeys) && ent <= ent' && lo <= lo' && nKeys <= nKeys'
    ensures HeaderOk(h, ent', lo', nKeys')
  {
    forall n | lo' <= n < h.limit ensures Listed(h, ent', n) {
      assert Listed(h, ent, n);
    }
  }

  lemma HeadersReplaceLast(headers: seq<Header>, h: Header, ent: seq<EntryId>, lo: nat, nKeys: nat, ent': seq<EntryId>, lo': nat)
    requires HeadersOk(headers, ent, lo, nKeys) && headers != [] && ent <= ent' && lo <= lo'
    requires HeaderOk(h, ent', lo', nKeys)
    ensures HeadersOk(ReplaceLast(headers, h), ent', lo', nKeys)
  {
    var headers' := ReplaceLast(headers, h);
    forall j | 0 <= j < |headers'| ensures HeaderOk(headers'[j], ent', lo', nKeys) {
      if j < |headers| - 1 {
        HeaderFrame(headers[j], ent, lo, nKeys, ent', lo', nKeys);
      }
    }
  }

  /** What consumers that hold header number h rely on; `m` is the last number whose elements are enqueued. */
  ghost predicate Extends(h: Header, h': Header, m: int) {
    && h'.first == h.first && h'.capacity == h.capacity && h'.limit >= h.limit
    && (h'.tailNum >= h.tailNum || h'.tailNum >= m)
  }

  ghost predicate HeadersExtend(headers: seq<Header>, headers': seq<Header>, m: int) {
    |headers| <= |headers'| && forall j :: 0 <= j < |headers| ==> Extends(headers[j], headers'[j], m)
  }

  // ---- The entry for the next number ----

  /** The slot after the tail is number n's: its own already, or unused, or that of the oldest number. */
  lemma NextEntryIs(headers: seq<Header>, keys: seq<Key>, ent: seq<EntryId>, lo: nat, nextCapacity: nat, n: nat)
    requires HeadersOk(headers, ent, lo, |keys|) && KeysOk(keys, ent, lo) && n <= |ent| && lo <= n
    requires CurrentOk(headers, keys, ent, lo, nextCapacity, n - 1)
    ensures HasNextEntry(headers, |keys|)
    ensures var e := NextEntry(headers, |keys|);
            var h := Last(headers);
            && (n < |ent| ==> e == ent[n])
            && (n == |ent| && |ent| < h.first + h.capacity ==> keys[e] == Invalid)
            && (n == |ent| && |ent| >= h.first + h.capacity ==> lo < |ent| && e == ent[lo])
  {
    var h := headers[|headers| - 1];
    assert HeaderOk(h, ent, lo, |keys|);
    if n < |ent| {
      assert Listed(h, ent, n);
    } else if |ent| < h.first + h.capacity {
      SmallSlot(n - h.first, h.capacity);
    } else {
      SlotWraps(lo - h.first, h.capacity);
      assert lo - h.first + h.capacity == n - h.first;
      assert Listed(h, ent, lo);
    }
  }

  /** Storing the key of number n, which may take the entry of number lo. */
  lemma InsertIndex(headers: seq<Header>, keys: seq<Key>, ent: seq<EntryId>, lo: nat, nextCapacity: nat, n: nat, e: EntryId, lo': nat)
    requires HeadersOk(headers, ent, lo, |keys|) && KeysOk(keys, ent, lo) && n == |ent| && lo <= n
    requires CurrentOk(headers, keys, ent, lo, nextCapacity, n - 1)
    requires HasNextEntry(headers, |keys|) && e == NextEntry(headers, |keys|)
    requires lo' == if keys[e] == Invalid then lo else lo + 1
    ensures lo' == lo + 1 ==> lo < |ent| && e == ent[lo]
    ensures var ent', keys' := ent + [e], keys[e := Key(Base(n))];
            var headers' := ReplaceLast(headers, Last(headers).(limit := n + 1));
            && HeadersOk(headers', ent', lo', |keys|) && KeysOk(keys', ent', lo')
            && CurrentOk(headers', keys', ent', lo', nextCapacity, n - 1)
  {
    NextEntryIs(headers, keys, ent, lo, nextCapacity, n);
    var h := Last(headers);
    if lo < |ent| {
      assert KeyAt(keys, ent, lo);
    }
    InsertKeys(keys, ent, lo, lo', n, e);
    InsertHeader(headers, ent, lo, |keys|, lo', n, e);
    if n - h.first < h.capacity {
      SmallSlot(n - h.first, h.capacity);
    }
    InsertUnused(h.index, keys, NextSlot(h.tail, h.capacity), n, n - h.first);
  }

  lemma InsertKeys(keys: seq<Key>, ent: seq<EntryId>, lo: nat, lo': nat, n: nat, e: EntryId)
    requires KeysOk(keys, ent, lo) && n == |ent| && e < |keys|
    requires if keys[e] == Invalid then lo' == lo else lo' == lo + 1 && lo < |ent| && e == ent[lo]
    ensures KeysOk(keys[e := Key(Base(n))], ent + [e], lo')
  {
    var ent', keys' := ent + [e], keys[e := Key(Base(n))];
    forall m | lo' <= m < |ent'| ensures KeyAt(keys', ent', m) {
      if m < n {
        assert KeyAt(keys, ent, m);
        if keys[e] != Invalid {
          assert KeyAt(keys, ent, lo);
          BaseMonotone(lo, m);
        }
      }
    }
  }

  lemma InsertHeader(headers: seq<Header>, ent: seq<EntryId>, lo: nat, nKeys: nat, lo': nat, n: nat, e: EntryId)
    requires HeadersOk(headers, ent, lo, nKeys) && n == |ent| && lo <= lo' && headers != []
    requires Last(headers).limit == n && Last(headers).first <= n && HasNextEntry(headers, nKeys) && e == NextEntry(headers, nKeys)
    requires NextSlot(Last(headers).tail, Last(headers).capacity) == SlotOf(n - Last(headers).first, Last(headers).capacity)
    ensures HeadersOk(ReplaceLast(headers, Last(headers).(limit := n + 1)), ent + [e], lo', nKeys)
  {
    var h, ent' := Last(headers), ent + [e];
    var h' := h.(limit := n + 1);
    assert HeaderOk(h, ent, lo, nKeys);
    forall m | lo' <= m < h'.limit ensures Listed(h', ent', m) {
      if m < n {
        assert Listed(h, ent, m);
      }
    }
    HeadersReplaceLast(headers, h', ent, lo, nKeys, ent', lo');
  }

  lemma InsertUnused(index: seq<EntryId>, keys: seq<Key>, slot: nat, n: nat, used: nat)
    requires Injective(index) && UnusedFrom(index, keys, used) && slot < |index| && index[slot] < |keys|
    requires used < |index| ==> slot == used
    ensures UnusedFrom(index, keys[index[slot] := Key(Base(n))], used + 1)
  {
  }

  // ---- Growing ----

  lemma {:induction false} ForwardIsSlot(tail: nat, m: nat, k: nat, size: nat)
    requires size > 0 && tail < size && NextSlot(tail, size) == SlotOf(m, size) && k < size
    ensures Forward(tail, k + 1, size) == SlotOf(m + k, size)
  {
    if k > 0 {
      ForwardIsSlot(tail, m, k - 1, size);
    }
  }

  /** The copying loop of `new_block_index`, and the new entries after it. */
  method CopyIndex(index: seq<EntryId>, tail: nat, unused: EntryId) returns (copy: array<EntryId>)
    requires tail < |index|
    ensures fresh(copy) && copy[..] == Enlarged(index, tail, unused)
  {
    var n := |index|;
    copy := new EntryId[2 * n];
    var pos, i, more := tail, 0, true;
    while more
      invariant 0 <= i <= n && (more ==> i < n) && (!more ==> i == n)
      invariant pos == Forward(tail, i, n) && pos < n
      invariant forall k :: 0 <= k < i ==> copy[k] == index[Forward(tail, k + 1, n)]
      decreases n - i, more
    {
      pos := NextSlot(pos, n);
      copy[i] := index[pos];
      i := i + 1;
      more := pos != tail;
    }
    for k := 0 to n
      invariant forall j :: 0 <= j < n ==> copy[j] == index[Forward(tail, j + 1, n)]
      invariant forall j :: n <= j < n + k ==> copy[j] == unused + (j - n)
    {
      copy[n + k] := unused + k;
    }
  }

  lemma EnlargedIsInjective(index: seq<EntryId>, tail: nat, unused: EntryId)
    requires Injective(index) && SlotsIn(index, unused) && tail < |index|
    ensures Injective(Enlarged(index, tail, unused)) && SlotsIn(Enlarged(index, tail, unused), unused + |index|)
  {
    var r, n := Enlarged(index, tail, unused), |index|;
    forall i, j | 0 <= i < j < |r| ensures r[i] != r[j] {
      if i < n {
        var a := Forward(tail, i + 1, n);
        assert r[i] == index[a];
        if j < n {
          var b := Forward(tail, j + 1, n);
          assert r[j] == index[b] && a != b;
        }
      }
    }
  }

  /** The entry of number lo is still in use: the index doubles. */
  lemma GrowIndex(headers: seq<Header>, keys: seq<Key>, ent: seq<EntryId>, lo: nat, nextCapacity: nat, h': Header)
    requires HeadersOk(headers, ent, lo, |keys|) && KeysOk(keys, ent, lo)
    requires CurrentOk(headers, keys, ent, lo, nextCapacity, |ent| - 1)
    requires |ent| >= Last(headers).first + Last(headers).capacity
    requires Last(headers).tail < |Last(headers).index| == Last(headers).capacity
    requires h' == Bigger(Last(headers), |keys|, nextCapacity, |ent|)
    ensures var keys' := keys + Repeat(|Last(headers).index|, Invalid);
            && HeadersOk(headers + [h'], ent, lo, |keys'|) && KeysOk(keys', ent, lo)
            && CurrentOk(headers + [h'], keys', ent, lo, 2 * nextCapacity, |ent| - 1)
  {
    var h := Last(headers);
    var keys' := keys + Repeat(|h.index|, Invalid);
    assert HeaderOk(h, ent, lo, |keys|);
    EnlargedIsInjective(h.index, h.tail, |keys|);
    GrowHeader(h, h', ent, lo, |keys|);
    SmallSlot(h.capacity, h'.capacity);
    forall n | lo <= n < |ent| ensures KeyAt(keys', ent, n) {
      assert KeyAt(keys, ent, n);
    }
    forall j | 0 <= j < |headers| + 1 ensures HeaderOk((headers + [h'])[j], ent, lo, |keys'|) {
      if j < |headers| {
        HeaderFrame(headers[j], ent, lo, |keys|, ent, lo, |keys'|);
      }
    }
  }

  lemma GrowHeader(h: Header, h': Header, ent: seq<EntryId>, lo: nat, nKeys: nat)
    requires HeaderOk(h, ent, lo, nKeys) && h.limit == |ent| && h.tailNum == |ent| - 1 && |ent| >= h.first + h.capacity
    requires lo == |ent| - h.capacity && NextSlot(h.tail, h.capacity) == SlotOf(|ent| - h.first, h.capacity)
    requires SlotsIn(Enlarged(h.index, h.tail, nKeys), nKeys + |h.index|)
    requires h' == Bigger(h, nKeys, 2 * h.capacity, |ent|)
    ensures HeaderOk(h', ent, lo, nKeys + |h.index|)
  {
    forall n | lo <= n < h'.limit ensures Listed(h', ent, n) {
      GrowListed(h, h', ent, lo, nKeys, n);
    }
    SmallSlot(h.capacity - 1, 2 * h.capacity);
  }

  lemma GrowListed(h: Header, h': Header, ent: seq<EntryId>, lo: nat, nKeys: nat, n: nat)
    requires HeaderOk(h, ent, lo, nKeys) && h.limit == |ent| && |ent| >= h.first + h.capacity
    requires lo == |ent| - h.capacity && NextSlot(h.tail, h.capacity) == SlotOf(|ent| - h.first, h.capacity)
    requires h' == Bigger(h, nKeys, 2 * h.capacity, |ent|) && lo <= n < |ent|
    ensures Listed(h', ent, n)
  {
    var c, k := h.capacity, n - lo;
    SlotWraps(lo - h.first, c);
    assert lo - h.first + c == |ent| - h.first;
    assert Listed(h, ent, n);
    ForwardIsSlot(h.tail, lo - h.first, k, c);
    SmallSlot(k, 2 * c);
    assert h'.index[k] == h.index[Forward(h.tail, k + 1, c)];
  }

  // ---- Moving the tail ----

  lemma AdvanceTail(headers: seq<Header>, keys: seq<Key>, ent: seq<EntryId>, lo: nat, nextCapacity: nat, n: nat, h': Header)
    requires HeadersOk(headers, ent, lo, |keys|) && CurrentOk(headers, keys, ent, lo, nextCapacity, n - 1) && lo <= n < |ent|
    requires h' == Last(headers).(tail := NextSlot(Last(headers).tail, Last(headers).capacity), tailNum := n)
    ensures HeadersOk(ReplaceLast(headers, h'), ent, lo, |keys|)
    ensures CurrentOk(ReplaceLast(headers, h'), keys, ent, lo, nextCapacity, n)
    ensures HeadersExtend(headers, ReplaceLast(headers, h'), n)
  {
    var h := headers[|headers| - 1];
    assert HeaderOk(h, ent, lo, |keys|);
    var k := n - h.first;
    assert SlotOf(k + 1, h.capacity) == NextSlot(SlotOf(k, h.capacity), h.capacity);
    forall m | lo <= m < h'.limit ensures Listed(h', ent, m) {
      assert Listed(h, ent, m);
    }
    HeadersReplaceLast(headers, h', ent, lo, |keys|, ent, lo);
  }

  lemma RewindTail(headers: seq<Header>, keys: seq<Key>, ent: seq<EntryId>, lo: nat, nextCapacity: nat, n: nat)
    requires HeadersOk(headers, ent, lo, |keys|) && CurrentOk(headers, keys, ent, lo, nextCapacity, n) && lo <= n < |ent|
    ensures Last(headers).capacity > 0
    ensures var headers' := ReplaceLast(headers, Rewound(Last(headers)));
            && HeadersOk(headers', ent, lo, |keys|) && CurrentOk(headers', keys, ent, lo, nextCapacity, n - 1)
            && HeadersExtend(headers, headers', n - 1)
  {
    var h := headers[|headers| - 1];
    var h' := Rewound(h);
    assert HeaderOk(h, ent, lo, |keys|);
    var k := n - h.first;
    assert k > 0 ==> SlotOf(k, h.capacity) == NextSlot(SlotOf(k - 1, h.capacity), h.capacity);
    forall m | lo <= m < h'.limit ensures Listed(h', ent, m) {
      assert Listed(h, ent, m);
    }
    HeadersReplaceLast(headers, h', ent, lo, |keys|, ent, lo);
  }

  // ---- Values ----

  /** Storing a value in number n's entry leaves the entries of other numbers alone. */
  lemma OtherEntry(keys: seq<Key>, ent: seq<EntryId>, lo: nat, m: nat, n: nat)
    requires KeysOk(keys, ent, lo) && lo <= m < |ent| && lo <= n < |ent| && m != n
    ensures ent[m] != ent[n]
  {
    assert KeyAt(keys, ent, m) && KeyAt(keys, ent, n);
    if m < n {
      BaseMonotone(m, n);
    } else {
      BaseMonotone(n, m);
    }
  }
}
