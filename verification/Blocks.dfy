module Blocks {
  /**
    Blocks and the indices of their elements, shared by both kinds of producer. Element `i` lives
    in block number Num(i) at offset Off(i). The definitions avoid division so that reasoning about
    them stays linear; NumIsQuotient and BaseIsProduct relate them to division.
   */

  import opened Basics
  import opened Sequences
  import Circular

  type Elem(!new, ==)

  type BlockSize = n: nat | n >= 2 witness 2

  /** Any size of at least 2; the source asks for a power of two, which only the masks need. */
  const BLOCK_SIZE: BlockSize

  /** The storage of one element: raw, or holding a constructed element. */
  datatype Cell = Raw | Full(elem: Elem)

  /** First index of block number n. */
  ghost function Base(n: nat): nat {
    if n == 0 then 0 else Base(n - 1) + BLOCK_SIZE
  }

  ghost predicate InBlock(i: nat, n: nat) {
    Base(n) <= i < Base(n) + BLOCK_SIZE
  }

  lemma {:induction false} SomeBlock(i: nat)
    ensures exists n: nat :: InBlock(i, n)
  {
    if i < BLOCK_SIZE {
      assert InBlock(i, 0);
    } else {
      SomeBlock(i - BLOCK_SIZE);
      var n: nat :| InBlock(i - BLOCK_SIZE, n);
      assert InBlock(i, n + 1);
    }
  }

  /** The number of the block that holds index i. */
  ghost function Num(i: nat): (n: nat)
    ensures Base(n) <= i < Base(n) + BLOCK_SIZE
  {
    SomeBlock(i);
    var n: nat :| InBlock(i, n);
    n
  }

  ghost function Off(i: nat): (o: nat)
    ensures o < BLOCK_SIZE
  {
    i - Base(Num(i))
  }

  lemma {:induction false} BaseMonotone(m: nat, n: nat)
    requires m <= n
    ensures Base(m) <= Base(n)
    ensures m < n ==> Base(m) + BLOCK_SIZE <= Base(n)
    decreases n
  {
    if m < n {
      BaseMonotone(m, n - 1);
    }
  }

  lemma NumUnique(i: nat, n: nat)
    requires Base(n) <= i < Base(n) + BLOCK_SIZE
    ensures Num(i) == n
  {
    if Num(i) < n {
      BaseMonotone(Num(i), n);
    } else if n < Num(i) {
      BaseMonotone(n, Num(i));
    }
  }

  lemma NumMonotone(i: nat, j: nat)
    requires i <= j
    ensures Num(i) <= Num(j)
  {
    if Num(j) < Num(i) {
      BaseMonotone(Num(j), Num(i));
    }
  }

  /** Index i is in block n or later exactly when it is not below n's base. */
  lemma NumAtLeast(i: nat, n: nat)
    ensures n <= Num(i) <==> Base(n) <= i
  {
    if n <= Num(i) {
      BaseMonotone(n, Num(i));
    } else {
      BaseMonotone(Num(i), n);
    }
  }

  lemma SameSpot(i: nat, j: nat)
    requires Num(i) == Num(j)
    ensures Off(i) == Off(j) ==> i == j
  {
  }

  lemma {:induction false} BaseIsProduct(n: nat)
    ensures Base(n) == BLOCK_SIZE * n
  {
    if n > 0 {
      BaseIsProduct(n - 1);
    }
  }

  lemma NumIsQuotient(i: nat)
    ensures Num(i) == i / BLOCK_SIZE && Off(i) == i % BLOCK_SIZE
  {
    BaseIsProduct(Num(i));
    Circular.DivModUnique(i, BLOCK_SIZE, Num(i), Off(i));
  }

  /** How many blocks the first `i` elements occupy. */
  ghost function BlocksFor(i: nat): (n: nat)
    ensures i <= Base(n) < i + BLOCK_SIZE
  {
    if i == 0 then 0 else Num(i - 1) + 1
  }

  lemma BlocksForUnique(i: nat, n: nat)
    requires i <= Base(n) < i + BLOCK_SIZE
    ensures BlocksFor(i) == n
  {
    if BlocksFor(i) < n {
      BaseMonotone(BlocksFor(i), n);
    } else if n < BlocksFor(i) {
      BaseMonotone(n, BlocksFor(i));
    }
  }

  /** The number of block bases among the next `count` indices is the number of blocks to add. */
  lemma {:induction false} BasesInIsNeed(tail: nat, count: nat)
    ensures Circular.BasesIn(tail, count, BLOCK_SIZE) == BlocksFor(tail + count) - BlocksFor(tail)
  {
    if count > 0 {
      var i := tail + count - 1;
      BasesInIsNeed(tail, count - 1);
      NumIsQuotient(i);
      if Off(i) == 0 {
        BlocksForUnique(i, Num(i));
      } else {
        BlocksForUnique(i, Num(i) + 1);
      }
    }
  }

  lemma NextInBlock(i: nat)
    requires Off(i + 1) != 0
    ensures Num(i + 1) == Num(i)
  {
    NumUnique(i, Num(i + 1));
  }

  lemma NextBlockNum(i: nat)
    requires Off(i + 1) == 0
    ensures Num(i + 1) == Num(i) + 1
  {
    var m := Num(i + 1);
    assert Base(m) == i + 1;
    NumAtLeast(i, m);
    NumUnique(i, m - 1);
  }

  /** `((tail - 1) & ~(BLOCK_SIZE - 1)) + BLOCK_SIZE`, the base of the next block to start. */
  function RoundUp(tail: nat): nat {
    Circular.BlockBase(tail - 1, BLOCK_SIZE) + BLOCK_SIZE
  }

  lemma RoundUpIsBase(tail: nat)
    ensures RoundUp(tail) == Base(BlocksFor(tail))
  {
    if tail == 0 {
      Circular.DivModUnique(-1, BLOCK_SIZE, -1, BLOCK_SIZE - 1);
    } else {
      NumIsQuotient(tail - 1);
    }
  }

  // ---- Sequences ----

  lemma SliceGrows(elems: seq<Elem>, tail: nat, items: seq<Elem>, k: nat)
    requires tail <= |elems| && k < |items| && elems[tail..] == items[..k]
    ensures (elems + [items[k]])[tail..] == items[..k + 1]
  {
  }

  // ---- Slots of a circular index ----

  function NextSlot(slot: nat, size: nat): nat {
    if slot + 1 == size then 0 else slot + 1
  }

  /** The slot reached from slot 0 in `k` steps. */
  ghost function SlotOf(k: nat, size: nat): (slot: nat)
    requires size > 0
    ensures slot < size
  {
    if k == 0 then 0 else NextSlot(SlotOf(k - 1, size), size)
  }

  lemma {:induction false} SmallSlot(k: nat, size: nat)
    requires k < size
    ensures SlotOf(k, size) == k
  {
    if k > 0 {
      SmallSlot(k - 1, size);
    }
  }

  /** Going round once comes back to the same slot. */
  lemma SlotWraps(k: nat, size: nat)
    requires size > 0
    ensures SlotOf(k + size, size) == SlotOf(k, size)
  {
    SlotIsRemainder(k, size);
    SlotIsRemainder(k + size, size);
    Circular.ModShift(k, size, 1);
  }

  lemma NextRemainder(x: nat, size: nat)
    requires size > 0
    ensures (x + 1) % size == NextSlot(x % size, size)
  {
    var q, r := x / size, x % size;
    if r + 1 == size {
      Circular.Distribute(size, q, 1);
      Circular.DivModUnique(x + 1, size, q + 1, 0);
    } else {
      Circular.DivModUnique(x + 1, size, q, r + 1);
    }
  }

  lemma {:induction false} SlotIsRemainder(k: nat, size: nat)
    requires size > 0
    ensures SlotOf(k, size) == k % size
  {
    if k == 0 {
      Circular.DivModUnique(0, size, 0, 0);
    } else {
      SlotIsRemainder(k - 1, size);
      NextRemainder(k - 1, size);
    }
  }

  /** Fewer than `size` steps apart means different slots. */
  lemma SlotsDiffer(j: nat, k: nat, size: nat)
    requires size > 0 && j < k < j + size
    ensures SlotOf(j, size) != SlotOf(k, size)
  {
    SlotIsRemainder(j, size);
    SlotIsRemainder(k, size);
    var p, q := j / size, k / size;
    if j % size == k % size {
      assert k - j == size * q - size * p;
      if p < q {
        Circular.MulGrows(size, p, q);
      } else if q < p {
        Circular.MulGrows(size, q, p);
      }
    }
  }

  /**
    The slot a consumer computes from the front slot, the base it reads there and the base of
    the block it wants (`/` and `%` stand for the source's division and mask).
   */
  function Lookup(frontSlot: nat, frontBase: nat, base: nat, size: nat): nat
    requires size > 0
  {
    var offset: int := (base - frontBase) / BLOCK_SIZE;
    (frontSlot + offset) % size
  }

  lemma BaseDistance(m: nat, n: nat)
    ensures (Base(n) - Base(m)) / BLOCK_SIZE == n - m
  {
    BaseIsProduct(m);
    BaseIsProduct(n);
    Circular.Distribute(BLOCK_SIZE, n, m);
    Circular.DivModUnique(Base(n) - Base(m), BLOCK_SIZE, n - m, 0);
  }

  lemma SlotSplit(f: nat, size: nat) returns (q: int)
    requires size > 0
    ensures f == size * q + SlotOf(f, size)
  {
    SlotIsRemainder(f, size);
    q := f / size;
  }

  lemma SlotShift(f: nat, k: nat, size: nat)
    requires size > 0
    ensures (SlotOf(f, size) + (k - f)) % size == SlotOf(k, size)
  {
    var q := SlotSplit(f, size);
    Circular.ModWalk(f, k, size, q, SlotOf(f, size));
    SlotIsRemainder(k, size);
  }

  lemma LookupIs(frontSlot: nat, frontBase: nat, base: nat, size: nat, d: int)
    requires size > 0 && (base - frontBase) / BLOCK_SIZE == d
    ensures Lookup(frontSlot, frontBase, base, size) == (frontSlot + d) % size
  {
  }

  /** Looking up block `first + k` from a front at block `first + f`. */
  lemma LookupIsSlot(first: nat, f: nat, k: nat, size: nat)
    requires size > 0
    ensures Lookup(SlotOf(f, size), Base(first + f), Base(first + k), size) == SlotOf(k, size)
  {
    BaseDistance(first + f, first + k);
    SlotShift(f, k, size);
    LookupIs(SlotOf(f, size), Base(first + f), Base(first + k), size, k - f);
  }

  /**
    On w-bit indices the source computes the same slot: both bases wrap, the division is
    unsigned, and the sum is masked.
   */
  lemma LookupSurvivesWrapping(frontSlot: nat, frontBase: nat, k: int, b: nat, j: nat, w: nat)
    requires BLOCK_SIZE == Circular.Pow2(b) && b + j <= w
    requires frontBase - k * BLOCK_SIZE >= 0
    ensures Circular.SlotOf(frontSlot, Circular.Wrap(frontBase, w),
                            Circular.Wrap(frontBase - k * BLOCK_SIZE, w), BLOCK_SIZE, Circular.Pow2(j), w)
         == Lookup(frontSlot, frontBase, frontBase - k * BLOCK_SIZE, Circular.Pow2(j))
  {
    Circular.SlotOfIsExact(frontSlot, frontBase, k, b, j, w);
    assert -(k * BLOCK_SIZE) == BLOCK_SIZE * (-k);
    Circular.DivModUnique(-(k * BLOCK_SIZE), BLOCK_SIZE, -k, 0);
  }
}
