module Circular {
  /**
    Arithmetic on indices that wrap around at 2^w: what the queue's unsigned expressions compute,
    in terms of the unbounded indices they stand for.
   */

  function Pow2(k: nat): (p: nat)
    ensures p > 0
  {
    if k == 0 then 1 else 2 * Pow2(k - 1)
  }

  lemma Assoc(a: int, b: int, c: int)
    ensures a * (b * c) == (a * b) * c
  {
  }

  lemma {:induction false} Pow2Sum(j: nat, k: nat)
    ensures Pow2(j + k) == Pow2(j) * Pow2(k)
  {
    if j > 0 {
      calc {
        Pow2(j + k);
        2 * Pow2(j - 1 + k);
        { Pow2Sum(j - 1, k); }
        2 * (Pow2(j - 1) * Pow2(k));
        { Assoc(2, Pow2(j - 1), Pow2(k)); }
        (2 * Pow2(j - 1)) * Pow2(k);
        Pow2(j) * Pow2(k);
      }
    }
  }

  // ---- Euclidean division ----

  lemma Distribute(a: int, b: int, c: int)
    ensures a * (b + c) == a * b + a * c
    ensures a * (b - c) == a * b - a * c
  {
  }

  lemma {:induction false} MulGrows(n: int, p: int, q: int)
    requires 0 < n && p < q
    ensures n * p + n <= n * q
    decreases q - p
  {
    Distribute(n, q - 1, 1);
    if p < q - 1 {
      MulGrows(n, p, q - 1);
    }
  }

  lemma DivModUnique(a: int, n: int, q: int, r: int)
    requires 0 <= r < n && a == n * q + r
    ensures a / n == q && a % n == r
  {
    var q', r' := a / n, a % n;
    if q' < q {
      MulGrows(n, q', q);
    } else if q < q' {
      MulGrows(n, q, q');
    }
  }

  lemma ModShift(a: int, n: int, q: int)
    requires n > 0
    ensures (a + n * q) % n == a % n
    ensures (a + n * q) / n == a / n + q
  {
    var d, r := a / n, a % n;
    assert n * (d + q) == n * d + n * q;
    DivModUnique(a + n * q, n, d + q, r);
  }

  /** From the remainder of `f`, going on by `k - f` leads to the remainder of `k`. */
  lemma ModWalk(f: int, k: int, n: int, q: int, r: int)
    requires n > 0 && f == n * q + r
    ensures (r + (k - f)) % n == k % n
  {
    assert n * (-q) == -(n * q);
    assert r + (k - f) == k + n * (-q);
    ModShift(k, n, -q);
  }

  /** Reducing modulo a multiple of `n` first makes no difference modulo `n`. */
  lemma ModOfMod(a: int, n: int, m: int)
    requires n > 0 && m > 0
    ensures (a % (n * m)) % n == a % n
  {
    var q := a / (n * m);
    assert n * m > 0;
    assert a % (n * m) == a - (n * m) * q;
    assert a - (n * m) * q == a + n * (-(m * q));
    ModShift(a, n, -(m * q));
  }

  lemma ModOfProduct(q: int, n: int, b: int)
    requires n > 0 && b > 0
    ensures n * b > 0
    ensures (q * b) % (n * b) == (q % n) * b
    ensures (q * b) % (n * b) / b == q % n
  {
    var d, r := q / n, q % n;
    assert q * b == (n * d + r) * b == (n * b) * d + r * b;
    assert 0 <= r * b < n * b;
    DivModUnique(q * b, n * b, d, r * b);
    DivModUnique(r * b, b, r, 0);
  }

  /** What an unsigned w-bit variable holds for the unbounded value `x`. */
  function Wrap(x: int, w: nat): (r: nat)
    ensures r < Pow2(w)
  {
    x % Pow2(w)
  }

  lemma WrapDifference(a: int, b: int, w: nat)
    ensures Wrap(Wrap(a, w) - Wrap(b, w), w) == Wrap(a - b, w)
  {
    var m := Pow2(w);
    assert a % m - b % m == (a - b) + m * (b / m - a / m);
    ModShift(a - b, m, b / m - a / m);
  }

  // ---- circular_less_than ----

  predicate CircularLessThan(a: nat, b: nat, w: nat)
    requires w > 0
  {
    Wrap(a - b, w) > Pow2(w - 1)
  }

  /**
    For indices less than 2^w apart, the comparison of the wrapped indices is the order of the
    unbounded ones exactly when they are less than half the range apart (half is still right
    when `a` is the larger).
   */
  lemma CircularLessThanIsExact(a: int, b: int, w: nat)
    requires w > 0 && a - b < Pow2(w) && b - a < Pow2(w)
    ensures (CircularLessThan(Wrap(a, w), Wrap(b, w), w) <==> a < b)
            <==> b - a < Pow2(w - 1) && a - b <= Pow2(w - 1)
  {
    WrapDifference(a, b, w);
    var m := Pow2(w);
    if a < b {
      DivModUnique(a - b, m, -1, a - b + m);
    } else {
      DivModUnique(a - b, m, 0, a - b);
    }
  }

  // ---- Masks ----

  /** Bitwise and of two naturals. */
  function And(x: nat, y: nat): nat
    decreases x
  {
    if x == 0 || y == 0 then 0 else (x % 2) * (y % 2) + 2 * And(x / 2, y / 2)
  }

  lemma ModTwice(x: nat, p: nat)
    requires p > 0
    ensures x % (2 * p) == x % 2 + 2 * ((x / 2) % p)
  {
    var h := x / 2;
    var q, r := h / p, h % p;
    assert x == 2 * (p * q + r) + x % 2 == (2 * p) * q + (2 * r + x % 2);
    DivModUnique(x, 2 * p, q, 2 * r + x % 2);
  }

  lemma AndStep(x: nat, y: nat)
    ensures And(x, 2 * y + 1) == x % 2 + 2 * And(x / 2, y)
    ensures And(x, 2 * y) == 2 * And(x / 2, y)
  {
    assert (2 * y + 1) / 2 == y && (2 * y + 1) % 2 == 1;
    assert (2 * y) / 2 == y && (2 * y) % 2 == 0;
  }

  /** `x & (2^k - 1)` is the remainder of `x` by 2^k. */
  lemma {:induction false} LowMask(x: nat, k: nat)
    ensures And(x, Pow2(k) - 1) == x % Pow2(k)
    decreases k
  {
    if k > 0 {
      var p := Pow2(k - 1);
      LowMask(x / 2, k - 1);
      AndStep(x, p - 1);
      ModTwice(x, p);
    }
  }

  /** `x & ~(2^k - 1)` on a w-bit word clears the low k bits. */
  lemma {:induction false} HighMask(x: nat, k: nat, w: nat)
    requires k <= w && x < Pow2(w)
    ensures Pow2(k) <= Pow2(w)
    ensures And(x, Pow2(w) - Pow2(k)) == x - x % Pow2(k)
    decreases k
  {
    if k == 0 {
      LowMask(x, w);
      DivModUnique(x, Pow2(w), 0, x);
      DivModUnique(x, 1, x, 0);
    } else {
      var p, m := Pow2(k - 1), Pow2(w - 1);
      HighMask(x / 2, k - 1, w - 1);
      AndStep(x, m - p);
      ModTwice(x, p);
    }
  }

  /** The base of the block that index `x` falls in; the same for the wrapped index. */
  function BlockBase(x: int, bs: nat): int
    requires bs > 0
  {
    x - x % bs
  }

  /** `x` by its turn around the index range, its block within the turn, and its offset in the block. */
  lemma Split(x: int, bs: int, n: int, m: int) returns (e: int, f: int, r: int)
    requires bs > 0 && n > 0 && m == bs * n
    ensures 0 <= r < bs && 0 <= f < n && 0 <= bs * f && bs * f + bs <= m
    ensures x == m * e + (bs * f + r)
    ensures x == bs * (n * e + f) + r
  {
    var q;
    q, r := x / bs, x % bs;
    e, f := q / n, q % n;
    Distribute(bs, n * e, f);
    assert bs * (n * e) == (bs * n) * e;
    MulGrows(bs, f, n);
    if f > 0 {
      MulGrows(bs, 0, f);
    }
  }

  lemma BlockBaseWraps(x: int, k: nat, w: nat)
    requires k <= w
    ensures BlockBase(Wrap(x, w), Pow2(k)) == Wrap(BlockBase(x, Pow2(k)), w)
  {
    var bs, n, m := Pow2(k), Pow2(w - k), Pow2(w);
    Pow2Sum(k, w - k);
    var e, f, r := Split(x, bs, n, m);
    DivModUnique(x, m, e, bs * f + r);
    DivModUnique(bs * f + r, bs, f, r);
    DivModUnique(x, bs, n * e + f, r);
    DivModUnique(m * e + bs * f, m, e, bs * f);
  }

  // ---- How many blocks a bulk enqueue needs ----

  /** How many of the indices start .. start + count - 1 are block bases. */
  ghost function BasesIn(start: int, count: nat, bs: nat): nat
    requires bs > 0
  {
    if count == 0 then 0
    else BasesIn(start, count - 1, bs) + (if (start + count - 1) % bs == 0 then 1 else 0)
  }

  /** Going from `y - 1` to `y` enters a new block exactly when `y` is a block base. */
  lemma NextBase(y: int, bs: int)
    requires bs > 0
    ensures y / bs - (y - 1) / bs == if y % bs == 0 then 1 else 0
  {
    var q, r := y / bs, y % bs;
    if r == 0 {
      Distribute(bs, q, 1);
      DivModUnique(y - 1, bs, q - 1, bs - 1);
    } else {
      DivModUnique(y - 1, bs, q, r - 1);
    }
  }

  lemma {:induction false} BasesInIsDifference(start: int, count: nat, bs: nat)
    requires bs > 0
    ensures BasesIn(start, count, bs) == (start + count - 1) / bs - (start - 1) / bs
  {
    if count > 0 {
      BasesInIsDifference(start, count - 1, bs);
      NextBase(start + count - 1, bs);
    }
  }

  /** The source's expression for `blockBaseDiff`, on wrapped indices. */
  function BlockBaseDiff(start: nat, count: nat, bs: nat, w: nat): nat
    requires bs > 0
  {
    Wrap(BlockBase(Wrap(start + count - 1, w), bs) - BlockBase(Wrap(start - 1, w), bs), w)
  }

  /** It is BLOCK_SIZE times the number of blocks to start, also when `start` is 0 and `start - 1` wraps. */
  lemma BlockBaseDiffCounts(start: int, count: nat, k: nat, w: nat)
    requires k <= w && count + Pow2(k) <= Pow2(w)
    ensures BlockBaseDiff(Wrap(start, w), count, Pow2(k), w) == Pow2(k) * BasesIn(start, count, Pow2(k))
  {
    var bs, hi, lo := Pow2(k), start + count - 1, start - 1;
    BlockBaseDiffWraps(start, count, k, w);
    BasesInIsDifference(start, count, bs);
    BaseDifference(hi, lo, bs);
    DivModUnique(BlockBase(hi, bs) - BlockBase(lo, bs), Pow2(w), 0, BlockBase(hi, bs) - BlockBase(lo, bs));
  }

  lemma BlockBaseDiffWraps(start: int, count: nat, k: nat, w: nat)
    requires k <= w
    ensures BlockBaseDiff(Wrap(start, w), count, Pow2(k), w)
         == Wrap(BlockBase(start + count - 1, Pow2(k)) - BlockBase(start - 1, Pow2(k)), w)
  {
    var bs := Pow2(k);
    WrapStart(start, count - 1, w);
    WrapStart(start, -1, w);
    BlockBaseWraps(start + count - 1, k, w);
    BlockBaseWraps(start - 1, k, w);
    WrapDifference(BlockBase(start + count - 1, bs), BlockBase(start - 1, bs), w);
  }

  lemma WrapStart(start: int, d: int, w: nat)
    ensures Wrap(Wrap(start, w) + d, w) == Wrap(start + d, w)
  {
    var m := Pow2(w);
    var e := start / m;
    assert start + d == (start % m + d) + m * e;
    ModShift(start % m + d, m, e);
  }

  lemma BaseDifference(hi: int, lo: int, bs: nat)
    requires bs > 0 && lo <= hi
    ensures BlockBase(hi, bs) - BlockBase(lo, bs) == bs * (hi / bs - lo / bs)
    ensures 0 <= BlockBase(hi, bs) - BlockBase(lo, bs) < hi - lo + bs
  {
    var p, q := lo / bs, hi / bs;
    Distribute(bs, q, p);
    if q < p {
      MulGrows(bs, q, p);
    } else if p < q {
      MulGrows(bs, p, q);
    }
  }

  // ---- Looking a block up in a circular index ----

  /**
    The source's slot computation: the difference of the two bases is unsigned (the cast to a
    signed type is undone by dividing by the unsigned BLOCK_SIZE), it is divided by BLOCK_SIZE,
    and the sum with the front slot is masked with the index size less one.
   */
  function SlotOf(front: nat, frontBase: nat, base: nat, bs: nat, size: nat, w: nat): nat
    requires bs > 0 && size > 0
  {
    Wrap(front + Wrap(base - frontBase, w) / bs, w) % size
  }

  /**
    Slot lookup is right although the division is unsigned: a block `k` blocks before the one at
    `front` is found `k` slots before it, cyclically (`k` may be negative). All that is needed is
    that the index has a power-of-two size of at most 2^w / BLOCK_SIZE.
   */
  lemma SlotOfIsExact(front: nat, frontBase: int, k: int, b: nat, j: nat, w: nat)
    requires b + j <= w
    ensures SlotOf(front, Wrap(frontBase, w), Wrap(frontBase - k * Pow2(b), w), Pow2(b), Pow2(j), w)
         == (front - k) % Pow2(j)
  {
    var size, n := Pow2(j), Pow2(w - b);
    OffsetOf(frontBase, k, b, w);
    Pow2Sum(j, w - j);
    ModOfMod(front + (-k) % n, size, Pow2(w - j));
    Pow2Sum(j, w - b - j);
    MaskedSum(front, -k, size, Pow2(w - b - j));
  }

  /** The unsigned quotient counts blocks backwards modulo 2^w / BLOCK_SIZE. */
  lemma OffsetOf(frontBase: int, k: int, b: nat, w: nat)
    requires b <= w
    ensures Wrap(Wrap(frontBase - k * Pow2(b), w) - Wrap(frontBase, w), w) / Pow2(b) == (-k) % Pow2(w - b)
  {
    var bs := Pow2(b);
    WrapDifference(frontBase - k * bs, frontBase, w);
    assert frontBase - k * bs - frontBase == (-k) * bs;
    Pow2Sum(w - b, b);
    ModOfProduct(-k, Pow2(w - b), bs);
  }

  /** Reducing one summand modulo a multiple of `n` makes no difference to the sum modulo `n`. */
  lemma MaskedSum(a: int, x: int, n: int, m: int)
    requires n > 0 && m > 0
    ensures n * m > 0 && (a + x % (n * m)) % n == (a + x) % n
  {
    MulGrows(n, 0, m);
    var q := x / (n * m);
    assert (n * m) * q == n * (m * q);
    assert x % (n * m) == x - n * (m * q);
    ModShift(a + x % (n * m), n, m * q);
  }
}
