module BlockFlags {
  /**
    The emptiness flags of a block in the explicit context: one flag per element, stored in reverse,
    set by consumers and read and reset by the producer; and the counter that replaces them in the
    implicit context.
   */

  import opened Blocks
  import opened Sequences

  class Flags {
    var emptyFlags: array<bool>

    ghost predicate Valid()
      reads this
    {
      emptyFlags.Length == BLOCK_SIZE
    }

    /** The flags in the order of the elements. */
    ghost function Contents(): (fs: seq<bool>)
      requires Valid()
      reads this, emptyFlags
      ensures |fs| == BLOCK_SIZE && forall o :: 0 <= o < BLOCK_SIZE ==> fs[o] == emptyFlags[BLOCK_SIZE - 1 - o]
    {
      seq(BLOCK_SIZE, o requires 0 <= o < BLOCK_SIZE && Valid() reads this, emptyFlags => emptyFlags[BLOCK_SIZE - 1 - o])
    }

    constructor ()
      ensures Valid() && fresh(emptyFlags)
    {
      emptyFlags := new bool[BLOCK_SIZE];
    }

    /** Whether every element has been dequeued. */
    method IsEmpty() returns (empty: bool)
      requires Valid()
      ensures empty <==> Contents() == Repeat(BLOCK_SIZE, true)
    {
      for i := 0 to BLOCK_SIZE
        invariant forall j :: 0 <= j < i ==> emptyFlags[j]
      {
        if !emptyFlags[i] {
          assert !Contents()[BLOCK_SIZE - 1 - i];
          return false;
        }
      }
      return true;
    }

    /** Marks index i, which must not be marked yet: the source asserts so. */
    method SetEmpty(i: nat)
      requires Valid() && !Contents()[Off(i)]
      modifies emptyFlags
      ensures Valid() && emptyFlags == old(emptyFlags)
      ensures Contents() == Flagged(old(Contents()), Off(i), 1)
    {
      NumIsQuotient(i);
      emptyFlags[BLOCK_SIZE - 1 - i % BLOCK_SIZE] := true;
    }

    /** Marks `count` indices from i on, all in this block and none marked yet. */
    method SetManyEmpty(i: nat, count: nat)
      requires Valid() && count > 0 && Off(i) + count <= BLOCK_SIZE
      requires forall o :: Off(i) <= o < Off(i) + count ==> !Contents()[o]
      modifies emptyFlags
      ensures Valid() && emptyFlags == old(emptyFlags)
      ensures Contents() == Flagged(old(Contents()), Off(i), count)
    {
      NumIsQuotient(i);
      var first := BLOCK_SIZE - 1 - i % BLOCK_SIZE - count + 1;
      for j := 0 to count
        invariant forall k :: 0 <= k < BLOCK_SIZE ==> emptyFlags[k] == (old(emptyFlags[k]) || first <= k < first + j)
      {
        emptyFlags[first + j] := true;
      }
    }

    method SetAllEmpty()
      requires Valid()
      modifies emptyFlags
      ensures Valid() && emptyFlags == old(emptyFlags) && Contents() == Repeat(BLOCK_SIZE, true)
    {
      for i := 0 to BLOCK_SIZE
        invariant forall j :: 0 <= j < i ==> emptyFlags[j]
      {
        emptyFlags[i] := true;
      }
    }

    method ResetEmpty()
      requires Valid()
      modifies emptyFlags
      ensures Valid() && emptyFlags == old(emptyFlags) && Contents() == Repeat(BLOCK_SIZE, false)
    {
      for i := 0 to BLOCK_SIZE
        invariant forall j :: 0 <= j < i ==> !emptyFlags[j]
      {
        emptyFlags[i] := false;
      }
    }
  }

  // ---- Flags and the counter say the same ----

  /** The number of flags that are set. */
  ghost function CountSet(fs: seq<bool>): (n: nat)
    ensures n <= |fs|
  {
    if fs == [] then 0 else (if fs[0] then 1 else 0) + CountSet(fs[1..])
  }

  lemma {:induction false} CountSetConcat(a: seq<bool>, b: seq<bool>)
    ensures CountSet(a + b) == CountSet(a) + CountSet(b)
  {
    if a == [] {
      assert a + b == b;
    } else {
      CountSetConcat(a[1..], b);
      assert (a + b)[1..] == a[1..] + b;
    }
  }

  lemma {:induction false} CountSetUniform(fs: seq<bool>, x: bool)
    requires forall k :: 0 <= k < |fs| ==> fs[k] == x
    ensures CountSet(fs) == if x then |fs| else 0
  {
    if fs != [] {
      CountSetUniform(fs[1..], x);
    }
  }

  lemma CountSetThree(a: seq<bool>, b: seq<bool>, c: seq<bool>)
    ensures CountSet(a + b + c) == CountSet(a) + CountSet(b) + CountSet(c)
  {
    CountSetConcat(a + b, c);
    CountSetConcat(a, b);
  }

  lemma Parts(fs: seq<bool>, o: nat, count: nat, a: seq<bool>, b: seq<bool>, c: seq<bool>)
    requires o + count <= |fs| && a == fs[..o] && b == fs[o..o + count] && c == fs[o + count..]
    ensures fs == a + b + c && Flagged(fs, o, count) == a + Repeat(count, true) + c
  {
  }

  /** Marking `count` unmarked flags adds `count` to their number, as the counter does. */
  lemma FlagsCount(fs: seq<bool>, o: nat, count: nat)
    requires o + count <= |fs| && forall k :: o <= k < o + count ==> !fs[k]
    ensures CountSet(Flagged(fs, o, count)) == CountSet(fs) + count
  {
    var a, b, c := fs[..o], fs[o..o + count], fs[o + count..];
    CountSetUniform(b, false);
    MarkedCount(fs, Flagged(fs, o, count), o, count, a, b, c);
  }

  lemma MarkedCount(fs: seq<bool>, fs': seq<bool>, o: nat, count: nat, a: seq<bool>, b: seq<bool>, c: seq<bool>)
    requires o + count <= |fs| && a == fs[..o] && b == fs[o..o + count] && c == fs[o + count..]
    requires fs' == Flagged(fs, o, count) && CountSet(b) == 0
    ensures CountSet(fs') == CountSet(fs) + count
  {
    Parts(fs, o, count, a, b, c);
    CountSetThree(a, b, c);
    CountSetThree(a, Repeat(count, true), c);
    CountSetUniform(Repeat(count, true), true);
  }

  /** All flags are set exactly when the counter has reached the block size. */
  lemma {:induction false} FullCountMeansEmpty(fs: seq<bool>)
    ensures CountSet(fs) == |fs| <==> forall o :: 0 <= o < |fs| ==> fs[o]
  {
    if fs != [] {
      FullCountMeansEmpty(fs[1..]);
      if forall o :: 0 <= o < |fs[1..]| ==> fs[1..][o] {
        assert forall o :: 1 <= o < |fs| ==> fs[o] == fs[1..][o - 1];
      } else {
        var o :| 0 <= o < |fs[1..]| && !fs[1..][o];
        assert !fs[o + 1];
      }
    }
  }
}
