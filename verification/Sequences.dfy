module Sequences {
  /** Sequences of equal elements, and ranges of flags. */

  function Repeat<X>(n: nat, x: X): (r: seq<X>)
    ensures |r| == n && forall i :: 0 <= i < n ==> r[i] == x
  {
    seq(n, _ => x)
  }

  /** Flags [o, o + n) are set. */
  function Flagged(fs: seq<bool>, o: nat, n: nat): (r: seq<bool>)
    requires o + n <= |fs|
    ensures |r| == |fs|
    ensures forall i :: 0 <= i < |fs| ==> r[i] == (fs[i] || o <= i < o + n)
  {
    fs[..o] + Repeat(n, true) + fs[o + n..]
  }
}
