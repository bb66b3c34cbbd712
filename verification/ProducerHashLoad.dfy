module ProducerHashLoad {
  /** Counted threads, and the load bound that makes every probe sequence end. */

  import opened Basics
  import opened ProducerHash

  // ---- Counted threads ----

  lemma {:induction false} WithoutShorter(reg: seq<Tid>, u: Tid)
    requires u in reg
    ensures |Without(reg, u)| == |reg| - 1
  {
    if reg[0] != u {
      WithoutShorter(reg[1..], u);
    }
  }

  /** Being counted early stays so when another thread stops being counted. */
  lemma {:induction false} WithoutAmong(reg: seq<Tid>, u: Tid, t: Tid, n: int)
    requires Among(reg, t, n) && t != u
    ensures Among(Without(reg, u), t, n)
  {
    var i :| 0 <= i < n && i < |reg| && reg[i] == t;
    var w := Without(reg, u);
    if reg[0] == u {
      assert w[i - 1] == t;
    } else if i == 0 {
      assert w[0] == t;
    } else {
      assert reg[1..][i - 1] == t;
      WithoutAmong(reg[1..], u, t, n - 1);
      var k :| 0 <= k < n - 1 && k < |Without(reg[1..], u)| && Without(reg[1..], u)[k] == t;
      assert w[k + 1] == t;
    }
  }

  lemma {:induction false} WithoutMembers(reg: seq<Tid>, u: Tid, x: Tid)
    requires x in Without(reg, u)
    ensures x in reg
  {
    if reg[0] != u && x != reg[0] {
      WithoutMembers(reg[1..], u, x);
    }
  }

  lemma {:induction false} WithoutDistinct(reg: seq<Tid>, u: Tid)
    requires AllDistinct(reg)
    ensures AllDistinct(Without(reg, u)) && u !in Without(reg, u)
  {
    if reg != [] && reg[0] != u {
      var rest := reg[1..];
      var w := Without(rest, u);
      WithoutDistinct(rest, u);
      forall j | 0 <= j < |w| ensures w[j] != reg[0] {
        WithoutMembers(rest, u, w[j]);
      }
    }
  }

  // ---- The load bound ----

  ghost function KeySet(keys: seq<Slot>): set<Tid> {
    set i | 0 <= i < |keys| && keys[i].Full? :: keys[i].tid
  }

  /** How many slots are taken. */
  ghost function Load(keys: seq<Slot>): nat {
    if keys == [] then 0 else (if keys[|keys| - 1].Full? then 1 else 0) + Load(keys[..|keys| - 1])
  }

  lemma {:induction false} LoadIsSize(keys: seq<Slot>)
    requires forall i, j :: 0 <= i < j < |keys| ==> Different(keys, i, j)
    ensures Load(keys) == |KeySet(keys)|
  {
    if keys != [] {
      var n := |keys| - 1;
      var rest := keys[..n];
      forall i, j | 0 <= i < j < |rest| ensures Different(rest, i, j) {
        assert Different(keys, i, j);
      }
      LoadIsSize(rest);
      if keys[n].Full? {
        assert keys[n].tid !in KeySet(rest) by {
          forall i | 0 <= i < n ensures rest[i] != keys[n] {
            assert Different(keys, i, n);
          }
        }
        assert KeySet(keys) == KeySet(rest) + {keys[n].tid};
      } else {
        assert KeySet(keys) == KeySet(rest);
      }
    }
  }

  ghost function SetOf(s: seq<Tid>): set<Tid> {
    set i | 0 <= i < |s| :: s[i]
  }

  lemma {:induction false} SetOfSize(s: seq<Tid>)
    ensures |SetOf(s)| <= |s|
  {
    if s != [] {
      var n := |s| - 1;
      SetOfSize(s[..n]);
      assert SetOf(s) == SetOf(s[..n]) + {s[n]};
    }
  }

  lemma SubsetSize(a: set<Tid>, b: set<Tid>)
    requires a <= b
    ensures |a| <= |b|
  {
    assert b == a + (b - a);
  }

  /** A table that is not empty has fewer than three quarters of its slots taken. */
  lemma LoadBound(tb: Table, hash: seq<nat>, reg: seq<Tid>)
    requires TableOk(tb, hash, reg)
    ensures Load(tb.keys) == 0 || Load(tb.keys) < Limit(|tb.keys|)
    ensures Load(tb.keys) < |tb.keys|
  {
    LoadIsSize(tb.keys);
    var limit := Limit(|tb.keys|);
    var n := if limit == 0 then 0 else if limit - 1 <= |reg| then limit - 1 else |reg|;
    var early := reg[..n];
    forall t | t in KeySet(tb.keys) ensures t in SetOf(early) {
      var i :| 0 <= i < |tb.keys| && tb.keys[i] == Full(t);
      assert KeyOk(tb, hash, reg, i);
      var k :| 0 <= k < limit - 1 && k < |reg| && reg[k] == t;
      assert early[k] == t;
    }
    SubsetSize(KeySet(tb.keys), SetOf(early));
    SetOfSize(early);
  }

  lemma {:induction false} AllTaken(keys: seq<Slot>)
    requires forall i :: 0 <= i < |keys| ==> keys[i].Full?
    ensures Load(keys) == |keys|
  {
    if keys != [] {
      AllTaken(keys[..|keys| - 1]);
    }
  }

  /** A probe sequence meets an empty slot before it comes round. */
  lemma ProbeMeetsEmpty(tb: Table, hash: seq<nat>, reg: seq<Tid>, home: nat, d: nat)
    requires TableOk(tb, hash, reg) && Taken(tb.keys, home, d)
    ensures d < |tb.keys|
  {
    LoadBound(tb, hash, reg);
    if d == |tb.keys| {
      forall i | 0 <= i < |tb.keys| ensures tb.keys[i].Full? {
        assert Probe(home, Distance(home, i, |tb.keys|), |tb.keys|) == i;
      }
      AllTaken(tb.keys);
    }
  }

  /** An id that is not met before the first empty slot is not in the table. */
  lemma NotMetIsAbsent(tb: Table, hash: seq<nat>, reg: seq<Tid>, t: Tid, d: nat)
    requires TableOk(tb, hash, reg) && t < |hash| && d < |tb.keys|
    requires var home := Home(hash[t], |tb.keys|);
             && tb.keys[Probe(home, d, |tb.keys|)] == Empty
             && forall k: nat :: k < d ==> tb.keys[Probe(home, k, |tb.keys|)] != Full(t)
    ensures NotIn(tb, t)
  {
    var home := Home(hash[t], |tb.keys|);
    forall i | 0 <= i < |tb.keys| ensures tb.keys[i] != Full(t) {
      assert KeyOk(tb, hash, reg, i);
      var far := Distance(home, i, |tb.keys|);
      assert Probe(home, far, |tb.keys|) == i;
    }
  }
}
