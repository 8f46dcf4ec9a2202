/** Finite sets of listener ids, in the order a `BTreeMap` walks its keys. */
module NatSets {

  ghost function Min(s: set<nat>): (m: nat)
    requires s != {}
    ensures m in s && forall x :: x in s ==> m <= x
  {
    var x :| x in s;
    if s == {x} then x
    else
      assert s == {x} + (s - {x});
      var y := Min(s - {x});
      if x < y then x else y
  }

  ghost function Max(s: set<nat>): (m: nat)
    requires s != {}
    ensures m in s && forall x :: x in s ==> x <= m
  {
    var x :| x in s;
    if s == {x} then x
    else
      assert s == {x} + (s - {x});
      var y := Max(s - {x});
      if y < x then x else y
  }

  function AtMost(k: nat, n: nat): nat {
    if k < n then k else n
  }

  /** `g` is what an ascending walk over `u` picks when it stops after `k` picks. */
  ghost predicate IsEarliest(g: set<nat>, u: set<nat>, k: nat) {
    && g <= u
    && |g| == AtMost(k, |u|)
    && forall a, b :: a in g && b in u && b !in g ==> a < b
  }

  lemma EarliestExists(u: set<nat>, k: nat) returns (g: set<nat>)
    ensures IsEarliest(g, u, k)
    decreases k
  {
    if k == 0 || u == {} {
      g := {};
    } else {
      var m := Min(u);
      assert |u - {m}| == |u| - 1;
      g := EarliestExists(u - {m}, k - 1);
      g := {m} + g;
    }
  }

  /** The ids an ascending walk over `u` picks when it stops after `k` picks. */
  ghost function Earliest(u: set<nat>, k: nat): (g: set<nat>)
    ensures IsEarliest(g, u, k)
  {
    assert exists g :: IsEarliest(g, u, k) by { var g := EarliestExists(u, k); }
    var g :| IsEarliest(g, u, k);
    g
  }

  lemma SubsetSize(a: set<nat>, b: set<nat>)
    requires a <= b
    ensures |a| <= |b|
    ensures |a| == |b| ==> a == b
  {
    assert b == a + (b - a);
    assert |b| == |a| + |b - a|;
  }

  /** The pick is determined: order and size leave one choice. */
  lemma EarliestIsUnique(g: set<nat>, h: set<nat>, u: set<nat>, k: nat)
    requires IsEarliest(g, u, k) && IsEarliest(h, u, k)
    ensures g == h
  {
    if g <= h {
      SubsetSize(g, h);
    } else {
      assert h <= g;
      SubsetSize(h, g);
    }
  }

  /** Picking `j` and then `k` of the rest is picking `j + k`. */
  lemma EarliestTwice(u: set<nat>, j: nat, k: nat)
    ensures Earliest(u, j) + Earliest(u - Earliest(u, j), k) == Earliest(u, j + k)
  {
    var g := Earliest(u, j);
    var h := Earliest(u - g, k);
    SubsetSize(g, u);
    assert |u - g| == |u| - |g|;
    assert |g + h| == |g| + |h|;
    EarliestIsUnique(g + h, Earliest(u, j + k), u, j + k);
  }

  /** Asking for at least as many as there are takes everything. */
  lemma EarliestAll(u: set<nat>, k: nat)
    requires |u| <= k
    ensures Earliest(u, k) == u
  {
    SubsetSize(Earliest(u, k), u);
  }

  /** As `EarliestTwice`; requests past the end all pick the same. */
  lemma EarliestSplit(u: set<nat>, j: nat, k: nat, l: nat)
    requires j + k == l || (|u| <= j + k && |u| <= l)
    ensures Earliest(u, j) + Earliest(u - Earliest(u, j), k) == Earliest(u, l)
  {
    EarliestTwice(u, j, k);
    if j + k != l {
      EarliestAll(u, j + k);
      EarliestAll(u, l);
    }
  }

  lemma EarliestOne(u: set<nat>)
    requires u != {}
    ensures Earliest(u, 1) == {Min(u)}
  {
    SubsetSize({Min(u)}, u);
    EarliestIsUnique({Min(u)}, Earliest(u, 1), u, 1);
  }
}
