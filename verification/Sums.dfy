/** Sums over the entries of a finite map, the shape of every ledger total in the pallets. */
module Sums {

  /** The sum of `w` over all entries of `m`. */
  ghost function Sum<K, V>(m: map<K, V>, w: (K, V) -> nat): nat
    decreases |m|
  {
    if m == map[] then 0
    else
      var k :| k in m;
      assert (m - {k}).Keys == m.Keys - {k};
      w(k, m[k]) + Sum(m - {k}, w)
  }

  /** What the entry at `k` contributes to `Sum(m, w)`. */
  ghost function Weight<K, V>(m: map<K, V>, k: K, w: (K, V) -> nat): nat {
    if k in m then w(k, m[k]) else 0
  }

  lemma {:induction false} SumSplit<K, V>(m: map<K, V>, k: K, w: (K, V) -> nat)
    requires k in m
    ensures Sum(m, w) == w(k, m[k]) + Sum(m - {k}, w)
    decreases |m|
  {
    var j :| j in m && Sum(m, w) == w(j, m[j]) + Sum(m - {j}, w);
    if j == k {
    } else {
      assert (m - {j}).Keys == m.Keys - {j} && (m - {k}).Keys == m.Keys - {k};
      SumSplit(m - {j}, k, w);
      SumSplit(m - {k}, j, w);
      assert m - {j} - {k} == m - {k} - {j};
    }
  }

  lemma SumPut<K, V>(m: map<K, V>, k: K, v: V, w: (K, V) -> nat)
    ensures Sum(m[k := v], w) + Weight(m, k, w) == Sum(m, w) + w(k, v)
  {
    SumSplit(m[k := v], k, w);
    assert m[k := v] - {k} == m - {k};
    if k in m {
      SumSplit(m, k, w);
    } else {
      assert m - {k} == m;
    }
  }

  lemma SumDrop<K, V>(m: map<K, V>, k: K, w: (K, V) -> nat)
    ensures Sum(m - {k}, w) + Weight(m, k, w) == Sum(m, w)
  {
    if k in m {
      SumSplit(m, k, w);
    } else {
      assert m - {k} == m;
    }
  }

  lemma SumMember<K, V>(m: map<K, V>, k: K, w: (K, V) -> nat)
    ensures Weight(m, k, w) <= Sum(m, w)
  {
    SumDrop(m, k, w);
  }

  lemma {:induction false} SumCong<K, V>(m: map<K, V>, w: (K, V) -> nat, w': (K, V) -> nat)
    requires forall k | k in m :: w(k, m[k]) == w'(k, m[k])
    ensures Sum(m, w) == Sum(m, w')
    decreases |m|
  {
    if m == map[] {
    } else {
      var k :| k in m;
      assert (m - {k}).Keys == m.Keys - {k};
      SumSplit(m, k, w);
      SumSplit(m, k, w');
      SumCong(m - {k}, w, w');
    }
  }

  lemma {:induction false} SumZero<K, V>(m: map<K, V>, w: (K, V) -> nat)
    requires forall k | k in m :: w(k, m[k]) == 0
    ensures Sum(m, w) == 0
    decreases |m|
  {
    if m == map[] {
    } else {
      var k :| k in m;
      assert (m - {k}).Keys == m.Keys - {k};
      SumSplit(m, k, w);
      SumZero(m - {k}, w);
    }
  }

  /** Leaving out entries of weight zero keeps the sum. */
  lemma {:induction false} SumSub<K, V>(m: map<K, V>, m': map<K, V>, w: (K, V) -> nat)
    requires forall k | k in m' :: k in m && m[k] == m'[k]
    requires forall k | k in m && k !in m' :: w(k, m[k]) == 0
    ensures Sum(m, w) == Sum(m', w)
    decreases |m|
  {
    if m != map[] {
      var k :| k in m;
      assert (m - {k}).Keys == m.Keys - {k};
      SumDrop(m, k, w);
      SumDrop(m', k, w);
      SumSub(m - {k}, m' - {k}, w);
    } else {
      assert m' == map[];
    }
  }

  /** An entry-wise affine bound carries over to the sums. */
  lemma {:induction false} SumBound<K, V>(
    m: map<K, V>, w: (K, V) -> nat, a: nat, w': (K, V) -> nat, b: nat, c: nat)
    requires forall k | k in m :: a * w(k, m[k]) <= b * w'(k, m[k]) + c
    ensures a * Sum(m, w) <= b * Sum(m, w') + c * |m|
    decreases |m|
  {
    if m == map[] {
    } else {
      var k :| k in m;
      assert (m - {k}).Keys == m.Keys - {k};
      SumSplit(m, k, w);
      SumSplit(m, k, w');
      SumBound(m - {k}, w, a, w', b, c);
      BoundStep(w(k, m[k]), Sum(m - {k}, w), a, w'(k, m[k]), Sum(m - {k}, w'), b, c, |m| - 1);
    }
  }

  lemma BoundStep(x: nat, r: nat, a: nat, x': nat, r': nat, b: nat, c: nat, n: nat)
    requires a * x <= b * x' + c && a * r <= b * r' + c * n
    ensures a * (x + r) <= b * (x' + r') + c * (n + 1)
  {
    assert a * (x + r) == a * x + a * r;
    assert b * (x' + r') == b * x' + b * r';
    assert c * (n + 1) == c * n + c;
  }

  /** A finite set can be listed, each element once. */
  lemma {:induction false} Listing<T>(xs: set<T>) returns (order: seq<T>)
    ensures forall i, j | 0 <= i < j < |order| :: order[i] != order[j]
    ensures forall x :: x in order <==> x in xs
    decreases |xs|
  {
    if xs == {} {
      order := [];
    } else {
      var x :| x in xs;
      var rest := Listing(xs - {x});
      order := rest + [x];
    }
  }
}
