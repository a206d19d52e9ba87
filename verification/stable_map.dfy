/** Iteration over a `StableBTreeMap` keyed by principals: the entries come out
    in ascending key order, where principals are ordered by the `Ord` that the
    candid crate derives for them (the length first, then the bytes one by one). */
module StableMap {
  import opened IcTypes

  /** Byte-by-byte strict order on byte strings of the same length. */
  predicate LexBelow(x: seq<byte>, y: seq<byte>)
    requires |x| == |y|
    decreases |x|
  {
    |x| > 0 && (x[0] < y[0] || (x[0] == y[0] && LexBelow(x[1..], y[1..])))
  }

  /** Strict order of principals: a shorter principal comes first, equal lengths compare byte by byte. */
  predicate Below(a: Principal, b: Principal)
  {
    |a.bytes| < |b.bytes| || (|a.bytes| == |b.bytes| && LexBelow(a.bytes, b.bytes))
  }

  lemma {:induction false} LexIrreflexive(x: seq<byte>)
    ensures !LexBelow(x, x)
    decreases |x|
  {
    if |x| > 0 {
      LexIrreflexive(x[1..]);
    }
  }

  lemma {:induction false} LexTransitive(x: seq<byte>, y: seq<byte>, z: seq<byte>)
    requires |x| == |y| == |z|
    requires LexBelow(x, y) && LexBelow(y, z)
    ensures LexBelow(x, z)
    decreases |x|
  {
    if x[0] == y[0] && y[0] == z[0] {
      LexTransitive(x[1..], y[1..], z[1..]);
    }
  }

  lemma {:induction false} LexTotal(x: seq<byte>, y: seq<byte>)
    requires |x| == |y| && x != y
    ensures LexBelow(x, y) || LexBelow(y, x)
    decreases |x|
  {
    if x[0] == y[0] {
      assert x == [x[0]] + x[1..] && y == [y[0]] + y[1..];
      LexTotal(x[1..], y[1..]);
    }
  }

  /** Below is a strict total order on principals. */
  lemma BelowIrreflexive(a: Principal)
    ensures !Below(a, a)
  {
    LexIrreflexive(a.bytes);
  }

  lemma BelowTransitive(a: Principal, b: Principal, c: Principal)
    requires Below(a, b) && Below(b, c)
    ensures Below(a, c)
  {
    if |a.bytes| == |b.bytes| == |c.bytes| {
      LexTransitive(a.bytes, b.bytes, c.bytes);
    }
  }

  lemma BelowTotal(a: Principal, b: Principal)
    requires a != b
    ensures Below(a, b) || Below(b, a)
  {
    if |a.bytes| == |b.bytes| {
      LexTotal(a.bytes, b.bytes);
    }
  }

  lemma BelowAsymmetric(a: Principal, b: Principal)
    requires Below(a, b)
    ensures !Below(b, a)
  {
    if Below(b, a) {
      BelowTransitive(a, b, a);
      BelowIrreflexive(a);
    }
  }

  /** The least principal of a non-empty set. */
  ghost function MinKey(s: set<Principal>): (k: Principal)
    requires s != {}
    ensures k in s
    ensures forall j :: j in s && j != k ==> Below(k, j)
    decreases |s|
  {
    var x :| x in s;
    if s == {x} then x
    else
      var m := MinKey(s - {x});
      MinOfTwo(s, x, m);
      if Below(x, m) then x else m
  }

  lemma MinOfTwo(s: set<Principal>, x: Principal, m: Principal)
    requires x in s && m in s - {x}
    requires forall j :: j in s - {x} && j != m ==> Below(m, j)
    ensures var k := if Below(x, m) then x else m;
            forall j :: j in s && j != k ==> Below(k, j)
  {
    BelowTotal(x, m);
    if Below(x, m) {
      forall j | j in s && j != x
        ensures Below(x, j)
      {
        if j != m {
          BelowTransitive(x, m, j);
        }
      }
    }
  }

  /** The keys of a map in the order the map's iterator yields them. */
  ghost function SortedKeys(s: set<Principal>): (r: seq<Principal>)
    ensures |r| == |s|
    ensures forall i :: 0 <= i < |r| ==> r[i] in s
    ensures forall k :: k in s ==> k in r
    ensures forall i, j :: 0 <= i < j < |r| ==> Below(r[i], r[j])
    decreases |s|
  {
    if s == {} then []
    else
      var m := MinKey(s);
      var rest := SortedKeys(s - {m});
      PrependLeast(s, m, rest);
      [m] + rest
  }

  /** Putting the least key in front of an ascending listing of the others lists the whole set. */
  lemma PrependLeast(s: set<Principal>, m: Principal, rest: seq<Principal>)
    requires m in s
    requires forall j :: j in s && j != m ==> Below(m, j)
    requires |rest| == |s - {m}|
    requires forall i :: 0 <= i < |rest| ==> rest[i] in s - {m}
    requires forall k :: k in s - {m} ==> k in rest
    requires forall i, j :: 0 <= i < j < |rest| ==> Below(rest[i], rest[j])
    ensures |[m] + rest| == |s|
    ensures forall i :: 0 <= i < |[m] + rest| ==> ([m] + rest)[i] in s
    ensures forall k :: k in s ==> k in [m] + rest
    ensures forall i, j :: 0 <= i < j < |[m] + rest| ==> Below(([m] + rest)[i], ([m] + rest)[j])
  {
    var r := [m] + rest;
    forall i, j | 0 <= i < j < |r|
      ensures Below(r[i], r[j])
    {
      assert r[j] == rest[j - 1];
      if i > 0 {
        assert r[i] == rest[i - 1];
      }
    }
  }

  /** `iter().collect()`: every (key, value) pair of the map, once each, in ascending key order. */
  ghost function Entries<V>(m: map<Principal, V>): (r: seq<(Principal, V)>)
    ensures |r| == |m|
    ensures forall i :: 0 <= i < |r| ==> r[i].0 in m && r[i].1 == m[r[i].0]
    ensures forall k :: k in m ==> exists i :: 0 <= i < |r| && r[i].0 == k
    ensures forall i, j :: 0 <= i < j < |r| ==> Below(r[i].0, r[j].0)
  {
    var ks := SortedKeys(m.Keys);
    var r := Lookups(ks, m);
    EntriesListing(m, ks, r);
    r
  }

  /** Each key of the list paired with its value in the map, in the list's order. */
  function Lookups<V>(ks: seq<Principal>, m: map<Principal, V>): (r: seq<(Principal, V)>)
    requires forall i :: 0 <= i < |ks| ==> ks[i] in m
    ensures |r| == |ks| && forall i :: 0 <= i < |r| ==> r[i] == (ks[i], m[ks[i]])
  {
    seq(|ks|, i requires 0 <= i < |ks| => (ks[i], m[ks[i]]))
  }

  /** The pairs built from an ascending listing of a map's keys list the map in that order. */
  lemma EntriesListing<V>(m: map<Principal, V>, ks: seq<Principal>, r: seq<(Principal, V)>)
    requires |ks| == |m|
    requires forall i :: 0 <= i < |ks| ==> ks[i] in m
    requires forall k :: k in m ==> k in ks
    requires forall i, j :: 0 <= i < j < |ks| ==> Below(ks[i], ks[j])
    requires |r| == |ks| && forall i :: 0 <= i < |r| ==> r[i] == (ks[i], m[ks[i]])
    ensures |r| == |m|
    ensures forall i :: 0 <= i < |r| ==> r[i].0 in m && r[i].1 == m[r[i].0]
    ensures forall k :: k in m ==> exists i :: 0 <= i < |r| && r[i].0 == k
    ensures forall i, j :: 0 <= i < j < |r| ==> Below(r[i].0, r[j].0)
  {
    forall k | k in m
      ensures exists i :: 0 <= i < |r| && r[i].0 == k
    {
      var i :| 0 <= i < |ks| && ks[i] == k;
      assert r[i].0 == k;
    }
    forall i, j | 0 <= i < j < |r|
      ensures Below(r[i].0, r[j].0)
    {
      assert r[i].0 == ks[i] && r[j].0 == ks[j];
    }
  }

  /** `values().collect()`: the value stored under each key, one per key, in ascending key order. */
  ghost function Values<V>(m: map<Principal, V>): (r: seq<V>)
    ensures |r| == |m|
    ensures forall i :: 0 <= i < |r| ==> r[i] in m.Values
    ensures forall k :: k in m ==> m[k] in r
    ensures |r| == |Entries(m)| && forall i :: 0 <= i < |r| ==> r[i] == m[Entries(m)[i].0]
  {
    var e := Entries(m);
    var r := Seconds(e);
    ValuesListing(m, e, r);
    r
  }

  /** The second components of a list of pairs, in order. */
  function Seconds<K, V>(e: seq<(K, V)>): (r: seq<V>)
    ensures |r| == |e| && forall i :: 0 <= i < |r| ==> r[i] == e[i].1
  {
    seq(|e|, i requires 0 <= i < |e| => e[i].1)
  }

  /** The second components of a listing of a map's entries list its values. */
  lemma ValuesListing<V>(m: map<Principal, V>, e: seq<(Principal, V)>, r: seq<V>)
    requires |e| == |m|
    requires forall i :: 0 <= i < |e| ==> e[i].0 in m && e[i].1 == m[e[i].0]
    requires forall k :: k in m ==> exists i :: 0 <= i < |e| && e[i].0 == k
    requires |r| == |e| && forall i :: 0 <= i < |r| ==> r[i] == e[i].1
    ensures |r| == |m|
    ensures forall i :: 0 <= i < |r| ==> r[i] in m.Values
    ensures forall k :: k in m ==> m[k] in r
    ensures forall i :: 0 <= i < |r| ==> e[i].0 in m && r[i] == m[e[i].0]
  {
    forall i | 0 <= i < |r|
      ensures r[i] in m.Values
    {
      assert e[i].0 in m && r[i] == m[e[i].0];
    }
    forall k | k in m
      ensures m[k] in r
    {
      var i :| 0 <= i < |e| && e[i].0 == k;
      assert r[i] == m[k];
    }
  }

  /** The first element of a strictly ascending listing is below every other element of it. */
  lemma HeadIsLeast(q: seq<Principal>)
    requires q != []
    requires forall i, j :: 0 <= i < j < |q| ==> Below(q[i], q[j])
    ensures forall k :: k in q && k != q[0] ==> Below(q[0], k)
  {
    forall k | k in q && k != q[0]
      ensures Below(q[0], k)
    {
      var j :| 0 <= j < |q| && q[j] == k;
    }
  }

  /** Two listings that are both strictly ascending and hold the same keys are the same listing:
      the order of a map's iteration is determined by its keys alone. */
  lemma {:induction false} SortedListingUnique(r: seq<Principal>, q: seq<Principal>)
    requires forall i, j :: 0 <= i < j < |r| ==> Below(r[i], r[j])
    requires forall i, j :: 0 <= i < j < |q| ==> Below(q[i], q[j])
    requires forall k :: k in r <==> k in q
    ensures r == q
    decreases |r|
  {
    assert r == [] <==> q == [] by {
      if r != [] { assert r[0] in q; }
      if q != [] { assert q[0] in r; }
    }
    if r != [] {
      assert r[0] in q && q[0] in r;
      HeadIsLeast(r);
      HeadIsLeast(q);
      if Below(r[0], q[0]) {
        BelowAsymmetric(r[0], q[0]);
      }
      assert r[0] == q[0];
      forall k
        ensures k in r[1..] <==> k in q[1..]
      {
        if k in r[1..] {
          var i :| 1 <= i < |r| && r[i] == k;
          assert Below(r[0], k) && k in q;
          BelowIrreflexive(k);
          var j :| 0 <= j < |q| && q[j] == k;
          assert q[1..][j - 1] == k;
        }
        if k in q[1..] {
          var i :| 1 <= i < |q| && q[i] == k;
          assert Below(q[0], k) && k in r;
          BelowIrreflexive(k);
          var j :| 0 <= j < |r| && r[j] == k;
          assert r[1..][j - 1] == k;
        }
      }
      SortedListingUnique(r[1..], q[1..]);
    }
  }
}
