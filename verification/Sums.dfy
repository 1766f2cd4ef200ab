/** Finite sums over sequences and maps. */
module Sums {
  function Sum(s: seq<nat>): nat {
    if s == [] then 0 else Sum(s[..|s| - 1]) + s[|s| - 1]
  }

  lemma EmptySum()
    ensures Sum([]) == 0
  {
  }

  lemma SumSnoc(s: seq<nat>, x: nat)
    ensures Sum(s + [x]) == Sum(s) + x
  {
    assert (s + [x])[..|s|] == s;
  }

  lemma SumPrefix(s: seq<nat>, i: nat)
    requires i < |s|
    ensures Sum(s[..i + 1]) == Sum(s[..i]) + s[i]
  {
    assert s[..i + 1] == s[..i] + [s[i]];
    SumSnoc(s[..i], s[i]);
  }

  lemma {:induction false} SumPrefixLe(s: seq<nat>, i: nat)
    requires i <= |s|
    ensures Sum(s[..i]) <= Sum(s)
    decreases |s| - i
  {
    if i == |s| {
      assert s[..i] == s;
    } else {
      SumPrefix(s, i);
      SumPrefixLe(s, i + 1);
    }
  }

  lemma {:induction false} SumLe(s: seq<nat>, t: seq<nat>)
    requires |s| == |t|
    requires forall i :: 0 <= i < |s| ==> s[i] <= t[i]
    ensures Sum(s) <= Sum(t)
  {
    if s != [] {
      var n := |s| - 1;
      SumLe(s[..n], t[..n]);
    }
  }

  /** Termwise no larger with the same sum: the same sequence. */
  lemma {:induction false} SumSqueeze(s: seq<nat>, t: seq<nat>)
    requires |s| == |t| && Sum(s) == Sum(t)
    requires forall i :: 0 <= i < |s| ==> s[i] <= t[i]
    ensures s == t
  {
    if s != [] {
      var n := |s| - 1;
      SumLe(s[..n], t[..n]);
      SumSqueeze(s[..n], t[..n]);
      assert s == s[..n] + [s[n]] && t == t[..n] + [t[n]];
    }
  }

  lemma {:induction false} SumAdd(s: seq<nat>, t: seq<nat>, u: seq<nat>)
    requires |s| == |t| == |u|
    requires forall i :: 0 <= i < |s| ==> u[i] == s[i] + t[i]
    ensures Sum(u) == Sum(s) + Sum(t)
  {
    if s != [] {
      var n := |s| - 1;
      SumAdd(s[..n], t[..n], u[..n]);
    }
  }

  /** Some term reaches the average: a bound on all terms bounds the sum. */
  lemma {:induction false} SumAtMost(s: seq<nat>, bound: nat)
    requires forall i :: 0 <= i < |s| ==> s[i] <= bound
    ensures Sum(s) <= |s| * bound
  {
    if s != [] {
      SumAtMost(s[..|s| - 1], bound);
      assert |s| * bound == (|s| - 1) * bound + bound;
    }
  }

  lemma {:induction false} SumAtLeast(s: seq<nat>, bound: nat)
    requires forall i :: 0 <= i < |s| ==> bound <= s[i]
    ensures |s| * bound <= Sum(s)
  {
    if s != [] {
      SumAtLeast(s[..|s| - 1], bound);
      assert |s| * bound == (|s| - 1) * bound + bound;
    }
  }

  /** The sum of all values of a map. */
  ghost function SumMap<K(!new)>(m: map<K, nat>): nat {
    if m == map[] then 0
    else
      var k :| k in m;
      m[k] + SumMap(m - {k})
  }

  function Get<K>(m: map<K, nat>, k: K): nat {
    if k in m then m[k] else 0
  }

  lemma EmptySums<K(!new)>()
    ensures Sum([]) == 0 && SumMap<K>(map[]) == 0
  {
  }

  /** Any key can be taken out first. */
  lemma {:induction false} SumMapRemove<K(!new)>(m: map<K, nat>, k: K)
    requires k in m
    ensures SumMap(m) == m[k] + SumMap(m - {k})
    decreases |m|
  {
    var j :| j in m && SumMap(m) == m[j] + SumMap(m - {j});
    if j != k {
      SumMapRemove(m - {j}, k);
      SumMapRemove(m - {k}, j);
      assert m - {j} - {k} == m - {k} - {j};
    }
  }

  lemma SumMapPut<K(!new)>(m: map<K, nat>, k: K, v: nat)
    ensures SumMap(m[k := v]) + Get(m, k) == SumMap(m) + v
  {
    var m' := m[k := v];
    SumMapRemove(m', k);
    assert m' - {k} == m - {k};
    if k in m {
      SumMapRemove(m, k);
    } else {
      assert m - {k} == m;
    }
  }

  lemma {:induction false} SumMapUnion<K(!new)>(a: map<K, nat>, b: map<K, nat>)
    requires a.Keys !! b.Keys
    ensures SumMap(a + b) == SumMap(a) + SumMap(b)
    decreases |b|
  {
    if b == map[] {
      assert a + b == a;
    } else {
      var k :| k in b;
      SumMapRemove(b, k);
      SumMapUnion(a, b - {k});
      SumMapRemove(a + b, k);
      RemoveFromUnion(a, b, k);
    }
  }

  lemma RemoveFromUnion<K(!new)>(a: map<K, nat>, b: map<K, nat>, k: K)
    requires k !in a
    ensures (a + b) - {k} == a + (b - {k})
  {
    var l, r := (a + b) - {k}, a + (b - {k});
    assert l.Keys == r.Keys;
    forall j | j in l ensures l[j] == r[j] {
    }
  }

  /** A listing names every key exactly once. */
  ghost predicate Lists<K(!new)>(listing: seq<K>, keys: set<K>) {
    && (forall i, j :: 0 <= i < j < |listing| ==> listing[i] != listing[j])
    && (forall k :: k in keys <==> k in listing)
  }

  lemma ListingEmpty<K(!new)>(listing: seq<K>, keys: set<K>)
    requires Lists(listing, keys)
    ensures listing == [] <==> keys == {}
  {
    if listing != [] {
      assert listing[0] in keys;
    }
  }

  /** Adding the values up along any listing gives the sum of the map. */
  lemma {:induction false} SumAlongListing<K(!new)>(m: map<K, nat>, listing: seq<K>)
    requires Lists(listing, m.Keys)
    ensures SumMap(m) == Sum(seq(|listing|, i requires 0 <= i < |listing| => Get(m, listing[i])))
    decreases |listing|
  {
    hide Sum, SumMap;
    var n := |listing|;
    if n == 0 {
      assert m == map[] by {
        assert m.Keys == {};
      }
      EmptySums<K>();
    } else {
      var k, init := listing[n - 1], listing[..n - 1];
      assert k in m;
      var m' := m - {k};
      assert Lists(init, m'.Keys) by {
        forall j ensures j in m'.Keys <==> j in init {
          assert listing == init + [k];
        }
      }
      SumAlongListing(m', init);
      SumMapRemove(m, k);
      var vs := seq(n - 1, i requires 0 <= i < n - 1 => Get(m', init[i]));
      assert seq(n, i requires 0 <= i < n => Get(m, listing[i])) == vs + [m[k]];
      SumSnoc(vs, m[k]);
    }
  }
}
