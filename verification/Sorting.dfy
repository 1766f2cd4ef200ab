/** `sort_by` on reported validators: a stable sort by stake, ascending or descending. */
module Sorting {
  import opened Sums
  import opened Allocation

  predicate Precedes(a: Validator, b: Validator, descending: bool) {
    if descending then a.stake > b.stake else a.stake < b.stake
  }

  ghost predicate Sorted(s: seq<Validator>, descending: bool) {
    forall i, j :: 0 <= i < j < |s| ==> !Precedes(s[j], s[i], descending)
  }

  ghost predicate Distinct(s: seq<Validator>) {
    forall i, j :: 0 <= i < j < |s| ==> s[i].address != s[j].address
  }

  function Insert(s: seq<Validator>, v: Validator, descending: bool): (r: seq<Validator>) {
    if s == [] then [v]
    else
      var n := |s| - 1;
      if Precedes(v, s[n], descending) then Insert(s[..n], v, descending) + [s[n]] else s + [v]
  }

  function SortByStake(s: seq<Validator>, descending: bool): seq<Validator> {
    if s == [] then [] else Insert(SortByStake(s[..|s| - 1], descending), s[|s| - 1], descending)
  }

  /** The list with an element placed at one position. */
  ghost function Place(s: seq<Validator>, v: Validator, k: nat): seq<Validator>
    requires k <= |s|
  {
    s[..k] + [v] + s[k..]
  }

  /** Insertion places the element behind everything it does not precede, before everything it does. */
  lemma {:induction false} InsertAt(s: seq<Validator>, v: Validator, descending: bool) returns (k: nat)
    requires Sorted(s, descending)
    ensures k <= |s| && Insert(s, v, descending) == Place(s, v, k)
    ensures forall i :: 0 <= i < |s| ==> (Precedes(v, s[i], descending) <==> k <= i)
    decreases |s|
  {
    if s == [] {
      k := 0;
    } else {
      var n := |s| - 1;
      if Precedes(v, s[n], descending) {
        k := InsertAt(s[..n], v, descending);
        assert s[..n][..k] == s[..k] && s[..n][k..] + [s[n]] == s[k..];
      } else {
        k := n + 1;
        assert s[..k] == s && s[k..] == [];
      }
    }
  }

  lemma PlaceSorted(s: seq<Validator>, v: Validator, k: nat, descending: bool)
    requires k <= |s| && Sorted(s, descending)
    requires forall i :: 0 <= i < |s| ==> (Precedes(v, s[i], descending) <==> k <= i)
    ensures Sorted(Place(s, v, k), descending)
  {
  }

  lemma PlaceDistinct(s: seq<Validator>, v: Validator, k: nat)
    requires k <= |s| && Distinct(s) && forall i :: 0 <= i < |s| ==> s[i].address != v.address
    ensures Distinct(Place(s, v, k))
  {
  }

  lemma PlaceKeeps(s: seq<Validator>, v: Validator, k: nat)
    requires k <= |s|
    ensures multiset(Place(s, v, k)) == multiset(s) + multiset{v}
    ensures Sum(Stakes(Place(s, v, k))) == Sum(Stakes(s)) + v.stake
  {
    assert s == s[..k] + s[k..];
    SumInsert(Stakes(s), k, v.stake);
    assert Stakes(Place(s, v, k)) == Stakes(s)[..k] + [v.stake] + Stakes(s)[k..];
  }

  lemma StakesLast(s: seq<Validator>)
    requires s != []
    ensures Sum(Stakes(s)) == Sum(Stakes(s[..|s| - 1])) + s[|s| - 1].stake
  {
    assert Stakes(s)[..|s| - 1] == Stakes(s[..|s| - 1]);
  }

  lemma InsertKeeps(s: seq<Validator>, v: Validator, descending: bool)
    requires Sorted(s, descending)
    ensures var r := Insert(s, v, descending);
            && Sorted(r, descending) && multiset(r) == multiset(s) + multiset{v}
            && Sum(Stakes(r)) == Sum(Stakes(s)) + v.stake
  {
    hide Insert, Place, Stakes, Sum, Precedes, Sorted;
    var k := InsertAt(s, v, descending);
    PlaceSorted(s, v, k, descending);
    PlaceKeeps(s, v, k);
  }

  lemma EmptyKeeps(descending: bool)
    ensures Sorted([], descending)
  {
  }

  /** Sorting orders the list and keeps its entries, hence its total stake. */
  lemma {:induction false} SortKeeps(s: seq<Validator>, descending: bool)
    ensures var r := SortByStake(s, descending);
            Sorted(r, descending) && multiset(r) == multiset(s) && Sum(Stakes(r)) == Sum(Stakes(s))
    decreases |s|
  {
    hide Insert, Sorted, Stakes, Sum;
    if s == [] {
      EmptyKeeps(descending);
    } else {
      var n := |s| - 1;
      SortKeeps(s[..n], descending);
      InsertKeeps(SortByStake(s[..n], descending), s[n], descending);
      assert s == s[..n] + [s[n]];
      StakesLast(s);
    }
  }

  /** Sorting keeps addresses distinct. */
  lemma {:induction false} SortDistinct(s: seq<Validator>, descending: bool)
    requires Distinct(s)
    ensures Distinct(SortByStake(s, descending))
    decreases |s|
  {
    hide Insert, Sorted, Stakes, Sum, Precedes;
    if s != [] {
      var n := |s| - 1;
      SortDistinct(s[..n], descending);
      SortKeeps(s[..n], descending);
      var t := SortByStake(s[..n], descending);
      var k := InsertAt(t, s[n], descending);
      forall i | 0 <= i < |t| ensures t[i].address != s[n].address {
        assert t[i] in multiset(s[..n]);
      }
      PlaceDistinct(t, s[n], k);
    }
  }

  /** The entries with one stake, in list order. */
  function WithStake(s: seq<Validator>, stake: nat): seq<Validator> {
    if s == [] then []
    else WithStake(s[..|s| - 1], stake) + if s[|s| - 1].stake == stake then [s[|s| - 1]] else []
  }

  lemma WithStakeSnoc(s: seq<Validator>, v: Validator, stake: nat)
    ensures WithStake(s + [v], stake) == WithStake(s, stake) + if v.stake == stake then [v] else []
  {
    assert (s + [v])[..|s|] == s;
  }

  /** Behind an insertion, the new entry stands last among those of the same stake. */
  lemma {:induction false} InsertStable(s: seq<Validator>, v: Validator, descending: bool, stake: nat)
    ensures WithStake(Insert(s, v, descending), stake) == WithStake(s + [v], stake)
    decreases |s|
  {
    WithStakeSnoc(s, v, stake);
    if s == [] {
      assert [] + [v] == [v];
    } else {
      var n := |s| - 1;
      if Precedes(v, s[n], descending) {
        InsertStable(s[..n], v, descending, stake);
        WithStakeSnoc(s[..n], v, stake);
        WithStakeSnoc(Insert(s[..n], v, descending), s[n], stake);
      }
    }
  }

  /** The sort is stable: validators with the same stake keep their order. */
  lemma {:induction false} SortStable(s: seq<Validator>, descending: bool, stake: nat)
    ensures WithStake(SortByStake(s, descending), stake) == WithStake(s, stake)
    decreases |s|
  {
    hide Insert, Precedes;
    if s != [] {
      var n := |s| - 1;
      SortStable(s[..n], descending, stake);
      InsertStable(SortByStake(s[..n], descending), s[n], descending, stake);
      WithStakeSnoc(SortByStake(s[..n], descending), s[n], stake);
    }
  }

  lemma {:induction false} SumInsert(s: seq<nat>, k: nat, x: nat)
    requires k <= |s|
    ensures Sum(s[..k] + [x] + s[k..]) == Sum(s) + x
    decreases |s|
  {
    var r := s[..k] + [x] + s[k..];
    if k == |s| {
      assert r == s + [x];
      SumSnoc(s, x);
    } else {
      var n := |s| - 1;
      SumInsert(s[..n], k, x);
      assert r[..|r| - 1] == s[..n][..k] + [x] + s[..n][k..];
    }
  }
}
