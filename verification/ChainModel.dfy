/** How the chain carries out emitted messages, within the transaction that emits them. */
module ChainModel {
  import opened Results
  import opened Sums
  import opened Allocation
  import opened Sorting
  import opened HubTypes

  /** A delegation that reaches zero disappears from the chain. */
  function Reduce(stakes: map<Address, nat>, v: Address, amount: nat): map<Address, nat>
    requires amount <= Get(stakes, v)
  {
    if amount == Get(stakes, v) then stakes - {v} else stakes[v := stakes[v] - amount]
  }

  function Raise(stakes: map<Address, nat>, v: Address, amount: nat): map<Address, nat> {
    stakes[v := Get(stakes, v) + amount]
  }

  /** One message. The staking and bank modules refuse an amount of zero, and any that is not there. */
  function Dispatch(chain: Chain, m: Message): Result<Chain> {
    match m
    case Delegate(v, amount) =>
      if amount == 0 || amount > chain.liquid then Failure(ChainRejected)
      else Success(chain.(liquid := chain.liquid - amount, stakes := Raise(chain.stakes, v, amount)))
    case Undelegate(v, amount) =>
      if amount == 0 || amount > Get(chain.stakes, v) then Failure(ChainRejected)
      else Success(chain.(stakes := Reduce(chain.stakes, v, amount)))
    case Redelegate(source, target, amount) =>
      if amount == 0 || amount > Get(chain.stakes, source) then Failure(ChainRejected)
      else Success(chain.(stakes := Raise(Reduce(chain.stakes, source, amount), target, amount)))
    case Mint(amount) =>
      Success(chain.(supply := chain.supply + amount))
    case Burn(amount) =>
      if amount > chain.supply then Failure(ChainRejected)
      else Success(chain.(supply := chain.supply - amount))
    case Send(_, amount) =>
      if amount == 0 || amount > chain.liquid then Failure(ChainRejected)
      else Success(chain.(liquid := chain.liquid - amount))
  }

  function DispatchAll(chain: Chain, ms: seq<Message>): Result<Chain> {
    if ms == [] then Success(chain)
    else
      var c :- DispatchAll(chain, ms[..|ms| - 1]);
      Dispatch(c, ms[|ms| - 1])
  }

  /** One more message after an outcome. */
  function AndThen(r: Result<Chain>, m: Message): Result<Chain> {
    if r.Success? then Dispatch(r.value, m) else r
  }

  lemma DispatchSnoc(chain: Chain, ms: seq<Message>, m: Message)
    ensures DispatchAll(chain, ms + [m]) == AndThen(DispatchAll(chain, ms), m)
  {
    assert (ms + [m])[..|ms|] == ms;
  }

  lemma ReduceSum(stakes: map<Address, nat>, v: Address, amount: nat)
    requires amount <= Get(stakes, v)
    ensures SumMap(Reduce(stakes, v, amount)) + amount == SumMap(stakes)
  {
    if v in stakes {
      SumMapRemove(stakes, v);
      SumMapPut(stakes, v, stakes[v] - amount);
    } else {
      assert stakes - {v} == stakes;
    }
  }

  // ---------------------------------------------------------------------------------------------
  // Messages for a plan: one per validator that is given a nonzero amount
  // ---------------------------------------------------------------------------------------------

  function DelegateMessages(vs: seq<Validator>, plan: seq<nat>): (ms: seq<Message>)
    requires |vs| == |plan|
  {
    if vs == [] then []
    else
      var n := |vs| - 1;
      DelegateMessages(vs[..n], plan[..n]) + if plan[n] == 0 then [] else [Delegate(vs[n].address, plan[n])]
  }

  function UndelegateMessages(vs: seq<Validator>, plan: seq<nat>): (ms: seq<Message>)
    requires |vs| == |plan|
  {
    if vs == [] then []
    else
      var n := |vs| - 1;
      UndelegateMessages(vs[..n], plan[..n]) + if plan[n] == 0 then [] else [Undelegate(vs[n].address, plan[n])]
  }

  lemma DelegateMessagesLast(chain: Chain, vs: seq<Validator>, plan: seq<nat>, n: nat)
    requires |vs| == |plan| == n + 1
    ensures var before := DispatchAll(chain, DelegateMessages(vs[..n], plan[..n]));
            DispatchAll(chain, DelegateMessages(vs, plan))
            == if plan[n] == 0 then before else AndThen(before, Delegate(vs[n].address, plan[n]))
  {
    var ms := DelegateMessages(vs[..n], plan[..n]);
    assert ms + [] == ms;
    DispatchSnoc(chain, ms, Delegate(vs[n].address, plan[n]));
  }

  lemma UndelegateMessagesLast(chain: Chain, vs: seq<Validator>, plan: seq<nat>, n: nat)
    requires |vs| == |plan| == n + 1
    ensures var before := DispatchAll(chain, UndelegateMessages(vs[..n], plan[..n]));
            DispatchAll(chain, UndelegateMessages(vs, plan))
            == if plan[n] == 0 then before else AndThen(before, Undelegate(vs[n].address, plan[n]))
  {
    var ms := UndelegateMessages(vs[..n], plan[..n]);
    assert ms + [] == ms;
    DispatchSnoc(chain, ms, Undelegate(vs[n].address, plan[n]));
  }

  /** The amount a plan gives to an address. */
  function Planned(vs: seq<Validator>, plan: seq<nat>, a: Address): nat
    requires |vs| == |plan|
  {
    if vs == [] then 0
    else
      var n := |vs| - 1;
      Planned(vs[..n], plan[..n], a) + if vs[n].address == a then plan[n] else 0
  }

  lemma {:induction false} PlannedAt(vs: seq<Validator>, plan: seq<nat>, i: nat)
    requires |vs| == |plan| && Distinct(vs) && i < |vs|
    ensures Planned(vs, plan, vs[i].address) == plan[i]
    decreases |vs|
  {
    var n := |vs| - 1;
    if i == n {
      PlannedElsewhere(vs[..n], plan[..n], vs[n].address);
    } else {
      PlannedAt(vs[..n], plan[..n], i);
    }
  }

  lemma {:induction false} PlannedElsewhere(vs: seq<Validator>, plan: seq<nat>, a: Address)
    requires |vs| == |plan| && forall i :: 0 <= i < |vs| ==> vs[i].address != a
    ensures Planned(vs, plan, a) == 0
  {
    if vs != [] {
      PlannedElsewhere(vs[..|vs| - 1], plan[..|vs| - 1], a);
    }
  }

  lemma DelegateStep(before: Chain, v: Address, amount: nat) returns (after: Chain)
    requires 0 < amount <= before.liquid
    ensures Dispatch(before, Delegate(v, amount)) == Success(after)
    ensures after == before.(liquid := before.liquid - amount, stakes := after.stakes)
    ensures Staked(after) == Staked(before) + amount
    ensures forall a :: Get(after.stakes, a) == Get(before.stakes, a) + if v == a then amount else 0
  {
    hide SumMap;
    after := Dispatch(before, Delegate(v, amount)).value;
    SumMapPut(before.stakes, v, Get(before.stakes, v) + amount);
  }

  /** Delegating a plan moves exactly its sum from the balance into the stakes, to each its entry. */
  lemma {:induction false} DispatchDelegations(chain: Chain, vs: seq<Validator>, plan: seq<nat>) returns (after: Chain)
    requires |vs| == |plan| && Sum(plan) <= chain.liquid
    ensures DispatchAll(chain, DelegateMessages(vs, plan)) == Success(after)
    ensures after == chain.(liquid := chain.liquid - Sum(plan), stakes := after.stakes)
    ensures Staked(after) == Staked(chain) + Sum(plan)
    ensures forall a :: Get(after.stakes, a) == Get(chain.stakes, a) + Planned(vs, plan, a)
  {
    if vs == [] {
      after := chain;
    } else {
      hide Dispatch, DispatchAll, DelegateMessages, SumMap, Get;
      var n := |vs| - 1;
      assert Sum(plan) == Sum(plan[..n]) + plan[n];
      var before := DispatchDelegations(chain, vs[..n], plan[..n]);
      DelegateMessagesLast(chain, vs, plan, n);
      if plan[n] == 0 {
        after := before;
      } else {
        after := DelegateStep(before, vs[n].address, plan[n]);
      }
    }
  }

  /** Undelegating a plan takes exactly its entries; the chain never refuses one within the stakes. */
  lemma {:induction false} DispatchUndelegations(chain: Chain, vs: seq<Validator>, plan: seq<nat>)
    returns (after: Chain)
    requires |vs| == |plan|
    requires forall a :: Planned(vs, plan, a) <= Get(chain.stakes, a)
    ensures DispatchAll(chain, UndelegateMessages(vs, plan)) == Success(after)
    ensures after == chain.(stakes := after.stakes)
    ensures Staked(after) + Sum(plan) == Staked(chain)
    ensures forall a :: Get(after.stakes, a) + Planned(vs, plan, a) == Get(chain.stakes, a)
  {
    if vs == [] {
      after := chain;
    } else {
      var n := |vs| - 1;
      forall a ensures Planned(vs[..n], plan[..n], a) <= Get(chain.stakes, a) {
        assert Planned(vs[..n], plan[..n], a) <= Planned(vs, plan, a);
      }
      var before := DispatchUndelegations(chain, vs[..n], plan[..n]);
      UndelegateMessagesLast(chain, vs, plan, n);
      if plan[n] == 0 {
        after := before;
      } else {
        var v := vs[n].address;
        assert Planned(vs, plan, v) == Planned(vs[..n], plan[..n], v) + plan[n];
        after := Dispatch(before, Undelegate(v, plan[n])).value;
        ReduceSum(before.stakes, v, plan[n]);
      }
    }
  }

  /** A plan that stays within the reported stakes stays within the stakes. */
  lemma PlannedWithin(stakes: map<Address, nat>, vs: seq<Validator>, plan: seq<nat>)
    requires |vs| == |plan| && Distinct(vs)
    requires forall i :: 0 <= i < |vs| ==> plan[i] <= Get(stakes, vs[i].address)
    ensures forall a :: Planned(vs, plan, a) <= Get(stakes, a)
  {
    forall a ensures Planned(vs, plan, a) <= Get(stakes, a) {
      if i :| 0 <= i < |vs| && vs[i].address == a {
        PlannedAt(vs, plan, i);
      } else {
        PlannedElsewhere(vs, plan, a);
      }
    }
  }

  // ---------------------------------------------------------------------------------------------
  // What the hub is told about its delegations
  // ---------------------------------------------------------------------------------------------

  /** The listed addresses with the stake that the hub has on each. */
  function Reported(stakes: map<Address, nat>, listing: seq<Address>): (vs: seq<Validator>)
    ensures |vs| == |listing|
  {
    seq(|listing|, i requires 0 <= i < |listing| => Validator(listing[i], Get(stakes, listing[i])))
  }

  /** A sorted report: all listed addresses, distinct, each with its true stake. */
  lemma ReportedSorted(stakes: map<Address, nat>, listing: seq<Address>, descending: bool)
    requires forall i, j :: 0 <= i < j < |listing| ==> listing[i] != listing[j]
    ensures var vs := SortByStake(Reported(stakes, listing), descending);
            && Distinct(vs) && |vs| == |listing|
            && Sum(Stakes(vs)) == Sum(Stakes(Reported(stakes, listing)))
            && Sorted(vs, descending)
            && (forall i :: 0 <= i < |vs| ==> vs[i].stake == Get(stakes, vs[i].address) && vs[i].address in listing)
            && (forall a :: a in listing ==> exists i :: 0 <= i < |vs| && vs[i].address == a)
  {
    var report := Reported(stakes, listing);
    var vs := SortByStake(report, descending);
    SortKeeps(report, descending);
    SortDistinct(report, descending);
    assert |multiset(vs)| == |vs| && |multiset(report)| == |report|;
    forall i | 0 <= i < |vs| ensures vs[i].stake == Get(stakes, vs[i].address) && vs[i].address in listing {
      assert vs[i] in multiset(vs);
      assert vs[i] in report;
    }
    forall a | a in listing ensures exists i :: 0 <= i < |vs| && vs[i].address == a {
      var k :| 0 <= k < |listing| && listing[k] == a;
      assert report[k] in multiset(report);
      assert report[k] in vs;
    }
  }

  /** A complete report adds up to everything that is staked. */
  lemma ReportedSum(stakes: map<Address, nat>, listing: seq<Address>)
    requires Lists(listing, stakes.Keys)
    ensures Sum(Stakes(Reported(stakes, listing))) == SumMap(stakes)
  {
    SumAlongListing(stakes, listing);
    assert Stakes(Reported(stakes, listing))
        == seq(|listing|, i requires 0 <= i < |listing| => Get(stakes, listing[i]));
  }
}
