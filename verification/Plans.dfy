/** What a plan does to the stakes of a list of validators, and what is best about it. */
module Plans {
  import opened Results
  import opened Sums
  import opened Allocation
  import opened Sorting
  import opened HubTypes
  import opened ChainModel

  /** The named validators in the given order of stake, each with what the hub holds on it. */
  ghost predicate Reports(vs: seq<Validator>, addresses: seq<Address>, stakes: map<Address, nat>, descending: bool) {
    && |vs| == |addresses| && Distinct(vs) && Sorted(vs, descending)
    && (forall i :: 0 <= i < |vs| ==> vs[i].address in addresses && vs[i].stake == Get(stakes, vs[i].address))
    && (forall a :: a in addresses ==> exists i :: 0 <= i < |vs| && vs[i].address == a)
  }

  /** The stakes after a plan: each validator of the list has its entry more, and nobody else any. */
  ghost predicate Raised(before: map<Address, nat>, after: map<Address, nat>, vs: seq<Validator>, plan: seq<nat>)
    requires |vs| == |plan|
  {
    && (forall i :: 0 <= i < |vs| ==> Get(after, vs[i].address) == Get(before, vs[i].address) + plan[i])
    && (forall a :: (forall i :: 0 <= i < |vs| ==> vs[i].address != a) ==> Get(after, a) == Get(before, a))
  }

  lemma PlannedIsRaised(before: map<Address, nat>, after: map<Address, nat>, vs: seq<Validator>, plan: seq<nat>)
    requires |vs| == |plan| && Distinct(vs)
    requires forall a :: Get(after, a) == Get(before, a) + Planned(vs, plan, a)
    ensures Raised(before, after, vs, plan)
  {
    hide Planned, Get;
    forall i | 0 <= i < |vs| ensures Get(after, vs[i].address) == Get(before, vs[i].address) + plan[i] {
      PlannedAt(vs, plan, i);
    }
    forall a | forall i :: 0 <= i < |vs| ==> vs[i].address != a ensures Get(after, a) == Get(before, a) {
      PlannedElsewhere(vs, plan, a);
    }
  }

  /** No other split of the same amount leaves a smaller largest stake. */
  ghost predicate Minimax(stakes: seq<nat>, plan: seq<nat>)
    requires |stakes| == |plan| > 0
  {
    forall other: seq<nat> :: |other| == |plan| && Sum(other) == Sum(plan) ==>
      Largest(Plus(stakes, plan)) <= Largest(Plus(stakes, other))
  }

  lemma DelegationPlan(stakes: seq<nat>, amount: nat, plan: seq<nat>) returns (targets: seq<nat>)
    requires Delegations(stakes, amount) == Success(plan)
    ensures |targets| == |stakes| == |plan| > 0 && Even(targets, Sum(stakes) + amount)
    ensures Fills(AboveAll(targets, stakes), amount, plan) && Minimax(stakes, plan)
  {
    hide Sum, Fills, Even, Largest, Plus, AboveAll;
    targets := Targets(Sum(stakes) + amount, |stakes|);
    TargetsEven(Sum(stakes) + amount, |stakes|);
    DelegationsIff(stakes, amount, targets, plan);
    DelegationsConserve(stakes, amount);
    forall other: seq<nat> | |other| == |plan| && Sum(other) == Sum(plan)
      ensures Largest(Plus(stakes, plan)) <= Largest(Plus(stakes, other))
    {
      DelegationMinimax(stakes, amount, other);
    }
  }

  /** No other way to take the same amount leaves a larger smallest stake. */
  ghost predicate Maximin(stakes: seq<nat>, plan: seq<nat>)
    requires |stakes| == |plan| > 0
    requires forall i :: 0 <= i < |plan| ==> plan[i] <= stakes[i]
  {
    forall other: seq<nat> ::
      |other| == |plan| && Sum(other) == Sum(plan) && (forall i :: 0 <= i < |other| ==> other[i] <= stakes[i]) ==>
        Smallest(Minus(stakes, other)) <= Smallest(Minus(stakes, plan))
  }

  lemma UndelegationPlan(stakes: seq<nat>, amount: nat, plan: seq<nat>) returns (targets: seq<nat>)
    requires Undelegations(stakes, amount) == Success(plan)
    ensures |targets| == |stakes| == |plan| > 0 && amount <= Sum(stakes) && Even(targets, Sum(stakes) - amount)
    ensures Fills(AboveAll(stakes, targets), amount, plan)
    ensures (forall i :: 0 <= i < |plan| ==> plan[i] <= stakes[i]) && Maximin(stakes, plan)
  {
    hide Sum, Fills, Even, Smallest, Minus, AboveAll;
    UndelegationsConserve(stakes, amount);
    targets := Targets(Sum(stakes) - amount, |stakes|);
    TargetsEven(Sum(stakes) - amount, |stakes|);
    UndelegationsIff(stakes, amount, targets, plan);
    forall other: seq<nat> | |other| == |plan| && Sum(other) == Sum(plan)
                             && forall i :: 0 <= i < |other| ==> other[i] <= stakes[i]
      ensures Smallest(Minus(stakes, other)) <= Smallest(Minus(stakes, plan))
    {
      UndelegationMaximin(stakes, amount, other);
    }
  }
}
