/** The validators registry and the removal of a validator together with its stake. */
module Registry {
  import opened Results
  import opened FixedPoint
  import opened Sums
  import opened Allocation
  import opened Sorting
  import opened HubTypes
  import opened ChainModel
  import opened Plans

  /**
   * What the chain says when a removal asks for the hub's delegation to a validator: whether the query
   * works at all, and how much of the delegation may be moved now.
   */
  datatype Lookup = Lookup(fails: bool, canRedelegate: nat)

  function RedelegateMessages(source: Address, vs: seq<Validator>, plan: seq<nat>): (ms: seq<Message>)
    requires |vs| == |plan|
  {
    if vs == [] then []
    else
      var n := |vs| - 1;
      RedelegateMessages(source, vs[..n], plan[..n])
      + if plan[n] == 0 then [] else [Redelegate(source, vs[n].address, plan[n])]
  }

  datatype Removal = Removal(validators: set<Address>, messages: seq<Message>)

  /** `remove_validator`: the remaining registry and the redelegations the hub is asked to emit. */
  function RemovalOf(validators: set<Address>, stakes: map<Address, nat>, address: Address, listing: seq<Address>,
                     lookup: Lookup): Result<Removal> {
    var rest := validators - {address};
    if rest == {} then Failure(LastValidator)
    else if lookup.fails || address !in stakes || lookup.canRedelegate < stakes[address] then Success(Removal(rest, []))
    else
      var vs := SortByStake(Reported(stakes, listing), false);
      var plan :- Delegations(Stakes(vs), stakes[address]);
      Success(Removal(rest, RedelegateMessages(address, vs, plan)))
  }

  /** The registry together with the chain on which the hub's stake lives. */
  datatype Registered = Registered(validators: set<Address>, chain: Chain)

  /** The removal as a transaction; a failure leaves everything as it was. */
  function Remove(r: Registered, address: Address, listing: seq<Address>, lookup: Lookup): Result<Registered> {
    var removal :- RemovalOf(r.validators, r.chain.stakes, address, listing, lookup);
    var chain :- DispatchAll(r.chain, removal.messages);
    Success(Registered(removal.validators, chain))
  }

  // ---------------------------------------------------------------------------------------------
  // Where the stake goes
  // ---------------------------------------------------------------------------------------------

  lemma RedelegateMessagesLast(chain: Chain, source: Address, vs: seq<Validator>, plan: seq<nat>, n: nat)
    requires |vs| == |plan| == n + 1
    ensures var before := DispatchAll(chain, RedelegateMessages(source, vs[..n], plan[..n]));
            DispatchAll(chain, RedelegateMessages(source, vs, plan))
            == if plan[n] == 0 then before else AndThen(before, Redelegate(source, vs[n].address, plan[n]))
  {
    var ms := RedelegateMessages(source, vs[..n], plan[..n]);
    assert ms + [] == ms;
    DispatchSnoc(chain, ms, Redelegate(source, vs[n].address, plan[n]));
  }

  lemma RedelegateStep(before: Chain, source: Address, target: Address, amount: nat) returns (after: Chain)
    requires 0 < amount <= Get(before.stakes, source) && source != target
    ensures Dispatch(before, Redelegate(source, target, amount)) == Success(after)
    ensures after == before.(stakes := after.stakes) && Staked(after) == Staked(before)
    ensures Get(after.stakes, source) == Get(before.stakes, source) - amount
    ensures forall a :: a != source ==> Get(after.stakes, a) == Get(before.stakes, a) + if target == a then amount else 0
    ensures source in before.stakes && amount == before.stakes[source] ==> source !in after.stakes
  {
    after := Dispatch(before, Redelegate(source, target, amount)).value;
    var reduced := Reduce(before.stakes, source, amount);
    ReduceSum(before.stakes, source, amount);
    SumMapPut(reduced, target, Get(reduced, target) + amount);
  }

  /** Redelegating a plan moves exactly its sum away from the source, to each target its entry. */
  lemma {:induction false} DispatchRedelegations(chain: Chain, source: Address, vs: seq<Validator>, plan: seq<nat>)
    returns (after: Chain)
    requires |vs| == |plan| && Sum(plan) <= Get(chain.stakes, source)
    requires forall i :: 0 <= i < |vs| ==> vs[i].address != source
    ensures DispatchAll(chain, RedelegateMessages(source, vs, plan)) == Success(after)
    ensures after == chain.(stakes := after.stakes) && Staked(after) == Staked(chain)
    ensures Get(after.stakes, source) == Get(chain.stakes, source) - Sum(plan)
    ensures forall a :: a != source ==> Get(after.stakes, a) == Get(chain.stakes, a) + Planned(vs, plan, a)
    ensures source in after.stakes ==> source in chain.stakes && (Sum(plan) > 0 ==> after.stakes[source] > 0)
  {
    if vs == [] {
      after := chain;
    } else {
      hide Dispatch, DispatchAll, RedelegateMessages, SumMap, Get;
      var n := |vs| - 1;
      assert Sum(plan) == Sum(plan[..n]) + plan[n];
      var before := DispatchRedelegations(chain, source, vs[..n], plan[..n]);
      RedelegateMessagesLast(chain, source, vs, plan, n);
      if plan[n] == 0 {
        after := before;
      } else {
        after := RedelegateStep(before, source, vs[n].address, plan[n]);
        assert source in before.stakes;
      }
    }
  }

  /** A redelegation away from the source, of some coins, to a listed validator. */
  ghost predicate Aimed(m: Message, source: Address, vs: seq<Validator>) {
    m.Redelegate? && m.source == source && m.amount > 0 && exists k :: 0 <= k < |vs| && vs[k].address == m.target
  }

  ghost predicate AllAimed(ms: seq<Message>, source: Address, vs: seq<Validator>) {
    && (forall i :: 0 <= i < |ms| ==> Aimed(ms[i], source, vs))
    && (forall i, j :: 0 <= i < j < |ms| ==> ms[i].target != ms[j].target)
  }

  lemma AimedSnoc(ms: seq<Message>, source: Address, vs: seq<Validator>, v: Validator, amount: nat)
    requires AllAimed(ms, source, vs) && forall k :: 0 <= k < |vs| ==> vs[k].address != v.address
    ensures AllAimed(ms, source, vs + [v])
    ensures amount > 0 ==> AllAimed(ms + [Redelegate(source, v.address, amount)], source, vs + [v])
  {
    forall i | 0 <= i < |ms| ensures Aimed(ms[i], source, vs + [v]) && ms[i].target != v.address {
      assert Aimed(ms[i], source, vs);
      var k :| 0 <= k < |vs| && vs[k].address == ms[i].target;
      assert (vs + [v])[k].address == ms[i].target;
    }
    assert (vs + [v])[|vs|].address == v.address;
  }

  /** Every redelegation goes from the removed validator to a listed one, and no two to the same one. */
  lemma {:induction false} RedelegationTargets(source: Address, vs: seq<Validator>, plan: seq<nat>)
    requires |vs| == |plan| && Distinct(vs)
    ensures AllAimed(RedelegateMessages(source, vs, plan), source, vs)
  {
    if vs != [] {
      var n := |vs| - 1;
      RedelegationTargets(source, vs[..n], plan[..n]);
      var init := RedelegateMessages(source, vs[..n], plan[..n]);
      AimedSnoc(init, source, vs[..n], vs[n], plan[n]);
      assert vs[..n] + [vs[n]] == vs && init + [] == init;
    }
  }

  ghost predicate FullyRedelegable(r: Registered, address: Address, lookup: Lookup) {
    !lookup.fails && address in r.chain.stakes && r.chain.stakes[address] <= lookup.canRedelegate
  }

  /**
   * Removing a validator whose whole stake may be moved takes all of it away, gives it to the remaining
   * validators and to nobody else, least stake first and up to the even shares of what they then hold together,
   * with the smallest possible largest stake.
   */
  lemma RemovalMovesAllStake(r: Registered, address: Address, listing: seq<Address>, lookup: Lookup, r': Registered)
    returns (vs: seq<Validator>, plan: seq<nat>, targets: seq<nat>)
    requires Lists(listing, r.validators - {address}) && FullyRedelegable(r, address, lookup)
    requires Remove(r, address, listing, lookup) == Success(r')
    ensures r'.validators == r.validators - {address} && r'.validators != {}
    ensures Reports(vs, listing, r.chain.stakes, false) && |vs| == |plan| == |targets| > 0
    ensures Even(targets, Sum(Stakes(vs)) + r.chain.stakes[address])
    ensures Fills(AboveAll(targets, Stakes(vs)), r.chain.stakes[address], plan) && Minimax(Stakes(vs), plan)
    ensures r'.chain == r.chain.(stakes := r'.chain.stakes) && Staked(r'.chain) == Staked(r.chain)
    ensures Get(r'.chain.stakes, address) == 0
    ensures Raised(r.chain.stakes - {address}, r'.chain.stakes, vs, plan)
  {
    hide Sum, Sorted, Even, AboveAll, Minimax, Raised, SortByStake, Reported, Delegations, SumMap, Planned;
    var amount := r.chain.stakes[address];
    vs := SortByStake(Reported(r.chain.stakes, listing), false);
    plan := Delegations(Stakes(vs), amount).value;
    targets := RemovalPlan(r, address, listing, amount, vs, plan);
    var after := DispatchRedelegations(r.chain, address, vs, plan);
    PlannedElsewhere(vs, plan, address);
    assert forall a :: Get(after.stakes, a) == Get(r.chain.stakes - {address}, a) + Planned(vs, plan, a);
    PlannedIsRaised(r.chain.stakes - {address}, after.stakes, vs, plan);
  }

  lemma RemovalPlan(r: Registered, address: Address, listing: seq<Address>, amount: nat, vs: seq<Validator>,
                    plan: seq<nat>)
    returns (targets: seq<nat>)
    requires Lists(listing, r.validators - {address})
    requires vs == SortByStake(Reported(r.chain.stakes, listing), false)
    requires Delegations(Stakes(vs), amount) == Success(plan)
    ensures Reports(vs, listing, r.chain.stakes, false) && |vs| == |plan| == |targets| > 0
    ensures forall i :: 0 <= i < |vs| ==> vs[i].address != address && vs[i].address in r.validators
    ensures Even(targets, Sum(Stakes(vs)) + amount) && Fills(AboveAll(targets, Stakes(vs)), amount, plan)
    ensures Sum(plan) == amount && Minimax(Stakes(vs), plan)
  {
    hide SortByStake, Reported, Delegations, Sum, Even, AboveAll, Minimax, Sorted;
    ReportedSorted(r.chain.stakes, listing, false);
    targets := DelegationPlan(Stakes(vs), amount, plan);
  }

  /** The redelegations of any removal go to distinct validators that stay registered. */
  lemma RemovalTargets(r: Registered, address: Address, listing: seq<Address>, lookup: Lookup, removal: Removal)
    requires Lists(listing, r.validators - {address})
    requires RemovalOf(r.validators, r.chain.stakes, address, listing, lookup) == Success(removal)
    ensures var ms := removal.messages;
            && (forall i :: 0 <= i < |ms| ==>
                  ms[i].Redelegate? && ms[i].source == address && ms[i].amount > 0
                  && ms[i].target in removal.validators && ms[i].target != address)
            && (forall i, j :: 0 <= i < j < |ms| ==> ms[i].target != ms[j].target)
  {
    if FullyRedelegable(r, address, lookup) {
      var vs := SortByStake(Reported(r.chain.stakes, listing), false);
      ReportedSorted(r.chain.stakes, listing, false);
      var plan := Delegations(Stakes(vs), r.chain.stakes[address]).value;
      RedelegationTargets(address, vs, plan);
      forall i | 0 <= i < |removal.messages|
        ensures Aimed(removal.messages[i], address, vs) && removal.messages[i].target in listing
      {
        assert Aimed(removal.messages[i], address, vs);
      }
    }
  }

  /**
   * A stake that may not be moved now is left alone: the validator leaves the registry, no message is emitted,
   * and the chain stays as it is.
   */
  lemma RemovalLeavesStake(r: Registered, address: Address, listing: seq<Address>, lookup: Lookup)
    requires r.validators - {address} != {}
    requires lookup.fails || address !in r.chain.stakes || lookup.canRedelegate < r.chain.stakes[address]
    ensures RemovalOf(r.validators, r.chain.stakes, address, listing, lookup)
            == Success(Removal(r.validators - {address}, []))
    ensures Remove(r, address, listing, lookup) == Success(r.(validators := r.validators - {address}))
  {
  }

  /** The last validator cannot be removed, whatever the chain says about its stake. */
  lemma LastStays(r: Registered, address: Address, listing: seq<Address>, lookup: Lookup)
    requires r.validators <= {address}
    ensures Remove(r, address, listing, lookup) == Failure(LastValidator)
  {
    assert r.validators - {address} == {};
  }

  // ---------------------------------------------------------------------------------------------
  // Runs of the registry
  // ---------------------------------------------------------------------------------------------

  datatype RegistryStep =
    | AddOne(address: Address)
    | RemoveOne(address: Address, listing: seq<Address>, lookup: Lookup)

  ghost function Apply(r: Registered, step: RegistryStep): Registered {
    match step
    case AddOne(address) => r.(validators := r.validators + {address})
    case RemoveOne(address, listing, lookup) =>
      if !Lists(listing, r.validators - {address}) then r
      else
        var next := Remove(r, address, listing, lookup);
        if next.Success? then next.value else r
  }

  ghost function Run(r: Registered, steps: seq<RegistryStep>): Registered
    decreases |steps|
  {
    if steps == [] then r else Run(Apply(r, steps[0]), steps[1..])
  }

  lemma StepConserves(r: Registered, step: RegistryStep)
    ensures r.validators != {} ==> Apply(r, step).validators != {}
    ensures Apply(r, step).chain == r.chain.(stakes := Apply(r, step).chain.stakes)
    ensures Staked(Apply(r, step).chain) == Staked(r.chain)
  {
    if step.RemoveOne? && Lists(step.listing, r.validators - {step.address}) {
      var next := Remove(r, step.address, step.listing, step.lookup);
      if next.Success? && FullyRedelegable(r, step.address, step.lookup) {
        var vs, plan, targets := RemovalMovesAllStake(r, step.address, step.listing, step.lookup, next.value);
      }
    }
  }

  /** After a step an added validator is registered, and one whose removal went through is not. */
  lemma StepRegisters(r: Registered, step: RegistryStep, a: Address)
    ensures step.AddOne? ==> (a in Apply(r, step).validators <==> a in r.validators || a == step.address)
    ensures step.RemoveOne? && Lists(step.listing, r.validators - {step.address}) ==>
              if Remove(r, step.address, step.listing, step.lookup).Success? then
                a in Apply(r, step).validators <==> a in r.validators && a != step.address
              else Apply(r, step) == r
  {
  }

  /** No run of additions and removals empties a registry, and none changes the total stake of the hub. */
  lemma {:induction false} RunConserves(r: Registered, steps: seq<RegistryStep>)
    ensures r.validators != {} ==> Run(r, steps).validators != {}
    ensures Run(r, steps).chain == r.chain.(stakes := Run(r, steps).chain.stakes)
    ensures Staked(Run(r, steps).chain) == Staked(r.chain)
    decreases |steps|
  {
    if steps != [] {
      StepConserves(r, steps[0]);
      RunConserves(Apply(r, steps[0]), steps[1..]);
    }
  }

  /** The redelegations of a removal are never refused. */
  lemma RedelegationsAccepted(r: Registered, address: Address, listing: seq<Address>, amount: nat)
    requires Lists(listing, r.validators - {address}) && amount <= Get(r.chain.stakes, address)
    ensures var vs := SortByStake(Reported(r.chain.stakes, listing), false);
            var plan := Delegations(Stakes(vs), amount);
            && |vs| == |listing|
            && (plan.Success? ==> DispatchAll(r.chain, RedelegateMessages(address, vs, plan.value)).Success?)
  {
    hide SortByStake, Reported, Delegations, Sum, Sorted, SumMap, DispatchAll, RedelegateMessages, Even, AboveAll;
    var vs := SortByStake(Reported(r.chain.stakes, listing), false);
    ReportedSorted(r.chain.stakes, listing, false);
    var plan := Delegations(Stakes(vs), amount);
    if plan.Success? {
      var targets := RemovalPlan(r, address, listing, amount, vs, plan.value);
      var after := DispatchRedelegations(r.chain, address, vs, plan.value);
    }
  }

  /** A removal of a fully redelegable validator can only fail for lack of validators or of width. */
  lemma RemovalNeverStuck(r: Registered, address: Address, listing: seq<Address>, lookup: Lookup)
    requires Lists(listing, r.validators - {address})
    ensures var next := Remove(r, address, listing, lookup);
            next.Failure? ==> (next.error == LastValidator && r.validators <= {address}) || next.error == Overflow
  {
    hide SortByStake, Reported, Stakes, Sum, RedelegateMessages, FillPlan;
    var rest := r.validators - {address};
    if rest != {} && FullyRedelegable(r, address, lookup) {
      RedelegationsAccepted(r, address, listing, r.chain.stakes[address]);
      var a :| a in rest;
      assert a in listing;
    }
  }

  // ---------------------------------------------------------------------------------------------
  // The contract
  // ---------------------------------------------------------------------------------------------

  /** One redelegation per validator that the plan gives something. */
  method PushRedelegate(source: Address, vs: seq<Validator>, plan: seq<nat>) returns (messages: seq<Message>)
    requires |vs| == |plan|
    ensures messages == RedelegateMessages(source, vs, plan)
  {
    messages := [];
    for i := 0 to |plan|
      invariant messages == RedelegateMessages(source, vs[..i], plan[..i])
    {
      assert vs[..i + 1][..i] == vs[..i] && plan[..i + 1][..i] == plan[..i];
      if plan[i] != 0 {
        messages := messages + [Redelegate(source, vs[i].address, plan[i])];
      }
    }
    assert vs[..|plan|] == vs && plan[..|plan|] == plan;
  }

  class ValidatorsRegistry {
    var validators: set<Address>
    var chain: Chain

    ghost function Value(): Registered
      reads this
    {
      Registered(validators, chain)
    }

    constructor (initial: seq<Address>, chain: Chain)
      ensures validators == (set a | a in initial) && this.chain == chain
    {
      this.chain := chain;
      validators := {};
      new;
      for i := 0 to |initial|
        invariant validators == (set a | a in initial[..i])
        invariant this.chain == chain
      {
        validators := validators + {initial[i]};
        assert initial[..i + 1] == initial[..i] + [initial[i]];
      }
      assert initial[..|initial|] == initial;
    }

    method AddValidator(address: Address)
      modifies this`validators
      ensures Value() == Apply(old(Value()), AddOne(address))
      ensures validators == old(validators) + {address} && address in validators
    {
      validators := validators + {address};
    }

    /** Looks every registered validator up among the hub's delegations. */
    method QueryValidators(listing: seq<Address>) returns (vs: seq<Validator>)
      ensures vs == Reported(chain.stakes, listing)
    {
      vs := [];
      for i := 0 to |listing|
        invariant vs == Reported(chain.stakes, listing)[..i]
      {
        var stake := if listing[i] in chain.stakes then chain.stakes[listing[i]] else 0;
        vs := vs + [Validator(listing[i], stake)];
      }
    }

    method RemoveHandler(address: Address, listing: seq<Address>, lookup: Lookup) returns (r: Result<seq<Message>>)
      modifies this`validators
      ensures var spec := RemovalOf(old(validators), chain.stakes, address, listing, lookup);
              if spec.Success? then r == Success(spec.value.messages) && validators == spec.value.validators
              else r == Failure(spec.error)
    {
      validators := validators - {address};
      if validators == {} {
        return Failure(LastValidator);
      }
      var report := QueryValidators(listing);
      var vs := SortByStake(report, false);
      if lookup.fails || address !in chain.stakes {
        return Success([]);
      }
      var amount := chain.stakes[address];
      if lookup.canRedelegate < amount {
        return Success([]);
      }
      var delegations := CalculateDelegations(amount, vs);
      if delegations.Failure? {
        return Failure(delegations.error);
      }
      var messages := PushRedelegate(address, vs, delegations.value);
      return Success(messages);
    }

    /** The whole transaction: the host carries the messages out, or undoes what the handler stored. */
    method RemoveValidator(address: Address, listing: seq<Address>, lookup: Lookup) returns (r: Result<()>)
      modifies this
      ensures var spec := Remove(old(Value()), address, listing, lookup);
              if spec.Success? then r == Success(()) && Value() == spec.value
              else r == Failure(spec.error) && Value() == old(Value())
    {
      var before := validators;
      var messages := RemoveHandler(address, listing, lookup);
      if messages.Failure? {
        validators := before;
        return Failure(messages.error);
      }
      var after := DispatchAll(chain, messages.value);
      if after.Failure? {
        validators := before;
        return Failure(after.error);
      }
      chain := after.value;
      return Success(());
    }
  }
}
