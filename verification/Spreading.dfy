/** Which validators a bond and a closing request reach, and with how much. */
module Spreading {
  import opened Results
  import opened FixedPoint
  import opened Sums
  import opened Allocation
  import opened Sorting
  import opened Release
  import opened HubTypes
  import opened ChainModel
  import opened Plans
  import opened HubSpec
  import opened Effects

  // ---------------------------------------------------------------------------------------------
  // Bonding
  // ---------------------------------------------------------------------------------------------

  /** What a bond did to the stakes of a chain. */
  ghost predicate Spread(before: map<Address, nat>, after: map<Address, nat>, registry: seq<Address>, payment: nat,
                         vs: seq<Validator>, plan: seq<nat>, targets: seq<nat>) {
    && Reports(vs, registry, before, false)
    && |vs| == |plan| == |targets| > 0
    && Even(targets, Sum(Stakes(vs)) + payment)
    && Fills(AboveAll(targets, Stakes(vs)), payment, plan)
    && Minimax(Stakes(vs), plan)
    && Raised(before, after, vs, plan)
  }

  /**
   * Where the payment of a bond goes. The registered validators, least stake first, receive it up to the even
   * shares of what they then hold together, so that no other split leaves a smaller largest stake; the stakes
   * on other validators stay as they are.
   */
  lemma BondSpreads(w: World, kind: BondType, payment: nat, env: Env, w': World)
    returns (vs: seq<Validator>, plan: seq<nat>, targets: seq<nat>)
    requires Feasible(env, w.chain) && Execute(w, Bond(kind, payment), env) == Success(w')
    ensures Spread(w.chain.stakes, w'.chain.stakes, env.registry, payment, vs, plan, targets)
  {
    hide ActualState, CreditPayment, SortByStake, Reported, Delegations, BondMessages, DispatchAll, Stakes, Sum, Lists;
    hide Sorted, Distinct, Even, Fills, AboveAll, Minimax, Planned, Raised;
    var funded := Funded(w.chain, Bond(kind, payment));
    var synced := ActualState(w.storage, funded).value;
    var mint := CreditPayment(kind, synced, w.storage.batch.requested, payment).value.0;
    vs := SortByStake(Reported(funded.stakes, env.registry), false);
    plan := Delegations(Stakes(vs), payment).value;
    ReportedSorted(w.chain.stakes, env.registry, false);
    targets := DelegationPlan(Stakes(vs), payment, plan);
    var after := BondDispatch(funded, kind, vs, payment, mint);
    PlannedIsRaised(w.chain.stakes, after.stakes, vs, plan);
  }

  // ---------------------------------------------------------------------------------------------
  // Closing a batch
  // ---------------------------------------------------------------------------------------------

  /** What a closing request did to the stakes of a chain. */
  ghost predicate Drawn(before: map<Address, nat>, after: map<Address, nat>, listing: seq<Address>, claim: nat,
                        vs: seq<Validator>, plan: seq<nat>, targets: seq<nat>) {
    && Reports(vs, listing, before, true)
    && |vs| == |plan| == |targets| > 0
    && claim <= SumMap(before) && Even(targets, SumMap(before) - claim)
    && Fills(AboveAll(Stakes(vs), targets), claim, plan)
    && (forall i :: 0 <= i < |plan| ==> plan[i] <= vs[i].stake) && Maximin(Stakes(vs), plan)
    && Raised(after, before, vs, plan)
  }

  /** Where the coins of an undelegation come from. */
  lemma UndelegationDraws(chain: Chain, claim: nat, listing: seq<Address>, after: Chain)
    returns (vs: seq<Validator>, plan: seq<nat>, targets: seq<nat>)
    requires Lists(listing, chain.stakes.Keys) && UndelegateResponse(chain, claim, listing).Success?
    requires DispatchAll(chain, UndelegateResponse(chain, claim, listing).value) == Success(after)
    ensures Drawn(chain.stakes, after.stakes, listing, claim, vs, plan, targets)
  {
    hide SortByStake, Reported, Undelegations, Sum, SumMap, DispatchAll, UndelegateMessages, Planned, Raised;
    hide Sorted, Even, Fills, AboveAll, Maximin;
    vs := SortByStake(Reported(chain.stakes, listing), true);
    plan := Undelegations(Stakes(vs), claim).value;
    ReportedSorted(chain.stakes, listing, true);
    ReportedSum(chain.stakes, listing);
    targets := UndelegationPlan(Stakes(vs), claim, plan);
    PlannedWithin(chain.stakes, vs, plan);
    var reached := DispatchUndelegations(chain, vs, plan);
    PlannedIsRaised(after.stakes, chain.stakes, vs, plan);
  }

  /** The stakes after a closing request are those after its undelegations. */
  lemma ClosingUndelegates(w: World, user: User, amount: nat, env: Env, w': World) returns (claim: nat, after: Chain)
    requires Feasible(env, w.chain) && Execute(w, Unbond(user, amount), env) == Success(w')
    requires w.chain.now - w.storage.state.lastUnbonded > env.epochPeriod
    ensures w.storage.batch.id in w'.storage.history && claim == Value(w'.storage.history[w.storage.batch.id])
    ensures UndelegateResponse(w.chain, claim, env.listing).Success?
    ensures DispatchAll(w.chain, UndelegateResponse(w.chain, claim, env.listing).value) == Success(after)
    ensures w'.chain.stakes == after.stakes
  {
    hide ActualState, UndelegateResponse, MulFloor, Lists, SumMap, DispatchAll;
    var synced := ActualState(w.storage, w.chain).value;
    SyncFrame(w.storage, w.chain, synced);
    var st := Entered(w, synced, user, amount);
    assert EnterRequest(w.storage.(state := synced.state), user, amount).value == st;
    claim := MulFloor(st.batch.requested, st.state.rate);
    after := CloseEffect(st, w.chain, env.listing);
    DispatchSnoc(w.chain, CloseBatch(st, w.chain, env.listing).value.messages, Burn(amount));
    assert Success(w'.chain) == Dispatch(after, Burn(amount));
  }

  /**
   * Where the coins of a closing request come from. The validators with a delegation, largest stake first, lose
   * what they hold above the even shares of the rest, together exactly what the closed batch is worth, so that
   * no other way to take it leaves a larger smallest stake.
   */
  lemma CloseDraws(w: World, user: User, amount: nat, env: Env, w': World)
    returns (vs: seq<Validator>, plan: seq<nat>, targets: seq<nat>)
    requires Feasible(env, w.chain) && Execute(w, Unbond(user, amount), env) == Success(w')
    requires w.chain.now - w.storage.state.lastUnbonded > env.epochPeriod
    ensures w.storage.batch.id in w'.storage.history
    ensures Drawn(w.chain.stakes, w'.chain.stakes, env.listing, Value(w'.storage.history[w.storage.batch.id]),
                  vs, plan, targets)
  {
    hide Execute, UndelegateResponse, DispatchAll, Drawn, Value;
    var claim, after := ClosingUndelegates(w, user, amount, env, w');
    vs, plan, targets := UndelegationDraws(w.chain, claim, env.listing, after);
  }

  /** Before the epoch has passed a request leaves every stake as it is. */
  lemma EnteringDrawsNothing(w: World, user: User, amount: nat, env: Env, w': World)
    requires Feasible(env, w.chain) && Execute(w, Unbond(user, amount), env) == Success(w')
    requires w.chain.now - w.storage.state.lastUnbonded <= env.epochPeriod
    ensures w'.chain.stakes == w.chain.stakes && w'.storage.history == w.storage.history
  {
    hide Execute, ActualState, MulFloor, SumMap;
    var synced := UnbondEffect(w, user, amount, env, w');
    SyncFrame(w.storage, w.chain, synced);
  }
}
