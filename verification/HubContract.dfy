/** The hub contract with its storage updated in place, proved against the transaction functions. */
module HubContract {
  import opened Results
  import opened FixedPoint
  import opened Sums
  import opened Allocation
  import opened Sorting
  import opened Release
  import opened HubTypes
  import opened ChainModel
  import opened HubSpec
  import opened ClaimLedger

  // ---------------------------------------------------------------------------------------------
  // Facts for the loops
  // ---------------------------------------------------------------------------------------------

  /** The payouts that are still to be looked at. */
  ghost function PayoutsIn(wait: map<Claim, nat>, history: map<nat, UnbondHistory>, todo: set<Claim>): map<Claim, nat> {
    map c | c in todo && c in wait && IsReleased(history, c.batch) :: MulFloor(wait[c], history[c.batch].withdrawRate)
  }

  lemma PayoutsInRemove(wait: map<Claim, nat>, history: map<nat, UnbondHistory>, todo: set<Claim>, c: Claim)
    requires c in todo && c in wait
    ensures SumMap(PayoutsIn(wait, history, todo))
            == SumMap(PayoutsIn(wait, history, todo - {c}))
               + if IsReleased(history, c.batch) then MulFloor(wait[c], history[c.batch].withdrawRate) else 0
  {
    var all, rest := PayoutsIn(wait, history, todo), PayoutsIn(wait, history, todo - {c});
    if IsReleased(history, c.batch) {
      SumMapRemove(all, c);
      assert all - {c} == rest;
    } else {
      assert all == rest;
    }
  }

  lemma NextMatured(history: map<nat, UnbondHistory>, lo: nat, i: nat, time: nat)
    requires lo <= i && forall j :: lo <= j < i ==> j in history
    requires Matured(history, i, time)
    ensures MaturedEnd(history, i, time) == MaturedEnd(history, i + 1, time)
    ensures From(history, i + 1) < From(history, i)
    ensures TotalValue(Batches(history, lo, i + 1)) == TotalValue(Batches(history, lo, i)) + Value(history[i])
  {
    assert i in From(history, i) && i !in From(history, i + 1);
    assert Batches(history, lo, i + 1)[..i - lo] == Batches(history, lo, i);
  }

  /** One message per validator that the plan gives something. */
  method PushDelegate(validators: seq<Validator>, plan: seq<nat>) returns (messages: seq<Message>)
    requires |validators| == |plan|
    ensures messages == DelegateMessages(validators, plan)
  {
    messages := [];
    for i := 0 to |plan|
      invariant messages == DelegateMessages(validators[..i], plan[..i])
    {
      assert validators[..i + 1][..i] == validators[..i] && plan[..i + 1][..i] == plan[..i];
      if plan[i] != 0 {
        messages := messages + [Delegate(validators[i].address, plan[i])];
      }
    }
    assert validators[..|plan|] == validators && plan[..|plan|] == plan;
  }

  /** One message per validator that the plan gives something. */
  method PushUndelegate(validators: seq<Validator>, plan: seq<nat>) returns (messages: seq<Message>)
    requires |validators| == |plan|
    ensures messages == UndelegateMessages(validators, plan)
  {
    messages := [];
    for i := 0 to |plan|
      invariant messages == UndelegateMessages(validators[..i], plan[..i])
    {
      assert validators[..i + 1][..i] == validators[..i] && plan[..i + 1][..i] == plan[..i];
      if plan[i] != 0 {
        messages := messages + [Undelegate(validators[i].address, plan[i])];
      }
    }
    assert validators[..|plan|] == validators && plan[..|plan|] == plan;
  }

  class Hub {
    var state: State
    var batch: CurrentBatch
    var history: map<nat, UnbondHistory>
    var wait: map<Claim, nat>
    var chain: Chain

    ghost function Stored(): Storage
      reads this
    {
      Storage(state, batch, history, wait)
    }

    ghost function Value(): World
      reads this
    {
      World(Stored(), chain)
    }

    constructor Instantiate(chain: Chain)
      ensures Value() == World(HubSpec.Instantiate(chain.now), chain)
    {
      state := State(ONE, 0, 0, chain.now, 0);
      batch := CurrentBatch(1, 0);
      history := map[];
      wait := map[];
      this.chain := chain;
    }

    // -------------------------------------------------------------------------------------------
    // Exchange rate and slashing
    // -------------------------------------------------------------------------------------------

    method QueryActualState(listing: seq<Address>) returns (r: Result<Synced>)
      requires Lists(listing, chain.stakes.Keys)
      ensures r == ActualState(Stored(), chain)
    {
      if chain.stakes == map[] {
        return Success(Synced(state, 0));
      }
      var report := Reported(chain.stakes, listing);
      ReportedSum(chain.stakes, listing);
      var total := TotalStake(report);
      if total.Failure? {
        return Failure(total.error);
      }
      if state.bonded == 0 {
        return Success(Synced(state, 0));
      }
      var current := state;
      if current.bonded > total.value {
        current := current.(bonded := total.value);
      }
      var rate := ExchangeRate(current.bonded, chain.supply, batch.requested);
      if rate.Failure? {
        return Failure(rate.error);
      }
      return Success(Synced(current.(rate := rate.value), chain.supply));
    }

    method Slashing(listing: seq<Address>) returns (r: Result<Synced>)
      requires Lists(listing, chain.stakes.Keys)
      modifies this`state
      ensures r == ActualState(old(Stored()), chain)
      ensures state == if r.Success? then r.value.state else old(state)
    {
      r := QueryActualState(listing);
      if r.Success? {
        state := r.value.state;
      }
    }

    // -------------------------------------------------------------------------------------------
    // Bonding
    // -------------------------------------------------------------------------------------------

    method ExecuteBond(kind: BondType, payment: nat, env: Env) returns (r: Result<seq<Message>>)
      requires Feasible(env, chain)
      modifies this`state
      ensures var spec := BondResponse(old(Stored()), chain, kind, payment, env.registry);
              if spec.Success? then r == Success(spec.value.messages) && Stored() == spec.value.storage
              else r == Failure(spec.error)
    {
      hide ActualState, CreditPayment, Delegations, DelegateMessages, SortByStake, Reported, Lists;
      if payment == 0 {
        return Failure(NoFunds);
      }
      var sync := Slashing(env.listing);
      if sync.Failure? {
        return Failure(sync.error);
      }
      var credited := CreditPayment(kind, sync.value, batch.requested, payment);
      if credited.Failure? {
        return Failure(credited.error);
      }
      state := credited.value.1;
      var validators := SortByStake(Reported(chain.stakes, env.registry), false);
      var delegations := CalculateDelegations(payment, validators);
      if delegations.Failure? {
        return Failure(delegations.error);
      }
      var messages := PushDelegate(validators, delegations.value);
      assert messages + [] == messages;
      if kind.StAtom? {
        messages := messages + [Mint(credited.value.0)];
      }
      return Success(messages);
    }

    // -------------------------------------------------------------------------------------------
    // Unbonding
    // -------------------------------------------------------------------------------------------

    method UndelegateClaim(claim: nat, listing: seq<Address>) returns (r: Result<seq<Message>>)
      ensures r == UndelegateResponse(chain, claim, listing)
    {
      var validators := SortByStake(Reported(chain.stakes, listing), true);
      var undelegations, passes := CalculateUndelegations(claim, validators);
      if undelegations.Failure? {
        return Failure(undelegations.error);
      }
      var messages := PushUndelegate(validators, undelegations.value);
      return Success(messages);
    }

    /** Works on the state and the batch that the caller has loaded, and stores the closed batch. */
    method ProcessUndelegations(current: State, open: CurrentBatch, listing: seq<Address>)
      returns (r: Result<seq<Message>>, newState: State, newBatch: CurrentBatch)
      modifies this`history
      ensures var spec := CloseBatch(old(Stored()).(state := current, batch := open), chain, listing);
              if spec.Success? then
                r == Success(spec.value.messages) && spec.value.storage == Storage(newState, newBatch, history, wait)
              else r == Failure(spec.error)
    {
      newState, newBatch := current, open;
      var claim := MulFloor(open.requested, current.rate);
      if claim > MAX_UINT128 {
        return Failure(Overflow), newState, newBatch;
      }
      r := UndelegateClaim(claim, listing);
      if r.Failure? {
        return;
      }
      if claim > current.bonded {
        return Failure(BondedTooSmall), newState, newBatch;
      }
      newState := newState.(bonded := current.bonded - claim);
      history := history[open.id := UnbondHistory(open.id, chain.now, open.requested, current.rate, current.rate, false)];
      if open.id + 1 > MAX_UINT64 {
        return Failure(Overflow), newState, newBatch;
      }
      newBatch := CurrentBatch(open.id + 1, 0);
      newState := newState.(lastUnbonded := chain.now);
    }

    method StoreUnbondWaitList(b: nat, user: User, amount: nat) returns (r: Result<()>)
      modifies this`wait
      ensures var claim, sum := Claim(user, b), Get(old(wait), Claim(user, b)) + amount;
              if sum <= MAX_UINT128 then r == Success(()) && wait == old(wait)[claim := sum]
              else r == Failure(Overflow)
    {
      var claim := Claim(user, b);
      var before := if claim in wait then wait[claim] else 0;
      if before + amount > MAX_UINT128 {
        return Failure(Overflow);
      }
      wait := wait[claim := before + amount];
      return Success(());
    }

    method ExecuteUnbond(user: User, amount: nat, env: Env) returns (r: Result<seq<Message>>)
      requires Feasible(env, chain)
      modifies this`state, this`batch, this`history, this`wait
      ensures var spec := UnbondResponse(old(Stored()), chain, user, amount, env);
              if spec.Success? then r == Success(spec.value.messages) && Stored() == spec.value.storage
              else r == Failure(spec.error)
    {
      hide ActualState, CloseBatch;
      var current := batch;
      var sync := Slashing(env.listing);
      if sync.Failure? {
        return Failure(sync.error);
      }
      var newState := sync.value.state;
      if current.requested + amount > MAX_UINT128 {
        return Failure(Overflow);
      }
      current := current.(requested := current.requested + amount);
      var stored := StoreUnbondWaitList(current.id, user, amount);
      if stored.Failure? {
        return Failure(stored.error);
      }
      if chain.now < newState.lastUnbonded {
        return Failure(Overflow);
      }
      var messages := [];
      if chain.now - newState.lastUnbonded > env.epochPeriod {
        var undelegated;
        undelegated, newState, current := ProcessUndelegations(newState, current, env.listing);
        if undelegated.Failure? {
          return Failure(undelegated.error);
        }
        messages := undelegated.value;
      }
      batch := current;
      state := newState;
      assert messages == [] ==> messages + [Burn(amount)] == [Burn(amount)];
      return Success(messages + [Burn(amount)]);
    }

    // -------------------------------------------------------------------------------------------
    // Releasing and withdrawing
    // -------------------------------------------------------------------------------------------

    method CalculateNewlyAddedUnbondedAmount(lastProcessed: nat, time: nat) returns (total: nat, count: nat)
      ensures MaturedEnd(history, lastProcessed + 1, time) == lastProcessed + 1 + count
      ensures total == TotalValue(Batches(history, lastProcessed + 1, lastProcessed + 1 + count))
    {
      total, count := 0, 0;
      ghost var lo := lastProcessed + 1;
      var i := lastProcessed + 1;
      while true
        invariant i == lo + count
        invariant forall j :: lo <= j < i ==> j in history
        invariant MaturedEnd(history, i, time) == MaturedEnd(history, lo, time)
        invariant total == TotalValue(Batches(history, lo, i))
        decreases From(history, i)
      {
        if i !in history || history[i].time > time || history[i].released {
          break;
        }
        NextMatured(history, lo, i, time);
        total := total + MulFloor(history[i].amount, history[i].withdrawRate);
        count := count + 1;
        i := i + 1;
      }
    }

    /** The second loop: it rewrites the history while it walks over it, and meets the batches of the first. */
    method ReleaseBatches(current: State, time: nat, total: nat, slashed: SignedInt) returns (r: Result<State>)
      modifies this`history
      ensures var lo := current.lastProcessed + 1;
              var hi := MaturedEnd(old(history), lo, time);
              var spec := Reprice(old(history), lo, hi, total, slashed);
              if spec.Success? then
                r == Success(current.(lastProcessed := hi - 1)) && history == spec.value
              else r == Failure(spec.error)
    {
      hide MaturedEnd, NewWithdrawRate;
      ghost var before, lo := history, current.lastProcessed + 1;
      ghost var hi := MaturedEnd(before, lo, time);
      var lastProcessed, next := current.lastProcessed, current.lastProcessed + 1;
      while true
        invariant lo <= next <= hi && lastProcessed == next - 1
        invariant Reprice(before, lo, next, total, slashed) == Success(history)
        decreases hi - next
      {
        RepriceEffect(before, lo, next, total, slashed);
        if next !in history || history[next].time > time || history[next].released {
          break;
        }
        var b := history[next];
        var rate := NewWithdrawRate(b.amount, b.withdrawRate, total, slashed);
        if rate.Failure? {
          RepriceFails(before, lo, next, hi, total, slashed);
          return Failure(rate.error);
        }
        history := history[next := b.(withdrawRate := rate.value, released := true)];
        lastProcessed := next;
        next := next + 1;
      }
      return Success(current.(lastProcessed := lastProcessed));
    }

    method ProcessWithdrawRate(time: nat, balance: nat) returns (r: Result<()>)
      modifies this`history, this`state
      ensures var spec := ReleaseMatured(old(Stored()), time, balance);
              if spec.Success? then r == Success(()) && Stored() == spec.value else r == Failure(spec.error)
    {
      hide MaturedEnd, Reprice, TotalValue, Batches;
      var total, count := CalculateNewlyAddedUnbondedAmount(state.lastProcessed, time);
      if count < 1 {
        return Success(());
      }
      if total > MAX_UINT128 {
        return Failure(Overflow);
      }
      var gain := FromSubtraction(balance, state.prevBalance).magnitude;
      var released := ReleaseBatches(state, time, total, FromSubtraction(total, gain));
      if released.Failure? {
        return Failure(released.error);
      }
      state := released.value;
      return Success(());
    }

    /** The user's released claims, looked up one after the other in any order. */
    method GetFinishedAmount(user: User) returns (r: Result<nat>, deprecated: set<Claim>)
      ensures r == Fit(SumMap(Payouts(wait, history, user)))
      ensures r.Success? ==>
                && deprecated == Payouts(wait, history, user).Keys
                && (forall c :: c in deprecated <==> c in wait && c.user == user && IsReleased(history, c.batch))
    {
      var amount := 0;
      deprecated := {};
      var todo := set c | c in wait && c.user == user;
      ghost var payouts := Payouts(wait, history, user);
      assert PayoutsIn(wait, history, todo) == payouts;
      while todo != {}
        invariant todo <= set c | c in wait && c.user == user
        invariant amount + SumMap(PayoutsIn(wait, history, todo)) == SumMap(payouts)
        invariant deprecated == payouts.Keys - todo
        invariant amount <= MAX_UINT128
        decreases todo
      {
        var c :| c in todo;
        PayoutsInRemove(wait, history, todo, c);
        if c.batch in history && history[c.batch].released {
          amount := amount + MulFloor(wait[c], history[c.batch].withdrawRate);
          if amount > MAX_UINT128 {
            return Failure(Overflow), deprecated;
          }
          deprecated := deprecated + {c};
        }
        todo := todo - {c};
      }
      assert PayoutsIn(wait, history, {}) == map[];
      r := Success(amount);
    }

    method RemoveUnbondWaitList(deprecated: set<Claim>)
      modifies this`wait
      ensures wait == old(wait) - deprecated
    {
      var todo := deprecated;
      while todo != {}
        invariant todo <= deprecated && wait == old(wait) - (deprecated - todo)
        decreases todo
      {
        var c :| c in todo;
        wait := wait - {c};
        todo := todo - {c};
      }
    }

    method ExecuteWithdrawUnbonded(user: User, env: Env) returns (r: Result<seq<Message>>)
      modifies this`state, this`history, this`wait
      ensures var spec := WithdrawResponse(old(Stored()), chain, user, env);
              if spec.Success? then r == Success(spec.value.messages) && Stored() == spec.value.storage
              else r == Failure(spec.error)
    {
      hide ReleaseMatured, Payouts;
      if chain.now < env.unbondingPeriod {
        return Failure(Overflow);
      }
      var time := chain.now - env.unbondingPeriod;
      var balance := chain.liquid;
      var released := ProcessWithdrawRate(time, balance);
      if released.Failure? {
        return Failure(released.error);
      }
      var amount, deprecated := GetFinishedAmount(user);
      if amount.Failure? {
        return Failure(amount.error);
      }
      if amount.value == 0 {
        return Failure(NothingWithdrawable);
      }
      RemoveUnbondWaitList(deprecated);
      if amount.value > balance {
        return Failure(BalanceTooSmall);
      }
      state := state.(prevBalance := balance - amount.value);
      return Success([Send(user, amount.value)]);
    }

    // -------------------------------------------------------------------------------------------
    // The host
    // -------------------------------------------------------------------------------------------

    method Dispatched(msg: ExecuteMsg, env: Env) returns (r: Result<seq<Message>>)
      requires Feasible(env, chain)
      modifies this`state, this`batch, this`history, this`wait
      ensures var spec := Handle(old(Stored()), chain, msg, env);
              if spec.Success? then r == Success(spec.value.messages) && Stored() == spec.value.storage
              else r == Failure(spec.error)
    {
      match msg
      case Bond(kind, payment) => r := ExecuteBond(kind, payment, env);
      case Unbond(user, amount) => r := ExecuteUnbond(user, amount, env);
      case WithdrawUnbonded(user) => r := ExecuteWithdrawUnbonded(user, env);
      case CheckSlashing =>
        var sync := Slashing(env.listing);
        r := if sync.Success? then Success([]) else Failure(sync.error);
    }

    /**
     * Runs a transaction as the host does: the coins arrive, the handler runs, its messages are carried
     * out; and when any of this fails, storage and chain are as before.
     */
    method Transaction(msg: ExecuteMsg, env: Env) returns (r: Result<()>)
      requires Feasible(env, chain)
      modifies this
      ensures Value() == Transact(old(Value()), msg, env)
      ensures r.Success? ==> HubSpec.Execute(old(Value()), msg, env) == Success(Value())
      ensures r.Failure? ==> Value() == old(Value())
      ensures var spec := HubSpec.Execute(old(Value()), msg, env);
              r == if spec.Success? then Success(()) else Failure(spec.error)
    {
      var state0, batch0, history0, wait0, chain0 := state, batch, history, wait, chain;
      chain := Funded(chain, msg);
      var response := Dispatched(msg, env);
      var after := if response.Success? then DispatchAll(chain, response.value) else Failure(response.error);
      if after.Failure? {
        state, batch, history, wait, chain := state0, batch0, history0, wait0, chain0;
        return Failure(after.error);
      }
      chain := after.value;
      return Success(());
    }
  }

  /** A repricing pass that fails at one batch fails as a whole, with the same error. */
  lemma {:induction false} RepriceFails(history: map<nat, UnbondHistory>, lo: nat, at: nat, hi: nat, total: nat,
                                        slashed: SignedInt)
    requires lo <= at < hi && forall j :: lo <= j < hi ==> j in history
    requires Reprice(history, lo, at, total, slashed).Success?
    requires NewWithdrawRate(history[at].amount, history[at].withdrawRate, total, slashed).Failure?
    ensures Reprice(history, lo, hi, total, slashed)
            == Failure(NewWithdrawRate(history[at].amount, history[at].withdrawRate, total, slashed).error)
    decreases hi - at
  {
    if at + 1 < hi {
      RepriceFails(history, lo, at, hi - 1, total, slashed);
    }
  }
}
