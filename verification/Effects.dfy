/** What each successful transaction does to the whole world, with its messages carried out. */
module Effects {
  import opened Results
  import opened FixedPoint
  import opened Sums
  import opened Allocation
  import opened Sorting
  import opened Release
  import opened HubTypes
  import opened ChainModel
  import opened HubSpec

  /** The slash sync changes the bonded total and the rate only. */
  lemma SyncFrame(st: Storage, chain: Chain, synced: Synced)
    requires ActualState(st, chain) == Success(synced)
    ensures synced.state == st.state.(bonded := synced.state.bonded, rate := synced.state.rate)
  {
  }

  /** Carrying out a bond's messages. */
  lemma BondDispatch(chain: Chain, kind: BondType, vs: seq<Validator>, payment: nat, mint: nat) returns (after: Chain)
    requires payment <= chain.liquid && Delegations(Stakes(vs), payment).Success?
    ensures DispatchAll(chain, BondMessages(kind, vs, Delegations(Stakes(vs), payment).value, mint)) == Success(after)
    ensures after.liquid == chain.liquid - payment && after.now == chain.now
    ensures after.supply == chain.supply + if kind.StAtom? then mint else 0
    ensures Staked(after) == Staked(chain) + payment
    ensures forall a :: Get(after.stakes, a)
                        == Get(chain.stakes, a) + Planned(vs, Delegations(Stakes(vs), payment).value, a)
  {
    var plan := Delegations(Stakes(vs), payment).value;
    DelegationsConserve(Stakes(vs), payment);
    after := DispatchDelegations(chain, vs, plan);
    var ms := DelegateMessages(vs, plan);
    if kind.StAtom? {
      DispatchSnoc(chain, ms, Mint(mint));
      after := after.(supply := after.supply + mint);
    } else {
      assert BondMessages(kind, vs, plan, mint) == ms;
    }
  }

  /** Bonding stakes exactly the payment, mints exactly the computed tokens and leaves the balance alone. */
  ghost predicate BondedTo(w: World, w': World, kind: BondType, payment: nat, synced: Synced, mint: nat) {
    && payment > 0
    && ActualState(w.storage, w.chain) == Success(synced)
    && CreditPayment(kind, synced, w.storage.batch.requested, payment) == Success((mint, w'.storage.state))
    && w'.storage == w.storage.(state := w'.storage.state)
    && w'.chain == w.chain.(supply := w.chain.supply + mint, stakes := w'.chain.stakes)
    && Staked(w'.chain) == Staked(w.chain) + payment
  }

  lemma BondEffect(w: World, kind: BondType, payment: nat, env: Env, w': World) returns (synced: Synced, mint: nat)
    requires Feasible(env, w.chain)
    requires Execute(w, Bond(kind, payment), env) == Success(w')
    ensures BondedTo(w, w', kind, payment, synced, mint)
  {
    hide DecimalDivision, ExchangeRate, SortByStake, Reported, Delegations, BondMessages, DispatchAll, Lists, Sum;
    var funded := Funded(w.chain, Bond(kind, payment));
    synced := ActualState(w.storage, funded).value;
    mint := CreditPayment(kind, synced, w.storage.batch.requested, payment).value.0;
    var vs := SortByStake(Reported(funded.stakes, env.registry), false);
    var after := BondDispatch(funded, kind, vs, payment, mint);
  }

  /** The epoch's undelegation takes exactly the claim from the stakes, and the chain carries it out. */
  lemma UndelegateEffect(chain: Chain, claim: nat, listing: seq<Address>)
    requires Lists(listing, chain.stakes.Keys)
    ensures UndelegateResponse(chain, claim, listing).Success?
            <==> chain.stakes != map[] && claim <= Staked(chain) <= MAX_UINT128
    ensures UndelegateResponse(chain, claim, listing).Success? ==>
              var r := DispatchAll(chain, UndelegateResponse(chain, claim, listing).value);
              && r.Success?
              && r.value == chain.(stakes := r.value.stakes)
              && Staked(r.value) + claim == Staked(chain)
  {
    hide SortByStake, Undelegations, Sum;
    var vs := SortByStake(Reported(chain.stakes, listing), true);
    ReportedSorted(chain.stakes, listing, true);
    ReportedSum(chain.stakes, listing);
    UndelegationsConserve(Stakes(vs), claim);
    ListingEmpty(listing, chain.stakes.Keys);
    assert chain.stakes == map[] <==> chain.stakes.Keys == {};
    if Undelegations(Stakes(vs), claim).Success? {
      var plan := Undelegations(Stakes(vs), claim).value;
      PlannedWithin(chain.stakes, vs, plan);
      var after := DispatchUndelegations(chain, vs, plan);
    }
  }

  /** The state in which a request has been entered and not yet acted on. */
  ghost function Entered(w: World, synced: Synced, user: User, amount: nat): Storage {
    var claim := Claim(user, w.storage.batch.id);
    w.storage.(state := synced.state,
               batch := CurrentBatch(w.storage.batch.id, w.storage.batch.requested + amount),
               wait := w.storage.wait[claim := Get(w.storage.wait, claim) + amount])
  }

  /** The storage after the current batch was closed at the current rate. */
  ghost function Closed(st: Storage, now: nat): Storage
    requires MulFloor(st.batch.requested, st.state.rate) <= st.state.bonded
  {
    st.(state := st.state.(bonded := st.state.bonded - MulFloor(st.batch.requested, st.state.rate),
                           lastUnbonded := now),
        batch := CurrentBatch(st.batch.id + 1, 0),
        history := st.history[st.batch.id := UnbondHistory(st.batch.id, now, st.batch.requested, st.state.rate,
                                                           st.state.rate, false)])
  }

  /** Closing the batch: the new storage, and the chain after the undelegations. */
  lemma CloseEffect(st: Storage, chain: Chain, listing: seq<Address>) returns (after: Chain)
    requires Lists(listing, chain.stakes.Keys)
    requires CloseBatch(st, chain, listing).Success?
    ensures MulFloor(st.batch.requested, st.state.rate) <= st.state.bonded && st.batch.id < MAX_UINT64
    ensures CloseBatch(st, chain, listing).value.storage == Closed(st, chain.now)
    ensures DispatchAll(chain, CloseBatch(st, chain, listing).value.messages) == Success(after)
    ensures after == chain.(stakes := after.stakes)
    ensures Staked(after) + MulFloor(st.batch.requested, st.state.rate) == Staked(chain)
  {
    UndelegateEffect(chain, MulFloor(st.batch.requested, st.state.rate), listing);
    after := DispatchAll(chain, CloseBatch(st, chain, listing).value.messages).value;
  }

  /**
   * An unbonding request burns the tokens it enters. If the epoch has passed it also closes the batch and
   * undelegates exactly what the batch is worth.
   */
  ghost predicate UnbondedTo(w: World, w': World, user: User, amount: nat, epochPeriod: nat, synced: Synced) {
    var st := Entered(w, synced, user, amount);
    var claim := MulFloor(st.batch.requested, st.state.rate);
    && ActualState(w.storage, w.chain) == Success(synced)
    && amount <= w.chain.supply
    && w.chain.now >= st.state.lastUnbonded
    && w'.chain == w.chain.(supply := w.chain.supply - amount, stakes := w'.chain.stakes)
    && if w.chain.now - st.state.lastUnbonded > epochPeriod then
         && claim <= st.state.bonded && st.batch.id < MAX_UINT64
         && w'.storage == Closed(st, w.chain.now) && Staked(w'.chain) + claim == Staked(w.chain)
       else
         w'.storage == st && w'.chain.stakes == w.chain.stakes
  }

  lemma UnbondEffect(w: World, user: User, amount: nat, env: Env, w': World) returns (synced: Synced)
    requires Feasible(env, w.chain)
    requires Execute(w, Unbond(user, amount), env) == Success(w')
    ensures UnbondedTo(w, w', user, amount, env.epochPeriod, synced)
  {
    hide ActualState, CloseBatch, MulFloor, Lists, SumMap, DispatchAll;
    synced := ActualState(w.storage, w.chain).value;
    var st := Entered(w, synced, user, amount);
    assert EnterRequest(w.storage.(state := synced.state), user, amount).value == st;
    if w.chain.now - st.state.lastUnbonded > env.epochPeriod {
      var after := CloseEffect(st, w.chain, env.listing);
      DispatchSnoc(w.chain, CloseBatch(st, w.chain, env.listing).value.messages, Burn(amount));
      assert DispatchAll(w.chain, CloseBatch(st, w.chain, env.listing).value.messages + [Burn(amount)])
          == Dispatch(after, Burn(amount));
      assert Success(w'.chain) == Dispatch(after, Burn(amount));
    } else {
      OnlyMessage(w.chain, Burn(amount));
    }
  }

  lemma OnlyMessage(chain: Chain, m: Message)
    ensures DispatchAll(chain, [m]) == Dispatch(chain, m)
  {
    DispatchSnoc(chain, [], m);
    assert [] + [m] == [m];
  }

  /** A withdrawal releases what has matured, pays the user's released claims and sends just that. */
  ghost predicate WithdrawnTo(w: World, w': World, user: User, time: nat, released: Storage) {
    var payouts := Payouts(released.wait, released.history, user);
    && ReleaseMatured(w.storage, time, w.chain.liquid) == Success(released)
    && 0 < SumMap(payouts) <= w.chain.liquid
    && w'.chain == w.chain.(liquid := w.chain.liquid - SumMap(payouts))
    && w'.storage == released.(wait := released.wait - payouts.Keys,
                               state := released.state.(prevBalance := w'.chain.liquid))
  }

  lemma WithdrawEffect(w: World, user: User, env: Env, w': World) returns (released: Storage)
    requires Execute(w, WithdrawUnbonded(user), env) == Success(w')
    ensures env.unbondingPeriod <= w.chain.now
    ensures ReleaseMatured(w.storage, w.chain.now - env.unbondingPeriod, w.chain.liquid) == Success(released)
    ensures WithdrawnTo(w, w', user, w.chain.now - env.unbondingPeriod, released)
  {
    hide ReleaseMatured, Payouts, SumMap, DispatchAll;
    released := ReleaseMatured(w.storage, w.chain.now - env.unbondingPeriod, w.chain.liquid).value;
    var amount := SumMap(Payouts(released.wait, released.history, user));
    OnlyMessage(w.chain, Send(user, amount));
  }

  /** What a withdrawal took off the wait list, each claim at its rate. */
  ghost function Settled(w: World, w': World): map<Claim, nat> {
    map c | c in w.storage.wait && c !in w'.storage.wait && c.batch in w'.storage.history
      :: MulFloor(w.storage.wait[c], w'.storage.history[c.batch].withdrawRate)
  }

  /**
   * Who is paid what. A withdrawal settles every claim of the user on a batch that is released by then, and no
   * other claim; it sends one message, to that user, with the whole sum of the settled claims.
   */
  lemma WithdrawSettles(w: World, user: User, env: Env, w': World)
    requires Execute(w, WithdrawUnbonded(user), env) == Success(w')
    ensures forall c :: c in w.storage.wait ==>
              (c in w'.storage.wait <==> c.user != user || !IsReleased(w'.storage.history, c.batch))
    ensures forall c :: c in w'.storage.wait ==> c in w.storage.wait && w'.storage.wait[c] == w.storage.wait[c]
    ensures w'.chain == w.chain.(liquid := w'.chain.liquid)
    ensures w.chain.liquid == w'.chain.liquid + SumMap(Settled(w, w')) && 0 < SumMap(Settled(w, w')) <= MAX_UINT128
    ensures Handle(w.storage, w.chain, WithdrawUnbonded(user), env)
            == Success(Response(w'.storage, [Send(user, SumMap(Settled(w, w')))]))
  {
    hide ReleaseMatured, SumMap, DispatchAll, MulFloor;
    var released := WithdrawEffect(w, user, env, w');
    ReleaseKeepsWait(w.storage, w.chain.now - env.unbondingPeriod, w.chain.liquid, released);
    assert Settled(w, w') == Payouts(released.wait, released.history, user);
  }

  lemma ReleaseKeepsWait(st: Storage, time: nat, balance: nat, after: Storage)
    requires ReleaseMatured(st, time, balance) == Success(after)
    ensures after.wait == st.wait
  {
  }

  lemma SlashingEffect(w: World, env: Env, w': World) returns (synced: Synced)
    requires Execute(w, CheckSlashing, env) == Success(w')
    ensures ActualState(w.storage, w.chain) == Success(synced)
    ensures w' == w.(storage := w.storage.(state := synced.state))
  {
    synced := ActualState(w.storage, w.chain).value;
  }
}
