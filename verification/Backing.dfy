/** Bonded coins back the outstanding claims, and the exchange rate. */
module Backing {
  import opened Results
  import opened FixedPoint
  import opened Sums
  import opened Release
  import opened HubTypes
  import opened HubSpec
  import opened Effects

  /** Tokens in circulation and tokens waiting in the current batch. */
  function Claims(w: World): nat {
    w.chain.supply + w.storage.batch.requested
  }

  ghost predicate BackedBy(state: State, claims: nat, staked: nat) {
    && state.rate * claims <= state.bonded * ONE
    && (state.bonded == 0 ==> claims == 0)
    && (state.bonded > 0 ==> staked > 0)
  }

  /**
   * The backing invariant: at the stored rate the claims are worth no more than the bonded coins, nothing
   * is claimed when nothing is bonded, and something is staked when something is bonded.
   */
  ghost predicate Backed(w: World) {
    BackedBy(w.storage.state, Claims(w), Staked(w.chain))
  }

  /** No slashing has happened since the bonded total was last compared with the stakes. */
  ghost predicate Unslashed(w: World) {
    w.storage.state.bonded <= Staked(w.chain)
  }

  /** The slash sync brings the bonded total down to the stakes and recomputes a backed rate. */
  lemma SyncKeeps(w: World, synced: Synced)
    requires Backed(w) && ActualState(w.storage, w.chain) == Success(synced)
    ensures synced.issued == w.chain.supply
    ensures synced.state == w.storage.state.(bonded := synced.state.bonded, rate := synced.state.rate)
    ensures synced.state.bonded == Min(w.storage.state.bonded, Staked(w.chain))
    ensures BackedBy(synced.state, Claims(w), Staked(w.chain))
    ensures Unslashed(w) && Claims(w) > 0 ==> w.storage.state.rate <= synced.state.rate
  {
    var before, after := w.storage.state, synced.state;
    if w.chain.stakes != map[] && before.bonded > 0 && Claims(w) > 0 {
      if Unslashed(w) {
        MulCancel(before.rate, after.rate, Claims(w));
      }
    }
  }

  /** With nothing delegated or nothing bonded, the sync leaves the state, and with it the rate, as it was. */
  lemma SyncKeepsState(w: World, synced: Synced)
    requires w.chain.stakes == map[] || w.storage.state.bonded == 0
    requires ActualState(w.storage, w.chain) == Success(synced)
    ensures synced == Synced(w.storage.state, 0)
  {
  }

  /**
   * The synchronised rate is the largest that the bonded coins back, so claims are not undervalued either;
   * with no claims at all it is one.
   */
  lemma SyncRateIsLargest(w: World, synced: Synced)
    requires Backed(w) && ActualState(w.storage, w.chain) == Success(synced)
    ensures synced.state.bonded > 0 && Claims(w) > 0 ==>
              synced.state.rate * Claims(w) <= synced.state.bonded * ONE < (synced.state.rate + 1) * Claims(w)
    ensures synced.state.bonded > 0 && Claims(w) == 0 ==> synced.state.rate == ONE
  {
    SyncKeeps(w, synced);
    assert (synced.state.rate + 1) * Claims(w) == synced.state.rate * Claims(w) + Claims(w);
  }

  /**
   * What a payment buys: a bond mints the largest number of tokens that the payment covers at the
   * synchronised rate and leaves that rate; rewards mint nothing and raise the rate as far as they back it.
   */
  lemma CreditIsExact(kind: BondType, synced: Synced, requested: nat, payment: nat)
    requires payment > 0 && CreditPayment(kind, synced, requested, payment).Success?
    ensures var (mint, state) := CreditPayment(kind, synced, requested, payment).value;
            var claims := synced.issued + requested;
            if kind.StAtom? then
              && state.rate == synced.state.rate > 0
              && mint * state.rate <= payment * ONE < (mint + 1) * state.rate
            else
              && mint == 0
              && (if claims == 0 then state.rate == ONE
                  else state.rate * claims <= (synced.state.bonded + payment) * ONE < (state.rate + 1) * claims)
  {
    var (mint, state) := CreditPayment(kind, synced, requested, payment).value;
    if kind.StAtom? {
      ScaleExactly(synced.state.rate);
      DecimalDivisionIsLargest(payment, synced.state.rate, mint);
    } else {
      var claims := synced.issued + requested;
      assert (state.rate + 1) * claims == state.rate * claims + claims;
    }
  }

  /**
   * Exactly when a bond can be credited: the rate is not zero, and the tokens it buys, the supply with them and
   * the bonded total with the payment are within their width.
   */
  lemma CreditSucceedsIff(synced: Synced, requested: nat, payment: nat, mint: nat)
    requires synced.state.rate > 0 ==> mint * synced.state.rate <= payment * ONE < (mint + 1) * synced.state.rate
    ensures CreditPayment(StAtom, synced, requested, payment).Success?
            <==> synced.state.rate > 0 && synced.issued + mint <= MAX_UINT128
                 && synced.state.bonded + payment <= MAX_UINT128
  {
    hide DecimalDivision;
    var rate, bought := synced.state.rate, DecimalDivision(payment, synced.state.rate);
    if rate == 0 {
      FreeTokens(payment);
    } else {
      DecimalDivisionIsLargest(payment, rate, mint);
      if bought.Success? {
        DecimalDivisionIsLargest(payment, rate, bought.value);
        MulCancel(mint, bought.value, rate);
        MulCancel(bought.value, mint, rate);
      }
    }
  }

  lemma FreeTokens(payment: nat)
    ensures DecimalDivision(payment, 0) == Failure(ZeroDenominator)
  {
    ScaleExactly(0);
  }

  /** Crediting a payment keeps the backing, whatever is minted for it. */
  lemma CreditKeeps(kind: BondType, synced: Synced, requested: nat, payment: nat, staked: nat)
    requires payment > 0
    requires BackedBy(synced.state, synced.issued + requested, staked)
    requires CreditPayment(kind, synced, requested, payment).Success?
    ensures var (mint, state) := CreditPayment(kind, synced, requested, payment).value;
            && state == synced.state.(bonded := synced.state.bonded + payment, rate := state.rate)
            && BackedBy(state, synced.issued + mint + requested, staked + payment)
            && (synced.issued + requested > 0 ==> synced.state.rate <= state.rate)
  {
    var (mint, state) := CreditPayment(kind, synced, requested, payment).value;
    var claims := synced.issued + requested;
    if kind.StAtom? {
      DecimalDivisionIsLargest(payment, synced.state.rate, mint);
      assert synced.state.rate * (claims + mint) == synced.state.rate * claims + mint * synced.state.rate;
    } else if claims > 0 {
      MulCancel(synced.state.rate, state.rate, claims);
    }
  }

  /** Closing the batch takes no more than is bonded, and leaves the rest backed. */
  lemma CloseKeeps(state: State, supply: nat, requested: nat, staked: nat, claim: nat)
    requires BackedBy(state, supply + requested, staked) && claim == MulFloor(requested, state.rate)
    ensures claim <= state.bonded
    ensures state.bonded <= staked ==> BackedBy(state.(bonded := state.bonded - claim), supply, staked - claim)
  {
    assert state.rate * (supply + requested) == state.rate * supply + requested * state.rate;
    if state.rate > 0 && supply > 0 {
      assert state.rate * supply > 0;
    }
  }

  /**
   * A request after the epoch closes the batch at the largest backed rate. It takes out of the bonded total
   * and out of the stakes exactly what the closed batch is recorded to be worth, and the batch holds exactly
   * what was requested before and now.
   */
  lemma CloseConserves(w: World, user: User, amount: nat, env: Env, w': World)
    requires Backed(w) && Feasible(env, w.chain) && Execute(w, Unbond(user, amount), env) == Success(w')
    requires w.chain.now - w.storage.state.lastUnbonded > env.epochPeriod
    ensures var id := w.storage.batch.id;
            && id in w'.storage.history
            && var entry := w'.storage.history[id];
            var bonded := Min(w.storage.state.bonded, Staked(w.chain));
            && entry.amount == w.storage.batch.requested + amount && entry.time == w.chain.now
            && entry.appliedRate == entry.withdrawRate && !entry.released
            && w'.storage.state.bonded + Value(entry) == bonded
            && Staked(w'.chain) + Value(entry) == Staked(w.chain)
            && (bonded > 0 && Claims(w) > 0 ==>
                  entry.appliedRate * Claims(w) <= bonded * ONE < (entry.appliedRate + 1) * Claims(w))
            && w'.storage.batch == CurrentBatch(id + 1, 0)
            && w'.chain.supply + amount == w.chain.supply
  {
    hide Execute, ActualState, MulFloor, SumMap;
    var synced := UnbondEffect(w, user, amount, env, w');
    SyncKeeps(w, synced);
    SyncRateIsLargest(w, synced);
  }

  /**
   * A slash of the whole stake breaks the backing for good: as long as delegations are listed, the sync sets
   * the rate to one with nothing bonded, and without any it keeps the old state.
   */
  lemma WholeSlashLosesBacking(w: World, synced: Synced)
    requires w.storage.state.bonded > 0 && Claims(w) > 0 && Staked(w.chain) == 0
    requires ActualState(w.storage, w.chain) == Success(synced)
    ensures if w.chain.stakes == map[] then synced.state == w.storage.state
            else synced.state.bonded == 0 && synced.state.rate == ONE
    ensures !BackedBy(synced.state, Claims(w), Staked(w.chain))
  {
  }
}
