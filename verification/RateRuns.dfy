/** The exchange rate over whole runs, the fairness of bonding, and transactions that cannot get stuck. */
module RateRuns {
  import opened Results
  import opened FixedPoint
  import opened Sums
  import opened Allocation
  import opened Sorting
  import opened Release
  import opened HubTypes
  import opened ChainModel
  import opened HubSpec
  import opened Effects
  import opened Backing
  import opened ClaimLedger
  import opened Solvency
  import opened Runs

  // ---------------------------------------------------------------------------------------------
  // Without slashing the rate never decreases
  // ---------------------------------------------------------------------------------------------

  lemma BondKeepsRate(w: World, w': World, kind: BondType, payment: nat, synced: Synced, mint: nat)
    requires Backed(w) && Unslashed(w) && Claims(w) > 0 && BondedTo(w, w', kind, payment, synced, mint)
    ensures Unslashed(w') && w.storage.state.rate <= w'.storage.state.rate
  {
    SyncKeeps(w, synced);
    CreditKeeps(kind, synced, w.storage.batch.requested, payment, Staked(w.chain));
  }

  lemma UnbondKeepsRate(w: World, w': World, user: User, amount: nat, epochPeriod: nat, synced: Synced)
    requires Backed(w) && Unslashed(w) && Claims(w) > 0 && UnbondedTo(w, w', user, amount, epochPeriod, synced)
    ensures Unslashed(w') && w.storage.state.rate <= w'.storage.state.rate
  {
    SyncKeeps(w, synced);
  }

  lemma TransactKeepsRate(w: World, msg: ExecuteMsg, env: Env, w': World)
    requires Backed(w) && Unslashed(w) && Claims(w) > 0
    requires Feasible(env, w.chain) && Execute(w, msg, env) == Success(w')
    ensures Unslashed(w') && w.storage.state.rate <= w'.storage.state.rate
  {
    hide Execute, ActualState, BondedTo, UnbondedTo, Payouts, ReleaseMatured;
    match msg
    case Bond(kind, payment) =>
      var synced, mint := BondEffect(w, kind, payment, env, w');
      BondKeepsRate(w, w', kind, payment, synced, mint);
    case Unbond(user, amount) =>
      var synced := UnbondEffect(w, user, amount, env, w');
      UnbondKeepsRate(w, w', user, amount, env.epochPeriod, synced);
    case WithdrawUnbonded(user) =>
      var released := WithdrawEffect(w, user, env, w');
      var lo, hi := ReleaseEffect(w.storage, w.chain.now - env.unbondingPeriod, w.chain.liquid, released);
    case CheckSlashing =>
      var synced := SlashingEffect(w, env, w');
      SyncKeeps(w, synced);
  }

  lemma StepKeepsRate(t: Traced, step: Step)
    requires Inv(t) && Unslashed(t.world) && Claims(t.world) > 0 && !step.Slash?
    ensures Unslashed(Apply(t, step).world)
    ensures t.world.storage.state.rate <= Apply(t, step).world.storage.state.rate
  {
    hide Execute, LifeCycle, Ledger, PaidOnce, Backed;
    if step.Tx? && Enabled(t.world, step) {
      var r := Execute(t.world, step.msg, step.env);
      if r.Success? {
        TransactKeepsRate(t.world, step.msg, step.env, r.value);
      }
    }
  }

  /** No slash happens along the run, and before each step somebody holds or has requested tokens. */
  ghost predicate Steady(t: Traced, steps: seq<Step>)
    decreases |steps|
  {
    steps == [] || (!steps[0].Slash? && Claims(t.world) > 0 && Steady(Apply(t, steps[0]), steps[1..]))
  }

  /** Along a steady run the exchange rate never decreases. */
  lemma {:induction false} RateNeverDecreases(t: Traced, steps: seq<Step>)
    requires Inv(t) && Unslashed(t.world) && Steady(t, steps)
    ensures t.world.storage.state.rate <= Run(t, steps).world.storage.state.rate
    decreases |steps|
  {
    if steps != [] {
      StepKeeps(t, steps[0]);
      StepKeepsRate(t, steps[0]);
      RateNeverDecreases(Apply(t, steps[0]), steps[1..]);
    }
  }

  // ---------------------------------------------------------------------------------------------
  // Bonding and unbonding again cannot profit
  // ---------------------------------------------------------------------------------------------

  /** The tokens bought at the current rate are never worth more than the payment at the next rate. */
  lemma NextRateIsFair(bonded: nat, claims: nat, payment: nat, mint: nat, rate: nat, next: nat)
    requires claims > 0 && rate == RatioFloor(bonded, claims)
    requires mint * rate <= payment * ONE < (mint + 1) * rate
    requires next == RatioFloor(bonded + payment, claims + mint)
    ensures mint * next <= payment * ONE
  {
    assert (mint + 1) * rate == mint * rate + rate;
    if next > rate {
      var j := next - rate;
      assert next * (claims + mint) == rate * claims + mint * rate + j * claims + mint * j;
      assert mint * next == mint * rate + mint * j;
      assert claims <= j * claims by {
        MulLe(1, j, claims);
      }
    } else {
      MulLe(next, rate, mint);
    }
  }

  /** The rate that is computed when the next transaction synchronises. */
  function NextRate(w: World): Result<nat> {
    ExchangeRate(w.storage.state.bonded, w.chain.supply, w.storage.batch.requested)
  }

  /**
   * The tokens minted for a payment, valued at the rate recomputed right after the bond, are
   * worth at most the payment, unless coins were bonded that nobody had a claim on.
   */
  lemma BondCannotProfit(w: World, w': World, payment: nat, synced: Synced, mint: nat, next: nat)
    requires Backed(w) && BondedTo(w, w', StAtom, payment, synced, mint)
    requires Claims(w) > 0 || w.storage.state.bonded == 0
    requires NextRate(w') == Success(next)
    ensures mint * next <= payment * ONE && MulFloor(mint, next) <= payment
  {
    SyncKeeps(w, synced);
    var rate := synced.state.rate;
    assert rate > 0;
    DecimalDivisionIsLargest(payment, rate, mint);
    if Claims(w) == 0 {
      if mint > 0 {
        assert next * mint == mint * next;
      } else {
        assert 0 * next == 0;
      }
    } else {
      NextRateIsFair(synced.state.bonded, Claims(w), payment, mint, rate, next);
    }
  }

  /** The payment is accepted, and so is the rate after it. */
  ghost predicate Accepted(w: World, payment: nat, env: Env) {
    var r := Execute(w, Bond(StAtom, payment), env);
    r.Success? && NextRate(r.value).Success?
  }

  /** The tokens minted for a payment are worth more than the payment right after it. */
  ghost predicate Profitable(w: World, payment: nat, env: Env) {
    && Accepted(w, payment, env)
    && var w' := Execute(w, Bond(StAtom, payment), env).value;
    && w'.chain.supply >= w.chain.supply
    && MulFloor(w'.chain.supply - w.chain.supply, NextRate(w').value) > payment
  }

  /** Where coins are bonded that nobody has a claim on, one coin buys them all. */
  lemma UnclaimedCoinsAreProfitable(w: World, env: Env)
    requires Backed(w) && Feasible(env, w.chain) && w.storage.state.bonded > 0 && Claims(w) == 0
    requires Accepted(w, 1, env)
    ensures Profitable(w, 1, env)
    ensures var w' := Execute(w, Bond(StAtom, 1), env).value;
            && w'.chain.supply == w.chain.supply + 1
            && MulFloor(1, NextRate(w').value) == Min(w.storage.state.bonded, Staked(w.chain)) + 1
  {
    hide Execute, ActualState, SumMap;
    var w' := Execute(w, Bond(StAtom, 1), env).value;
    var synced, mint := BondEffect(w, StAtom, 1, env, w');
    SyncKeeps(w, synced);
    SyncRateIsLargest(w, synced);
    DecimalDivisionIsLargest(1, ONE, 1);
    var bonded := w'.storage.state.bonded;
    assert RatioFloor(bonded, 1) == bonded * ONE;
    assert MulFloor(1, bonded * ONE) == bonded;
  }

  lemma ProfitNeedsUnclaimedCoins(w: World, payment: nat, env: Env)
    requires Backed(w) && Feasible(env, w.chain) && Profitable(w, payment, env)
    ensures w.storage.state.bonded > 0 && Claims(w) == 0
  {
    hide Execute, ActualState, MulFloor, SumMap, Backed, Feasible, CreditPayment, ExchangeRate;
    var w' := Execute(w, Bond(StAtom, payment), env).value;
    var synced, mint := BondEffect(w, StAtom, payment, env, w');
    if Claims(w) > 0 || w.storage.state.bonded == 0 {
      BondCannotProfit(w, w', payment, synced, mint, NextRate(w').value);
      assert false;
    }
  }

  /**
   * Some accepted payment is profitable exactly when coins are bonded that nobody has a claim on, and then one
   * coin is enough.
   */
  lemma ProfitableIff(w: World, env: Env)
    requires Backed(w) && Feasible(env, w.chain)
    ensures (exists payment: nat :: Profitable(w, payment, env)) ==> w.storage.state.bonded > 0 && Claims(w) == 0
    ensures Accepted(w, 1, env) ==> (Profitable(w, 1, env) <==> w.storage.state.bonded > 0 && Claims(w) == 0)
  {
    hide Profitable, Accepted, Backed, Feasible;
    forall payment: nat | Profitable(w, payment, env) ensures w.storage.state.bonded > 0 && Claims(w) == 0 {
      ProfitNeedsUnclaimedCoins(w, payment, env);
    }
    if w.storage.state.bonded > 0 && Claims(w) == 0 && Accepted(w, 1, env) {
      UnclaimedCoinsAreProfitable(w, env);
    }
  }

  // ---------------------------------------------------------------------------------------------
  // Transactions that cannot get stuck
  // ---------------------------------------------------------------------------------------------

  lemma SyncOnlyOverflows(st: Storage, chain: Chain)
    ensures ActualState(st, chain).Failure? ==> ActualState(st, chain).error == Overflow
    ensures ActualState(st, chain).Success? && chain.stakes != map[] ==> Staked(chain) <= MAX_UINT128
  {
  }

  lemma CloseOnlyOverflows(st: Storage, chain: Chain, listing: seq<Address>)
    requires Lists(listing, chain.stakes.Keys) && chain.stakes != map[] && Staked(chain) <= MAX_UINT128
    requires MulFloor(st.batch.requested, st.state.rate) <= st.state.bonded <= Staked(chain)
    ensures CloseBatch(st, chain, listing).Failure? ==> CloseBatch(st, chain, listing).error == Overflow
  {
    UndelegateEffect(chain, MulFloor(st.batch.requested, st.state.rate), listing);
  }

  lemma StakedMeansDelegated(chain: Chain)
    requires Staked(chain) > 0
    ensures chain.stakes != map[]
  {
  }

  /** After the slash sync, the claim of the batch is within the bonded coins, and those within the stakes. */
  lemma ClaimWithinStakes(w: World, synced: Synced, user: User, amount: nat)
    requires Backed(w) && 0 < amount <= w.chain.supply
    requires ActualState(w.storage, w.chain) == Success(synced)
    ensures var st := Entered(w, synced, user, amount);
            MulFloor(st.batch.requested, st.state.rate) <= st.state.bonded <= Staked(w.chain)
    ensures w.chain.stakes != map[]
  {
    SyncKeeps(w, synced);
    StakedMeansDelegated(w.chain);
    var st := Entered(w, synced, user, amount);
    CloseKeeps(st.state, w.chain.supply - amount, st.batch.requested, Staked(w.chain),
               MulFloor(st.batch.requested, st.state.rate));
  }

  /**
   * An unbonding request within the token supply always goes through, also when it closes the epoch:
   * neither the bonded total nor the validators' stake can be too small for it.
   */
  lemma UnbondNeverStuck(t: Traced, user: User, amount: nat, env: Env)
    requires Inv(t) && Feasible(env, t.world.chain) && 0 < amount <= t.world.chain.supply
    ensures var r := Execute(t.world, Unbond(user, amount), env);
            r.Failure? ==> r.error == Overflow
  {
    hide Inv, ActualState, CloseBatch, MulFloor, DispatchAll, Lists, SumMap;
    var w := t.world;
    SyncOnlyOverflows(w.storage, w.chain);
    var sync := ActualState(w.storage, w.chain);
    if sync.Success? {
      ClaimFits(t, user, amount, sync.value);
      var st := Entered(w, sync.value, user, amount);
      CloseOnlyOverflows(st, w.chain, env.listing);
      UnbondDispatches(w, st, user, amount, env);
    }
  }

  lemma ClaimFits(t: Traced, user: User, amount: nat, synced: Synced)
    requires Inv(t) && 0 < amount <= t.world.chain.supply
    requires ActualState(t.world.storage, t.world.chain) == Success(synced)
    ensures var st := Entered(t.world, synced, user, amount);
            MulFloor(st.batch.requested, st.state.rate) <= st.state.bonded <= Staked(t.world.chain)
    ensures t.world.chain.stakes != map[] && Staked(t.world.chain) <= MAX_UINT128
  {
    hide LifeCycle, Ledger, PaidOnce, Backed;
    ClaimWithinStakes(t.world, synced, user, amount);
    SyncOnlyOverflows(t.world.storage, t.world.chain);
  }

  lemma UnbondDispatches(w: World, st: Storage, user: User, amount: nat, env: Env)
    requires amount <= w.chain.supply && Lists(env.listing, w.chain.stakes.Keys)
    ensures DispatchAll(w.chain, [Burn(amount)]).Success?
    ensures CloseBatch(st, w.chain, env.listing).Success? ==>
              DispatchAll(w.chain, CloseBatch(st, w.chain, env.listing).value.messages + [Burn(amount)]).Success?
  {
    hide CloseBatch;
    OnlyMessage(w.chain, Burn(amount));
    if CloseBatch(st, w.chain, env.listing).Success? {
      var after := CloseEffect(st, w.chain, env.listing);
      DispatchSnoc(w.chain, CloseBatch(st, w.chain, env.listing).value.messages, Burn(amount));
    }
  }

  /** The numbers that a request computes with are within their widths. */
  ghost predicate WithinWidths(w: World, closes: bool) {
    && Staked(w.chain) <= MAX_UINT128 && Claims(w) <= MAX_UINT128
    && (Claims(w) > 0 ==> RatioFloor(Min(w.storage.state.bonded, Staked(w.chain)), Claims(w)) <= MAX_UINT128)
    && (closes ==> w.storage.batch.id < MAX_UINT64)
  }

  lemma SyncSucceedsIff(w: World)
    requires Backed(w) && Claims(w) > 0
    ensures ActualState(w.storage, w.chain).Success? <==> WithinWidths(w, false)
  {
    hide RatioFloor, SumMap;
    StakedMeansDelegated(w.chain);
  }

  lemma ClaimsFitWaitList(st: Storage, user: User, amount: nat)
    requires Ledger(st)
    ensures Get(st.wait, Claim(user, st.batch.id)) <= st.batch.requested
  {
    var c := Claim(user, st.batch.id);
    if c in st.wait {
      SumMapRemove(On(st.wait, st.batch.id), c);
    }
  }

  lemma EnterSucceeds(w: World, synced: Synced, user: User, amount: nat)
    requires Ledger(w.storage) && amount <= w.chain.supply && Claims(w) <= MAX_UINT128
    ensures EnterRequest(w.storage.(state := synced.state), user, amount) == Success(Entered(w, synced, user, amount))
  {
    hide Ledger;
    ClaimsFitWaitList(w.storage, user, amount);
  }

  lemma CloseSucceedsIff(st: Storage, chain: Chain, listing: seq<Address>)
    requires Lists(listing, chain.stakes.Keys) && chain.stakes != map[]
    requires MulFloor(st.batch.requested, st.state.rate) <= st.state.bonded <= Staked(chain) <= MAX_UINT128
    ensures CloseBatch(st, chain, listing).Success? <==> st.batch.id < MAX_UINT64
  {
    hide MulFloor, UndelegateResponse;
    UndelegateEffect(chain, MulFloor(st.batch.requested, st.state.rate), listing);
  }

  /**
   * Exactly when a request goes through: a request of some tokens within the supply succeeds if and only if the
   * stakes, the claims and the synchronised rate are within their widths, and so is the next batch number when
   * it closes the epoch.
   */
  lemma UnbondSucceedsIff(t: Traced, user: User, amount: nat, env: Env)
    requires Inv(t) && Feasible(env, t.world.chain) && 0 < amount <= t.world.chain.supply
    ensures Execute(t.world, Unbond(user, amount), env).Success?
            <==> WithinWidths(t.world, t.world.chain.now - t.world.storage.state.lastUnbonded > env.epochPeriod)
  {
    hide Backed, Ordered, Ledger, PaidOnce, WithinWidths, ActualState, CloseBatch, MulFloor, DispatchAll, Lists, SumMap;
    var w := t.world;
    SyncSucceedsIff(w);
    WidthsSplit(w, w.chain.now - w.storage.state.lastUnbonded > env.epochPeriod);
    var sync := ActualState(w.storage, w.chain);
    if sync.Success? {
      ClaimFits(t, user, amount, sync.value);
      SyncFrame(w.storage, w.chain, sync.value);
      var st := Entered(w, sync.value, user, amount);
      EnterSucceeds(w, sync.value, user, amount);
      CloseSucceedsIff(st, w.chain, env.listing);
      UnbondDispatches(w, st, user, amount, env);
    }
  }

  lemma WidthsSplit(w: World, closes: bool)
    ensures WithinWidths(w, closes) <==> WithinWidths(w, false) && (closes ==> w.storage.batch.id < MAX_UINT64)
    ensures WithinWidths(w, false) ==> Claims(w) <= MAX_UINT128
  {
  }

  /**
   * After a slash of the whole stake requests do get stuck: none can close the epoch, since the claim is
   * worth more than the nothing that is staked.
   */
  lemma WholeSlashBlocksUnbonding(w: World, user: User, amount: nat, env: Env)
    requires Feasible(env, w.chain) && w.storage.state.bonded > 0 && Staked(w.chain) == 0
    requires amount > 0 && w.chain.now - w.storage.state.lastUnbonded > env.epochPeriod
    ensures Execute(w, Unbond(user, amount), env).Failure?
  {
    hide DispatchAll, Lists, SumMap, UndelegateResponse;
    var sync := ActualState(w.storage, w.chain);
    if sync.Success? {
      var st := Entered(w, sync.value, user, amount);
      var claim := MulFloor(st.batch.requested, st.state.rate);
      UndelegateEffect(w.chain, claim, env.listing);
      if w.chain.stakes != map[] {
        assert claim == st.batch.requested;
      }
    }
  }

  /**
   * A bond with a payment and a registered validator goes through unless a number leaves its width or the
   * rate has been slashed to zero; in particular the payment is always placed completely.
   */
  lemma BondNeverStuck(w: World, kind: BondType, payment: nat, env: Env)
    requires payment > 0 && env.registry != []
    ensures var r := Execute(w, Bond(kind, payment), env);
            r.Failure? ==> r.error == Overflow || r.error == ZeroDenominator
  {
    hide ActualState, Delegations, BondMessages, DispatchAll, SortByStake, Reported, Stakes, Sum, Sorted, Staked;
    var funded := Funded(w.chain, Bond(kind, payment));
    SyncOnlyOverflows(w.storage, funded);
    var vs := SortByStake(Reported(funded.stakes, env.registry), false);
    SortKeeps(Reported(funded.stakes, env.registry), false);
    assert |multiset(vs)| == |vs| && |multiset(Reported(funded.stakes, env.registry))| == |env.registry|;
    DelegationsConserve(Stakes(vs), payment);
    DelegationErrors(Stakes(vs), payment);
    if Delegations(Stakes(vs), payment).Success? {
      forall mint: nat
        ensures DispatchAll(funded, BondMessages(kind, vs, Delegations(Stakes(vs), payment).value, mint)).Success?
      {
        var after := BondDispatch(funded, kind, vs, payment, mint);
      }
    }
  }

  lemma SyncIgnoresBalance(st: Storage, chain: Chain, liquid: nat)
    ensures ActualState(st, chain.(liquid := liquid)) == ActualState(st, chain)
  {
  }

  /**
   * Exactly when a bond goes through: with a payment, a registered validator, a sync and a credit within their
   * widths, and room for the payment beside the registered stakes.
   */
  lemma BondSucceedsIff(w: World, kind: BondType, payment: nat, env: Env)
    requires Feasible(env, w.chain)
    ensures var sync := ActualState(w.storage, w.chain);
            Execute(w, Bond(kind, payment), env).Success?
            <==> && payment > 0 && env.registry != [] && sync.Success?
                 && CreditPayment(kind, sync.value, w.storage.batch.requested, payment).Success?
                 && Sum(Stakes(Reported(w.chain.stakes, env.registry))) + payment <= MAX_UINT128
    ensures payment == 0 ==> Execute(w, Bond(kind, payment), env) == Failure(NoFunds)
  {
    hide CreditPayment, Delegations, BondMessages, DispatchAll, SortByStake, Stakes, Sum, Sorted, Lists, ActualState;
    var funded := Funded(w.chain, Bond(kind, payment));
    SyncIgnoresBalance(w.storage, w.chain, funded.liquid);
    var report := Reported(w.chain.stakes, env.registry);
    var vs := SortByStake(report, false);
    SortKeeps(report, false);
    assert |multiset(vs)| == |vs| && |multiset(report)| == |env.registry|;
    DelegationsConserve(Stakes(vs), payment);
    if Delegations(Stakes(vs), payment).Success? {
      forall mint: nat
        ensures DispatchAll(funded, BondMessages(kind, vs, Delegations(Stakes(vs), payment).value, mint)).Success?
      {
        var after := BondDispatch(funded, kind, vs, payment, mint);
      }
    }
  }

  lemma DelegationErrors(stakes: seq<nat>, amount: nat)
    requires stakes != []
    ensures Delegations(stakes, amount).Failure? ==> Delegations(stakes, amount).error == Overflow
  {
  }
}
