/** Every number the hub stores stays within its integer width, on every run. */
module Widths {
  import opened Results
  import opened FixedPoint
  import opened Sums
  import opened Release
  import opened HubTypes
  import opened ChainModel
  import opened HubSpec
  import opened Effects
  import opened Backing
  import opened ClaimLedger
  import opened Solvency
  import opened Runs

  ghost predicate EntryFits(b: UnbondHistory) {
    b.amount <= MAX_UINT128 && b.appliedRate <= MAX_UINT128 && b.withdrawRate <= MAX_UINT128
  }

  ghost predicate StateFits(state: State) {
    state.rate <= MAX_UINT128 && state.bonded <= MAX_UINT128
  }

  ghost predicate StorageFits(st: Storage) {
    && StateFits(st.state)
    && st.batch.requested <= MAX_UINT128
    && (forall c :: c in st.wait ==> st.wait[c] <= MAX_UINT128)
    && (forall b :: b in st.history ==> EntryFits(st.history[b]))
  }

  ghost predicate Fitting(w: World) {
    StorageFits(w.storage) && w.chain.supply <= MAX_UINT128
  }

  lemma RateFits(bonded: nat, issued: nat, requested: nat)
    ensures var r := ExchangeRate(bonded, issued, requested);
            r.Success? ==> r.value <= MAX_UINT128
  {
  }

  lemma SyncFits(st: Storage, chain: Chain, synced: Synced)
    requires StateFits(st.state) && ActualState(st, chain) == Success(synced)
    ensures StateFits(synced.state)
  {
    hide ExchangeRate;
    RateFits(synced.state.bonded, chain.supply, st.batch.requested);
  }

  lemma BondFits(w: World, w': World, kind: BondType, payment: nat, synced: Synced, mint: nat)
    requires Backed(w) && Fitting(w) && BondedTo(w, w', kind, payment, synced, mint)
    ensures Fitting(w')
  {
    hide DecimalDivision, ExchangeRate, EntryFits;
    SyncKeeps(w, synced);
    SyncFits(w.storage, w.chain, synced);
    RateFits(synced.state.bonded + payment, synced.issued + mint, w.storage.batch.requested);
  }

  /** A request that goes through has been entered within the widths. */
  lemma EnterFits(w: World, user: User, amount: nat, env: Env, w': World, synced: Synced)
    requires Fitting(w) && Execute(w, Unbond(user, amount), env) == Success(w')
    requires ActualState(w.storage, w.chain) == Success(synced)
    ensures StorageFits(Entered(w, synced, user, amount))
  {
    hide ActualState, CloseBatch, DispatchAll, EntryFits;
    SyncFits(w.storage, w.chain, synced);
  }

  lemma UnbondFits(w: World, w': World, user: User, amount: nat, env: Env, synced: Synced)
    requires Fitting(w) && StorageFits(Entered(w, synced, user, amount))
    requires UnbondedTo(w, w', user, amount, env.epochPeriod, synced)
    ensures Fitting(w')
  {
    hide ActualState, MulFloor, SumMap;
  }

  lemma RepriceFits(b: UnbondHistory, total: nat, slashed: SignedInt, rate: nat)
    requires EntryFits(b) && NewWithdrawRate(b.amount, b.withdrawRate, total, slashed) == Success(rate)
    ensures EntryFits(b.(withdrawRate := rate, released := true))
  {
    hide Actual, Charge, MulFloor;
  }

  lemma ReleaseFits(st: Storage, time: nat, balance: nat, released: Storage)
    requires StorageFits(st) && ReleaseMatured(st, time, balance) == Success(released)
    ensures StorageFits(released)
  {
    hide EntryFits, NewWithdrawRate, MaturedEnd, ReleaseMatured;
    var lo, hi := ReleaseEffect(st, time, balance, released);
    var total := TotalValue(Batches(st.history, lo, hi));
    var gain := FromSubtraction(balance, st.state.prevBalance).magnitude;
    forall b | b in released.history ensures EntryFits(released.history[b]) {
      if lo <= b < hi {
        RepriceFits(st.history[b], total, FromSubtraction(total, gain), released.history[b].withdrawRate);
      }
    }
  }

  lemma TransactFits(t: Traced, msg: ExecuteMsg, env: Env, w': World)
    requires Inv(t) && Fitting(t.world) && Feasible(env, t.world.chain) && Execute(t.world, msg, env) == Success(w')
    ensures Fitting(w')
  {
    hide Execute, ActualState, BondedTo, UnbondedTo, ReleaseMatured, Payouts, LifeCycle, Ledger, PaidOnce, Backed;
    hide EntryFits;
    var w := t.world;
    match msg
    case Bond(kind, payment) =>
      var synced, mint := BondEffect(w, kind, payment, env, w');
      BondFits(w, w', kind, payment, synced, mint);
    case Unbond(user, amount) =>
      var synced := UnbondEffect(w, user, amount, env, w');
      SyncOf(w, w', user, amount, env.epochPeriod, synced);
      EnterFits(w, user, amount, env, w', synced);
      UnbondFits(w, w', user, amount, env, synced);
    case WithdrawUnbonded(user) =>
      var released := WithdrawEffect(w, user, env, w');
      ReleaseFits(w.storage, w.chain.now - env.unbondingPeriod, w.chain.liquid, released);
    case CheckSlashing =>
      var synced := SlashingEffect(w, env, w');
      SyncFits(w.storage, w.chain, synced);
  }

  lemma SyncOf(w: World, w': World, user: User, amount: nat, epochPeriod: nat, synced: Synced)
    requires UnbondedTo(w, w', user, amount, epochPeriod, synced)
    ensures ActualState(w.storage, w.chain) == Success(synced)
  {
  }

  lemma StepFits(t: Traced, step: Step)
    requires Inv(t) && Fitting(t.world)
    ensures Fitting(Apply(t, step).world)
  {
    hide Inv, Execute, StorageFits;
    if step.Tx? && Enabled(t.world, step) {
      var r := Execute(t.world, step.msg, step.env);
      if r.Success? {
        TransactFits(t, step.msg, step.env, r.value);
      }
    }
  }

  /**
   * On every run the rate, the bonded total, the token supply, the requests, every entry of the wait list and
   * every amount and rate of the history stay within 128 bits.
   */
  lemma {:induction false} RunFits(t: Traced, steps: seq<Step>)
    requires Inv(t) && Fitting(t.world)
    ensures Fitting(Run(t, steps).world)
    decreases |steps|
  {
    hide Inv, Fitting, Apply;
    if steps != [] {
      StepKeeps(t, steps[0]);
      StepFits(t, steps[0]);
      RunFits(Apply(t, steps[0]), steps[1..]);
    }
  }

  /** From instantiation on, nothing ever leaves its width. */
  lemma ReachableFits(now: nat, liquid: nat, steps: seq<Step>)
    ensures Fitting(Run(Initial(now, liquid), steps).world)
  {
    hide Inv, Run;
    InitialInv(now, liquid);
    RunFits(Initial(now, liquid), steps);
  }
}
