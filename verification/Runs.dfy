/** Every run of the hub: transactions of any users, in any order, between any events of the chain. */
module Runs {
  import opened Results
  import opened FixedPoint
  import opened Sums
  import opened Allocation
  import opened Release
  import opened HubTypes
  import opened HubSpec
  import opened Effects
  import opened Backing
  import opened ClaimLedger
  import opened Solvency

  datatype Step =
    | Tx(msg: ExecuteMsg, env: Env)
    | Tick(seconds: nat)                      // block time advances
    | Receive(coins: nat)                     // matured coins or a donation reach the hub
    | Slash(stakes: map<Address, nat>)        // the chain cuts delegations
    | Restake(stakes: map<Address, nat>)      // redelegations move stake between validators
    | BurnTokens(amount: nat)                 // a holder burns tokens

  /** A world with the record of what has been paid on each claim. */
  datatype Traced = Traced(world: World, paid: map<Claim, nat>)

  /** What can happen in a world. A slash never wipes out the whole stake while something is bonded. */
  ghost predicate Enabled(w: World, step: Step) {
    match step
    case Tx(_, env) => Feasible(env, w.chain)
    case Slash(stakes) =>
      && (forall v :: Get(stakes, v) <= Get(w.chain.stakes, v))
      && (w.storage.state.bonded > 0 ==> SumMap(stakes) > 0)
    case Restake(stakes) => SumMap(stakes) == Staked(w.chain)
    case BurnTokens(amount) => amount <= w.chain.supply
    case Tick(_) => true
    case Receive(_) => true
  }

  /** The payments that a transaction makes. */
  ghost function PaidBy(w: World, msg: ExecuteMsg, env: Env): map<Claim, nat> {
    if msg.WithdrawUnbonded? && Execute(w, msg, env).Success? then
      var released := ReleaseMatured(w.storage, w.chain.now - env.unbondingPeriod, w.chain.liquid).value;
      Payouts(released.wait, released.history, msg.user)
    else map[]
  }

  ghost function Apply(t: Traced, step: Step): Traced {
    var w, chain := t.world, t.world.chain;
    if !Enabled(w, step) then t
    else
      match step
      case Tx(msg, env) => Traced(Transact(w, msg, env), t.paid + PaidBy(w, msg, env))
      case Tick(seconds) => t.(world := w.(chain := chain.(now := chain.now + seconds)))
      case Receive(coins) => t.(world := w.(chain := chain.(liquid := chain.liquid + coins)))
      case Slash(stakes) => t.(world := w.(chain := chain.(stakes := stakes)))
      case Restake(stakes) => t.(world := w.(chain := chain.(stakes := stakes)))
      case BurnTokens(amount) => t.(world := w.(chain := chain.(supply := chain.supply - amount)))
  }

  ghost function Run(t: Traced, steps: seq<Step>): Traced
    decreases |steps|
  {
    if steps == [] then t else Run(Apply(t, steps[0]), steps[1..])
  }

  /** The hub right after instantiation, before any token exists. */
  ghost function Initial(now: nat, liquid: nat): Traced {
    Traced(World(Instantiate(now), Chain(0, map[], liquid, now)), map[])
  }

  /** What every step keeps. */
  ghost predicate Inv(t: Traced) {
    match t
    case Traced(w, paid) =>
      && Backed(w)
      && LifeCycle(w.storage, w.chain.now)
      && Ledger(w.storage)
      && PaidOnce(w.storage.wait, w.storage.history, paid)
      && w.storage.state.prevBalance <= w.chain.liquid
  }

  lemma InitialInv(now: nat, liquid: nat)
    ensures Inv(Initial(now, liquid))
  {
    var st := Instantiate(now);
    assert On(st.wait, 1) == map[];
  }

  // ---------------------------------------------------------------------------------------------
  // Each transaction keeps the invariant
  // ---------------------------------------------------------------------------------------------

  /** A change of the rate and of the bonded total concerns neither the batches nor the ledger. */
  lemma RateChangeKeeps(st: Storage, state: State, now: nat)
    requires LifeCycle(st, now) && Ledger(st)
    requires state == st.state.(rate := state.rate, bonded := state.bonded)
    ensures LifeCycle(st.(state := state), now) && Ledger(st.(state := state))
  {
  }

  lemma BondKeeps(t: Traced, w': World, kind: BondType, payment: nat, synced: Synced, mint: nat)
    requires Inv(t) && BondedTo(t.world, w', kind, payment, synced, mint)
    ensures Inv(Traced(w', t.paid))
  {
    hide Entries, PaidOnce, Ordered, ActualState, CreditPayment;
    SyncKeeps(t.world, synced);
    CreditKeeps(kind, synced, t.world.storage.batch.requested, payment, Staked(t.world.chain));
    RateChangeKeeps(t.world.storage, w'.storage.state, t.world.chain.now);
  }

  lemma SlashingKeeps(t: Traced, synced: Synced)
    requires Inv(t) && ActualState(t.world.storage, t.world.chain) == Success(synced)
    ensures Inv(Traced(t.world.(storage := t.world.storage.(state := synced.state)), t.paid))
  {
    SyncKeeps(t.world, synced);
    RateChangeKeeps(t.world.storage, synced.state, t.world.chain.now);
  }

  lemma EnterKeepsEntries(wait: map<Claim, nat>, history: map<nat, UnbondHistory>, batch: CurrentBatch, user: User,
                          amount: nat)
    requires Entries(wait, history, batch) && batch.id >= 1 && batch.id !in history
    ensures var c := Claim(user, batch.id);
            Entries(wait[c := Get(wait, c) + amount], history, CurrentBatch(batch.id, batch.requested + amount))
  {
    var c := Claim(user, batch.id);
    var wait' := wait[c := Get(wait, c) + amount];
    forall b ensures Open(wait', b) == Open(wait, b) + if c.batch == b then amount else 0 {
      EnterKeepsOpen(wait, c, amount, b);
    }
  }

  lemma EnterKeepsPaidOnce(wait: map<Claim, nat>, history: map<nat, UnbondHistory>, c: Claim, amount: nat,
                           paid: map<Claim, nat>)
    requires PaidOnce(wait, history, paid) && !IsReleased(history, c.batch)
    ensures PaidOnce(wait[c := amount], history, paid)
  {
    EnterKeepsOwed(wait, c, amount, history);
  }

  lemma EnterKeeps(w: World, synced: Synced, user: User, amount: nat, paid: map<Claim, nat>)
    requires LifeCycle(w.storage, w.chain.now) && Ledger(w.storage)
    requires PaidOnce(w.storage.wait, w.storage.history, paid)
    requires synced.state == w.storage.state.(rate := synced.state.rate, bonded := synced.state.bonded)
    ensures var st := Entered(w, synced, user, amount);
            LifeCycle(st, w.chain.now) && Ledger(st) && PaidOnce(st.wait, st.history, paid)
  {
    hide Entries, PaidOnce;
    var c := Claim(user, w.storage.batch.id);
    EnterKeepsEntries(w.storage.wait, w.storage.history, w.storage.batch, user, amount);
    EnterKeepsPaidOnce(w.storage.wait, w.storage.history, c, Get(w.storage.wait, c) + amount, paid);
  }

  lemma CloseKeepsLedger(st: Storage, now: nat)
    requires LifeCycle(st, now) && Ledger(st)
    requires MulFloor(st.batch.requested, st.state.rate) <= st.state.bonded
    requires st.state.lastUnbonded < now && st.batch.id < MAX_UINT64
    ensures LifeCycle(Closed(st, now), now) && Ledger(Closed(st, now))
  {
    NothingBeyond(st, st.batch.id + 1);
  }

  lemma CloseKeepsPaidOnce(wait: map<Claim, nat>, history: map<nat, UnbondHistory>, b: nat, closed: UnbondHistory,
                           paid: map<Claim, nat>)
    requires PaidOnce(wait, history, paid) && b !in history && !closed.released
    ensures PaidOnce(wait, history[b := closed], paid)
  {
    forall j ensures IsReleased(history[b := closed], j) <==> IsReleased(history, j) {
    }
  }

  lemma CloseKeepsAll(w: World, st: Storage, staked: nat, amount: nat, paid: map<Claim, nat>)
    requires amount <= w.chain.supply
    requires BackedBy(st.state, w.chain.supply - amount + st.batch.requested, Staked(w.chain))
    requires st.state.bonded <= Staked(w.chain)
    requires LifeCycle(st, w.chain.now) && Ledger(st) && PaidOnce(st.wait, st.history, paid)
    requires st.state.lastUnbonded < w.chain.now && st.batch.id < MAX_UINT64
    requires staked + MulFloor(st.batch.requested, st.state.rate) == Staked(w.chain)
    ensures MulFloor(st.batch.requested, st.state.rate) <= st.state.bonded
    ensures var st' := Closed(st, w.chain.now);
            && BackedBy(st'.state, w.chain.supply - amount, staked)
            && LifeCycle(st', w.chain.now) && Ledger(st') && PaidOnce(st'.wait, st'.history, paid)
  {
    var claim := MulFloor(st.batch.requested, st.state.rate);
    CloseKeeps(st.state, w.chain.supply - amount, st.batch.requested, Staked(w.chain), claim);
    CloseKeepsLedger(st, w.chain.now);
    var closed := Closed(st, w.chain.now).history[st.batch.id];
    CloseKeepsPaidOnce(st.wait, st.history, st.batch.id, closed, paid);
  }

  lemma UnbondKeeps(t: Traced, w': World, user: User, amount: nat, epochPeriod: nat, synced: Synced)
    requires Inv(t) && UnbondedTo(t.world, w', user, amount, epochPeriod, synced)
    ensures Inv(Traced(w', t.paid))
  {
    hide Entries, PaidOnce, Ordered, ActualState, MulFloor;
    var w := t.world;
    SyncKeeps(w, synced);
    EnterKeeps(w, synced, user, amount, t.paid);
    var st := Entered(w, synced, user, amount);
    if w.chain.now - st.state.lastUnbonded > epochPeriod {
      CloseKeepsAll(w, st, Staked(w'.chain), amount, t.paid);
    }
  }

  lemma PayKeepsLedger(st: Storage, now: nat, user: User, prevBalance: nat)
    requires LifeCycle(st, now) && Ledger(st)
    ensures var st' := st.(wait := st.wait - Payouts(st.wait, st.history, user).Keys,
                           state := st.state.(prevBalance := prevBalance));
            LifeCycle(st', now) && Ledger(st')
  {
    var gone := Payouts(st.wait, st.history, user).Keys;
    RemoveOpen(st.wait, gone, st.batch.id);
    forall b | b in st.history
      ensures if st.history[b].released then Open(st.wait - gone, b) <= st.history[b].amount
              else Open(st.wait - gone, b) == st.history[b].amount
    {
      RemoveOpen(st.wait, gone, b);
    }
  }

  lemma ReleaseKeepsLedger(st: Storage, now: nat, time: nat, balance: nat, after: Storage)
    requires LifeCycle(st, now) && Ledger(st) && ReleaseMatured(st, time, balance) == Success(after)
    ensures Ledger(after) && after.state == st.state.(lastProcessed := after.state.lastProcessed)
  {
    var lo, hi := ReleaseEffect(st, time, balance, after);
    forall b | b in after.history
      ensures if after.history[b].released then Open(after.wait, b) <= after.history[b].amount
              else Open(after.wait, b) == after.history[b].amount
    {
      ReleasesExactlyMatured(st, now, time, balance, after, b);
    }
  }

  /** The release pass inside a withdrawal. */
  lemma ReleaseKeeps(st: Storage, now: nat, time: nat, balance: nat, released: Storage, paid: map<Claim, nat>)
    requires LifeCycle(st, now) && Ledger(st) && PaidOnce(st.wait, st.history, paid)
    requires ReleaseMatured(st, time, balance) == Success(released)
    ensures LifeCycle(released, now) && Ledger(released) && PaidOnce(released.wait, released.history, paid)
    ensures released.batch == st.batch && released.state == st.state.(lastProcessed := released.state.lastProcessed)
  {
    ReleaseKeepsLifeCycle(st, now, time, balance, released);
    ReleaseKeepsLedger(st, now, time, balance, released);
    ReleaseKeepsPaidOnce(st, now, time, balance, released, paid);
    var lo, hi := ReleaseEffect(st, time, balance, released);
  }

  lemma WithdrawKeeps(t: Traced, w': World, user: User, time: nat, released: Storage)
    requires Inv(t) && WithdrawnTo(t.world, w', user, time, released)
    ensures Inv(Traced(w', t.paid + Payouts(released.wait, released.history, user)))
  {
    hide Entries, PaidOnce, Ordered, ReleaseMatured;
    var w := t.world;
    ReleaseKeeps(w.storage, w.chain.now, time, w.chain.liquid, released, t.paid);
    PayKeepsLedger(released, w.chain.now, user, w'.chain.liquid);
    PayingKeepsPaidOnce(released.wait, released.history, user, t.paid);
  }

  lemma TransactKeeps(t: Traced, msg: ExecuteMsg, env: Env, w': World)
    requires Inv(t) && Feasible(env, t.world.chain) && Execute(t.world, msg, env) == Success(w')
    ensures Inv(Traced(w', t.paid + PaidBy(t.world, msg, env)))
  {
    hide Inv, BondedTo, UnbondedTo, WithdrawnTo, Execute, ActualState, ReleaseMatured, Payouts;
    var w := t.world;
    if msg.WithdrawUnbonded? {
      var released := WithdrawEffect(w, msg.user, env, w');
      WithdrawKeeps(t, w', msg.user, w.chain.now - env.unbondingPeriod, released);
    } else {
      assert t.paid + PaidBy(w, msg, env) == t.paid;
      if msg.Bond? {
        var synced, mint := BondEffect(w, msg.kind, msg.payment, env, w');
        BondKeeps(t, w', msg.kind, msg.payment, synced, mint);
      } else if msg.Unbond? {
        var synced := UnbondEffect(w, msg.user, msg.amount, env, w');
        UnbondKeeps(t, w', msg.user, msg.amount, env.epochPeriod, synced);
      } else {
        var synced := SlashingEffect(w, env, w');
        SlashingKeeps(t, synced);
      }
    }
  }

  /** A transaction that fails, for whatever reason, leaves the world and the payments as they were. */
  lemma FailedTransactionChangesNothing(t: Traced, msg: ExecuteMsg, env: Env)
    requires Execute(t.world, msg, env).Failure?
    ensures Apply(t, Tx(msg, env)) == t
  {
    hide Execute, Feasible, PaidBy;
    NothingPaidBy(t.world, msg, env);
    assert t.paid + map[] == t.paid;
  }

  /** The events of the chain keep the invariant. */
  lemma EventKeeps(t: Traced, step: Step)
    requires Inv(t) && !step.Tx?
    ensures Inv(Apply(t, step))
  {
    if step.BurnTokens? && Enabled(t.world, step) {
      MulLe(Claims(t.world) - step.amount, Claims(t.world), t.world.storage.state.rate);
    }
  }

  /** Every step, enabled or not, keeps the invariant. */
  lemma StepKeeps(t: Traced, step: Step)
    requires Inv(t)
    ensures Inv(Apply(t, step))
  {
    hide Inv, PaidBy, Execute;
    if !step.Tx? {
      EventKeeps(t, step);
    } else if Enabled(t.world, step) {
      var r := Execute(t.world, step.msg, step.env);
      if r.Success? {
        TransactKeeps(t, step.msg, step.env, r.value);
      } else {
        FailedTransactionChangesNothing(t, step.msg, step.env);
      }
    }
  }

  lemma NothingPaidBy(w: World, msg: ExecuteMsg, env: Env)
    requires Execute(w, msg, env).Failure?
    ensures PaidBy(w, msg, env) == map[]
  {
    hide Execute, ReleaseMatured, Payouts;
  }

  /** The invariant holds in every reachable world. */
  lemma {:induction false} RunKeeps(t: Traced, steps: seq<Step>)
    requires Inv(t)
    ensures Inv(Run(t, steps))
    decreases |steps|
  {
    if steps != [] {
      StepKeeps(t, steps[0]);
      RunKeeps(Apply(t, steps[0]), steps[1..]);
    }
  }
}
