/** Solvency and payment over whole runs. */
module SolvencyRuns {
  import opened Results
  import opened FixedPoint
  import opened Sums
  import opened Release
  import opened HubTypes
  import opened HubSpec
  import opened Effects
  import opened Backing
  import opened ClaimLedger
  import opened Solvency
  import opened Runs

  /** The step is a withdrawal that goes through. Any other withdrawal is rolled back. */
  ghost predicate Withdraws(w: World, step: Step) {
    && step.Tx? && step.msg.WithdrawUnbonded? && step.env.unbondingPeriod <= w.chain.now
    && Enabled(w, step) && Execute(w, step.msg, step.env).Success?
  }

  /** The batches that the step releases. */
  ghost function ReleasedBy(w: World, step: Step): seq<UnbondHistory>
    requires Withdraws(w, step)
  {
    Pending(w.storage, w.chain.now - step.env.unbondingPeriod)
  }

  /** The coins that reached the hub since the last withdrawal. */
  function Gain(w: World): nat {
    Above(w.chain.liquid, w.storage.state.prevBalance)
  }

  ghost predicate StepCovered(w: World, step: Step) {
    Withdraws(w, step) ==> Covered(ReleasedBy(w, step), Gain(w))
  }

  /** The release of every withdrawal that goes through is covered. */
  ghost predicate RunCovered(t: Traced, steps: seq<Step>)
    decreases |steps|
  {
    steps == [] || (StepCovered(t.world, steps[0]) && RunCovered(Apply(t, steps[0]), steps[1..]))
  }

  /** The same with the plain guard of each release: some coins arrived, no dust, a loss that is not huge. */
  ghost predicate RunGuarded(t: Traced, steps: seq<Step>)
    decreases |steps|
  {
    steps == []
    || (&& (Withdraws(t.world, steps[0]) ==> Guarded(ReleasedBy(t.world, steps[0]), Gain(t.world)))
        && RunGuarded(Apply(t, steps[0]), steps[1..]))
  }

  lemma {:induction false} GuardedIsCovered(t: Traced, steps: seq<Step>)
    requires RunGuarded(t, steps)
    ensures RunCovered(t, steps)
    decreases |steps|
  {
    hide Withdraws, Pending, Guarded, Covered;
    if steps != [] {
      if Withdraws(t.world, steps[0]) {
        GuardCovers(ReleasedBy(t.world, steps[0]), Gain(t.world));
      }
      GuardedIsCovered(Apply(t, steps[0]), steps[1..]);
    }
  }

  ghost predicate StepAffordable(w: World, step: Step) {
    Withdraws(w, step) ==> Affordable(w.storage, w.chain.now - step.env.unbondingPeriod, w.chain.liquid)
  }

  /** Every withdrawal that goes through can be afforded. */
  ghost predicate RunAffordable(t: Traced, steps: seq<Step>)
    decreases |steps|
  {
    steps == [] || (StepAffordable(t.world, steps[0]) && RunAffordable(Apply(t, steps[0]), steps[1..]))
  }

  /** The hub is solvent in every world along the run. */
  ghost predicate AlwaysSolvent(t: Traced, steps: seq<Step>)
    decreases |steps|
  {
    Solvent(t.world.storage) && (steps == [] || AlwaysSolvent(Apply(t, steps[0]), steps[1..]))
  }

  // ---------------------------------------------------------------------------------------------
  // Solvency
  // ---------------------------------------------------------------------------------------------

  lemma EnterStaysSolvent(st: Storage, now: nat, synced: Synced, st': Storage, user: User, amount: nat)
    requires LifeCycle(st, now) && Solvent(st)
    requires synced.state == st.state.(bonded := synced.state.bonded, rate := synced.state.rate)
    requires st' == Entered(World(st, Chain(0, map[], 0, now)), synced, user, amount)
    ensures Solvent(st')
  {
    hide Owed, MulFloor;
    var c := Claim(user, st.batch.id);
    assert !IsReleased(st.history, c.batch);
    EnterKeepsOwed(st.wait, c, Get(st.wait, c) + amount, st.history);
  }

  lemma CloseStaysSolvent(st: Storage, now: nat)
    requires LifeCycle(st, now) && Solvent(st) && MulFloor(st.batch.requested, st.state.rate) <= st.state.bonded
    ensures Solvent(Closed(st, now))
  {
    hide Owed, MulFloor;
    assert st.batch.id !in st.history;
    var closed := Closed(st, now).history[st.batch.id];
    CloseKeepsOwed(st.wait, st.history, st.batch.id, closed);
  }

  lemma UnbondStaysSolvent(w: World, w': World, user: User, amount: nat, epochPeriod: nat, synced: Synced)
    requires LifeCycle(w.storage, w.chain.now) && UnbondedTo(w, w', user, amount, epochPeriod, synced)
    requires Solvent(w.storage)
    ensures Solvent(w'.storage)
  {
    hide ActualState, Solvent, Ordered, MulFloor;
    var st := Entered(w, synced, user, amount);
    SyncFrame(w.storage, w.chain, synced);
    EnterStaysSolvent(w.storage, w.chain.now, synced, st, user, amount);
    if w.chain.now - st.state.lastUnbonded > epochPeriod {
      CloseStaysSolvent(st, w.chain.now);
    }
  }

  /** A paid withdrawal leaves the rest payable exactly when the release could be afforded. */
  lemma PayingSolventIff(st: Storage, now: nat, user: User, time: nat, balance: nat, released: Storage)
    requires LifeCycle(st, now) && Ledger(st) && st.state.prevBalance <= balance
    requires ReleaseMatured(st, time, balance) == Success(released)
    ensures var payouts := Payouts(released.wait, released.history, user);
            SumMap(Owed(released.wait - payouts.Keys, released.history)) + SumMap(payouts) <= balance
            <==> Affordable(st, time, balance)
  {
    hide LifeCycle, Ledger, ReleaseMatured, PendingRepriced, Dues, Owed;
    ReleaseIsReprice(st, time, balance, released);
    ReleaseAddsDues(st, now, time, balance - st.state.prevBalance, released);
    PayingReducesOwed(released.wait, released.history, user);
  }

  /** A withdrawal that goes through leaves the hub solvent if and only if it could be afforded. */
  lemma WithdrawalSolventIff(t: Traced, user: User, env: Env, w': World)
    requires Inv(t) && Execute(t.world, WithdrawUnbonded(user), env) == Success(w')
    ensures env.unbondingPeriod <= t.world.chain.now
    ensures Solvent(w'.storage)
            <==> Affordable(t.world.storage, t.world.chain.now - env.unbondingPeriod, t.world.chain.liquid)
  {
    hide Execute, LifeCycle, Ledger, PaidOnce, Backed, ReleaseMatured, Affordable, Owed, Payouts;
    var w := t.world;
    var released := WithdrawEffect(w, user, env, w');
    PayingSolventIff(w.storage, w.chain.now, user, w.chain.now - env.unbondingPeriod, w.chain.liquid, released);
  }

  /** No other transaction makes a solvent hub insolvent. */
  lemma TransactStaysSolvent(t: Traced, msg: ExecuteMsg, env: Env, w': World)
    requires Inv(t) && Feasible(env, t.world.chain) && Execute(t.world, msg, env) == Success(w')
    requires Solvent(t.world.storage) && !msg.WithdrawUnbonded?
    ensures Solvent(w'.storage)
  {
    hide Execute, Ordered, Entries, PaidOnce, ActualState, Backed, UnbondedTo, Owed;
    var w := t.world;
    if msg.Bond? {
      var synced, mint := BondEffect(w, msg.kind, msg.payment, env, w');
      SyncFrame(w.storage, w.chain, synced);
    } else if msg.Unbond? {
      var synced := UnbondEffect(w, msg.user, msg.amount, env, w');
      UnbondStaysSolvent(w, w', msg.user, msg.amount, env.epochPeriod, synced);
    } else {
      var synced := SlashingEffect(w, env, w');
      SyncFrame(w.storage, w.chain, synced);
    }
  }

  /** A step keeps a solvent hub solvent if and only if it can be afforded. */
  lemma StepSolventIff(t: Traced, step: Step)
    requires Inv(t) && Solvent(t.world.storage)
    ensures Solvent(Apply(t, step).world.storage) <==> StepAffordable(t.world, step)
  {
    hide Inv, Execute, Feasible, Solvent, Affordable;
    if step.Tx? && Enabled(t.world, step) {
      var r := Execute(t.world, step.msg, step.env);
      if r.Success? {
        if step.msg.WithdrawUnbonded? {
          WithdrawalSolventIff(t, step.msg.user, step.env, r.value);
        } else {
          TransactStaysSolvent(t, step.msg, step.env, r.value);
        }
      }
    } else {
      EventStaysSolvent(t, step);
    }
  }

  lemma EventStaysSolvent(t: Traced, step: Step)
    requires Solvent(t.world.storage) && (!step.Tx? || !Enabled(t.world, step))
    ensures Solvent(Apply(t, step).world.storage)
  {
  }

  /** In a solvent world a covered release can be afforded. */
  lemma CoveredReleaseIsAffordable(t: Traced, env: Env, released: Storage)
    requires Inv(t) && Solvent(t.world.storage) && env.unbondingPeriod <= t.world.chain.now
    requires ReleaseMatured(t.world.storage, t.world.chain.now - env.unbondingPeriod, t.world.chain.liquid)
             == Success(released)
    requires Covered(Pending(t.world.storage, t.world.chain.now - env.unbondingPeriod), Gain(t.world))
    ensures Affordable(t.world.storage, t.world.chain.now - env.unbondingPeriod, t.world.chain.liquid)
  {
    hide LifeCycle, Ledger, PaidOnce, Affordable, ReleaseMatured, Backed, Solvent, Covered, Pending;
    var w := t.world;
    var time := w.chain.now - env.unbondingPeriod;
    ReleaseIsReprice(w.storage, time, w.chain.liquid, released);
    CoveredIsAffordable(w.storage, w.chain.now, time, w.chain.liquid - w.storage.state.prevBalance, released);
  }

  lemma CoveredStepIsAffordable(t: Traced, step: Step)
    requires Inv(t) && Solvent(t.world.storage) && StepCovered(t.world, step)
    ensures StepAffordable(t.world, step)
  {
    hide Inv, Solvent, Execute, ReleaseMatured, Covered, Pending, Affordable;
    if Withdraws(t.world, step) {
      var r := Execute(t.world, step.msg, step.env);
      var released := WithdrawEffect(t.world, step.msg.user, step.env, r.value);
      CoveredReleaseIsAffordable(t, step.env, released);
    }
  }

  /**
   * The exact condition, for every run: a solvent hub is solvent in every world of the run if and only if
   * every withdrawal that goes through can be afforded.
   */
  lemma {:induction false} AlwaysSolventIff(t: Traced, steps: seq<Step>)
    requires Inv(t) && Solvent(t.world.storage)
    ensures AlwaysSolvent(t, steps) <==> RunAffordable(t, steps)
    decreases |steps|
  {
    hide Inv, Apply, Solvent, StepAffordable;
    if steps != [] {
      StepKeeps(t, steps[0]);
      StepSolventIff(t, steps[0]);
      if Solvent(Apply(t, steps[0]).world.storage) {
        AlwaysSolventIff(Apply(t, steps[0]), steps[1..]);
      } else {
        NotAlways(Apply(t, steps[0]), steps[1..]);
      }
    }
  }

  lemma NotAlways(t: Traced, steps: seq<Step>)
    requires !Solvent(t.world.storage)
    ensures !AlwaysSolvent(t, steps)
  {
  }

  lemma {:induction false} SolventAtEnd(t: Traced, steps: seq<Step>)
    requires AlwaysSolvent(t, steps)
    ensures Solvent(Run(t, steps).world.storage)
    decreases |steps|
  {
    hide Apply, Solvent;
    if steps != [] {
      SolventAtEnd(Apply(t, steps[0]), steps[1..]);
    }
  }

  /**
   * Whole-run solvency: in every reachable world, what released and unpaid claims cost is at most the
   * accounted balance, which is at most the coins the hub holds.
   */
  lemma {:induction false} RunStaysSolvent(t: Traced, steps: seq<Step>)
    requires Inv(t) && Solvent(t.world.storage) && RunCovered(t, steps)
    ensures AlwaysSolvent(t, steps)
    ensures var w := Run(t, steps).world;
            SumMap(Owed(w.storage.wait, w.storage.history)) <= w.storage.state.prevBalance <= w.chain.liquid
    decreases |steps|
  {
    hide Apply, StepCovered, StepAffordable;
    if steps != [] {
      StepKeeps(t, steps[0]);
      CoveredStepIsAffordable(t, steps[0]);
      StepSolventIff(t, steps[0]);
      RunStaysSolvent(Apply(t, steps[0]), steps[1..]);
    }
  }

  /**
   * When solvency is lost: a withdrawal that goes through leaves more owed than the hub holds if its release
   * credits more than the gain and the reserve together, by more than the rounding of the released claims.
   */
  lemma ExcessBreaksSolvency(t: Traced, user: User, env: Env, w': World)
    requires Inv(t) && Execute(t.world, WithdrawUnbonded(user), env) == Success(w')
    requires env.unbondingPeriod <= t.world.chain.now
    requires var st := t.world.storage;
             var bs := Pending(st, t.world.chain.now - env.unbondingPeriod);
             SumMap(Owed(st.wait, st.history)) + Credits(bs, Gain(t.world))
             > t.world.chain.liquid + Rounding(st.wait, bs)
    ensures !Solvent(w'.storage)
  {
    hide LifeCycle, Ledger, PaidOnce, Backed, Solvent, Execute, ReleaseMatured, Pending, Affordable, Owed, Credits,
         Rounding;
    var w := t.world;
    var time, gain := w.chain.now - env.unbondingPeriod, w.chain.liquid - w.storage.state.prevBalance;
    var released := WithdrawEffect(w, user, env, w');
    ReleaseIsReprice(w.storage, time, w.chain.liquid, released);
    ExcessIsNotAffordable(w.storage, w.chain.now, time, gain, released);
    WithdrawalSolventIff(t, user, env, w');
  }

  /**
   * The exact condition when no coin arrived for released batches worth up to 10^18: the hub holds enough for
   * what was owed before and for one coin more per batch that is worth nothing or has an exact weight, and is
   * held by one claim that divides 10^18.
   */
  lemma NothingArrivedSolventIff(t: Traced, user: User, env: Env, w': World)
    requires Inv(t) && Execute(t.world, WithdrawUnbonded(user), env) == Success(w')
    requires env.unbondingPeriod <= t.world.chain.now && Gain(t.world) == 0
    requires 0 < TotalValue(Pending(t.world.storage, t.world.chain.now - env.unbondingPeriod)) <= ONE
    ensures var st := t.world.storage;
            var bs := Pending(st, t.world.chain.now - env.unbondingPeriod);
            Solvent(w'.storage)
            <==> SumMap(Owed(st.wait, st.history)) + CoinsTaken(st.wait, bs, TotalValue(bs)) <= t.world.chain.liquid
  {
    hide LifeCycle, Ledger, PaidOnce, Backed, Solvent, Execute, ReleaseMatured, Pending, Owed, TotalValue, CoinsTaken,
         Dues;
    var w := t.world;
    var time := w.chain.now - env.unbondingPeriod;
    var released := WithdrawEffect(w, user, env, w');
    ReleaseIsReprice(w.storage, time, w.chain.liquid, released);
    NothingArrivedDues(w.storage, w.chain.now, time, released);
    WithdrawalSolventIff(t, user, env, w');
  }

  lemma InitialSolvent(now: nat, liquid: nat)
    ensures Solvent(Initial(now, liquid).world.storage)
  {
    var st := Instantiate(now);
    assert Owed(st.wait, st.history) == map[];
  }

  /** From instantiation on, guarded releases keep the hub solvent for ever. */
  lemma ReachableSolvent(now: nat, liquid: nat, steps: seq<Step>)
    requires RunGuarded(Initial(now, liquid), steps)
    ensures var w := Run(Initial(now, liquid), steps).world;
            SumMap(Owed(w.storage.wait, w.storage.history)) <= w.storage.state.prevBalance <= w.chain.liquid
  {
    hide *;
    InitialInv(now, liquid);
    InitialSolvent(now, liquid);
    GuardedIsCovered(Initial(now, liquid), steps);
    RunStaysSolvent(Initial(now, liquid), steps);
  }

  /** A withdrawal whose payouts are covered by the balance succeeds, or there was nothing to pay. */
  lemma PaidIfCovered(w: World, user: User, env: Env, released: Storage)
    requires env.unbondingPeriod <= w.chain.now
    requires ReleaseMatured(w.storage, w.chain.now - env.unbondingPeriod, w.chain.liquid) == Success(released)
    requires SumMap(Payouts(released.wait, released.history, user)) <= w.chain.liquid
    ensures var r := Execute(w, WithdrawUnbonded(user), env);
            r.Failure? ==> r.error == NothingWithdrawable || r.error == Overflow
  {
    hide ReleaseMatured, Payouts;
    OnlyMessage(w.chain, Send(user, SumMap(Payouts(released.wait, released.history, user))));
  }

  /** A release that can be afforded leaves enough for any one user. */
  lemma PayoutsAffordable(t: Traced, user: User, env: Env, released: Storage)
    requires Inv(t) && env.unbondingPeriod <= t.world.chain.now
    requires ReleaseMatured(t.world.storage, t.world.chain.now - env.unbondingPeriod, t.world.chain.liquid)
             == Success(released)
    requires Affordable(t.world.storage, t.world.chain.now - env.unbondingPeriod, t.world.chain.liquid)
    ensures SumMap(Payouts(released.wait, released.history, user)) <= t.world.chain.liquid
  {
    hide LifeCycle, Ledger, PaidOnce, Affordable, ReleaseMatured, Backed, Owed, Payouts;
    var w := t.world;
    PayingSolventIff(w.storage, w.chain.now, user, w.chain.now - env.unbondingPeriod, w.chain.liquid, released);
  }

  /** In a solvent world the subtraction that pays a user never fails; a withdrawal pays or has nothing to pay. */
  lemma WithdrawNeverShort(t: Traced, user: User, env: Env)
    requires Inv(t) && Solvent(t.world.storage)
    requires env.unbondingPeriod <= t.world.chain.now ==>
               Covered(Pending(t.world.storage, t.world.chain.now - env.unbondingPeriod), Gain(t.world))
    ensures var r := Execute(t.world, WithdrawUnbonded(user), env);
            r.Failure? ==> r.error == NothingWithdrawable || r.error == Overflow
  {
    hide *;
    var w := t.world;
    if w.chain.now < env.unbondingPeriod {
      FailsBeforePaying(w, user, env);
    } else {
      var r := ReleaseMatured(w.storage, w.chain.now - env.unbondingPeriod, w.chain.liquid);
      if r.Success? {
        CoveredReleaseIsAffordable(t, env, r.value);
        PayoutsAffordable(t, user, env, r.value);
        PaidIfCovered(w, user, env, r.value);
      } else {
        FailsBeforePaying(w, user, env);
      }
    }
  }

  lemma NothingSent(w: World, user: User, env: Env, released: Storage)
    requires env.unbondingPeriod <= w.chain.now
    requires ReleaseMatured(w.storage, w.chain.now - env.unbondingPeriod, w.chain.liquid) == Success(released)
    ensures Execute(w, WithdrawUnbonded(user), env) == Failure(NothingWithdrawable)
            <==> SumMap(Payouts(released.wait, released.history, user)) == 0
  {
    hide ReleaseMatured, Payouts, SumMap;
    OnlyMessage(w.chain, Send(user, SumMap(Payouts(released.wait, released.history, user))));
  }

  lemma NothingPaidIff(wait: map<Claim, nat>, history: map<nat, UnbondHistory>, user: User)
    ensures SumMap(Payouts(wait, history, user)) == 0
            <==> forall c :: c in wait && c.user == user && IsReleased(history, c.batch) ==>
                   MulFloor(wait[c], history[c.batch].withdrawRate) == 0
  {
    hide MulFloor, SumMap;
    var payouts := Payouts(wait, history, user);
    if c :| c in payouts && payouts[c] != 0 {
      SumMapRemove(payouts, c);
    } else {
      forall c | c in wait && c.user == user && IsReleased(history, c.batch)
        ensures MulFloor(wait[c], history[c.batch].withdrawRate) == 0
      {
        assert c in payouts;
      }
      AllZero(payouts);
    }
  }

  /** Nothing is withdrawable exactly when each of the user's claims is unreleased or worth no coin at its rate. */
  lemma NothingWithdrawableIff(w: World, user: User, env: Env, released: Storage)
    requires env.unbondingPeriod <= w.chain.now
    requires ReleaseMatured(w.storage, w.chain.now - env.unbondingPeriod, w.chain.liquid) == Success(released)
    ensures Execute(w, WithdrawUnbonded(user), env) == Failure(NothingWithdrawable)
            <==> forall c :: c in w.storage.wait && c.user == user && IsReleased(released.history, c.batch) ==>
                   MulFloor(w.storage.wait[c], released.history[c.batch].withdrawRate) == 0
  {
    hide ReleaseMatured, MulFloor, SumMap, Payouts, Execute, IsReleased;
    ReleaseKeepsWait(w.storage, w.chain.now - env.unbondingPeriod, w.chain.liquid, released);
    NothingPaidIff(released.wait, released.history, user);
    NothingSent(w, user, env, released);
  }

  /** A withdrawal that fails before anything is paid out fails on a width. */
  lemma FailsBeforePaying(w: World, user: User, env: Env)
    requires w.chain.now < env.unbondingPeriod
             || ReleaseMatured(w.storage, w.chain.now - env.unbondingPeriod, w.chain.liquid).Failure?
    ensures Execute(w, WithdrawUnbonded(user), env) == Failure(Overflow)
  {
    hide ReleaseMatured, Payouts;
    if env.unbondingPeriod <= w.chain.now {
      ReleaseOverflows(w.storage, w.chain.now - env.unbondingPeriod, w.chain.liquid);
    }
  }

  /** A release pass fails only when a number leaves its width. */
  lemma ReleaseOverflows(st: Storage, time: nat, balance: nat)
    requires ReleaseMatured(st, time, balance).Failure?
    ensures ReleaseMatured(st, time, balance).error == Overflow
  {
    var lo := st.state.lastProcessed + 1;
    var hi := MaturedEnd(st.history, lo, time);
    var total := TotalValue(Batches(st.history, lo, hi));
    var gain := FromSubtraction(balance, st.state.prevBalance).magnitude;
    if total <= MAX_UINT128 {
      RepriceOverflows(st.history, lo, hi, total, FromSubtraction(total, gain));
    }
  }

  lemma {:induction false} RepriceOverflows(history: map<nat, UnbondHistory>, lo: nat, hi: nat, total: nat,
                                            slashed: SignedInt)
    requires lo <= hi && forall j :: lo <= j < hi ==> j in history
    requires Reprice(history, lo, hi, total, slashed).Failure?
    ensures Reprice(history, lo, hi, total, slashed).error == Overflow
    decreases hi - lo
  {
    if Reprice(history, lo, hi - 1, total, slashed).Failure? {
      RepriceOverflows(history, lo, hi - 1, total, slashed);
    }
  }

  // ---------------------------------------------------------------------------------------------
  // Payments
  // ---------------------------------------------------------------------------------------------

  /** What has been paid on a batch never exceeds the whole batch at its released rate. */
  lemma PaidWithinBatch(t: Traced, steps: seq<Step>, b: nat)
    requires Inv(t)
    ensures var after := Run(t, steps);
            var history := after.world.storage.history;
            if IsReleased(history, b) then
              Open(after.paid, b) <= MulFloor(history[b].amount, history[b].withdrawRate)
            else
              Open(after.paid, b) == 0
  {
    RunKeeps(t, steps);
    var after := Run(t, steps);
    if !IsReleased(after.world.storage.history, b) {
      NothingPaid(after.paid, b);
    }
  }

  /** Only claims that are still waiting are paid. */
  lemma PaysWaitingClaims(w: World, msg: ExecuteMsg, env: Env)
    ensures PaidBy(w, msg, env).Keys <= w.storage.wait.Keys
  {
    hide Payouts, Execute, ReleaseMatured;
    if msg.WithdrawUnbonded? {
      var r := Execute(w, msg, env);
      if r.Success? {
        var released := WithdrawEffect(w, msg.user, env, r.value);
        assert PaidBy(w, msg, env) == Payouts(released.wait, released.history, msg.user);
        var lo, hi := ReleaseEffect(w.storage, w.chain.now - env.unbondingPeriod, w.chain.liquid, released);
        PayoutsWait(released.wait, released.history, msg.user);
      }
    }
  }

  lemma PayoutsWait(wait: map<Claim, nat>, history: map<nat, UnbondHistory>, user: User)
    ensures Payouts(wait, history, user).Keys <= wait.Keys
  {
  }

  lemma StepPays(t: Traced, step: Step)
    requires Inv(t)
    ensures forall c :: c in t.paid ==> c in Apply(t, step).paid && Apply(t, step).paid[c] == t.paid[c]
  {
    hide PaidBy, Transact, Backed, LifeCycle, Ledger;
    if step.Tx? {
      PaysWaitingClaims(t.world, step.msg, step.env);
    }
  }

  /** A claim once paid stays settled: it is recorded for ever and never again in the wait list. */
  lemma {:induction false} PaidForEver(t: Traced, steps: seq<Step>, c: Claim)
    requires Inv(t) && c in t.paid
    ensures var after := Run(t, steps);
            c in after.paid && after.paid[c] == t.paid[c] && c !in after.world.storage.wait
    decreases |steps|
  {
    if steps != [] {
      StepKeeps(t, steps[0]);
      StepPays(t, steps[0]);
      PaidForEver(Apply(t, steps[0]), steps[1..], c);
    }
  }
}
