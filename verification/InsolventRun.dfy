/** A whole run, from instantiation on, in which one user is paid the coin that another user is owed. */
module InsolventRun {
  import opened Results
  import opened FixedPoint
  import opened Sums
  import opened Allocation
  import opened Sorting
  import opened Release
  import opened HubTypes
  import opened ChainModel
  import opened HubSpec
  import opened Effects
  import opened ClaimLedger
  import opened Solvency
  import opened Runs
  import opened SolvencyRuns

  const CAROL: Claim := Claim("carol", 1)
  const ALICE: Claim := Claim("alice", 1)
  const BOB: Claim := Claim("bob", 2)

  /** One registered validator, epochs of ten seconds, unbonding in fifty. */
  function With(listing: seq<Address>): Env {
    Env(listing, ["v"], 10, 50)
  }

  function Pool(stake: nat): map<Address, nat> {
    map["v" := stake]
  }

  function First(): UnbondHistory {
    UnbondHistory(1, 20, 2, ONE, ONE, false)
  }

  function Second(): UnbondHistory {
    UnbondHistory(2, 40, 10, ONE, ONE, false)
  }

  /** Twelve coins are bonded. Carol and Alice unbond one each, in the first batch, Bob ten in the second. */
  function Bonded(): World {
    World(Storage(State(ONE, 12, 0, 0, 0), CurrentBatch(1, 0), map[], map[]), Chain(12, Pool(12), 0, 0))
  }

  function CarolAsked(now: nat): World {
    World(Storage(State(ONE, 12, 0, 0, 0), CurrentBatch(1, 1), map[], map[CAROL := 1]), Chain(11, Pool(12), 0, now))
  }

  function AliceAsked(now: nat): World {
    World(Storage(State(ONE, 10, 0, 20, 0), CurrentBatch(2, 0), map[1 := First()], map[CAROL := 1, ALICE := 1]),
          Chain(10, Pool(10), 0, now))
  }

  function BobAsked(liquid: nat, now: nat): World {
    World(Storage(State(ONE, 0, 0, 40, 0), CurrentBatch(3, 0), map[1 := First(), 2 := Second()],
                  map[CAROL := 1, ALICE := 1, BOB := 10]),
          Chain(0, map[], liquid, now))
  }

  /** The two coins of the first batch have arrived and Carol is paid hers. */
  function CarolPaid(now: nat): World {
    World(Storage(State(ONE, 0, 1, 40, 1), CurrentBatch(3, 0),
                  map[1 := First().(released := true), 2 := Second()], map[ALICE := 1, BOB := 10]),
          Chain(0, map[], 1, now))
  }

  /** Nothing has arrived for the second batch, but it is credited a coin, and Bob is paid Alice's. */
  function BobPaid(): World {
    World(Storage(State(ONE, 0, 0, 40, 2), CurrentBatch(3, 0),
                  map[1 := First().(released := true), 2 := Second().(withdrawRate := ONE / 10, released := true)],
                  map[ALICE := 1]),
          Chain(0, map[], 0, 100))
  }

  // ---------------------------------------------------------------------------------------------
  // Bonding and unbonding with one validator
  // ---------------------------------------------------------------------------------------------

  lemma OneEntry<K(!new)>(k: K, v: nat)
    ensures SumMap(map[k := v]) == v
  {
    SumMapPut(map[], k, v);
    EmptySums<K>();
  }

  lemma SumOfOne(x: nat)
    ensures Sum([x]) == x
  {
    assert [] + [x] == [x];
    SumSnoc([], x);
  }

  /** A plan for one validator gives it everything. */
  lemma PlansOfOne(stake: nat, amount: nat)
    requires stake + amount <= MAX_UINT128
    ensures Delegations([stake], amount) == Success([amount])
    ensures amount <= stake ==> Undelegations([stake], amount) == Success([amount])
  {
    SumOfOne(stake);
    DelegationsConserve([stake], amount);
    var plan := Delegations([stake], amount).value;
    SumOfOne(plan[0]);
    assert plan == [plan[0]];
    UndelegationsConserve([stake], amount);
    if amount <= stake {
      var taken := Undelegations([stake], amount).value;
      SumOfOne(taken[0]);
      assert taken == [taken[0]];
    }
  }

  lemma ReportOfOne(stakes: map<Address, nat>, descending: bool)
    ensures SortByStake(Reported(stakes, ["v"]), descending) == [Validator("v", Get(stakes, "v"))]
    ensures Stakes([Validator("v", Get(stakes, "v"))]) == [Get(stakes, "v")]
  {
    var v := Validator("v", Get(stakes, "v"));
    assert Reported(stakes, ["v"]) == [v];
    assert [v][..0] == [];
  }

  /** While nothing is lost, the sync finds a rate of one. */
  lemma Synchronised(st: Storage, chain: Chain, stake: nat)
    requires 0 < stake <= MAX_UINT64 && chain.stakes == Pool(stake)
    requires st.state.bonded == stake && st.state.rate == ONE && chain.supply + st.batch.requested == stake
    ensures ActualState(st, chain) == Success(Synced(st.state, chain.supply))
  {
    OneEntry("v", stake);
    assert RatioFloor(stake, stake) == ONE by {
      MulCancel(RatioFloor(stake, stake), ONE, stake);
      MulCancel(ONE, RatioFloor(stake, stake), stake);
    }
  }

  lemma BondIsCredited()
    ensures ActualState(Instantiate(0), Chain(0, map[], 12, 0)) == Success(Synced(State(ONE, 0, 0, 0, 0), 0))
    ensures CreditPayment(StAtom, Synced(State(ONE, 0, 0, 0, 0), 0), 0, 12)
            == Success((12, State(ONE, 12, 0, 0, 0)))
  {
    hide DecimalDivision;
    DecimalDivisionIsLargest(12, ONE, 12);
  }

  lemma BondMessagesOfOne()
    ensures BondMessages(StAtom, [Validator("v", 0)], [12], 12) == [Delegate("v", 12), Mint(12)]
  {
    assert [12][..0] == [] && [Validator("v", 0)][..0] == [];
    assert DelegateMessages([Validator("v", 0)], [12]) == [Delegate("v", 12)];
  }

  lemma BondResponds()
    ensures BondResponse(Instantiate(0), Chain(0, map[], 12, 0), StAtom, 12, ["v"])
            == Success(Response(Bonded().storage, [Delegate("v", 12), Mint(12)]))
  {
    hide SortByStake, Reported, Delegations, CreditPayment, ActualState, BondMessages, Stakes;
    ReportOfOne(map[], false);
    PlansOfOne(0, 12);
    BondIsCredited();
    BondMessagesOfOne();
  }

  lemma BondDispatches()
    ensures DispatchAll(Chain(0, map[], 12, 0), [Delegate("v", 12), Mint(12)]) == Success(Bonded().chain)
  {
    var chain := Chain(0, map[], 12, 0);
    OnlyMessage(chain, Delegate("v", 12));
    DispatchSnoc(chain, [Delegate("v", 12)], Mint(12));
    assert [Delegate("v", 12)] + [Mint(12)] == [Delegate("v", 12), Mint(12)];
  }

  lemma BondHappens()
    ensures Execute(Initial(0, 0).world, Bond(StAtom, 12), With([])) == Success(Bonded())
  {
    hide BondResponse, DispatchAll;
    BondResponds();
    BondDispatches();
  }

  lemma CarolAsks()
    ensures Execute(Bonded(), Unbond("carol", 1), With(["v"])) == Success(CarolAsked(0))
  {
    hide ActualState, DispatchAll;
    var w := Bonded();
    Synchronised(w.storage, w.chain, 12);
    OnlyMessage(w.chain, Burn(1));
  }

  /** Closing a batch worth no more than the stake. */
  lemma UndelegatesOne(chain: Chain, stake: nat, claim: nat)
    requires chain.stakes == Pool(stake) && 0 < claim <= stake <= MAX_UINT64
    ensures UndelegateResponse(chain, claim, ["v"]) == Success([Undelegate("v", claim)])
    ensures DispatchAll(chain, [Undelegate("v", claim)])
            == Success(chain.(stakes := if claim == stake then map[] else Pool(stake - claim)))
  {
    hide SortByStake, Reported, Undelegations;
    ReportOfOne(chain.stakes, true);
    PlansOfOne(stake, claim);
    assert UndelegateMessages([Validator("v", stake)], [claim]) == [Undelegate("v", claim)] by {
      assert [claim][..0] == [] && [Validator("v", stake)][..0] == [];
    }
    OnlyMessage(chain, Undelegate("v", claim));
    assert Pool(stake) - {"v"} == map[] && Pool(stake)["v" := stake - claim] == Pool(stake - claim);
  }

  lemma AliceAsks()
    ensures Execute(CarolAsked(20), Unbond("alice", 1), With(["v"])) == Success(AliceAsked(20))
  {
    hide ActualState, DispatchAll, UndelegateResponse;
    var w := CarolAsked(20);
    Synchronised(w.storage, w.chain, 12);
    assert MulFloor(2, ONE) == 2;
    UndelegatesOne(w.chain, 12, 2);
    DispatchSnoc(w.chain, [Undelegate("v", 2)], Burn(1));
  }

  lemma BobAsks()
    ensures Execute(AliceAsked(40), Unbond("bob", 10), With(["v"])) == Success(BobAsked(0, 40))
  {
    hide ActualState, DispatchAll, UndelegateResponse;
    var w := AliceAsked(40);
    Synchronised(w.storage, w.chain, 10);
    assert MulFloor(10, ONE) == 10;
    UndelegatesOne(w.chain, 10, 10);
    DispatchSnoc(w.chain, [Undelegate("v", 10)], Burn(10));
  }

  // ---------------------------------------------------------------------------------------------
  // The two withdrawals
  // ---------------------------------------------------------------------------------------------

  /** A release of one batch. */
  lemma ReleasesOne(st: Storage, b: UnbondHistory, time: nat, balance: nat, rate: nat)
    requires var id := st.state.lastProcessed + 1;
             && id in st.history && st.history[id] == b && Matured(st.history, id, time)
             && !Matured(st.history, id + 1, time)
    requires Value(b) <= MAX_UINT128
    requires var gain := FromSubtraction(balance, st.state.prevBalance).magnitude;
             NewWithdrawRate(b.amount, b.withdrawRate, Value(b), FromSubtraction(Value(b), gain)) == Success(rate)
    ensures var id := st.state.lastProcessed + 1;
            ReleaseMatured(st, time, balance)
            == Success(st.(history := st.history[id := b.(withdrawRate := rate, released := true)],
                           state := st.state.(lastProcessed := id)))
  {
    hide NewWithdrawRate, Value, Matured;
    var id := st.state.lastProcessed + 1;
    EndsAt(st.history, id, id + 1, time);
    assert Batches(st.history, id, id + 1) == [b];
    Single(b, 0, 0);
    var total, gain := Value(b), FromSubtraction(balance, st.state.prevBalance).magnitude;
    assert Reprice(st.history, id, id, total, FromSubtraction(total, gain)) == Success(st.history);
  }

  lemma CarolsRate()
    ensures Value(First()) == 2
    ensures NewWithdrawRate(2, ONE, 2, SignedInt(0, false)) == Success(ONE)
  {
    assert MulFloor(2, ONE) == 2;
    assert Share(2, 2, 0) == 0;
    assert RatioFloor(2, 2) == ONE;
  }

  lemma BobsRate()
    ensures Value(Second()) == 10
    ensures NewWithdrawRate(10, ONE, 10, SignedInt(10, false)) == Success(ONE / 10)
  {
    assert MulFloor(10, ONE) == 10;
    WholeCharge(10, 10);
    assert RatioFloor(1, 10) == ONE / 10;
  }

  lemma CarolIsPaid()
    ensures Execute(BobAsked(2, 75), WithdrawUnbonded("carol"), With([])) == Success(CarolPaid(75))
  {
    hide ReleaseMatured, NewWithdrawRate, Value, DispatchAll;
    var w := BobAsked(2, 75);
    CarolsRate();
    ReleasesOne(w.storage, First(), 25, 2, ONE);
    var history := map[1 := First().(released := true), 2 := Second()];
    assert w.storage.history[1 := First().(withdrawRate := ONE, released := true)] == history;
    assert MulFloor(1, ONE) == 1;
    assert Payouts(w.storage.wait, history, "carol") == map[CAROL := 1];
    OneEntry(CAROL, 1);
    assert map[CAROL := 1].Keys == {CAROL};
    assert w.storage.wait - {CAROL} == map[ALICE := 1, BOB := 10];
    OnlyMessage(w.chain, Send("carol", 1));
  }

  lemma BobIsPaid()
    ensures Execute(CarolPaid(100), WithdrawUnbonded("bob"), With([])) == Success(BobPaid())
  {
    hide ReleaseMatured, NewWithdrawRate, Value, DispatchAll;
    var w := CarolPaid(100);
    BobsRate();
    ReleasesOne(w.storage, Second(), 50, 1, ONE / 10);
    var history := BobPaid().storage.history;
    assert w.storage.history[2 := Second().(withdrawRate := ONE / 10, released := true)] == history;
    assert MulFloor(10, ONE / 10) == 1;
    assert Payouts(w.storage.wait, history, "bob") == map[BOB := 1];
    OneEntry(BOB, 1);
    assert map[BOB := 1].Keys == {BOB};
    assert w.storage.wait - {BOB} == map[ALICE := 1];
    OnlyMessage(w.chain, Send("bob", 1));
  }

  lemma AliceIsOwed()
    ensures !Solvent(BobPaid().storage)
  {
    var st := BobPaid().storage;
    OneEntry(ALICE, 1);
    assert MulFloor(1, ONE) == 1;
    assert Owed(st.wait, st.history) == map[ALICE := 1];
  }

  lemma AliceIsRefused()
    ensures Execute(BobPaid(), WithdrawUnbonded("alice"), With([])) == Failure(BalanceTooSmall)
  {
    var st := BobPaid().storage;
    EndsAt(st.history, 3, 3, 50);
    OneEntry(ALICE, 1);
    assert MulFloor(1, ONE) == 1;
    assert Payouts(st.wait, st.history, "alice") == map[ALICE := 1];
  }

  // ---------------------------------------------------------------------------------------------
  // The run
  // ---------------------------------------------------------------------------------------------

  const LENGTH: nat := 11

  function StepAt(k: nat): Step {
    match k
    case 0 => Tx(Bond(StAtom, 12), With([]))
    case 1 => Tx(Unbond("carol", 1), With(["v"]))
    case 2 => Tick(20)
    case 3 => Tx(Unbond("alice", 1), With(["v"]))
    case 4 => Tick(20)
    case 5 => Tx(Unbond("bob", 10), With(["v"]))
    case 6 => Receive(2)
    case 7 => Tick(35)
    case 8 => Tx(WithdrawUnbonded("carol"), With([]))
    case 9 => Tick(25)
    case _ => Tx(WithdrawUnbonded("bob"), With([]))
  }

  ghost function WorldAt(k: nat): World {
    match k
    case 0 => Initial(0, 0).world
    case 1 => Bonded()
    case 2 => CarolAsked(0)
    case 3 => CarolAsked(20)
    case 4 => AliceAsked(20)
    case 5 => AliceAsked(40)
    case 6 => BobAsked(0, 40)
    case 7 => BobAsked(2, 40)
    case 8 => BobAsked(2, 75)
    case 9 => CarolPaid(75)
    case 10 => CarolPaid(100)
    case _ => BobPaid()
  }

  function StepsFrom(k: nat): seq<Step>
    requires k <= LENGTH
    decreases LENGTH - k
  {
    if k == LENGTH then [] else [StepAt(k)] + StepsFrom(k + 1)
  }

  lemma TxHappens(t: Traced, step: Step, w': World)
    requires step.Tx? && Feasible(step.env, t.world.chain) && Execute(t.world, step.msg, step.env) == Success(w')
    ensures Apply(t, step).world == w'
  {
    hide Execute, PaidBy;
  }

  lemma OneStep(t: Traced, k: nat)
    requires k < LENGTH && t.world == WorldAt(k)
    ensures Apply(t, StepAt(k)).world == WorldAt(k + 1)
  {
    hide Execute;
    match k
    case 0 => BondHappens(); TxHappens(t, StepAt(k), WorldAt(k + 1));
    case 1 => CarolAsks(); TxHappens(t, StepAt(k), WorldAt(k + 1));
    case 3 => AliceAsks(); TxHappens(t, StepAt(k), WorldAt(k + 1));
    case 5 => BobAsks(); TxHappens(t, StepAt(k), WorldAt(k + 1));
    case 8 => CarolIsPaid(); TxHappens(t, StepAt(k), WorldAt(k + 1));
    case 10 => BobIsPaid(); TxHappens(t, StepAt(k), WorldAt(k + 1));
    case _ =>
  }

  lemma {:induction false} RunFrom(t: Traced, k: nat)
    requires k <= LENGTH && t.world == WorldAt(k)
    ensures Run(t, StepsFrom(k)).world == WorldAt(LENGTH)
    decreases LENGTH - k
  {
    hide Apply, StepAt, WorldAt;
    if k < LENGTH {
      OneStep(t, k);
      var steps := StepsFrom(k);
      assert steps[0] == StepAt(k) && steps[1..] == StepsFrom(k + 1);
      RunFrom(Apply(t, StepAt(k)), k + 1);
    }
  }

  lemma NeitherCoveredNorAffordable(t: Traced, steps: seq<Step>)
    requires t == Initial(0, 0) && !Solvent(Run(t, steps).world.storage)
    ensures !RunCovered(t, steps) && !RunAffordable(t, steps)
  {
    hide Run, Inv, RunCovered, RunAffordable, AlwaysSolvent, Solvent, Initial;
    InitialInv(0, 0);
    InitialSolvent(0, 0);
    AlwaysSolventIff(t, steps);
    if AlwaysSolvent(t, steps) {
      SolventAtEnd(t, steps);
    }
    if RunCovered(t, steps) {
      RunStaysSolvent(t, steps);
    }
  }

  /**
   * Without coverage solvency fails: from instantiation on, this run pays Bob the coin that Alice is owed, and
   * Alice, whose claim is released, is refused.
   */
  lemma RunBreaksSolvency()
    ensures !RunCovered(Initial(0, 0), StepsFrom(0)) && !RunAffordable(Initial(0, 0), StepsFrom(0))
    ensures var w := Run(Initial(0, 0), StepsFrom(0)).world;
            && !Solvent(w.storage)
            && Execute(w, WithdrawUnbonded("alice"), With([])) == Failure(BalanceTooSmall)
  {
    hide Execute, Solvent;
    RunFrom(Initial(0, 0), 0);
    AliceIsOwed();
    AliceIsRefused();
    NeitherCoveredNorAffordable(Initial(0, 0), StepsFrom(0));
  }
}
