/** The transactions of the hub as functions of its storage and of the chain it sees. */
module HubSpec {
  import opened Results
  import opened FixedPoint
  import opened Sums
  import opened Allocation
  import opened Sorting
  import opened Release
  import opened HubTypes
  import opened ChainModel

  datatype BondType = StAtom | BondRewards

  datatype ExecuteMsg =
    | Bond(kind: BondType, payment: nat)
    | Unbond(user: User, amount: nat)
    | WithdrawUnbonded(user: User)
    | CheckSlashing

  /**
   * What a transaction reads beside the storage: in which order the chain lists the hub's delegations,
   * which validators the registry names, and the two periods from the parameters.
   */
  datatype Env = Env(listing: seq<Address>, registry: seq<Address>, epochPeriod: nat, unbondingPeriod: nat)

  ghost predicate Feasible(env: Env, chain: Chain) {
    && Lists(env.listing, chain.stakes.Keys)
    && (forall i, j :: 0 <= i < j < |env.registry| ==> env.registry[i] != env.registry[j])
  }

  datatype Response = Response(storage: Storage, messages: seq<Message>)

  // ---------------------------------------------------------------------------------------------
  // Exchange rate and slashing
  // ---------------------------------------------------------------------------------------------

  /** `update_statom_exchange_rate`. */
  function ExchangeRate(bonded: nat, issued: nat, requested: nat): Result<nat> {
    var supply :- Fit(issued + requested);
    if bonded == 0 || supply == 0 then Success(ONE) else FromRatio(bonded, supply)
  }

  /** A state together with the token supply it was computed from; zero when that was not queried. */
  datatype Synced = Synced(state: State, issued: nat)

  /** `query_actual_state`. */
  ghost function ActualState(st: Storage, chain: Chain): Result<Synced> {
    if chain.stakes == map[] then Success(Synced(st.state, 0))
    else
      var actual :- Fit(Staked(chain));
      if st.state.bonded == 0 then Success(Synced(st.state, 0))
      else
        var bonded := Min(st.state.bonded, actual);
        var rate :- ExchangeRate(bonded, chain.supply, st.batch.requested);
        Success(Synced(st.state.(bonded := bonded, rate := rate), chain.supply))
  }

  ghost function SlashingResponse(st: Storage, chain: Chain): Result<Response> {
    var synced :- ActualState(st, chain);
    Success(Response(st.(state := synced.state), []))
  }

  // ---------------------------------------------------------------------------------------------
  // Bonding
  // ---------------------------------------------------------------------------------------------

  function BondMessages(kind: BondType, vs: seq<Validator>, plan: seq<nat>, mint: nat): seq<Message>
    requires |vs| == |plan|
  {
    DelegateMessages(vs, plan) + if kind.StAtom? then [Mint(mint)] else []
  }

  /** The tokens to mint and the state after crediting a payment to a synchronised state. */
  function CreditPayment(kind: BondType, synced: Synced, requested: nat, payment: nat): Result<(nat, State)> {
    var mint :- if kind.StAtom? then DecimalDivision(payment, synced.state.rate) else Success(0);
    var supply :- Fit(synced.issued + mint);
    var bonded :- Fit(synced.state.bonded + payment);
    var rate :- if kind.BondRewards? then ExchangeRate(bonded, supply, requested) else Success(synced.state.rate);
    Success((mint, synced.state.(bonded := bonded, rate := rate)))
  }

  ghost function BondResponse(st: Storage, chain: Chain, kind: BondType, payment: nat, registry: seq<Address>)
    : Result<Response>
  {
    if payment == 0 then Failure(NoFunds)
    else
      var synced :- ActualState(st, chain);
      var credited :- CreditPayment(kind, synced, st.batch.requested, payment);
      var vs := SortByStake(Reported(chain.stakes, registry), false);
      var plan :- Delegations(Stakes(vs), payment);
      Success(Response(st.(state := credited.1), BondMessages(kind, vs, plan, credited.0)))
  }

  // ---------------------------------------------------------------------------------------------
  // Unbonding requests and the epoch's undelegation
  // ---------------------------------------------------------------------------------------------

  /** `undelegate`: the messages that take the claim from the validators, largest stake first. */
  function UndelegateResponse(chain: Chain, claim: nat, listing: seq<Address>): Result<seq<Message>> {
    var vs := SortByStake(Reported(chain.stakes, listing), true);
    var plan :- Undelegations(Stakes(vs), claim);
    Success(UndelegateMessages(vs, plan))
  }

  /** `process_undelegations`: closes the current batch at the current rate. */
  function CloseBatch(st: Storage, chain: Chain, listing: seq<Address>): Result<Response> {
    var s, batch := st.state, st.batch;
    var claim :- Fit(MulFloor(batch.requested, s.rate));
    var messages :- UndelegateResponse(chain, claim, listing);
    if claim > s.bonded then Failure(BondedTooSmall)
    else if batch.id + 1 > MAX_UINT64 then Failure(Overflow)
    else
      var closed := UnbondHistory(batch.id, chain.now, batch.requested, s.rate, s.rate, false);
      Success(Response(
                st.(state := s.(bonded := s.bonded - claim, lastUnbonded := chain.now),
                    batch := CurrentBatch(batch.id + 1, 0),
                    history := st.history[batch.id := closed]),
                messages))
  }

  /** The request is entered in the current batch and in the user's wait list. */
  function EnterRequest(st: Storage, user: User, amount: nat): Result<Storage> {
    var claim := Claim(user, st.batch.id);
    var requested :- Fit(st.batch.requested + amount);
    var waiting :- Fit(Get(st.wait, claim) + amount);
    Success(st.(batch := st.batch.(requested := requested), wait := st.wait[claim := waiting]))
  }

  ghost function UnbondResponse(st: Storage, chain: Chain, user: User, amount: nat, env: Env): Result<Response> {
    var synced :- ActualState(st, chain);
    var entered :- EnterRequest(st.(state := synced.state), user, amount);
    if chain.now < entered.state.lastUnbonded then Failure(Overflow)
    else if chain.now - entered.state.lastUnbonded > env.epochPeriod then
      var closed :- CloseBatch(entered, chain, env.listing);
      Success(Response(closed.storage, closed.messages + [Burn(amount)]))
    else
      Success(Response(entered, [Burn(amount)]))
  }

  // ---------------------------------------------------------------------------------------------
  // Releasing matured batches
  // ---------------------------------------------------------------------------------------------

  /** The test at the head of both release loops. */
  predicate Matured(history: map<nat, UnbondHistory>, i: nat, time: nat) {
    i in history && history[i].time <= time && !history[i].released
  }

  ghost function From(history: map<nat, UnbondHistory>, i: nat): set<nat> {
    set k | k in history && i <= k
  }

  /** The first batch from `i` on at which a release loop stops. */
  ghost function MaturedEnd(history: map<nat, UnbondHistory>, i: nat, time: nat): (end: nat)
    ensures i <= end && !Matured(history, end, time)
    ensures forall j :: i <= j < end ==> j in history && Matured(history, j, time)
    decreases From(history, i)
  {
    if Matured(history, i, time) then
      assert i in From(history, i) && i !in From(history, i + 1);
      MaturedEnd(history, i + 1, time)
    else i
  }

  /** The batches `lo, lo + 1, .., hi - 1`. */
  function Batches(history: map<nat, UnbondHistory>, lo: nat, hi: nat): (bs: seq<UnbondHistory>)
    requires lo <= hi && forall j :: lo <= j < hi ==> j in history
    ensures |bs| == hi - lo
  {
    seq(hi - lo, i requires 0 <= i < hi - lo => history[lo + i])
  }

  /** The second release loop: new rates for the batches `lo .. hi - 1`, in order. */
  function Reprice(history: map<nat, UnbondHistory>, lo: nat, hi: nat, total: nat, slashed: SignedInt)
    : Result<map<nat, UnbondHistory>>
    requires lo <= hi && forall j :: lo <= j < hi ==> j in history
  {
    if lo == hi then Success(history)
    else
      var h :- Reprice(history, lo, hi - 1, total, slashed);
      var b := history[hi - 1];
      var rate :- NewWithdrawRate(b.amount, b.withdrawRate, total, slashed);
      Success(h[hi - 1 := b.(withdrawRate := rate, released := true)])
  }

  /** `process_withdraw_rate`. */
  ghost function ReleaseMatured(st: Storage, time: nat, balance: nat): Result<Storage> {
    var lo := st.state.lastProcessed + 1;
    var hi := MaturedEnd(st.history, lo, time);
    if hi == lo then Success(st)
    else
      var total :- Fit(TotalValue(Batches(st.history, lo, hi)));
      var gain := FromSubtraction(balance, st.state.prevBalance).magnitude;
      var history :- Reprice(st.history, lo, hi, total, FromSubtraction(total, gain));
      Success(st.(history := history, state := st.state.(lastProcessed := hi - 1)))
  }

  predicate IsReleased(history: map<nat, UnbondHistory>, b: nat) {
    b in history && history[b].released
  }

  /** What each released claim pays. */
  function Owed(wait: map<Claim, nat>, history: map<nat, UnbondHistory>): map<Claim, nat> {
    map c | c in wait && IsReleased(history, c.batch) :: MulFloor(wait[c], history[c.batch].withdrawRate)
  }

  /** `get_finished_amount`: the part of it that belongs to one user. */
  function Payouts(wait: map<Claim, nat>, history: map<nat, UnbondHistory>, user: User): map<Claim, nat> {
    map c | c in wait && c.user == user && IsReleased(history, c.batch)
      :: MulFloor(wait[c], history[c.batch].withdrawRate)
  }

  ghost function WithdrawResponse(st: Storage, chain: Chain, user: User, env: Env): Result<Response> {
    if chain.now < env.unbondingPeriod then Failure(Overflow)
    else
      var released :- ReleaseMatured(st, chain.now - env.unbondingPeriod, chain.liquid);
      var payouts := Payouts(released.wait, released.history, user);
      var amount :- Fit(SumMap(payouts));
      if amount == 0 then Failure(NothingWithdrawable)
      else if amount > chain.liquid then Failure(BalanceTooSmall)
      else Success(Response(
                     released.(wait := released.wait - payouts.Keys,
                               state := released.state.(prevBalance := chain.liquid - amount)),
                     [Send(user, amount)]))
  }

  // ---------------------------------------------------------------------------------------------
  // Transactions
  // ---------------------------------------------------------------------------------------------

  /** The chain a handler sees: the coins sent along have arrived. */
  function Funded(chain: Chain, msg: ExecuteMsg): Chain {
    if msg.Bond? then chain.(liquid := chain.liquid + msg.payment) else chain
  }

  ghost function Handle(st: Storage, chain: Chain, msg: ExecuteMsg, env: Env): Result<Response> {
    match msg
    case Bond(kind, payment) => BondResponse(st, chain, kind, payment, env.registry)
    case Unbond(user, amount) => UnbondResponse(st, chain, user, amount, env)
    case WithdrawUnbonded(user) => WithdrawResponse(st, chain, user, env)
    case CheckSlashing => SlashingResponse(st, chain)
  }

  /** A whole transaction: the handler and the messages it emits, or an error that undoes both. */
  ghost function Execute(w: World, msg: ExecuteMsg, env: Env): Result<World> {
    var funded := Funded(w.chain, msg);
    var response :- Handle(w.storage, funded, msg, env);
    var chain :- DispatchAll(funded, response.messages);
    Success(World(response.storage, chain))
  }

  /** The world after a transaction: unchanged if it failed. */
  ghost function Transact(w: World, msg: ExecuteMsg, env: Env): World {
    var r := Execute(w, msg, env);
    if r.Success? then r.value else w
  }

  function Instantiate(now: nat): Storage {
    Storage(State(ONE, 0, 0, now, 0), CurrentBatch(1, 0), map[], map[])
  }
}
