/** What a run can still change about a closed batch. */
module HistoryRuns {
  import opened Results
  import opened FixedPoint
  import opened Sums
  import opened Release
  import opened HubTypes
  import opened HubSpec
  import opened Effects
  import opened Backing
  import opened ClaimLedger
  import opened Solvency
  import opened Runs
  import Paging

  /** A later entry of a closed batch: only the release changes it, and only once. */
  predicate Succeeds(before: UnbondHistory, after: UnbondHistory) {
    && after == before.(withdrawRate := after.withdrawRate, released := after.released)
    && (before.released ==> after == before)
    && (!after.released ==> after == before)
  }

  ghost predicate Extends(before: map<nat, UnbondHistory>, after: map<nat, UnbondHistory>) {
    forall b :: b in before ==> b in after && Succeeds(before[b], after[b])
  }

  lemma UnbondExtends(w: World, w': World, user: User, amount: nat, epochPeriod: nat, synced: Synced)
    requires LifeCycle(w.storage, w.chain.now) && UnbondedTo(w, w', user, amount, epochPeriod, synced)
    ensures Extends(w.storage.history, w'.storage.history)
  {
    assert w.storage.batch.id !in w.storage.history;
  }

  lemma ReleaseExtends(st: Storage, now: nat, time: nat, balance: nat, released: Storage)
    requires LifeCycle(st, now) && ReleaseMatured(st, time, balance) == Success(released)
    ensures Extends(st.history, released.history)
  {
    var lo, hi := ReleaseEffect(st, time, balance, released);
    forall b | b in st.history ensures b in released.history && Succeeds(st.history[b], released.history[b]) {
      MaturedRange(st, now, time, b);
    }
  }

  lemma TransactExtends(w: World, msg: ExecuteMsg, env: Env, w': World)
    requires LifeCycle(w.storage, w.chain.now) && Feasible(env, w.chain) && Execute(w, msg, env) == Success(w')
    ensures Extends(w.storage.history, w'.storage.history)
  {
    hide Execute, Ordered, UnbondedTo, ActualState, ReleaseMatured, Payouts;
    match msg
    case Bond(kind, payment) =>
      var synced, mint := BondEffect(w, kind, payment, env, w');
    case Unbond(user, amount) =>
      var synced := UnbondEffect(w, user, amount, env, w');
      UnbondExtends(w, w', user, amount, env.epochPeriod, synced);
    case WithdrawUnbonded(user) =>
      var released := WithdrawEffect(w, user, env, w');
      ReleaseExtends(w.storage, w.chain.now, w.chain.now - env.unbondingPeriod, w.chain.liquid, released);
    case CheckSlashing =>
      var synced := SlashingEffect(w, env, w');
  }

  lemma StepExtends(t: Traced, step: Step)
    requires Inv(t)
    ensures Extends(t.world.storage.history, Apply(t, step).world.storage.history)
  {
    hide Execute, Ordered, Ledger, PaidOnce, Backed;
    if step.Tx? && Enabled(t.world, step) {
      var r := Execute(t.world, step.msg, step.env);
      if r.Success? {
        TransactExtends(t.world, step.msg, step.env, r.value);
      }
    }
  }

  /**
   * Along any run a closed batch keeps its number, time, amount and applied rate; its withdraw rate
   * changes only at its release, and once released it never changes again.
   */
  lemma {:induction false} ClosedForEver(t: Traced, steps: seq<Step>, b: nat)
    requires Inv(t) && b in t.world.storage.history
    ensures b in Run(t, steps).world.storage.history
    ensures Succeeds(t.world.storage.history[b], Run(t, steps).world.storage.history[b])
    decreases |steps|
  {
    if steps != [] {
      StepKeeps(t, steps[0]);
      StepExtends(t, steps[0]);
      ClosedForEver(Apply(t, steps[0]), steps[1..], b);
    }
  }

  // ---------------------------------------------------------------------------------------------
  // Epochs
  // ---------------------------------------------------------------------------------------------

  /** When a batch was closed; before the first one, when the contract was instantiated. */
  function ClosedAt(history: map<nat, UnbondHistory>, b: nat, start: nat): nat {
    if b in history then history[b].time else start
  }

  /** More than the period lies before each closed batch, counted from the one before or from the start. */
  ghost predicate Apart(history: map<nat, UnbondHistory>, start: nat, period: nat) {
    forall b: nat :: b in history && b >= 1 ==> history[b].time > ClosedAt(history, b - 1, start) + period
  }

  ghost predicate Epochs(st: Storage, start: nat, period: nat) {
    && st.batch.id >= 1
    && st.state.lastUnbonded == ClosedAt(st.history, st.batch.id - 1, start)
    && Apart(st.history, start, period)
  }

  lemma CloseKeepsApart(history: map<nat, UnbondHistory>, id: nat, closed: UnbondHistory, start: nat, period: nat)
    requires Apart(history, start, period) && id >= 1 && forall b :: b in history ==> b < id
    requires closed.time > ClosedAt(history, id - 1, start) + period
    ensures Apart(history[id := closed], start, period)
  {
  }

  lemma CloseKeepsEpochs(st: Storage, now: nat, start: nat, period: nat)
    requires Epochs(st, start, period) && forall b :: b in st.history ==> b < st.batch.id
    requires MulFloor(st.batch.requested, st.state.rate) <= st.state.bonded && now > st.state.lastUnbonded + period
    ensures Epochs(Closed(st, now), start, period)
  {
    hide MulFloor, Apart;
    CloseKeepsApart(st.history, st.batch.id, Closed(st, now).history[st.batch.id], start, period);
  }

  lemma UnbondKeepsEpochs(w: World, w': World, user: User, amount: nat, epochPeriod: nat, synced: Synced, start: nat,
                          period: nat)
    requires LifeCycle(w.storage, w.chain.now) && UnbondedTo(w, w', user, amount, epochPeriod, synced)
    requires Epochs(w.storage, start, period) && period <= epochPeriod
    ensures Epochs(w'.storage, start, period)
  {
    hide ActualState, MulFloor, SumMap, Apart, ClosedAt, Closed;
    SyncFrame(w.storage, w.chain, synced);
    var st := Entered(w, synced, user, amount);
    if w.chain.now - st.state.lastUnbonded > epochPeriod {
      CloseKeepsEpochs(st, w.chain.now, start, period);
    }
  }

  lemma SameTimesKeepApart(before: map<nat, UnbondHistory>, after: map<nat, UnbondHistory>, start: nat, period: nat)
    requires Apart(before, start, period)
    requires after.Keys == before.Keys && forall b :: b in before ==> after[b].time == before[b].time
    ensures Apart(after, start, period)
    ensures forall b :: ClosedAt(after, b, start) == ClosedAt(before, b, start)
  {
  }

  lemma ReleaseKeepsEpochs(st: Storage, now: nat, time: nat, balance: nat, released: Storage, start: nat, period: nat)
    requires LifeCycle(st, now) && ReleaseMatured(st, time, balance) == Success(released)
    requires Epochs(st, start, period)
    ensures Epochs(released, start, period)
  {
    hide Apart, ClosedAt, LifeCycle, NewWithdrawRate, MaturedEnd, ReleaseMatured;
    var lo, hi := ReleaseEffect(st, time, balance, released);
    SameTimesKeepApart(st.history, released.history, start, period);
  }

  lemma TransactKeepsEpochs(w: World, msg: ExecuteMsg, env: Env, w': World, start: nat, period: nat)
    requires LifeCycle(w.storage, w.chain.now) && Feasible(env, w.chain) && Execute(w, msg, env) == Success(w')
    requires Epochs(w.storage, start, period) && period <= env.epochPeriod
    ensures Epochs(w'.storage, start, period)
  {
    hide Execute, Ordered, UnbondedTo, ActualState, ReleaseMatured, Payouts, Apart;
    match msg
    case Bond(kind, payment) =>
      var synced, mint := BondEffect(w, kind, payment, env, w');
      SyncFrame(w.storage, w.chain, synced);
    case Unbond(user, amount) =>
      var synced := UnbondEffect(w, user, amount, env, w');
      UnbondKeepsEpochs(w, w', user, amount, env.epochPeriod, synced, start, period);
    case WithdrawUnbonded(user) =>
      var released := WithdrawEffect(w, user, env, w');
      ReleaseKeepsEpochs(w.storage, w.chain.now, w.chain.now - env.unbondingPeriod, w.chain.liquid, released, start,
                         period);
    case CheckSlashing =>
      var synced := SlashingEffect(w, env, w');
      SyncFrame(w.storage, w.chain, synced);
  }

  lemma StepKeepsEpochs(t: Traced, step: Step, start: nat, period: nat)
    requires Inv(t) && Epochs(t.world.storage, start, period)
    requires step.Tx? ==> period <= step.env.epochPeriod
    ensures Epochs(Apply(t, step).world.storage, start, period)
  {
    hide Execute, Ordered, Ledger, PaidOnce, Backed, Epochs;
    if step.Tx? && Enabled(t.world, step) {
      var r := Execute(t.world, step.msg, step.env);
      if r.Success? {
        TransactKeepsEpochs(t.world, step.msg, step.env, r.value, start, period);
      }
    }
  }

  lemma {:induction false} RunKeepsEpochs(t: Traced, steps: seq<Step>, start: nat, period: nat)
    requires Inv(t) && Epochs(t.world.storage, start, period)
    requires forall i :: 0 <= i < |steps| && steps[i].Tx? ==> period <= steps[i].env.epochPeriod
    ensures Epochs(Run(t, steps).world.storage, start, period)
    decreases |steps|
  {
    hide Inv, Apply, Epochs;
    if steps != [] {
      StepKeeps(t, steps[0]);
      StepKeepsEpochs(t, steps[0], start, period);
      RunKeepsEpochs(Apply(t, steps[0]), steps[1..], start, period);
    }
  }

  lemma NothingClosed(start: nat, period: nat)
    ensures Apart(map[], start, period)
  {
  }

  lemma ClosedIds(st: Storage, now: nat)
    requires LifeCycle(st, now)
    ensures forall b :: b in st.history <==> 1 <= b < st.batch.id
  {
  }

  lemma ApartMeans(history: map<nat, UnbondHistory>, id: nat, start: nat, period: nat, b: nat)
    requires Apart(history, start, period) && b in history && forall k :: k in history <==> 1 <= k < id
    ensures b >= 1
    ensures b == 1 ==> history[b].time > start + period
    ensures b > 1 ==> b - 1 in history && history[b].time > history[b - 1].time + period
  {
    assert history[b].time > ClosedAt(history, b - 1, start) + period;
  }

  /**
   * No batch is closed before a whole epoch has passed, counted from instantiation for the first one and from
   * the batch before for every other.
   */
  lemma EpochsApart(now: nat, liquid: nat, steps: seq<Step>, period: nat, b: nat)
    requires forall i :: 0 <= i < |steps| && steps[i].Tx? ==> period <= steps[i].env.epochPeriod
    requires b in Run(Initial(now, liquid), steps).world.storage.history
    ensures var history := Run(Initial(now, liquid), steps).world.storage.history;
            && b >= 1
            && (b == 1 ==> history[b].time > now + period)
            && (b > 1 ==> b - 1 in history && history[b].time > history[b - 1].time + period)
  {
    hide Run, Backed, LifeCycle, Ledger, PaidOnce, Apart;
    InitialInv(now, liquid);
    NothingClosed(now, period);
    RunKeepsEpochs(Initial(now, liquid), steps, now, period);
    RunKeeps(Initial(now, liquid), steps);
    var w := Run(Initial(now, liquid), steps).world;
    ClosedIds(w.storage, w.chain.now);
    ApartMeans(w.storage.history, w.storage.batch.id, now, period, b);
  }

  // ---------------------------------------------------------------------------------------------
  // What the history query returns
  // ---------------------------------------------------------------------------------------------

  /** The entries stored under a list of ids. */
  function EntriesAt(history: map<nat, UnbondHistory>, ids: seq<nat>): (page: seq<UnbondHistory>)
    requires forall i :: 0 <= i < |ids| ==> ids[i] in history
    ensures |page| == |ids|
  {
    seq(|ids|, i requires 0 <= i < |ids| => history[ids[i]])
  }

  /** `all_unbond_history`: the entries of one page. */
  ghost predicate IsHistoryPage(history: map<nat, UnbondHistory>, startAfter: Paging.Option<nat>,
                                limit: Paging.Option<nat>, page: seq<UnbondHistory>) {
    exists ids: seq<nat> :: Paging.IsPage(history.Keys, startAfter, limit, ids)
      && (forall i :: 0 <= i < |ids| ==> ids[i] in history) && page == EntriesAt(history, ids)
  }

  /** Pages fetched one after the other, each starting after the batch number of the last entry before. */
  ghost predicate HistoryWalk(history: map<nat, UnbondHistory>, startAfter: Paging.Option<nat>,
                              limit: Paging.Option<nat>, pages: seq<seq<UnbondHistory>>)
    decreases |pages|
  {
    pages != []
    && IsHistoryPage(history, startAfter, limit, pages[0])
    && if pages[0] == [] then |pages| == 1
       else HistoryWalk(history, Paging.Some(pages[0][|pages[0]| - 1].batchId), limit, pages[1..])
  }

  function Flatten(pages: seq<seq<UnbondHistory>>): seq<UnbondHistory> {
    if pages == [] then [] else pages[0] + Flatten(pages[1..])
  }

  /** Every batch below the current one is there, under its own number. */
  ghost predicate Numbered(history: map<nat, UnbondHistory>, next: nat) {
    && Paging.Consecutive(history.Keys, next)
    && forall b :: b in history ==> history[b].batchId == b
  }

  /** The batches from `lo` on, at most `count` of them. */
  function PageFrom(history: map<nat, UnbondHistory>, lo: nat, next: nat, count: nat): seq<UnbondHistory>
    requires lo >= 1 && forall b :: 1 <= b < next ==> b in history
  {
    if lo < next then Batches(history, lo, Min(lo + count, next)) else []
  }

  /** A page holds exactly the next batches after the start, in order and without gaps, up to the limit. */
  lemma HistoryPageIff(history: map<nat, UnbondHistory>, next: nat, startAfter: Paging.Option<nat>,
                       limit: Paging.Option<nat>, page: seq<UnbondHistory>)
    requires Numbered(history, next) && Paging.ValidStart(startAfter)
    ensures IsHistoryPage(history, startAfter, limit, page)
            <==> page == PageFrom(history, Paging.FirstId(startAfter), next, Paging.PageLimit(limit))
  {
    hide Paging.IsPage;
    var ids := Paging.Upto(Paging.FirstId(startAfter), next, Paging.PageLimit(limit));
    forall i | 0 <= i < |ids| ensures ids[i] in history {
      assert ids[i] in history.Keys;
    }
    assert EntriesAt(history, ids) == PageFrom(history, Paging.FirstId(startAfter), next, Paging.PageLimit(limit));
    Paging.PageIff(history.Keys, next, startAfter, limit, ids);
    if IsHistoryPage(history, startAfter, limit, page) {
      var found: seq<nat> :| Paging.IsPage(history.Keys, startAfter, limit, found)
        && (forall i :: 0 <= i < |found| ==> found[i] in history) && page == EntriesAt(history, found);
      Paging.PageIff(history.Keys, next, startAfter, limit, found);
    }
  }

  lemma PageThenRest(history: map<nat, UnbondHistory>, lo: nat, next: nat, count: nat)
    requires Numbered(history, next) && 1 <= lo < next && count > 0
    ensures var page := PageFrom(history, lo, next, count);
            && page != [] && lo <= page[|page| - 1].batchId < next
            && page + PageFrom(history, page[|page| - 1].batchId + 1, next, next) == PageFrom(history, lo, next, next)
  {
    var hi := Min(lo + count, next);
    assert PageFrom(history, lo, next, count)[hi - 1 - lo] == history[hi - 1];
  }

  /** Walking to the end lists every batch after the start exactly once, in order. */
  lemma {:induction false} HistoryWalkLists(history: map<nat, UnbondHistory>, next: nat,
                                            startAfter: Paging.Option<nat>, limit: Paging.Option<nat>,
                                            pages: seq<seq<UnbondHistory>>)
    requires Numbered(history, next) && Paging.ValidStart(startAfter) && Paging.PageLimit(limit) > 0
    requires HistoryWalk(history, startAfter, limit, pages)
    ensures Flatten(pages) == PageFrom(history, Paging.FirstId(startAfter), next, next)
    decreases |pages|
  {
    hide IsHistoryPage, Batches, Paging.PageLimit;
    var lo, page, count := Paging.FirstId(startAfter), pages[0], Paging.PageLimit(limit);
    HistoryPageIff(history, next, startAfter, limit, page);
    if lo < next {
      PageThenRest(history, lo, next, count);
      HistoryWalkLists(history, next, Paging.Some(page[|page| - 1].batchId), limit, pages[1..]);
    } else {
      assert pages[1..] == [];
    }
  }

  /** Fetching pages always comes to an end. */
  lemma {:induction false} HistoryWalkExists(history: map<nat, UnbondHistory>, next: nat,
                                             startAfter: Paging.Option<nat>, limit: Paging.Option<nat>)
    returns (pages: seq<seq<UnbondHistory>>)
    requires Numbered(history, next) && Paging.ValidStart(startAfter) && Paging.PageLimit(limit) > 0
    ensures HistoryWalk(history, startAfter, limit, pages)
    decreases Above(next, Paging.FirstId(startAfter))
  {
    hide IsHistoryPage, Batches, Paging.PageLimit;
    var lo, count := Paging.FirstId(startAfter), Paging.PageLimit(limit);
    var page := PageFrom(history, lo, next, count);
    HistoryPageIff(history, next, startAfter, limit, page);
    if lo < next {
      PageThenRest(history, lo, next, count);
      var rest := HistoryWalkExists(history, next, Paging.Some(page[|page| - 1].batchId), limit);
      pages := [page] + rest;
      assert pages[1..] == rest;
    } else {
      pages := [page];
    }
  }

  /**
   * In every reachable world, fetching history pages of any limit of at least one comes to an end, and then has
   * returned the entry of every closed batch exactly once, in order.
   */
  lemma HistoryPages(t: Traced, steps: seq<Step>, limit: Paging.Option<nat>)
    requires Inv(t) && (limit.Some? ==> limit.value >= 1)
    ensures var st := Run(t, steps).world.storage;
            && st.batch.id >= 1 && (forall b :: 1 <= b < st.batch.id ==> b in st.history)
            && (exists pages :: HistoryWalk(st.history, Paging.None, limit, pages))
            && forall pages :: HistoryWalk(st.history, Paging.None, limit, pages) ==>
                 Flatten(pages) == Batches(st.history, 1, st.batch.id)
  {
    hide HistoryWalk, Flatten, Backed, Ledger, PaidOnce;
    RunKeeps(t, steps);
    var st := Run(t, steps).world.storage;
    var found := HistoryWalkExists(st.history, st.batch.id, Paging.None, limit);
    forall pages | HistoryWalk(st.history, Paging.None, limit, pages)
      ensures Flatten(pages) == Batches(st.history, 1, st.batch.id)
    {
      HistoryWalkLists(st.history, st.batch.id, Paging.None, limit, pages);
    }
  }
}
