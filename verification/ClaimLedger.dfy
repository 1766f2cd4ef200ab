/** The life of unbonding batches and the ledger of claims on them. */
module ClaimLedger {
  import opened Results
  import opened FixedPoint
  import opened Sums
  import opened Release
  import opened HubTypes
  import opened HubSpec

  /** Batches are closed one after the other, at increasing times, and released in the same order. */
  ghost predicate Ordered(history: map<nat, UnbondHistory>, id: nat, lastProcessed: nat, lastUnbonded: nat) {
    && lastProcessed < id <= MAX_UINT64
    && (forall b :: b in history <==> 1 <= b < id)
    && (forall b :: b in history ==>
          && history[b].batchId == b
          && history[b].time <= lastUnbonded
          && (history[b].released <==> b <= lastProcessed))
    && (forall a, b :: a in history && b in history && a < b ==> history[a].time < history[b].time)
  }

  ghost predicate LifeCycle(st: Storage, now: nat) {
    Ordered(st.history, st.batch.id, st.state.lastProcessed, st.state.lastUnbonded) && st.state.lastUnbonded <= now
  }

  // ---------------------------------------------------------------------------------------------
  // What a release changes
  // ---------------------------------------------------------------------------------------------

  /** `after` is `before` with the batches `lo .. hi - 1` released at new rates. */
  ghost predicate Repriced(before: map<nat, UnbondHistory>, after: map<nat, UnbondHistory>, lo: nat, hi: nat,
                           total: nat, slashed: SignedInt) {
    && after.Keys == before.Keys
    && (forall b :: b in before && lo <= b < hi ==>
          && after[b] == before[b].(withdrawRate := after[b].withdrawRate, released := true)
          && NewWithdrawRate(before[b].amount, before[b].withdrawRate, total, slashed) == Success(after[b].withdrawRate))
    && (forall b :: b in before && !(lo <= b < hi) ==> after[b] == before[b])
  }

  lemma {:induction false} RepriceEffect(history: map<nat, UnbondHistory>, lo: nat, hi: nat, total: nat,
                                         slashed: SignedInt)
    requires lo <= hi && forall j :: lo <= j < hi ==> j in history
    requires Reprice(history, lo, hi, total, slashed).Success?
    ensures Repriced(history, Reprice(history, lo, hi, total, slashed).value, lo, hi, total, slashed)
    decreases hi - lo
  {
    hide NewWithdrawRate;
    if lo < hi {
      RepriceEffect(history, lo, hi - 1, total, slashed);
    }
  }

  /** The batches that a release pass covers, and what it does to them. */
  lemma ReleaseEffect(st: Storage, time: nat, balance: nat, after: Storage) returns (lo: nat, hi: nat)
    requires ReleaseMatured(st, time, balance) == Success(after)
    ensures lo == st.state.lastProcessed + 1 && hi == MaturedEnd(st.history, lo, time)
    ensures after == st.(history := after.history, state := st.state.(lastProcessed := hi - 1))
    ensures var total := TotalValue(Batches(st.history, lo, hi));
            var gain := FromSubtraction(balance, st.state.prevBalance).magnitude;
            Repriced(st.history, after.history, lo, hi, total, FromSubtraction(total, gain))
  {
    hide MaturedEnd, TotalValue;
    lo := st.state.lastProcessed + 1;
    hi := MaturedEnd(st.history, lo, time);
    if lo < hi {
      var total := TotalValue(Batches(st.history, lo, hi));
      var gain := FromSubtraction(balance, st.state.prevBalance).magnitude;
      RepriceEffect(st.history, lo, hi, total, FromSubtraction(total, gain));
    }
  }

  /** The release loops stop at the first batch that has not matured. */
  lemma {:induction false} EndsAt(history: map<nat, UnbondHistory>, i: nat, end: nat, time: nat)
    requires i <= end && !Matured(history, end, time)
    requires forall j: nat :: i <= j < end ==> Matured(history, j, time)
    ensures MaturedEnd(history, i, time) == end
    decreases end - i
  {
    hide Matured;
    if i < end {
      EndsAt(history, i + 1, end, time);
    }
  }

  /** A repricing pass goes through exactly when every batch gets a rate. */
  lemma {:induction false} RepriceSucceedsIff(history: map<nat, UnbondHistory>, lo: nat, hi: nat, total: nat,
                                              slashed: SignedInt)
    requires lo <= hi && forall j :: lo <= j < hi ==> j in history
    ensures Reprice(history, lo, hi, total, slashed).Success?
            <==> forall j :: lo <= j < hi ==>
                   NewWithdrawRate(history[j].amount, history[j].withdrawRate, total, slashed).Success?
    decreases hi - lo
  {
    hide NewWithdrawRate;
    if lo < hi {
      RepriceSucceedsIff(history, lo, hi - 1, total, slashed);
    }
  }

  /** A release goes through exactly when nothing has matured, or the total fits and every batch gets a rate. */
  lemma ReleaseSucceedsIff(st: Storage, time: nat, balance: nat)
    ensures var lo := st.state.lastProcessed + 1;
            var hi := MaturedEnd(st.history, lo, time);
            var total := TotalValue(Batches(st.history, lo, hi));
            var gain := FromSubtraction(balance, st.state.prevBalance).magnitude;
            ReleaseMatured(st, time, balance).Success?
            <==> hi == lo
                 || (total <= MAX_UINT128
                     && forall j :: lo <= j < hi ==>
                          NewWithdrawRate(st.history[j].amount, st.history[j].withdrawRate, total,
                                          FromSubtraction(total, gain)).Success?)
  {
    hide MaturedEnd, TotalValue, NewWithdrawRate, Reprice;
    var lo := st.state.lastProcessed + 1;
    var hi := MaturedEnd(st.history, lo, time);
    var total := TotalValue(Batches(st.history, lo, hi));
    var gain := FromSubtraction(balance, st.state.prevBalance).magnitude;
    RepriceSucceedsIff(st.history, lo, hi, total, FromSubtraction(total, gain));
  }

  /** The loops stop exactly behind the last unreleased batch closed by the given time. */
  lemma MaturedRange(st: Storage, now: nat, time: nat, b: nat)
    requires LifeCycle(st, now) && b in st.history
    ensures var lo := st.state.lastProcessed + 1;
            lo <= b < MaturedEnd(st.history, lo, time) <==> !st.history[b].released && st.history[b].time <= time
  {
    var lo := st.state.lastProcessed + 1;
    var hi := MaturedEnd(st.history, lo, time);
    if lo <= b < hi {
      assert Matured(st.history, b, time);
    } else if hi <= b {
      assert hi in st.history;
      assert !Matured(st.history, hi, time);
    }
  }

  /** One pass releases exactly the unreleased batches that were closed by the given time. */
  lemma ReleasesExactlyMatured(st: Storage, now: nat, time: nat, balance: nat, after: Storage, b: nat)
    requires LifeCycle(st, now) && ReleaseMatured(st, time, balance) == Success(after)
    requires b in st.history
    ensures b in after.history
    ensures after.history[b].released <==> st.history[b].released || st.history[b].time <= time
    ensures after.history[b] != st.history[b] ==> !st.history[b].released && st.history[b].time <= time
  {
    var lo, hi := ReleaseEffect(st, time, balance, after);
    MaturedRange(st, now, time, b);
  }

  /** A release keeps the life cycle; the last processed batch moves on by the number of batches released. */
  lemma ReleaseKeepsLifeCycle(st: Storage, now: nat, time: nat, balance: nat, after: Storage)
    requires LifeCycle(st, now) && ReleaseMatured(st, time, balance) == Success(after)
    ensures LifeCycle(after, now)
    ensures after.state.lastProcessed
            == st.state.lastProcessed + |Batches(st.history, st.state.lastProcessed + 1,
                                                 MaturedEnd(st.history, st.state.lastProcessed + 1, time))|
  {
    var lo, hi := ReleaseEffect(st, time, balance, after);
    if hi > lo {
      assert hi - 1 in st.history;
    }
    forall b | b in after.history
      ensures after.history[b].released <==> b <= after.state.lastProcessed
      ensures after.history[b].batchId == b && after.history[b].time == st.history[b].time
    {
      if lo <= b < hi {
        assert after.history[b].released;
      } else {
        assert after.history[b] == st.history[b];
      }
    }
  }

  // ---------------------------------------------------------------------------------------------
  // The ledger of claims
  // ---------------------------------------------------------------------------------------------

  /** The entries of a batch. */
  ghost function On(m: map<Claim, nat>, b: nat): map<Claim, nat> {
    map c | c in m && c.batch == b :: m[c]
  }

  /** What all users together have entered for a batch and not been paid. */
  ghost function Open(wait: map<Claim, nat>, b: nat): nat {
    SumMap(On(wait, b))
  }

  /** The users' entries add up to what the contract records for each batch. */
  ghost predicate Entries(wait: map<Claim, nat>, history: map<nat, UnbondHistory>, batch: CurrentBatch) {
    && (forall c :: c in wait ==> 1 <= c.batch <= batch.id)
    && Open(wait, batch.id) == batch.requested
    && (forall b :: b in history ==>
          if history[b].released then Open(wait, b) <= history[b].amount
          else Open(wait, b) == history[b].amount)
  }

  ghost predicate Ledger(st: Storage) {
    Entries(st.wait, st.history, st.batch)
  }

  lemma EnterKeepsOpen(wait: map<Claim, nat>, c: Claim, amount: nat, b: nat)
    ensures Open(wait[c := Get(wait, c) + amount], b) == Open(wait, b) + if c.batch == b then amount else 0
  {
    var wait' := wait[c := Get(wait, c) + amount];
    if c.batch == b {
      assert On(wait', b) == On(wait, b)[c := Get(wait, c) + amount];
      assert Get(On(wait, b), c) == Get(wait, c);
      SumMapPut(On(wait, b), c, Get(wait, c) + amount);
    } else {
      assert On(wait', b) == On(wait, b);
    }
  }

  /** Nobody has entered anything for a batch that does not exist yet. */
  lemma NothingBeyond(st: Storage, b: nat)
    requires Ledger(st) && b > st.batch.id
    ensures Open(st.wait, b) == 0
  {
    assert On(st.wait, b) == map[];
  }

  /** Removing claims on released batches leaves unreleased batches alone and lowers the others. */
  lemma RemoveOpen(wait: map<Claim, nat>, gone: set<Claim>, b: nat)
    ensures Open(wait - gone, b) <= Open(wait, b)
    ensures (forall c :: c in gone ==> c.batch != b) ==> Open(wait - gone, b) == Open(wait, b)
  {
    var kept, removed := On(wait - gone, b), map c | c in On(wait, b) && c in gone :: On(wait, b)[c];
    assert On(wait, b) == kept + removed;
    SumMapUnion(kept, removed);
    if forall c :: c in gone ==> c.batch != b {
      assert removed == map[];
    }
  }
}
