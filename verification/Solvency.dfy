/** What released claims can cost, and what has been paid on them. */
module Solvency {
  import opened Results
  import opened FixedPoint
  import opened Sums
  import opened Release
  import opened HubTypes
  import opened HubSpec
  import opened ClaimLedger

  /** What the open claims on one batch cost at a rate, each rounded down by itself. */
  ghost function OwedOn(wait: map<Claim, nat>, b: nat, rate: nat): map<Claim, nat> {
    map c | c in wait && c.batch == b :: MulFloor(wait[c], rate)
  }

  ghost function Priced(m: map<Claim, nat>, rate: nat): map<Claim, nat> {
    map c | c in m :: MulFloor(m[c], rate)
  }

  /** Rounding each claim down costs no more than rounding their sum down. */
  lemma {:induction false} FloorOfSum(m: map<Claim, nat>, rate: nat)
    ensures SumMap(Priced(m, rate)) <= MulFloor(SumMap(m), rate)
    decreases |m|
  {
    if m == map[] {
      assert Priced(m, rate) == map[];
    } else {
      var c :| c in m;
      FloorOfSum(m - {c}, rate);
      SumMapRemove(m, c);
      SumMapRemove(Priced(m, rate), c);
      assert Priced(m, rate) - {c} == Priced(m - {c}, rate);
      MulFloorSuperadditive(m[c], SumMap(m - {c}), rate);
    }
  }

  /** Each claim but one loses less than one coin to its own rounding. */
  lemma {:induction false} FloorOfSumLoses(m: map<Claim, nat>, rate: nat)
    requires m != map[]
    ensures MulFloor(SumMap(m), rate) < SumMap(Priced(m, rate)) + |m|
    decreases |m|
  {
    hide MulFloor, SumMap;
    var c :| c in m;
    SumMapRemove(m, c);
    SumMapRemove(Priced(m, rate), c);
    assert Priced(m, rate) - {c} == Priced(m - {c}, rate);
    if m - {c} == map[] {
      EmptySums<Claim>();
      assert m[c] + 0 == m[c];
      assert Priced(map[], rate) == map[];
    } else {
      FloorOfSumLoses(m - {c}, rate);
      MulFloorSubadditive(m[c], SumMap(m - {c}), rate);
    }
  }

  lemma OwedOnWithin(wait: map<Claim, nat>, b: nat, rate: nat, amount: nat)
    requires Open(wait, b) <= amount
    ensures SumMap(OwedOn(wait, b, rate)) <= MulFloor(amount, rate)
  {
    assert OwedOn(wait, b, rate) == Priced(On(wait, b), rate);
    FloorOfSum(On(wait, b), rate);
    MulFloorMonotone(Open(wait, b), amount, rate);
  }

  lemma OwedOnReaches(wait: map<Claim, nat>, b: nat, rate: nat)
    requires Open(wait, b) > 0
    ensures MulFloor(Open(wait, b), rate) < SumMap(OwedOn(wait, b, rate)) + |On(wait, b)|
  {
    hide MulFloor, SumMap;
    assert OwedOn(wait, b, rate) == Priced(On(wait, b), rate);
    EmptySums<Claim>();
    FloorOfSumLoses(On(wait, b), rate);
  }

  /**
   * At its new rate a whole batch pays no more than it was credited, and less only by the rounding of the
   * rate to 18 digits.
   */
  lemma PayableWithinCredit(b: UnbondHistory, total: nat, slashed: SignedInt, rate: nat)
    requires NewWithdrawRate(b.amount, b.withdrawRate, total, slashed) == Success(rate)
    ensures MulFloor(b.amount, rate) <= Credit(b, total, slashed)
    ensures Credit(b, total, slashed) * ONE <= (MulFloor(b.amount, rate) + 1) * ONE + b.amount
  {
    if b.amount == 0 {
      assert 0 * rate == 0;
    } else {
      RatioThenMul(Actual(Value(b), total, slashed), b.amount);
      assert b.amount * rate == rate * b.amount;
    }
  }

  /**
   * The new rate is the largest at which the whole batch costs no more than its credit; an empty batch keeps
   * its rate.
   */
  lemma RateIsLargest(b: UnbondHistory, total: nat, slashed: SignedInt, rate: nat)
    requires NewWithdrawRate(b.amount, b.withdrawRate, total, slashed) == Success(rate)
    ensures if b.amount == 0 then rate == b.withdrawRate
            else b.amount * rate <= Credit(b, total, slashed) * ONE < b.amount * (rate + 1)
  {
    hide Actual;
    if b.amount > 0 {
      assert rate == RatioFloor(Credit(b, total, slashed), b.amount);
      assert b.amount * rate == rate * b.amount && b.amount * (rate + 1) == rate * b.amount + b.amount;
    }
  }

  /** Releasing one batch adds exactly the claims on it to what is owed. */
  lemma OwedRelease(wait: map<Claim, nat>, history: map<nat, UnbondHistory>, j: nat, b: UnbondHistory)
    requires !IsReleased(history, j) && b.released
    ensures SumMap(Owed(wait, history[j := b]))
            == SumMap(Owed(wait, history)) + SumMap(OwedOn(wait, j, b.withdrawRate))
  {
    hide SumMap, MulFloor;
    var before, added := Owed(wait, history), OwedOn(wait, j, b.withdrawRate);
    assert Owed(wait, history[j := b]) == before + added;
    SumMapUnion(before, added);
  }

  /** What the open claims on a batch would cost at the rate that its release gives it. */
  ghost function Due(wait: map<Claim, nat>, b: UnbondHistory, total: nat, slashed: SignedInt): nat {
    var rate := NewWithdrawRate(b.amount, b.withdrawRate, total, slashed);
    if rate.Success? then SumMap(OwedOn(wait, b.batchId, rate.value)) else 0
  }

  ghost function TotalDue(wait: map<Claim, nat>, bs: seq<UnbondHistory>, total: nat, slashed: SignedInt): nat {
    if bs == [] then 0
    else TotalDue(wait, bs[..|bs| - 1], total, slashed) + Due(wait, bs[|bs| - 1], total, slashed)
  }

  /**
   * What rounding can keep back from the credits of released batches: one coin for every claim, and one for
   * every 10^18 tokens of a batch.
   */
  ghost function Rounding(wait: map<Claim, nat>, bs: seq<UnbondHistory>): nat {
    if bs == [] then 0
    else
      var b := bs[|bs| - 1];
      Rounding(wait, bs[..|bs| - 1]) + |On(wait, b.batchId)| + b.amount / ONE
  }

  /** The claims on a fully open batch cost its credit, up to the rounding. */
  lemma DueNearCredit(wait: map<Claim, nat>, b: UnbondHistory, total: nat, slashed: SignedInt, rate: nat)
    requires Open(wait, b.batchId) == b.amount
    requires NewWithdrawRate(b.amount, b.withdrawRate, total, slashed) == Success(rate)
    ensures Due(wait, b, total, slashed) <= Credit(b, total, slashed)
    ensures Credit(b, total, slashed) <= Due(wait, b, total, slashed) + |On(wait, b.batchId)| + b.amount / ONE
  {
    hide NewWithdrawRate, Actual, OwedOn, Open, MulFloor, On;
    OwedOnWithin(wait, b.batchId, rate, b.amount);
    PayableWithinCredit(b, total, slashed, rate);
    if b.amount > 0 {
      OwedOnReaches(wait, b.batchId, rate);
    }
  }

  lemma CreditsSnoc(history: map<nat, UnbondHistory>, lo: nat, hi: nat, total: nat, slashed: SignedInt)
    requires lo < hi && forall j :: lo <= j < hi ==> j in history
    ensures TotalCredit(Batches(history, lo, hi), total, slashed)
            == TotalCredit(Batches(history, lo, hi - 1), total, slashed) + Credit(history[hi - 1], total, slashed)
  {
    assert Batches(history, lo, hi)[..hi - 1 - lo] == Batches(history, lo, hi - 1);
  }

  /** The last step of a repricing pass. */
  lemma RepriceLast(history: map<nat, UnbondHistory>, lo: nat, hi: nat, total: nat, slashed: SignedInt,
                    after: map<nat, UnbondHistory>)
    returns (h: map<nat, UnbondHistory>, rate: nat)
    requires lo < hi && forall j :: lo <= j < hi ==> j in history
    requires Reprice(history, lo, hi, total, slashed) == Success(after)
    ensures Reprice(history, lo, hi - 1, total, slashed) == Success(h)
    ensures hi - 1 in h && h[hi - 1] == history[hi - 1]
    ensures NewWithdrawRate(history[hi - 1].amount, history[hi - 1].withdrawRate, total, slashed) == Success(rate)
    ensures after == h[hi - 1 := history[hi - 1].(withdrawRate := rate, released := true)]
  {
    RepriceEffect(history, lo, hi - 1, total, slashed);
    h := Reprice(history, lo, hi - 1, total, slashed).value;
    rate := NewWithdrawRate(history[hi - 1].amount, history[hi - 1].withdrawRate, total, slashed).value;
  }

  lemma DuesSnoc(wait: map<Claim, nat>, history: map<nat, UnbondHistory>, lo: nat, hi: nat, total: nat,
                 slashed: SignedInt)
    requires lo < hi && forall j :: lo <= j < hi ==> j in history
    ensures var bs, init, b := Batches(history, lo, hi), Batches(history, lo, hi - 1), history[hi - 1];
            && TotalDue(wait, bs, total, slashed) == TotalDue(wait, init, total, slashed) + Due(wait, b, total, slashed)
            && Rounding(wait, bs) == Rounding(wait, init) + |On(wait, b.batchId)| + b.amount / ONE
  {
    hide Due, On, SumMap, MulFloor;
    assert Batches(history, lo, hi)[..hi - 1 - lo] == Batches(history, lo, hi - 1);
  }

  /** A release adds exactly what the claims on the released batches cost at their new rates. */
  lemma {:induction false} OwedReprice(wait: map<Claim, nat>, history: map<nat, UnbondHistory>, lo: nat, hi: nat,
                                       total: nat, slashed: SignedInt, after: map<nat, UnbondHistory>)
    requires lo <= hi && forall j :: lo <= j < hi ==> j in history
    requires forall j :: lo <= j < hi ==> !history[j].released && history[j].batchId == j
    requires Reprice(history, lo, hi, total, slashed) == Success(after)
    ensures SumMap(Owed(wait, after))
            == SumMap(Owed(wait, history)) + TotalDue(wait, Batches(history, lo, hi), total, slashed)
    decreases hi - lo
  {
    hide Owed, SumMap, OwedOn, Rounding, Actual, MulFloor;
    if lo < hi {
      var h, rate := RepriceLast(history, lo, hi, total, slashed, after);
      OwedReprice(wait, history, lo, hi - 1, total, slashed, h);
      DuesSnoc(wait, history, lo, hi, total, slashed);
      OwedRelease(wait, h, hi - 1, history[hi - 1].(withdrawRate := rate, released := true));
    }
  }

  /** For fully open batches that is what they are credited, up to the rounding. */
  lemma {:induction false} DuesNearCredits(wait: map<Claim, nat>, history: map<nat, UnbondHistory>, lo: nat, hi: nat,
                                           total: nat, slashed: SignedInt, after: map<nat, UnbondHistory>)
    requires lo <= hi && forall j :: lo <= j < hi ==> j in history
    requires forall j :: lo <= j < hi ==> history[j].batchId == j && Open(wait, j) == history[j].amount
    requires Reprice(history, lo, hi, total, slashed) == Success(after)
    ensures var bs := Batches(history, lo, hi);
            var due, credit := TotalDue(wait, bs, total, slashed), TotalCredit(bs, total, slashed);
            due <= credit <= due + Rounding(wait, bs)
    decreases hi - lo
  {
    hide SumMap, Open, Credit, Due, NewWithdrawRate, On;
    if lo < hi {
      var h, rate := RepriceLast(history, lo, hi, total, slashed, after);
      DuesNearCredits(wait, history, lo, hi - 1, total, slashed, h);
      CreditsSnoc(history, lo, hi, total, slashed);
      DuesSnoc(wait, history, lo, hi, total, slashed);
      DueNearCredit(wait, history[hi - 1], total, slashed, rate);
    }
  }

  /** The batches that a release at the given time would take. */
  ghost function Pending(st: Storage, time: nat): seq<UnbondHistory> {
    var lo := st.state.lastProcessed + 1;
    Batches(st.history, lo, MaturedEnd(st.history, lo, time))
  }

  /** Every released and unpaid claim can be paid from the balance the hub has accounted for. */
  ghost predicate Solvent(st: Storage) {
    SumMap(Owed(st.wait, st.history)) <= st.state.prevBalance
  }

  /** Nothing has been paid on a batch that waits for its release. */
  lemma MaturedIsOpen(st: Storage, now: nat, time: nat)
    requires LifeCycle(st, now) && Ledger(st)
    ensures var lo := st.state.lastProcessed + 1;
            forall j :: lo <= j < MaturedEnd(st.history, lo, time) ==>
              && !st.history[j].released && st.history[j].batchId == j
              && Open(st.wait, j) == st.history[j].amount
  {
    var lo := st.state.lastProcessed + 1;
    var hi := MaturedEnd(st.history, lo, time);
    forall j | lo <= j < hi
      ensures !st.history[j].released && st.history[j].batchId == j && Open(st.wait, j) == st.history[j].amount
    {
      assert Matured(st.history, j, time);
    }
  }

  /** `after` differs from `st` by a repricing of the pending batches for the given gain. */
  ghost predicate PendingRepriced(st: Storage, time: nat, gain: nat, after: Storage) {
    var lo := st.state.lastProcessed + 1;
    var hi := MaturedEnd(st.history, lo, time);
    var total := TotalValue(Pending(st, time));
    && after.wait == st.wait
    && Reprice(st.history, lo, hi, total, FromSubtraction(total, gain)) == Success(after.history)
  }

  /** The balance never shrinks below what is accounted for, so the gain is the plain difference. */
  lemma ReleaseIsReprice(st: Storage, time: nat, balance: nat, after: Storage)
    requires st.state.prevBalance <= balance && ReleaseMatured(st, time, balance) == Success(after)
    ensures PendingRepriced(st, time, balance - st.state.prevBalance, after)
  {
  }

  /** What the claims on the pending batches cost at the rates that a release with the given gain sets. */
  ghost function Dues(st: Storage, time: nat, gain: nat): nat {
    var bs := Pending(st, time);
    TotalDue(st.wait, bs, TotalValue(bs), FromSubtraction(TotalValue(bs), gain))
  }

  /** A release adds exactly the dues of the pending batches to what is owed. */
  lemma ReleaseAddsDues(st: Storage, now: nat, time: nat, gain: nat, after: Storage)
    requires LifeCycle(st, now) && Ledger(st) && PendingRepriced(st, time, gain, after)
    ensures SumMap(Owed(after.wait, after.history)) == SumMap(Owed(st.wait, st.history)) + Dues(st, time, gain)
  {
    hide LifeCycle, Ledger;
    var lo := st.state.lastProcessed + 1;
    var hi := MaturedEnd(st.history, lo, time);
    var total := TotalValue(Pending(st, time));
    MaturedIsOpen(st, now, time);
    OwedReprice(st.wait, st.history, lo, hi, total, FromSubtraction(total, gain), after.history);
  }

  /** The dues are at most the credits of the pending batches, and miss them by no more than the rounding. */
  lemma ReleaseAddsCredits(st: Storage, now: nat, time: nat, gain: nat, after: Storage)
    requires LifeCycle(st, now) && Ledger(st) && PendingRepriced(st, time, gain, after)
    ensures Dues(st, time, gain) <= Credits(Pending(st, time), gain)
    ensures Credits(Pending(st, time), gain) <= Dues(st, time, gain) + Rounding(st.wait, Pending(st, time))
  {
    hide LifeCycle, Ledger;
    var lo := st.state.lastProcessed + 1;
    var hi := MaturedEnd(st.history, lo, time);
    var total := TotalValue(Pending(st, time));
    MaturedIsOpen(st, now, time);
    DuesNearCredits(st.wait, st.history, lo, hi, total, FromSubtraction(total, gain), after.history);
  }

  // ---------------------------------------------------------------------------------------------
  // The dues when nothing arrived
  // ---------------------------------------------------------------------------------------------

  lemma {:induction false} AllZero(m: map<Claim, nat>)
    requires forall c :: c in m ==> m[c] == 0
    ensures SumMap(m) == 0
    decreases |m|
  {
    if m != map[] {
      var c :| c in m;
      SumMapRemove(m, c);
      AllZero(m - {c});
    }
  }

  /** One claim holds the whole batch. */
  ghost predicate Sole(wait: map<Claim, nat>, b: UnbondHistory) {
    exists c :: c in wait && c.batch == b.batchId && wait[c] == b.amount
  }

  /** The rate of a batch that was credited one coin: it pays that coin or nothing. */
  lemma OneCoinShare(x: nat, amount: nat)
    requires 0 < amount && x <= amount
    ensures MulFloor(x, RatioFloor(1, amount)) == if x == amount && ONE % amount == 0 then 1 else 0
  {
    var rate := RatioFloor(1, amount);
    assert rate == ONE / amount;
    assert amount * rate + ONE % amount == ONE;
    if x == amount {
      assert x * rate == amount * rate;
    } else {
      assert (x + 1) * rate == x * rate + rate;
      MulLe(x + 1, amount, rate);
      if rate == 0 {
        assert x * rate == 0;
      }
    }
  }

  /** A batch credited one coin costs that coin exactly when one claim holds all of it and divides 10^18. */
  lemma OneCoinDue(wait: map<Claim, nat>, b: UnbondHistory, rate: nat)
    requires b.amount > 0 && Open(wait, b.batchId) == b.amount && rate == RatioFloor(1, b.amount)
    ensures SumMap(OwedOn(wait, b.batchId, rate)) == if Sole(wait, b) && ONE % b.amount == 0 then 1 else 0
  {
    hide MulFloor, RatioFloor, SumMap;
    var on, owed := On(wait, b.batchId), OwedOn(wait, b.batchId, rate);
    forall c | c in owed ensures owed[c] == if wait[c] == b.amount && ONE % b.amount == 0 then 1 else 0 {
      SumMapRemove(on, c);
      OneCoinShare(wait[c], b.amount);
    }
    if Sole(wait, b) && ONE % b.amount == 0 {
      var c :| c in wait && c.batch == b.batchId && wait[c] == b.amount;
      assert owed[c] == 1;
      SumMapRemove(owed, c);
      OwedOnWithin(wait, b.batchId, rate, b.amount);
      OneCoinShare(b.amount, b.amount);
    } else {
      AllZero(owed);
    }
  }

  /** The batch is credited a coin that did not arrive, and one claim can take it. */
  ghost predicate TakesCoin(wait: map<Claim, nat>, b: UnbondHistory, total: nat) {
    Overcharged(b, total, total) && Sole(wait, b) && b.amount > 0 && ONE % b.amount == 0
  }

  ghost function CoinsTaken(wait: map<Claim, nat>, bs: seq<UnbondHistory>, total: nat): nat {
    if bs == [] then 0
    else CoinsTaken(wait, bs[..|bs| - 1], total) + if TakesCoin(wait, bs[|bs| - 1], total) then 1 else 0
  }

  lemma NothingArrivedDue(wait: map<Claim, nat>, b: UnbondHistory, total: nat, rate: nat)
    requires 0 < total <= ONE && Open(wait, b.batchId) == b.amount
    requires NewWithdrawRate(b.amount, b.withdrawRate, total, SignedInt(total, false)) == Success(rate)
    ensures Due(wait, b, total, SignedInt(total, false)) == if TakesCoin(wait, b, total) then 1 else 0
  {
    hide Sole, OwedOn, Open, SumMap, On, Charge, MulFloor;
    var slashed := SignedInt(total, false);
    NothingArrivedCredit(b, total);
    if Overcharged(b, total, total) {
      assert b.amount > 0 && Actual(Value(b), total, slashed) == 1;
      assert rate == RatioFloor(1, b.amount);
      OneCoinDue(wait, b, rate);
    } else {
      DueNearCredit(wait, b, total, slashed, rate);
    }
  }

  lemma CoinsSnoc(wait: map<Claim, nat>, history: map<nat, UnbondHistory>, lo: nat, hi: nat, total: nat)
    requires lo < hi && forall j :: lo <= j < hi ==> j in history
    ensures CoinsTaken(wait, Batches(history, lo, hi), total)
            == CoinsTaken(wait, Batches(history, lo, hi - 1), total)
               + if TakesCoin(wait, history[hi - 1], total) then 1 else 0
  {
    hide TakesCoin;
    assert Batches(history, lo, hi)[..hi - 1 - lo] == Batches(history, lo, hi - 1);
  }

  lemma {:induction false} NothingArrivedTotal(wait: map<Claim, nat>, history: map<nat, UnbondHistory>, lo: nat,
                                               hi: nat, total: nat, after: map<nat, UnbondHistory>)
    requires lo <= hi && forall j :: lo <= j < hi ==> j in history
    requires forall j :: lo <= j < hi ==> history[j].batchId == j && Open(wait, j) == history[j].amount
    requires 0 < total <= ONE && Reprice(history, lo, hi, total, SignedInt(total, false)) == Success(after)
    ensures TotalDue(wait, Batches(history, lo, hi), total, SignedInt(total, false))
            == CoinsTaken(wait, Batches(history, lo, hi), total)
    decreases hi - lo
  {
    hide SumMap, Open, Due, NewWithdrawRate, On, TakesCoin, Rounding;
    if lo < hi {
      var slashed := SignedInt(total, false);
      var h, rate := RepriceLast(history, lo, hi, total, slashed, after);
      NothingArrivedTotal(wait, history, lo, hi - 1, total, h);
      DuesSnoc(wait, history, lo, hi, total, slashed);
      CoinsSnoc(wait, history, lo, hi, total);
      NothingArrivedDue(wait, history[hi - 1], total, rate);
    }
  }

  /**
   * When no coin arrived for pending batches worth up to 10^18, the dues are exactly the coins that are credited
   * to batches worth nothing or of exact weight, each held by one claim that divides 10^18.
   */
  lemma NothingArrivedDues(st: Storage, now: nat, time: nat, after: Storage)
    requires LifeCycle(st, now) && Ledger(st) && PendingRepriced(st, time, 0, after)
    requires 0 < TotalValue(Pending(st, time)) <= ONE
    ensures Dues(st, time, 0) == CoinsTaken(st.wait, Pending(st, time), TotalValue(Pending(st, time)))
  {
    hide LifeCycle, Ledger, TotalValue;
    var lo := st.state.lastProcessed + 1;
    var hi := MaturedEnd(st.history, lo, time);
    MaturedIsOpen(st, now, time);
    NothingArrivedTotal(st.wait, st.history, lo, hi, TotalValue(Pending(st, time)), after.history);
  }

  // ---------------------------------------------------------------------------------------------
  // Releases that can be afforded
  // ---------------------------------------------------------------------------------------------

  /**
   * A withdrawal can be afforded if the released claims together with those it releases cost no more than
   * the hub holds.
   */
  ghost predicate Affordable(st: Storage, time: nat, balance: nat) {
    SumMap(Owed(st.wait, st.history)) + Dues(st, time, Above(balance, st.state.prevBalance)) <= balance
  }

  /** In a solvent hub a covered release can be afforded. */
  lemma CoveredIsAffordable(st: Storage, now: nat, time: nat, gain: nat, after: Storage)
    requires LifeCycle(st, now) && Ledger(st) && Solvent(st) && PendingRepriced(st, time, gain, after)
    requires Covered(Pending(st, time), gain)
    ensures Affordable(st, time, st.state.prevBalance + gain)
  {
    hide LifeCycle, Ledger, Covered, PendingRepriced, Dues, Owed;
    CoveredIff(Pending(st, time), gain);
    ReleaseAddsCredits(st, now, time, gain, after);
  }

  /** Credits beyond the gain, the reserve and the rounding cannot be afforded. */
  lemma ExcessIsNotAffordable(st: Storage, now: nat, time: nat, gain: nat, after: Storage)
    requires LifeCycle(st, now) && Ledger(st) && PendingRepriced(st, time, gain, after)
    requires SumMap(Owed(st.wait, st.history)) + Credits(Pending(st, time), gain)
             > st.state.prevBalance + gain + Rounding(st.wait, Pending(st, time))
    ensures !Affordable(st, time, st.state.prevBalance + gain)
  {
    hide LifeCycle, Ledger, PendingRepriced, Dues, Owed, Credits, Rounding;
    ReleaseAddsCredits(st, now, time, gain, after);
  }

  /** Paying a user takes exactly the payouts out of what is owed. */
  lemma PayingReducesOwed(wait: map<Claim, nat>, history: map<nat, UnbondHistory>, user: User)
    ensures var payouts := Payouts(wait, history, user);
            SumMap(Owed(wait - payouts.Keys, history)) + SumMap(payouts) == SumMap(Owed(wait, history))
  {
    var payouts := Payouts(wait, history, user);
    var rest := Owed(wait - payouts.Keys, history);
    assert Owed(wait, history) == rest + payouts;
    SumMapUnion(rest, payouts);
  }

  // ---------------------------------------------------------------------------------------------
  // Paid at most once
  // ---------------------------------------------------------------------------------------------

  /**
   * `paid` records every payment by the claim it settled. Settled claims are gone from the wait list, and
   * what was paid on a batch plus what is still owed on it stays within the batch at its released rate.
   */
  ghost predicate PaidOnce(wait: map<Claim, nat>, history: map<nat, UnbondHistory>, paid: map<Claim, nat>) {
    && paid.Keys !! wait.Keys
    && (forall c :: c in paid ==> IsReleased(history, c.batch))
    && (forall b :: IsReleased(history, b) ==>
          Open(paid, b) + SumMap(OwedOn(wait, b, history[b].withdrawRate))
          <= MulFloor(history[b].amount, history[b].withdrawRate))
  }

  lemma NothingPaid(paid: map<Claim, nat>, b: nat)
    requires forall c :: c in paid ==> c.batch != b
    ensures Open(paid, b) == 0
  {
    assert On(paid, b) == map[];
  }

  /** On a released batch, a release of others changes nothing; on a newly released one nothing was paid. */
  lemma ReleaseKeepsPaidOnce(st: Storage, now: nat, time: nat, balance: nat, after: Storage, paid: map<Claim, nat>)
    requires LifeCycle(st, now) && Ledger(st) && PaidOnce(st.wait, st.history, paid)
    requires ReleaseMatured(st, time, balance) == Success(after)
    ensures PaidOnce(after.wait, after.history, paid)
  {
    var lo, hi := ReleaseEffect(st, time, balance, after);
    forall b | IsReleased(after.history, b)
      ensures Open(paid, b) + SumMap(OwedOn(after.wait, b, after.history[b].withdrawRate))
              <= MulFloor(after.history[b].amount, after.history[b].withdrawRate)
    {
      if !IsReleased(st.history, b) {
        NothingPaid(paid, b);
        OwedOnWithin(st.wait, b, after.history[b].withdrawRate, st.history[b].amount);
      } else {
        MaturedRange(st, now, time, b);
      }
    }
    forall c | c in paid ensures IsReleased(after.history, c.batch) {
      assert IsReleased(st.history, c.batch);
    }
  }

  /** Paying a user moves each payout from what is owed on its batch to what was paid on it. */
  lemma PayoutsMove(wait: map<Claim, nat>, history: map<nat, UnbondHistory>, user: User, paid: map<Claim, nat>, b: nat)
    requires paid.Keys !! wait.Keys && IsReleased(history, b)
    ensures var payouts := Payouts(wait, history, user);
            Open(paid + payouts, b) + SumMap(OwedOn(wait - payouts.Keys, b, history[b].withdrawRate))
            == Open(paid, b) + SumMap(OwedOn(wait, b, history[b].withdrawRate))
  {
    hide SumMap, MulFloor;
    var payouts, rate := Payouts(wait, history, user), history[b].withdrawRate;
    assert On(paid + payouts, b) == On(paid, b) + On(payouts, b);
    SumMapUnion(On(paid, b), On(payouts, b));
    var rest := OwedOn(wait - payouts.Keys, b, rate);
    assert OwedOn(wait, b, rate) == rest + On(payouts, b);
    SumMapUnion(rest, On(payouts, b));
  }

  lemma PayingKeepsPaidOnce(wait: map<Claim, nat>, history: map<nat, UnbondHistory>, user: User, paid: map<Claim, nat>)
    requires PaidOnce(wait, history, paid)
    ensures var payouts := Payouts(wait, history, user);
            PaidOnce(wait - payouts.Keys, history, paid + payouts)
  {
    var payouts := Payouts(wait, history, user);
    forall b | IsReleased(history, b)
      ensures Open(paid + payouts, b) + SumMap(OwedOn(wait - payouts.Keys, b, history[b].withdrawRate))
              <= MulFloor(history[b].amount, history[b].withdrawRate)
    {
      PayoutsMove(wait, history, user, paid, b);
    }
  }

  /** Entering a request on the open batch touches no released batch. */
  lemma EnterKeepsOwed(wait: map<Claim, nat>, c: Claim, amount: nat, history: map<nat, UnbondHistory>)
    requires !IsReleased(history, c.batch)
    ensures Owed(wait[c := amount], history) == Owed(wait, history)
    ensures forall b, rate :: b != c.batch ==> OwedOn(wait[c := amount], b, rate) == OwedOn(wait, b, rate)
  {
    hide MulFloor, SumMap, Open;
    forall b, rate | b != c.batch
      ensures OwedOn(wait[c := amount], b, rate) == OwedOn(wait, b, rate)
    {
      assert OwedOn(wait[c := amount], b, rate).Keys == OwedOn(wait, b, rate).Keys;
    }
  }

  /** Closing a batch releases nothing, so nothing more is owed. */
  lemma CloseKeepsOwed(wait: map<Claim, nat>, history: map<nat, UnbondHistory>, b: nat, closed: UnbondHistory)
    requires b !in history && !closed.released
    ensures Owed(wait, history[b := closed]) == Owed(wait, history)
  {
    assert Owed(wait, history[b := closed]).Keys == Owed(wait, history).Keys;
  }
}
