/** Concrete releases that are not covered: what happens without each part of the plain guard. */
module Witnesses {
  import opened Results
  import opened FixedPoint
  import opened Sums
  import opened Release
  import opened HubTypes
  import opened HubSpec
  import opened ClaimLedger
  import opened Solvency

  function Batch(id: nat, amount: nat, rate: nat): UnbondHistory {
    UnbondHistory(id, 100 * id, amount, rate, rate, false)
  }

  /** The batches wait for their release in some storage that respects the life cycle. */
  ghost predicate CanBePending(bs: seq<UnbondHistory>) {
    exists st, now :: LifeCycle(st, now) && Pending(st, now) == bs
  }

  /** The batch with a number, in a list numbered from one. */
  function At(bs: seq<UnbondHistory>, b: nat): UnbondHistory
    requires 1 <= b <= |bs|
  {
    bs[b - 1]
  }

  /** A hub that has closed the given batches and released none of them. */
  function Holding(bs: seq<UnbondHistory>, now: nat): Storage {
    Storage(State(ONE, 0, 0, now, 0), CurrentBatch(|bs| + 1, 0), map b: nat | 1 <= b <= |bs| :: At(bs, b), map[])
  }

  /** Unreleased batches, numbered from one and closed at increasing times. */
  ghost predicate Waiting(bs: seq<UnbondHistory>) {
    && 0 < |bs| < MAX_UINT64
    && (forall b: nat :: 1 <= b <= |bs| ==> At(bs, b).batchId == b && !At(bs, b).released)
    && (forall a: nat, b: nat :: 1 <= a < b <= |bs| ==> At(bs, a).time < At(bs, b).time)
  }

  lemma WaitingIsOrdered(bs: seq<UnbondHistory>)
    requires Waiting(bs)
    ensures var now := At(bs, |bs|).time;
            LifeCycle(Holding(bs, now), now)
  {
  }

  lemma WaitingHasMatured(bs: seq<UnbondHistory>, now: nat)
    requires Waiting(bs) && now == At(bs, |bs|).time
    ensures MaturedEnd(Holding(bs, now).history, 1, now) == |bs| + 1
  {
    hide At, MaturedEnd;
    var history := Holding(bs, now).history;
    forall j: nat | 1 <= j < |bs| + 1 ensures Matured(history, j, now) {
      assert At(bs, j).time <= now;
    }
    EndsAt(history, 1, |bs| + 1, now);
  }

  /** Any such list can be pending. */
  lemma WaitingCanBePending(bs: seq<UnbondHistory>)
    requires Waiting(bs)
    ensures CanBePending(bs)
  {
    hide LifeCycle;
    var now := At(bs, |bs|).time;
    WaitingIsOrdered(bs);
    WaitingHasMatured(bs, now);
    assert Pending(Holding(bs, now), now) == bs;
  }

  lemma SumsLast(bs: seq<UnbondHistory>, b: UnbondHistory, total: nat, loss: nat)
    ensures TotalValue(bs + [b]) == TotalValue(bs) + Value(b)
    ensures TotalCharge(bs + [b], total, loss) == TotalCharge(bs, total, loss) + BatchCharge(b, total, loss)
    ensures CountOvercharged(bs + [b], total, loss)
            == CountOvercharged(bs, total, loss) + if Overcharged(b, total, loss) then 1 else 0
  {
    assert (bs + [b])[..|bs|] == bs;
  }

  /** All sums of a list of three batches. */
  lemma ThreeBatches(a: UnbondHistory, b: UnbondHistory, c: UnbondHistory, total: nat, loss: nat)
    ensures var bs := [a, b, c];
            && TotalValue(bs) == Value(a) + Value(b) + Value(c)
            && TotalCharge(bs, total, loss)
               == BatchCharge(a, total, loss) + BatchCharge(b, total, loss) + BatchCharge(c, total, loss)
            && CountOvercharged(bs, total, loss)
               == (if Overcharged(a, total, loss) then 1 else 0) + (if Overcharged(b, total, loss) then 1 else 0)
                  + if Overcharged(c, total, loss) then 1 else 0
  {
    hide Value, BatchCharge, Overcharged;
    SumsLast([], a, total, loss);
    SumsLast([a], b, total, loss);
    SumsLast([a, b], c, total, loss);
    assert [] + [a] == [a] && [a] + [b] == [a, b] && [a, b] + [c] == [a, b, c];
  }

  /** Without any coins arriving, even one whole batch is credited a coin that is not there. */
  lemma NoGainIsNotCovered()
    ensures var bs := [Batch(1, 10, ONE)];
            && CanBePending(bs)
            && Value(bs[0]) > 0 && |bs| * (TotalValue(bs) - 0) <= ONE
            && !Covered(bs, 0)
  {
    WaitingCanBePending([Batch(1, 10, ONE)]);
    Single(Batch(1, 10, ONE), 10, 10);
    SingleBatchCoveredIff(Batch(1, 10, ONE), 0);
  }

  /** Batches worth nothing are credited a coin each: coins arrived and the loss is small, but not covered. */
  lemma DustIsNotCovered()
    ensures var bs := [Batch(1, 100, ONE), Batch(2, 1, ONE / 2), Batch(3, 1, ONE / 2)];
            && CanBePending(bs)
            && |bs| * (TotalValue(bs) - 99) <= ONE
            && !Covered(bs, 99)
  {
    var coin, dust, more := Batch(1, 100, ONE), Batch(2, 1, ONE / 2), Batch(3, 1, ONE / 2);
    WaitingCanBePending([coin, dust, more]);
    ThreeBatches(coin, dust, more, 100, 1);
    assert Value(coin) == 100 && Value(dust) == 0 && Value(more) == 0;
    assert RatioFloor(100, 100) == ONE && RatioFloor(0, 100) == 0;
    assert Charge(100, 100, 1) == 2 && Charge(0, 100, 1) == 1;
  }

  /** With an enormous loss the 18 digits of the weights lose whole coins: worth and gain are there, cover is not. */
  lemma HugeLossIsNotCovered()
    ensures var bs := [Batch(1, 10 * ONE, ONE), Batch(2, 10 * ONE, ONE), Batch(3, 10 * ONE, ONE)];
            && CanBePending(bs)
            && (forall i :: 0 <= i < |bs| ==> Value(bs[i]) > 0)
            && !Covered(bs, 20 * ONE)
  {
    var a, b, c := Batch(1, 10 * ONE, ONE), Batch(2, 10 * ONE, ONE), Batch(3, 10 * ONE, ONE);
    WaitingCanBePending([a, b, c]);
    ThreeBatches(a, b, c, 30 * ONE, 10 * ONE);
    assert Value(a) == 10 * ONE && Value(b) == 10 * ONE && Value(c) == 10 * ONE;
    assert RatioFloor(10 * ONE, 30 * ONE) == 333_333_333_333_333_333;
    assert Charge(10 * ONE, 30 * ONE, 10 * ONE) == 3_333_333_333_333_333_331;
  }
}
