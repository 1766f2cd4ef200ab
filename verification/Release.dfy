/** The arithmetic of releasing unbonding batches (`calculate_new_withdraw_rate`). */
module Release {
  import opened Results
  import opened FixedPoint

  /** A closed batch of unbonding requests. */
  datatype UnbondHistory = UnbondHistory(
    batchId: nat, time: nat, amount: nat, appliedRate: nat, withdrawRate: nat, released: bool)

  /** The coins a batch is worth at its recorded rate. */
  function Value(b: UnbondHistory): nat {
    MulFloor(b.amount, b.withdrawRate)
  }

  /** The part of a magnitude that falls on a value out of a total, through an 18-digit weight. */
  function Share(value: nat, total: nat, magnitude: nat): nat {
    MulFloor(magnitude, if total != 0 then RatioFloor(value, total) else 0)
  }

  /** What a batch is charged for a loss: its share, rounded up. */
  function Charge(value: nat, total: nat, loss: nat): nat {
    Share(value, total, loss) + if loss != 0 then 1 else 0
  }

  /** What a batch gains from a surplus: its share, rounded down by one more. */
  function Bonus(value: nat, total: nat, surplus: nat): nat {
    Above(Share(value, total, surplus), 1)
  }

  /** The coins a batch is taken to have received. The sign of `value - charge` is dropped. */
  function Actual(value: nat, total: nat, slashed: SignedInt): nat {
    if slashed.negative then value + Bonus(value, total, slashed.magnitude)
    else FromSubtraction(value, Charge(value, total, slashed.magnitude)).magnitude
  }

  function NewWithdrawRate(amount: nat, rate: nat, total: nat, slashed: SignedInt): Result<nat> {
    var value := MulFloor(amount, rate);
    var actual := Actual(value, total, slashed);
    if !slashed.negative && (value > MAX_UINT128 || Charge(value, total, slashed.magnitude) > MAX_UINT128) then
      Failure(Overflow)
    else if amount != 0 then
      if actual > MAX_UINT128 then Failure(Overflow) else FromRatio(actual, amount)
    else
      Success(rate)
  }

  // ---------------------------------------------------------------------------------------------
  // One batch
  // ---------------------------------------------------------------------------------------------

  /** A share is proportional up to a stated error on either side. */
  lemma ShareBounds(value: nat, total: nat, magnitude: nat)
    requires total > 0
    ensures Share(value, total, magnitude) * total <= value * magnitude
    ensures value * magnitude * ONE + 1
            <= (Share(value, total, magnitude) + 1) * total * ONE + magnitude * total
  {
    var w := RatioFloor(value, total);
    var x := Share(value, total, magnitude);
    assert x * ONE <= magnitude * w <= x * ONE + ONE - 1;
    assert w * total <= value * ONE <= w * total + total - 1;
    MulLe(x * ONE, magnitude * w, total);
    MulLe(magnitude * w, x * ONE + ONE - 1, total);
    MulLe(w * total, value * ONE, magnitude);
    MulLe(value * ONE, w * total + total, magnitude);
    ShareAlgebra(x, w, value, total, magnitude);
  }

  lemma ShareAlgebra(x: nat, w: nat, value: nat, total: nat, magnitude: nat)
    requires x * ONE * total <= magnitude * w * total <= (x * ONE + ONE - 1) * total
    requires w * total * magnitude <= value * ONE * magnitude <= (w * total + total) * magnitude
    requires total > 0
    ensures x * total <= value * magnitude
    ensures value * magnitude * ONE + 1 <= (x + 1) * total * ONE + magnitude * total
  {
    var p, q, r, s := x * total, w * total * magnitude, value * magnitude, total * magnitude;
    assert x * ONE * total == p * ONE;
    assert magnitude * w * total == q;
    assert (x * ONE + ONE - 1) * total == p * ONE + total * ONE - total;
    assert value * ONE * magnitude == r * ONE;
    assert (w * total + total) * magnitude == q + s;
    assert (x + 1) * total * ONE == p * ONE + total * ONE;
  }

  /** Pro-rata charge: `c - 1 <= value * loss / total < c + loss / 10^18`. */
  lemma ChargeProRata(value: nat, total: nat, loss: nat)
    requires total > 0 && loss > 0
    ensures (Charge(value, total, loss) - 1) * total <= value * loss
    ensures value * loss * ONE < Charge(value, total, loss) * total * ONE + loss * total
  {
    ShareBounds(value, total, loss);
  }

  /** A batch is never charged more than one coin above its value. */
  lemma ChargeAtMostOneOver(value: nat, total: nat, loss: nat)
    requires 0 < loss <= total
    ensures Charge(value, total, loss) <= value + 1
  {
    ChargeProRata(value, total, loss);
    MulLe(loss, total, value);
    MulCancel(Charge(value, total, loss) - 1, value, total);
  }

  /**
   * Exactly when the dropped sign matters: a batch is charged more than its value if and only if it is
   * worth nothing, or no coin at all arrived and its weight is not rounded.
   */
  lemma SignDroppedIff(value: nat, total: nat, loss: nat)
    requires 0 < loss <= total
    ensures Charge(value, total, loss) > value
            <==> value == 0 || (loss == total && value * ONE % total == 0)
  {
    hide MulFloor;
    var w, x := RatioFloor(value, total), Share(value, total, loss);
    ShareBounds(value, total, loss);
    if value > 0 {
      if loss < total {
        SmallLoss(value, total, loss, x);
      } else {
        FullLoss(value, total, w, x);
      }
    }
  }

  /** While some coins arrived, the share of a batch stays below its value. */
  lemma SmallLoss(value: nat, total: nat, loss: nat, x: nat)
    requires value > 0 && loss < total && x * total <= value * loss
    ensures x < value
  {
    assert value * (total - loss) > 0;
    assert value * (total - loss) == value * total - value * loss;
    MulLe(Min(value, x), x, total);
  }

  /** With a loss of the whole total, the share is the whole value just when the weight is exact. */
  lemma FullLoss(value: nat, total: nat, w: nat, x: nat)
    requires total > 0 && w == RatioFloor(value, total)
    requires x == MulFloor(total, w)
    ensures x >= value <==> value * ONE % total == 0
  {
    assert w == value * ONE / total;
    assert total * w + value * ONE % total == value * ONE;
    if value * ONE % total == 0 {
      assert total * w == value * ONE;
    } else {
      assert total * w < value * ONE;
      assert x * ONE <= total * w;
    }
  }

  // ---------------------------------------------------------------------------------------------
  // A release of several batches
  // ---------------------------------------------------------------------------------------------

  function TotalValue(bs: seq<UnbondHistory>): nat {
    if bs == [] then 0 else TotalValue(bs[..|bs| - 1]) + Value(bs[|bs| - 1])
  }

  /** The coins that a batch can pay out after its release; a batch without requests pays nothing. */
  function Credit(b: UnbondHistory, total: nat, slashed: SignedInt): nat {
    if b.amount == 0 then 0 else Actual(Value(b), total, slashed)
  }

  function TotalCredit(bs: seq<UnbondHistory>, total: nat, slashed: SignedInt): nat {
    if bs == [] then 0
    else TotalCredit(bs[..|bs| - 1], total, slashed) + Credit(bs[|bs| - 1], total, slashed)
  }

  function BatchCharge(b: UnbondHistory, total: nat, loss: nat): nat {
    if b.amount == 0 then 0 else Charge(Value(b), total, loss)
  }

  function TotalCharge(bs: seq<UnbondHistory>, total: nat, loss: nat): nat {
    if bs == [] then 0
    else TotalCharge(bs[..|bs| - 1], total, loss) + BatchCharge(bs[|bs| - 1], total, loss)
  }

  function BatchBonus(b: UnbondHistory, total: nat, surplus: nat): nat {
    if b.amount == 0 then 0 else Bonus(Value(b), total, surplus)
  }

  function TotalBonus(bs: seq<UnbondHistory>, total: nat, surplus: nat): nat {
    if bs == [] then 0
    else TotalBonus(bs[..|bs| - 1], total, surplus) + BatchBonus(bs[|bs| - 1], total, surplus)
  }

  /** The batch is credited more than it was worth. */
  predicate Gaining(b: UnbondHistory, total: nat, surplus: nat) {
    Credit(b, total, SignedInt(surplus, true)) > Value(b)
  }

  function CountGaining(bs: seq<UnbondHistory>, total: nat, surplus: nat): nat {
    if bs == [] then 0
    else CountGaining(bs[..|bs| - 1], total, surplus) + if Gaining(bs[|bs| - 1], total, surplus) then 1 else 0
  }

  predicate Overcharged(b: UnbondHistory, total: nat, loss: nat) {
    BatchCharge(b, total, loss) > Value(b)
  }

  function CountOvercharged(bs: seq<UnbondHistory>, total: nat, loss: nat): nat {
    if bs == [] then 0
    else CountOvercharged(bs[..|bs| - 1], total, loss) + if Overcharged(bs[|bs| - 1], total, loss) then 1 else 0
  }

  /** The credits of a release in which the hub balance grew by `gain`. */
  function Credits(bs: seq<UnbondHistory>, gain: nat): nat {
    TotalCredit(bs, TotalValue(bs), FromSubtraction(TotalValue(bs), gain))
  }

  /**
   * A release is covered when nothing was lost, or when the charges make up for the loss and for the
   * two coins that every overcharged batch is credited too much.
   */
  predicate Covered(bs: seq<UnbondHistory>, gain: nat) {
    var total := TotalValue(bs);
    total <= gain
    || total - gain + 2 * CountOvercharged(bs, total, total - gain) <= TotalCharge(bs, total, total - gain)
  }

  /** Values and credits differ by the charges and by two coins for every dropped sign. */
  lemma {:induction false} CreditIdentity(bs: seq<UnbondHistory>, total: nat, loss: nat)
    requires 0 < loss <= total
    ensures TotalCredit(bs, total, SignedInt(loss, false)) + TotalCharge(bs, total, loss)
            == TotalValue(bs) + 2 * CountOvercharged(bs, total, loss)
  {
    if bs != [] {
      var b := bs[|bs| - 1];
      CreditIdentity(bs[..|bs| - 1], total, loss);
      ChargeAtMostOneOver(Value(b), total, loss);
    }
  }

  /** The charges add up to the loss, within the rounding of each batch. */
  lemma {:induction false} LossSums(bs: seq<UnbondHistory>, total: nat, loss: nat)
    requires 0 < loss <= total
    ensures TotalCharge(bs, total, loss) * total <= TotalValue(bs) * loss + |bs| * total
    ensures (TotalValue(bs) * loss + CountOvercharged(bs, total, loss) * total) * ONE + |bs|
            <= TotalCharge(bs, total, loss) * total * ONE + |bs| * (loss * total)
  {
    hide Value, BatchCharge, Overcharged;
    if bs != [] {
      var n := |bs| - 1;
      var init, b := bs[..n], bs[n];
      LossSums(init, total, loss);
      OneLoss(b, total, loss);
      var c, v, k := BatchCharge(b, total, loss), Value(b), if Overcharged(b, total, loss) then 1 else 0;
      AddLoss(TotalCharge(init, total, loss), TotalValue(init), CountOvercharged(init, total, loss), n,
              c, v, k, total, loss);
    }
  }

  /** Adding one batch to the sums of a loss. */
  lemma AddLoss(charges: nat, values: nat, over: nat, n: nat, c: nat, v: nat, k: nat, total: nat, loss: nat)
    requires charges * total <= values * loss + n * total
    requires (values * loss + over * total) * ONE + n <= charges * total * ONE + n * (loss * total)
    requires c * total <= v * loss + total
    requires (v * loss + k * total) * ONE + 1 <= c * total * ONE + loss * total
    ensures (charges + c) * total <= (values + v) * loss + (n + 1) * total
    ensures ((values + v) * loss + (over + k) * total) * ONE + (n + 1)
            <= (charges + c) * total * ONE + (n + 1) * (loss * total)
  {
    Distribute(charges, c, total);
    Distribute(values, v, loss);
    Distribute(over, k, total);
    Distribute(n, 1, total);
    Distribute(n, 1, loss * total);
  }

  lemma Distribute(a: nat, b: nat, c: nat)
    ensures (a + b) * c == a * c + b * c
  {
  }

  lemma OneLoss(b: UnbondHistory, total: nat, loss: nat)
    requires 0 < loss <= total
    ensures BatchCharge(b, total, loss) * total <= Value(b) * loss + total
    ensures (Value(b) * loss + (if Overcharged(b, total, loss) then 1 else 0) * total) * ONE + 1
            <= BatchCharge(b, total, loss) * total * ONE + loss * total
  {
    var v, c := Value(b), BatchCharge(b, total, loss);
    assert 1 <= loss * total;
    if b.amount == 0 {
      assert v == 0;
    } else {
      ChargeProRata(v, total, loss);
      Distribute(c - 1, 1, total);
      if c > v {
        ChargeAtMostOneOver(v, total, loss);
        Distribute(v, 1, total);
        MulLe(loss, total, v);
      }
    }
  }

  lemma {:induction false} BonusIdentity(bs: seq<UnbondHistory>, total: nat, surplus: nat)
    ensures TotalCredit(bs, total, SignedInt(surplus, true)) == TotalValue(bs) + TotalBonus(bs, total, surplus)
  {
    if bs != [] {
      BonusIdentity(bs[..|bs| - 1], total, surplus);
    }
  }

  /**
   * The bonuses stay one coin for every gaining batch below the surplus, and fall short of it only by the
   * rounding of each batch.
   */
  lemma {:induction false} SurplusSums(bs: seq<UnbondHistory>, total: nat, surplus: nat)
    requires 0 < total && 0 < surplus
    ensures (TotalBonus(bs, total, surplus) + CountGaining(bs, total, surplus)) * total <= TotalValue(bs) * surplus
    ensures TotalValue(bs) * surplus * ONE + |bs|
            <= (TotalBonus(bs, total, surplus) + 2 * |bs|) * total * ONE + |bs| * (surplus * total)
  {
    hide Value, BatchBonus, Gaining;
    if bs != [] {
      var n := |bs| - 1;
      var init, b := bs[..n], bs[n];
      SurplusSums(init, total, surplus);
      OneSurplus(b, total, surplus);
      var g, h := TotalBonus(init, total, surplus), BatchBonus(b, total, surplus);
      Distribute(g + CountGaining(init, total, surplus), h + if Gaining(b, total, surplus) then 1 else 0, total);
      Distribute(g + 2 * n, h + 2, total);
      Distribute(TotalValue(init), Value(b), surplus);
      Distribute(n, 1, surplus * total);
    }
  }

  lemma OneSurplus(b: UnbondHistory, total: nat, surplus: nat)
    requires 0 < total && 0 < surplus
    ensures (BatchBonus(b, total, surplus) + if Gaining(b, total, surplus) then 1 else 0) * total
            <= Value(b) * surplus
    ensures Value(b) * surplus * ONE + 1
            <= (BatchBonus(b, total, surplus) + 2) * total * ONE + surplus * total
  {
    var v, h := Value(b), BatchBonus(b, total, surplus);
    assert 1 <= surplus * total;
    if b.amount == 0 {
      assert v == 0;
    } else {
      var x := Share(v, total, surplus);
      ShareBounds(v, total, surplus);
      assert Gaining(b, total, surplus) <==> h > 0;
      MulLe(h + if h > 0 then 1 else 0, x, total);
      MulLe(x + 1, h + 2, total);
    }
  }

  /**
   * A batch that shares in a loss pays its pro-rata part and up to one coin more, less only by the rounding of
   * the weight. A batch that cannot pay is credited one coin.
   */
  lemma LossTakesCoin(b: UnbondHistory, total: nat, loss: nat)
    requires 0 < loss <= total && b.amount > 0
    ensures var credit, value := Credit(b, total, SignedInt(loss, false)), Value(b);
            if value == 0 || (loss == total && value * ONE % total == 0) then credit == 1
            else
              && credit < value
              && (value - credit - 1) * total <= value * loss
              && value * loss * ONE < (value - credit) * total * ONE + loss * total
  {
    hide MulFloor, Share;
    var value := Value(b);
    SignDroppedIff(value, total, loss);
    ChargeAtMostOneOver(value, total, loss);
    ChargeProRata(value, total, loss);
  }

  /**
   * A batch that shares in a surplus loses nothing. If it gains it keeps a whole coin back from its pro-rata
   * part, and it never misses that part by two coins or more, up to the rounding of the weight.
   */
  lemma GainKeepsCoinBack(b: UnbondHistory, total: nat, surplus: nat)
    requires 0 < total && 0 < surplus && b.amount > 0
    ensures var credit, value := Credit(b, total, SignedInt(surplus, true)), Value(b);
            && credit >= value
            && (credit > value ==> (credit - value + 1) * total <= value * surplus)
            && value * surplus * ONE < (credit - value + 2) * total * ONE + surplus * total
  {
    hide MulFloor, Bonus;
    OneSurplus(b, total, surplus);
  }

  /**
   * A batch gets a rate exactly when, without a surplus, its value and its charge fit, and, with requests, so do
   * its credit and the ratio of the two.
   */
  lemma RateSucceedsIff(b: UnbondHistory, total: nat, slashed: SignedInt)
    ensures NewWithdrawRate(b.amount, b.withdrawRate, total, slashed).Success?
            <==> && (!slashed.negative ==>
                       Value(b) <= MAX_UINT128 && Charge(Value(b), total, slashed.magnitude) <= MAX_UINT128)
                 && (b.amount > 0 ==>
                       && Credit(b, total, slashed) <= MAX_UINT128
                       && RatioFloor(Credit(b, total, slashed), b.amount) <= MAX_UINT128)
  {
    hide MulFloor, Charge, Actual, RatioFloor;
  }

  // ---------------------------------------------------------------------------------------------
  // Main results on one release
  // ---------------------------------------------------------------------------------------------

  /** Dividing the loss inequality by the total. */
  lemma CancelTotal(a: nat, b: nat, n: nat, m: nat, total: nat)
    requires total > 0 && n > 0 && n * m <= ONE
    requires (a * total) * ONE + n <= (b * total) * ONE + n * (m * total)
    ensures a <= b
  {
    MulLe(n * m, ONE, total);
    assert n * m * total == n * (m * total);
    Distribute(b, 1, total);
    MulLe(Min(b + 1, a), a, total);
  }

  /** Under the size guard, the charges make up for the loss and one coin for every overcharge. */
  lemma ChargesReachLoss(bs: seq<UnbondHistory>, gain: nat)
    requires gain < TotalValue(bs) && |bs| * (TotalValue(bs) - gain) <= ONE
    ensures var total := TotalValue(bs);
            var loss := total - gain;
            total - gain + CountOvercharged(bs, total, loss) <= TotalCharge(bs, total, loss) <= loss + |bs|
  {
    var total := TotalValue(bs);
    var loss := total - gain;
    LossSums(bs, total, loss);
    var k, c := CountOvercharged(bs, total, loss), TotalCharge(bs, total, loss);
    assert total * loss == loss * total;
    Distribute(loss, k, total);
    CancelTotal(loss + k, c, |bs|, loss, total);
    Distribute(loss, |bs|, total);
    MulCancel(c, loss + |bs|, total);
  }

  /** The coverage condition is exact: it holds if and only if the credits stay within the gain. */
  lemma CoveredIff(bs: seq<UnbondHistory>, gain: nat)
    ensures Covered(bs, gain) <==> Credits(bs, gain) <= gain
  {
    var total := TotalValue(bs);
    if gain < total {
      CreditIdentity(bs, total, total - gain);
    } else if gain == total {
      NoChange(bs, total);
    } else {
      SurplusWithin(bs, gain);
    }
  }

  lemma {:induction false} NoChange(bs: seq<UnbondHistory>, total: nat)
    ensures TotalCredit(bs, total, SignedInt(0, false)) == TotalValue(bs)
  {
    if bs != [] {
      NoChange(bs[..|bs| - 1], total);
      assert MulFloor(0, 0) == 0;
    }
  }

  lemma SurplusWithin(bs: seq<UnbondHistory>, gain: nat)
    requires TotalValue(bs) < gain
    ensures Credits(bs, gain) + CountGaining(bs, TotalValue(bs), gain - TotalValue(bs)) <= gain
  {
    var total := TotalValue(bs);
    var surplus := gain - total;
    BonusIdentity(bs, total, surplus);
    if total == 0 {
      NoBonus(bs, surplus);
    } else {
      SurplusSums(bs, total, surplus);
      var h := TotalBonus(bs, total, surplus) + CountGaining(bs, total, surplus);
      assert total * surplus == surplus * total;
      MulCancel(h, surplus, total);
    }
  }

  lemma {:induction false} NoBonus(bs: seq<UnbondHistory>, surplus: nat)
    ensures TotalBonus(bs, 0, surplus) == 0 && CountGaining(bs, 0, surplus) == 0
  {
    if bs != [] {
      NoBonus(bs[..|bs| - 1], surplus);
      assert MulFloor(surplus, 0) == 0;
    }
  }

  /**
   * A guard that implies coverage: with a loss, some coins did arrive, every batch with requests is
   * worth at least one coin, and the loss times the number of batches stays within 10^18.
   */
  predicate Guarded(bs: seq<UnbondHistory>, gain: nat) {
    var total := TotalValue(bs);
    total <= gain
    || (gain > 0 && |bs| * (total - gain) <= ONE && forall i :: 0 <= i < |bs| && bs[i].amount > 0 ==> Value(bs[i]) > 0)
  }

  /** Under the size guard, a loss without overcharged batches is covered. */
  lemma NoOverchargeCovers(bs: seq<UnbondHistory>, gain: nat)
    requires gain < TotalValue(bs) && |bs| * (TotalValue(bs) - gain) <= ONE
    requires CountOvercharged(bs, TotalValue(bs), TotalValue(bs) - gain) == 0
    ensures Covered(bs, gain)
  {
    ChargesReachLoss(bs, gain);
  }

  lemma GuardCovers(bs: seq<UnbondHistory>, gain: nat)
    requires Guarded(bs, gain)
    ensures Covered(bs, gain)
  {
    var total := TotalValue(bs);
    if gain < total {
      NoOvercharge(bs, total, total - gain);
      NoOverchargeCovers(bs, gain);
    }
  }

  lemma {:induction false} NoOvercharge(bs: seq<UnbondHistory>, total: nat, loss: nat)
    requires 0 < loss < total
    requires forall i :: 0 <= i < |bs| && bs[i].amount > 0 ==> Value(bs[i]) > 0
    ensures CountOvercharged(bs, total, loss) == 0
  {
    if bs != [] {
      NoOvercharge(bs[..|bs| - 1], total, loss);
      SignDroppedIff(Value(bs[|bs| - 1]), total, loss);
    }
  }

  /**
   * Two-sided bound on a release. The credits miss the gain by at most two coins a batch. After a loss they
   * exceed it by at most the number of overcharged batches; after a surplus they stay below it by at least the
   * number of gaining batches.
   */
  lemma TwoSidedBound(bs: seq<UnbondHistory>, gain: nat)
    requires TotalValue(bs) > 0
    requires |bs| * FromSubtraction(TotalValue(bs), gain).magnitude <= ONE
    ensures gain <= Credits(bs, gain) + 2 * |bs|
    ensures Credits(bs, gain)
            <= gain + if gain < TotalValue(bs) then CountOvercharged(bs, TotalValue(bs), TotalValue(bs) - gain) else 0
    ensures gain > TotalValue(bs) ==>
              Credits(bs, gain) + CountGaining(bs, TotalValue(bs), gain - TotalValue(bs)) <= gain
  {
    var total := TotalValue(bs);
    if gain < total {
      CreditIdentity(bs, total, total - gain);
      ChargesReachLoss(bs, gain);
    } else if gain == total {
      NoChange(bs, total);
    } else {
      var surplus := gain - total;
      SurplusWithin(bs, gain);
      BonusIdentity(bs, total, surplus);
      SurplusSums(bs, total, surplus);
      assert total * surplus == surplus * total;
      CancelTotal(surplus, TotalBonus(bs, total, surplus) + 2 * |bs|, |bs|, surplus, total);
    }
  }

  lemma Single(b: UnbondHistory, total: nat, loss: nat)
    ensures TotalValue([b]) == Value(b)
    ensures TotalCharge([b], total, loss) == BatchCharge(b, total, loss)
    ensures CountOvercharged([b], total, loss) == if Overcharged(b, total, loss) then 1 else 0
  {
    assert [b][..0] == [];
  }

  lemma WholeCharge(value: nat, loss: nat)
    requires 0 < loss <= value
    ensures Charge(value, value, loss) == loss + 1
  {
    var w := RatioFloor(value, value);
    MulCancel(w, ONE, value);
    MulCancel(ONE, w, value);
  }

  /** For a single batch the exact condition is the plain one: some coin arrived, or none was due. */
  lemma SingleBatchCoveredIff(b: UnbondHistory, gain: nat)
    requires b.amount > 0
    ensures Covered([b], gain) <==> gain > 0 || Value(b) == 0
  {
    var v := Value(b);
    if gain < v {
      Single(b, v, v - gain);
      WholeCharge(v, v - gain);
    } else {
      Single(b, v, 0);
    }
  }

  /** When nothing arrived, the share of a batch is its value, or one coin less if its weight is rounded. */
  lemma NothingArrivedShare(value: nat, total: nat)
    requires 0 < total <= ONE
    ensures value <= Share(value, total, total) + 1 && Share(value, total, total) <= value
  {
    hide MulFloor;
    var x := Share(value, total, total);
    ShareBounds(value, total, total);
    MulCancel(x, value, total);
    assert value * total * ONE + 1 <= (x + 1) * total * ONE + total * total;
    NothingArrivedAlgebra(value, total, x);
  }

  lemma NothingArrivedAlgebra(value: nat, total: nat, x: nat)
    requires 0 < total <= ONE
    requires value * total * ONE + 1 <= (x + 1) * total * ONE + total * total
    ensures value <= x + 1
  {
    var m := total * ONE;
    assert value * total * ONE == value * m && (x + 1) * total * ONE == (x + 1) * m;
    MulLe(total, ONE, total);
    Distribute(x + 1, 1, m);
    MulLe(Min(x + 2, value), value, m);
  }

  /** When nothing arrived, an overcharged batch is credited exactly one coin, and any other batch none. */
  lemma NothingArrivedCredit(b: UnbondHistory, total: nat)
    requires 0 < total <= ONE
    ensures Credit(b, total, SignedInt(total, false)) == if Overcharged(b, total, total) then 1 else 0
  {
    hide Share;
    NothingArrivedShare(Value(b), total);
  }

  lemma {:induction false} CreditsAreOvercharges(bs: seq<UnbondHistory>, total: nat)
    requires 0 < total <= ONE
    ensures TotalCredit(bs, total, SignedInt(total, false)) == CountOvercharged(bs, total, total)
  {
    if bs != [] {
      CreditsAreOvercharges(bs[..|bs| - 1], total);
      NothingArrivedCredit(bs[|bs| - 1], total);
    }
  }

  lemma {:induction false} NoneOverchargedIff(bs: seq<UnbondHistory>, total: nat)
    requires 0 < total
    ensures CountOvercharged(bs, total, total) == 0
            <==> forall i :: 0 <= i < |bs| && bs[i].amount > 0 ==>
                   Value(bs[i]) > 0 && Value(bs[i]) * ONE % total != 0
  {
    hide MulFloor, Charge;
    if bs != [] {
      var n := |bs| - 1;
      NoneOverchargedIff(bs[..n], total);
      SignDroppedIff(Value(bs[n]), total, total);
      assert forall i :: 0 <= i < n ==> bs[..n][i] == bs[i];
    }
  }

  /**
   * The exact condition when no coin arrived for batches worth up to 10^18 coins: no batch with requests is
   * worth nothing or has an exact weight.
   */
  lemma NothingArrivedCoveredIff(bs: seq<UnbondHistory>)
    requires 0 < TotalValue(bs) <= ONE
    ensures Covered(bs, 0)
            <==> forall i :: 0 <= i < |bs| && bs[i].amount > 0 ==>
                   Value(bs[i]) > 0 && Value(bs[i]) * ONE % TotalValue(bs) != 0
  {
    CoveredIff(bs, 0);
    CreditsAreOvercharges(bs, TotalValue(bs));
    NoneOverchargedIff(bs, TotalValue(bs));
  }
}
