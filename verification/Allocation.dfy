/** Spreading stake over validators (`calculate_delegations`, `calculate_undelegations`). */
module Allocation {
  import opened Results
  import opened FixedPoint
  import opened Sums

  type Address = string

  /** A validator as the registry reports it: its address and what the hub has delegated to it. */
  datatype Validator = Validator(address: Address, stake: nat)

  function Stakes(validators: seq<Validator>): (s: seq<nat>)
    ensures |s| == |validators|
  {
    seq(|validators|, i requires 0 <= i < |validators| => validators[i].stake)
  }

  // ---------------------------------------------------------------------------------------------
  // The plan: an even target per validator, filled or drained in list order
  // ---------------------------------------------------------------------------------------------

  /** The even share of validator `i`: the first `total % n` validators get the odd coins. */
  function Target(total: nat, n: nat, i: nat): nat
    requires n > 0
  {
    total / n + if i < total % n then 1 else 0
  }

  function Targets(total: nat, n: nat): (t: seq<nat>)
    requires n > 0
    ensures |t| == n
  {
    seq(n, i requires 0 <= i < n => Target(total, n, i))
  }

  /** By how much each entry of `s` exceeds the entry of `t`. */
  function AboveAll(s: seq<nat>, t: seq<nat>): (d: seq<nat>)
    requires |s| == |t|
    ensures |d| == |s|
  {
    seq(|s|, i requires 0 <= i < |s| => Above(s[i], t[i]))
  }

  function Plus(s: seq<nat>, t: seq<nat>): (d: seq<nat>)
    requires |s| == |t|
    ensures |d| == |s|
  {
    seq(|s|, i requires 0 <= i < |s| => s[i] + t[i])
  }

  function Minus(s: seq<nat>, t: seq<nat>): (d: seq<nat>)
    requires |s| == |t|
    requires forall i :: 0 <= i < |s| ==> t[i] <= s[i]
    ensures |d| == |s|
  {
    seq(|s|, i requires 0 <= i < |s| => s[i] - t[i])
  }

  /** What is left of the amount when the first `k` capacities have been used. */
  function Left(caps: seq<nat>, amount: nat, k: nat): nat
    requires k <= |caps|
  {
    Above(amount, Sum(caps[..k]))
  }

  /** Takes up to each capacity, in order, until the amount is used up. */
  function Greedy(caps: seq<nat>, amount: nat): (g: seq<nat>)
    ensures |g| == |caps|
    ensures forall i :: 0 <= i < |g| ==> g[i] <= caps[i]
  {
    seq(|caps|, i requires 0 <= i < |caps| => Min(caps[i], Left(caps, amount, i)))
  }

  /** Filling the stakes up to the even targets of a total. */
  function FillPlan(stakes: seq<nat>, total: nat, amount: nat): (g: seq<nat>)
    requires stakes != []
    ensures |g| == |stakes|
  {
    Greedy(AboveAll(Targets(total, |stakes|), stakes), amount)
  }

  /** Draining the stakes down to the even targets of what is to remain. */
  function DrainPlan(stakes: seq<nat>, rest: nat, amount: nat): (g: seq<nat>)
    requires stakes != []
    ensures |g| == |stakes|
  {
    Greedy(AboveAll(stakes, Targets(rest, |stakes|)), amount)
  }

  /** What `calculate_delegations` returns; it never fails to place the whole amount. */
  function Delegations(stakes: seq<nat>, amount: nat): (r: Result<seq<nat>>)
    ensures r.Success? ==> |r.value| == |stakes|
  {
    if stakes == [] then Failure(EmptyValidators)
    else if Sum(stakes) + amount > MAX_UINT128 then Failure(Overflow)
    else Success(FillPlan(stakes, Sum(stakes) + amount, amount))
  }

  /** What `calculate_undelegations` returns. */
  function Undelegations(stakes: seq<nat>, amount: nat): (r: Result<seq<nat>>)
    ensures r.Success? ==> |r.value| == |stakes|
  {
    if stakes == [] then Failure(EmptyValidators)
    else if Sum(stakes) > MAX_UINT128 then Failure(Overflow)
    else if amount > Sum(stakes) then Failure(UndelegationTooLarge)
    else Success(DrainPlan(stakes, Sum(stakes) - amount, amount))
  }

  // ---------------------------------------------------------------------------------------------
  // Conservation
  // ---------------------------------------------------------------------------------------------

  lemma {:induction false} TargetsPrefix(total: nat, n: nat, k: nat)
    requires n > 0 && k <= n
    ensures Sum(Targets(total, n)[..k]) == k * (total / n) + Min(k, total % n)
  {
    hide Sum;
    if k == 0 {
      assert Sum([]) == 0 by {
        EmptySum();
      }
    } else {
      TargetsPrefix(total, n, k - 1);
      SumPrefix(Targets(total, n), k - 1);
      assert k * (total / n) == (k - 1) * (total / n) + total / n;
    }
  }

  /** The even targets distribute the total exactly. */
  lemma TargetsSum(total: nat, n: nat)
    requires n > 0
    ensures Sum(Targets(total, n)) == total
  {
    TargetsPrefix(total, n, n);
    assert Targets(total, n)[..n] == Targets(total, n);
    assert n * (total / n) + total % n == total;
  }

  /** Room over the whole list is at least the difference of the sums. */
  lemma AboveAllSum(s: seq<nat>, t: seq<nat>)
    requires |s| == |t|
    ensures Sum(s) <= Sum(t) + Sum(AboveAll(s, t))
  {
    var room := AboveAll(s, t);
    SumAdd(t, room, Plus(t, room));
    SumLe(s, Plus(t, room));
  }

  lemma LeftStart(caps: seq<nat>, amount: nat)
    ensures Left(caps, amount, 0) == amount
  {
  }

  lemma LeftEnd(caps: seq<nat>, amount: nat)
    ensures Left(caps, amount, |caps|) == Above(amount, Sum(caps))
  {
    assert caps[..|caps|] == caps;
  }

  lemma LeftStep(caps: seq<nat>, amount: nat, k: nat)
    requires k < |caps|
    ensures Greedy(caps, amount)[k] == Min(caps[k], Left(caps, amount, k))
    ensures Left(caps, amount, k) == Greedy(caps, amount)[k] + Left(caps, amount, k + 1)
  {
    SumPrefix(caps, k);
  }

  lemma {:induction false} GreedyPrefix(caps: seq<nat>, amount: nat, k: nat)
    requires k <= |caps|
    ensures Sum(Greedy(caps, amount)[..k]) + Left(caps, amount, k) == amount
  {
    if k > 0 {
      GreedyPrefix(caps, amount, k - 1);
      SumPrefix(Greedy(caps, amount), k - 1);
      LeftStep(caps, amount, k - 1);
    }
  }

  /** The plan takes the whole amount, or everything there is. */
  lemma GreedySum(caps: seq<nat>, amount: nat)
    ensures Sum(Greedy(caps, amount)) == Min(Sum(caps), amount)
  {
    GreedyPrefix(caps, amount, |caps|);
    assert caps[..|caps|] == caps && Greedy(caps, amount)[..|caps|] == Greedy(caps, amount);
  }

  /** Delegation places exactly the amount: the closing error of the source cannot occur. */
  lemma DelegationsConserve(stakes: seq<nat>, amount: nat)
    ensures Delegations(stakes, amount).Success? <==> stakes != [] && Sum(stakes) + amount <= MAX_UINT128
    ensures Delegations(stakes, amount).Success? ==>
              Sum(Delegations(stakes, amount).value) == amount
  {
    if stakes != [] {
      var targets := Targets(Sum(stakes) + amount, |stakes|);
      TargetsSum(Sum(stakes) + amount, |stakes|);
      AboveAllSum(targets, stakes);
      GreedySum(AboveAll(targets, stakes), amount);
    }
  }

  /** The loop of `calculate_delegations` runs out of coins before it runs out of validators. */
  lemma DelegationsComplete(stakes: seq<nat>, amount: nat, total: nat)
    requires stakes != [] && total == Sum(stakes) + amount
    ensures Left(AboveAll(Targets(total, |stakes|), stakes), amount, |stakes|) == 0
  {
    hide Sum, Targets, AboveAll, Left;
    var caps := AboveAll(Targets(total, |stakes|), stakes);
    TargetsSum(total, |stakes|);
    AboveAllSum(Targets(total, |stakes|), stakes);
    LeftEnd(caps, amount);
  }

  /** Undelegation takes exactly the amount, and from nobody more than it holds. */
  lemma UndelegationsConserve(stakes: seq<nat>, amount: nat)
    ensures Undelegations(stakes, amount).Success?
            <==> stakes != [] && amount <= Sum(stakes) <= MAX_UINT128
    ensures Undelegations(stakes, amount).Success? ==>
              var d := Undelegations(stakes, amount).value;
              Sum(d) == amount && forall i :: 0 <= i < |d| ==> d[i] <= stakes[i]
  {
    if stakes != [] && amount <= Sum(stakes) {
      var targets := Targets(Sum(stakes) - amount, |stakes|);
      TargetsSum(Sum(stakes) - amount, |stakes|);
      AboveAllSum(stakes, targets);
      GreedySum(AboveAll(stakes, targets), amount);
    }
  }

  /** One pass over the validators is enough: their room above the targets covers the amount. */
  lemma UndelegationsComplete(stakes: seq<nat>, amount: nat, rest: nat)
    requires stakes != [] && rest + amount == Sum(stakes)
    ensures Left(AboveAll(stakes, Targets(rest, |stakes|)), amount, |stakes|) == 0
  {
    hide Sum, Targets, AboveAll, Left;
    var caps := AboveAll(stakes, Targets(rest, |stakes|));
    TargetsSum(rest, |stakes|);
    AboveAllSum(stakes, Targets(rest, |stakes|));
    LeftEnd(caps, amount);
  }

  // ---------------------------------------------------------------------------------------------
  // What the plans are, without the formulas that compute them
  // ---------------------------------------------------------------------------------------------

  /** The total shared out as evenly as whole coins allow, the odd coins in front. */
  ghost predicate Even(t: seq<nat>, total: nat) {
    Sum(t) == total && forall i, j :: 0 <= i < j < |t| ==> t[j] <= t[i] <= t[j] + 1
  }

  /** An amount placed in order: nobody gets anything before everyone in front has no room left. */
  ghost predicate Fills(room: seq<nat>, amount: nat, d: seq<nat>) {
    && |d| == |room| && Sum(d) == amount
    && (forall i :: 0 <= i < |d| ==> d[i] <= room[i])
    && (forall i, j :: 0 <= i < j < |d| && d[j] > 0 ==> d[i] == room[i])
  }

  lemma EvenAtMost(s: seq<nat>, t: seq<nat>, i: nat)
    requires |s| == |t| && i < |s| && s[i] < t[i]
    requires forall i, j :: 0 <= i < j < |s| ==> s[j] <= s[i] <= s[j] + 1
    requires forall i, j :: 0 <= i < j < |t| ==> t[j] <= t[i] <= t[j] + 1
    ensures forall j :: 0 <= j < |s| ==> s[j] <= t[j]
  {
    forall j | 0 <= j < |s| ensures s[j] <= t[j] {
      if j < i {
        assert s[j] <= s[i] + 1 && t[i] <= t[j];
      } else if j > i {
        assert s[j] <= s[i] && t[i] <= t[j] + 1;
      }
    }
  }

  /** There is only one even way to share out a total. */
  lemma EvenIsUnique(s: seq<nat>, t: seq<nat>, total: nat)
    requires |s| == |t| && Even(s, total) && Even(t, total)
    ensures s == t
  {
    hide Sum;
    if i :| 0 <= i < |s| && s[i] < t[i] {
      EvenAtMost(s, t, i);
      SumSqueeze(s, t);
    } else {
      assert forall i :: 0 <= i < |s| ==> t[i] <= s[i];
      SumSqueeze(t, s);
    }
  }

  lemma TargetsEven(total: nat, n: nat)
    requires n > 0
    ensures Even(Targets(total, n), total)
  {
    TargetsSum(total, n);
  }

  lemma FillsAtMost(room: seq<nat>, amount: nat, d: seq<nat>, e: seq<nat>, i: nat)
    requires Fills(room, amount, d) && Fills(room, amount, e) && i < |d| && d[i] < e[i]
    ensures forall j :: 0 <= j < |d| ==> d[j] <= e[j]
  {
    hide Sum;
    forall j | 0 <= j < |d| ensures d[j] <= e[j] {
      if j > i {
        assert d[j] == 0;
      }
    }
  }

  /** There is only one way to place an amount in order. */
  lemma FillsIsUnique(room: seq<nat>, amount: nat, d: seq<nat>, e: seq<nat>)
    requires Fills(room, amount, d) && Fills(room, amount, e)
    ensures d == e
  {
    hide Sum;
    if i :| 0 <= i < |d| && d[i] < e[i] {
      FillsAtMost(room, amount, d, e, i);
      SumSqueeze(d, e);
    } else {
      assert forall i :: 0 <= i < |d| ==> e[i] <= d[i];
      SumSqueeze(e, d);
    }
  }

  lemma {:induction false} LeftShrinks(caps: seq<nat>, amount: nat, i: nat, j: nat)
    requires i <= j <= |caps|
    ensures Left(caps, amount, j) <= Left(caps, amount, i)
    decreases j
  {
    if i < j {
      LeftStep(caps, amount, j - 1);
      LeftShrinks(caps, amount, i, j - 1);
    }
  }

  lemma GreedyFills(room: seq<nat>, amount: nat)
    requires amount <= Sum(room)
    ensures Fills(room, amount, Greedy(room, amount))
  {
    hide Sum, Left;
    GreedySum(room, amount);
    var g := Greedy(room, amount);
    forall i, j | 0 <= i < j < |g| && g[j] > 0 ensures g[i] == room[i] {
      LeftStep(room, amount, i);
      LeftStep(room, amount, j);
      LeftShrinks(room, amount, i + 1, j);
    }
  }

  /** The room of the validators below, or above, the even targets takes the whole amount. */
  lemma PlanFills(from: seq<nat>, to: seq<nat>, amount: nat)
    requires |from| == |to| && Sum(to) == Sum(from) + amount
    ensures Fills(AboveAll(to, from), amount, Greedy(AboveAll(to, from), amount))
  {
    hide Sum, Greedy, Left;
    AboveAllSum(to, from);
    GreedyFills(AboveAll(to, from), amount);
  }

  /**
   * What `calculate_delegations` returns: the amount placed, in list order, into the room below the even shares
   * of the new total.
   */
  lemma DelegationsIff(stakes: seq<nat>, amount: nat, targets: seq<nat>, d: seq<nat>)
    requires |targets| == |stakes| > 0 && Even(targets, Sum(stakes) + amount)
    ensures Delegations(stakes, amount) == Success(d)
            <==> Sum(stakes) + amount <= MAX_UINT128 && Fills(AboveAll(targets, stakes), amount, d)
  {
    hide Sum, Greedy, Left, Targets, AboveAll, Fills, Even;
    var total := Sum(stakes) + amount;
    TargetsEven(total, |stakes|);
    EvenIsUnique(targets, Targets(total, |stakes|), total);
    PlanFills(stakes, targets, amount);
    var room := AboveAll(targets, stakes);
    if Fills(room, amount, d) {
      FillsIsUnique(room, amount, d, Greedy(room, amount));
    }
  }

  /**
   * What `calculate_undelegations` returns: the amount taken, in list order, from what the validators hold
   * above the even shares of the remaining total.
   */
  lemma UndelegationsIff(stakes: seq<nat>, amount: nat, targets: seq<nat>, d: seq<nat>)
    requires |targets| == |stakes| > 0 && amount <= Sum(stakes) && Even(targets, Sum(stakes) - amount)
    ensures Undelegations(stakes, amount) == Success(d)
            <==> Sum(stakes) <= MAX_UINT128 && Fills(AboveAll(stakes, targets), amount, d)
  {
    hide Sum, Greedy, Left, Targets, AboveAll, Fills, Even;
    var rest := Sum(stakes) - amount;
    TargetsEven(rest, |stakes|);
    EvenIsUnique(targets, Targets(rest, |stakes|), rest);
    PlanFills(targets, stakes, amount);
    var room := AboveAll(stakes, targets);
    if Fills(room, amount, d) {
      FillsIsUnique(room, amount, d, Greedy(room, amount));
    }
  }

  // ---------------------------------------------------------------------------------------------
  // Optimality
  // ---------------------------------------------------------------------------------------------

  function Largest(s: seq<nat>): (m: nat)
    requires s != []
    ensures exists i :: 0 <= i < |s| && s[i] == m
    ensures forall i :: 0 <= i < |s| ==> s[i] <= m
  {
    var n := |s| - 1;
    if n == 0 then s[0]
    else
      var m := Largest(s[..n]);
      assert forall i :: 0 <= i < n ==> s[..n][i] == s[i];
      if s[n] > m then s[n] else m
  }

  function Smallest(s: seq<nat>): (m: nat)
    requires s != []
    ensures exists i :: 0 <= i < |s| && s[i] == m
    ensures forall i :: 0 <= i < |s| ==> m <= s[i]
  {
    var n := |s| - 1;
    if n == 0 then s[0]
    else
      var m := Smallest(s[..n]);
      assert forall i :: 0 <= i < n ==> s[..n][i] == s[i];
      if s[n] < m then s[n] else m
  }

  /** No even target exceeds a bound that the total allows everybody to stay within. */
  lemma TargetAtMost(total: nat, n: nat, i: nat, bound: nat)
    requires n > 0 && total <= n * bound
    ensures Target(total, n, i) <= bound
  {
    var q, r := total / n, total % n;
    assert n * q + r == total;
    MulLe(Min(bound + 1, q), q, n);
  }

  lemma TargetAtLeast(total: nat, n: nat, i: nat, bound: nat)
    requires n > 0 && n * bound <= total
    ensures bound <= Target(total, n, i)
  {
    var q, r := total / n, total % n;
    assert n * q + r == total;
    MulLe(Min(q + 1, bound), bound, n);
  }

  lemma CappedMinimax(stakes: seq<nat>, total: nat, d: seq<nat>, other: seq<nat>)
    requires 0 < |stakes| == |d| == |other| && Sum(stakes) + Sum(other) == total
    requires forall i :: 0 <= i < |d| ==> d[i] <= Above(Target(total, |stakes|, i), stakes[i])
    ensures Largest(Plus(stakes, d)) <= Largest(Plus(stakes, other))
  {
    var n, after, rival := |stakes|, Plus(stakes, d), Plus(stakes, other);
    var m := Largest(rival);
    SumAdd(stakes, other, rival);
    SumAtMost(rival, m);
    forall i | 0 <= i < n ensures after[i] <= m {
      TargetAtMost(total, n, i, m);
      assert rival[i] <= m;
      var target := Target(total, n, i);
      assert d[i] <= Above(target, stakes[i]);
    }
  }

  lemma CappedMaximin(stakes: seq<nat>, total: nat, d: seq<nat>, other: seq<nat>)
    requires 0 < |stakes| == |d| == |other| && Sum(stakes) == total + Sum(other)
    requires forall i :: 0 <= i < |d| ==> other[i] <= stakes[i] && d[i] <= stakes[i]
    requires forall i :: 0 <= i < |d| ==> d[i] <= Above(stakes[i], Target(total, |stakes|, i))
    ensures Smallest(Minus(stakes, other)) <= Smallest(Minus(stakes, d))
  {
    var n, after, rival := |stakes|, Minus(stakes, d), Minus(stakes, other);
    var m := Smallest(rival);
    SumAdd(rival, other, stakes);
    SumAtLeast(rival, m);
    forall i | 0 <= i < n ensures m <= after[i] {
      TargetAtLeast(total, n, i, m);
      assert m <= rival[i];
      var target := Target(total, n, i);
      assert d[i] <= Above(stakes[i], target);
    }
  }

  /** Among all ways to split the amount, the source's leaves the smallest possible largest stake. */
  lemma DelegationMinimax(stakes: seq<nat>, amount: nat, other: seq<nat>)
    requires Delegations(stakes, amount).Success?
    requires |other| == |stakes| && Sum(other) == amount
    ensures Largest(Plus(stakes, Delegations(stakes, amount).value)) <= Largest(Plus(stakes, other))
  {
    hide Sum;
    CappedMinimax(stakes, Sum(stakes) + amount, Delegations(stakes, amount).value, other);
  }

  /** Among all ways to take the amount, the source's leaves the largest possible smallest stake. */
  lemma UndelegationMaximin(stakes: seq<nat>, amount: nat, other: seq<nat>)
    requires Undelegations(stakes, amount).Success?
    requires |other| == |stakes| && Sum(other) == amount
    requires forall i :: 0 <= i < |stakes| ==> other[i] <= stakes[i]
    ensures var d := Undelegations(stakes, amount).value;
            && (forall i :: 0 <= i < |d| ==> d[i] <= stakes[i])
            && Smallest(Minus(stakes, other)) <= Smallest(Minus(stakes, d))
  {
    UndelegationsConserve(stakes, amount);
    var d := Undelegations(stakes, amount).value;
    forall i | 0 <= i < |d| ensures d[i] <= Above(stakes[i], Target(Sum(stakes) - amount, |stakes|, i)) {
      assert d[i] <= AboveAll(stakes, Targets(Sum(stakes) - amount, |stakes|))[i];
    }
    CappedMaximin(stakes, Sum(stakes) - amount, d, other);
  }

  // ---------------------------------------------------------------------------------------------
  // Balanced pools
  // ---------------------------------------------------------------------------------------------

  lemma TargetMonotone(t: nat, u: nat, n: nat, i: nat)
    requires n > 0 && t <= u
    ensures Target(t, n, i) <= Target(u, n, i)
  {
    var q, r, q', r' := t / n, t % n, u / n, u % n;
    assert n * q + r == t && n * q' + r' == u;
    MulCancel(q, q', n);
    if q == q' {
      assert r <= r';
    }
  }

  lemma GreedyAll(caps: seq<nat>)
    ensures Greedy(caps, Sum(caps)) == caps
  {
    var g := Greedy(caps, Sum(caps));
    GreedySum(caps, Sum(caps));
    SumSqueeze(g, caps);
  }

  /** When the room is exactly the amount, the greedy plan uses all of it. */
  lemma ExactRoom(from: seq<nat>, to: seq<nat>, amount: nat)
    requires |from| == |to| && Sum(to) == Sum(from) + amount
    requires forall i :: 0 <= i < |from| ==> from[i] <= to[i]
    ensures Greedy(AboveAll(to, from), amount) == AboveAll(to, from)
    ensures Plus(from, AboveAll(to, from)) == to
  {
    hide Sum, Greedy;
    var room := AboveAll(to, from);
    forall i | 0 <= i < |from| ensures to[i] == from[i] + room[i] {
    }
    SumAdd(from, room, to);
    GreedyAll(room);
    assert Plus(from, room) == to;
  }

  /** The step from one balanced pool to a larger one. */
  function Step(total: nat, next: nat, n: nat): seq<nat>
    requires n > 0
  {
    AboveAll(Targets(next, n), Targets(total, n))
  }

  lemma StepExact(total: nat, n: nat, amount: nat)
    requires n > 0
    ensures Sum(Targets(total, n)) == total
    ensures Greedy(Step(total, total + amount, n), amount) == Step(total, total + amount, n)
    ensures Plus(Targets(total, n), Step(total, total + amount, n)) == Targets(total + amount, n)
  {
    TargetsSum(total, n);
    TargetsSum(total + amount, n);
    forall i | 0 <= i < n ensures Targets(total, n)[i] <= Targets(total + amount, n)[i] {
      TargetMonotone(total, total + amount, n, i);
    }
    ExactRoom(Targets(total, n), Targets(total + amount, n), amount);
  }

  /** A balanced pool stays balanced: delegation moves every stake to its next even target. */
  lemma DelegateBalanced(total: nat, n: nat, amount: nat)
    requires n > 0 && total + amount <= MAX_UINT128
    ensures Delegations(Targets(total, n), amount) == Success(Step(total, total + amount, n))
    ensures Plus(Targets(total, n), Step(total, total + amount, n)) == Targets(total + amount, n)
  {
    hide Sum, Targets, Greedy, AboveAll;
    StepExact(total, n, amount);
  }

  /** On a balanced pool, undelegating the amount just delegated takes back the same amounts. */
  lemma UndelegateBalanced(total: nat, n: nat, amount: nat)
    requires n > 0 && total + amount <= MAX_UINT128
    ensures Undelegations(Targets(total + amount, n), amount) == Success(Step(total, total + amount, n))
  {
    hide Sum, Targets, Greedy, AboveAll;
    StepExact(total, n, amount);
    TargetsSum(total + amount, n);
  }

  /** The stakes after delegating an amount. */
  function AfterDelegating(stakes: seq<nat>, amount: nat): Result<seq<nat>> {
    var d :- Delegations(stakes, amount);
    Success(Plus(stakes, d))
  }

  /** On a balanced pool, delegating in two steps reaches what one step reaches. */
  lemma DelegationPathIndependent(total: nat, n: nat, a: nat, b: nat)
    requires n > 0 && total + a + b <= MAX_UINT128
    ensures var first := AfterDelegating(Targets(total, n), a);
            && first.Success?
            && AfterDelegating(first.value, b) == AfterDelegating(Targets(total, n), a + b)
            && AfterDelegating(first.value, b).Success?
  {
    hide Delegations, Targets, Step;
    DelegateBalanced(total, n, a);
    DelegateBalanced(total + a, n, b);
    DelegateBalanced(total, n, a + b);
    assert total + (a + b) == (total + a) + b;
  }

  /** Delegating and then undelegating the same amount undoes every single delegation. */
  lemma DelegateThenUndelegate(total: nat, n: nat, amount: nat)
    requires n > 0 && total + amount <= MAX_UINT128
    ensures var after := AfterDelegating(Targets(total, n), amount);
            && after.Success?
            && Undelegations(after.value, amount) == Delegations(Targets(total, n), amount)
            && Delegations(Targets(total, n), amount).Success?
  {
    DelegateBalanced(total, n, amount);
    UndelegateBalanced(total, n, amount);
  }

  // ---------------------------------------------------------------------------------------------
  // The loops of the source
  // ---------------------------------------------------------------------------------------------

  /** Once the amount is used up, the rest of the plan is zero. */
  lemma {:induction false} GreedyDone(caps: seq<nat>, amount: nat, k: nat)
    requires k <= |caps| && Left(caps, amount, k) == 0
    ensures Left(caps, amount, |caps|) == 0
    ensures forall i :: k <= i < |caps| ==> Greedy(caps, amount)[i] == 0
    decreases |caps| - k
  {
    if k < |caps| {
      LeftStep(caps, amount, k);
      GreedyDone(caps, amount, k + 1);
    }
  }

  lemma NothingToTake(caps: seq<nat>)
    ensures Greedy(caps, 0) == seq(|caps|, _ => 0)
  {
    GreedyDone(caps, 0, 0);
  }

  method TotalStake(validators: seq<Validator>) returns (r: Result<nat>)
    ensures r == Fit(Sum(Stakes(validators)))
  {
    var total := 0;
    for i := 0 to |validators|
      invariant total == Sum(Stakes(validators)[..i]) <= MAX_UINT128
    {
      SumPrefix(Stakes(validators), i);
      assert Stakes(validators)[i] == validators[i].stake;
      total := total + validators[i].stake;
      if total > MAX_UINT128 {
        SumPrefixLe(Stakes(validators), i + 1);
        return Failure(Overflow);
      }
    }
    assert Stakes(validators)[..|validators|] == Stakes(validators);
    return Success(total);
  }

  /** The target as the loops compute it from the quotient and the remainder. */
  function LoopTarget(coinsPerValidator: nat, remainingCoins: nat, index: nat): nat {
    coinsPerValidator + if index + 1 <= remainingCoins then 1 else 0
  }

  /** The loop of `calculate_delegations`: fills the list up to the targets while coins are left. */
  method FillToTargets(amount: nat, validators: seq<Validator>, coinsPerValidator: nat, remainingCoins: nat,
                       delegations: array<nat>, ghost caps: seq<nat>)
    returns (amountToDelegate: nat)
    requires |validators| == delegations.Length == |caps|
    requires forall i :: 0 <= i < |caps| ==> delegations[i] == 0
    requires forall i :: 0 <= i < |caps| ==>
               caps[i] == Above(LoopTarget(coinsPerValidator, remainingCoins, i), validators[i].stake)
    modifies delegations
    ensures delegations[..] == Greedy(caps, amount)
    ensures amountToDelegate == Left(caps, amount, |caps|)
  {
    hide Greedy, Left, Sum;
    ghost var plan := Greedy(caps, amount);
    amountToDelegate := amount;
    LeftStart(caps, amount);
    var index := 0;
    while index < |validators|
      invariant 0 <= index <= |validators|
      invariant amountToDelegate == Left(caps, amount, index)
      invariant forall i :: 0 <= i < index ==> delegations[i] == plan[i]
      invariant forall i :: index <= i < |caps| ==> delegations[i] == 0
    {
      LeftStep(caps, amount, index);
      var extraCoin := if index + 1 <= remainingCoins then 1 else 0;
      if coinsPerValidator + extraCoin < validators[index].stake {
        index := index + 1;
        continue;
      }
      var toDelegate := coinsPerValidator + extraCoin - validators[index].stake;
      if toDelegate > amountToDelegate {
        toDelegate := amountToDelegate;
      }
      delegations[index] := toDelegate;
      amountToDelegate := amountToDelegate - toDelegate;
      index := index + 1;
      if amountToDelegate == 0 {
        break;
      }
    }
    if amountToDelegate == 0 {
      GreedyDone(caps, amount, index);
    }
    assert delegations[..] == plan;
  }

  method CalculateDelegations(amount: nat, validators: seq<Validator>) returns (r: Result<seq<nat>>)
    ensures r == Delegations(Stakes(validators), amount)
  {
    if |validators| == 0 {
      return Failure(EmptyValidators);
    }
    var totalDelegated := TotalStake(validators);
    if totalDelegated.Failure? || totalDelegated.value + amount > MAX_UINT128 {
      return Failure(Overflow);
    }
    var total := totalDelegated.value + amount;
    var delegations := new nat[|validators|](_ => 0);
    ghost var stakes := Stakes(validators);
    ghost var caps := AboveAll(Targets(total, |validators|), stakes);
    var amountToDelegate :=
      FillToTargets(amount, validators, total / |validators|, total % |validators|, delegations, caps);
    DelegationsComplete(stakes, amount, total);
    if amountToDelegate == 0 {
      return Success(delegations[..]);
    } else {
      return Failure(NotDistributed);
    }
  }

  /** The inner loop of `calculate_undelegations`: drains the list down to the targets. */
  method DrainToTargets(amount: nat, total: nat, coinsPerValidator: nat, remainingCoins: nat,
                        held: array<nat>, undelegations: array<nat>, ghost caps: seq<nat>)
    returns (undelegationAmount: nat, totalDelegated: nat)
    requires held != undelegations && held.Length == undelegations.Length == |caps|
    requires amount <= total
    requires forall i :: 0 <= i < |caps| ==> undelegations[i] == 0
    requires forall i :: 0 <= i < |caps| ==>
               caps[i] == Above(held[i], LoopTarget(coinsPerValidator, remainingCoins, i))
    modifies held, undelegations
    ensures undelegations[..] == Greedy(caps, amount)
    ensures undelegationAmount == Left(caps, amount, |caps|)
    ensures totalDelegated + amount == total + undelegationAmount
  {
    hide Greedy, Left, Sum;
    ghost var plan := Greedy(caps, amount);
    undelegationAmount, totalDelegated := amount, total;
    LeftStart(caps, amount);
    var index := 0;
    while index < held.Length
      invariant 0 <= index <= held.Length
      invariant undelegationAmount == Left(caps, amount, index)
      invariant totalDelegated + amount == total + undelegationAmount
      invariant forall i :: 0 <= i < index ==> undelegations[i] == plan[i]
      invariant forall i :: index <= i < |caps| ==> undelegations[i] == 0 && held[i] == old(held[i])
    {
      LeftStep(caps, amount, index);
      var extraCoin := if index + 1 <= remainingCoins then 1 else 0;
      var toUndelegate := held[index] - Min(coinsPerValidator + extraCoin, held[index]);
      if toUndelegate > undelegationAmount {
        toUndelegate := undelegationAmount;
      }
      undelegations[index] := undelegations[index] + toUndelegate;
      undelegationAmount := undelegationAmount - toUndelegate;
      totalDelegated := totalDelegated - toUndelegate;
      held[index] := held[index] - toUndelegate;
      index := index + 1;
      if undelegationAmount == 0 {
        break;
      }
    }
    if undelegationAmount == 0 {
      GreedyDone(caps, amount, index);
    }
    assert undelegations[..] == plan;
  }

  /** `passes` counts the turns of the outer loop: one is always enough. */
  method CalculateUndelegations(amount: nat, validators: seq<Validator>)
    returns (r: Result<seq<nat>>, ghost passes: nat)
    ensures r == Undelegations(Stakes(validators), amount)
    ensures passes <= 1
  {
    hide Sum, Greedy, Left;
    passes := 0;
    if |validators| == 0 {
      return Failure(EmptyValidators), 0;
    }
    var n := |validators|;
    ghost var stakes := Stakes(validators);
    var sum := TotalStake(validators);
    if sum.Failure? {
      return Failure(Overflow), 0;
    }
    var totalDelegated := sum.value;
    if amount > totalDelegated {
      return Failure(UndelegationTooLarge), 0;
    }
    ghost var caps := AboveAll(stakes, Targets(totalDelegated - amount, n));
    UndelegationsComplete(stakes, amount, totalDelegated - amount);

    var undelegationAmount := amount;
    var held := new nat[n](i requires 0 <= i < n => validators[i].stake);
    var undelegations := new nat[n](_ => 0);
    while undelegationAmount != 0
      invariant passes == 0 ==> undelegationAmount == amount && totalDelegated == sum.value
      invariant passes == 0 ==> forall i :: 0 <= i < n ==> held[i] == stakes[i] && undelegations[i] == 0
      invariant passes <= 1 && (passes == 1 ==> undelegationAmount == 0 && undelegations[..] == Greedy(caps, amount))
      decreases undelegationAmount
    {
      passes := passes + 1;
      var after := totalDelegated - undelegationAmount;
      undelegationAmount, totalDelegated :=
        DrainToTargets(undelegationAmount, totalDelegated, after / n, after % n, held, undelegations, caps);
    }
    if passes == 0 {
      NothingToTake(caps);
      assert undelegations[..] == Greedy(caps, amount);
    }
    r := Success(undelegations[..]);
  }
}
