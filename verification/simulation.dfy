/** One month of the year-long spending simulation that `start-test` runs:
    the spend target of the month, the roast threshold it crosses, the ten
    transactions (a fixed rent and nine payments) and the adjustment pass
    that fits the nine payment amounts to the budget left after rent.
    Every `Math.random()` draw is a parameter. */
module Simulation {
  import opened Common
  import opened Seqs
  import opened Ledger

  const RentAmount: int := 450
  const RoastThreshold: int := 1300
  const EmergencyRoastThreshold: int := 1500
  const MonthsInYear: nat := 12
  const TransactionsPerMonth: nat := 10
  /** Payments per month besides rent. */
  const Payments: nat := 9
  const MinAmount: int := 10
  const MaxAmount: int := 300

  // ---------------------------------------------------------------------
  // Targets and roasts

  /** `getMonthlySpendingTarget(monthIndex)`; `extra` is the draw
      `Math.floor(Math.random() * 500)` used from the sixth month on. */
  function MonthlyTarget(monthIndex: nat, extra: int): (t: int)
    requires 0 <= extra < 500
    ensures monthIndex < 3 ==> t == 200 + 50 * monthIndex
    ensures monthIndex == 3 ==> t == RoastThreshold
    ensures monthIndex == 4 ==> t == EmergencyRoastThreshold
    ensures monthIndex >= 5 ==> EmergencyRoastThreshold <= t < EmergencyRoastThreshold + 500
  {
    if monthIndex < 3 then 200 + monthIndex * 50
    else if monthIndex == 3 then RoastThreshold
    else if monthIndex == 4 then EmergencyRoastThreshold
    else EmergencyRoastThreshold + extra
  }

  datatype RoastKind = Regular | Emergency

  /** The `thresholdType` of the `trigger-ai-roast` event a month emits, if any. */
  function Roast(target: int): (r: Option<RoastKind>)
    ensures r == Some(Emergency) <==> target >= EmergencyRoastThreshold
    ensures r == Some(Regular) <==> RoastThreshold <= target < EmergencyRoastThreshold
    ensures r.None? <==> target < RoastThreshold
  {
    if target >= EmergencyRoastThreshold then Some(Emergency)
    else if target >= RoastThreshold then Some(Regular)
    else None
  }

  /** The threshold the event reports with its kind. */
  function RoastThresholdOf(kind: RoastKind): int {
    match kind
    case Regular => RoastThreshold
    case Emergency => EmergencyRoastThreshold
  }

  /** The months 0 to 2 raise no roast, month 3 a regular one, and every
      month from 4 on an emergency one, whatever the draw. */
  lemma RoastSchedule(monthIndex: nat, extra: int)
    requires 0 <= extra < 500
    ensures monthIndex < 3 ==> Roast(MonthlyTarget(monthIndex, extra)).None?
    ensures monthIndex == 3 ==> Roast(MonthlyTarget(monthIndex, extra)) == Some(Regular)
    ensures monthIndex >= 4 ==> Roast(MonthlyTarget(monthIndex, extra)) == Some(Emergency)
  {
  }

  // ---------------------------------------------------------------------
  // Fitting the payment amounts to the budget

  function Clamp(x: int): (r: int)
    ensures MinAmount <= r <= MaxAmount
    ensures MinAmount <= x <= MaxAmount ==> r == x
  {
    Max(MinAmount, Min(MaxAmount, x))
  }

  predicate InRange(a: seq<int>) {
    forall k :: 0 <= k < |a| ==> MinAmount <= a[k] <= MaxAmount
  }

  predicate AllMinimum(a: seq<int>) {
    forall k :: 0 <= k < |a| ==> a[k] == MinAmount
  }

  /** `clamp(Math.floor(amt * (budget / total)))`; a negative factor
      sends a positive amount to the minimum. */
  function ScaleOne(amt: int, budget: int, total: int): (r: int)
    requires total > 0
    ensures MinAmount <= r <= MaxAmount
    ensures budget < 0 && amt > 0 ==> r == MinAmount
  {
    var f := budget as real / total as real;
    var x := (amt as real) * f;
    assert budget < 0 && amt > 0 ==> x < 0.0 by {
      if budget < 0 && amt > 0 {
        assert f < 0.0;
      }
    }
    Clamp(x.Floor)
  }

  /** `amounts.map(amt => clamp(Math.floor(amt * (budget / total))))`. */
  function Scale(a: seq<int>, budget: int, total: int): (r: seq<int>)
    requires total > 0
    ensures |r| == |a| && InRange(r)
    ensures forall k :: 0 <= k < |a| ==> r[k] == ScaleOne(a[k], budget, total)
  {
    seq(|a|, k requires 0 <= k < |a| => ScaleOne(a[k], budget, total))
  }

  /** A negative budget drives every positive amount to the minimum. */
  lemma ScaleNegative(a: seq<int>, budget: int, total: int)
    requires total > 0 && budget < 0
    requires forall k :: 0 <= k < |a| ==> a[k] > 0
    ensures AllMinimum(Scale(a, budget, total))
  {
  }

  /** The jitter draws `Math.floor(Math.random() * 5)` for the pair
      `(i, j)`, flattened as `9 * i + j`. */
  predicate ValidJitter(jit: seq<int>) {
    |jit| == 2 * Payments * Payments && forall k :: 0 <= k < |jit| ==> 0 <= jit[k] < 5
  }

  /** The "variety" pass after scaling: for each pair `i < j` whose
      amounts are within 5 of each other while `a[i]` is above the
      minimum, lower `a[i]` and raise `a[j]` by a small draw. Pairs are
      visited in the order of the nested loops, `p` being `9 * i + j`. */
  function Jitter(a: seq<int>, jit: seq<int>, p: nat): (r: seq<int>)
    requires |a| == Payments && InRange(a) && ValidJitter(jit) && p <= Payments * Payments
    ensures |r| == Payments && InRange(r)
    ensures AllMinimum(a) ==> r == a
    decreases Payments * Payments - p
  {
    if p == Payments * Payments then a
    else
      var i := p / Payments;
      var j := p % Payments;
      var next :=
        if i < j && (a[i] - a[j] < 5 && a[j] - a[i] < 5) && a[i] > MinAmount then
          a[i := Max(MinAmount, a[i] - jit[2 * p])][j := Min(MaxAmount, a[j] + jit[2 * p + 1])]
        else a;
      Jitter(next, jit, p + 1)
  }

  /** Raises the amounts at the three boost indices by `boost`, capped at the maximum. */
  function Boost(a: seq<int>, boost: nat, indices: seq<nat>): (r: seq<int>)
    requires InRange(a) && forall k :: 0 <= k < |indices| ==> indices[k] < |a|
    ensures |r| == |a| && InRange(r)
    ensures forall k :: 0 <= k < |a| && k !in indices ==> r[k] == a[k]
    ensures forall k :: 0 <= k < |a| ==> r[k] >= a[k]
    decreases |indices|
  {
    if indices == [] then a
    else
      var idx := indices[0];
      assert forall k :: 0 <= k < |indices| - 1 ==> indices[1..][k] == indices[k + 1];
      Boost(a[idx := Min(MaxAmount, a[idx] + boost)], boost, indices[1..])
  }

  function ClampAll(a: seq<int>): (r: seq<int>)
    ensures |r| == |a| && InRange(r)
    ensures InRange(a) ==> r == a
  {
    seq(|a|, k requires 0 <= k < |a| => Clamp(a[k]))
  }

  /** The random inputs of the amount pass: the nine amounts after the
      generation and shuffle, the jitter draws and the three distinct
      indices the boost picks. */
  datatype AmountDraws = AmountDraws(raw: seq<int>, jitter: seq<int>, boostAt: seq<nat>)

  predicate ValidAmountDraws(d: AmountDraws) {
    && |d.raw| == Payments && InRange(d.raw)
    && ValidJitter(d.jitter)
    && |d.boostAt| == 3 && Distinct(d.boostAt)
    && forall k :: 0 <= k < 3 ==> d.boostAt[k] < Payments
  }

  /** The adjusted payment amounts of month `monthIndex` whose target is
      `target`: scale down (and jitter) when over the budget left after
      rent, boost three amounts when under it before the fifth month,
      scale once more if still over, and clamp to [10, 300]. */
  function PaymentAmounts(monthIndex: nat, target: int, d: AmountDraws): (r: seq<int>)
    requires ValidAmountDraws(d)
    ensures |r| == Payments && InRange(r)
    ensures target < RentAmount ==> AllMinimum(r)
  {
    var budget := target - RentAmount;
    var total := SumInt(d.raw);
    SumIntAtLeast(d.raw, MinAmount);
    var adjusted :=
      if total > budget then Jitter(Scale(d.raw, budget, total), d.jitter, 0)
      else if total < budget && monthIndex < 4 then Boost(d.raw, (budget - total) / 3, d.boostAt)
      else d.raw;
    var finalTotal := SumInt(adjusted);
    SumIntAtLeast(adjusted, MinAmount);
    var scaled := if finalTotal > budget then Scale(adjusted, budget, finalTotal) else adjusted;
    if budget < 0 then
      ScaleNegative(d.raw, budget, total);
      ScaleNegative(adjusted, budget, finalTotal);
      ClampAll(scaled)
    else
      ClampAll(scaled)
  }

  /** In the first three months the target is below the rent, so every
      payment is the minimum 10 and the month spends 540, above its target. */
  lemma EarlyMonthsAtMinimum(monthIndex: nat, extra: int, d: AmountDraws)
    requires monthIndex < 3 && 0 <= extra < 500 && ValidAmountDraws(d)
    ensures AllMinimum(PaymentAmounts(monthIndex, MonthlyTarget(monthIndex, extra), d))
    ensures RentAmount + SumInt(PaymentAmounts(monthIndex, MonthlyTarget(monthIndex, extra), d))
              > MonthlyTarget(monthIndex, extra)
  {
    var a := PaymentAmounts(monthIndex, MonthlyTarget(monthIndex, extra), d);
    SumIntAtLeast(a, MinAmount);
  }

  // ---------------------------------------------------------------------
  // Dates

  /** Days before the first of each month of 2025 (not a leap year). */
  const CumulativeDays: seq<int> := [0, 31, 59, 90, 120, 151, 181, 212, 243, 273, 304, 334]

  /** Days from 1970-01-01 to 2025-01-01. */
  const Epoch2025: int := 20089

  /** Midnight of `new Date(2025, month, day)`, with the server's clock on UTC. */
  function DayStamp(month: nat, day: int): (t: int)
    requires month < MonthsInYear
    ensures 1 <= day ==> t >= (Epoch2025 + CumulativeDays[month]) * DayMs
  {
    (Epoch2025 + CumulativeDays[month] + day - 1) * DayMs
  }

  /** The instant lies on one of the days 1 to 28 of `month` of 2025. */
  predicate InMonth(t: int, month: nat)
    requires month < MonthsInYear
  {
    DayStamp(month, 1) <= t <= DayStamp(month, 28)
  }

  /** A later month's first 28 days come strictly after an earlier month's. */
  lemma MonthsOrdered(m1: nat, m2: nat, t1: int, t2: int)
    requires m1 < m2 < MonthsInYear && InMonth(t1, m1) && InMonth(t2, m2)
    ensures t1 < t2
  {
    assert CumulativeDays[m2] >= CumulativeDays[m1] + 28;
  }

  // ---------------------------------------------------------------------
  // The month's transactions

  /** Descriptions the simulation picks from, per type. */
  function SimDescriptions(kind: string): (r: seq<string>)
    ensures |r| > 0
  {
    if kind == "utilities" then ["Electricity Bill", "Gas & Water Bill", "Energy Bill", "Heating"]
    else if kind == "bills" then
      ["Internet & Subscriptions", "Mobile Phone", "Gym Membership", "Streaming Services"]
    else ["Groceries", "Food Delivery", "Transport", "Entertainment", "Shopping", "Takeaway",
          "Coffee & Snacks"]
  }

  /** The weighted type roll: below 0.4 a payment, below 0.7 a bill, below
      0.9 a utility, and otherwise still a payment — never rent. */
  function PaymentKind(roll: real): (k: string)
    ensures k in ["payment", "bills", "utilities"]
    ensures k != "rent"
  {
    if roll < 0.4 then "payment"
    else if roll < 0.7 then "bills"
    else if roll < 0.9 then "utilities"
    else "payment"
  }

  /** Every random input of one month. */
  datatype MonthDraws = MonthDraws(
    targetExtra: int, amounts: AmountDraws, days: seq<int>,
    typeRolls: seq<real>, descRolls: seq<real>)

  predicate ValidMonthDraws(d: MonthDraws) {
    && 0 <= d.targetExtra < 500
    && ValidAmountDraws(d.amounts)
    && |d.days| == Payments && |d.typeRolls| == Payments && |d.descRolls| == Payments
    && forall k :: 0 <= k < Payments ==>
         1 <= d.days[k] <= 28 && 0.0 <= d.typeRolls[k] < 1.0 && 0.0 <= d.descRolls[k] < 1.0
  }

  /** The rent transaction: 450 on the 15th. */
  function RentTransaction(userId: string, month: nat): Transaction
    requires month < MonthsInYear
  {
    var date := DayStamp(month, 15);
    Transaction(userId + "-" + IntToString(date) + "-rent", userId, RentAmount as real,
                "Rent Payment", "rent", Cashback(RentAmount as real), date, "Rent Payment")
  }

  predicate IsRent(t: Transaction) {
    t.kind == "rent"
  }

  /** What a simulated payment looks like: a non-rent type, a whole amount
      in [10, 300], 5% credits, dated within the month. */
  predicate IsSimPayment(t: Transaction, userId: string, month: nat)
    requires month < MonthsInYear
  {
    && t.userId == userId && !IsRent(t)
    && MinAmount as real <= t.amount <= MaxAmount as real && t.amount == t.amount.Floor as real
    && t.credits == Cashback(t.amount)
    && InMonth(t.date, month)
  }

  /** The `k`-th payment, amount `amount`. */
  function PaymentTransaction(userId: string, month: nat, k: nat, amount: int, d: MonthDraws): (t: Transaction)
    requires month < MonthsInYear && ValidMonthDraws(d) && k < Payments
    requires MinAmount <= amount <= MaxAmount
    ensures IsSimPayment(t, userId, month) && t.amount == amount as real
    ensures t.date == DayStamp(month, d.days[k])
  {
    var date := DayStamp(month, d.days[k]);
    var kind := PaymentKind(d.typeRolls[k]);
    var description := Pick(SimDescriptions(kind), d.descRolls[k]);
    Transaction(userId + "-" + IntToString(date) + "-" + NatToString(k), userId, amount as real,
                description, kind, Cashback(amount as real), date, description)
  }

  /** The nine payments of the month, with the adjusted amounts in order. */
  function MonthPayments(userId: string, monthIndex: nat, d: MonthDraws): (r: seq<Transaction>)
    requires monthIndex < MonthsInYear && ValidMonthDraws(d)
    ensures |r| == Payments
    ensures forall k :: 0 <= k < |r| ==> IsSimPayment(r[k], userId, monthIndex)
  {
    var amounts := PaymentAmounts(monthIndex, MonthlyTarget(monthIndex, d.targetExtra), d.amounts);
    seq(Payments, k requires 0 <= k < Payments => PaymentTransaction(userId, monthIndex, k, amounts[k], d))
  }

  /** The ten transactions of month `monthIndex` (0 to 11), rent first. */
  function MonthTransactions(userId: string, monthIndex: nat, d: MonthDraws): (r: seq<Transaction>)
    requires monthIndex < MonthsInYear && ValidMonthDraws(d)
    ensures |r| == TransactionsPerMonth
    ensures r[0].kind == "rent" && r[0].amount == 450.0 && r[0].credits == 22.5
    ensures r[0].date == DayStamp(monthIndex, 15)
    ensures forall k :: 1 <= k < |r| ==> IsSimPayment(r[k], userId, monthIndex)
    ensures Count(r, IsRent) == 1
    ensures CreditsAreCashback(r)
  {
    var payments := MonthPayments(userId, monthIndex, d);
    var r := [RentTransaction(userId, monthIndex)] + payments;
    assert r[1..] == payments;
    CountNone(payments, IsRent);
    r
  }
}
