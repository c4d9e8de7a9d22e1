/** The client's view of a wallet: the `Payment` records the simulation page
    shows. `transactionToPayment` turns each transaction of the wallet reply
    into one; `generateMonthlyPayments` makes up a month of them offline. */
module Client {
  import opened Common
  import opened Seqs
  import Ledger
  import Simulation

  datatype PaymentType = Rent | Bills | Utilities

  /** The type as the server spells it. */
  function TypeName(t: PaymentType): string {
    match t
    case Rent => "rent"
    case Bills => "bills"
    case Utilities => "utilities"
  }

  datatype Payment = Payment(
    id: string, kind: PaymentType, amount: real, credits: real,
    date: string, description: string)

  predicate IsRentPayment(p: Payment) {
    p.kind == Rent
  }

  // ---------------------------------------------------------------------
  // transactionToPayment

  /** A transaction as the client receives it: every field but the amount
      may be absent from the JSON. */
  datatype WireTransaction = WireTransaction(
    id: Option<string>, kind: Option<string>, amount: real, credits: Option<real>,
    date: Option<string>, description: Option<string>, merchant: Option<string>)

  /** The type shown: rent and utilities are kept, and every other type,
      an absent one included, is shown as a bill. */
  function PaymentTypeOf(kind: Option<string>): (t: PaymentType)
    ensures t == Rent <==> kind == Some("rent")
    ensures t == Utilities <==> kind == Some("utilities")
  {
    if kind == Some("rent") then Rent
    else if kind == Some("utilities") then Utilities
    else Bills
  }

  /** Spelling a type out and mapping it back gives the type. */
  lemma PaymentTypeOfName(t: PaymentType)
    ensures PaymentTypeOf(Some(TypeName(t))) == t
  {
  }

  /** A type string survives the mapping exactly when it is one of the
      three payment types; `payment` and unknown types do not. */
  lemma TypeNameOfPaymentType(kind: string)
    ensures TypeName(PaymentTypeOf(Some(kind))) == kind <==> kind in ["rent", "utilities", "bills"]
  {
  }

  /** `transactionToPayment`, with `now` standing for the
      `new Date().toISOString()` used when the date is missing. */
  function TransactionToPayment(t: WireTransaction, now: string): (p: Payment)
    ensures p.kind == PaymentTypeOf(t.kind) && p.amount == t.amount
    ensures t.id.Some? ==> p.id == t.id.value
    ensures t.id.None? ==> p.id == ""
    ensures t.credits.Some? ==> p.credits == t.credits.value
    ensures t.credits.None? ==> p.credits == 0.0
    ensures Truthy(t.date) ==> p.date == t.date.value
    ensures !Truthy(t.date) ==> p.date == now
    ensures p.description != ""
    ensures Truthy(t.description) ==> p.description == t.description.value
    ensures !Truthy(t.description) && Truthy(t.merchant) ==> p.description == t.merchant.value
    ensures !Truthy(t.description) && !Truthy(t.merchant) ==> p.description == "Transaction"
  {
    Payment(
      t.id.GetOr(""),
      PaymentTypeOf(t.kind),
      t.amount,
      t.credits.GetOr(0.0),
      if Truthy(t.date) then t.date.value else now,
      if Truthy(t.description) then t.description.value
      else if Truthy(t.merchant) then t.merchant.value
      else "Transaction")
  }

  /** A stored transaction as the wallet reply carries it, with its date
      rendered as `dateText`. */
  function Wire(t: Ledger.Transaction, dateText: string): WireTransaction {
    WireTransaction(Some(t.id), Some(t.kind), t.amount, Some(t.credits), Some(dateText),
                    Some(t.description), Some(t.merchant))
  }

  /** A transaction the server stored keeps its id, amount, credits and date
      on the client; its type is kept unless it is `payment` (shown as a
      bill) or unknown. */
  lemma ServerTransactionShown(t: Ledger.Transaction, dateText: string, now: string)
    requires dateText != ""
    ensures var p := TransactionToPayment(Wire(t, dateText), now);
            && p.id == t.id && p.amount == t.amount && p.credits == t.credits && p.date == dateText
            && (t.kind in ["rent", "utilities", "bills"] ==> TypeName(p.kind) == t.kind)
            && (t.kind !in ["rent", "utilities", "bills"] ==> p.kind == Bills)
            && (t.description != "" ==> p.description == t.description)
  {
    TypeNameOfPaymentType(t.kind);
  }

  /** The wallet list as the client shows it, `dateText` rendering each date. */
  function Shown(ts: seq<Ledger.Transaction>, dateText: int -> string, now: string): (r: seq<Payment>)
    ensures |r| == |ts|
  {
    if ts == [] then []
    else [TransactionToPayment(Wire(ts[0], dateText(ts[0].date)), now)] + Shown(ts[1..], dateText, now)
  }

  /** The client shows as many rent payments as the wallet holds rent
      transactions. */
  lemma {:induction false} ShownRents(ts: seq<Ledger.Transaction>, dateText: int -> string, now: string)
    ensures Count(Shown(ts, dateText, now), IsRentPayment) == Count(ts, Simulation.IsRent)
  {
    if ts != [] {
      ShownRents(ts[1..], dateText, now);
      var r := Shown(ts, dateText, now);
      assert r[1..] == Shown(ts[1..], dateText, now);
    }
  }

  /** A simulated month appears on the client with exactly one rent. */
  lemma MonthShowsOneRent(userId: string, monthIndex: nat, d: Simulation.MonthDraws,
                          dateText: int -> string, now: string)
    requires monthIndex < Simulation.MonthsInYear && Simulation.ValidMonthDraws(d)
    ensures Count(Shown(Simulation.MonthTransactions(userId, monthIndex, d), dateText, now), IsRentPayment) == 1
  {
    ShownRents(Simulation.MonthTransactions(userId, monthIndex, d), dateText, now);
  }

  // ---------------------------------------------------------------------
  // generateMonthlyPayments

  const RentAmount: real := 450.0
  const RentCredits: real := 22.5
  const RentDay: nat := 15
  const GeneratedTypes: seq<PaymentType> := [Utilities, Bills]

  const UtilityDescriptions: seq<string> := ["Electricity Bill", "Gas & Water Bill", "Heating", "Energy Bill"]
  const BillDescriptions: seq<string> :=
    ["Internet & Subscriptions", "Mobile Phone", "Gym Membership", "Streaming Services", "Shopping"]

  /** The description drawn from the list of the payment's type. */
  function GeneratedDescription(t: PaymentType, roll: real): (r: string)
    requires 0.0 <= roll < 1.0
    ensures r in (if t == Utilities then UtilityDescriptions else BillDescriptions)
  {
    if t == Utilities then UtilityDescriptions[FloorIndex(roll, 4)] else BillDescriptions[FloorIndex(roll, 5)]
  }

  /** The four `Math.random()` draws behind one generated payment: its
      type, amount, day and description. */
  datatype ItemDraw = ItemDraw(typeRoll: real, amountRoll: real, dayRoll: real, descRoll: real)

  predicate ValidItemDraw(d: ItemDraw) {
    && 0.0 <= d.typeRoll < 1.0 && 0.0 <= d.amountRoll < 1.0
    && 0.0 <= d.dayRoll < 1.0 && 0.0 <= d.descRoll < 1.0
  }

  /** The draws of one generated month: the roll that fixes how many
      payments follow the rent, and one draw record per payment. */
  datatype MonthDraws = MonthDraws(countRoll: real, items: seq<ItemDraw>)

  /** `Math.floor(Math.random() * 4) + 2`. */
  function ExtraCount(countRoll: real): (n: nat)
    requires 0.0 <= countRoll < 1.0
    ensures 2 <= n <= 5
  {
    FloorIndex(countRoll, 4) + 2
  }

  predicate ValidMonthDraws(d: MonthDraws) {
    && 0.0 <= d.countRoll < 1.0 && |d.items| == ExtraCount(d.countRoll)
    && forall k :: 0 <= k < |d.items| ==> ValidItemDraw(d.items[k])
  }

  /** `n.toString().padStart(2, '0')`. */
  function Pad2(n: nat): (s: string)
    ensures |s| >= 2 && IsDigits(s)
    ensures n < 100 ==> |s| == 2
  {
    var digits := NatToString(n);
    if n < 10 then "0" + digits
    else
      assert n < 100 ==> digits == NatToString(n / 10) + [DigitChar(n % 10)];
      digits
  }

  /** The day of the month a `YYYY-MM-DD` date names: the value of its last
      two characters. */
  function DateDay(date: string): nat {
    if |date| >= 2 && IsDigits(date[|date| - 2..]) then DigitsValue(date[|date| - 2..]) else 0
  }

  /** The date `${monthStr}-${pad(day)}` of a generated payment. */
  function DateOn(monthStr: string, day: nat): string {
    monthStr + "-" + Pad2(day)
  }

  /** Reading the day back out of a generated date gives the day. */
  lemma DateDayOfDateOn(monthStr: string, day: nat)
    requires day < 100
    ensures DateDay(DateOn(monthStr, day)) == day
  {
    var date := DateOn(monthStr, day);
    assert date[|date| - 2..] == Pad2(day);
    DigitsValueOfNatToString(day);
    if day < 10 {
      var p := Pad2(day);
      assert p[..|p| - 1] == "0";
      assert DigitsValue(p) == DigitsValue("0") * 10 + (p[1] as int - '0' as int);
      assert p[1..] == NatToString(day);
    }
  }

  /** The ordering key of `new Date(p.date).getTime()`: all generated dates
      lie in one month, where the timestamp grows with the day. */
  function DayKey(p: Payment): int {
    DateDay(p.date)
  }

  /** The part `${type}-${i}` that follows the prefix in a generated id. */
  function ItemSuffix(t: PaymentType, i: nat): string {
    TypeName(t) + "-" + NatToString(i)
  }

  /** The prefix `${monthOffset}-` every generated id starts with. */
  function IdPrefix(monthOffset: int): string {
    IntToString(monthOffset) + "-"
  }

  function RentPayment(monthOffset: int, monthStr: string, monthName: string): (p: Payment)
    ensures IsRentPayment(p) && p.amount == RentAmount && p.credits == RentCredits
    ensures DayKey(p) == RentDay
  {
    DateDayOfDateOn(monthStr, RentDay);
    Payment(IdPrefix(monthOffset) + "rent", Rent, RentAmount, RentCredits, DateOn(monthStr, RentDay),
            monthName + " Rent")
  }

  /** The `i`-th payment after the rent: a utility or a bill of a whole
      amount from 50 to 149 with 5% credits, on a day from 1 to 28. */
  function GeneratedPayment(monthOffset: int, monthStr: string, i: nat, d: ItemDraw): (p: Payment)
    requires ValidItemDraw(d)
    ensures p.kind == Utilities || p.kind == Bills
    ensures 50.0 <= p.amount <= 149.0 && p.amount == p.amount.Floor as real
    ensures p.credits == Ledger.Cashback(p.amount)
    ensures 1 <= DayKey(p) <= 28
    ensures p.id == IdPrefix(monthOffset) + ItemSuffix(p.kind, i)
  {
    var kind := GeneratedTypes[FloorIndex(d.typeRoll, 2)];
    var amount := FloorIndex(d.amountRoll, 100) + 50;
    var day := FloorIndex(d.dayRoll, 28) + 1;
    DateDayOfDateOn(monthStr, day);
    Payment(IdPrefix(monthOffset) + ItemSuffix(kind, i), kind, amount as real,
            Ledger.Cashback(amount as real), DateOn(monthStr, day),
            GeneratedDescription(kind, d.descRoll))
  }

  /** Every payment of a generated month is either the rent, or a utility
      or bill of a whole amount from 50 to 149 earning 5%. */
  predicate WellFormedMonthPayment(p: Payment) {
    if p.kind == Rent then p.amount == RentAmount && p.credits == RentCredits
    else 50.0 <= p.amount <= 149.0 && p.amount == p.amount.Floor as real && p.credits == Ledger.Cashback(p.amount)
  }

  /** The id scheme of a generated month: `${monthOffset}-rent` first, then
      `${monthOffset}-${type}-${i}` for the `i`-th payment after it. */
  predicate IdsNumbered(u: seq<Payment>, monthOffset: int) {
    && |u| > 0 && u[0].id == IdPrefix(monthOffset) + "rent"
    && forall k :: 1 <= k < |u| ==> u[k].id == IdPrefix(monthOffset) + ItemSuffix(u[k].kind, k - 1)
  }

  /** Strings with a common prefix differ when what follows it differs. */
  lemma PrefixKeepsDifference(a: string, b: string, c: string)
    requires b != c
    ensures a + b != a + c
  {
    assert (a + b)[|a|..] == b;
    assert (a + c)[|a|..] == c;
  }

  /** Suffixes of different types or numbers differ, and none is `rent`. */
  lemma ItemSuffixesDistinct(t: PaymentType, i: nat, t': PaymentType, j: nat)
    ensures ItemSuffix(t, i) != "rent"
    ensures (t, i) != (t', j) ==> ItemSuffix(t, i) != ItemSuffix(t', j)
  {
    assert |ItemSuffix(t, i)| > 4;
    if t != t' {
      assert ItemSuffix(t, i)[0] == TypeName(t)[0];
      assert ItemSuffix(t', j)[0] == TypeName(t')[0];
    } else if i != j {
      NatToStringInjective(i, j);
      PrefixKeepsDifference(TypeName(t) + "-", NatToString(i), NatToString(j));
    }
  }

  /** Ids numbered by the scheme are pairwise different. */
  lemma NumberedIdsDistinct(u: seq<Payment>, monthOffset: int)
    requires IdsNumbered(u, monthOffset)
    ensures forall i, j :: 0 <= i < j < |u| ==> u[i].id != u[j].id
  {
    var prefix := IdPrefix(monthOffset);
    forall i, j | 0 <= i < j < |u|
      ensures u[i].id != u[j].id
    {
      ItemSuffixesDistinct(u[j].kind, j - 1, u[Max(i, 1)].kind, Max(i, 1) - 1);
      if i == 0 {
        PrefixKeepsDifference(prefix, "rent", ItemSuffix(u[j].kind, j - 1));
      } else {
        PrefixKeepsDifference(prefix, ItemSuffix(u[i].kind, i - 1), ItemSuffix(u[j].kind, j - 1));
      }
    }
  }

  /** A value that occurs once in a list is at no second position. */
  lemma OnceAtOnePosition(r: seq<Payment>, i: nat, j: nat)
    requires i < j < |r| && multiset(r)[r[i]] == 1
    ensures r[i] != r[j]
  {
    assert r == r[..j] + r[j..];
    assert r[..j][i] == r[i];
    assert r[j..][0] == r[j];
    assert multiset(r) == multiset(r[..j]) + multiset(r[j..]);
  }

  /** Reordering a list with pairwise different ids keeps them different. */
  lemma PermutedIdsDistinct(u: seq<Payment>, r: seq<Payment>)
    requires multiset(r) == multiset(u)
    requires forall i, j :: 0 <= i < j < |u| ==> u[i].id != u[j].id
    ensures forall i, j :: 0 <= i < j < |r| ==> r[i].id != r[j].id
  {
    forall i, j | 0 <= i < j < |r|
      ensures r[i].id != r[j].id
    {
      assert r[i] in multiset(u) && r[j] in multiset(u);
      var a :| 0 <= a < |u| && u[a] == r[i];
      var b :| 0 <= b < |u| && u[b] == r[j];
      OccursOnce(u, a);
      OnceAtOnePosition(r, i, j);
      assert a != b;
      assert u[Min(a, b)].id != u[Max(a, b)].id;
    }
  }

  /** The payments in the order they are pushed: the rent, then one per
      draw record. */
  function Unsorted(monthOffset: int, monthStr: string, monthName: string, d: MonthDraws): (u: seq<Payment>)
    requires ValidMonthDraws(d)
  {
    [RentPayment(monthOffset, monthStr, monthName)] + GeneratedPayments(monthOffset, monthStr, d)
  }

  /** The generated payments in draw order. */
  function GeneratedPayments(monthOffset: int, monthStr: string, d: MonthDraws): (g: seq<Payment>)
    requires ValidMonthDraws(d)
    ensures |g| == |d.items|
    ensures forall j :: 0 <= j < |d.items| ==> g[j] == GeneratedPayment(monthOffset, monthStr, j, d.items[j])
  {
    seq(|d.items|, j requires 0 <= j < |d.items| => GeneratedPayment(monthOffset, monthStr, j, d.items[j]))
  }

  lemma ConsIndex<T>(h: T, t: seq<T>)
    ensures |[h] + t| == |t| + 1 && ([h] + t)[0] == h
    ensures forall j :: 0 <= j < |t| ==> ([h] + t)[j + 1] == t[j]
  {
  }

  lemma UnsortedShape(monthOffset: int, monthStr: string, monthName: string, d: MonthDraws)
    requires ValidMonthDraws(d)
    ensures var u := Unsorted(monthOffset, monthStr, monthName, d);
            && |u| == |d.items| + 1 && u[0] == RentPayment(monthOffset, monthStr, monthName)
            && forall j :: 0 <= j < |d.items| ==> u[j + 1] == GeneratedPayment(monthOffset, monthStr, j, d.items[j])
  {
    ConsIndex(RentPayment(monthOffset, monthStr, monthName), GeneratedPayments(monthOffset, monthStr, d));
  }

  /** No payment after the head is rent. */
  lemma UnsortedNoOtherRent(monthOffset: int, monthStr: string, monthName: string, d: MonthDraws)
    requires ValidMonthDraws(d)
    ensures var u := Unsorted(monthOffset, monthStr, monthName, d);
            forall j :: 1 <= j < |u| ==> !IsRentPayment(u[j])
  {
    UnsortedShape(monthOffset, monthStr, monthName, d);
    var u := Unsorted(monthOffset, monthStr, monthName, d);
    forall j | 1 <= j < |u|
      ensures !IsRentPayment(u[j])
    {
      assert u[(j - 1) + 1] == GeneratedPayment(monthOffset, monthStr, j - 1, d.items[j - 1]);
    }
  }

  /** Every payment after the head is well formed and falls on a day from
      1 to 28. */
  lemma UnsortedOthersWellFormed(monthOffset: int, monthStr: string, monthName: string, d: MonthDraws)
    requires ValidMonthDraws(d)
    ensures var u := Unsorted(monthOffset, monthStr, monthName, d);
            forall j :: 1 <= j < |u| ==> WellFormedMonthPayment(u[j]) && 1 <= DayKey(u[j]) <= 28
  {
    UnsortedShape(monthOffset, monthStr, monthName, d);
    var u := Unsorted(monthOffset, monthStr, monthName, d);
    forall j | 1 <= j < |u|
      ensures WellFormedMonthPayment(u[j]) && 1 <= DayKey(u[j]) <= 28
    {
      assert u[(j - 1) + 1] == GeneratedPayment(monthOffset, monthStr, j - 1, d.items[j - 1]);
    }
  }

  lemma UnsortedIdsNumbered(monthOffset: int, monthStr: string, monthName: string, d: MonthDraws)
    requires ValidMonthDraws(d)
    ensures IdsNumbered(Unsorted(monthOffset, monthStr, monthName, d), monthOffset)
  {
    UnsortedShape(monthOffset, monthStr, monthName, d);
    var u := Unsorted(monthOffset, monthStr, monthName, d);
    forall j | 1 <= j < |u|
      ensures u[j].id == IdPrefix(monthOffset) + ItemSuffix(u[j].kind, j - 1)
    {
      assert u[(j - 1) + 1] == GeneratedPayment(monthOffset, monthStr, j - 1, d.items[j - 1]);
    }
  }

  /** A reordering of a list whose only rent is its head holds one rent. */
  lemma OneRentKept(u: seq<Payment>, r: seq<Payment>)
    requires |u| > 0 && IsRentPayment(u[0]) && forall j :: 1 <= j < |u| ==> !IsRentPayment(u[j])
    requires multiset(r) == multiset(u)
    ensures Count(r, IsRentPayment) == 1
  {
    assert forall j :: 0 <= j < |u[1..]| ==> u[1..][j] == u[j + 1];
    CountNone(u[1..], IsRentPayment);
    assert u == [u[0]] + u[1..];
    CountPermutation(r, u, IsRentPayment);
  }

  /** The pushed payments, newest first. */
  function SortedMonth(monthOffset: int, monthStr: string, monthName: string, d: MonthDraws): (r: seq<Payment>)
    requires ValidMonthDraws(d)
    ensures SortedDesc(r, DayKey) && multiset(r) == multiset(Unsorted(monthOffset, monthStr, monthName, d))
  {
    SortDesc(Unsorted(monthOffset, monthStr, monthName, d), DayKey)
  }

  lemma SortedMonthContents(monthOffset: int, monthStr: string, monthName: string, d: MonthDraws)
    requires ValidMonthDraws(d)
    ensures var r := SortedMonth(monthOffset, monthStr, monthName, d);
            && |r| == |d.items| + 1
            && RentPayment(monthOffset, monthStr, monthName) in r
            && (forall k :: 0 <= k < |d.items| ==> GeneratedPayment(monthOffset, monthStr, k, d.items[k]) in r)
            && (forall p :: p in r ==> p in Unsorted(monthOffset, monthStr, monthName, d))
  {
    var u := Unsorted(monthOffset, monthStr, monthName, d);
    var r := SortedMonth(monthOffset, monthStr, monthName, d);
    UnsortedShape(monthOffset, monthStr, monthName, d);
    SameElements(u, r);
    assert |r| == |multiset(r)| == |multiset(u)| == |u|;
    forall k | 0 <= k < |d.items|
      ensures GeneratedPayment(monthOffset, monthStr, k, d.items[k]) in r
    {
      assert u[k + 1] in r;
    }
    assert u[0] in r;
  }

  lemma SortedMonthOneRent(monthOffset: int, monthStr: string, monthName: string, d: MonthDraws)
    requires ValidMonthDraws(d)
    ensures Count(SortedMonth(monthOffset, monthStr, monthName, d), IsRentPayment) == 1
  {
    UnsortedShape(monthOffset, monthStr, monthName, d);
    UnsortedNoOtherRent(monthOffset, monthStr, monthName, d);
    OneRentKept(Unsorted(monthOffset, monthStr, monthName, d), SortedMonth(monthOffset, monthStr, monthName, d));
  }

  lemma SortedMonthWellFormed(monthOffset: int, monthStr: string, monthName: string, d: MonthDraws)
    requires ValidMonthDraws(d)
    ensures forall p :: p in SortedMonth(monthOffset, monthStr, monthName, d) ==>
              WellFormedMonthPayment(p) && 1 <= DayKey(p) <= 28
  {
    var u := Unsorted(monthOffset, monthStr, monthName, d);
    UnsortedShape(monthOffset, monthStr, monthName, d);
    UnsortedOthersWellFormed(monthOffset, monthStr, monthName, d);
    SameElements(u, SortedMonth(monthOffset, monthStr, monthName, d));
    assert WellFormedMonthPayment(u[0]) && 1 <= DayKey(u[0]) <= 28;
  }

  lemma SortedMonthIdsDistinct(monthOffset: int, monthStr: string, monthName: string, d: MonthDraws)
    requires ValidMonthDraws(d)
    ensures var r := SortedMonth(monthOffset, monthStr, monthName, d);
            forall i, j :: 0 <= i < j < |r| ==> r[i].id != r[j].id
  {
    var u := Unsorted(monthOffset, monthStr, monthName, d);
    UnsortedIdsNumbered(monthOffset, monthStr, monthName, d);
    NumberedIdsDistinct(u, monthOffset);
    PermutedIdsDistinct(u, SortedMonth(monthOffset, monthStr, monthName, d));
  }

  /** `generateMonthlyPayments(monthOffset)`, with `monthStr` (`YYYY-MM`)
      and `monthName` standing for what the clock gives for the month
      `monthOffset` months back. The result holds the rent and one
      payment per draw record and nothing else, so three to six payments
      of which exactly one is rent; each is well formed, no two share an
      id, and the list is newest first, so sorting it again changes
      nothing. */
  function GenerateMonthlyPayments(monthOffset: int, monthStr: string, monthName: string, d: MonthDraws)
    : (r: seq<Payment>)
    requires ValidMonthDraws(d)
    ensures 3 <= |r| <= 6 && |r| == |d.items| + 1
    ensures RentPayment(monthOffset, monthStr, monthName) in r
    ensures forall k :: 0 <= k < |d.items| ==> GeneratedPayment(monthOffset, monthStr, k, d.items[k]) in r
    ensures forall p :: p in r ==> p in Unsorted(monthOffset, monthStr, monthName, d)
    ensures Count(r, IsRentPayment) == 1
    ensures forall p :: p in r ==> WellFormedMonthPayment(p) && 1 <= DayKey(p) <= 28
    ensures forall i, j :: 0 <= i < j < |r| ==> r[i].id != r[j].id
    ensures SortedDesc(r, DayKey) && SortDesc(r, DayKey) == r
  {
    SortedMonthContents(monthOffset, monthStr, monthName, d);
    SortedMonthOneRent(monthOffset, monthStr, monthName, d);
    SortedMonthWellFormed(monthOffset, monthStr, monthName, d);
    SortedMonthIdsDistinct(monthOffset, monthStr, monthName, d);
    SortDescOfSorted(SortedMonth(monthOffset, monthStr, monthName, d), DayKey);
    SortedMonth(monthOffset, monthStr, monthName, d)
  }

  /** Lists with the same multiset hold the same elements. */
  lemma SameElements(u: seq<Payment>, r: seq<Payment>)
    requires multiset(u) == multiset(r)
    ensures forall j :: 0 <= j < |u| ==> u[j] in r
    ensures forall p :: p in r ==> p in u
  {
    forall j | 0 <= j < |u| ensures u[j] in r {
      assert u[j] in multiset(r);
    }
    forall p | p in r ensures p in u {
      assert p in multiset(u);
    }
  }

  /** An element of a list without repeated ids occurs in it once. */
  lemma {:induction false} OccursOnce(u: seq<Payment>, a: nat)
    requires a < |u|
    requires forall i, j :: 0 <= i < j < |u| ==> u[i].id != u[j].id
    ensures multiset(u)[u[a]] == 1
  {
    var t := u[1..];
    assert u == [u[0]] + t;
    assert multiset(u) == multiset{u[0]} + multiset(t);
    if a == 0 {
      assert u[0] !in multiset(t) by {
        forall k | 0 <= k < |t|
          ensures t[k] != u[0]
        {
          assert t[k] == u[k + 1];
        }
      }
    } else {
      assert t[a - 1] == u[a];
      assert u[0].id != u[a].id;
      assert forall i, j :: 0 <= i < j < |t| ==> t[i].id != t[j].id by {
        forall i, j | 0 <= i < j < |t|
          ensures t[i].id != t[j].id
        {
          assert t[i] == u[i + 1] && t[j] == u[j + 1];
        }
      }
      OccursOnce(t, a - 1);
    }
  }
}
