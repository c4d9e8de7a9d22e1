/** The rewards ledger: per-user balances and per-user transaction lists,
    with the handlers that record a payment (`POST /transactions`), list the
    wallet (`GET /wallet`, seeding a synthetic history on first use), read the
    balance and redeem a general perk against it. */
module Ledger {
  import opened Common
  import opened Seqs

  /** A stored transaction. `date` is the instant in milliseconds since the
      epoch that the ISO-8601 string denotes. */
  datatype Transaction = Transaction(
    id: string, userId: string, amount: real, description: string,
    kind: string, credits: real, date: int, merchant: string)

  /** The 5% cashback a payment earns. */
  const CashbackRate: real := 0.05

  function Cashback(amount: real): real {
    amount * CashbackRate
  }

  function DateOf(t: Transaction): int {
    t.date
  }

  function CreditsOf(t: Transaction): real {
    t.credits
  }

  /** Sum of the credits of a list of transactions. */
  function TotalCredits(s: seq<Transaction>): real {
    SumReal(s, CreditsOf)
  }

  /** The list ordered newest first, as every `sort` on a transaction list does. */
  function Newest(s: seq<Transaction>): (r: seq<Transaction>)
    ensures SortedDesc(r, DateOf) && multiset(r) == multiset(s) && |r| == |s|
  {
    SortDesc(s, DateOf)
  }

  /** Every transaction's credits are the cashback on its amount. */
  predicate CreditsAreCashback(s: seq<Transaction>) {
    forall k :: 0 <= k < |s| ==> s[k].credits == Cashback(s[k].amount)
  }

  type Balances = map<string, real>
  type Ledgers = map<string, seq<Transaction>>

  /** The balance a user starts with on first access: 56.75 for `user`, 0 otherwise. */
  function InitialBalance(userId: string): real {
    if userId == "user" then 56.75 else 0.0
  }

  /** The balance the server reports for a user, stored or lazily initialised. */
  function BalanceOf(balances: Balances, userId: string): real {
    if userId in balances then balances[userId] else InitialBalance(userId)
  }

  /** `if (balances[userId] === undefined) balances[userId] = ...`: afterwards
      the user has a stored balance equal to the one reported before, and no
      other entry changed. */
  function EnsureBalance(balances: Balances, userId: string): (r: Balances)
    ensures r.Keys == balances.Keys + {userId}
    ensures r[userId] == BalanceOf(balances, userId)
    ensures forall u :: u in balances ==> r[u] == balances[u]
  {
    if userId in balances then balances else balances[userId := InitialBalance(userId)]
  }

  /** The stored list of a user, or the empty list `transactions[userId] = []` starts from. */
  function TxnsOf(ledgers: Ledgers, userId: string): seq<Transaction> {
    if userId in ledgers then ledgers[userId] else []
  }

  // ---------------------------------------------------------------------
  // POST /api/user/transactions

  /** The request body: any field may be missing. `id` and `userId` matter
      because the body is spread over the defaults and so overrides them. */
  datatype TxnInput = TxnInput(
    amount: Option<real>, description: Option<string>, kind: Option<string>,
    date: Option<int>, merchant: Option<string>, id: Option<string>, userId: Option<string>)

  /** JavaScript truthiness of the amount: missing and 0 are falsy. */
  predicate AmountTruthy(a: Option<real>) {
    a.Some? && a.value != 0.0
  }

  datatype RecordReply =
    | TxnMissingFields             // 400 'Transaction must include amount and description'
    | TxnCreated(txn: Transaction) // 201

  /** Records a payment for the session's `userId`. The defaults (id
      `<userId>-<now>-<idSuffix>`, type `payment`, date now, merchant the
      description) apply only to fields the body leaves out; the credits are
      always recomputed as the cashback on the amount. */
  function RecordTransaction(ledgers: Ledgers, balances: Balances, userId: string,
                             input: TxnInput, idSuffix: string, now: nat)
    : (r: (Ledgers, Balances, RecordReply))
    ensures r.2.TxnMissingFields? <==> !AmountTruthy(input.amount) || !Truthy(input.description)
    ensures r.2.TxnMissingFields? ==> r.0 == ledgers && r.1 == balances
    ensures r.2.TxnCreated? ==>
              var t := r.2.txn;
              && t.amount == input.amount.value
              && t.description == input.description.value
              && t.credits == Cashback(input.amount.value)
              && (input.id.None? ==> t.id == userId + "-" + NatToString(now) + "-" + idSuffix)
              && (input.id.Some? ==> t.id == input.id.value)
              && (input.userId.None? ==> t.userId == userId)
              && (input.userId.Some? ==> t.userId == input.userId.value)
              && (input.kind.None? ==> t.kind == "payment")
              && (input.kind.Some? ==> t.kind == input.kind.value)
              && (input.date.None? ==> t.date == now)
              && (input.date.Some? ==> t.date == input.date.value)
              && (input.merchant.None? ==> t.merchant == t.description)
              && (input.merchant.Some? ==> t.merchant == input.merchant.value)
              && r.0 == ledgers[userId := TxnsOf(ledgers, userId) + [t]]
              && r.1 == balances[userId := BalanceOf(balances, userId) + t.credits]
  {
    if !AmountTruthy(input.amount) || !Truthy(input.description) then
      (ledgers, balances, TxnMissingFields)
    else
      var amount := input.amount.value;
      var description := input.description.value;
      var t := Transaction(
        input.id.GetOr(userId + "-" + NatToString(now) + "-" + idSuffix),
        input.userId.GetOr(userId),
        amount, description,
        input.kind.GetOr("payment"),
        Cashback(amount),
        input.date.GetOr(now),
        input.merchant.GetOr(description));
      var stored := EnsureBalance(balances, userId);
      (ledgers[userId := TxnsOf(ledgers, userId) + [t]],
       stored[userId := stored[userId] + t.credits],
       TxnCreated(t))
  }

  /** Recording a payment raises the balance by exactly the credits the list
      gains, so the gap between a user's balance and the credits in their
      list is preserved. */
  lemma RecordKeepsCreditGap(ledgers: Ledgers, balances: Balances, userId: string,
                             input: TxnInput, idSuffix: string, now: nat)
    requires AmountTruthy(input.amount) && Truthy(input.description)
    ensures var (l, b, _) := RecordTransaction(ledgers, balances, userId, input, idSuffix, now);
            BalanceOf(b, userId) - TotalCredits(TxnsOf(l, userId))
              == BalanceOf(balances, userId) - TotalCredits(TxnsOf(ledgers, userId))
  {
    var (l, b, reply) := RecordTransaction(ledgers, balances, userId, input, idSuffix, now);
    var t := reply.txn;
    SumRealAppend(TxnsOf(ledgers, userId), [t], CreditsOf);
    assert SumReal([t], CreditsOf) == t.credits by {
      assert [t][1..] == [];
    }
  }

  // ---------------------------------------------------------------------
  // GET /api/user/wallet

  const DayMs: int := 86400000

  const SeedKinds: seq<string> := ["rent", "utilities", "bills", "payment"]

  /** Descriptions `generateRandomTransactions` picks from, per type. */
  function SeedDescriptions(kind: string): (r: seq<string>)
    ensures |r| > 0
  {
    if kind == "rent" then ["Rent Payment", "Monthly Rent", "Housing Payment"]
    else if kind == "utilities" then ["Electricity Bill", "Gas & Water Bill", "Energy Bill", "Heating"]
    else if kind == "bills" then
      ["Internet & Subscriptions", "Mobile Phone", "Gym Membership", "Streaming Services", "Shopping"]
    else ["Groceries", "Food Delivery", "Transport", "Entertainment"]
  }

  /** The random draws behind one synthetic transaction: days back from now,
      the type and description rolls, the amount offset and the id suffix. */
  datatype SeedDraw = SeedDraw(
    daysAgo: int, typeRoll: real, descRoll: real, amountOffset: int, suffix: string)

  predicate ValidSeedDraw(d: SeedDraw) {
    && 0 <= d.daysAgo < 30
    && 0.0 <= d.typeRoll < 1.0 && 0.0 <= d.descRoll < 1.0
    && 0 <= d.amountOffset < 200
  }

  predicate ValidSeedDraws(draws: seq<SeedDraw>) {
    |draws| == 5 && forall k :: 0 <= k < 5 ==> ValidSeedDraw(draws[k])
  }

  function SeedTransaction(userId: string, now: int, d: SeedDraw): (t: Transaction)
    requires ValidSeedDraw(d)
    ensures IsSeedTransaction(t, userId, now)
  {
    var date := now - d.daysAgo * DayMs;
    var kind := Pick(SeedKinds, d.typeRoll);
    var description := Pick(SeedDescriptions(kind), d.descRoll);
    var amount := (d.amountOffset + 20) as real;
    Transaction(userId + "-" + IntToString(date) + "-" + d.suffix, userId, amount, description,
                kind, Cashback(amount), date, description)
  }

  /** A synthetic transaction as the seeding promises it: a whole amount in
      [20, 219], 5% credits, a seed type, dated within the last 30 days. */
  predicate IsSeedTransaction(t: Transaction, userId: string, now: int) {
    && t.userId == userId
    && 20.0 <= t.amount <= 219.0 && t.amount == t.amount.Floor as real
    && t.credits == Cashback(t.amount)
    && t.kind in SeedKinds && t.merchant == t.description
    && now - 29 * DayMs <= t.date <= now
  }

  /** `generateRandomTransactions(userId)`: five synthetic transactions, newest first. */
  function GenerateRandomTransactions(userId: string, now: int, draws: seq<SeedDraw>)
    : (r: seq<Transaction>)
    requires ValidSeedDraws(draws)
    ensures |r| == 5 && SortedDesc(r, DateOf)
    ensures forall k :: 0 <= k < |r| ==> IsSeedTransaction(r[k], userId, now)
  {
    var raw := SeedList(userId, now, draws);
    var r := Newest(raw);
    NewestKeepsSeeds(raw, r, userId, now);
    r
  }

  /** The five synthetic transactions in draw order. */
  function SeedList(userId: string, now: int, draws: seq<SeedDraw>): (raw: seq<Transaction>)
    requires ValidSeedDraws(draws)
    ensures |raw| == 5 && forall k :: 0 <= k < 5 ==> IsSeedTransaction(raw[k], userId, now)
  {
    seq(5, k requires 0 <= k < 5 => SeedTransaction(userId, now, draws[k]))
  }

  lemma NewestKeepsSeeds(raw: seq<Transaction>, r: seq<Transaction>, userId: string, now: int)
    requires multiset(r) == multiset(raw)
    requires forall k :: 0 <= k < |raw| ==> IsSeedTransaction(raw[k], userId, now)
    ensures forall k :: 0 <= k < |r| ==> IsSeedTransaction(r[k], userId, now)
  {
    forall k | 0 <= k < |r|
      ensures IsSeedTransaction(r[k], userId, now)
    {
      assert r[k] in multiset(raw);
    }
  }

  /** `GET /api/user/wallet`: seeds the list if the user has none, sorts the
      stored list in place and returns it. */
  function Wallet(ledgers: Ledgers, userId: string, now: int, draws: seq<SeedDraw>)
    : (r: (Ledgers, seq<Transaction>))
    requires ValidSeedDraws(draws)
    ensures r.0 == ledgers[userId := r.1]
    ensures SortedDesc(r.1, DateOf)
    ensures userId in ledgers ==> multiset(r.1) == multiset(ledgers[userId])
    ensures userId !in ledgers ==>
              |r.1| == 5 && forall k :: 0 <= k < 5 ==> IsSeedTransaction(r.1[k], userId, now)
  {
    var stored := if userId in ledgers then ledgers[userId]
                  else GenerateRandomTransactions(userId, now, draws);
    var sorted := Newest(stored);
    assert userId !in ledgers ==> sorted == stored by {
      if userId !in ledgers {
        SortDescOfSorted(stored, DateOf);
      }
    }
    (ledgers[userId := sorted], sorted)
  }

  /** Seeding a wallet puts at least 5 of credits into the list (five
      transactions of at least 20 each) without touching the balance, so the
      balance falls behind the credits the list shows. */
  lemma WalletSeedingSkipsBalance(ledgers: Ledgers, balances: Balances, userId: string,
                                  now: int, draws: seq<SeedDraw>)
    requires ValidSeedDraws(draws) && userId !in ledgers
    ensures var l := Wallet(ledgers, userId, now, draws).0;
            BalanceOf(balances, userId) - TotalCredits(TxnsOf(l, userId))
              <= BalanceOf(balances, userId) - TotalCredits(TxnsOf(ledgers, userId)) - 5.0
  {
    var w := Wallet(ledgers, userId, now, draws);
    assert TxnsOf(w.0, userId) == w.1;
    assert TxnsOf(ledgers, userId) == [];
    SeedsCreditAtLeastFive(w.1, userId, now);
  }

  /** Each seed transaction earns at least one credit, so five earn at least five. */
  lemma SeedsCreditAtLeastFive(listed: seq<Transaction>, userId: string, now: int)
    requires |listed| == 5 && forall k :: 0 <= k < 5 ==> IsSeedTransaction(listed[k], userId, now)
    ensures TotalCredits(listed) >= 5.0
  {
    assert forall k :: 0 <= k < |listed| ==> CreditsOf(listed[k]) >= 1.0;
    SumRealAtLeast(listed, CreditsOf, 1.0);
  }

  // ---------------------------------------------------------------------
  // GET /api/user/balance

  function GetBalance(balances: Balances, userId: string): (r: (Balances, real))
    ensures r.1 == BalanceOf(balances, userId)
    ensures r.0 == EnsureBalance(balances, userId)
    ensures BalanceOf(r.0, userId) == r.1
  {
    var stored := EnsureBalance(balances, userId);
    (stored, stored[userId])
  }

  // ---------------------------------------------------------------------
  // POST /api/user/redeem-perk

  datatype RedeemInput = RedeemInput(perkId: BodyValue, perkName: Option<string>, cost: Option<real>)

  datatype RedeemReply =
    | RedeemMissingFields                                   // 400
    | InsufficientFunds(currentBalance: real, required: real) // 400
    | Redeemed(perkName: string, cost: real, previousBalance: real, newBalance: real)

  /** Spends `cost` of the user's balance on a general perk. */
  function RedeemPerk(balances: Balances, userId: string, input: RedeemInput)
    : (r: (Balances, RedeemReply))
    ensures r.1.RedeemMissingFields? <==>
              !BodyTruthy(input.perkId) || input.cost.None? || !Truthy(input.perkName)
    ensures r.1.RedeemMissingFields? ==> r.0 == balances
    ensures r.1.InsufficientFunds? <==>
              !r.1.RedeemMissingFields? && BalanceOf(balances, userId) < input.cost.value
    ensures r.1.InsufficientFunds? ==>
              && r.0 == EnsureBalance(balances, userId)
              && BalanceOf(r.0, userId) == BalanceOf(balances, userId)
              && r.1 == InsufficientFunds(BalanceOf(balances, userId), input.cost.value)
    ensures r.1.Redeemed? ==>
              && r.1.previousBalance == BalanceOf(balances, userId)
              && r.1.cost == input.cost.value
              && r.1.newBalance == r.1.previousBalance - r.1.cost
              && r.1.newBalance >= 0.0
              && r.0 == balances[userId := r.1.newBalance]
  {
    if !BodyTruthy(input.perkId) || input.cost.None? || !Truthy(input.perkName) then
      (balances, RedeemMissingFields)
    else
      var stored := EnsureBalance(balances, userId);
      var current := stored[userId];
      var cost := input.cost.value;
      if current < cost then (stored, InsufficientFunds(current, cost))
      else
        (stored[userId := current - cost],
         Redeemed(input.perkName.value, cost, current, current - cost))
  }

  /** A redemption spends exactly its cost of the balance and never leaves
      it negative; a failed one leaves the reported balance as it was. */
  lemma RedeemKeepsBalanceNonNegative(balances: Balances, userId: string, input: RedeemInput)
    requires BalanceOf(balances, userId) >= 0.0
    ensures BalanceOf(RedeemPerk(balances, userId, input).0, userId) >= 0.0
    ensures var (b, reply) := RedeemPerk(balances, userId, input);
            reply.Redeemed? ==> BalanceOf(b, userId) == BalanceOf(balances, userId) - reply.cost
  {
  }

  /** Recording a payment of a non-negative amount never lowers a balance,
      so a non-negative balance stays non-negative under payments and
      redemptions alike. */
  lemma RecordKeepsBalanceNonNegative(ledgers: Ledgers, balances: Balances, userId: string,
                                      input: TxnInput, idSuffix: string, now: nat)
    requires BalanceOf(balances, userId) >= 0.0
    requires input.amount.Some? ==> input.amount.value >= 0.0
    ensures BalanceOf(RecordTransaction(ledgers, balances, userId, input, idSuffix, now).1, userId)
              >= BalanceOf(balances, userId)
  {
  }

  /** After a redemption the balance endpoint reports the new balance. */
  lemma RedeemThenBalance(balances: Balances, userId: string, input: RedeemInput)
    requires RedeemPerk(balances, userId, input).1.Redeemed?
    ensures var (b, reply) := RedeemPerk(balances, userId, input);
            GetBalance(b, userId).1 == reply.newBalance
  {
  }
}
