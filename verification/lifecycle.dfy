/** Properties of whole runs of the server: a test simulation from
    `start-test` through its timer steps to completion or `end-test`, and
    the separation of the user and dashboard sessions at handler level. */
module Lifecycle {
  import opened Common
  import opened Seqs
  import opened Sessions
  import opened Ledger
  import opened PerkData
  import opened Catalog
  import opened Simulation
  import opened Server

  predicate AllValid(ds: seq<MonthDraws>) {
    forall k :: 0 <= k < |ds| ==> ValidMonthDraws(ds[k])
  }

  /** `states` is what the timer produces from `states[0]`, firing once
      per draw record, in order. */
  predicate IsTrace(states: seq<State>, userId: string, ds: seq<MonthDraws>)
    requires AllValid(ds)
  {
    && |states| == |ds| + 1
    && forall k {:trigger Step(states[k], userId, ds[k])} :: 0 <= k < |ds| ==>
         states[k + 1] == Step(states[k], userId, ds[k])
  }

  /** The record of a run that has completed `m` months without a stop:
      still running with a timer set before the twelfth, finished after it. */
  function Progressed(m: nat): SimRun {
    if m < MonthsInYear then SimRun(true, true, false, m) else SimRun(false, false, false, m)
  }

  /** What the balance shows beyond the credits of the listed transactions. */
  function CreditGap(s: State, userId: string): real {
    BalanceOf(s.balances, userId) - TotalCredits(TxnsOf(s.ledgers, userId))
  }

  function RentCount(s: State, userId: string): nat {
    Count(TxnsOf(s.ledgers, userId), IsRent)
  }

  /** Storing a month's transactions adds them to the list and their
      credits to the balance, so the credit gap is kept. */
  lemma {:induction false} StoreMonthCounts(s: State, userId: string, month: seq<Transaction>)
    ensures var r := StoreMonth(s, userId, month);
            && Count(TxnsOf(r.ledgers, userId), IsRent) == Count(TxnsOf(s.ledgers, userId), IsRent) + Count(month, IsRent)
            && CreditGap(r, userId) == CreditGap(s, userId)
  {
    var before := TxnsOf(s.ledgers, userId);
    var after := TxnsOf(StoreMonth(s, userId, month).ledgers, userId);
    CountPermutation(after, before + month, IsRent);
    CountAppend(before, month, IsRent);
    SumRealPermutation(after, before + month, CreditsOf);
    SumRealAppend(before, month, CreditsOf);
  }

  /** One simulated month adds ten transactions, exactly one of them rent,
      and raises the balance by exactly the credits it adds. */
  lemma MonthStep(s: State, userId: string, d: MonthDraws)
    requires userId in s.sims && ValidMonthDraws(d) && s.sims[userId].monthIndex < MonthsInYear
    ensures var r := RunCurrentMonth(s, userId, d);
            && |TxnsOf(r.ledgers, userId)| == |TxnsOf(s.ledgers, userId)| + TransactionsPerMonth
            && RentCount(r, userId) == RentCount(s, userId) + 1
            && CreditGap(r, userId) == CreditGap(s, userId)
  {
    var month := MonthTransactions(userId, s.sims[userId].monthIndex, d);
    var stored := StoreMonth(s, userId, month);
    var r := RunCurrentMonth(s, userId, d);
    StoreMonthCounts(s, userId, month);
    assert TxnsOf(r.ledgers, userId) == TxnsOf(stored.ledgers, userId);
    assert BalanceOf(r.balances, userId) == BalanceOf(stored.balances, userId);
  }

  /** `testSimulations[userId] && testSimulations[userId].isRunning`: the
      condition under which `start-test` refuses. */
  predicate IsRunning(s: State, userId: string) {
    userId in s.sims && s.sims[userId].isRunning
  }

  /** Starting a test empties the user's list, keeps whatever balance the
      user had, and runs the first month at once: ten transactions, one
      rent, the balance raised by their credits, the timer set for the
      second month, and no roast. */
  lemma StartRunsFirstMonth(s: State, userId: string, d: MonthDraws)
    requires ValidMonthDraws(d) && !IsRunning(s, userId)
    ensures var r := StartRun(s, userId, d).0;
            && |TxnsOf(r.ledgers, userId)| == TransactionsPerMonth
            && RentCount(r, userId) == 1
            && BalanceOf(r.balances, userId) == BalanceOf(s.balances, userId) + TotalCredits(TxnsOf(r.ledgers, userId))
            && userId in r.sims && r.sims[userId] == Progressed(1)
            && r.events == s.events + [TestMonthUpdate(userId, 1), RefreshWallet(userId), RefreshBalance(userId)]
  {
    FirstMonthCounts(s, userId, d);
    FirstMonthEvents(s, userId, d);
  }

  lemma FirstMonthCounts(s: State, userId: string, d: MonthDraws)
    requires ValidMonthDraws(d) && !IsRunning(s, userId)
    ensures var r := StartRun(s, userId, d).0;
            && |TxnsOf(r.ledgers, userId)| == TransactionsPerMonth
            && RentCount(r, userId) == 1
            && CreditGap(r, userId) == BalanceOf(s.balances, userId)
  {
    var start := Restarted(s, userId);
    assert StartRun(s, userId, d).0 == RunCurrentMonth(start, userId, d);
    assert CreditGap(start, userId) == BalanceOf(s.balances, userId);
    MonthStep(start, userId, d);
  }

  lemma FirstMonthEvents(s: State, userId: string, d: MonthDraws)
    requires ValidMonthDraws(d) && !IsRunning(s, userId)
    ensures StartRun(s, userId, d).0.events
              == s.events + [TestMonthUpdate(userId, 1), RefreshWallet(userId), RefreshBalance(userId)]
  {
    assert Restarted(s, userId).sims[userId].monthIndex == 0;
    FirstMonthLog(s.events, userId, d.targetExtra);
  }

  /** The events month 0 appends: the month update and the two refreshes. */
  lemma FirstMonthLog(log: seq<Event>, userId: string, extra: int)
    requires 0 <= extra < 500
    ensures log + [TestMonthUpdate(userId, 0 + 1)] + MonthEvents(userId, 0, MonthlyTarget(0, extra))
              + (if 0 + 1 < MonthsInYear then [] else [TestComplete(userId)])
            == log + [TestMonthUpdate(userId, 1), RefreshWallet(userId), RefreshBalance(userId)]
  {
    var shown := MonthEvents(userId, 0, MonthlyTarget(0, extra));
    assert shown == [RefreshWallet(userId), RefreshBalance(userId)];
  }

  /** A timer step of a run that has completed `m` months runs month `m`. */
  lemma StepOnce(s: State, userId: string, m: nat, d: MonthDraws)
    requires ValidMonthDraws(d) && 1 <= m < MonthsInYear
    requires userId in s.sims && s.sims[userId] == Progressed(m)
    ensures var r := Step(s, userId, d);
            && userId in r.sims && r.sims[userId] == Progressed(m + 1)
            && |TxnsOf(r.ledgers, userId)| == |TxnsOf(s.ledgers, userId)| + TransactionsPerMonth
            && RentCount(r, userId) == RentCount(s, userId) + 1
            && CreditGap(r, userId) == CreditGap(s, userId)
  {
    var r := Step(s, userId, d);
    assert r == RunCurrentMonth(s, userId, d);
    MonthStep(s, userId, d);
    assert r.sims[userId] == NextRun(Progressed(m));
  }

  /** What one timer step does to a run that has completed `m` months:
      one more month completed, ten more transactions, one more rent, and
      the same credit gap. */
  predicate Advances(s: State, r: State, userId: string, m: nat) {
    (userId in s.sims && s.sims[userId] == Progressed(m)) ==>
      && userId in r.sims && r.sims[userId] == Progressed(m + 1)
      && |TxnsOf(r.ledgers, userId)| == |TxnsOf(s.ledgers, userId)| + TransactionsPerMonth
      && RentCount(r, userId) == RentCount(s, userId) + 1
      && CreditGap(r, userId) == CreditGap(s, userId)
  }

  /** Every step of a trace that stays within the year advances the run. */
  lemma TraceAdvances(states: seq<State>, userId: string, m: nat, ds: seq<MonthDraws>)
    requires AllValid(ds) && IsTrace(states, userId, ds) && 1 <= m && m + |ds| <= MonthsInYear
    ensures forall k :: 0 <= k < |ds| ==> Advances(states[k], states[k + 1], userId, m + k)
  {
    forall k | 0 <= k < |ds|
      ensures Advances(states[k], states[k + 1], userId, m + k)
    {
      assert states[k + 1] == Step(states[k], userId, ds[k]);
      if userId in states[k].sims && states[k].sims[userId] == Progressed(m + k) {
        StepOnce(states[k], userId, m + k, ds[k]);
      }
    }
  }

  /** Without a stop, each timer step runs the next month: `k` steps
      later the run record is that of a run that has completed `m + k`
      months, the list holds ten more transactions per step, one more rent
      per step, and the credit gap is unchanged. */
  lemma {:induction false} TraceProgress(states: seq<State>, userId: string, m: nat, k: nat)
    requires k < |states|
    requires forall j :: 0 <= j < k ==> Advances(states[j], states[j + 1], userId, m + j)
    requires userId in states[0].sims && states[0].sims[userId] == Progressed(m)
    ensures userId in states[k].sims && states[k].sims[userId] == Progressed(m + k)
    ensures |TxnsOf(states[k].ledgers, userId)| == |TxnsOf(states[0].ledgers, userId)| + TransactionsPerMonth * k
    ensures RentCount(states[k], userId) == RentCount(states[0], userId) + k
    ensures CreditGap(states[k], userId) == CreditGap(states[0], userId)
    decreases k
  {
    if k > 0 {
      TraceProgress(states, userId, m, k - 1);
      assert Advances(states[k - 1], states[k - 1 + 1], userId, m + (k - 1));
    }
  }

  /** A full year: `start-test` and the eleven timer steps that follow it
      store 120 transactions, twelve of them rent, with the balance raised
      by exactly their credits; the run is then over and a further timer
      event changes nothing. */
  lemma FullYear(s: State, userId: string, first: MonthDraws, ds: seq<MonthDraws>,
                 states: seq<State>, extra: MonthDraws)
    requires ValidMonthDraws(first) && AllValid(ds) && |ds| == MonthsInYear - 1 && ValidMonthDraws(extra)
    requires !IsRunning(s, userId)
    requires IsTrace(states, userId, ds) && states[0] == StartRun(s, userId, first).0
    ensures var r := states[|ds|];
            && |TxnsOf(r.ledgers, userId)| == 120
            && RentCount(r, userId) == MonthsInYear
            && BalanceOf(r.balances, userId) == BalanceOf(s.balances, userId) + TotalCredits(TxnsOf(r.ledgers, userId))
            && userId in r.sims && !r.sims[userId].isRunning && !r.sims[userId].pending
            && Step(r, userId, extra) == r
  {
    StartRunsFirstMonth(s, userId, first);
    TraceAdvances(states, userId, 1, ds);
    TraceProgress(states, userId, 1, |ds|);
  }

  /** After `end-test` stops a run, no timer step runs another month, and
      a new `start-test` is accepted. */
  lemma EndStopsRun(s: State, userId: string, d: MonthDraws)
    requires ValidMonthDraws(d) && EndRun(s, userId).1 == TestEnded
    ensures var r := EndRun(s, userId).0;
            && Step(r, userId, d) == r
            && StartRun(r, userId, d).1 == TestStarted
  {
  }

  /** Every run record is in one of the states the handlers produce: a
      timer is set exactly while the run is running, and then no stop is
      pending and a month between the second and the twelfth is next. */
  predicate RunOk(run: SimRun) {
    && (run.isRunning <==> run.pending)
    && (run.pending ==> !run.stopFlag && 1 <= run.monthIndex < MonthsInYear)
  }

  predicate RunsConsistent(s: State) {
    forall u :: u in s.sims ==> RunOk(s.sims[u])
  }

  /** Replacing one record by a consistent one keeps the state consistent. */
  lemma UpdateKeepsRunsConsistent(s: State, r: State, userId: string, run: SimRun)
    requires RunsConsistent(s) && RunOk(run) && r.sims == s.sims[userId := run]
    ensures RunsConsistent(r)
  {
  }

  lemma StartKeepsRunsConsistent(s: State, userId: string, d: MonthDraws)
    requires RunsConsistent(s) && ValidMonthDraws(d)
    ensures RunsConsistent(StartRun(s, userId, d).0)
  {
    if StartRun(s, userId, d).1 == TestStarted {
      UpdateKeepsRunsConsistent(s, StartRun(s, userId, d).0, userId, SimRun(true, true, false, 1));
    }
  }

  lemma StepKeepsRunsConsistent(s: State, userId: string, d: MonthDraws)
    requires RunsConsistent(s) && ValidMonthDraws(d)
    ensures RunsConsistent(Step(s, userId, d))
  {
    if userId in s.sims && s.sims[userId].pending {
      UpdateKeepsRunsConsistent(s, Step(s, userId, d), userId, NextRun(s.sims[userId]));
    }
  }

  lemma EndKeepsRunsConsistent(s: State, userId: string)
    requires RunsConsistent(s)
    ensures RunsConsistent(EndRun(s, userId).0)
  {
  }

  /** In a consistent state a timer never finds the stop flag set, so the
      stop branch at the head of `runMonth` is never taken: stopping is
      done by `end-test` alone, and a timer step always runs a month. */
  lemma StopBranchUnreachable(s: State, userId: string, d: MonthDraws)
    requires RunsConsistent(s) && ValidMonthDraws(d)
    requires userId in s.sims && s.sims[userId].pending
    ensures Step(s, userId, d) == RunCurrentMonth(s, userId, d)
  {
  }

  // ---------------------------------------------------------------------
  // Sessions at handler level

  predicate SessionsDisjoint(s: State) {
    StoresDisjoint(s.sessions, s.dashSessions)
  }

  /** Every stored token was minted by a login: 64 hex digits. */
  predicate TokensMinted(s: State) {
    && (forall t :: t in s.sessions ==> IsSessionToken(t))
    && (forall t :: t in s.dashSessions ==> IsSessionToken(t))
  }

  /** A minted token is longer than every inherited name. */
  lemma MintedNotInherited(t: string)
    requires IsSessionToken(t)
    ensures t !in InheritedNames
  {
  }

  /** No inherited function's name is a partner's slug, even lower-cased:
      the slugs have four or nine letters and the names do not. */
  lemma InheritedNameNoPartner(p: string)
    requires p in InheritedNames && InheritedName(p).Some?
    ensures FindPartner(Lower(InheritedName(p).value)).None?
  {
    PartnersShape();
    var n := InheritedName(p).value;
    assert |n| != 4 && |n| != 9;
    assert forall k :: 0 <= k < |Partners| ==> |Partners[k].slug| == 4 || |Partners[k].slug| == 9;
  }

  /** With disjoint stores of minted tokens, a request that reaches the
      user endpoints never sees a partner's deals, and a request carrying a
      dashboard session's token is refused by the user endpoints. A token
      naming an inherited property does pass both middlewares, but the
      dashboard then finds no partner of that name, or fails. */
  lemma UserTokenNotDashboardToken(s: State, req: Request)
    requires SessionsDisjoint(s) && TokensMinted(s)
    ensures UserOf(s, req).Some? ==>
              && ListDeals(s, req).0 == s
              && (ListDeals(s, req).1 == NotFound || ListDeals(s, req).1 == ServerError
                  || ListDeals(s, req).1 == DealsResult(DealsNotFound))
    ensures FoundOwn(Resolve(req, s.dashSessions)) ==> GetBalanceOf(s, req) == (s, NotFound)
  {
    NoTokenInBothStores(req, s.sessions, s.dashSessions);
    var key := LookupKey(req);
    if key.Some? {
      if key.value in s.sessions || key.value in s.dashSessions {
        MintedNotInherited(key.value);
      }
      var d := Resolve(req, s.dashSessions);
      if d.Some? && d.value.Inherited? && InheritedName(d.value.property).Some? {
        InheritedNameNoPartner(d.value.property);
      }
    }
  }

  /** A dashboard request whose session name belongs to no partner gets
      'Partner not found' and changes nothing. */
  lemma UnknownPartnerListsNothing(s: State, req: Request)
    requires DashNameOf(s, req).Named? && FindPartner(Lower(DashNameOf(s, req).name)).None?
    ensures ListDeals(s, req) == (s, DealsResult(DealsNotFound))
  {
  }

  /** The token `constructor`, held by neither store, reaches the user
      endpoints as the user "undefined" and the dashboard endpoints as the
      partner "Object", which does not exist. */
  lemma ConstructorTokenPassesBoth(s: State)
    requires "constructor" !in s.sessions && "constructor" !in s.dashSessions
    ensures UserOf(s, BearerRequest("constructor")) == Some(UndefinedKey)
    ensures GetBalanceOf(s, BearerRequest("constructor")).1 == BalanceResult(BalanceOf(s.balances, UndefinedKey))
    ensures ListDeals(s, BearerRequest("constructor")) == (s, DealsResult(DealsNotFound))
  {
    var req := BearerRequest("constructor");
    InheritedTokenPassesBoth(s.sessions, s.dashSessions, "constructor");
    assert DashNameOf(s, req) == Named("Object");
    InheritedNameNoPartner("constructor");
    UnknownPartnerListsNothing(s, req);
  }

  /** With the token `__proto__` the dashboard handlers read an undefined
      name and answer 500. */
  lemma ProtoTokenFailsDashboard(s: State)
    requires "__proto__" !in s.sessions && "__proto__" !in s.dashSessions
    ensures ListDeals(s, BearerRequest("__proto__")) == (s, ServerError)
    ensures DashStats(s, BearerRequest("__proto__")) == (s, ServerError)
  {
    InheritedTokenPassesBoth(s.sessions, s.dashSessions, "__proto__");
  }

  /** Logging in with a token in neither store keeps the stores disjoint. */
  lemma LoginsKeepSessionsDisjoint(s: State, id: Option<string>, password: Option<string>,
                                   token: string, now: int)
    requires SessionsDisjoint(s) && token !in s.sessions && token !in s.dashSessions
    ensures SessionsDisjoint(UserLogin(s, id, password, token, now).0)
    ensures SessionsDisjoint(DashLogin(s, id, password, token, now).0)
  {
    LoginKeepsStoresDisjoint(Users, s.sessions, s.dashSessions, id, password, token, now);
    LoginKeepsStoresDisjoint(DashboardUsers, s.sessions, s.dashSessions, id, password, token, now);
  }

  /** Logins that mint their token keep every stored token minted. */
  lemma LoginsKeepTokensMinted(s: State, id: Option<string>, password: Option<string>,
                               token: string, now: int)
    requires TokensMinted(s) && IsSessionToken(token)
    ensures TokensMinted(UserLogin(s, id, password, token, now).0)
    ensures TokensMinted(DashLogin(s, id, password, token, now).0)
  {
  }
}
