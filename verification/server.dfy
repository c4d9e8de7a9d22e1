/** The whole in-memory server as one state value: the two session stores,
    the ledger, the partner catalog, the per-user simulation records and
    the log of events pushed to Socket.IO clients. Each HTTP handler is a
    transition returning the next state and the reply; the `setTimeout`
    chain of a running simulation is the explicit `Step` transition. */
module Server {
  import opened Common
  import opened Seqs
  import opened Sessions
  import opened Ledger
  import opened PerkData
  import opened Catalog
  import opened Simulation

  /** The events the handlers emit to every connected client, in order. */
  datatype Event =
    | RefreshWallet(userId: string)
    | RefreshBalance(userId: string)
    | PerkRedeemed(partner: string, perkId: BodyValue, count: int)
    | PerkRedeemedWithoutCount(partner: string, perkId: BodyValue)
    | NewDealAdded(partner: string, deal: Deal)
    | TestMonthUpdate(userId: string, monthNumber: nat)
    | TriggerAiRoast(userId: string, monthlySpending: int, kind: RoastKind, threshold: int)
    | TestComplete(userId: string)
    | TestStopped(userId: string)

  /** `testSimulations[userId]`, with `pending` standing for a scheduled
      timer (`timeoutId` not null) and `monthIndex` for the closure's
      `currentMonthIndex`. */
  datatype SimRun = SimRun(isRunning: bool, pending: bool, stopFlag: bool, monthIndex: nat)

  datatype State = State(
    sessions: Store, dashSessions: Store,
    ledgers: Ledgers, balances: Balances,
    catalog: CatalogState,
    sims: map<string, SimRun>,
    events: seq<Event>)

  /** The state right after start-up: the seeded balance of `user`, both
      counter maps initialised, nothing else. */
  function InitialState(draws: seq<seq<int>>): (s: State)
    requires ValidRedemptionDraws(draws)
    ensures s.balances == map["user" := 56.75]
    ensures s.sessions == map[] && s.dashSessions == map[] && s.ledgers == map[]
    ensures IdsWellFormed(s.catalog) && AldiBalanced(s.catalog)
  {
    InitialCatalogInvariants(draws);
    State(map[], map[], map[], map["user" := 56.75], InitialCatalog(draws), map[], [])
  }

  datatype Response =
    | NotFound                                // 404 from the session middleware
    | ServerError                             // 500 from a handler's catch
    | LoginResult(login: LoginReply)
    | TxnResult(txn: RecordReply)
    | WalletResult(transactions: seq<Transaction>)
    | BalanceResult(balance: real)
    | RedeemResult(redeem: RedeemReply)
    | PartnerRedeemResult(partnerRedeem: PartnerRedeemReply)
    | DealsResult(deals: DealsReply)
    | StatsResult(stats: StatsReply)
    | AddPerkResult(add: AddReply)
    | AlreadyRunning                          // 400 from start-test
    | TestStarted
    | NoTestRunning                           // 200 with success: false from end-test
    | TestEnded

  // ---------------------------------------------------------------------
  // Logins

  function UserLogin(s: State, id: Option<string>, password: Option<string>,
                     token: string, now: int): (r: (State, Response))
    ensures r.1.LoginResult?
    ensures r.0 == s.(sessions := r.0.sessions)
    ensures r.1.login.Rejected? ==> r.0 == s
    ensures r.1.login.Accepted? ==> token in r.0.sessions && r.0.sessions[token].identity == "user"
  {
    var (store, reply) := Login(Users, s.sessions, id, password, token, now);
    (s.(sessions := store), LoginResult(reply))
  }

  function DashLogin(s: State, id: Option<string>, password: Option<string>,
                     token: string, now: int): (r: (State, Response))
    ensures r.1.LoginResult?
    ensures r.0 == s.(dashSessions := r.0.dashSessions)
    ensures r.1.login.Rejected? ==> r.0 == s
    ensures r.1.login.Accepted? ==> token in r.0.dashSessions && r.0.dashSessions[token] == Session("admin", "aldi", now)
  {
    var (store, reply) := Login(DashboardUsers, s.dashSessions, id, password, token, now);
    (s.(dashSessions := store), LoginResult(reply))
  }

  // ---------------------------------------------------------------------
  // User endpoints behind `verifySession`

  /** The `userId` the user handlers read from the request's session: the
      stored session's, or for an inherited property `undefined`, which
      every store then uses as the key "undefined". */
  function UserOf(s: State, req: Request): (r: Option<string>)
    ensures r.None? <==> Resolve(req, s.sessions).None?
    ensures FoundOwn(Resolve(req, s.sessions)) ==> r == Some(Resolve(req, s.sessions).value.session.identity)
    ensures r.Some? && !FoundOwn(Resolve(req, s.sessions)) ==> r == Some(UndefinedKey)
  {
    var found := Resolve(req, s.sessions);
    if found.None? then None
    else if found.value.Own? then Some(found.value.session.identity)
    else Some(UndefinedKey)
  }

  function PostTransaction(s: State, req: Request, input: TxnInput, idSuffix: string, now: nat)
    : (r: (State, Response))
    ensures UserOf(s, req).None? <==> r.1 == NotFound
    ensures UserOf(s, req).None? ==> r.0 == s
    ensures UserOf(s, req).Some? ==>
              var u := UserOf(s, req).value;
              var (l, b, reply) := RecordTransaction(s.ledgers, s.balances, u, input, idSuffix, now);
              r.0 == s.(ledgers := l, balances := b) && r.1 == TxnResult(reply)
  {
    var user := UserOf(s, req);
    if user.None? then (s, NotFound)
    else
      var (l, b, reply) := RecordTransaction(s.ledgers, s.balances, user.value, input, idSuffix, now);
      (s.(ledgers := l, balances := b), TxnResult(reply))
  }

  function GetWallet(s: State, req: Request, now: int, draws: seq<SeedDraw>): (r: (State, Response))
    requires ValidSeedDraws(draws)
    ensures UserOf(s, req).None? <==> r.1 == NotFound
    ensures UserOf(s, req).None? ==> r.0 == s
    ensures r.0 == s.(ledgers := r.0.ledgers)
    ensures UserOf(s, req).Some? ==>
              var u := UserOf(s, req).value;
              && r.1.WalletResult? && SortedDesc(r.1.transactions, DateOf)
              && r.0.ledgers == s.ledgers[u := r.1.transactions]
              && (u in s.ledgers ==> multiset(r.1.transactions) == multiset(s.ledgers[u]))
              && (u !in s.ledgers ==> |r.1.transactions| == 5)
  {
    var user := UserOf(s, req);
    if user.None? then (s, NotFound)
    else
      var (l, listed) := Wallet(s.ledgers, user.value, now, draws);
      (s.(ledgers := l), WalletResult(listed))
  }

  function GetBalanceOf(s: State, req: Request): (r: (State, Response))
    ensures UserOf(s, req).None? <==> r.1 == NotFound
    ensures UserOf(s, req).None? ==> r.0 == s
    ensures r.0 == s.(balances := r.0.balances)
    ensures UserOf(s, req).Some? ==>
              var u := UserOf(s, req).value;
              r.1 == BalanceResult(BalanceOf(s.balances, u)) && r.0.balances == EnsureBalance(s.balances, u)
  {
    var user := UserOf(s, req);
    if user.None? then (s, NotFound)
    else
      var (b, balance) := GetBalance(s.balances, user.value);
      (s.(balances := b), BalanceResult(balance))
  }

  /** `POST /api/user/redeem-perk`: only the balance can change. */
  function RedeemGeneralPerk(s: State, req: Request, input: RedeemInput): (r: (State, Response))
    ensures UserOf(s, req).None? <==> r.1 == NotFound
    ensures UserOf(s, req).None? ==> r.0 == s
    ensures r.0 == s.(balances := r.0.balances)
    ensures UserOf(s, req).Some? ==>
              var (b, reply) := RedeemPerk(s.balances, UserOf(s, req).value, input);
              r.0.balances == b && r.1 == RedeemResult(reply)
  {
    var user := UserOf(s, req);
    if user.None? then (s, NotFound)
    else
      var (b, reply) := RedeemPerk(s.balances, user.value, input);
      (s.(balances := b), RedeemResult(reply))
  }

  /** `POST /api/user/:partner/redeem-perks`: only the redemption counters
      change, and a successful redemption emits `perk-redeemed`. */
  function RedeemPartnerPerk(s: State, req: Request, segment: string, perkId: BodyValue)
    : (r: (State, Response))
    ensures UserOf(s, req).None? <==> r.1 == NotFound
    ensures UserOf(s, req).None? ==> r.0 == s
    ensures r.0.balances == s.balances && r.0.ledgers == s.ledgers && r.0.sims == s.sims
    ensures r.0.catalog.views == s.catalog.views && r.0.catalog.dynamic == s.catalog.dynamic
    ensures UserOf(s, req).Some? ==>
              var (cat, reply) := PartnerRedeem(s.catalog, segment, perkId);
              && r.0.catalog == cat && r.1 == PartnerRedeemResult(reply)
              && (reply.PartnerRedeemed? ==>
                    r.0.events == s.events + [PerkRedeemed(segment, perkId, reply.count)])
              && (reply.RedeemedWithoutCount? ==>
                    r.0.events == s.events + [PerkRedeemedWithoutCount(segment, perkId)])
              && (reply.PerkIdRequired? || reply.PartnerNotFound? ==> r.0 == s)
  {
    var user := UserOf(s, req);
    if user.None? then (s, NotFound)
    else
      var (cat, reply) := PartnerRedeem(s.catalog, segment, perkId);
      var events := if reply.PartnerRedeemed? then s.events + [PerkRedeemed(segment, perkId, reply.count)]
                    else if reply.RedeemedWithoutCount? then s.events + [PerkRedeemedWithoutCount(segment, perkId)]
                    else s.events;
      (s.(catalog := cat, events := events), PartnerRedeemResult(reply))
  }

  // ---------------------------------------------------------------------
  // Dashboard endpoints behind `verifyDashboardSession`

  /** The `name` the dashboard handlers read from the request's session:
      none where the middleware answers 404, a name, or `undefined` (the
      inherited `__proto__` object), on which `toLowerCase()` throws. */
  datatype DashName = NoDashSession | Named(name: string) | Unnamed

  function DashNameOf(s: State, req: Request): (r: DashName)
    ensures r.NoDashSession? <==> Resolve(req, s.dashSessions).None?
    ensures FoundOwn(Resolve(req, s.dashSessions)) ==> r == Named(Resolve(req, s.dashSessions).value.session.name)
    ensures r.Unnamed? <==> Resolve(req, s.dashSessions) == Some(Inherited("__proto__"))
  {
    var found := Resolve(req, s.dashSessions);
    if found.None? then NoDashSession
    else if found.value.Own? then Named(found.value.session.name)
    else
      var n := InheritedName(found.value.property);
      if n.None? then Unnamed else Named(n.value)
  }

  function ListDeals(s: State, req: Request): (r: (State, Response))
    ensures DashNameOf(s, req).NoDashSession? <==> r.1 == NotFound
    ensures DashNameOf(s, req).Unnamed? <==> r.1 == ServerError
    ensures !DashNameOf(s, req).Named? ==> r.0 == s
    ensures r.0 == s.(catalog := r.0.catalog)
    ensures r.0.catalog.redemptions == s.catalog.redemptions && r.0.catalog.dynamic == s.catalog.dynamic
    ensures DashNameOf(s, req).Named? ==>
              var (cat, reply) := DashDeals(s.catalog, DashNameOf(s, req).name);
              r.0.catalog == cat && r.1 == DealsResult(reply)
  {
    var name := DashNameOf(s, req);
    if name.NoDashSession? then (s, NotFound)
    else if name.Unnamed? then (s, ServerError)
    else
      var (cat, reply) := DashDeals(s.catalog, name.name);
      (s.(catalog := cat), DealsResult(reply))
  }

  function DashStats(s: State, req: Request): (r: (State, Response))
    ensures DashNameOf(s, req).NoDashSession? <==> r.1 == NotFound
    ensures DashNameOf(s, req).Unnamed? <==> r.1 == ServerError
    ensures !DashNameOf(s, req).Named? ==> r.0 == s
    ensures r.0 == s.(catalog := r.0.catalog)
    ensures r.0.catalog.redemptions == s.catalog.redemptions && r.0.catalog.dynamic == s.catalog.dynamic
    ensures DashNameOf(s, req).Named? ==>
              var (cat, reply) := Stats(s.catalog, DashNameOf(s, req).name);
              r.0.catalog == cat && r.1 == StatsResult(reply)
  {
    var name := DashNameOf(s, req);
    if name.NoDashSession? then (s, NotFound)
    else if name.Unnamed? then (s, ServerError)
    else
      var (cat, reply) := Stats(s.catalog, name.name);
      (s.(catalog := cat), StatsResult(reply))
  }

  /** `POST /api/dash/add-perk`: a successful add emits `new-deal-added`. */
  function AddPerk(s: State, req: Request, input: DealInput): (r: (State, Response))
    ensures DashNameOf(s, req).NoDashSession? <==> r.1 == NotFound
    ensures DashNameOf(s, req).Unnamed? <==> r.1 == ServerError
    ensures !DashNameOf(s, req).Named? ==> r.0 == s
    ensures r.0 == s.(catalog := r.0.catalog, events := r.0.events)
    ensures DashNameOf(s, req).Named? ==>
              var name := DashNameOf(s, req).name;
              var (cat, reply) := AddDeal(s.catalog, name, input);
              && r.0.catalog == cat && r.1 == AddPerkResult(reply)
              && (reply.DealAdded? ==>
                    r.0.events == s.events + [NewDealAdded(FindPartner(Lower(name)).value.slug, reply.deal)])
              && (!reply.DealAdded? ==> r.0 == s)
  {
    var name := DashNameOf(s, req);
    if name.NoDashSession? then (s, NotFound)
    else if name.Unnamed? then (s, ServerError)
    else
      var (cat, reply) := AddDeal(s.catalog, name.name, input);
      if reply.DealAdded? then
        var slug := FindPartner(Lower(name.name)).value.slug;
        (s.(catalog := cat, events := s.events + [NewDealAdded(slug, reply.deal)]), AddPerkResult(reply))
      else (s, AddPerkResult(reply))
  }

  // ---------------------------------------------------------------------
  // The test simulation

  /** The events one simulated month emits after storing its transactions. */
  function MonthEvents(userId: string, monthIndex: nat, target: int): (r: seq<Event>)
    ensures |r| >= 2 && r[0] == RefreshWallet(userId) && r[1] == RefreshBalance(userId)
    ensures |r| == 2 <==> Roast(target).None?
    ensures |r| == 3 ==> r[2] == TriggerAiRoast(userId, target, Roast(target).value,
                                                RoastThresholdOf(Roast(target).value))
  {
    var roast := Roast(target);
    [RefreshWallet(userId), RefreshBalance(userId)]
      + (if roast.Some? then [TriggerAiRoast(userId, target, roast.value, RoastThresholdOf(roast.value))]
         else [])
  }

  /** One month's transactions stored: appended, credited, sorted newest first. */
  function StoreMonth(s: State, userId: string, month: seq<Transaction>): (r: State)
    ensures multiset(TxnsOf(r.ledgers, userId)) == multiset(TxnsOf(s.ledgers, userId) + month)
    ensures SortedDesc(TxnsOf(r.ledgers, userId), DateOf)
    ensures |TxnsOf(r.ledgers, userId)| == |TxnsOf(s.ledgers, userId)| + |month|
    ensures BalanceOf(r.balances, userId) == BalanceOf(s.balances, userId) + TotalCredits(month)
    ensures forall u :: u != userId ==> (TxnsOf(r.ledgers, u) == TxnsOf(s.ledgers, u)
                                      && BalanceOf(r.balances, u) == BalanceOf(s.balances, u))
    ensures r == s.(ledgers := r.ledgers, balances := r.balances)
  {
    var ledgers := s.ledgers[userId := Newest(TxnsOf(s.ledgers, userId) + month)];
    var balances := s.balances[userId := BalanceOf(s.balances, userId) + TotalCredits(month)];
    OthersUntouched(s.ledgers, s.balances, userId, Newest(TxnsOf(s.ledgers, userId) + month),
                    BalanceOf(s.balances, userId) + TotalCredits(month));
    s.(ledgers := ledgers, balances := balances)
  }

  /** Writing one user's list and balance leaves every other user's alone. */
  lemma OthersUntouched(ledgers: Ledgers, balances: Balances, userId: string,
                        list: seq<Transaction>, balance: real)
    ensures TxnsOf(ledgers[userId := list], userId) == list
    ensures BalanceOf(balances[userId := balance], userId) == balance
    ensures forall u :: u != userId ==> (TxnsOf(ledgers[userId := list], u) == TxnsOf(ledgers, u)
                                      && BalanceOf(balances[userId := balance], u) == BalanceOf(balances, u))
  {
  }

  /** The run record after a month: the next month is due, with a timer
      set unless the twelfth month has just run. */
  function NextRun(run: SimRun): (r: SimRun)
    requires run.monthIndex < MonthsInYear
    ensures r.monthIndex == run.monthIndex + 1 && r.stopFlag == run.stopFlag
    ensures r.pending <==> r.monthIndex < MonthsInYear
    ensures r.isRunning <==> run.isRunning && r.monthIndex < MonthsInYear
  {
    var m := run.monthIndex + 1;
    if m < MonthsInYear then run.(monthIndex := m, pending := true)
    else run.(monthIndex := m, isRunning := false, pending := false)
  }

  /** The month branch of `runMonth`: store month `monthIndex`, emit its
      events, and schedule the next month or finish after the twelfth. */
  function RunCurrentMonth(s: State, userId: string, d: MonthDraws): (r: State)
    requires userId in s.sims && ValidMonthDraws(d) && s.sims[userId].monthIndex < MonthsInYear
    ensures var m := s.sims[userId].monthIndex;
            var stored := StoreMonth(s, userId, MonthTransactions(userId, m, d));
            && r.ledgers == stored.ledgers && r.balances == stored.balances
            && r.sessions == s.sessions && r.dashSessions == s.dashSessions && r.catalog == s.catalog
            && r.sims == s.sims[userId := NextRun(s.sims[userId])]
            && r.events == s.events + [TestMonthUpdate(userId, m + 1)]
                 + MonthEvents(userId, m, MonthlyTarget(m, d.targetExtra))
                 + (if m + 1 < MonthsInYear then [] else [TestComplete(userId)])
  {
    var run := s.sims[userId];
    var m := run.monthIndex;
    var stored := StoreMonth(s, userId, MonthTransactions(userId, m, d));
    var events := s.events + [TestMonthUpdate(userId, m + 1)]
                  + MonthEvents(userId, m, MonthlyTarget(m, d.targetExtra))
                  + (if m + 1 < MonthsInYear then [] else [TestComplete(userId)]);
    stored.(sims := s.sims[userId := NextRun(run)], events := events)
  }

  /** `runMonth` for `userId`: honour a stop request, finish after the
      twelfth month, or run the current month. */
  function RunMonth(s: State, userId: string, d: MonthDraws): (r: State)
    requires userId in s.sims && ValidMonthDraws(d)
    ensures s.sims[userId].stopFlag ==>
              r == s.(sims := s.sims[userId := s.sims[userId].(isRunning := false, pending := false,
                                                                stopFlag := false)],
                      events := s.events + [TestStopped(userId)])
    ensures !s.sims[userId].stopFlag && s.sims[userId].monthIndex >= MonthsInYear ==>
              r == s.(sims := s.sims[userId := s.sims[userId].(isRunning := false, pending := false)],
                      events := s.events + [TestComplete(userId)])
    ensures !s.sims[userId].stopFlag && s.sims[userId].monthIndex < MonthsInYear ==>
              r == RunCurrentMonth(s, userId, d)
  {
    var run := s.sims[userId];
    if run.stopFlag then
      s.(sims := s.sims[userId := run.(isRunning := false, pending := false, stopFlag := false)],
         events := s.events + [TestStopped(userId)])
    else if run.monthIndex >= MonthsInYear then
      s.(sims := s.sims[userId := run.(isRunning := false, pending := false)],
         events := s.events + [TestComplete(userId)])
    else
      RunCurrentMonth(s, userId, d)
  }

  /** The state `start-test` hands to the first `runMonth`: the user's
      list emptied, the balance initialised but kept, a fresh run record. */
  function Restarted(s: State, userId: string): (r: State)
    ensures TxnsOf(r.ledgers, userId) == []
    ensures BalanceOf(r.balances, userId) == BalanceOf(s.balances, userId)
    ensures r.sims == s.sims[userId := SimRun(true, false, false, 0)]
    ensures forall u :: u != userId ==> TxnsOf(r.ledgers, u) == TxnsOf(s.ledgers, u)
    ensures r == s.(ledgers := r.ledgers, balances := r.balances, sims := r.sims)
  {
    s.(ledgers := s.ledgers[userId := []], balances := EnsureBalance(s.balances, userId),
       sims := s.sims[userId := SimRun(true, false, false, 0)])
  }

  /** The first `runMonth` of a restarted run finds no stop request and
      month 0 due, so it runs that month. */
  lemma FirstMonthRuns(s: State, userId: string, d: MonthDraws)
    requires ValidMonthDraws(d)
    ensures RunMonth(Restarted(s, userId), userId, d) == RunCurrentMonth(Restarted(s, userId), userId, d)
  {
  }

  /** Running month 0 of a restarted run leaves it at month 1 with the timer set. */
  lemma FirstMonthSchedulesNext(s: State, userId: string, d: MonthDraws)
    requires ValidMonthDraws(d)
    ensures RunCurrentMonth(Restarted(s, userId), userId, d).sims == s.sims[userId := SimRun(true, true, false, 1)]
  {
    assert Restarted(s, userId).sims[userId] == SimRun(true, false, false, 0);
    FreshRunScheduled(s.sims, userId);
  }

  lemma FreshRunScheduled(sims: map<string, SimRun>, userId: string)
    ensures sims[userId := SimRun(true, false, false, 0)][userId := NextRun(SimRun(true, false, false, 0))]
              == sims[userId := SimRun(true, true, false, 1)]
  {
  }

  /** `start-test` for the authenticated `userId`: refuse a second run,
      otherwise restart and run the first month at once. */
  function StartRun(s: State, userId: string, d: MonthDraws): (r: (State, Response))
    requires ValidMonthDraws(d)
    ensures r.1 == AlreadyRunning <==> userId in s.sims && s.sims[userId].isRunning
    ensures r.1 == AlreadyRunning ==> r.0 == s
    ensures r.1 != AlreadyRunning ==> r.1 == TestStarted && r.0 == RunCurrentMonth(Restarted(s, userId), userId, d)
    ensures r.1 == TestStarted ==> r.0.sims == s.sims[userId := SimRun(true, true, false, 1)]
  {
    if userId in s.sims && s.sims[userId].isRunning then (s, AlreadyRunning)
    else
      FirstMonthRuns(s, userId, d);
      FirstMonthSchedulesNext(s, userId, d);
      (RunMonth(Restarted(s, userId), userId, d), TestStarted)
  }

  /** `GET /api/user/start-test`. */
  function StartTest(s: State, req: Request, d: MonthDraws): (r: (State, Response))
    requires ValidMonthDraws(d)
    ensures UserOf(s, req).None? <==> r.1 == NotFound
    ensures UserOf(s, req).None? ==> r.0 == s
    ensures UserOf(s, req).Some? ==> r == StartRun(s, UserOf(s, req).value, d)
  {
    var user := UserOf(s, req);
    if user.None? then (s, NotFound) else StartRun(s, user.value, d)
  }

  /** The timer of `userId`'s run fires; with no timer scheduled nothing happens. */
  function Step(s: State, userId: string, d: MonthDraws): (r: State)
    requires ValidMonthDraws(d)
    ensures !(userId in s.sims && s.sims[userId].pending) ==> r == s
    ensures userId in s.sims && s.sims[userId].pending ==> r == RunMonth(s, userId, d)
    ensures userId in s.sims && s.sims[userId].pending && !s.sims[userId].stopFlag
            && s.sims[userId].monthIndex < MonthsInYear ==>
              r.sims == s.sims[userId := NextRun(s.sims[userId])]
  {
    if userId in s.sims && s.sims[userId].pending then RunMonth(s, userId, d) else s
  }

  /** `end-test` for the authenticated `userId`: with no running test
      nothing changes; otherwise the stop flag is set, the timer cancelled
      and the run marked stopped. */
  function EndRun(s: State, userId: string): (r: (State, Response))
    ensures r.1 == NoTestRunning <==> !(userId in s.sims && s.sims[userId].isRunning)
    ensures r.1 == NoTestRunning ==> r.0 == s
    ensures r.1 != NoTestRunning ==>
              && r.1 == TestEnded
              && r.0 == s.(sims := r.0.sims, events := s.events + [TestStopped(userId)])
              && r.0.sims == s.sims[userId := SimRun(false, false, true, s.sims[userId].monthIndex)]
  {
    if !(userId in s.sims && s.sims[userId].isRunning) then (s, NoTestRunning)
    else
      (s.(sims := s.sims[userId := s.sims[userId].(stopFlag := true, pending := false, isRunning := false)],
          events := s.events + [TestStopped(userId)]),
       TestEnded)
  }

  /** `GET /api/user/end-test`. */
  function EndTest(s: State, req: Request): (r: (State, Response))
    ensures UserOf(s, req).None? <==> r.1 == NotFound
    ensures UserOf(s, req).None? ==> r.0 == s
    ensures UserOf(s, req).Some? ==> r == EndRun(s, UserOf(s, req).value)
  {
    var user := UserOf(s, req);
    if user.None? then (s, NotFound) else EndRun(s, user.value)
  }
}
