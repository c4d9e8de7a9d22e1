# Rewards server model

A Dafny model of the Express back end of a cashback-rewards app and of two
helpers of its React client. The server keeps everything in memory:

- user and partner-dashboard sessions;
- per-user transaction lists and credit balances;
- per-partner redemption counters and view counts;
- deals added from the dashboard;
- per-user runs of a year-long spending simulation.

The model treats the whole server as one immutable `State` value. Each HTTP
handler is a function from a state and a request to the next state and a
reply. The events pushed to Socket.IO clients are a log inside the state.

Every outside input is a parameter:

- `Math.random()` draws, as bounded records (`SeedDraw`, `MonthDraws`, `AmountDraws`, …);
- the clock (`now`, `monthStr`, `monthName`, `dateText`);
- the session token `crypto.randomBytes` produces.

The `setTimeout` chain of a running simulation is an explicit transition,
`Server.Step`: the timer of one user's run fires once.

Modules, in dependency order:

| module | file | what it holds |
|---|---|---|
| `Common` | common.dfy | `Option`; JavaScript truthiness; `trim` and ASCII `toLowerCase`; number-to-property-key conversion; draws as indices |
| `Seqs` | seqs.dfy | descending sort by a key, counting, sums, permutation facts |
| `PerkData` | perks.dfy | the seed data: six general perks, four partners with their deals |
| `Sessions` | sessions.dfy | the login handlers and `verifySession` / `verifyDashboardSession` |
| `Ledger` | ledger.dfy | transactions, wallet seeding, balance, redeem-perk |
| `Catalog` | catalog.dfy | redemption and view counters, partner redeem, dashboard deals/stats/add-perk |
| `Simulation` | simulation.dfy | one month of `start-test`: target, roast, amounts, transactions |
| `Server` | server.dfy | the server state and every modelled endpoint as a transition |
| `Lifecycle` | lifecycle.dfy | properties of whole runs: a full simulated year, stopping, session separation |
| `Client` | client.dfy | `transactionToPayment` and `generateMonthlyPayments` of the client |

Some of what the code does is surprising. The model follows the code:

- `start-test` keeps the user's balance. It does not reset it.
- Seeding a wallet adds five transactions with credits but does not credit
  the balance. After a first wallet read the balance is therefore less than
  the initial balance plus the credits in the list
  (`Ledger.WalletSeedingSkipsBalance`).
- In months 0 to 2 the target is below the rent. Every payment is therefore
  clamped to 10, and the month spends 540, more than its target
  (`Simulation.EarlyMonthsAtMinimum`).
- Partner redemptions are counted under the raw path segment, such as `ALDI`.
  The dashboard reads only the lower-case slug
  (`Catalog.UpperCaseRedemptionInvisible`).
- add-perk sets the new deal's counter to 0 even if redemptions of that id
  were already counted (`Catalog.AddDealResetsEarlierCount`).
- The session stores and the counter maps are plain `{}` objects, so a
  lookup also finds the properties inherited from `Object.prototype`. A
  token such as `constructor` passes both middlewares: the user endpoints
  then act for the user `undefined`, and the dashboard endpoints find no
  partner, or answer 500 for `__proto__`
  (`Lifecycle.ConstructorTokenPassesBoth`, `Lifecycle.ProtoTokenFailsDashboard`).
  A partner redemption of such a perk id counts no number
  (`Catalog.PartnerRedeem`).
- The stop-flag branch at the head of `runMonth` cannot be reached.
  `end-test` clears the timer itself (`Lifecycle.StopBranchUnreachable`).

## Model

| member | source | states |
|---|---|---|
| PerkData.GeneralPerksShape | server/data/perks.js:2-51 | six general perks with ids 1 to 6 and the costs 5, 15, 10, 25, 50, 20 |
| PerkData.PartnersShape | server/data/perks.js:54-189 | four partners with ids 1 to 4 and distinct lower-case slugs aldi, lidl, morrisons, coop |
| PerkData.SeedDealsShape | server/data/perks.js:61-188 | Aldi has five deals and the others three; each partner's deal ids are 1..n; every seed deal has all four text fields |
| PerkData.FindPartner | server/index.js:1035 | `partners.find` on the lower-cased slug: found exactly when some partner's lower-cased slug matches, and then that partner |
| PerkData.FindPartnerBySlug | server/index.js:907 | looking up a partner's own slug finds that partner |
| Common.Trim | server/index.js:294 | the result has no leading or trailing JavaScript whitespace and is a middle part of the input |
| Common.TrimIdempotent | server/index.js:264 | trimming the bearer token again (as `verifySession` does) changes nothing |
| Common.LowerIdempotent | server/index.js:907 | `toLowerCase` gives a lower-case string, and applying it twice is the same as once |
| Common.InheritedName | server/index.js:1031-1032 | among the inherited properties only `__proto__` has no name |
| Common.IntToStringNotInherited | server/index.js:918-923 | a numeric perk id never names an inherited property |
| Common.NatToStringInjective | server/index.js:1061 | different deal ids give different `deal.id.toString()` keys |
| Common.DigitsValueOfNatToString | server/index.js:1061 | reading the decimal digits of `n.toString()` back gives `n` |
| Seqs.SortDesc | server/index.js:175 | the newest-first `sort`: sorted by descending key, same multiset, same length |
| Seqs.SortDescOfSorted | server/index.js:789 | sorting a list that is already newest first returns it unchanged |
| Seqs.SortDescIdempotent | server/index.js:1606 | re-sorting a sorted list changes nothing |
| Seqs.CountPermutation | server/index.js:1606 | sorting does not change how many elements satisfy a property |
| Seqs.SumRealPermutation | server/index.js:1601-1606 | sorting does not change the sum of the credits |
| Sessions.Login | server/index.js:204-255 | 400 exactly when id or password is missing or empty; 401 exactly for an unknown id or a wrong password, with the store unchanged; otherwise the token maps to the account's key, name and time and all other sessions are kept |
| Sessions.LoginAddsOneSession | server/index.js:224-232 | with an unused token, a successful login adds exactly one session and keeps all earlier ones |
| Sessions.BearerToken | server/index.js:261-265 | a bearer token is taken exactly when the header starts with `Bearer ` |
| Sessions.SessionToken | server/index.js:275 | the token is the first truthy candidate of bearer, cookie header, body and query; there is none exactly when all four are falsy |
| Sessions.Find | server/index.js:295-297 | a stored key gives its session, an inherited name that is not stored gives that property, and nothing else is found |
| Sessions.Resolve | server/index.js:288-301 | 404 exactly when there is no token or its trimmed form is neither a key of the store nor an inherited property name; a stored key gives its session, otherwise the inherited property |
| Sessions.LoginThenResolve | server/index.js:258-306 | a token minted by login resolves to its session when sent as a bearer header or as `x-auth-cookie` |
| Sessions.NoTokenInBothStores | server/index.js:288-350 | with disjoint stores no token finds a stored session in both; a request that passes both middlewares owes one of them to an inherited property |
| Sessions.InheritedNameTrimmed | server/index.js:294 | no inherited name is empty or has whitespace at an end, so trimming keeps it |
| Sessions.InheritedTokenPassesBoth | server/index.js:288-350 | an inherited name held by neither store passes both middlewares as that inherited property |
| Sessions.LoginKeepsStoresDisjoint | server/index.js:1276-1284 | minting a token found in neither store keeps the user and dashboard stores disjoint |
| Ledger.EnsureBalance | server/index.js:734-737 | afterwards the user has a stored balance (56.75 for `user`, 0 otherwise, unless already stored) and no other entry changes |
| Ledger.RecordTransaction | server/index.js:700-772 | 400 exactly for a falsy amount or description, changing nothing; otherwise the body fields override the defaults (type `payment`, date now, merchant = description), credits are 5% of the amount, the transaction is appended and the balance rises by its credits |
| Ledger.RecordKeepsCreditGap | server/index.js:739-744 | recording a payment raises the balance by exactly the credits the list gains |
| Ledger.RecordKeepsBalanceNonNegative | server/index.js:739-741 | a non-negative amount never lowers the balance |
| Ledger.SeedTransaction | server/index.js:151-171 | a seed transaction belongs to the user, has a whole amount in [20, 219], 5% credits, one of the four types, merchant = description, and a date in the last 30 days |
| Ledger.SeedList | server/index.js:151-172 | five seed transactions |
| Ledger.NewestKeepsSeeds | server/index.js:175 | sorting keeps every element a seed transaction |
| Ledger.GenerateRandomTransactions | server/index.js:139-176 | five seed transactions, newest first |
| Ledger.Wallet | server/index.js:775-806 | the stored list is sorted newest first and returned; a known user's list keeps its elements; a new user gets five seed transactions |
| Ledger.WalletSeedingSkipsBalance | server/index.js:779-786 | seeding a new user's wallet adds at least 5 credits to the list but none to the balance |
| Ledger.SeedsCreditAtLeastFive | server/index.js:159-160 | five seed transactions carry at least 5 credits in total |
| Ledger.GetBalance | server/index.js:809-836 | the reply is the reported balance, which is then stored |
| Ledger.RedeemPerk | server/index.js:839-891 | 400 exactly for a falsy perkId, a missing cost or a falsy perkName; `Insufficient funds` exactly when the balance is below the cost, with the balance kept; otherwise the cost is deducted and the new balance is non-negative |
| Ledger.RedeemKeepsBalanceNonNegative | server/index.js:856-867 | a non-negative balance stays non-negative, and a redemption lowers it by exactly the cost |
| Ledger.RedeemThenBalance | server/index.js:814-819 | after a redemption the balance endpoint reports the new balance |
| Catalog.DealKeys | server/index.js:112 | the property key of each deal is its id as a decimal string |
| Catalog.DistinctIdsDistinctKeys | server/index.js:112 | distinct deal ids give distinct property keys |
| Catalog.WriteAll | server/index.js:110-113 | writing keys in turn: all keys present, untouched keys kept, and with distinct keys each holds its value |
| Catalog.SeedViews | server/index.js:119-120 | the seeded view count is always between 100 and 999 |
| Catalog.InitFrom | server/index.js:98-100 | partners that already have a map keep it; each other partner gets its seed map |
| Catalog.InitViews | server/index.js:98-125 | every partner ends up with a view map; existing maps are kept; a partner without one gets its fresh map |
| Catalog.InitializePerkViews | server/index.js:97-127 | the same for the four seed partners |
| Catalog.FreshRedemptionsInRange | server/index.js:87-90 | every static deal's counter exists and holds its own draw, which lies in [10, 500] |
| Catalog.InitRedemptions | server/index.js:84-92 | every partner ends up with counters; existing ones are kept; a new partner's static deals each hold a count in [10, 500] |
| Catalog.InitializePerkRedemptions | server/index.js:83-94 | the same for the four seed partners |
| Catalog.PartnersSeedShaped | server/data/perks.js:54-189 | seed slugs are distinct and deal ids within each partner are distinct |
| Catalog.AldiSeedViews | server/index.js:102-113 | at start-up Aldi's five deals get 2000 views each, 10000 in total |
| Catalog.AldiSplitTotal | server/index.js:1210-1220 | writing the even split over n ≤ 10000 deals with distinct ids makes their views, as the stats read them, total exactly 10000 |
| Catalog.SharePrefixSum | server/index.js:1214-1219 | the first j shares add up to j·⌊10000/n⌋ + min(j, 10000 mod n) |
| Catalog.InitialCatalogInvariants | server/index.js:129-131 | the start-up catalog has Aldi's views totalling 10000 and distinct ids per partner |
| Catalog.InitializeViewsKeepsAldiBalanced | server/index.js:1045-1048 | running `initializePerkViews` on demand keeps Aldi's total at 10000 |
| Catalog.EnsureViews | server/index.js:1045-1048 | the on-demand view initialisation changes only views, and nothing when the partner has a map |
| Catalog.EnsureViewsKeepsInvariants | server/index.js:1106-1109 | the on-demand initialisation keeps both catalog invariants |
| Catalog.DashDealsKeepsInvariants | server/index.js:1041-1048 | the deals and stats endpoints keep both catalog invariants |
| Catalog.Row | server/index.js:1056-1075 | the row shows the id as a string, the title and description; the description stands in for a missing full description and `gift` for a missing icon; views default to 100 where none or 0 is stored, redemptions to 0 |
| Catalog.Rows | server/index.js:1056-1075 | one row per deal, in order |
| Catalog.DashDeals | server/index.js:1029-1087 | 404 exactly for an unknown partner; otherwise one row per static then dynamic deal with its id string, title, views (default 100) and redemptions (default 0), read before the on-demand initialisation |
| Catalog.Stats | server/index.js:1090-1146 | 404 exactly for an unknown partner; otherwise total and active deals both equal the number of deals |
| Catalog.TotalsAreRowSums | server/index.js:1119-1129 | the stats accumulation equals the sum of the listing's view and redemption columns |
| Catalog.StatsMatchListing | server/index.js:1116-1137 | stats and listing agree: same state, same 404, and the totals are the column sums and the row count |
| Catalog.MaxId | server/index.js:1174-1181 | `Math.max` of the ids, or 0: it bounds every id and is one of them |
| Catalog.NewDealId | server/index.js:1174-1184 | the new id exceeds every static and dynamic id of the partner; it is 1 without deals and otherwise one more than one of those ids |
| Catalog.NewDeal | server/index.js:1174-1193 | the new deal's id is larger than every id in use and the successor of one of them (1 when there is none); it carries the title and description, the full description defaulting to the description and the icon to `gift` |
| Catalog.ZeroCounter | server/index.js:1198-1202 | the new id's counter is 0; the partner's other counters and the other partners are kept |
| Catalog.RedistributeViews | server/index.js:1205-1220 | Aldi's map becomes its (initialised) map with the even split written over all its deals; other partners are kept |
| Catalog.SeedNewViews | server/index.js:1221-1228 | other partners get one seeded count for the new id; the rest is kept |
| Catalog.NewDealViews | server/index.js:1204-1228 | Aldi redistributes and any other partner seeds the new deal |
| Catalog.AddDealFor | server/index.js:1168-1228 | the new deal goes at the end of the partner's deals, no other partner's deals change, its counter is zeroed and its views are set |
| Catalog.AddDealForId | server/index.js:1174-1184 | the added deal's id is larger than every static and dynamic id of the partner and one more than one of them, or 1 when there is none |
| Catalog.AddDeal | server/index.js:1149-1253 | 404 exactly for an unknown partner, then 400 exactly for a falsy title or description, both changing nothing; otherwise the deal is added, with the id one more than the largest in use (1 when there is none) |
| Catalog.AddDealKeepsIds | server/index.js:1173-1196 | adding a deal keeps every partner's ids distinct |
| Catalog.AddDealKeepsAldiBalanced | server/index.js:1205-1220 | adding a deal keeps Aldi's views at 10000 |
| Catalog.FirstAldiDealIsSix | server/index.js:1173-1184 | the first deal Aldi adds gets id 6 |
| Catalog.PartnerRedeem | server/index.js:895-951 | 400 exactly for a falsy perkId and 404 exactly for an unknown partner, both changing nothing; a perk key that is no counter but an inherited name counts no number and only creates the partner's map; otherwise the counter under the raw segment and the perk key rises by one (from 0 if absent) and nothing else changes |
| Catalog.NumericPerkIdCounted | server/index.js:918-923 | a non-zero numeric perk id at a known partner is always counted |
| Catalog.UpperCaseRedemptionInvisible | server/index.js:907-923 | a redemption under `ALDI` succeeds but leaves the Aldi dashboard stats unchanged |
| Catalog.RedeemBeforeDeal | server/index.js:912-923 | redeeming perk 6 at Aldi counts it under key `"6"` and adds no deal |
| Catalog.AddDealResetsEarlierCount | server/index.js:1198-1202 | a count reached by redeeming id 6 before the deal exists is reset to 0 when add-perk creates deal 6 |
| Simulation.MonthlyTarget | server/index.js:1369-1383 | 200, 250, 300 for months 0 to 2; 1300 for month 3; 1500 for month 4; 1500 to 1999 after that |
| Simulation.Roast | server/index.js:1616-1637 | an emergency roast exactly from 1500, a regular one exactly from 1300 below 1500, none below 1300 |
| Simulation.RoastSchedule | server/index.js:1369-1383 | months 0 to 2 raise no roast, month 3 a regular one, months 4 on an emergency one |
| Simulation.Clamp | server/index.js:1514 | the result is in [10, 300], and a value already in range is kept |
| Simulation.ScaleOne | server/index.js:1511-1514 | a scaled amount is in [10, 300], and a negative budget sends a positive amount to 10 |
| Simulation.Scale | server/index.js:1512-1515 | every amount is scaled and lands in [10, 300] |
| Simulation.ScaleNegative | server/index.js:1509-1515 | with a negative budget every scaled amount is 10 |
| Simulation.Jitter | server/index.js:1517-1526 | the variety pass keeps nine amounts in [10, 300] and leaves all-minimum amounts unchanged |
| Simulation.Boost | server/index.js:1527-1542 | boosting never lowers an amount, keeps the unboosted ones and stays in range |
| Simulation.ClampAll | server/index.js:1555-1558 | the final clamp puts every amount in range and changes nothing already in range |
| Simulation.PaymentAmounts | server/index.js:1503-1558 | nine amounts in [10, 300]; with a target below the rent all nine are 10 |
| Simulation.EarlyMonthsAtMinimum | server/index.js:1419-1420 | in months 0 to 2 every payment is 10 and the month spends more than its target |
| Simulation.DayStamp | server/index.js:1565 | a day of a month of 2025 lies at or after the first of that month |
| Simulation.MonthsOrdered | server/index.js:1563-1565 | days 1 to 28 of a later month come strictly after those of an earlier month |
| Simulation.SimDescriptions | server/index.js:1357-1362 | every type has a non-empty description list |
| Simulation.PaymentKind | server/index.js:1567-1578 | the weighted type roll never yields rent |
| Simulation.PaymentTransaction | server/index.js:1583-1592 | a payment has a non-rent type, the given whole amount, 5% credits and a date on a day 1 to 28 of the month |
| Simulation.MonthPayments | server/index.js:1560-1595 | nine such payments |
| Simulation.MonthTransactions | server/index.js:1430-1595 | ten transactions: rent first (450, 22.5 credits, the 15th), then nine payments; exactly one rent; every credit is 5% of its amount |
| Server.InitialState | server/index.js:28-131 | the start-up state: only `user`'s 56.75 balance, no sessions or lists, and both catalog invariants |
| Server.UserLogin | server/index.js:204-255 | only the user store changes; a success stores a session of `user` under the token |
| Server.DashLogin | server/index.js:1256-1307 | only the dashboard store changes; a success stores the `admin` session named `aldi` |
| Server.PostTransaction | server/index.js:700-772 | 404 exactly without a user session, with nothing changed; otherwise the recorded ledger and balances |
| Server.GetWallet | server/index.js:775-806 | 404 exactly without a session; otherwise only the ledger changes and the reply is the user's list, newest first |
| Server.GetBalanceOf | server/index.js:809-836 | 404 exactly without a session; otherwise only balances change and the reply is the reported balance |
| Server.RedeemGeneralPerk | server/index.js:839-891 | 404 exactly without a session; otherwise only balances change |
| Server.UserOf | server/index.js:288-304 | no user exactly when the middleware answers 404; a stored session gives its `userId`, an inherited property the key `undefined` |
| Server.DashNameOf | server/index.js:337-350 | no name exactly when the middleware answers 404; a stored session gives its name; the inherited `__proto__`, and only it, gives none |
| Server.RedeemPartnerPerk | server/index.js:895-951 | 404 exactly without a session; only counters change, and a redemption appends `perk-redeemed`, with the new count when one was counted |
| Server.ListDeals | server/index.js:1029-1087 | 404 exactly without a dashboard session and 500 exactly for the nameless `__proto__` session, both changing nothing; only views can change |
| Server.DashStats | server/index.js:1090-1146 | 404 exactly without a dashboard session and 500 exactly for the nameless `__proto__` session, both changing nothing; only views can change |
| Server.AddPerk | server/index.js:1149-1253 | 404 exactly without a dashboard session and 500 exactly for the nameless `__proto__` session, both changing nothing; only the catalog and log change, and a success appends `new-deal-added` |
| Server.MonthEvents | server/index.js:1608-1637 | refresh-wallet and refresh-balance, then a roast exactly when the target reaches 1300, with its kind and threshold |
| Server.StoreMonth | server/index.js:1597-1606 | the user's list gains the month's transactions and is sorted newest first; the balance rises by their credits; other users are untouched |
| Server.OthersUntouched | server/index.js:1598-1602 | writing one user's list and balance leaves the other users' alone |
| Server.NextRun | server/index.js:1639-1656 | the next month is due; a timer is set and the run continues exactly while fewer than twelve months have run |
| Server.RunCurrentMonth | server/index.js:1410-1656 | stores the month, appends test-month-update, the month's events and, after the twelfth, test-complete; advances the run |
| Server.RunMonth | server/index.js:1388-1657 | a stop request stops the run, a finished year completes it, otherwise the current month runs |
| Server.Restarted | server/index.js:1327-1345 | the list is emptied, the balance is initialised and kept, and a fresh run record is created |
| Server.FirstMonthRuns | server/index.js:1659-1660 | the first `runMonth` after a restart runs month 0 |
| Server.FirstMonthSchedulesNext | server/index.js:1640-1648 | after month 0 the run is at month 1 with the timer set |
| Server.StartRun | server/index.js:1315-1675 | refused exactly while a run is running, with nothing changed; otherwise restarts and runs month 0 at once, leaving the timer set for month 1 |
| Server.StartTest | server/index.js:1315-1317 | 404 exactly without a session, otherwise start-test for the session's user |
| Server.Step | server/index.js:1644 | a firing timer runs `runMonth`; without a scheduled timer nothing happens |
| Server.EndRun | server/index.js:1678-1719 | with no running test nothing changes; otherwise the run is stopped, its timer cleared and test-stopped appended |
| Server.EndTest | server/index.js:1678-1680 | 404 exactly without a session, otherwise end-test for the session's user |
| Lifecycle.StoreMonthCounts | server/index.js:1597-1606 | storing a month adds its rents to the rent count and keeps the balance-minus-credits gap |
| Lifecycle.MonthStep | server/index.js:1430-1606 | one month adds ten transactions, one of them rent, and raises the balance by exactly their credits |
| Lifecycle.StartRunsFirstMonth | server/index.js:1315-1675 | start-test leaves ten transactions, one rent, the balance raised by their credits, the timer set for month 1, and exactly the events update, refresh-wallet, refresh-balance |
| Lifecycle.FirstMonthCounts | server/index.js:1337-1603 | after start-test the user has ten transactions, one rent, and the old balance plus their credits |
| Lifecycle.FirstMonthEvents | server/index.js:1423-1637 | start-test appends test-month-update 1, refresh-wallet, refresh-balance and no roast |
| Lifecycle.StepOnce | server/index.js:1640-1648 | a timer step of a run with m months done runs month m |
| Lifecycle.TraceAdvances | server/index.js:1642-1648 | every step of a timer trace within the year advances the run by one month |
| Lifecycle.TraceProgress | server/index.js:1639-1656 | k steps later the run has m + k months done, 10k more transactions, k more rents and the same gap |
| Lifecycle.FullYear | server/index.js:1639-1656 | start-test and eleven timer steps store 120 transactions, twelve rents, the balance raised by their credits; the run is then over and a further step changes nothing |
| Lifecycle.EndStopsRun | server/index.js:1691-1701 | after end-test no timer step runs a month and a new start-test is accepted |
| Lifecycle.StartKeepsRunsConsistent | server/index.js:1340-1345 | start-test keeps every run record consistent: a timer exactly while running, and then no stop pending and a month 1 to 11 next |
| Lifecycle.StepKeepsRunsConsistent | server/index.js:1639-1656 | a timer step keeps the run records consistent |
| Lifecycle.EndKeepsRunsConsistent | server/index.js:1691-1701 | end-test keeps the run records consistent |
| Lifecycle.StopBranchUnreachable | server/index.js:1389-1397 | in a consistent state a firing timer always runs a month, never the stop branch |
| Lifecycle.MintedNotInherited | server/index.js:134-136 | a minted token is never an inherited property name |
| Lifecycle.InheritedNameNoPartner | server/index.js:1031-1039 | no inherited function's name, lower-cased, is a partner's slug |
| Lifecycle.UserTokenNotDashboardToken | server/index.js:288-350 | with disjoint stores of minted tokens, a request that passes `verifySession` lists no partner's deals and changes nothing there, and a dashboard session's token gets 404 from the user endpoints |
| Lifecycle.ConstructorTokenPassesBoth | server/index.js:288-350 | the token `constructor` reads the balance of the user `undefined` and gets 'Partner not found' from the deals endpoint |
| Lifecycle.ProtoTokenFailsDashboard | server/index.js:1029-1033 | the token `__proto__` gets 500 from the deals and stats endpoints, with nothing changed |
| Lifecycle.LoginsKeepSessionsDisjoint | server/index.js:224-232 | logins with a fresh token keep the two session stores disjoint |
| Lifecycle.LoginsKeepTokensMinted | server/index.js:224-232 | logins with minted tokens keep every stored token minted |
| Client.PaymentTypeOf | src/contexts/SimulationContext.tsx:66-73 | rent exactly for `rent`, utilities exactly for `utilities`, a bill for anything else |
| Client.PaymentTypeOfName | src/contexts/SimulationContext.tsx:66-73 | spelling a payment type out and mapping it back gives the type |
| Client.TypeNameOfPaymentType | src/contexts/SimulationContext.tsx:66-73 | a type string survives the mapping exactly when it is rent, utilities or bills |
| Client.TransactionToPayment | src/contexts/SimulationContext.tsx:63-83 | mapped type and amount; id defaults to empty, credits to 0 and date to now; description, else merchant, else `Transaction`, never empty |
| Client.ServerTransactionShown | src/contexts/SimulationContext.tsx:75-81 | a stored transaction keeps its id, amount, credits and date on the client; its type is kept unless it is `payment` or unknown |
| Client.Shown | src/contexts/SimulationContext.tsx:64 | one payment per transaction of the wallet |
| Client.ShownRents | src/contexts/SimulationContext.tsx:67-68 | the client shows as many rents as the wallet holds |
| Client.MonthShowsOneRent | src/contexts/SimulationContext.tsx:66-68 | a simulated month shows exactly one rent on the client |
| Client.ExtraCount | src/contexts/SimulationContext.tsx:35 | two to five payments follow the rent |
| Client.GeneratedDescription | src/contexts/SimulationContext.tsx:42-48 | the description comes from the list of the payment's type |
| Client.Pad2 | src/contexts/SimulationContext.tsx:55 | `padStart(2, '0')` gives at least two digits, and exactly two below 100 |
| Client.DateDayOfDateOn | src/contexts/SimulationContext.tsx:55 | reading the day back out of `${monthStr}-${pad(day)}` gives the day |
| Client.RentPayment | src/contexts/SimulationContext.tsx:23-32 | the rent is 450 with 22.5 credits on the 15th |
| Client.GeneratedPayment | src/contexts/SimulationContext.tsx:36-57 | a utility or bill, a whole amount from 50 to 149 with 5% credits, a day 1 to 28, id `${offset}-${type}-${i}` |
| Client.NumberedIdsDistinct | src/contexts/SimulationContext.tsx:25-51 | the rent id and the numbered payment ids are pairwise different |
| Client.PermutedIdsDistinct | src/contexts/SimulationContext.tsx:60 | sorting keeps the ids pairwise different |
| Client.SortedMonth | src/contexts/SimulationContext.tsx:60 | the pushed payments sorted newest first |
| Client.SortedMonthContents | src/contexts/SimulationContext.tsx:23-60 | the sorted month holds the rent and every generated payment and nothing else |
| Client.SortedMonthOneRent | src/contexts/SimulationContext.tsx:23-60 | the sorted month holds exactly one rent |
| Client.GenerateMonthlyPayments | src/contexts/SimulationContext.tsx:18-61 | three to six payments: the rent and one per draw and nothing else; exactly one rent; all well formed; distinct ids; newest first, so a second sort changes nothing |

## Left out

- The AI endpoints `generate-roast` and `analyze-wellbeing` (server/index.js:354-655) call an outside service; they are not part of this model.
- The read-only endpoints `perks`, `partners`, `partners/:slug/perks`, `dash/redeems` and `dash/partner` (server/index.js:658-697, 954-1026) are not modelled; they only read the seed data and the counters.
- Socket.IO delivery: emitted events are appended to a log; connection handling and broadcast are left out.
- Express plumbing (CORS, JSON parsing, static files), `console` logging, and server.js are left out. Of the `try`/`catch` 500 replies only the one for a dashboard session without a name is modelled, without its message.
- The React provider around the two client helpers (interval, state hooks, wallet refresh) is not part of this model.
- Randomness: each `Math.random()` use is a bounded parameter. The exact distributions are not modelled, nor the retry loops that pick distinct amounts, nor the shuffle. The amount pass starts from nine amounts in [10, 300], given as a parameter.
- Floating point: amounts, credits and balances are exact reals, so `amount * 0.05` carries no rounding and NaN does not arise.
- Dates: ISO strings are epoch milliseconds. `new Date(2025, month, day)` assumes the server clock is on UTC. `toLocaleDateString`, `toISOString` and the client's `setMonth` arithmetic become the parameters `monthName`, `monthStr`, `dateText` and `now`.
- Request bodies are typed: amounts and costs are numbers and texts are strings. `perkId` may be a number or a string. Other JavaScript values (objects, booleans) are not modelled.
- `toLowerCase` is modelled for ASCII only.
- Sort ties: the insertion sort keeps equal dates in their original order, as the stable `Array.prototype.sort` does, but no contract states that order; only sortedness and the multiset are stated.
- Ledger.RecordTransaction: the `...transaction` spread of arbitrary extra body fields is left out. Only `id`, `userId`, `type`, `date` and `merchant` are modelled as overriding the defaults.
- Catalog.AddDealKeepsAldiBalanced: requires Aldi to have at most 10000 deals after the add. Beyond that the first 10000 deals get 1 and the rest 0, so the written sum is still 10000, but the stats read each 0 as the default 100 and their total exceeds 10000.
- Catalog.Row: the constant row fields `discount_percentage`, `discount_amount`, `status`, `valid_from`, `valid_to` and `category` are left out. Server.Event likewise leaves out the `month` name that `test-month-update` and `trigger-ai-roast` carry (clock text) and the constant `totalMonths` of `test-month-update`.
- Catalog.PartnerRedeem: for a perk key that names an inherited property, the string that `+= 1` stores under it is not kept and the reply carries no count; no dashboard read uses such a key.
- Sessions.Login: a login token equal to `__proto__` would replace the store's prototype instead of adding a key. Minted tokens are 64 hex digits, so this cannot happen; the model stores every token as a key.
- Server.UserOf: for an inherited property the `userId` is `undefined`. The model uses the key "undefined" throughout, including in emitted events, where JSON would drop the field.
- Client.DayKey: orders generated payments by the day of the month. This equals the `Date` ordering because all of a month's dates share `monthStr`.
- Simulation.PaymentAmounts: states range and the early-month minimum, not the exact amounts, because those depend on floating-point scaling.
