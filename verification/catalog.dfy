/** The partner catalog the server keeps beside the static seed: redemption
    counters and view counts per partner slug and deal id, and the deals a
    partner adds from its dashboard. Covers `initializePerkRedemptions`,
    `initializePerkViews`, the partner redemption endpoint and the dashboard
    deals, stats and add-perk endpoints. */
module Catalog {
  import opened Common
  import opened Seqs
  import opened PerkData

  /** `{ partnerSlug: { dealId: count } }`; inner keys are property keys, so
      strings. */
  type Counters = map<string, map<string, int>>

  datatype CatalogState = CatalogState(
    redemptions: Counters, views: Counters, dynamic: map<string, seq<Deal>>)

  /** The property key `obj[deal.id]` stores a deal under. */
  function DealKey(d: Deal): string {
    NatToString(d.id)
  }

  function DealKeys(deals: seq<Deal>): (r: seq<string>)
    ensures |r| == |deals|
    ensures forall k :: 0 <= k < |deals| ==> r[k] == DealKey(deals[k])
  {
    seq(|deals|, k requires 0 <= k < |deals| => DealKey(deals[k]))
  }

  predicate IdsDistinct(deals: seq<Deal>) {
    forall i, j :: 0 <= i < j < |deals| ==> deals[i].id != deals[j].id
  }

  /** Distinct ids give distinct property keys. */
  lemma DistinctIdsDistinctKeys(deals: seq<Deal>)
    requires IdsDistinct(deals)
    ensures Distinct(DealKeys(deals))
  {
    forall i, j | 0 <= i < j < |deals|
      ensures DealKeys(deals)[i] != DealKeys(deals)[j]
    {
      NatToStringInjective(deals[i].id, deals[j].id);
    }
  }

  /** `m[slug] || {}`. */
  function Inner(m: Counters, slug: string): map<string, int> {
    if slug in m then m[slug] else map[]
  }

  /** `dynamicDeals[slug] || []`. */
  function DynamicOf(dynamic: map<string, seq<Deal>>, slug: string): seq<Deal> {
    if slug in dynamic then dynamic[slug] else []
  }

  /** `m[key] || fallback`: a missing entry and a zero entry both read as the
      fallback. */
  function ValueOr(m: map<string, int>, key: string, fallback: int): int {
    if key in m && m[key] != 0 then m[key] else fallback
  }

  /** `keys.forEach((k, i) => m[k] = vals[i])`: later writes win, keys not
      written keep their value. */
  function WriteAll(m: map<string, int>, keys: seq<string>, vals: seq<int>): (r: map<string, int>)
    requires |keys| == |vals|
    ensures r.Keys == m.Keys + (set k | k in keys)
    ensures forall x :: x in m && x !in keys ==> r[x] == m[x]
    ensures Distinct(keys) ==> forall k :: 0 <= k < |keys| ==> r[keys[k]] == vals[k]
    decreases |keys|
  {
    if keys == [] then m
    else
      var r := WriteAll(m[keys[0] := vals[0]], keys[1..], vals[1..]);
      assert forall k :: 1 <= k < |keys| ==> keys[k] == keys[1..][k - 1];
      assert Distinct(keys) ==> Distinct(keys[1..]) && keys[0] !in keys[1..];
      r
  }

  // ---------------------------------------------------------------------
  // View formulas

  const AldiTotalViews: int := 10000

  /** `Math.floor(10000 / n) + (index < 10000 % n ? 1 : 0)`. */
  function AldiShare(n: nat, index: nat): int
    requires n > 0
  {
    AldiTotalViews / n + (if index < AldiTotalViews % n then 1 else 0)
  }

  function AldiShares(n: nat): (r: seq<int>)
    requires n > 0
    ensures |r| == n && forall i :: 0 <= i < n ==> r[i] == AldiShare(n, i)
  {
    seq(n, i requires 0 <= i < n => AldiShare(n, i))
  }

  /** `100 + ((partnerId * 1000 + dealId) % 900)`, a constant count in [100, 999]. */
  function SeedViews(partnerId: nat, dealId: nat): (v: int)
    ensures 100 <= v <= 999
  {
    100 + (partnerId * 1000 + dealId) % 900
  }

  function SeedViewList(p: Partner): (r: seq<int>)
    ensures |r| == |p.deals|
    ensures forall k :: 0 <= k < |p.deals| ==> r[k] == SeedViews(p.id, p.deals[k].id)
  {
    seq(|p.deals|, k requires 0 <= k < |p.deals| => SeedViews(p.id, p.deals[k].id))
  }

  /** The view map `initializePerkViews` builds for one partner. */
  function FreshViews(p: Partner): map<string, int> {
    if Lower(p.slug) == "aldi" then
      if |p.deals| > 0 then WriteAll(map[], DealKeys(p.deals), AldiShares(|p.deals|)) else map[]
    else WriteAll(map[], DealKeys(p.deals), SeedViewList(p))
  }

  /** No two partners of the list share a slug. */
  predicate SlugsDistinct(ps: seq<Partner>) {
    forall i, j :: 0 <= i < j < |ps| ==> ps[i].slug != ps[j].slug
  }

  /** Fills in the partners of `ps` from index `k` on that have no entry yet,
      giving partner `j` the map `seeds[j]`. */
  function InitFrom(m: Counters, ps: seq<Partner>, seeds: seq<map<string, int>>, k: nat): (r: Counters)
    requires |seeds| == |ps| && k <= |ps| && SlugsDistinct(ps)
    ensures forall j :: k <= j < |ps| ==> ps[j].slug in r
    ensures forall s :: s in m ==> s in r && r[s] == m[s]
    ensures forall j :: k <= j < |ps| && ps[j].slug !in m ==> r[ps[j].slug] == seeds[j]
    decreases |ps| - k
  {
    if k == |ps| then m
    else
      var next := if ps[k].slug in m then m else m[ps[k].slug := seeds[k]];
      InitFrom(next, ps, seeds, k + 1)
  }

  function FreshViewList(ps: seq<Partner>): (r: seq<map<string, int>>)
    ensures |r| == |ps| && forall k :: 0 <= k < |ps| ==> r[k] == FreshViews(ps[k])
  {
    seq(|ps|, k requires 0 <= k < |ps| => FreshViews(ps[k]))
  }

  /** Gives every partner of `ps` without a view map its fresh one. */
  function InitViews(views: Counters, ps: seq<Partner>): (r: Counters)
    requires SlugsDistinct(ps)
    ensures forall j :: 0 <= j < |ps| ==> ps[j].slug in r
    ensures forall s :: s in views ==> s in r && r[s] == views[s]
    ensures forall j :: 0 <= j < |ps| && ps[j].slug !in views ==> r[ps[j].slug] == FreshViews(ps[j])
  {
    InitFrom(views, ps, FreshViewList(ps), 0)
  }

  lemma PartnersSlugsDistinct()
    ensures SlugsDistinct(Partners)
  {
    PartnersShape();
  }

  /** `initializePerkViews()`: every partner without a view map gets its
      fresh one; existing maps are kept. */
  function InitializePerkViews(views: Counters): (r: Counters)
    ensures forall j :: 0 <= j < |Partners| ==> Partners[j].slug in r
    ensures forall s :: s in views ==> s in r && r[s] == views[s]
    ensures forall j :: 0 <= j < |Partners| && Partners[j].slug !in views ==>
              r[Partners[j].slug] == FreshViews(Partners[j])
  {
    PartnersSlugsDistinct();
    InitViews(views, Partners)
  }

  // ---------------------------------------------------------------------
  // Redemption seeding

  /** One draw per static deal, each `Math.floor(Math.random() * 491) + 10`. */
  predicate DrawsFit(ps: seq<Partner>, draws: seq<seq<int>>) {
    && |draws| == |ps|
    && forall k :: 0 <= k < |ps| ==>
         |draws[k]| == |ps[k].deals|
         && forall i :: 0 <= i < |draws[k]| ==> 10 <= draws[k][i] <= 500
  }

  predicate ValidRedemptionDraws(draws: seq<seq<int>>) {
    DrawsFit(Partners, draws)
  }

  function FreshRedemptionList(ps: seq<Partner>, draws: seq<seq<int>>): (r: seq<map<string, int>>)
    requires |draws| == |ps| && forall k :: 0 <= k < |ps| ==> |draws[k]| == |ps[k].deals|
    ensures |r| == |ps|
    ensures forall k :: 0 <= k < |ps| ==> r[k] == WriteAll(map[], DealKeys(ps[k].deals), draws[k])
  {
    seq(|ps|, k requires 0 <= k < |ps| => WriteAll(map[], DealKeys(ps[k].deals), draws[k]))
  }

  /** The counters a partner gets: every static deal's key holds its own
      draw, which lies in [10, 500]. */
  lemma FreshRedemptionsInRange(deals: seq<Deal>, draws: seq<int>)
    requires IdsDistinct(deals) && |draws| == |deals|
    requires forall i :: 0 <= i < |draws| ==> 10 <= draws[i] <= 500
    ensures forall i :: 0 <= i < |deals| ==>
              DealKey(deals[i]) in WriteAll(map[], DealKeys(deals), draws)
              && WriteAll(map[], DealKeys(deals), draws)[DealKey(deals[i])] == draws[i]
              && 10 <= WriteAll(map[], DealKeys(deals), draws)[DealKey(deals[i])] <= 500
  {
    DistinctIdsDistinctKeys(deals);
    var w := WriteAll(map[], DealKeys(deals), draws);
    forall i | 0 <= i < |deals|
      ensures DealKey(deals[i]) in w && w[DealKey(deals[i])] == draws[i] && 10 <= w[DealKey(deals[i])] <= 500
    {
      assert DealKeys(deals)[i] == DealKey(deals[i]);
      assert DealKeys(deals)[i] in DealKeys(deals);
    }
  }

  /** Distinct slugs, and distinct deal ids within each partner. */
  predicate SeedShaped(ps: seq<Partner>) {
    SlugsDistinct(ps) && forall k :: 0 <= k < |ps| ==> IdsDistinct(ps[k].deals)
  }

  lemma PartnersSeedShaped()
    ensures SeedShaped(Partners)
  {
    PartnersShape();
    SeedDealsShape();
    forall k | 0 <= k < |Partners|
      ensures IdsDistinct(Partners[k].deals)
    {
      assert NumberedFromOne(Partners[k].deals);
    }
  }

  /** Gives every partner of `ps` without counters one counter per static
      deal, holding that deal's draw. */
  function InitRedemptions(redemptions: Counters, ps: seq<Partner>, draws: seq<seq<int>>): (r: Counters)
    requires SeedShaped(ps) && DrawsFit(ps, draws)
    ensures forall j :: 0 <= j < |ps| ==> ps[j].slug in r
    ensures forall s :: s in redemptions ==> s in r && r[s] == redemptions[s]
    ensures forall j, i :: 0 <= j < |ps| && ps[j].slug !in redemptions && 0 <= i < |ps[j].deals| ==>
              (DealKey(ps[j].deals[i]) in r[ps[j].slug]
               && 10 <= r[ps[j].slug][DealKey(ps[j].deals[i])] <= 500)
  {
    var r := InitFrom(redemptions, ps, FreshRedemptionList(ps, draws), 0);
    forall j | 0 <= j < |ps|
      ensures forall i :: 0 <= i < |ps[j].deals| ==>
                (DealKey(ps[j].deals[i]) in WriteAll(map[], DealKeys(ps[j].deals), draws[j])
                 && 10 <= WriteAll(map[], DealKeys(ps[j].deals), draws[j])[DealKey(ps[j].deals[i])] <= 500)
    {
      FreshRedemptionsInRange(ps[j].deals, draws[j]);
    }
    r
  }

  /** `initializePerkRedemptions()`: a partner without counters gets one
      counter per static deal, each a draw in [10, 500]. */
  function InitializePerkRedemptions(redemptions: Counters, draws: seq<seq<int>>): (r: Counters)
    requires ValidRedemptionDraws(draws)
    ensures forall j :: 0 <= j < |Partners| ==> Partners[j].slug in r
    ensures forall s :: s in redemptions ==> s in r && r[s] == redemptions[s]
    ensures forall j, i ::
              (0 <= j < |Partners| && Partners[j].slug !in redemptions && 0 <= i < |Partners[j].deals|) ==>
              (DealKey(Partners[j].deals[i]) in r[Partners[j].slug]
               && 10 <= r[Partners[j].slug][DealKey(Partners[j].deals[i])] <= 500)
  {
    PartnersSeedShaped();
    InitRedemptions(redemptions, Partners, draws)
  }

  /** The catalog right after the server starts. */
  function InitialCatalog(draws: seq<seq<int>>): CatalogState
    requires ValidRedemptionDraws(draws)
  {
    CatalogState(InitializePerkRedemptions(map[], draws), InitializePerkViews(map[]), map[])
  }

  // ---------------------------------------------------------------------
  // Dashboard listing and stats

  /** Static deals followed by the deals added from the dashboard. */
  function AllDeals(cat: CatalogState, p: Partner): seq<Deal> {
    p.deals + DynamicOf(cat.dynamic, p.slug)
  }

  /** One row of `GET /api/dash/deals`. */
  datatype DealRow = DealRow(
    id: string, title: string, description: string, fullDescription: string,
    icon: string, views: int, redemptions: int)

  /** A deal as the listing shows it: the id as a string, the description
      standing in for a missing full description, `gift` for a missing icon,
      and 100 views or 0 redemptions where no non-zero count is stored. */
  function Row(d: Deal, views: map<string, int>, redemptions: map<string, int>): (r: DealRow)
    ensures r.id == DealKey(d) && r.title == d.title && r.description == d.description
    ensures d.fullDescription != "" ==> r.fullDescription == d.fullDescription
    ensures d.fullDescription == "" ==> r.fullDescription == d.description
    ensures d.icon != "" ==> r.icon == d.icon
    ensures d.icon == "" ==> r.icon == "gift"
    ensures DealKey(d) in views && views[DealKey(d)] != 0 ==> r.views == views[DealKey(d)]
    ensures !(DealKey(d) in views && views[DealKey(d)] != 0) ==> r.views == 100
    ensures DealKey(d) in redemptions ==> r.redemptions == redemptions[DealKey(d)]
    ensures DealKey(d) !in redemptions ==> r.redemptions == 0
  {
    DealRow(DealKey(d), d.title, d.description,
            if d.fullDescription != "" then d.fullDescription else d.description,
            if d.icon != "" then d.icon else "gift",
            ValueOr(views, DealKey(d), 100), ValueOr(redemptions, DealKey(d), 0))
  }

  function Rows(deals: seq<Deal>, views: map<string, int>, redemptions: map<string, int>)
    : (r: seq<DealRow>)
    ensures |r| == |deals|
    ensures forall k :: 0 <= k < |deals| ==> r[k] == Row(deals[k], views, redemptions)
  {
    seq(|deals|, k requires 0 <= k < |deals| => Row(deals[k], views, redemptions))
  }

  function RowViews(rows: seq<DealRow>): (r: seq<int>)
    ensures |r| == |rows| && forall k :: 0 <= k < |rows| ==> r[k] == rows[k].views
  {
    seq(|rows|, k requires 0 <= k < |rows| => rows[k].views)
  }

  function RowRedemptions(rows: seq<DealRow>): (r: seq<int>)
    ensures |r| == |rows| && forall k :: 0 <= k < |rows| ==> r[k] == rows[k].redemptions
  {
    seq(|rows|, k requires 0 <= k < |rows| => rows[k].redemptions)
  }

  /** The `forEach` accumulation of the stats endpoint: views default to 100. */
  function TotalViews(deals: seq<Deal>, views: map<string, int>): int {
    if deals == [] then 0
    else TotalViews(deals[..|deals| - 1], views) + ValueOr(views, DealKey(deals[|deals| - 1]), 100)
  }

  /** The same accumulation for redemptions, which default to 0. */
  function TotalRedemptions(deals: seq<Deal>, redemptions: map<string, int>): int {
    if deals == [] then 0
    else TotalRedemptions(deals[..|deals| - 1], redemptions)
         + ValueOr(redemptions, DealKey(deals[|deals| - 1]), 0)
  }

  datatype DealsReply = DealsNotFound | DealsListed(rows: seq<DealRow>)

  /** The handlers read the partner's maps first and only then run
      `initializePerkViews()` if the partner had no view map. */
  function EnsureViews(cat: CatalogState, slug: string): (r: CatalogState)
    ensures r.redemptions == cat.redemptions && r.dynamic == cat.dynamic
    ensures slug in cat.views ==> r == cat
  {
    if slug in cat.views then cat else cat.(views := InitializePerkViews(cat.views))
  }

  /** `GET /api/dash/deals` for the dashboard session named `dashName`. */
  function DashDeals(cat: CatalogState, dashName: string): (r: (CatalogState, DealsReply))
    ensures r.1.DealsNotFound? <==> FindPartner(Lower(dashName)).None?
    ensures r.1.DealsNotFound? ==> r.0 == cat
    ensures r.1.DealsListed? ==>
              var p := FindPartner(Lower(dashName)).value;
              && r.0 == EnsureViews(cat, p.slug)
              && |r.1.rows| == |AllDeals(cat, p)|
              && forall k :: 0 <= k < |r.1.rows| ==>
                   && r.1.rows[k].id == NatToString(AllDeals(cat, p)[k].id)
                   && r.1.rows[k].title == AllDeals(cat, p)[k].title
                   && r.1.rows[k].views == ValueOr(Inner(cat.views, p.slug), DealKey(AllDeals(cat, p)[k]), 100)
                   && r.1.rows[k].redemptions
                        == ValueOr(Inner(cat.redemptions, p.slug), DealKey(AllDeals(cat, p)[k]), 0)
  {
    var found := FindPartner(Lower(dashName));
    if found.None? then (cat, DealsNotFound)
    else
      var p := found.value;
      var rows := Rows(AllDeals(cat, p), Inner(cat.views, p.slug), Inner(cat.redemptions, p.slug));
      (EnsureViews(cat, p.slug), DealsListed(rows))
  }

  datatype StatsReply =
    | StatsNotFound
    | StatsTotals(totalDeals: nat, activeDeals: nat, totalViews: int, totalRedemptions: int)

  /** `GET /api/dash/stats`: every deal counts as active. */
  function Stats(cat: CatalogState, dashName: string): (r: (CatalogState, StatsReply))
    ensures r.1.StatsNotFound? <==> FindPartner(Lower(dashName)).None?
    ensures r.1.StatsNotFound? ==> r.0 == cat
    ensures r.1.StatsTotals? ==>
              var p := FindPartner(Lower(dashName)).value;
              && r.0 == EnsureViews(cat, p.slug)
              && r.1.totalDeals == r.1.activeDeals == |AllDeals(cat, p)|
  {
    var found := FindPartner(Lower(dashName));
    if found.None? then (cat, StatsNotFound)
    else
      var p := found.value;
      var deals := AllDeals(cat, p);
      (EnsureViews(cat, p.slug),
       StatsTotals(|deals|, |deals|, TotalViews(deals, Inner(cat.views, p.slug)),
                   TotalRedemptions(deals, Inner(cat.redemptions, p.slug))))
  }

  lemma {:induction false} TotalsAreRowSums(deals: seq<Deal>, views: map<string, int>,
                                            redemptions: map<string, int>)
    ensures TotalViews(deals, views) == SumInt(RowViews(Rows(deals, views, redemptions)))
    ensures TotalRedemptions(deals, redemptions)
              == SumInt(RowRedemptions(Rows(deals, views, redemptions)))
  {
    if deals != [] {
      var n := |deals|;
      var front := deals[..n - 1];
      TotalsAreRowSums(front, views, redemptions);
      var rows := Rows(deals, views, redemptions);
      assert RowViews(rows)[..n - 1] == RowViews(Rows(front, views, redemptions));
      assert RowRedemptions(rows)[..n - 1] == RowRedemptions(Rows(front, views, redemptions));
    }
  }

  /** The stats totals are the sums of the view and redemption columns of
      the deals listing, and the deal count is its length. */
  lemma StatsMatchListing(cat: CatalogState, dashName: string)
    ensures Stats(cat, dashName).0 == DashDeals(cat, dashName).0
    ensures Stats(cat, dashName).1.StatsNotFound? <==> DashDeals(cat, dashName).1.DealsNotFound?
    ensures DashDeals(cat, dashName).1.DealsListed? ==>
              var rows := DashDeals(cat, dashName).1.rows;
              Stats(cat, dashName).1
                == StatsTotals(|rows|, |rows|, SumInt(RowViews(rows)), SumInt(RowRedemptions(rows)))
  {
    var found := FindPartner(Lower(dashName));
    if found.Some? {
      var p := found.value;
      TotalsAreRowSums(AllDeals(cat, p), Inner(cat.views, p.slug), Inner(cat.redemptions, p.slug));
    }
  }

  // ---------------------------------------------------------------------
  // Aldi's views always total 10000

  lemma {:induction false} SharePrefixSum(deals: seq<Deal>, m: map<string, int>, n: nat, j: nat)
    requires 0 < n == |deals| && j <= n
    requires forall k :: 0 <= k < n ==> ValueOr(m, DealKey(deals[k]), 100) == AldiShare(n, k)
    ensures TotalViews(deals[..j], m) == j * (AldiTotalViews / n) + Min(j, AldiTotalViews % n)
  {
    if j > 0 {
      var share := ValueOr(m, DealKey(deals[j - 1]), 100);
      assert TotalViews(deals[..j], m) == TotalViews(deals[..j - 1], m) + share by {
        assert deals[..j][..j - 1] == deals[..j - 1];
        assert deals[..j][j - 1] == deals[j - 1];
      }
      SharePrefixSum(deals, m, n, j - 1);
      ShareStep(j, AldiTotalViews / n, AldiTotalViews % n);
    }
  }

  /** Adding the `j`-th share to the first `j - 1`. */
  lemma ShareStep(j: nat, q: int, rest: int)
    requires j > 0
    ensures (j - 1) * q + Min(j - 1, rest) + (q + if j - 1 < rest then 1 else 0) == j * q + Min(j, rest)
  {
    assert (j - 1) * q + q == j * q;
  }

  /** Writing the even split over `n <= 10000` deals with distinct ids makes
      their views, as the stats endpoint reads them, add up to exactly 10000. */
  lemma AldiSplitTotal(deals: seq<Deal>, m: map<string, int>)
    requires IdsDistinct(deals) && 0 < |deals| <= AldiTotalViews
    ensures TotalViews(deals, WriteAll(m, DealKeys(deals), AldiShares(|deals|))) == AldiTotalViews
  {
    var n := |deals|;
    var w := WriteAll(m, DealKeys(deals), AldiShares(n));
    DistinctIdsDistinctKeys(deals);
    SplitArithmetic(n);
    forall k | 0 <= k < n
      ensures ValueOr(w, DealKey(deals[k]), 100) == AldiShare(n, k)
    {
      assert w[DealKeys(deals)[k]] == AldiShares(n)[k];
      assert DealKeys(deals)[k] in DealKeys(deals);
    }
    SharePrefixSum(deals, w, n, n);
    assert deals[..n] == deals;
  }

  lemma SplitArithmetic(n: nat)
    requires 0 < n <= AldiTotalViews
    ensures AldiTotalViews / n >= 1 && AldiTotalViews % n < n
    ensures n * (AldiTotalViews / n) + AldiTotalViews % n == AldiTotalViews
  {
  }

  /** At start-up Aldi's five deals get 2000 views each. */
  lemma AldiSeedViews()
    ensures forall i :: 0 <= i < 5 ==> FreshViews(Partners[0])[DealKey(AldiDeals[i])] == 2000
    ensures TotalViews(AldiDeals, FreshViews(Partners[0])) == AldiTotalViews
  {
    SeedDealsShape();
    assert Lower("aldi") == "aldi";
    DistinctIdsDistinctKeys(AldiDeals);
    var w := WriteAll(map[], DealKeys(AldiDeals), AldiShares(5));
    assert forall i :: 0 <= i < 5 ==> w[DealKeys(AldiDeals)[i]] == AldiShares(5)[i];
    AldiSplitTotal(AldiDeals, map[]);
  }

  /** The two view invariants: Aldi's views total 10000 whenever Aldi has a
      view map (and it has one before any deal is added), and no partner's
      deal ids repeat. */
  predicate AldiBalanced(cat: CatalogState) {
    && ("aldi" !in cat.views ==> DynamicOf(cat.dynamic, "aldi") == [])
    && ("aldi" in cat.views ==> TotalViews(AllDeals(cat, Partners[0]), cat.views["aldi"]) == AldiTotalViews)
  }

  predicate IdsWellFormed(cat: CatalogState) {
    forall k :: 0 <= k < |Partners| ==> IdsDistinct(AllDeals(cat, Partners[k]))
  }

  /** Aldi is the first partner; its deals are the five Aldi seed deals. */
  lemma AldiFirst()
    ensures Partners[0].slug == "aldi" && Partners[0].deals == AldiDeals
  {
  }

  /** After `initializePerkViews()` Aldi's view map is the one it had, or
      the seeded one if it had none. */
  lemma InitViewsAldi(views: Counters)
    ensures "aldi" in InitializePerkViews(views)
    ensures InitializePerkViews(views)["aldi"]
              == if "aldi" in views then views["aldi"] else FreshViews(Partners[0])
  {
    AldiFirst();
  }

  /** Initialising views keeps Aldi balanced. */
  lemma InitializeViewsKeepsAldiBalanced(cat: CatalogState)
    requires AldiBalanced(cat)
    ensures AldiBalanced(cat.(views := InitializePerkViews(cat.views)))
  {
    InitViewsAldi(cat.views);
    if "aldi" !in cat.views {
      AldiSeedViews();
      AldiFirst();
      assert AllDeals(cat, Partners[0]) == AldiDeals;
    }
  }

  lemma InitialCatalogBalanced(draws: seq<seq<int>>)
    requires ValidRedemptionDraws(draws)
    ensures AldiBalanced(InitialCatalog(draws))
  {
    var empty := CatalogState(InitializePerkRedemptions(map[], draws), map[], map[]);
    InitializeViewsKeepsAldiBalanced(empty);
    assert InitialCatalog(draws) == empty.(views := InitializePerkViews(map[]));
  }

  lemma InitialCatalogIds(draws: seq<seq<int>>)
    requires ValidRedemptionDraws(draws)
    ensures IdsWellFormed(InitialCatalog(draws))
  {
    NoDynamicDealsIds(InitialCatalog(draws));
  }

  /** Without dashboard deals, every partner's deals are its distinct seed deals. */
  lemma NoDynamicDealsIds(cat: CatalogState)
    requires cat.dynamic == map[]
    ensures IdsWellFormed(cat)
  {
    PartnersSeedShaped();
    forall k | 0 <= k < |Partners|
      ensures IdsDistinct(AllDeals(cat, Partners[k]))
    {
      assert AllDeals(cat, Partners[k]) == Partners[k].deals;
    }
  }

  /** The catalog the server starts with satisfies both view invariants. */
  lemma InitialCatalogInvariants(draws: seq<seq<int>>)
    requires ValidRedemptionDraws(draws)
    ensures AldiBalanced(InitialCatalog(draws)) && IdsWellFormed(InitialCatalog(draws))
  {
    InitialCatalogBalanced(draws);
    InitialCatalogIds(draws);
  }

  lemma DashDealsKeepsInvariants(cat: CatalogState, dashName: string)
    requires AldiBalanced(cat) && IdsWellFormed(cat)
    ensures AldiBalanced(DashDeals(cat, dashName).0) && IdsWellFormed(DashDeals(cat, dashName).0)
    ensures AldiBalanced(Stats(cat, dashName).0) && IdsWellFormed(Stats(cat, dashName).0)
  {
    var found := FindPartner(Lower(dashName));
    if found.Some? {
      EnsureViewsKeepsInvariants(cat, found.value.slug);
    }
  }

  /** Creating the view maps on demand keeps both invariants. */
  lemma EnsureViewsKeepsInvariants(cat: CatalogState, slug: string)
    requires AldiBalanced(cat) && IdsWellFormed(cat)
    ensures AldiBalanced(EnsureViews(cat, slug)) && IdsWellFormed(EnsureViews(cat, slug))
  {
    if slug !in cat.views {
      InitializeViewsKeepsAldiBalanced(cat);
      ViewsDoNotTouchIds(cat, InitializePerkViews(cat.views));
    }
  }

  /** The ids invariant reads only the dynamic deals. */
  lemma ViewsDoNotTouchIds(cat: CatalogState, views: Counters)
    requires IdsWellFormed(cat)
    ensures IdsWellFormed(cat.(views := views))
  {
    forall k | 0 <= k < |Partners|
      ensures IdsDistinct(AllDeals(cat.(views := views), Partners[k]))
    {
      assert AllDeals(cat.(views := views), Partners[k]) == AllDeals(cat, Partners[k]);
    }
  }

  // ---------------------------------------------------------------------
  // POST /api/dash/add-perk

  datatype DealInput = DealInput(
    title: Option<string>, description: Option<string>,
    fullDescription: Option<string>, icon: Option<string>)

  datatype AddReply = AddNotFound | AddMissingFields | DealAdded(deal: Deal)

  /** `Math.max(...ids)` for a non-empty list, 0 for an empty one. */
  function MaxId(deals: seq<Deal>): (r: nat)
    ensures forall k :: 0 <= k < |deals| ==> deals[k].id <= r
    ensures deals == [] ==> r == 0
    ensures deals != [] ==> exists k :: 0 <= k < |deals| && deals[k].id == r
  {
    if deals == [] then 0
    else
      var front := MaxId(deals[..|deals| - 1]);
      assert forall k :: 0 <= k < |deals| - 1 ==> deals[..|deals| - 1][k] == deals[k];
      if |deals| == 1 || deals[|deals| - 1].id >= front then deals[|deals| - 1].id else front
  }

  /** One more than the largest static or dynamic id: larger than every id
      in use, 1 when there is none, and otherwise the successor of one of them. */
  function NewDealId(fixed: seq<Deal>, added: seq<Deal>): (id: nat)
    ensures forall k :: 0 <= k < |fixed + added| ==> (fixed + added)[k].id < id
    ensures fixed + added == [] ==> id == 1
    ensures fixed + added != [] ==> exists k :: 0 <= k < |fixed + added| && (fixed + added)[k].id == id - 1
  {
    assert forall k :: 0 <= k < |fixed| ==> (fixed + added)[k] == fixed[k];
    assert forall k :: 0 <= k < |added| ==> (fixed + added)[|fixed| + k] == added[k];
    Max(MaxId(fixed), MaxId(added)) + 1
  }

  /** The deal add-perk creates: the next free id, and the defaults `gift`
      for the icon and the description for the full description. */
  function NewDeal(p: Partner, added: seq<Deal>, input: DealInput): (d: Deal)
    requires Truthy(input.title) && Truthy(input.description)
    ensures forall k :: 0 <= k < |p.deals + added| ==> (p.deals + added)[k].id < d.id
    ensures p.deals + added == [] ==> d.id == 1
    ensures p.deals + added != [] ==>
              exists k :: 0 <= k < |p.deals + added| && (p.deals + added)[k].id == d.id - 1
    ensures d.title == input.title.value && d.description == input.description.value
    ensures d.fullDescription
              == (if Truthy(input.fullDescription) then input.fullDescription.value else d.description)
    ensures d.icon == (if Truthy(input.icon) then input.icon.value else "gift")
  {
    var description := input.description.value;
    var full := if Truthy(input.fullDescription) then input.fullDescription.value else description;
    var icon := if Truthy(input.icon) then input.icon.value else "gift";
    Deal(NewDealId(p.deals, added), input.title.value, description, icon, full)
  }

  /** `perkRedemptions[slug][newDealId] = 0`, creating the partner's map if needed. */
  function ZeroCounter(redemptions: Counters, slug: string, key: string): (r: Counters)
    ensures slug in r && key in r[slug] && r[slug][key] == 0
    ensures forall k :: k in Inner(redemptions, slug) && k != key ==>
              k in r[slug] && r[slug][k] == Inner(redemptions, slug)[k]
    ensures forall s :: s in redemptions && s != slug ==> s in r && r[s] == redemptions[s]
  {
    redemptions[slug := Inner(redemptions, slug)[key := 0]]
  }

  /** After `initializePerkViews()` Aldi has a view map. */
  lemma AldiHasViews(views: Counters)
    ensures "aldi" in InitializePerkViews(views)
  {
    PartnersShape();
    assert Partners[0].slug == "aldi";
  }

  /** The Aldi branch: make sure view maps exist, then write the even split
      of 10000 over all of Aldi's deals. */
  function RedistributeViews(views: Counters, all: seq<Deal>): (r: Counters)
    requires |all| > 0
    ensures "aldi" in InitializePerkViews(views) && "aldi" in r
    ensures r["aldi"] == WriteAll(InitializePerkViews(views)["aldi"], DealKeys(all), AldiShares(|all|))
    ensures forall s :: s in views && s != "aldi" ==> s in r && r[s] == views[s]
  {
    AldiHasViews(views);
    var base := if "aldi" in views then views else InitializePerkViews(views);
    base["aldi" := WriteAll(base["aldi"], DealKeys(all), AldiShares(|all|))]
  }

  /** The other partners: one seeded view count for the new deal. */
  function SeedNewViews(views: Counters, p: Partner, d: Deal): (r: Counters)
    ensures p.slug in r && DealKey(d) in r[p.slug] && r[p.slug][DealKey(d)] == SeedViews(p.id, d.id)
    ensures forall s :: s in views && s != p.slug ==> s in r && r[s] == views[s]
  {
    views[p.slug := Inner(views, p.slug)[DealKey(d) := SeedViews(p.id, d.id)]]
  }

  /** The views after adding the last deal of `all` to partner `p`. */
  function NewDealViews(views: Counters, p: Partner, all: seq<Deal>): (r: Counters)
    requires |all| > 0
    ensures p.slug == "aldi" ==> r == RedistributeViews(views, all)
    ensures p.slug != "aldi" ==> r == SeedNewViews(views, p, all[|all| - 1])
  {
    if p.slug == "aldi" then RedistributeViews(views, all) else SeedNewViews(views, p, all[|all| - 1])
  }

  lemma AppendAssoc<T>(a: seq<T>, b: seq<T>, c: seq<T>)
    ensures a + (b + c) == (a + b) + c
  {
  }

  /** Adds a validated deal to partner `p`: the deal goes at the end of the
      partner's dynamic list, its counter starts at 0, and its views are
      either the Aldi split over all deals or one seeded count. */
  function AddDealFor(cat: CatalogState, p: Partner, input: DealInput): (r: (CatalogState, Deal))
    requires Truthy(input.title) && Truthy(input.description)
    ensures r.1 == NewDeal(p, DynamicOf(cat.dynamic, p.slug), input)
    ensures AllDeals(r.0, p) == AllDeals(cat, p) + [r.1]
    ensures forall s :: s != p.slug ==> DynamicOf(r.0.dynamic, s) == DynamicOf(cat.dynamic, s)
    ensures r.0.redemptions == ZeroCounter(cat.redemptions, p.slug, DealKey(r.1))
    ensures r.0.views == NewDealViews(cat.views, p, AllDeals(cat, p) + [r.1])
  {
    var dyn := DynamicOf(cat.dynamic, p.slug);
    var d := NewDeal(p, dyn, input);
    var all := AllDeals(cat, p) + [d];
    var next := CatalogState(ZeroCounter(cat.redemptions, p.slug, DealKey(d)),
                             NewDealViews(cat.views, p, all),
                             cat.dynamic[p.slug := dyn + [d]]);
    assert DynamicOf(next.dynamic, p.slug) == dyn + [d];
    AppendAssoc(p.deals, dyn, [d]);
    (next, d)
  }

  /** The added deal's id is `max + 1` over all of the partner's deals, or 1
      when it has none. */
  lemma AddDealForId(cat: CatalogState, p: Partner, input: DealInput)
    requires Truthy(input.title) && Truthy(input.description)
    ensures var all := AllDeals(cat, p);
            var id := AddDealFor(cat, p, input).1.id;
            && (forall k :: 0 <= k < |all| ==> all[k].id < id)
            && (all == [] ==> id == 1)
            && (all != [] ==> exists k :: 0 <= k < |all| && all[k].id == id - 1)
  {
    var d := NewDeal(p, DynamicOf(cat.dynamic, p.slug), input);
    assert AddDealFor(cat, p, input).1 == d;
  }

  /** `POST /api/dash/add-perk` for the dashboard session named `dashName`:
      404 for an unknown partner, then 400 for a missing title or description. */
  function AddDeal(cat: CatalogState, dashName: string, input: DealInput): (r: (CatalogState, AddReply))
    ensures r.1.AddNotFound? <==> FindPartner(Lower(dashName)).None?
    ensures r.1.AddMissingFields? <==>
              FindPartner(Lower(dashName)).Some? && (!Truthy(input.title) || !Truthy(input.description))
    ensures !r.1.DealAdded? ==> r.0 == cat
    ensures r.1.DealAdded? ==>
              var added := AddDealFor(cat, FindPartner(Lower(dashName)).value, input);
              r.0 == added.0 && r.1.deal == added.1
    ensures r.1.DealAdded? ==>
              var all := AllDeals(cat, FindPartner(Lower(dashName)).value);
              && (forall k :: 0 <= k < |all| ==> all[k].id < r.1.deal.id)
              && (all == [] ==> r.1.deal.id == 1)
              && (all != [] ==> exists k :: 0 <= k < |all| && all[k].id == r.1.deal.id - 1)
  {
    var found := FindPartner(Lower(dashName));
    if found.None? then (cat, AddNotFound)
    else if !Truthy(input.title) || !Truthy(input.description) then (cat, AddMissingFields)
    else
      var (next, d) := AddDealFor(cat, found.value, input);
      AddDealForId(cat, found.value, input);
      (next, DealAdded(d))
  }

  /** Partners are identified by their slug. */
  lemma SameSlugSamePartner(k: nat, p: Partner)
    requires k < |Partners| && p in Partners && Partners[k].slug == p.slug
    ensures Partners[k] == p
  {
    PartnersShape();
  }

  lemma AppendFreshId(deals: seq<Deal>, d: Deal)
    requires IdsDistinct(deals)
    requires forall k :: 0 <= k < |deals| ==> deals[k].id < d.id
    ensures IdsDistinct(deals + [d])
  {
  }

  /** Adding a deal keeps every partner's ids distinct. */
  lemma AddDealKeepsIds(cat: CatalogState, dashName: string, input: DealInput)
    requires IdsWellFormed(cat)
    ensures IdsWellFormed(AddDeal(cat, dashName, input).0)
  {
    var (next, reply) := AddDeal(cat, dashName, input);
    if reply.DealAdded? {
      var p := FindPartner(Lower(dashName)).value;
      forall k | 0 <= k < |Partners|
        ensures IdsDistinct(AllDeals(next, Partners[k]))
      {
        if Partners[k].slug == p.slug {
          SameSlugSamePartner(k, p);
          AppendFreshId(AllDeals(cat, p), reply.deal);
        } else {
          assert AllDeals(next, Partners[k]) == AllDeals(cat, Partners[k]);
        }
      }
    }
  }

  /** Adding a deal keeps Aldi's views at 10000, as long as Aldi has at most
      10000 deals afterwards. */
  lemma AddDealKeepsAldiBalanced(cat: CatalogState, dashName: string, input: DealInput)
    requires AldiBalanced(cat) && IdsWellFormed(cat)
    requires |AllDeals(AddDeal(cat, dashName, input).0, Partners[0])| <= AldiTotalViews
    ensures AldiBalanced(AddDeal(cat, dashName, input).0)
  {
    var (next, reply) := AddDeal(cat, dashName, input);
    if reply.DealAdded? {
      var p := FindPartner(Lower(dashName)).value;
      PartnersShape();
      if p.slug == "aldi" {
        SameSlugSamePartner(0, p);
        AddDealKeepsIds(cat, dashName, input);
        var all := AllDeals(next, p);
        AldiSplitTotal(all, InitializePerkViews(cat.views)[p.slug]);
      } else {
        assert "aldi" == Partners[0].slug;
        assert AllDeals(next, Partners[0]) == AllDeals(cat, Partners[0]);
        assert "aldi" in next.views <==> "aldi" in cat.views;
      }
    }
  }

  /** The first deal Aldi adds gets id 6. */
  lemma FirstAldiDealIsSix(cat: CatalogState, input: DealInput)
    requires DynamicOf(cat.dynamic, "aldi") == []
    requires Truthy(input.title) && Truthy(input.description)
    ensures AddDeal(cat, "aldi", input).1.DealAdded?
    ensures AddDeal(cat, "aldi", input).1.deal.id == 6
  {
    FindPartnerBySlug(0);
    assert Lower("aldi") == "aldi";
    SeedDealsShape();
    var ids := [AldiDeals[0], AldiDeals[1], AldiDeals[2], AldiDeals[3], AldiDeals[4]];
    assert MaxId(AldiDeals) == 5 by {
      assert forall k :: 0 <= k < 5 ==> AldiDeals[k].id <= 5;
      assert AldiDeals[4].id == 5;
    }
  }

  // ---------------------------------------------------------------------
  // POST /api/user/:partner/redeem-perks

  datatype PartnerRedeemReply =
    | PerkIdRequired                                                 // 400
    | PartnerNotFound                                                // 404
    | PartnerRedeemed(partner: string, perkId: BodyValue, count: int)
    | RedeemedWithoutCount(partner: string, perkId: BodyValue)       // 200, no number counted

  /** Increments the counter stored under the raw path segment `segment`,
      after checking that some partner's slug matches it case-insensitively.
      A perk key that is no counter yet but names an inherited property
      finds a truthy value, so it is not set to 0 first, and `+= 1` then
      yields no number: a string for a function, while an assignment to
      `__proto__` is dropped. Only the partner's map is created then. */
  function PartnerRedeem(cat: CatalogState, segment: string, perkId: BodyValue)
    : (r: (CatalogState, PartnerRedeemReply))
    ensures r.1.PerkIdRequired? <==> !BodyTruthy(perkId)
    ensures r.1.PartnerNotFound? <==> BodyTruthy(perkId) && FindPartner(Lower(segment)).None?
    ensures r.1.RedeemedWithoutCount? <==>
              && BodyTruthy(perkId) && FindPartner(Lower(segment)).Some?
              && BodyKey(perkId) !in Inner(cat.redemptions, segment) && BodyKey(perkId) in InheritedNames
    ensures r.1.PerkIdRequired? || r.1.PartnerNotFound? ==> r.0 == cat
    ensures r.1.RedeemedWithoutCount? ==>
              && r.1.partner == segment && r.1.perkId == perkId
              && r.0 == cat.(redemptions := cat.redemptions[segment := Inner(cat.redemptions, segment)])
    ensures r.1.PartnerRedeemed? ==>
              && r.1.partner == segment && r.1.perkId == perkId
              && r.1.count == ValueOr(Inner(cat.redemptions, segment), BodyKey(perkId), 0) + 1
              && r.0.views == cat.views && r.0.dynamic == cat.dynamic
              && r.0.redemptions.Keys == cat.redemptions.Keys + {segment}
              && r.0.redemptions[segment] == Inner(cat.redemptions, segment)[BodyKey(perkId) := r.1.count]
              && (forall s :: s in cat.redemptions && s != segment ==> r.0.redemptions[s] == cat.redemptions[s])
  {
    if !BodyTruthy(perkId) then (cat, PerkIdRequired)
    else if FindPartner(Lower(segment)).None? then (cat, PartnerNotFound)
    else
      var inner := Inner(cat.redemptions, segment);
      var key := BodyKey(perkId);
      if key !in inner && key in InheritedNames then
        (cat.(redemptions := cat.redemptions[segment := inner]), RedeemedWithoutCount(segment, perkId))
      else
        var count := ValueOr(inner, key, 0) + 1;
        (cat.(redemptions := cat.redemptions[segment := inner[key := count]]),
         PartnerRedeemed(segment, perkId, count))
  }

  /** A perk id given as a number names a digit key, which is never an
      inherited property, so it is always counted. */
  lemma NumericPerkIdCounted(cat: CatalogState, segment: string, n: int)
    requires n != 0 && FindPartner(Lower(segment)).Some?
    ensures PartnerRedeem(cat, segment, Num(n)).1.PartnerRedeemed?
  {
    IntToStringNotInherited(n);
  }

  /** A redemption counted under `ALDI` passes the slug check but lands in a
      counter the Aldi dashboard never reads: its stats are unchanged. */
  lemma UpperCaseRedemptionInvisible(cat: CatalogState, perkId: BodyValue)
    requires BodyTruthy(perkId)
    ensures !PartnerRedeem(cat, "ALDI", perkId).1.PerkIdRequired?
    ensures !PartnerRedeem(cat, "ALDI", perkId).1.PartnerNotFound?
    ensures Stats(PartnerRedeem(cat, "ALDI", perkId).0, "aldi").1 == Stats(cat, "aldi").1
  {
    FindAldi();
    var next := PartnerRedeem(cat, "ALDI", perkId).0;
    assert Inner(next.redemptions, "aldi") == Inner(cat.redemptions, "aldi");
  }

  /** A perk id redeemed before any deal carries it is wiped when add-perk
      later hands that id to a new deal: whatever the count reached, the
      counter is set back to 0. */
  lemma AddDealResetsEarlierCount(cat: CatalogState, input: DealInput)
    requires DynamicOf(cat.dynamic, "aldi") == []
    requires Truthy(input.title) && Truthy(input.description)
    ensures var (afterRedeem, reply) := PartnerRedeem(cat, "aldi", Num(6));
            && reply.PartnerRedeemed?
            && afterRedeem.redemptions["aldi"]["6"] == reply.count
            && AddDeal(afterRedeem, "aldi", input).1.DealAdded?
            && AddDeal(afterRedeem, "aldi", input).0.redemptions["aldi"]["6"] == 0
  {
    RedeemBeforeDeal(cat);
    var afterRedeem := PartnerRedeem(cat, "aldi", Num(6)).0;
    FirstAldiDealIsSix(afterRedeem, input);
    FindAldi();
    var d := AddDeal(afterRedeem, "aldi", input).1.deal;
    assert DealKey(d) == "6";
  }

  /** Redeeming perk 6 at Aldi counts it under the key `"6"` and adds no deal. */
  lemma RedeemBeforeDeal(cat: CatalogState)
    ensures var (afterRedeem, reply) := PartnerRedeem(cat, "aldi", Num(6));
            && reply.PartnerRedeemed?
            && "aldi" in afterRedeem.redemptions && "6" in afterRedeem.redemptions["aldi"]
            && afterRedeem.redemptions["aldi"]["6"] == reply.count
            && afterRedeem.dynamic == cat.dynamic
  {
    FindAldi();
    assert IntToString(6) == "6";
  }
}
