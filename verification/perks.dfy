/** The seed catalog of `server/data/perks.js`: six general perks redeemable
    against a balance, and four partner merchants with their static deals. */
module PerkData {
  import opened Common

  datatype GeneralPerk = GeneralPerk(
    id: nat, name: string, cost: int, icon: string, category: string, description: string)

  /** A partner deal. Static deals and the ones added from the dashboard share
      this shape. */
  datatype Deal = Deal(
    id: nat, title: string, description: string, icon: string, fullDescription: string)

  datatype Partner = Partner(
    id: nat, name: string, slug: string, logo: string, route: string, deals: seq<Deal>)

  const GeneralPerks: seq<GeneralPerk> := [
    GeneralPerk(1, "Coffee Voucher", 5, "coffee", "Food & Drink", "£5 off at Costa Coffee"),
    GeneralPerk(2, "Gym Pass", 15, "dumbbell", "Fitness", "1 month free gym access"),
    GeneralPerk(3, "Shopping Discount", 10, "shopping-bag", "Shopping", "10% off at ASOS"),
    GeneralPerk(4, "Rent Discount", 25, "home", "Housing", "£25 off next rent payment"),
    GeneralPerk(5, "Premium Perks Box", 50, "gift", "Special", "Mystery box of student essentials"),
    GeneralPerk(6, "Entertainment Pass", 20, "sparkles", "Entertainment", "Cinema tickets for 2")
  ]

  const AldiDeals: seq<Deal> := [
    Deal(1, "Off-Peak Saver", "5% cashback on weekday shops", "percent",
      "Shop on any weekday (Mon-Fri) to get 5% cashback on your entire shop."),
    Deal(2, "Study-Session Bundle", "15% off on Drinks, Snacks & Easy Meals", "coffee",
      "Get 15% off when you buy one item from each category: Drinks, Snacks, and Easy Meals."),
    Deal(3, "Flatmate Feast Bonus", "Free pizza with £60+ spend", "pizza",
      "Spend over £60 in one group transaction and get a free pizza for the flat."),
    Deal(4, "End-of-Loan Recipe Challenge",
      "Scan 3 pantry items to get a recipe and 25% off the missing ingredients.", "chef-hat",
      "Scan 3 pantry items to get a recipe and 25% off the missing ingredients."),
    Deal(5, "Fresh Start Challenge",
      "Buy 5 different fresh produce items on a Monday or Tuesday to get £2 cashback.", "leaf",
      "Buy 5 different fresh produce items on a Monday or Tuesday to get £2 cashback.")
  ]

  const LidlDeals: seq<Deal> := [
    Deal(1, "Bakery Boost", "10% off all bakery items", "coffee",
      "Get 10% off all bakery items when you shop at Lidl."),
    Deal(2, "Snack Attack", "Buy 2 get 1 free on snacks", "gift",
      "Buy 2 get 1 free on selected snacks and treats."),
    Deal(3, "Weekly Saver", "£5 off £30 weekly shop", "percent",
      "Spend £30 or more in a single transaction and get £5 cashback.")
  ]

  const MorrisonsDeals: seq<Deal> := [
    Deal(1, "Meal Deal Magic", "20% off all meal deals", "shopping-bag",
      "Get 20% off all meal deals when you shop at Morrisons."),
    Deal(2, "Breakfast Buddy", "Free coffee with breakfast purchase", "coffee",
      "Get a free coffee when you purchase any breakfast item."),
    Deal(3, "Sunday Special", "Extra student discount on Sundays", "percent",
      "Get an extra 10% student discount on all purchases every Sunday.")
  ]

  const CoopDeals: seq<Deal> := [
    Deal(1, "Tuesday Treat", "Double points every Tuesday", "sparkles",
      "Earn double reward points on all purchases made on Tuesdays."),
    Deal(2, "Own Brand Bonus", "15% off Co-op own-brand products", "percent",
      "Get 15% off all Co-op own-brand products."),
    Deal(3, "Fresh Five", "Buy 5 fresh items, get £2 cashback", "apple",
      "Buy 5 different fresh produce items and get £2 cashback.")
  ]

  const Partners: seq<Partner> := [
    Partner(1, "Aldi", "aldi", "/images/partners/aldi-logo.png", "/perks/aldi", AldiDeals),
    Partner(2, "Lidl", "lidl", "/images/partners/lidl-logo.png", "/perks/lidl", LidlDeals),
    Partner(3, "Morrisons", "morrisons", "/images/partners/morrisons-logo.png", "/perks/morrisons",
      MorrisonsDeals),
    Partner(4, "Co-op", "coop", "/images/partners/coop-logo.png", "/perks/coop", CoopDeals)
  ]

  /** `partners.find(p => p.slug.toLowerCase() === slug)`: the first partner
      whose lower-cased slug equals `slug`. */
  function FindPartner(slug: string): (r: Option<Partner>)
    ensures r.Some? <==> exists k :: 0 <= k < |Partners| && Lower(Partners[k].slug) == slug
    ensures r.Some? ==> r.value in Partners && Lower(r.value.slug) == slug
    ensures r.Some? ==> r.value.slug == slug
  {
    var r := FindPartnerFrom(slug, 0);
    if r.Some? then
      PartnersShape();
      LowerOfLower(r.value.slug);
      r
    else r
  }

  function FindPartnerFrom(slug: string, from: nat): (r: Option<Partner>)
    requires from <= |Partners|
    ensures r.Some? <==> exists k :: from <= k < |Partners| && Lower(Partners[k].slug) == slug
    ensures r.Some? ==> r.value in Partners && Lower(r.value.slug) == slug
    decreases |Partners| - from
  {
    if from == |Partners| then None
    else if Lower(Partners[from].slug) == slug then Some(Partners[from])
    else FindPartnerFrom(slug, from + 1)
  }

  /** Ids of a list of deals, in order. */
  function DealIds(deals: seq<Deal>): (ids: seq<nat>)
    ensures |ids| == |deals|
    ensures forall k :: 0 <= k < |deals| ==> ids[k] == deals[k].id
  {
    seq(|deals|, k requires 0 <= k < |deals| => deals[k].id)
  }

  /** Every deal's id is its 1-based position, so ids are 1..n without repeats. */
  predicate NumberedFromOne(deals: seq<Deal>) {
    forall k :: 0 <= k < |deals| ==> deals[k].id == k + 1
  }

  predicate DealComplete(d: Deal) {
    d.title != "" && d.description != "" && d.icon != "" && d.fullDescription != ""
  }

  /** There are six general perks, numbered 1 to 6, with costs 5, 15, 10, 25, 50 and 20. */
  lemma GeneralPerksShape()
    ensures |GeneralPerks| == 6
    ensures forall k :: 0 <= k < 6 ==> GeneralPerks[k].id == k + 1 && GeneralPerks[k].cost > 0
    ensures seq(6, k requires 0 <= k < 6 => GeneralPerks[k].cost) == [5, 15, 10, 25, 50, 20]
  {
  }

  /** Four partners with ids 1 to 4 and the distinct lower-case slugs
      `aldi`, `lidl`, `morrisons` and `coop`. */
  lemma PartnersShape()
    ensures |Partners| == 4
    ensures forall k :: 0 <= k < 4 ==> Partners[k].id == k + 1 && IsLower(Partners[k].slug)
    ensures Partners[0].slug == "aldi" && Partners[1].slug == "lidl"
    ensures Partners[2].slug == "morrisons" && Partners[3].slug == "coop"
    ensures forall i, j :: 0 <= i < j < 4 ==> Partners[i].slug != Partners[j].slug
  {
  }

  /** Deal ids within each partner are 1..n: Aldi has 5 deals, the others 3;
      every seed deal has a title, description, icon and full description. */
  lemma SeedDealsShape()
    ensures |Partners[0].deals| == 5
    ensures forall k :: 1 <= k < 4 ==> |Partners[k].deals| == 3
    ensures forall k :: 0 <= k < 4 ==> NumberedFromOne(Partners[k].deals)
    ensures forall k, i :: 0 <= k < 4 && 0 <= i < |Partners[k].deals| ==> DealComplete(Partners[k].deals[i])
  {
  }

  /** Looking a slug up finds the partner whose slug it is. */
  lemma FindPartnerBySlug(k: nat)
    requires k < |Partners|
    ensures FindPartner(Partners[k].slug) == Some(Partners[k])
  {
    PartnersShape();
    forall j | 0 <= j < 4 {
      LowerOfLower(Partners[j].slug);
    }
  }

  /** The Aldi dashboard name, in either case, finds the first partner. */
  lemma FindAldi()
    ensures Lower("aldi") == "aldi" && Lower("ALDI") == "aldi"
    ensures Partners[0].slug == "aldi" && FindPartner("aldi") == Some(Partners[0])
  {
    FindPartnerBySlug(0);
  }
}
