/**
 * The achievements page: fifteen badges whose progress is computed from the wishlist, the
 * points and rank derived from them, the "next badge" hint and the category tabs.
 */
module Gamification {
  import opened Wrappers
  import opened Seqs
  import opened Catalog

  datatype Category = Explorer | Collector | Social | Special
  datatype Tier = Bronze | Silver | Gold | Platinum

  datatype Badge = Badge(id: string, category: Category, tier: Tier,
                         unlocked: bool, progress: nat, requirement: nat)

  function CategoryName(c: Category): string {
    match c
    case Explorer => "explorer"
    case Collector => "collector"
    case Social => "social"
    case Special => "special"
  }

  /**
   * Progress never passes the requirement; a countable badge is unlocked exactly when its
   * progress reaches the requirement, and a social badge stays locked with no progress.
   */
  predicate WellFormed(b: Badge) {
    && b.requirement >= 1
    && b.progress <= b.requirement
    && (b.category != Social ==> (b.unlocked <==> b.progress == b.requirement))
    && (b.category == Social ==> !b.unlocked && b.progress == 0)
  }

  /** A badge earned by reaching `requirement` of something counted. */
  function CountBadge(id: string, category: Category, tier: Tier, count: nat, requirement: nat): (b: Badge)
    requires requirement >= 1 && category != Social
    ensures b.id == id && b.category == category && b.tier == tier && b.requirement == requirement
    ensures b.progress == if count < requirement then count else requirement
    ensures b.unlocked <==> count >= requirement
    ensures b.progress <= b.requirement
    ensures WellFormed(b)
  {
    Badge(id, category, tier, count >= requirement, if count < requirement then count else requirement, requirement)
  }

  /** A badge this page has no data for: always locked, no progress. */
  function LockedBadge(id: string, tier: Tier, requirement: nat): (b: Badge)
    requires requirement >= 1
    ensures b.id == id && b.category == Social && b.tier == tier && b.requirement == requirement
    ensures !b.unlocked && b.progress == 0
    ensures WellFormed(b)
  {
    Badge(id, Social, tier, false, 0, requirement)
  }

  /** The wishlisted ids whose catalog record satisfies `p` (ids without a record never count). */
  function CountWhere(catalog: seq<Destination>, wishlist: seq<int>, p: Destination -> bool): (n: nat)
    ensures n <= |wishlist|
  {
    |Filter(wishlist, (id: int) => FindById(catalog, id).Some? && p(FindById(catalog, id).value))|
  }

  /** `new Set(wishlist.map(id => find(id)?.field).filter(Boolean))`: the distinct non-empty values. */
  function Viewed(catalog: seq<Destination>, wishlist: seq<int>, field: Destination -> string): (vs: set<string>)
    ensures forall v :: v in vs ==> v != ""
  {
    set id | id in wishlist && FindById(catalog, id).Some? && field(FindById(catalog, id).value) != ""
      :: field(FindById(catalog, id).value)
  }

  function ViewedContinents(catalog: seq<Destination>, wishlist: seq<int>): set<string> {
    Viewed(catalog, wishlist, (d: Destination) => d.continent)
  }

  function ViewedCountries(catalog: seq<Destination>, wishlist: seq<int>): set<string> {
    Viewed(catalog, wishlist, (d: Destination) => d.country)
  }

  /** Each saved id adds at most one distinct value. */
  lemma {:induction false} ViewedAtMostWishlist(catalog: seq<Destination>, wishlist: seq<int>, field: Destination -> string)
    ensures |Viewed(catalog, wishlist, field)| <= |wishlist|
  {
    if wishlist != [] {
      var init := wishlist[..|wishlist| - 1];
      ViewedAtMostWishlist(catalog, init, field);
      var extra := ViewedOfLast(catalog, wishlist, field);
      UnionCard(Viewed(catalog, init, field), extra, Viewed(catalog, wishlist, field));
    }
  }

  /** The values viewed through a wishlist are those of all but its last id, and at most one more. */
  lemma ViewedOfLast(catalog: seq<Destination>, wishlist: seq<int>, field: Destination -> string) returns (extra: set<string>)
    requires wishlist != []
    ensures |extra| <= 1
    ensures Viewed(catalog, wishlist, field) <= Viewed(catalog, wishlist[..|wishlist| - 1], field) + extra
  {
    var init := wishlist[..|wishlist| - 1];
    var last := wishlist[|wishlist| - 1];
    var f := FindById(catalog, last);
    extra := if f.Some? && field(f.value) != "" then {field(f.value)} else {};
    var before := Viewed(catalog, init, field);
    forall v | v in Viewed(catalog, wishlist, field) ensures v in before + extra {
      var id :| id in wishlist && FindById(catalog, id).Some? && field(FindById(catalog, id).value) != ""
                && v == field(FindById(catalog, id).value);
      if id != last {
        var k :| 0 <= k < |wishlist| && wishlist[k] == id;
        assert init[k] == id;
      }
    }
  }

  lemma UnionCard(a: set<string>, b: set<string>, c: set<string>)
    requires c <= a + b && |b| <= 1
    ensures |c| <= |a| + 1
  {
    assert a + b == a + (b - a);
    assert |a + (b - a)| == |a| + |b - a|;
    assert (a + b) == c + ((a + b) - c);
  }

  /** The badge table, in the order the page declares it. */
  function Badges(catalog: seq<Destination>, wishlist: seq<int>): (bs: seq<Badge>)
    ensures |bs| == 15
    ensures forall b :: b in bs ==> WellFormed(b)
  {
    ExplorerBadges(|wishlist|) + CollectorBadges(catalog, wishlist) + SocialBadges()
      + SpecialBadges(catalog, wishlist)
  }

  function ExplorerBadges(n: nat): (bs: seq<Badge>)
    ensures |bs| == 5
    ensures forall b :: b in bs ==> WellFormed(b)
  {
    var b0 := CountBadge("first_steps", Explorer, Bronze, n, 1);
    var b1 := CountBadge("wanderer", Explorer, Bronze, n, 5);
    var b2 := CountBadge("globetrotter", Explorer, Silver, n, 15);
    var b3 := CountBadge("world_explorer", Explorer, Gold, n, 30);
    var b4 := CountBadge("ultimate_traveler", Explorer, Platinum, n, 50);
    [b0, b1, b2, b3, b4]
  }

  function CollectorBadges(catalog: seq<Destination>, wishlist: seq<int>): (bs: seq<Badge>)
    ensures |bs| == 5
    ensures forall b :: b in bs ==> WellFormed(b)
  {
    var b0 := CountBadge("asia_explorer", Collector, Silver,
                         CountWhere(catalog, wishlist, (d: Destination) => d.continent == "Asia"), 10);
    var b1 := CountBadge("europe_explorer", Collector, Silver,
                         CountWhere(catalog, wishlist, (d: Destination) => d.continent == "Europe"), 10);
    var b2 := CountBadge("beach_lover", Collector, Bronze,
                         CountWhere(catalog, wishlist, (d: Destination) => d.category == "Beach"), 5);
    var b3 := CountBadge("adventure_seeker", Collector, Bronze,
                         CountWhere(catalog, wishlist, (d: Destination) => d.category == "Adventure"), 5);
    var b4 := CountBadge("culture_enthusiast", Collector, Bronze,
                         CountWhere(catalog, wishlist, (d: Destination) => d.category == "Cultural"), 5);
    [b0, b1, b2, b3, b4]
  }

  function SocialBadges(): (bs: seq<Badge>)
    ensures |bs| == 2
    ensures forall b :: b in bs ==> WellFormed(b)
  {
    [LockedBadge("social_butterfly", Bronze, 1), LockedBadge("inspiration", Silver, 10)]
  }

  function SpecialBadges(catalog: seq<Destination>, wishlist: seq<int>): (bs: seq<Badge>)
    ensures |bs| == 3
    ensures forall b :: b in bs ==> WellFormed(b)
  {
    var b0 := CountBadge("hidden_gem_hunter", Special, Gold,
                         CountWhere(catalog, wishlist, (d: Destination) => d.isHiddenGem), 3);
    var b1 := CountBadge("diverse_explorer", Special, Silver, |ViewedCountries(catalog, wishlist)|, 5);
    var b2 := CountBadge("continent_hopper", Special, Gold, |ViewedContinents(catalog, wishlist)|, 4);
    [b0, b1, b2]
  }

  /** Saving anything unlocks "First Steps"; "Continent Hopper" unlocks once four continents are saved. */
  lemma FirstStepsAndContinentHopper(catalog: seq<Destination>, wishlist: seq<int>)
    ensures Badges(catalog, wishlist)[0].unlocked <==> wishlist != []
    ensures Badges(catalog, wishlist)[14].unlocked <==> |ViewedContinents(catalog, wishlist)| >= 4
    ensures Badges(catalog, wishlist)[14].unlocked ==> |wishlist| >= 4
  {
    ViewedAtMostWishlist(catalog, wishlist, (d: Destination) => d.continent);
  }

  function UnlockedCount(badges: seq<Badge>): (n: nat)
    ensures n <= |badges|
  {
    |Filter(badges, (b: Badge) => b.unlocked)|
  }

  /** 100 points per unlocked badge and 10 per saved destination. */
  function TotalPoints(badges: seq<Badge>, wishlist: seq<int>): (p: nat)
    ensures p >= 10 * |wishlist|
    ensures p <= 100 * |badges| + 10 * |wishlist|
  {
    100 * UnlockedCount(badges) + 10 * |wishlist|
  }

  /** `badges.find(b => !b.unlocked && b.progress > 0)`: the first badge under way. */
  function NextBadge(badges: seq<Badge>): (r: Option<nat>)
    ensures r.Some? ==> r.value < |badges| && !badges[r.value].unlocked && badges[r.value].progress > 0
    ensures r.Some? ==> forall k :: 0 <= k < r.value ==> badges[k].unlocked || badges[k].progress == 0
    ensures r.None? ==> forall k :: 0 <= k < |badges| ==> badges[k].unlocked || badges[k].progress == 0
  {
    if badges == [] then None
    else if !badges[0].unlocked && badges[0].progress > 0 then Some(0)
    else
      match NextBadge(badges[1..])
      case None => None
      case Some(k) => Some(k + 1)
  }

  /** The displayed global rank. */
  function Rank(unlocked: nat): (r: int)
    ensures r >= 1
    ensures unlocked <= 8 ==> r == 9 - unlocked
    ensures unlocked >= 8 ==> r == 1
  {
    if 9 - unlocked > 1 then 9 - unlocked else 1
  }

  /** The badges under the selected tab: all of them for "all", else one category in table order. */
  function FilteredBadges(badges: seq<Badge>, selected: string): (r: seq<Badge>)
    ensures selected == "all" ==> r == badges
    ensures selected != "all" ==> forall b :: b in r <==> b in badges && CategoryName(b.category) == selected
    ensures IsSubsequence(r, badges)
  {
    if selected == "all" then
      PrefixIsSubsequence(badges, |badges|);
      assert badges[..|badges|] == badges;
      badges
    else Filter(badges, (b: Badge) => CategoryName(b.category) == selected)
  }
}
