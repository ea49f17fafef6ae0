/**
 * The destination listing page: a fuzzy search over the catalog, six independent filters
 * with "All ..." sentinels, five sort orders and twelve-per-page pagination, plus the page
 * state the handlers update.
 */
module Destinations {
  import opened Wrappers
  import opened Strings
  import opened Seqs
  import Sorting
  import opened Catalog

  const ItemsPerPage: nat := 12

  const AllContinents := "All Continents"
  const AllTypes := "All Types"
  const AllBudgets := "All Budgets"
  const AllSeasons := "All Seasons"
  const AllDurations := "All Durations"
  const SeasonSeparator := " - "

  function Min(a: int, b: int): int { if a < b then a else b }
  function Max(a: int, b: int): int { if a < b then b else a }

  // ---------------------------------------------------------------- prices

  /** A `$` followed by a digit starts at `i`: where `/\$(\d+)/` can match. */
  predicate PriceMarkerAt(s: string, i: int) {
    0 <= i && i + 1 < |s| && s[i] == '$' && IsDigit(s[i + 1])
  }

  /** The first position at or after `from` where the price pattern matches. */
  function FirstPriceMarker(s: string, from: nat): (r: Option<nat>)
    requires from <= |s|
    decreases |s| - from
    ensures r.Some? ==> from <= r.value && PriceMarkerAt(s, r.value)
                        && forall i :: from <= i < r.value ==> !PriceMarkerAt(s, i)
    ensures r.None? ==> forall i :: from <= i < |s| ==> !PriceMarkerAt(s, i)
  {
    if from + 1 >= |s| then None
    else if PriceMarkerAt(s, from) then Some(from)
    else FirstPriceMarker(s, from + 1)
  }

  /** `extractPrice`: the number after the first `$` that is followed by digits, 0 when there is none. */
  function ExtractPrice(s: string): (n: nat)
    ensures (forall i :: 0 <= i < |s| ==> !PriceMarkerAt(s, i)) ==> n == 0
  {
    match FirstPriceMarker(s, 0)
    case None => 0
    case Some(i) => DecimalValue(LeadingDigits(s[i + 1..]))
  }

  lemma LeadingDigitsOfNumeral(digits: string, rest: string)
    requires forall i :: 0 <= i < |digits| ==> IsDigit(digits[i])
    requires rest == [] || !IsDigit(rest[0])
    ensures LeadingDigits(digits + rest) == digits
  {
    var s := digits + rest;
    assert forall i :: 0 <= i < |digits| ==> IsDigit(s[i]);
    assert rest != [] ==> s[|digits|] == rest[0];
    assert s[..|digits|] == digits;
  }

  /** The price of a text whose first price marker is at `k` is the value of the digits after it. */
  lemma ExtractPriceAt(s: string, k: nat)
    requires PriceMarkerAt(s, k)
    requires forall i :: 0 <= i < k ==> !PriceMarkerAt(s, i)
    ensures ExtractPrice(s) == DecimalValue(LeadingDigits(s[k + 1..]))
  {
    var first := FirstPriceMarker(s, 0);
    assert first.Some?;
    assert first.value == k;
  }

  /**
   * A price label reads back the value of the digits after its first `$` that is followed by a
   * digit, whatever surrounds them: leading zeros, other `$` signs before it and any text after.
   */
  lemma ExtractPriceOfLabel(prefix: string, digits: string, suffix: string)
    requires forall i :: 0 <= i < |prefix| ==> !PriceMarkerAt(prefix + "$" + digits + suffix, i)
    requires digits != [] && forall i :: 0 <= i < |digits| ==> IsDigit(digits[i])
    requires suffix == [] || !IsDigit(suffix[0])
    ensures ExtractPrice(prefix + "$" + digits + suffix) == DecimalValue(digits)
  {
    var head := prefix + "$";
    var tail := digits + suffix;
    var s := prefix + "$" + digits + suffix;
    assert s == head + tail;
    assert s[|head|..] == tail;
    assert s[|prefix|] == '$' && s[|prefix| + 1] == digits[0];
    ExtractPriceAt(s, |prefix|);
    LeadingDigitsOfNumeral(digits, suffix);
  }

  /** A written amount after the only `$` of a label is read back exactly. */
  lemma ExtractPriceOfAmount(prefix: string, amount: nat, suffix: string)
    requires '$' !in prefix
    requires suffix == [] || !IsDigit(suffix[0])
    ensures ExtractPrice(prefix + "$" + DecimalString(amount) + suffix) == amount
  {
    var s := prefix + "$" + DecimalString(amount) + suffix;
    forall i | 0 <= i < |prefix| ensures !PriceMarkerAt(s, i) {
      assert s[i] == prefix[i];
    }
    ExtractPriceOfLabel(prefix, DecimalString(amount), suffix);
    DecimalRoundTrip(amount);
  }

  // ---------------------------------------------------------------- search and filters

  /**
   * The records the filters start from: the fuzzy-search hits (for the raw query) when the
   * query has a non-blank character, the whole catalog otherwise.
   */
  function Candidates(catalog: seq<Destination>, search: string -> seq<Destination>, query: string): (r: seq<Destination>)
    ensures AllSpace(query) ==> r == catalog
    ensures !AllSpace(query) ==> r == search(query)
  {
    TrimEmptyIffAllSpace(query);
    if Trim(query) != "" then search(query) else catalog
  }

  datatype FilterKind = Continent | TravelType | Budget | Season | Duration | LocationType

  /** The six filter selections; each "All ..." value is a sentinel that selects everything. */
  datatype Filters = Filters(continent: string, travelType: string, budget: string,
                             season: string, duration: string, locationType: string)
  {
    function With(kind: FilterKind, value: string): (f: Filters)
      ensures kind == Continent ==> f == this.(continent := value)
      ensures kind == TravelType ==> f == this.(travelType := value)
      ensures kind == Budget ==> f == this.(budget := value)
      ensures kind == Season ==> f == this.(season := value)
      ensures kind == Duration ==> f == this.(duration := value)
      ensures kind == LocationType ==> f == this.(locationType := value)
    {
      match kind
      case Continent => this.(continent := value)
      case TravelType => this.(travelType := value)
      case Budget => this.(budget := value)
      case Season => this.(season := value)
      case Duration => this.(duration := value)
      case LocationType => this.(locationType := value)
    }
  }

  const NoFilters := Filters(AllContinents, AllTypes, AllBudgets, AllSeasons, AllDurations, AllTypes)

  /** The season filter matches on the text before " - " ("Dec - Feb" matches on "Dec"). */
  function SeasonKey(season: string): string {
    BeforeFirst(season, SeasonSeparator)
  }

  /** `d` passes every filter; a sentinel selection imposes no constraint. */
  predicate Matches(d: Destination, f: Filters): (b: bool)
    ensures f == NoFilters ==> b
    ensures b && f.continent != AllContinents ==> d.continent == f.continent
    ensures b && f.travelType != AllTypes ==> f.travelType in d.travelType
    ensures b && f.budget != AllBudgets ==> d.budgetLevel == f.budget
    ensures b && f.locationType != AllTypes ==>
      d.locationType.Some? && ToLower(d.locationType.value) == ToLower(f.locationType)
  {
    && (f.continent == AllContinents || d.continent == f.continent)
    && (f.travelType == AllTypes || f.travelType in d.travelType)
    && (f.budget == AllBudgets || d.budgetLevel == f.budget)
    && (f.season == AllSeasons || Includes(d.bestSeason, SeasonKey(f.season)))
    && (f.duration == AllDurations || Includes(d.duration, f.duration))
    && (f.locationType == AllTypes
        || (d.locationType.Some? && d.locationType.value != ""
            && ToLower(d.locationType.value) == ToLower(f.locationType)))
  }

  /** The filter stage: keeps exactly the records that match, in their original order. */
  function ApplyFilters(xs: seq<Destination>, f: Filters): (r: seq<Destination>)
    ensures forall d :: d in r <==> d in xs && Matches(d, f)
    ensures forall d :: multiset(r)[d] == if Matches(d, f) then multiset(xs)[d] else 0
    ensures IsSubsequence(r, xs)
  {
    Filter(xs, d => Matches(d, f))
  }

  /** With every selection at its sentinel, the filter stage keeps everything. */
  lemma NoFiltersKeepAll(xs: seq<Destination>)
    ensures ApplyFilters(xs, NoFilters) == xs
  {
    FilterAll(xs, d => Matches(d, NoFilters));
  }

  // ---------------------------------------------------------------- sorting

  datatype SortOption = Popularity | Rating | PriceLow | PriceHigh | Name

  /**
   * The comparator of each sort option as a relation: `Precedes(mode)(a, b)` when the comparator
   * returns zero or less, so `a` may stay ahead of `b`. "popularity" orders by rating too.
   */
  function Precedes(mode: SortOption): (before: (Destination, Destination) -> bool)
    ensures mode in {Popularity, Rating} ==>
      forall a: Destination, b: Destination :: a.rating > b.rating ==> before(a, b) && !before(b, a)
    ensures mode == PriceLow ==>
      forall a: Destination, b: Destination :: ExtractPrice(a.price) < ExtractPrice(b.price) ==> before(a, b) && !before(b, a)
    ensures mode == PriceHigh ==>
      forall a: Destination, b: Destination :: ExtractPrice(a.price) > ExtractPrice(b.price) ==> before(a, b) && !before(b, a)
    ensures mode != Name ==> forall a: Destination, b: Destination :: before(a, b) || before(b, a)
  {
    match mode
    case Popularity => (a: Destination, b: Destination) => b.rating <= a.rating
    case Rating => (a: Destination, b: Destination) => b.rating <= a.rating
    case PriceLow => (a: Destination, b: Destination) => ExtractPrice(a.price) <= ExtractPrice(b.price)
    case PriceHigh => (a: Destination, b: Destination) => ExtractPrice(b.price) <= ExtractPrice(a.price)
    case Name => (a: Destination, b: Destination) => LexLe(a.name, b.name)
  }

  /** Every sort option's comparator is consistent: total and transitive. */
  lemma PrecedesIsTotalPreorder(mode: SortOption)
    ensures Sorting.TotalPreorder(Precedes(mode))
  {
    if mode == Name {
      var le := Precedes(Name);
      forall a: Destination, b: Destination ensures le(a, b) || le(b, a) {
        LexLeTotal(a.name, b.name);
      }
      forall a: Destination, b: Destination, c: Destination | le(a, b) && le(b, c) ensures le(a, c) {
        LexLeTransitive(a.name, b.name, c.name);
      }
    }
  }

  /** The sort stage: a permutation of its input, ordered by the chosen option. */
  function SortDestinations(xs: seq<Destination>, mode: SortOption): (r: seq<Destination>)
    ensures multiset(r) == multiset(xs) && |r| == |xs|
    ensures Sorting.Sorted(r, Precedes(mode))
    ensures mode in {Popularity, Rating} ==> forall i, j :: 0 <= i < j < |r| ==> r[i].rating >= r[j].rating
    ensures mode == PriceLow ==> forall i, j :: 0 <= i < j < |r| ==> ExtractPrice(r[i].price) <= ExtractPrice(r[j].price)
    ensures mode == PriceHigh ==> forall i, j :: 0 <= i < j < |r| ==> ExtractPrice(r[i].price) >= ExtractPrice(r[j].price)
    ensures mode == Name ==> forall i, j :: 0 <= i < j < |r| ==> LexLe(r[i].name, r[j].name)
  {
    PrecedesIsTotalPreorder(mode);
    Sorting.SortSorted(xs, Precedes(mode));
    Sorting.Sort(xs, Precedes(mode))
  }

  /** The sort is stable: records the comparator ties keep their relative order. */
  lemma SortDestinationsStable(xs: seq<Destination>, mode: SortOption, d: Destination)
    ensures Sorting.Equivalents(SortDestinations(xs, mode), Precedes(mode), d)
         == Sorting.Equivalents(xs, Precedes(mode), d)
  {
    PrecedesIsTotalPreorder(mode);
    Sorting.SortStable(xs, Precedes(mode), d);
  }

  /** The whole result list: search, then filter, then sort. */
  function Listing(catalog: seq<Destination>, search: string -> seq<Destination>, query: string,
                   f: Filters, mode: SortOption): (r: seq<Destination>)
    ensures forall d :: d in r <==> d in Candidates(catalog, search, query) && Matches(d, f)
    ensures Sorting.Sorted(r, Precedes(mode))
  {
    var filtered := ApplyFilters(Candidates(catalog, search, query), f);
    var r := SortDestinations(filtered, mode);
    assert forall d :: d in r <==> d in multiset(r);
    r
  }

  /** The sort option never changes how many results there are. */
  lemma ListingSizeIndependentOfSort(catalog: seq<Destination>, search: string -> seq<Destination>, query: string,
                                     f: Filters, m1: SortOption, m2: SortOption)
    ensures |Listing(catalog, search, query, f, m1)| == |Listing(catalog, search, query, f, m2)|
  {
  }

  /** "Clear all filters" shows the whole catalog again, in the chosen order. */
  lemma ResetListsWholeCatalog(catalog: seq<Destination>, search: string -> seq<Destination>, mode: SortOption)
    ensures multiset(Listing(catalog, search, "", NoFilters, mode)) == multiset(catalog)
  {
    NoFiltersKeepAll(catalog);
  }

  // ---------------------------------------------------------------- pagination

  /** `Math.ceil(n / 12)`: the fewest pages of twelve that hold `n` results. */
  function TotalPages(n: nat): (t: nat)
    ensures t * ItemsPerPage >= n
    ensures t > 0 ==> (t - 1) * ItemsPerPage < n
    ensures t == 0 <==> n == 0
  {
    (n + ItemsPerPage - 1) / ItemsPerPage
  }

  /** The slice shown on page `page` (1-based). */
  function Page<T>(xs: seq<T>, page: int): (r: seq<T>)
    requires page >= 1
    ensures |r| <= ItemsPerPage
    ensures forall k :: 0 <= k < |r| ==> (page - 1) * ItemsPerPage + k < |xs| && r[k] == xs[(page - 1) * ItemsPerPage + k]
    ensures page <= TotalPages(|xs|) ==> r != []
    ensures page < TotalPages(|xs|) ==> |r| == ItemsPerPage
    ensures page > TotalPages(|xs|) ==> r == []
  {
    var start := (page - 1) * ItemsPerPage;
    if start >= |xs| then [] else xs[start..Min(start + ItemsPerPage, |xs|)]
  }

  /** Pages 1 to `k`, one after the other. */
  function PagesUpTo<T>(xs: seq<T>, k: nat): seq<T> {
    if k == 0 then [] else PagesUpTo(xs, k - 1) + Page(xs, k)
  }

  lemma {:induction false} PagesUpToPrefix<T>(xs: seq<T>, k: nat)
    ensures PagesUpTo(xs, k) == xs[..Min(k * ItemsPerPage, |xs|)]
  {
    if k > 0 {
      PagesUpToPrefix(xs, k - 1);
      var a := Min((k - 1) * ItemsPerPage, |xs|);
      var b := Min(k * ItemsPerPage, |xs|);
      PageIsSlice(xs, k);
      PrefixThenSlice(xs, a, b);
    }
  }

  /** Page `k` is the slice between the ends of pages `k - 1` and `k`. */
  lemma PageIsSlice<T>(xs: seq<T>, k: nat)
    requires k >= 1
    ensures Min((k - 1) * ItemsPerPage, |xs|) <= Min(k * ItemsPerPage, |xs|)
    ensures Page(xs, k) == xs[Min((k - 1) * ItemsPerPage, |xs|)..Min(k * ItemsPerPage, |xs|)]
  {
    assert k * ItemsPerPage == (k - 1) * ItemsPerPage + ItemsPerPage;
  }

  lemma PrefixThenSlice<T>(xs: seq<T>, a: nat, b: nat)
    requires a <= b <= |xs|
    ensures xs[..a] + xs[a..b] == xs[..b]
  {
  }

  /** Reading every page in turn shows every result exactly once, in order. */
  lemma PagesCoverResults<T>(xs: seq<T>)
    ensures PagesUpTo(xs, TotalPages(|xs|)) == xs
  {
    PagesUpToPrefix(xs, TotalPages(|xs|));
  }

  // ---------------------------------------------------------------- page state

  /** "Clear all filters" is offered when a filter is set or the search box is non-empty. */
  predicate HasActiveFilters(f: Filters, query: string)
    ensures HasActiveFilters(f, query) <==> f != NoFilters || query != ""
  {
    || f.continent != AllContinents
    || f.travelType != AllTypes
    || f.budget != AllBudgets
    || f.season != AllSeasons
    || f.duration != AllDurations
    || f.locationType != AllTypes
    || query != ""
  }

  class ListingPage {
    const catalog: seq<Destination>
    const search: string -> seq<Destination>
    var searchQuery: string
    var filters: Filters
    var sortBy: SortOption
    var currentPage: int

    function Results(): seq<Destination>
      reads this
    {
      Listing(catalog, search, searchQuery, filters, sortBy)
    }

    function PageCount(): nat
      reads this
    {
      TotalPages(|Results()|)
    }

    /** The current page is always one that exists (page 1 when there are no results). */
    ghost predicate Valid()
      reads this
    {
      currentPage == 1 || 1 < currentPage <= PageCount()
    }

    /** The cards on screen. */
    function Visible(): (r: seq<Destination>)
      reads this
      requires Valid()
      ensures |r| <= ItemsPerPage
      ensures Results() != [] ==> r != []
    {
      Page(Results(), currentPage)
    }

    /** A fresh page; a non-empty `search` URL parameter pre-fills the query. */
    constructor(catalog: seq<Destination>, search: string -> seq<Destination>, urlSearch: Option<string>)
      ensures Valid()
      ensures this.catalog == catalog && this.search == search
      ensures searchQuery == (if urlSearch.Some? && urlSearch.value != "" then urlSearch.value else "")
      ensures filters == NoFilters && sortBy == Popularity && currentPage == 1
    {
      this.catalog := catalog;
      this.search := search;
      searchQuery := if urlSearch.Some? && urlSearch.value != "" then urlSearch.value else "";
      filters := NoFilters;
      sortBy := Popularity;
      currentPage := 1;
    }

    method HandleSearch(query: string)
      modifies this
      ensures Valid()
      ensures searchQuery == query && currentPage == 1
      ensures filters == old(filters) && sortBy == old(sortBy)
    {
      searchQuery := query;
      currentPage := 1;
    }

    /** Choosing a value in one filter menu sets that filter only and returns to page 1. */
    method SelectFilter(kind: FilterKind, value: string)
      modifies this
      ensures Valid()
      ensures filters == old(filters).With(kind, value) && currentPage == 1
      ensures searchQuery == old(searchQuery) && sortBy == old(sortBy)
    {
      filters := filters.With(kind, value);
      currentPage := 1;
    }

    /** Choosing a sort order keeps the current page, which stays valid since the result count is unchanged. */
    method SelectSort(mode: SortOption)
      requires Valid()
      modifies this
      ensures Valid()
      ensures sortBy == mode && currentPage == old(currentPage)
      ensures searchQuery == old(searchQuery) && filters == old(filters)
      ensures multiset(Results()) == multiset(old(Results()))
    {
      ghost var before := Results();
      sortBy := mode;
      ListingSizeIndependentOfSort(catalog, search, searchQuery, filters, old(sortBy), mode);
    }

    method ResetFilters()
      modifies this
      ensures Valid()
      ensures searchQuery == "" && filters == NoFilters && currentPage == 1 && sortBy == old(sortBy)
      ensures !HasActiveFilters(filters, searchQuery)
      ensures multiset(Results()) == multiset(catalog)
    {
      searchQuery := "";
      filters := NoFilters;
      currentPage := 1;
      ResetListsWholeCatalog(catalog, search, sortBy);
    }

    /** "Previous", shown only when there is more than one page. */
    method PreviousPage()
      requires Valid() && PageCount() > 1
      modifies this
      ensures Valid()
      ensures currentPage == Max(1, old(currentPage) - 1)
      ensures searchQuery == old(searchQuery) && filters == old(filters) && sortBy == old(sortBy)
    {
      currentPage := Max(1, currentPage - 1);
    }

    /** "Next", shown only when there is more than one page. */
    method NextPage()
      requires Valid() && PageCount() > 1
      modifies this
      ensures Valid()
      ensures currentPage == Min(PageCount(), old(currentPage) + 1)
      ensures searchQuery == old(searchQuery) && filters == old(filters) && sortBy == old(sortBy)
    {
      currentPage := Min(PageCount(), currentPage + 1);
    }

    /** A numbered page button; one is shown for each page 1..PageCount(). */
    method GoToPage(page: int)
      requires 1 <= page <= PageCount()
      modifies this
      ensures Valid()
      ensures currentPage == page
      ensures searchQuery == old(searchQuery) && filters == old(filters) && sortBy == old(sortBy)
    {
      currentPage := page;
    }
  }
}
