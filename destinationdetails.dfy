/**
 * The destination detail page: the record named by the route, the "related destinations"
 * strip, the image URL clean-up, the AI details that override catalog text when present,
 * and "save trip".
 */
module DestinationDetails {
  import opened Wrappers
  import opened Strings
  import opened Seqs
  import opened Catalog

  const MaxRelated: nat := 3

  /**
   * The record for the route parameter: `numberOf` stands for `Number(param)`, `None` when it
   * is not an integer. `None` here is the "Destination Not Found" view.
   */
  function Lookup(catalog: seq<Destination>, param: string, numberOf: string -> Option<int>): (r: Option<Destination>)
    ensures numberOf(param).None? ==> r.None?
    ensures numberOf(param).Some? ==> r == FindById(catalog, numberOf(param).value)
  {
    match numberOf(param)
    case None => None
    case Some(n) => FindById(catalog, n)
  }

  /** `d`'s name contains one of the nearby names, ignoring case. */
  predicate NamedNearby(c: Destination, nearby: seq<string>) {
    exists k :: 0 <= k < |nearby| && Includes(ToLower(c.name), ToLower(nearby[k]))
  }

  function NearbyMatch(nearby: seq<string>): Destination -> bool {
    (c: Destination) => NamedNearby(c, nearby)
  }

  function SameCountryOther(d: Destination): Destination -> bool {
    (c: Destination) => c.id != d.id && c.country == d.country
  }

  /**
   * The related strip: with a nearby list (even an empty one), the first three catalog records
   * named in it, the current one included; without, the first three other records of the
   * same country.
   */
  function Related(catalog: seq<Destination>, d: Destination): (r: seq<Destination>)
    ensures |r| <= MaxRelated
    ensures d.nearbyDestinations.Some? ==> r == Take(Filter(catalog, NearbyMatch(d.nearbyDestinations.value)), MaxRelated)
    ensures d.nearbyDestinations.None? ==> r == Take(Filter(catalog, SameCountryOther(d)), MaxRelated)
    ensures d.nearbyDestinations.Some? ==> forall c :: c in r ==> c in catalog && NamedNearby(c, d.nearbyDestinations.value)
    ensures d.nearbyDestinations.None? ==> forall c :: c in r ==> c in catalog && c.id != d.id && c.country == d.country
    ensures IsSubsequence(r, catalog)
  {
    var candidates := if d.nearbyDestinations.Some? then Filter(catalog, NearbyMatch(d.nearbyDestinations.value))
                      else Filter(catalog, SameCountryOther(d));
    var r := Take(candidates, MaxRelated);
    assert forall c :: c in r ==> c in candidates;
    TakeIsSubsequence(candidates, MaxRelated);
    SubsequenceTransitive(r, candidates, catalog);
    r
  }

  /** An empty nearby list is still a list: it selects nothing rather than falling back to the country. */
  lemma EmptyNearbyShowsNothing(catalog: seq<Destination>, d: Destination)
    requires d.nearbyDestinations == Some([])
    ensures Related(catalog, d) == []
  {
    var f := Filter(catalog, NearbyMatch([]));
    assert forall c :: c in f ==> NamedNearby(c, []);
    assert forall c :: !NamedNearby(c, []);
    assert f == [] by {
      if f != [] { assert false; }
    }
  }

  /** When the current record's own name is on its nearby list, it shows up as related to itself. */
  lemma SelfCanBeRelated(catalog: seq<Destination>, d: Destination)
    requires catalog == [d]
    requires d.nearbyDestinations.Some? && d.nearbyDestinations.value == [d.name]
    ensures Related(catalog, d) == [d]
  {
    IncludesSelf(ToLower(d.name));
    var nearby := [d.name];
    assert Includes(ToLower(d.name), ToLower(nearby[0]));
    assert NamedNearby(d, nearby);
    assert Filter(catalog, NearbyMatch([d.name])) == [d] by {
      assert catalog[1..] == [];
    }
  }

  lemma {:induction false} SubsequenceTransitive<T>(a: seq<T>, b: seq<T>, c: seq<T>)
    requires IsSubsequence(a, b) && IsSubsequence(b, c)
    ensures IsSubsequence(a, c)
    decreases |c|
  {
    if a != [] && c != [] {
      if b[0] == c[0] && IsSubsequence(b[1..], c[1..]) {
        if a[0] == b[0] && IsSubsequence(a[1..], b[1..]) {
          SubsequenceTransitive(a[1..], b[1..], c[1..]);
        } else {
          SubsequenceTransitive(a, b[1..], c[1..]);
        }
      } else {
        SubsequenceTransitive(a, b, c[1..]);
      }
    }
  }

  const HttpPrefix := "http://"
  const HttpsPrefix := "https://"

  /** An `http://` URL is moved to `https://`; any other URL is left alone. */
  function SecureUrl(url: string): (r: string)
    ensures StartsWith(url, HttpPrefix) ==> StartsWith(r, HttpsPrefix) && r[|HttpsPrefix|..] == url[|HttpPrefix|..]
    ensures !StartsWith(url, HttpPrefix) ==> r == url
  {
    if StartsWith(url, HttpPrefix) then HttpsPrefix + url[|HttpPrefix|..] else url
  }

  /** The hero image after the image lookup: the first URL made secure, or no change without results. */
  function ImageFromResults(urls: seq<string>): (r: Option<string>)
    ensures urls == [] <==> r.None?
    ensures r.Some? ==> r.value == SecureUrl(urls[0])
  {
    if urls == [] then None else Some(SecureUrl(urls[0]))
  }

  /** The AI-generated details; a field the response left out is empty here. */
  datatype RealTimeDetails = RealTimeDetails(
    bestSeason: string,
    currency: string,
    budgetLevel: string,
    overview: string,
    topAttractions: seq<string>,
    safetyTips: seq<string>,
    localTransport: seq<string>)

  /** What the page shows for each field that has an AI-generated counterpart. */
  datatype Shown = Shown(
    bestSeason: string,
    currency: string,
    budgetLevel: string,
    overview: string,
    topAttractions: seq<string>,
    safetyTips: seq<string>,
    localTransport: seq<string>)

  /** `realTime || fallback` on text. */
  function PreferText(realTime: Option<string>, fallback: string): (r: string)
    ensures realTime.Some? && realTime.value != "" ==> r == realTime.value
    ensures !(realTime.Some? && realTime.value != "") ==> r == fallback
  {
    if realTime.Some? && realTime.value != "" then realTime.value else fallback
  }

  /** `realTime?.length ? realTime : fallback` on lists. */
  function PreferList(realTime: Option<seq<string>>, fallback: seq<string>): (r: seq<string>)
    ensures realTime.Some? && realTime.value != [] ==> r == realTime.value
    ensures !(realTime.Some? && realTime.value != []) ==> r == fallback
  {
    if realTime.Some? && realTime.value != [] then realTime.value else fallback
  }

  function Field<T>(rt: Option<RealTimeDetails>, get: RealTimeDetails -> T): Option<T> {
    if rt.Some? then Some(get(rt.value)) else None
  }

  /**
   * Non-empty AI values win; otherwise the catalog's. The overview falls back to the catalog
   * overview and then to the description; missing safety tips and transport lists show as empty.
   */
  function Display(d: Destination, rt: Option<RealTimeDetails>): (s: Shown)
    // with no AI details, every field is the catalog's
    ensures rt.None? ==> s.bestSeason == d.bestSeason && s.currency == d.currency && s.budgetLevel == d.budgetLevel
    ensures rt.None? ==> s.overview == (if d.overview.Some? && d.overview.value != "" then d.overview.value else d.description)
    ensures rt.None? ==> s.topAttractions == d.topAttractions
    ensures rt.None? ==> s.safetyTips == d.safetyTips.GetOr([]) && s.localTransport == d.localTransport.GetOr([])
    // with AI details, a non-empty AI value wins
    ensures rt.Some? && rt.value.bestSeason != "" ==> s.bestSeason == rt.value.bestSeason
    ensures rt.Some? && rt.value.currency != "" ==> s.currency == rt.value.currency
    ensures rt.Some? && rt.value.budgetLevel != "" ==> s.budgetLevel == rt.value.budgetLevel
    ensures rt.Some? && rt.value.overview != "" ==> s.overview == rt.value.overview
    ensures rt.Some? && rt.value.topAttractions != [] ==> s.topAttractions == rt.value.topAttractions
    ensures rt.Some? && rt.value.safetyTips != [] ==> s.safetyTips == rt.value.safetyTips
    ensures rt.Some? && rt.value.localTransport != [] ==> s.localTransport == rt.value.localTransport
    // and an empty AI value falls back to the catalog's
    ensures rt.Some? && rt.value.bestSeason == "" ==> s.bestSeason == d.bestSeason
    ensures rt.Some? && rt.value.currency == "" ==> s.currency == d.currency
    ensures rt.Some? && rt.value.budgetLevel == "" ==> s.budgetLevel == d.budgetLevel
    ensures rt.Some? && rt.value.overview == "" ==>
      s.overview == (if d.overview.Some? && d.overview.value != "" then d.overview.value else d.description)
    ensures rt.Some? && rt.value.topAttractions == [] ==> s.topAttractions == d.topAttractions
    ensures rt.Some? && rt.value.safetyTips == [] ==> s.safetyTips == d.safetyTips.GetOr([])
    ensures rt.Some? && rt.value.localTransport == [] ==> s.localTransport == d.localTransport.GetOr([])
  {
    Shown(
      PreferText(Field(rt, (r: RealTimeDetails) => r.bestSeason), d.bestSeason),
      PreferText(Field(rt, (r: RealTimeDetails) => r.currency), d.currency),
      PreferText(Field(rt, (r: RealTimeDetails) => r.budgetLevel), d.budgetLevel),
      PreferText(Field(rt, (r: RealTimeDetails) => r.overview), PreferText(d.overview, d.description)),
      PreferList(Field(rt, (r: RealTimeDetails) => r.topAttractions), d.topAttractions),
      PreferList(Field(rt, (r: RealTimeDetails) => r.safetyTips), d.safetyTips.GetOr([])),
      PreferList(Field(rt, (r: RealTimeDetails) => r.localTransport), d.localTransport.GetOr([])))
  }

  /** The row "save trip" inserts. */
  datatype SavedTripRow = SavedTripRow(name: string, country: string, image: Option<string>, status: string)

  class DetailsPage {
    const destination: Destination
    var saving: bool
    var saved: bool

    constructor(destination: Destination)
      ensures this.destination == destination && !saving && !saved
    {
      this.destination := destination;
      saving := false;
      saved := false;
    }

    /**
     * `handleSaveTrip`: without a user, go to the sign-in page and insert nothing; otherwise
     * insert a planned trip for this destination, mark it saved if the insert succeeded, and
     * finish not saving either way.
     */
    method SaveTrip(signedIn: bool, insertSucceeds: bool) returns (navigateTo: Option<string>, inserted: Option<SavedTripRow>)
      modifies this
      ensures !signedIn ==> navigateTo == Some("/auth") && inserted == None && saved == old(saved) && saving == old(saving)
      ensures signedIn ==> navigateTo == None
      ensures signedIn ==> inserted == Some(SavedTripRow(destination.name, destination.country,
                                                         if destination.image == "" then None else Some(destination.image),
                                                         "planned"))
      ensures signedIn ==> !saving && saved == (old(saved) || insertSucceeds)
    {
      if !signedIn {
        return Some("/auth"), None;
      }
      saving := true;
      navigateTo := None;
      inserted := Some(SavedTripRow(destination.name, destination.country,
                                    if destination.image == "" then None else Some(destination.image),
                                    "planned"));
      if insertSucceeds {
        saved := true;
      }
      saving := false;
    }
  }
}
