/**
 * The search results page: the query read from the address, the place-details lookup with its
 * fallback record, the image query built from the corrected place name, and the single retry
 * of the image lookup.
 */
module SearchResults {
  import opened Wrappers
  import opened Strings

  /** Place details as the details service returns them; a missing text field is "". */
  datatype PlaceDetails = PlaceDetails(
    name: string,
    country: string,
    description: string,
    bestSeason: string,
    topAttractions: seq<string>,
    currency: string,
    budgetLevel: string,
    safetyTips: seq<string>,
    localTransport: seq<string>,
    overview: string)

  datatype Image = Image(url: string, alt: string, photographer: string, photographerUrl: string)

  /** What the details service answered: a failure, or a body that may be null. */
  datatype DetailsResponse = DetailsFailed | DetailsOk(data: Option<PlaceDetails>)

  /** What the image service answered: a failure, or a body whose image list may be missing. */
  datatype ImagesResponse = ImagesFailed | ImagesOk(images: Option<seq<Image>>)

  /** The search term of the page: the `q` parameter trimmed, or "" without one. */
  function QueryOf(q: Option<string>): (query: string)
    ensures q.None? ==> query == ""
    ensures q.Some? ==> query == Trim(q.value)
  {
    Trim(q.GetOr(""))
  }

  /** The page has no query, and so shows the search prompt, exactly when `q` is absent or only whitespace. */
  lemma EmptyQueryIffBlank(q: Option<string>)
    ensures QueryOf(q) == "" <==> q.None? || AllSpace(q.value)
  {
    if q.Some? {
      TrimEmptyIffAllSpace(q.value);
    }
  }

  const ExploreLead: string := "Explore the beauty and culture of "
  const YearRound: string := "Year-round"
  const Varies: string := "Varies"
  const WaitingTail: string := " is a destination waiting to be explored. Search for more details or ask our AI Concierge for personalized recommendations."

  /** The record shown when the details lookup fails: the search term as name, no country, generic texts. */
  function Fallback(placeName: string): (d: PlaceDetails)
    ensures d.name == placeName && d.country == ""
    ensures d.bestSeason == YearRound && d.budgetLevel == Varies && d.currency == ""
    ensures d.topAttractions == [] && d.safetyTips == [] && d.localTransport == []
    ensures StartsWith(d.overview, placeName)
  {
    PlaceDetails(
      placeName,
      "",
      ExploreLead + placeName + ".",
      YearRound,
      [],
      "",
      Varies,
      [],
      [],
      placeName + WaitingTail)
  }

  /** `fetchPlaceDetails`: the service's body, or the fallback record when the call fails. */
  function DetailsResult(placeName: string, response: DetailsResponse): (r: Option<PlaceDetails>)
    ensures response.DetailsFailed? ==> r == Some(Fallback(placeName))
    ensures response.DetailsOk? ==> r == response.data
  {
    match response
    case DetailsFailed => Some(Fallback(placeName))
    case DetailsOk(data) => data
  }

  /** `fetchUnsplashImages`: the listed images; a failure or a missing list gives none, never an error. */
  function ImagesResult(response: ImagesResponse): (r: seq<Image>)
    ensures response.ImagesFailed? ==> r == []
    ensures response.ImagesOk? && response.images.Some? ==> r == response.images.value
    ensures response.ImagesOk? && response.images.None? ==> r == []
  {
    match response
    case ImagesFailed => []
    case ImagesOk(images) => images.GetOr([])
  }

  /** The corrected place name: the details' name when it has one, otherwise the search term, trimmed. */
  function CanonicalName(details: Option<PlaceDetails>, term: string): (r: string)
    ensures details.Some? && details.value.name != "" ==> r == Trim(details.value.name)
    ensures details.None? || details.value.name == "" ==> r == Trim(term)
  {
    Trim(if details.Some? && details.value.name != "" then details.value.name else term)
  }

  /** The corrected country: the details' country trimmed, or "". */
  function CanonicalCountry(details: Option<PlaceDetails>): (r: string)
    ensures details.None? ==> r == ""
    ensures details.Some? ==> r == Trim(details.value.country)
  {
    Trim(if details.Some? then details.value.country else "")
  }

  /** The first image query: "<name> <country>" when there is a country, the name alone otherwise. */
  function ImageQuery(name: string, country: string): (r: string)
    ensures country != "" ==> r == name + " " + country && StartsWith(r, name)
    ensures country == "" ==> r == name
  {
    if country != "" then name + " " + country else name
  }

  /** The image lookup is repeated only when it found nothing and the name was corrected other than in case. */
  predicate Retries(first: seq<Image>, canonicalName: string, term: string) {
    |first| == 0 && ToLower(canonicalName) != ToLower(term)
  }

  /** A failed details lookup for a trimmed term never leads to a second image lookup: the fallback keeps the term's name. */
  lemma FallbackNeverRetries(term: string, first: seq<Image>)
    requires Trim(term) == term
    ensures !Retries(first, CanonicalName(DetailsResult(term, DetailsFailed), term), term)
  {
    var d := Fallback(term);
    if term != "" {
      assert CanonicalName(Some(d), term) == Trim(term);
    }
  }

  /** The fallback record has no country, so its image query is the term itself. */
  lemma FallbackQueriesTermAlone(term: string)
    requires Trim(term) == term
    ensures var d := DetailsResult(term, DetailsFailed);
      ImageQuery(CanonicalName(d, term), CanonicalCountry(d)) == term
  {
    TrimOfEmpty();
  }

  lemma TrimOfEmpty()
    ensures Trim("") == ""
  {
  }

  /** The query of the first image lookup for the stored details and the search term. */
  function FirstImageQuery(details: Option<PlaceDetails>, term: string): string {
    ImageQuery(CanonicalName(details, term), CanonicalCountry(details))
  }

  /** The image queries sent: the first query, then the corrected name when the lookup is repeated. */
  function QueriesSent(details: Option<PlaceDetails>, term: string, imagesFor: string -> ImagesResponse): (r: seq<string>)
    ensures 1 <= |r| <= 2 && r[0] == FirstImageQuery(details, term)
    ensures |r| == 2 <==> Retries(ImagesResult(imagesFor(r[0])), CanonicalName(details, term), term)
    ensures |r| == 2 ==> r[1] == CanonicalName(details, term)
  {
    var first := FirstImageQuery(details, term);
    var name := CanonicalName(details, term);
    if Retries(ImagesResult(imagesFor(first)), name, term) then [first, name] else [first]
  }

  /** The images shown: those of the last lookup sent. */
  function ImagesShown(details: Option<PlaceDetails>, term: string, imagesFor: string -> ImagesResponse): (r: seq<Image>)
    ensures var sent := QueriesSent(details, term, imagesFor);
      r == ImagesResult(imagesFor(sent[|sent| - 1]))
  {
    var sent := QueriesSent(details, term, imagesFor);
    ImagesResult(imagesFor(sent[|sent| - 1]))
  }

  /** A second lookup is sent only after an empty first answer, so whatever the first lookup found is what is shown. */
  lemma FoundImagesAreKept(details: Option<PlaceDetails>, term: string, imagesFor: string -> ImagesResponse)
    requires ImagesResult(imagesFor(FirstImageQuery(details, term))) != []
    ensures QueriesSent(details, term, imagesFor) == [FirstImageQuery(details, term)]
    ensures ImagesShown(details, term, imagesFor) == ImagesResult(imagesFor(FirstImageQuery(details, term)))
  {
  }

  class ResultsPage {
    const query: string
    var loading: bool
    var images: seq<Image>
    var placeDetails: Option<PlaceDetails>
    var error: Option<string>

    /** The page as first rendered for the address parameter `q`: loading, with nothing fetched. */
    constructor(q: Option<string>)
      ensures query == QueryOf(q)
      ensures loading && images == [] && placeDetails == None && error == None
    {
      query := QueryOf(q);
      loading := true;
      images := [];
      placeDetails := None;
      error := None;
    }

    /** With no query the page shows the search prompt instead of results. */
    predicate ShowsPrompt()
      reads this
    {
      query == ""
    }

    /**
     * The query effect: with no query, stop loading and fetch nothing; otherwise fetch the
     * place data for the query. `imagesFor` is the image service's answer to each query, and
     * `queries` lists the image queries sent, in order.
     */
    method Load(details: DetailsResponse, imagesFor: string -> ImagesResponse) returns (queries: seq<string>)
      modifies this
      ensures !loading
      ensures ShowsPrompt() ==> queries == [] && images == old(images) && placeDetails == old(placeDetails)
      ensures ShowsPrompt() ==> error == old(error)
      ensures !ShowsPrompt() ==> 1 <= |queries| <= 2 && error == None
      ensures !ShowsPrompt() ==> placeDetails == DetailsResult(query, details)
    {
      if query == "" {
        loading := false;
        return [];
      }
      queries := FetchPlaceData(query, details, imagesFor);
    }

    /**
     * `fetchPlaceData`: the details are stored first; images are then looked up for the image
     * query, and looked up once more, for the corrected name alone, only when the first lookup
     * found nothing and the name was corrected other than in case. The images shown are those
     * of the last lookup. No step fails, so the error stays cleared.
     */
    method FetchPlaceData(term: string, details: DetailsResponse, imagesFor: string -> ImagesResponse)
      returns (queries: seq<string>)
      modifies this
      ensures !loading && error == None
      ensures placeDetails == DetailsResult(term, details)
      ensures queries == QueriesSent(placeDetails, term, imagesFor)
      ensures images == ImagesShown(placeDetails, term, imagesFor)
    {
      loading := true;
      error := None;
      var detailsResult := DetailsResult(term, details);
      placeDetails := detailsResult;
      var imagesResult;
      queries, imagesResult := LookUpImages(detailsResult, term, imagesFor);
      images := imagesResult;
      loading := false;
    }

    /** The image lookups of `fetchPlaceData`, given the stored details. */
    static method LookUpImages(details: Option<PlaceDetails>, term: string, imagesFor: string -> ImagesResponse)
      returns (queries: seq<string>, images: seq<Image>)
      ensures queries == QueriesSent(details, term, imagesFor)
      ensures images == ImagesShown(details, term, imagesFor)
    {
      var canonicalName := CanonicalName(details, term);
      var imageQuery := FirstImageQuery(details, term);
      images := ImagesResult(imagesFor(imageQuery));
      queries := [imageQuery];
      if Retries(images, canonicalName, term) {
        images := ImagesResult(imagesFor(canonicalName));
        queries := queries + [canonicalName];
      }
    }
  }
}
