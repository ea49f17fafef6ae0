/**
 * The plain search bar: a submit trims the query and either hands it to the page's
 * `onSearch` callback or navigates to the search page. The routing rule is shared with the
 * autocomplete bar.
 */
module SearchBar {
  import opened Wrappers
  import opened Strings

  /** Where a bar can send the browser; the query travels unencoded in this model. */
  datatype Route = SearchRoute(query: string) | DestinationRoute(id: int)

  /** What a submit or selection does besides updating the bar itself. */
  datatype Outcome = NoAction | CallOnSearch(text: string) | NavigateTo(route: Route)

  datatype Key = Enter | ArrowDown | ArrowUp | Escape | OtherKey

  /** `autoNavigate` is true unless the page passes `false`. */
  function AutoNavigateProp(given: Option<bool>): (b: bool)
    ensures b <==> given != Some(false)
  {
    given.GetOr(true)
  }

  /** The callback wins; without one, navigate only when auto-navigation is on. */
  function Dispatch(hasOnSearch: bool, autoNavigate: bool, text: string, route: Route): (o: Outcome)
    ensures o.CallOnSearch? <==> hasOnSearch
    ensures o.NavigateTo? <==> !hasOnSearch && autoNavigate
    ensures o.CallOnSearch? ==> o.text == text
    ensures o.NavigateTo? ==> o.route == route
  {
    if hasOnSearch then CallOnSearch(text)
    else if autoNavigate then NavigateTo(route)
    else NoAction
  }

  /** `handleSubmit`: a blank query does nothing; otherwise the trimmed query is dispatched. */
  function SubmitOutcome(query: string, hasOnSearch: bool, autoNavigate: bool): (o: Outcome)
    ensures AllSpace(query) ==> o == NoAction
    ensures !AllSpace(query) && hasOnSearch ==> o == CallOnSearch(Trim(query))
    ensures !AllSpace(query) && !hasOnSearch && autoNavigate ==> o == NavigateTo(SearchRoute(Trim(query)))
    ensures !hasOnSearch && !autoNavigate ==> o == NoAction
  {
    TrimEmptyIffAllSpace(query);
    var trimmed := Trim(query);
    if trimmed == "" then NoAction
    else Dispatch(hasOnSearch, autoNavigate, trimmed, SearchRoute(trimmed))
  }

  /** Whatever is submitted is non-empty and carries no surrounding whitespace. */
  lemma SubmittedTextIsTrimmed(query: string, hasOnSearch: bool, autoNavigate: bool)
    ensures var o := SubmitOutcome(query, hasOnSearch, autoNavigate);
      && (o.CallOnSearch? ==> o.text != [] && Trim(o.text) == o.text)
      && (o.NavigateTo? ==> o.route.SearchRoute? && o.route.query != [] && Trim(o.route.query) == o.route.query)
  {
    var t := Trim(query);
    TrimOfTrimmed(t);
    TrimEmptyIffAllSpace(query);
    assert !AllSpace(query) ==> t != [];
  }

  class PlainSearchBar {
    const hasOnSearch: bool
    const autoNavigate: bool
    var query: string

    constructor(hasOnSearch: bool, autoNavigate: Option<bool>)
      ensures this.hasOnSearch == hasOnSearch
      ensures this.autoNavigate == (autoNavigate != Some(false))
      ensures query == ""
    {
      this.hasOnSearch := hasOnSearch;
      this.autoNavigate := AutoNavigateProp(autoNavigate);
      query := "";
    }

    method Type(text: string)
      modifies this
      ensures query == text
    {
      query := text;
    }

    method Submit() returns (o: Outcome)
      ensures o == SubmitOutcome(query, hasOnSearch, autoNavigate)
    {
      o := SubmitOutcome(query, hasOnSearch, autoNavigate);
    }

    /** Enter runs the same submit rule; any other key does nothing. */
    method KeyDown(key: Key) returns (o: Outcome)
      ensures key == Enter ==> o == SubmitOutcome(query, hasOnSearch, autoNavigate)
      ensures key != Enter ==> o == NoAction
    {
      if key == Enter {
        o := Submit();
      } else {
        o := NoAction;
      }
    }
  }
}
