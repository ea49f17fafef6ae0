/**
 * The search bar with autocomplete: a small state machine over the typed query, the
 * suggestion list, the panel's visibility and the keyboard-highlighted row, driven by query
 * changes, keys, clicks, focus and "clear".
 */
module Autocomplete {
  import opened Wrappers
  import opened Strings
  import opened Seqs
  import opened Catalog
  import opened SearchBar

  const MaxSuggestions: nat := 8
  const MinQueryLength: nat := 2

  /** The highlight after ArrowDown: one row further, stopping at the last row. */
  function HighlightDown(index: int, count: nat): (r: int)
    requires -1 <= index < count
    ensures -1 <= r < count
    ensures index < count - 1 ==> r == index + 1
    ensures index == count - 1 ==> r == index
  {
    if index < count - 1 then index + 1 else index
  }

  /** The highlight after ArrowUp: one row back; from the first row, or none, no row. */
  function HighlightUp(index: int): (r: int)
    requires -1 <= index
    ensures -1 <= r <= index
    ensures index > 0 ==> r == index - 1
    ensures index <= 0 ==> r == -1
  {
    if index > 0 then index - 1 else -1
  }

  class AutocompleteBar {
    const search: string -> seq<Destination>
    const hasOnSearch: bool
    const autoNavigate: bool
    var query: string
    var suggestions: seq<Destination>
    var showSuggestions: bool
    var highlightedIndex: int

    /**
     * The highlight is -1 or a row of the list, and any list on offer is the first hits
     * of the fuzzy search for the current query.
     */
    ghost predicate Valid()
      reads this
    {
      && -1 <= highlightedIndex
      && (suggestions != [] ==> highlightedIndex < |suggestions|)
      && (suggestions != [] ==> suggestions == Take(search(query), MaxSuggestions))
    }

    /** The suggestion list is on screen. */
    predicate PanelShown()
      reads this
    {
      showSuggestions && suggestions != []
    }

    constructor(search: string -> seq<Destination>, hasOnSearch: bool, autoNavigate: Option<bool>)
      ensures Valid()
      ensures this.search == search && this.hasOnSearch == hasOnSearch
      ensures this.autoNavigate == (autoNavigate != Some(false))
      ensures query == "" && suggestions == [] && !showSuggestions && highlightedIndex == -1
    {
      this.search := search;
      this.hasOnSearch := hasOnSearch;
      this.autoNavigate := AutoNavigateProp(autoNavigate);
      query := "";
      suggestions := [];
      showSuggestions := false;
      highlightedIndex := -1;
    }

    /** The effect that runs after `query` changes. */
    method RefreshSuggestions()
      requires -1 <= highlightedIndex
      modifies this
      ensures Valid()
      ensures query == old(query)
      ensures |Trim(query)| >= MinQueryLength ==>
        suggestions == Take(search(query), MaxSuggestions) && showSuggestions && highlightedIndex == -1
      ensures |Trim(query)| < MinQueryLength ==>
        suggestions == [] && !showSuggestions && highlightedIndex == old(highlightedIndex)
    {
      if |Trim(query)| >= MinQueryLength {
        suggestions := Take(search(query), MaxSuggestions);
        showSuggestions := true;
        highlightedIndex := -1;
      } else {
        suggestions := [];
        showSuggestions := false;
      }
    }

    /** Typing: the query takes the input's text, and the effect runs when it changed. */
    method ChangeQuery(text: string)
      requires Valid()
      modifies this
      ensures Valid()
      ensures query == text
      ensures text != old(query) && |Trim(text)| >= MinQueryLength ==>
        suggestions == Take(search(text), MaxSuggestions) && |suggestions| <= MaxSuggestions
        && showSuggestions && highlightedIndex == -1
      ensures text != old(query) && |Trim(text)| < MinQueryLength ==>
        suggestions == [] && !showSuggestions && highlightedIndex == old(highlightedIndex)
      ensures text == old(query) ==>
        suggestions == old(suggestions) && showSuggestions == old(showSuggestions)
        && highlightedIndex == old(highlightedIndex)
    {
      if text != query {
        query := text;
        RefreshSuggestions();
      }
    }

    /** `handleSubmit`: a blank query changes nothing; otherwise the panel closes and the trimmed query is dispatched. */
    method Submit() returns (o: Outcome)
      requires Valid()
      modifies this
      ensures Valid()
      ensures o == SubmitOutcome(query, hasOnSearch, autoNavigate)
      ensures query == old(query) && suggestions == old(suggestions) && highlightedIndex == old(highlightedIndex)
      ensures showSuggestions == (old(showSuggestions) && AllSpace(query))
    {
      TrimEmptyIffAllSpace(query);
      if Trim(query) == "" {
        return NoAction;
      }
      showSuggestions := false;
      o := SubmitOutcome(query, hasOnSearch, autoNavigate);
    }

    /**
     * `handleSuggestionClick` together with the query effect it sets off: the query becomes the
     * record's name and the panel is closed, but when the name differs from the old query the
     * effect then runs and, for a name of two or more non-blank characters, opens the panel again.
     */
    method SelectSuggestionAsWritten(d: Destination) returns (o: Outcome)
      requires Valid()
      modifies this
      ensures Valid()
      ensures query == d.name
      ensures o == Dispatch(hasOnSearch, autoNavigate, d.name, DestinationRoute(d.id))
      ensures d.name != old(query) && |Trim(d.name)| >= MinQueryLength ==> showSuggestions
      ensures !(d.name != old(query) && |Trim(d.name)| >= MinQueryLength) ==> !showSuggestions
    {
      var changed := d.name != query;
      query := d.name;
      showSuggestions := false;
      if changed {
        RefreshSuggestions();
      } else {
        assert query == old(query);
      }
      o := Dispatch(hasOnSearch, autoNavigate, d.name, DestinationRoute(d.id));
    }

    /**
     * Choosing a suggestion, as intended: the query becomes the record's name, the suggestions
     * follow the new query, and the panel stays closed.
     */
    method SelectSuggestion(d: Destination) returns (o: Outcome)
      requires Valid()
      modifies this
      ensures Valid()
      ensures query == d.name && !showSuggestions
      ensures o == Dispatch(hasOnSearch, autoNavigate, d.name, DestinationRoute(d.id))
    {
      var changed := d.name != query;
      query := d.name;
      if changed {
        RefreshSuggestions();
      }
      showSuggestions := false;
      o := Dispatch(hasOnSearch, autoNavigate, d.name, DestinationRoute(d.id));
    }

    /**
     * `handleKeyDown`. With no panel on screen only Enter matters, and it submits. With the
     * panel up, the arrows move the highlight, Enter picks the highlighted row or submits, and
     * Escape hides the panel.
     */
    method KeyDown(key: Key) returns (o: Outcome)
      requires Valid()
      modifies this
      ensures Valid()
      ensures !old(PanelShown()) && key == Enter ==>
        o == SubmitOutcome(old(query), hasOnSearch, autoNavigate)
        && query == old(query) && suggestions == old(suggestions) && highlightedIndex == old(highlightedIndex)
        && showSuggestions == (old(showSuggestions) && AllSpace(old(query)))
      ensures !old(PanelShown()) && key != Enter ==> o == NoAction && unchanged(this)
      ensures old(PanelShown()) && key == ArrowDown ==>
        o == NoAction && suggestions == old(suggestions)
        && highlightedIndex == HighlightDown(old(highlightedIndex), |suggestions|)
        && query == old(query) && showSuggestions
      ensures old(PanelShown()) && key == ArrowUp ==>
        o == NoAction && highlightedIndex == HighlightUp(old(highlightedIndex))
        && query == old(query) && suggestions == old(suggestions) && showSuggestions
      ensures old(PanelShown()) && key == Enter && old(highlightedIndex) >= 0 ==>
        var picked := old(suggestions[highlightedIndex]);
        query == picked.name && !showSuggestions
        && o == Dispatch(hasOnSearch, autoNavigate, picked.name, DestinationRoute(picked.id))
      ensures old(PanelShown()) && key == Enter && old(highlightedIndex) < 0 ==>
        o == SubmitOutcome(old(query), hasOnSearch, autoNavigate)
        && query == old(query) && suggestions == old(suggestions) && highlightedIndex == old(highlightedIndex)
        && showSuggestions == (old(showSuggestions) && AllSpace(old(query)))
      ensures old(PanelShown()) && key == Escape ==>
        o == NoAction && !showSuggestions && query == old(query)
        && suggestions == old(suggestions) && highlightedIndex == old(highlightedIndex)
      ensures old(PanelShown()) && key == OtherKey ==> o == NoAction && unchanged(this)
    {
      if !showSuggestions || suggestions == [] {
        if key == Enter {
          o := Submit();
        } else {
          o := NoAction;
        }
        return;
      }
      match key {
        case ArrowDown =>
          highlightedIndex := HighlightDown(highlightedIndex, |suggestions|);
          o := NoAction;
        case ArrowUp =>
          highlightedIndex := HighlightUp(highlightedIndex);
          o := NoAction;
        case Enter =>
          if highlightedIndex >= 0 {
            o := SelectSuggestion(suggestions[highlightedIndex]);
          } else {
            o := Submit();
          }
        case Escape =>
          showSuggestions := false;
          o := NoAction;
        case OtherKey =>
          o := NoAction;
      }
    }

    /** The clear button: empty query, no suggestions, panel hidden; the highlight is left as it was. */
    method Clear()
      requires Valid()
      modifies this
      ensures Valid()
      ensures query == "" && suggestions == [] && !showSuggestions
      ensures highlightedIndex == old(highlightedIndex)
    {
      query := "";
      suggestions := [];
      showSuggestions := false;
    }

    /** Focusing the input re-opens the panel when the untrimmed query has two or more characters. */
    method Focus()
      requires Valid()
      modifies this
      ensures Valid()
      ensures showSuggestions == (old(showSuggestions) || |query| >= MinQueryLength)
      ensures query == old(query) && suggestions == old(suggestions) && highlightedIndex == old(highlightedIndex)
    {
      if |query| >= MinQueryLength {
        showSuggestions := true;
      }
    }

    /** A mouse press outside the bar hides the panel; one inside changes nothing. */
    method MouseDown(inside: bool)
      requires Valid()
      modifies this
      ensures Valid()
      ensures showSuggestions == (old(showSuggestions) && inside)
      ensures query == old(query) && suggestions == old(suggestions) && highlightedIndex == old(highlightedIndex)
    {
      if !inside {
        showSuggestions := false;
      }
    }
  }

  /**
   * The click as written against the corrected click. Type `q` into a freshly mounted bar, then
   * click an offered suggestion whose name differs from `q` and has two or more non-blank
   * characters. The handler as written leaves the suggestion panel open; the corrected one
   * leaves it closed.
   */
  method ClickReopensPanel(search: string -> seq<Destination>, q: string, d: Destination)
    returns (offered: bool, openAsWritten: bool, openCorrected: bool)
    requires |Trim(q)| >= MinQueryLength
    requires d in Take(search(q), MaxSuggestions)
    requires d.name != q && |Trim(d.name)| >= MinQueryLength
    ensures offered && openAsWritten && !openCorrected
  {
    var bar := new AutocompleteBar(search, false, None);
    bar.ChangeQuery(q);
    offered := bar.PanelShown() && d in bar.suggestions;
    var chosen := bar.SelectSuggestionAsWritten(d);
    openAsWritten := bar.showSuggestions;
    var fixedBar := new AutocompleteBar(search, false, None);
    fixedBar.ChangeQuery(q);
    chosen := fixedBar.SelectSuggestion(d);
    openCorrected := fixedBar.showSuggestions;
  }
}
