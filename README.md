# WanderNest, modelled in Dafny

WanderNest is a travel-planning web application: a catalogue of destinations that can be
searched, filtered, sorted and paged; a wishlist kept in the browser; a gamification page that
awards badges and points for wishlist activity; a personalisation quiz that recommends up to six
catalogue destinations ranked by how well they match the answers; saved trips with an edit form and shareable links; destination detail and
search-result pages backed by place-details and image services; an interactive map with
category chips; an AI concierge chat that reads a server-sent event stream, can generate an
itinerary and suggests place names; a translation lookup; and a newsletter sign-up form.

This project models the logic of those screens and hooks. Pure computations (price extraction,
filtering, sorting, paging, badge thresholds, quiz scoring, trimming, splitting, file names,
the event-stream line classifier, place-name extraction, translation fallback) are Dafny
functions with lemmas about them. Components whose React state changes step by step are
classes whose fields are that state and whose methods are the handlers, each proved against
the functions that specify it. Services the application calls (the database, the details,
image and chat functions, fuzzy search, date and number formatting, the clock) are parameters
of the operations that use them.

Modules, one per source file or shared concern: `Wrappers` (Option), `Strings` and `Seqs`
(the JavaScript string and array operations the application relies on), `Sorting` (a stable
insertion sort standing for `Array.prototype.sort`), `Catalog`, `Destinations`, `SearchBar`,
`Autocomplete`, `Wishlist`, `WishlistPage`, `Gamification`, `Quiz`, `Trips`, `SavedTrips`,
`SharedTrip`, `DestinationDetails`, `InteractiveMap`, `ChatStream`, `PlaceNames`, `Language`,
`Itinerary`, `TripDetails`, `SearchResults` and `Newsletter`.

## Model

| member | source | states |
|---|---|---|
| Strings.Trim | src/pages/SearchResults.tsx:45 | `trim`: the result starts and ends with no whitespace and is no longer than the input |
| Strings.TrimBothEnds | src/pages/SearchResults.tsx:45 | trimming is removing the leading whitespace and then the trailing whitespace |
| Strings.TrimEmptyIffAllSpace | src/pages/AIConcierge.tsx:32 | a string trims to "" exactly when it is all whitespace |
| Strings.TrimOfTrimmed | src/pages/SearchResults.tsx:71 | trimming a string without surrounding whitespace leaves it unchanged |
| Strings.ToLower | src/pages/SearchResults.tsx:82 | `toLowerCase`: same length, every ASCII capital lowered, every other character kept |
| Strings.LeadingDigits | src/pages/Destinations.tsx:63 | the longest prefix made of decimal digits |
| Strings.DecimalRoundTrip | src/pages/Destinations.tsx:64 | reading back a written decimal numeral gives the number |
| Strings.Split | src/components/ItineraryModal.tsx:99 | `split` on one character always yields at least one piece |
| Strings.SplitSeveralIffSeparator | src/components/ItineraryModal.tsx:99-100 | there is more than one piece exactly when the separator occurs |
| Strings.SplitLast | src/components/ItineraryModal.tsx:100 | the last piece is the text after the last separator, holding no separator |
| Strings.BeforeFirst | src/pages/Destinations.tsx:92 | `split(sep)[0]`: the prefix before the first occurrence of the separator, or the whole text without one |
| Strings.LexLeTotal | src/pages/Destinations.tsx:110 | any two names are ordered one way or the other |
| Strings.LexLeTransitive | src/pages/Destinations.tsx:110 | the name order is transitive |
| Strings.LexLeAntisymmetric | src/pages/Destinations.tsx:110 | two names ordered both ways are equal |
| Seqs.Filter | src/pages/SavedTrips.tsx:285 | `filter`: exactly the elements that pass, each as often as before, in order |
| Seqs.Take | src/components/TripDetailsModal.tsx:78 | `slice(0, n)`: the first n elements, or all when there are fewer |
| Seqs.Dedup | supabase/functions/ai-concierge/index.ts:35 | `[...new Set(s)]`: the same elements, none twice |
| Seqs.DedupFirstOccurrenceOrder | supabase/functions/ai-concierge/index.ts:35 | the distinct elements appear in the order of their first occurrences |
| Seqs.FilterNoDup | src/hooks/useWishlist.tsx:42 | filtering a list without duplicates keeps it without duplicates |
| Sorting.Sort | src/pages/Destinations.tsx:101 | `sort` returns a permutation of its input |
| Sorting.SortSorted | src/pages/Destinations.tsx:101 | with a consistent comparator the sorted copy is ordered by it |
| Sorting.SortStable | src/pages/Destinations.tsx:101 | the sort is stable: elements the comparator ties keep their input order |
| Sorting.InsertSorted | src/pages/Destinations.tsx:101 | inserting into an ordered sequence keeps it ordered |
| Sorting.InsertStable | src/pages/Destinations.tsx:101 | an inserted element goes ahead of the elements already tied with it, whose order is kept |
| Destinations.FirstPriceMarker | src/pages/Destinations.tsx:63 | the first position where a '$' followed by a digit occurs, and none exactly when there is no such position |
| Destinations.ExtractPrice | src/pages/Destinations.tsx:62-65 | a price text without a '$' followed by a digit is worth 0 |
| Destinations.ExtractPriceAt | src/pages/Destinations.tsx:62-65 | when the first '$' followed by a digit is at position k, the price is the value of the digit run after it |
| Destinations.LeadingDigitsOfNumeral | src/pages/Destinations.tsx:63 | the digit run of a numeral followed by a non-digit is exactly the numeral |
| Destinations.ExtractPriceOfLabel | src/pages/Destinations.tsx:62-65 | a label with any text before its first '$'-and-digit, then any non-empty digit run (leading zeros included), then text not starting with a digit, is worth the decimal value of that digit run |
| Destinations.ExtractPriceOfAmount | src/pages/Destinations.tsx:62-65 | a written amount after the only '$' of a label reads back exactly |
| Destinations.Candidates | src/pages/Destinations.tsx:82-85 | the fuzzy-search hits when the query has a non-blank character, the whole catalog otherwise |
| Destinations.Filters.With | src/pages/Destinations.tsx:177-277 | choosing a value in one dropdown sets that selection and leaves the other five |
| Destinations.Matches | src/pages/Destinations.tsx:88-97 | the all-sentinel selection matches every record; a match agrees with each specific continent, travel type, budget and (case-insensitively) location type |
| Destinations.ApplyFilters | src/pages/Destinations.tsx:88-98 | exactly the records that pass every selected filter, each as often as before, in their original order |
| Destinations.NoFiltersKeepAll | src/pages/Destinations.tsx:88-98 | with every dropdown at its "All ..." value the filter stage keeps everything |
| Destinations.Precedes | src/pages/Destinations.tsx:101-115 | popularity and rating put a higher rating strictly first, price-low a lower price, price-high a higher price; every option except name compares any two records |
| Destinations.PrecedesIsTotalPreorder | src/pages/Destinations.tsx:101-115 | each sort option's comparator is a total preorder |
| Destinations.SortDestinations | src/pages/Destinations.tsx:101-115 | a permutation sorted by the option: rating descending for popularity and rating, extracted price ascending or descending, name in code-point order |
| Destinations.SortDestinationsStable | src/pages/Destinations.tsx:101-115 | records the comparator ties keep their relative order |
| Destinations.Listing | src/pages/Destinations.tsx:83-115 | exactly the candidates that pass the filters, sorted by the option |
| Destinations.ListingSizeIndependentOfSort | src/pages/Destinations.tsx:101-115 | changing the sort option never changes how many results there are |
| Destinations.ResetListsWholeCatalog | src/pages/Destinations.tsx:51-98 | with no query and no filters the results are the whole catalog, reordered |
| Destinations.TotalPages | src/pages/Destinations.tsx:118 | the number of pages is the smallest count of 12-item pages that covers the results, 0 for no results |
| Destinations.Page | src/pages/Destinations.tsx:119-120 | a page holds at most 12 consecutive results from position (page - 1) * 12; every page before the last is full, an existing page is non-empty, a page past the end is empty |
| Destinations.PagesUpToPrefix | src/pages/Destinations.tsx:119-120 | the first k pages together are the first k * 12 results |
| Destinations.PageIsSlice | src/pages/Destinations.tsx:119-120 | page k is the slice of results from (k - 1) * 12 to k * 12, cut at the end |
| Destinations.PagesCoverResults | src/pages/Destinations.tsx:118-120 | all pages together are exactly the results, in order |
| Destinations.HasActiveFilters | src/pages/Destinations.tsx:122-128 | "clear all" is offered exactly when some dropdown is off its "All ..." value or the search box is non-empty |
| Destinations.ListingPage.Visible | src/pages/Destinations.tsx:120 | at most 12 cards, and some card whenever there are results |
| Destinations.ListingPage.constructor | src/pages/Destinations.tsx:28-44 | no filters, popularity order, page 1, and the query pre-filled from a non-empty `search` parameter |
| Destinations.ListingPage.HandleSearch | src/pages/Destinations.tsx:46-49 | the query is replaced and the page goes back to 1 |
| Destinations.ListingPage.SelectFilter | src/pages/Destinations.tsx:177-277 | one selection changes and the page goes back to 1 |
| Destinations.ListingPage.SelectSort | src/pages/Destinations.tsx:310-324 | the order changes; the page and the set of results stay |
| Destinations.ListingPage.ResetFilters | src/pages/Destinations.tsx:51-60 | query and every selection cleared, page 1, sort kept; the results are the whole catalog |
| Destinations.ListingPage.PreviousPage | src/pages/Destinations.tsx:356 | one page back, never below page 1 |
| Destinations.ListingPage.NextPage | src/pages/Destinations.tsx:377 | one page on, never past the last page |
| Destinations.ListingPage.GoToPage | src/pages/Destinations.tsx:363-367 | the chosen page becomes current |
| Catalog.FindById | src/pages/DestinationDetails.tsx:54 | no record exactly when no record has the id; otherwise the first record with that id |
| Catalog.FindByIdOfMember | src/pages/Gamification.tsx:60 | with unique ids, looking up a catalog member's id finds that member |
| Wishlist.AddId | src/hooks/useWishlist.tsx:34-39 | the id is then in the list, exactly with the earlier ids; a present id leaves the list unchanged, an absent one is appended at the end; no duplicates are introduced |
| Wishlist.RemoveId | src/hooks/useWishlist.tsx:41-43 | the id is gone; every other id keeps its count of occurrences and the order is kept (a subsequence); no duplicates are introduced |
| Wishlist.ToggleId | src/hooks/useWishlist.tsx:49-63 | the id's membership flips and no other id's membership changes |
| Wishlist.AddIdempotent | src/hooks/useWishlist.tsx:36-37 | adding an id twice is adding it once |
| Wishlist.RemoveUndoesAdd | src/hooks/useWishlist.tsx:34-43 | removing an id just added to a list without it gives the list back |
| Wishlist.ToggleTwiceAbsent | src/hooks/useWishlist.tsx:49-63 | toggling an absent id twice gives the list back |
| Wishlist.WishlistStore.constructor | src/hooks/useWishlist.tsx:19-26 | the list read back from storage, or the empty list when nothing readable is stored |
| Wishlist.WishlistStore.Add | src/hooks/useWishlist.tsx:34-39 | the new list is AddId of the old one |
| Wishlist.WishlistStore.Remove | src/hooks/useWishlist.tsx:41-43 | the new list is RemoveId of the old one |
| Wishlist.WishlistStore.IsIn | src/hooks/useWishlist.tsx:45-47 | true exactly when some position of the list holds the id |
| Wishlist.WishlistStore.Toggle | src/hooks/useWishlist.tsx:49-63 | the new list is ToggleId of the old one and the id's membership flips |
| Wishlist.WishlistStore.Count | src/hooks/useWishlist.tsx:73 | the count is the length of the stored list, duplicates included; for a duplicate-free list it is the number of distinct saved ids |
| SearchBar.AutoNavigateProp | src/components/SearchBar.tsx:18 | auto-navigation is on unless the page passes false |
| SearchBar.Dispatch | src/components/SearchBar.tsx:29-33 | the callback is called exactly when there is one; navigation happens exactly when there is none and auto-navigation is on; otherwise nothing |
| SearchBar.SubmitOutcome | src/components/SearchBar.tsx:23-34 | a blank query does nothing; otherwise the trimmed query goes to the callback, or to the search route when auto-navigating, or nowhere |
| SearchBar.SubmittedTextIsTrimmed | src/components/SearchBar.tsx:25-32 | whatever is submitted or navigated to is non-empty and has no surrounding whitespace |
| SearchBar.PlainSearchBar.constructor | src/components/SearchBar.tsx:14-20 | the bar starts empty, with the callback flag and the auto-navigation default |
| SearchBar.PlainSearchBar.Type | src/components/SearchBar.tsx:51 | typing replaces the query |
| SearchBar.PlainSearchBar.Submit | src/components/SearchBar.tsx:23-34 | a submit does what SubmitOutcome says for the current query |
| SearchBar.PlainSearchBar.KeyDown | src/components/SearchBar.tsx:36-40 | Enter submits; any other key does nothing |
| Autocomplete.HighlightDown | src/components/SearchBarWithAutocomplete.tsx:104-109 | the highlight moves one row down and stops at the last row, staying within -1 and the last row |
| Autocomplete.HighlightUp | src/components/SearchBarWithAutocomplete.tsx:110-113 | the highlight moves one row up; from the first row, or from none, no row is highlighted |
| Autocomplete.AutocompleteBar.constructor | src/components/SearchBarWithAutocomplete.tsx:14-25 | empty query, no suggestions, panel hidden, no highlight; the invariant holds |
| Autocomplete.AutocompleteBar.RefreshSuggestions | src/components/SearchBarWithAutocomplete.tsx:56-66 | a trimmed query of two or more characters offers the first eight search hits, shows the panel and clears the highlight; a shorter one empties the list and hides the panel, leaving the highlight |
| Autocomplete.AutocompleteBar.ChangeQuery | src/components/SearchBarWithAutocomplete.tsx:56-66 | the query takes the typed text (the input's change handler); the suggestions are refreshed only when the text changed, and then as RefreshSuggestions says; at most eight are offered |
| Autocomplete.AutocompleteBar.Submit | src/components/SearchBarWithAutocomplete.tsx:68-81 | a blank query changes nothing; otherwise the panel closes and the trimmed query is dispatched as in the plain bar |
| Autocomplete.AutocompleteBar.SelectSuggestionAsWritten | src/components/SearchBarWithAutocomplete.tsx:56-93 | the click handler together with the query effect it triggers: the query becomes the name and the choice is dispatched, but the panel is shown again whenever the name differs from the old query and has two or more non-blank characters |
| Autocomplete.AutocompleteBar.SelectSuggestion | src/components/SearchBarWithAutocomplete.tsx:83-93 | choosing a suggestion sets the query to its name, dispatches the destination route or the callback, and leaves the panel closed |
| Autocomplete.AutocompleteBar.KeyDown | src/components/SearchBarWithAutocomplete.tsx:95-126 | without a visible panel only Enter acts, as a submit; with it, the arrows move the highlight within the list, Enter picks the highlighted row or submits (a non-blank submit closes the panel and keeps the query, suggestions and highlight), Escape hides the panel, other keys change nothing |
| Autocomplete.AutocompleteBar.Clear | src/components/SearchBarWithAutocomplete.tsx:128-132 | empty query, no suggestions, panel hidden; the highlight is left as it was and the invariant still holds |
| Autocomplete.AutocompleteBar.Focus | src/components/SearchBarWithAutocomplete.tsx:146 | focusing shows the panel when the untrimmed query has two or more characters, and changes nothing else |
| Autocomplete.AutocompleteBar.MouseDown | src/components/SearchBarWithAutocomplete.tsx:44-53 | a press outside the bar hides the panel; one inside changes nothing |
| Autocomplete.ClickReopensPanel | src/components/SearchBarWithAutocomplete.tsx:56-93 | after typing a query of two or more non-blank characters, clicking an offered suggestion whose name differs from the query and has two or more non-blank characters leaves the panel open as written and closed as corrected |
| WishlistPage.WishlistDestinations | src/pages/Wishlist.tsx:16 | exactly the catalog records whose id is on the wishlist, in catalog order |
| WishlistPage.ProjectionSize | src/pages/Wishlist.tsx:16 | with unique catalog ids, as many records are shown as there are wishlisted ids with a catalog record |
| WishlistPage.ShownAtMostWishlisted | src/pages/Wishlist.tsx:16-35 | the page never shows more destinations than the wishlist holds |
| WishlistPage.CountLabel | src/pages/Wishlist.tsx:35 | the singular word exactly for one destination, the plural otherwise |
| WishlistPage.EmptyStateIffNoKnownId | src/pages/Wishlist.tsx:45 | the empty-state card shows exactly when no catalog record's id is on the wishlist |
| Gamification.CountBadge | src/pages/Gamification.tsx:73-183 | a counting badge is unlocked exactly when the count reaches its requirement, and its progress is the count capped at the requirement |
| Gamification.LockedBadge | src/pages/Gamification.tsx:187-208 | the social badges are never unlocked and show no progress |
| Gamification.CountWhere | src/pages/Gamification.tsx:135-136 | a filtered count of wishlist ids never exceeds the wishlist's length |
| Gamification.Viewed | src/pages/Gamification.tsx:58-68 | the set of continents or countries reached holds no empty value |
| Gamification.ViewedAtMostWishlist | src/pages/Gamification.tsx:58-68 | no more distinct continents or countries are reached than there are wishlist ids |
| Gamification.ViewedOfLast | src/pages/Gamification.tsx:58-68 | the last wishlist id adds at most one value to the set reached |
| Gamification.Badges | src/pages/Gamification.tsx:71-250 | fifteen badges, each with progress within its requirement and unlocked exactly at the requirement |
| Gamification.ExplorerBadges | src/pages/Gamification.tsx:73-127 | five explorer badges counting wishlist ids |
| Gamification.CollectorBadges | src/pages/Gamification.tsx:130-184 | five collector badges counting wishlisted destinations by continent or category |
| Gamification.SocialBadges | src/pages/Gamification.tsx:187-208 | two social badges |
| Gamification.SpecialBadges | src/pages/Gamification.tsx:211-249 | three special badges: hidden gems, countries, continents |
| Gamification.FirstStepsAndContinentHopper | src/pages/Gamification.tsx:73-249 | the first badge is unlocked exactly for a non-empty wishlist; the continent badge exactly at four continents, which needs four wishlist ids |
| Gamification.UnlockedCount | src/pages/Gamification.tsx:264 | never more unlocked badges than badges |
| Gamification.TotalPoints | src/pages/Gamification.tsx:265 | ten points per wishlist id at least, and at most a hundred per badge on top |
| Gamification.NextBadge | src/pages/Gamification.tsx:266 | the first badge that is locked with some progress, and none exactly when no badge is |
| Gamification.Rank | src/pages/Gamification.tsx:330 | the shown rank is nine minus the unlocked count, never below one |
| Gamification.FilteredBadges | src/pages/Gamification.tsx:268-270 | "all" shows every badge; otherwise exactly the badges of the chosen category, in order |
| Quiz.TypeHits | src/components/PersonalizationQuiz.tsx:92-96 | at most one hit per travel type, and none without tags |
| Quiz.Score | src/components/PersonalizationQuiz.tsx:88-109 | at most 2 per travel type plus 5, and 0 without tags |
| Quiz.ComputeScore | src/components/PersonalizationQuiz.tsx:89-106 | the scoring loop computes exactly the score: 2 per matching travel type, 3 for the category, 2 for the budget level |
| Quiz.ByScore | src/components/PersonalizationQuiz.tsx:113 | a higher score comes strictly first, and equal scores compare as ties both ways |
| Quiz.ByScoreIsTotalPreorder | src/components/PersonalizationQuiz.tsx:113 | the descending-score comparator is a total preorder |
| Quiz.Ranked | src/components/PersonalizationQuiz.tsx:112-113 | the catalog reordered (same elements, same multiplicities) with scores never increasing |
| Quiz.Recommend | src/components/PersonalizationQuiz.tsx:112-115 | six destinations, or the whole catalog when smaller, drawn from the catalog, best score first |
| Quiz.RecommendIsTop | src/components/PersonalizationQuiz.tsx:112-115 | no destination left out scores higher than one recommended |
| Quiz.RankedIsStable | src/components/PersonalizationQuiz.tsx:113 | destinations with equal scores keep their catalog order |
| Quiz.RecordAnswer | src/components/PersonalizationQuiz.tsx:74 | the answer for the question is the given tags; every other question's answer is unchanged |
| Quiz.AllTags | src/components/PersonalizationQuiz.tsx:85 | every tag of every answer is among the tags scored |
| Quiz.QuizState.constructor | src/components/PersonalizationQuiz.tsx:67-71 | the quiz starts at the first question with no answers and no results |
| Quiz.QuizState.HandleAnswer | src/components/PersonalizationQuiz.tsx:73-82 | the answer is recorded; before the last question the quiz moves on, on the last it shows the recommendations for all answers |
| Quiz.QuizState.Reset | src/components/PersonalizationQuiz.tsx:121-126 | back to the first question with no answers, recommendations or results |
| Trips.NullIfEmpty | src/pages/SavedTrips.tsx:153-156 | null exactly for empty text, the text otherwise |
| Trips.EmptyIfNull | src/pages/SavedTrips.tsx:230-233 | the stored text, or "" for null |
| Trips.NullableTextRoundTrip | src/pages/SavedTrips.tsx:153-233 | a stored value that is null or non-empty survives a trip through the form |
| Trips.FormatRange | src/pages/SavedTrips.tsx:290-296 | no start: the missing caption; start only: the formatted start; both: the two joined by the separator |
| SavedTrips.TripData | src/pages/SavedTrips.tsx:149-159 | name, country and status copied; each optional field null exactly when its form text is empty; the budget parsed when given |
| SavedTrips.EditForm | src/pages/SavedTrips.tsx:225-236 | name, country and status copied; the budget field is empty exactly when there is no budget to show |
| SavedTrips.EditThenSaveRoundTrip | src/pages/SavedTrips.tsx:149-236 | editing a trip and saving it unchanged writes back exactly its stored fields |
| SavedTrips.FilterTrips | src/pages/SavedTrips.tsx:283-289 | "all" keeps every trip; each tab keeps exactly the trips of its statuses, in order |
| SavedTrips.WithoutTrip | src/pages/SavedTrips.tsx:217 | after a delete, exactly the trips with another id remain, each as often as before, in order |
| SavedTrips.SaveDisabled | src/pages/SavedTrips.tsx:655 | saving is enabled exactly when both the name and the country are filled in |
| SavedTrips.SavedTripsPage.constructor | src/pages/SavedTrips.tsx:72-95 | no trips, a blank form with status "planned", nothing being edited, the dialog closed |
| SavedTrips.SavedTripsPage.Delete | src/pages/SavedTrips.tsx:204-223 | a successful delete removes the trips with that id; a failed one changes nothing |
| SavedTrips.SavedTripsPage.Edit | src/pages/SavedTrips.tsx:225-238 | the trip becomes the one edited, the form is filled from it and the dialog opens |
| SavedTrips.SavedTripsPage.ResetForm | src/pages/SavedTrips.tsx:240-252 | nothing is being edited and the form is blank with status "planned" |
| SavedTrips.SavedTripsPage.Save | src/pages/SavedTrips.tsx:146-202 | nothing without a user; otherwise an update of the edited trip or an insert, with the form's fields; the dialog closes and the form resets |
| SharedTrip.FormatDateRange | src/pages/SharedTrip.tsx:83-89 | "Dates not set" without a start; the formatted start alone without an end; otherwise both joined by " - " |
| SharedTrip.SharedTripView.constructor | src/pages/SharedTrip.tsx:25-27 | loading, with no trip and no error |
| SharedTrip.Expired | src/pages/SharedTrip.tsx:51 | a link expires exactly when its expiry is set, non-empty, parses, and lies before now; a missing, empty or unparsable expiry never expires |
| SharedTrip.SharedTripView.Fetch | src/pages/SharedTrip.tsx:29-81 | the checks run in order (token, share row, expiry, public flag, trip row); the first that fails sets its message and stops the queries; a trip is shown exactly when no error is set |
| DestinationDetails.Lookup | src/pages/DestinationDetails.tsx:54 | the record whose id is the route parameter read as a number; none (the not-found view) when it is not a number or no record has that id |
| DestinationDetails.Related | src/pages/DestinationDetails.tsx:182-190 | at most three records, in catalog order: with a nearby list, catalog records whose name contains a nearby name ignoring case; without one, other records of the same country |
| DestinationDetails.EmptyNearbyShowsNothing | src/pages/DestinationDetails.tsx:182-187 | an empty nearby list selects nothing rather than falling back to the country |
| DestinationDetails.SelfCanBeRelated | src/pages/DestinationDetails.tsx:182-187 | a record whose own name is on its nearby list is listed as related to itself |
| DestinationDetails.SecureUrl | src/pages/DestinationDetails.tsx:79-81 | an `http://` URL becomes the same URL with `https://`; any other URL is kept |
| DestinationDetails.ImageFromResults | src/pages/DestinationDetails.tsx:77-86 | the hero image is set exactly when the lookup found images, to the first one made secure |
| DestinationDetails.PreferText | src/pages/DestinationDetails.tsx:339 | a non-empty AI value wins over the catalog value |
| DestinationDetails.PreferList | src/pages/DestinationDetails.tsx:438 | a non-empty AI list wins over the catalog list |
| DestinationDetails.Display | src/pages/DestinationDetails.tsx:339-527 | for each of best season, currency, budget level, overview, attractions, safety tips and transport: a non-empty AI value shows; without AI details, or with an empty AI value, the catalog's shows (the overview falling back to the description, missing tip and transport lists shown empty) |
| DestinationDetails.DetailsPage.constructor | src/pages/DestinationDetails.tsx:48-49 | not saving, not saved |
| DestinationDetails.DetailsPage.SaveTrip | src/pages/DestinationDetails.tsx:132-166 | without a user, go to sign-in and insert nothing; otherwise insert a planned trip with the record's name, country and image (null when empty), saved only on success, saving over |
| InteractiveMap.ToggleFilter | src/pages/InteractiveMap.tsx:93-97 | an active chip is switched off (every copy) and the others stay; an inactive one is appended |
| InteractiveMap.ToggleFilterTwice | src/pages/InteractiveMap.tsx:93-97 | toggling the same chip twice gives back the same set of active categories |
| InteractiveMap.ToggleSaved | src/pages/InteractiveMap.tsx:99-102 | the bookmark flips on every location with that id and on no other; the list keeps its length |
| InteractiveMap.ToggleSavedTwice | src/pages/InteractiveMap.tsx:99-102 | saving and unsaving the same location restores every bookmark |
| InteractiveMap.Shown | src/pages/InteractiveMap.tsx:118 | exactly the locations whose category is active, in their original order |
| InteractiveMap.AllShownInitially | src/pages/InteractiveMap.tsx:118 | with all four categories active, every location of a known category is shown |
| InteractiveMap.InitialLocationsAllShown | src/pages/InteractiveMap.tsx:25-118 | on first render all five locations are shown |
| InteractiveMap.CategoryClass | src/pages/InteractiveMap.tsx:125-128 | the gray class exactly for a category without a chip |
| InteractiveMap.MarkerColor | src/pages/InteractiveMap.tsx:130-138 | the gray marker exactly for a category without a chip |
| InteractiveMap.MapPage.constructor | src/pages/InteractiveMap.tsx:25-84 | all four categories active and the five initial locations |
| InteractiveMap.MapPage.ToggleFilterChip | src/pages/InteractiveMap.tsx:93-97 | the active chips are toggled; the locations are unchanged |
| InteractiveMap.MapPage.ToggleSave | src/pages/InteractiveMap.tsx:99-108 | the bookmark flips; the toast says "Removed from saved" exactly when the first location with that id was saved before the press |
| InteractiveMap.FirstId | src/pages/InteractiveMap.tsx:103 | the position `find` stops at: the first location with the id, or the length when there is none |
| ChatStream.StripCR | src/pages/AIConcierge.tsx:71 | a trailing carriage return is removed and nothing else changes |
| ChatStream.Classify | src/pages/AIConcierge.tsx:72-79 | comment, blank and non-`data: ` lines are skipped (both directions); otherwise the trimmed payload is the end marker or a JSON payload |
| ChatStream.StepOf | src/pages/AIConcierge.tsx:67-102 | a line finishes exactly at the end marker, blocks exactly when its payload does not parse (putting back the line without its carriage return), and adds a non-empty delta only from a parsed payload |
| ChatStream.Drain | src/pages/AIConcierge.tsx:67-103 | the inner loop never ends both finished and blocked, and the answer text it starts from is a prefix of the text it ends with |
| ChatStream.Run | src/pages/AIConcierge.tsx:61-103 | the outer read loop over the chunks only ever extends the answer text: what it starts from is a prefix of what it ends with |
| ChatStream.DrainKeepsIncompleteLine | src/pages/AIConcierge.tsx:67-69 | unless a line finished or blocked the loop, what stays in the buffer is exactly the text after the last newline |
| ChatStream.DrainShift | src/pages/AIConcierge.tsx:84-85 | the deltas are appended in order to the text already gathered, and where the loop stops does not depend on that text |
| ChatStream.SkippedLine | src/pages/AIConcierge.tsx:72-73 | a comment, blank or non-data line adds nothing |
| ChatStream.SkipLine | src/pages/AIConcierge.tsx:72 | lines starting with ':' and blank lines are skipped |
| ChatStream.ClassifyDataLine | src/pages/AIConcierge.tsx:73-79 | a `data: ` line is the end marker or carries its trimmed payload |
| ChatStream.StripCRKeepsPayload | src/pages/AIConcierge.tsx:71-75 | removing a trailing carriage return does not change what a data line means |
| ChatStream.DoneLineIsDone | src/pages/AIConcierge.tsx:73-76 | the line `data: [DONE]` is classified as the end of the stream |
| ChatStream.DoneLineFinishes | src/pages/AIConcierge.tsx:71-78 | `data: [DONE]` has no carriage return and finishes the stream |
| ChatStream.DoneLineStops | src/pages/AIConcierge.tsx:76-78 | an end-marker line stops the inner loop at once, whatever follows, adding nothing |
| ChatStream.BlockedStaysBlocked | src/pages/AIConcierge.tsx:99-102 | a line that blocks stays first however much text arrives after it, and nothing is added |
| ChatStream.BlockedLineBlocksAgain | src/pages/AIConcierge.tsx:99-101 | the line put back after a parse failure blocks again when read next |
| ChatStream.PutBackLineBlocks | src/pages/AIConcierge.tsx:100 | a buffer with the put-back line in front blocks at that line |
| ChatStream.DrainBlockedHead | src/pages/AIConcierge.tsx:99-102 | when the inner loop blocks, the line it leaves in front is one that blocks |
| ChatStream.DoneIgnoresLaterChunks | src/pages/AIConcierge.tsx:61-78 | once the end marker has been read, later chunks change nothing |
| ChatStream.BlockedStreamAddsNothing | src/pages/AIConcierge.tsx:61-104 | with a blocking line in front, no number of further chunks adds to the assistant text |
| ChatStream.MalformedLineStallsAnswer | src/pages/AIConcierge.tsx:81-102 | after a payload fails to parse, the answer never grows again in that response |
| ChatStream.Merge | src/pages/AIConcierge.tsx:86-97 | the text replaces a trailing assistant message, or is appended as one; everything before is kept |
| ChatStream.MergeTwice | src/pages/AIConcierge.tsx:86-97 | successive deltas keep one assistant message holding the latest text |
| ChatStream.MergeReply | src/pages/AIConcierge.tsx:86-97 | after the user's message there is exactly one assistant reply, holding the gathered text |
| ChatStream.Concierge.constructor | src/pages/AIConcierge.tsx:18-20 | no messages, empty input, not loading |
| ChatStream.Concierge.SetInput | src/pages/AIConcierge.tsx:19 | the input is replaced; nothing else changes |
| ChatStream.Concierge.SendMessage | src/pages/AIConcierge.tsx:31-37 | nothing happens for whitespace-only input or while loading; otherwise the user message is appended, the input cleared and loading set |
| ChatStream.Concierge.ReadLines | src/pages/AIConcierge.tsx:66-103 | the inner loop ends in the state the line-by-line drain specifies, and the messages hold the user's message and then the gathered reply |
| ChatStream.Concierge.TakeLine | src/pages/AIConcierge.tsx:67-101 | one line taken off (or put back) without changing the drain's outcome; the buffer shrinks while reading goes on |
| ChatStream.Concierge.LineStep | src/pages/AIConcierge.tsx:71-102 | the handling of one line is the step the classification specifies |
| ChatStream.Concierge.ReceiveStream | src/pages/AIConcierge.tsx:51-114 | a failed response leaves the messages; otherwise they gain the reply the chunk-by-chunk run specifies; loading ends on every path |
| PlaceNames.LowerRunEnd | supabase/functions/ai-concierge/index.ts:14 | the end of the lower-case letters from a position: all before it lower-case, the one at it not |
| PlaceNames.SpaceRunEnd | supabase/functions/ai-concierge/index.ts:14 | the end of the maximal whitespace run from a position: all before it whitespace, the character at it not |
| PlaceNames.WordEnd | supabase/functions/ai-concierge/index.ts:14 | a capitalised word is at least two characters long |
| PlaceNames.RunEnd | supabase/functions/ai-concierge/index.ts:14 | a run of capitalised words is at least two characters long and stays within the text |
| PlaceNames.Runs | supabase/functions/ai-concierge/index.ts:14 | every match of the capitalised-run pattern is at least two characters and starts with an upper-case letter |
| PlaceNames.RunPosition | supabase/functions/ai-concierge/index.ts:14 | every run found is the whole match at a position where the pattern can start (after a non-word character) |
| PlaceNames.RunPositionAtMatch | supabase/functions/ai-concierge/index.ts:14 | the same, for a search that starts where a match starts |
| PlaceNames.RunsAtNoMatch | supabase/functions/ai-concierge/index.ts:14 | where no match starts, the search moves on one character |
| PlaceNames.RunsAtMatch | supabase/functions/ai-concierge/index.ts:14 | where a match starts, it is the next run and the search resumes at its end |
| PlaceNames.TwoRunsExample | supabase/functions/ai-concierge/index.ts:14 | "Trip to Paris" gives the runs "Trip" and "Paris": a lower-case word ends a run |
| PlaceNames.Accepted | supabase/functions/ai-concierge/index.ts:23-30 | the recorded phrase captures are exactly the captures longer than two characters, each trimmed, in order |
| PlaceNames.AcceptedSnoc | supabase/functions/ai-concierge/index.ts:23-30 | one more capture adds its trimmed text when longer than two characters and nothing otherwise, as each loop iteration does |
| PlaceNames.ExtractPlaceNames | supabase/functions/ai-concierge/index.ts:9-36 | runs then accepted captures, filtered and de-duplicated; the names have no duplicates, are longer than two characters, are not common words, and are exactly the kept candidates |
| PlaceNames.NamesInFirstOccurrenceOrder | supabase/functions/ai-concierge/index.ts:35 | the names keep the order of their first occurrence among the candidates |
| PlaceNames.RunsComeFirst | supabase/functions/ai-concierge/index.ts:14-30 | the capitalised runs come before every phrase capture |
| PlaceNames.LastUserIndex | supabase/functions/ai-concierge/index.ts:78 | the position of the last "user" message, and none exactly when there is no "user" message |
| PlaceNames.LastUserMessage | supabase/functions/ai-concierge/index.ts:78 | the content of the last "user" message whenever there is one, and "" when there is none |
| PlaceNames.ImageQuery | supabase/functions/ai-concierge/index.ts:82-85 | a photo lookup exactly when a key is configured and a name was found, for the first name |
| Language.Entry | src/hooks/useLanguage.tsx:166 | an entry exactly when the language has a table holding a non-empty text for the key |
| Language.GetTranslation | src/hooks/useLanguage.tsx:165-167 | the language's own non-empty entry, else the English one, else the key; never empty for a non-empty key |
| Language.NoTableMeansEnglish | src/hooks/useLanguage.tsx:165-167 | a language without a table reads exactly like English |
| Language.ListedWithoutTableReadLikeEnglish | src/hooks/useLanguage.tsx:11-167 | with tables for English, Spanish, French and Hindi only, the other six offered languages read like English |
| Language.TranslationNeverEmpty | src/hooks/useLanguage.tsx:166 | a non-empty key is never translated to "" |
| Language.LanguageState.constructor | src/hooks/useLanguage.tsx:178-188 | a stored language that reads back is used; no stored value, or one that does not read back, gives English |
| Language.LanguageState.SetLanguage | src/hooks/useLanguage.tsx:190-193 | the chosen language becomes current |
| Language.LanguageState.T | src/hooks/useLanguage.tsx:195-197 | `t(key)` is the translation in the current language |
| Itinerary.CountryOf | src/components/ItineraryModal.tsx:99-100 | without a comma the country is the destination as it stands |
| Itinerary.CountryAfterLastComma | src/components/ItineraryModal.tsx:99-100 | with a comma, the country is the trimmed text after the last comma, which holds no further comma |
| Itinerary.SafeChar | src/components/ItineraryModal.tsx:72 | ASCII letters and digits are kept; every other character becomes '_' |
| Itinerary.SafeName | src/components/ItineraryModal.tsx:72 | same length as the destination, character by character the safe character, and only letters, digits and '_' |
| Itinerary.SafeNameIdempotent | src/components/ItineraryModal.tsx:72 | making a name safe twice gives the name made safe once |
| Itinerary.SafeNameKeepsPlainNames | src/components/ItineraryModal.tsx:72 | a name of letters and digits only is kept unchanged |
| Itinerary.DownloadFilename | src/components/ItineraryModal.tsx:72 | the file name is the safe destination name followed by "_itinerary.txt" |
| Itinerary.ItineraryDialog.constructor | src/components/ItineraryModal.tsx:22-26 | the dialog starts with no itinerary, no destination, not generating, not saving, not saved |
| Itinerary.ItineraryDialog.Generate | src/components/ItineraryModal.tsx:30-63 | a successful reply sets itinerary and destination; a failure leaves both; generation ends either way |
| Itinerary.ItineraryDialog.DownloadItinerary | src/components/ItineraryModal.tsx:65-82 | a file exactly when there is a non-empty itinerary, named after the destination and holding the itinerary |
| Itinerary.ItineraryDialog.SaveToTrips | src/components/ItineraryModal.tsx:84-127 | an insert exactly when signed in with an itinerary; the row carries destination, country, itinerary notes and "planned"; saved only on success; saving ends |
| Itinerary.ItineraryDialog.OpenChange | src/components/ItineraryModal.tsx:129-137 | closing clears itinerary, destination and saved mark; opening changes nothing |
| TripDetails.OrElse | src/components/TripDetailsModal.tsx:77-79 | `a` or else `b`: the optional text when present and non-empty, the alternative otherwise |
| TripDetails.Project | src/components/TripDetailsModal.tsx:75-82 | details exactly for a reply without error; overview falls back to description then to a sentence naming the place; best time to "Year-round"; lists are the first 4, 3 and 3 entries |
| TripDetails.ProjectedDetailsAreBounded | src/components/TripDetailsModal.tsx:76-81 | projected details have a non-empty overview and best time, lists within their caps, highlights a subsequence of the reply's attractions |
| TripDetails.Truncate | src/components/TripDetailsModal.tsx:273-283 | texts up to the limit are kept; longer ones become their first `n` characters and "..." |
| TripDetails.TruncateIdempotent | src/components/TripDetailsModal.tsx:273-283 | a shown text is at most the limit plus the ellipsis long, and truncating it again changes nothing |
| TripDetails.ShownOverview | src/components/TripDetailsModal.tsx:273 | an overview of at most 200 characters is shown whole; the shown text never exceeds 203 |
| TripDetails.HighlightBadges | src/components/TripDetailsModal.tsx:279-285 | one badge per highlight, each the highlight cut at 25 characters |
| TripDetails.FormatDateRange | src/components/TripDetailsModal.tsx:91-97 | no start: "Dates to be decided"; start only: the formatted start; both: the two joined by " – " |
| TripDetails.BudgetLabel | src/components/TripDetailsModal.tsx:251 | for a real-valued budget, "Flexible" exactly for no budget or a zero budget; otherwise "$" and the formatted amount |
| TripDetails.DashFrom | src/components/TripDetailsModal.tsx:204 | the scanned text holds no whitespace and is no longer than the input |
| TripDetails.DashRuns | src/components/TripDetailsModal.tsx:204 | the replaced text holds no whitespace and is no longer than the input |
| TripDetails.DashFromKeepsPlainText | src/components/TripDetailsModal.tsx:204 | text without whitespace passes the scan unchanged, whatever the scan's state |
| TripDetails.DashRunsKeepsPlainText | src/components/TripDetailsModal.tsx:204 | a name without whitespace is kept as it is |
| TripDetails.DashRunsIdempotent | src/components/TripDetailsModal.tsx:204 | replacing the whitespace runs twice gives the same as once |
| TripDetails.DashFromSingleDashes | src/components/TripDetailsModal.tsx:204 | for text without dashes, no two dashes in a row, and the first output character is a dash exactly when a new whitespace run starts |
| TripDetails.DashRunsSingleDashes | src/components/TripDetailsModal.tsx:204 | for a name without dashes, no two dashes in a row, and a leading dash exactly for leading whitespace |
| TripDetails.DashFromAppend | src/components/TripDetailsModal.tsx:204 | the replacement of a concatenation is the replacement of the first part, then of the second continuing the first part's open run |
| TripDetails.DashFromSkipsRun | src/components/TripDetailsModal.tsx:204 | whitespace inside an open run adds nothing |
| TripDetails.DashRunsSplice | src/components/TripDetailsModal.tsx:204 | a maximal whitespace run between two texts becomes exactly one '-', and the texts on either side are replaced on their own, their other characters kept in order |
| TripDetails.PdfFilename | src/components/TripDetailsModal.tsx:204 | the PDF name ends in "-trip-plan.pdf" and holds no whitespace |
| TripDetails.PdfFilenameOfPlainName | src/components/TripDetailsModal.tsx:204 | a name without whitespace is used as it is before the suffix |
| SearchResults.QueryOf | src/pages/SearchResults.tsx:45 | the search term is the trimmed `q` parameter, or "" without one |
| SearchResults.EmptyQueryIffBlank | src/pages/SearchResults.tsx:45 | the search prompt shows exactly when `q` is absent or only whitespace |
| SearchResults.Fallback | src/pages/SearchResults.tsx:121-132 | the fallback record names the search term, has no country, no lists, "Year-round", "Varies", and an overview starting with the term |
| SearchResults.DetailsResult | src/pages/SearchResults.tsx:110-134 | a failed details call gives the fallback record, a successful one its body (possibly null) |
| SearchResults.ImagesResult | src/pages/SearchResults.tsx:96-108 | a failed image call or a missing list gives no images, never an error |
| SearchResults.CanonicalName | src/pages/SearchResults.tsx:71 | the details' non-empty name, otherwise the search term, trimmed |
| SearchResults.CanonicalCountry | src/pages/SearchResults.tsx:72 | the details' country trimmed, or "" without details |
| SearchResults.ImageQuery | src/pages/SearchResults.tsx:73-75 | "<name> <country>" with a country, the name alone without one |
| SearchResults.FallbackNeverRetries | src/pages/SearchResults.tsx:79-132 | after a failed details call for a trimmed term the image lookup is never repeated |
| SearchResults.FallbackQueriesTermAlone | src/pages/SearchResults.tsx:71-132 | after a failed details call the image query is the term itself |
| SearchResults.QueriesSent | src/pages/SearchResults.tsx:77-85 | one or two queries; the second, the corrected name alone, exactly when the first found nothing and the name changed other than in case |
| SearchResults.ImagesShown | src/pages/SearchResults.tsx:77-87 | the images shown are those answered to the last query sent |
| SearchResults.FoundImagesAreKept | src/pages/SearchResults.tsx:80-87 | when the first lookup finds images, it is the only lookup and its images are shown |
| SearchResults.ResultsPage.constructor | src/pages/SearchResults.tsx:45-50 | the page starts loading with the trimmed query and nothing fetched |
| SearchResults.ResultsPage.Load | src/pages/SearchResults.tsx:52-60 | with no query, loading stops and nothing is fetched; otherwise the details of the query are stored and one or two image lookups are sent |
| SearchResults.ResultsPage.FetchPlaceData | src/pages/SearchResults.tsx:62-94 | details stored first, queries and shown images as the lookup rules say, error cleared, loading over |
| SearchResults.ResultsPage.LookUpImages | src/pages/SearchResults.tsx:71-87 | the queries sent and the images kept are those the retry rule gives |
| Newsletter.AddSubscriber | src/components/NewsletterSignup.tsx:37-41 | the stored list afterwards holds the address and exactly the earlier addresses; unchanged when the address was present, extended by it at the end otherwise |
| Newsletter.AddSubscriberKeepsNoDup | src/components/NewsletterSignup.tsx:38-41 | a subscriber list without duplicates stays without duplicates |
| Newsletter.AddSubscriberTwice | src/components/NewsletterSignup.tsx:38-41 | subscribing the same address twice stores it once |
| Newsletter.SignupForm.constructor | src/components/NewsletterSignup.tsx:14-16 | the form starts with an empty address, not loading and not subscribed |
| Newsletter.SignupForm.Type | src/components/NewsletterSignup.tsx:64-67 | typing sets the address unless the field is disabled (loading or subscribed); nothing else changes |
| Newsletter.LooksLikeEmail | src/components/NewsletterSignup.tsx:22 | an address passes exactly when some character of it is '@' (so it is non-empty) |
| Newsletter.SignupForm.Subscribe | src/components/NewsletterSignup.tsx:19-50 | accepted exactly when the address is non-empty and contains '@'; a rejected address changes nothing; an accepted one is added once to the stored list and leaves the form subscribed and not loading; the list stays duplicate-free |
| Newsletter.SignupForm.Reset | src/components/NewsletterSignup.tsx:52-55 | the timed reset clears the address and the subscribed mark and keeps the stored list |

## Left out

- Fuse.js fuzzy matching: the fuzzy search is a parameter (`search: string -> seq<Destination>`), so its ranking and thresholds are not modelled, only what the screens do with its hits.
- Network and database calls (Supabase queries and inserts, the details, image, itinerary and chat functions) are modelled by their answers, passed in as parameters; request bodies, headers and retries inside those functions are not modelled.
- Browser storage: the wishlist, language and newsletter lists are modelled as the values read back; the `localStorage` reads and writes themselves, and their JSON encoding, are not modelled.
- React scheduling: state updates are applied in the order the handlers make them; batching, re-render timing, effect cleanup and concurrent requests are not modelled.
- Timers: the newsletter's one-second delay and its three-second reset are modelled as plain method calls without timing.
- The saved trips page's share-link dialog (creating or reusing a share token) and the copy-to-clipboard flags are not modelled; reading a shared trip is, in `SharedTrip`.
- Floating point: ratings are `real`; the map centre averaging and any rounding of prices or points are not modelled.
- `localeCompare` on names is modelled as lexicographic code-point order (`Strings.LexLe`), not locale collation.
- Case mapping (`toLowerCase`) is ASCII-only, and strings are sequences of characters rather than UTF-16 code units.
- `parseInt` is modelled on unbounded integers; its handling of signs, exponents and very long digit runs beyond what the price labels contain is not modelled.
- Date formatting (`date-fns` `format`) and number formatting (`toLocaleString`) are parameters.
- `encodeURIComponent`: routes carry the query text unencoded; the encoding is a bijection the model does not need.
- Translation tables: their contents are abstract; only the lookup order and its English fallback are modelled.
- The PDF export's layout (fonts, positions, page breaks and the 300-character overview cut in the PDF) is not modelled; only its file name is.
- The concierge function's regular expressions are modelled by the runs they match; the image event the function appends to its stream is not modelled.
- Fields the AI or details services omit are modelled as `None` or `""`; a reader error in the middle of a stream is not modelled.
- Presentation helpers (status colours and labels, badge tier colours, icons) are not modelled.
- The trip-details dialog's own image lookup (`fetchImage`) is not modelled.
- After a saved trip is inserted or updated, the page refetches the list; the model leaves the list as it was and returns the row written.
- On the map, the selected location, route options and the map key are not modelled.
- Autocomplete.AutocompleteBar.KeyDown: Enter on a highlighted row uses the corrected `SelectSuggestion`, not the as-written click.
- Autocomplete.AutocompleteBar.Clear: the highlight is left as it was, as the code at lines 128-132 does; it is not reset to -1.
- Itinerary.CountryOf: its own ensures covers only destinations without a comma; the comma case is stated by `Itinerary.CountryAfterLastComma`.
- SharedTrip.SharedTripView.Fetch: modelled for the first fetch after mounting, with no trip and no error yet.
- Destinations.SortDestinations: a record without a price sorts as price 0, so it comes first under price-low; the model follows the code.

## Findings

| source | as written | input that shows it | evidently intended | confidence | as-written member | corrected member |
|---|---|---|---|---|---|---|
| src/components/SearchBarWithAutocomplete.tsx:83-93 | the click handler hides the panel and sets the query to the chosen name; the query change then runs the effect at lines 56-66, which shows the panel again | a click on a suggestion whose name differs from the typed query and has two or more non-blank characters, for example "Kyoto" after typing "ky" | the panel stays closed after a suggestion is chosen | not executed | Autocomplete.AutocompleteBar.SelectSuggestionAsWritten | Autocomplete.AutocompleteBar.SelectSuggestion |
