/**
 * A saved trip as the trip pages read it, and the helpers they share: the `x || null` and
 * `x || ""` conversions between form text and stored values, and the date-range caption.
 */
module Trips {
  import opened Wrappers

  /** A row of the saved-trips table; the budget is kept as a real, `createdAt` as its text. */
  datatype Trip = Trip(
    id: string,
    destinationName: string,
    destinationCountry: string,
    destinationImage: Option<string>,
    startDate: Option<string>,
    endDate: Option<string>,
    notes: Option<string>,
    budget: Option<real>,
    status: string,
    createdAt: string)

  /** `text || null`: empty text is stored as null. */
  function NullIfEmpty(text: string): (r: Option<string>)
    ensures r.None? <==> text == ""
    ensures r.Some? ==> r.value == text
  {
    if text == "" then None else Some(text)
  }

  /** `value || ""`: null (and the empty string) show as an empty field. */
  function EmptyIfNull(value: Option<string>): (r: string)
    ensures value.Some? ==> r == value.value
    ensures value.None? ==> r == ""
  {
    value.GetOr("")
  }

  /** Null or non-empty: the values that survive a trip through the form unchanged. */
  predicate NullOrNonEmpty(value: Option<string>) {
    value.None? || value.value != ""
  }

  /** Filling a field from a stored value and storing it again gives the value back. */
  lemma NullableTextRoundTrip(value: Option<string>)
    requires NullOrNonEmpty(value)
    ensures NullIfEmpty(EmptyIfNull(value)) == value
  {
  }

  /** A date is present when it is neither null nor empty (JavaScript truthiness). */
  predicate Present(date: Option<string>) {
    date.Some? && date.value != ""
  }

  /**
   * The caption for a date range: `missing` without a start, the formatted start alone
   * without an end, otherwise both joined by `separator`. `format` stands for date-fns.
   */
  function FormatRange(start: Option<string>, end: Option<string>, format: string -> string,
                       missing: string, separator: string): (caption: string)
    ensures !Present(start) ==> caption == missing
    ensures Present(start) && !Present(end) ==> caption == format(start.value)
    ensures Present(start) && Present(end) ==> caption == format(start.value) + separator + format(end.value)
  {
    if !Present(start) then missing
    else if !Present(end) then format(start.value)
    else format(start.value) + separator + format(end.value)
  }
}
