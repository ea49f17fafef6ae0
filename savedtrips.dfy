/**
 * The saved-trips dashboard: status tabs over the visitor's trips, the add/edit form and
 * the record it writes, and the local list update after a delete.
 */
module SavedTrips {
  import opened Wrappers
  import opened Seqs
  import opened Trips

  /** The add/edit form: every field is text. */
  datatype TripForm = TripForm(
    destinationName: string,
    destinationCountry: string,
    destinationImage: string,
    startDate: string,
    endDate: string,
    notes: string,
    budget: string,
    status: string)

  /** The fields written on save (`tripData`, without the user id). */
  datatype TripFields = TripFields(
    destinationName: string,
    destinationCountry: string,
    destinationImage: Option<string>,
    startDate: Option<string>,
    endDate: Option<string>,
    notes: Option<string>,
    budget: Option<real>,
    status: string)

  /** The write a save performs. */
  datatype Write = Insert(fields: TripFields) | Update(id: string, fields: TripFields)

  const BlankForm := TripForm("", "", "", "", "", "", "", "planned")

  /** A trip's stored fields. */
  function FieldsOf(t: Trip): TripFields {
    TripFields(t.destinationName, t.destinationCountry, t.destinationImage, t.startDate, t.endDate,
               t.notes, t.budget, t.status)
  }

  /**
   * `tripData`: empty image, dates and notes become null, an empty budget becomes null and
   * any other budget is read with `parseNumber` (`parseFloat`).
   */
  function TripData(form: TripForm, parseNumber: string -> real): (f: TripFields)
    ensures f.destinationName == form.destinationName && f.destinationCountry == form.destinationCountry
    ensures f.status == form.status
    ensures f.destinationImage.None? <==> form.destinationImage == ""
    ensures f.startDate.None? <==> form.startDate == ""
    ensures f.endDate.None? <==> form.endDate == ""
    ensures f.notes.None? <==> form.notes == ""
    ensures f.budget.None? <==> form.budget == ""
    ensures f.budget.Some? ==> f.budget.value == parseNumber(form.budget)
  {
    TripFields(form.destinationName, form.destinationCountry,
               NullIfEmpty(form.destinationImage), NullIfEmpty(form.startDate), NullIfEmpty(form.endDate),
               NullIfEmpty(form.notes),
               if form.budget != "" then Some(parseNumber(form.budget)) else None,
               form.status)
  }

  /** `handleEdit`'s form: nulls become empty fields, the budget is written with `showNumber` (`toString`). */
  function EditForm(t: Trip, showNumber: real -> string): (form: TripForm)
    ensures form.destinationName == t.destinationName && form.destinationCountry == t.destinationCountry
    ensures form.status == t.status
    ensures form.budget == "" <==> t.budget.None? || showNumber(t.budget.value) == ""
  {
    TripForm(t.destinationName, t.destinationCountry,
             EmptyIfNull(t.destinationImage), EmptyIfNull(t.startDate), EmptyIfNull(t.endDate),
             EmptyIfNull(t.notes),
             if t.budget.Some? then showNumber(t.budget.value) else "",
             t.status)
  }

  /**
   * Opening a trip for editing and saving it unchanged writes back what was stored, as long as
   * its optional texts are null or non-empty and its budget prints to non-empty text that reads back.
   */
  lemma EditThenSaveRoundTrip(t: Trip, showNumber: real -> string, parseNumber: string -> real)
    requires NullOrNonEmpty(t.destinationImage) && NullOrNonEmpty(t.startDate)
    requires NullOrNonEmpty(t.endDate) && NullOrNonEmpty(t.notes)
    requires t.budget.Some? ==> showNumber(t.budget.value) != ""
    requires t.budget.Some? ==> parseNumber(showNumber(t.budget.value)) == t.budget.value
    ensures TripData(EditForm(t, showNumber), parseNumber) == FieldsOf(t)
  {
    NullableTextRoundTrip(t.destinationImage);
    NullableTextRoundTrip(t.startDate);
    NullableTextRoundTrip(t.endDate);
    NullableTextRoundTrip(t.notes);
  }

  /** The statuses a tab other than "all" shows. */
  predicate TabSelects(tab: string, status: string) {
    if tab == "upcoming" then status == "planned" || status == "booked"
    else if tab == "past" then status == "completed"
    else if tab == "wishlist" then status == "cancelled"
    else status == tab
  }

  /** `filterTrips`: every trip for "all", otherwise the trips of the tab's statuses, in order. */
  function FilterTrips(trips: seq<Trip>, tab: string): (r: seq<Trip>)
    ensures tab == "all" ==> r == trips
    ensures tab == "upcoming" ==> forall t :: t in r <==> t in trips && (t.status == "planned" || t.status == "booked")
    ensures tab == "past" ==> forall t :: t in r <==> t in trips && t.status == "completed"
    ensures tab == "wishlist" ==> forall t :: t in r <==> t in trips && t.status == "cancelled"
    ensures tab !in {"all", "upcoming", "past", "wishlist"} ==> forall t :: t in r <==> t in trips && t.status == tab
    ensures IsSubsequence(r, trips)
  {
    if tab == "all" then
      PrefixIsSubsequence(trips, |trips|);
      assert trips[..|trips|] == trips;
      trips
    else Filter(trips, (t: Trip) => TabSelects(tab, t.status))
  }

  /** The list after a successful delete: the trips with that id go, the rest keep their order. */
  function WithoutTrip(trips: seq<Trip>, id: string): (r: seq<Trip>)
    ensures forall t :: t in r <==> t in trips && t.id != id
    ensures forall t: Trip :: t.id != id ==> multiset(r)[t] == multiset(trips)[t]
    ensures IsSubsequence(r, trips)
  {
    Filter(trips, (t: Trip) => t.id != id)
  }

  /** The save button is disabled until both the destination name and the country are filled in. */
  function SaveDisabled(form: TripForm): (b: bool)
    ensures !b <==> form.destinationName != "" && form.destinationCountry != ""
  {
    form.destinationName == "" || form.destinationCountry == ""
  }

  class SavedTripsPage {
    var trips: seq<Trip>
    var formData: TripForm
    var editingTrip: Option<Trip>
    var dialogOpen: bool

    constructor()
      ensures trips == [] && formData == BlankForm && editingTrip == None && !dialogOpen
    {
      trips := [];
      formData := BlankForm;
      editingTrip := None;
      dialogOpen := false;
    }

    /** `handleDelete`: the local list changes only when the delete succeeded. */
    method Delete(id: string, succeeded: bool)
      modifies this
      ensures succeeded ==> trips == WithoutTrip(old(trips), id)
      ensures !succeeded ==> trips == old(trips)
      ensures formData == old(formData) && editingTrip == old(editingTrip) && dialogOpen == old(dialogOpen)
    {
      if succeeded {
        trips := WithoutTrip(trips, id);
      }
    }

    method Edit(t: Trip, showNumber: real -> string)
      modifies this
      ensures editingTrip == Some(t) && formData == EditForm(t, showNumber) && dialogOpen
      ensures trips == old(trips)
    {
      editingTrip := Some(t);
      formData := EditForm(t, showNumber);
      dialogOpen := true;
    }

    method ResetForm()
      modifies this
      ensures editingTrip == None && formData == BlankForm
      ensures formData.status == "planned"
      ensures trips == old(trips) && dialogOpen == old(dialogOpen)
    {
      editingTrip := None;
      formData := BlankForm;
    }

    /**
     * `handleSaveTrip`: nothing without a signed-in user; otherwise the form's fields are written
     * (an update of the trip being edited, else an insert), the dialog closes and the form resets.
     */
    method Save(signedIn: bool, parseNumber: string -> real) returns (w: Option<Write>)
      modifies this
      ensures !signedIn ==> w == None && unchanged(this)
      ensures signedIn && old(editingTrip).Some? ==>
        w == Some(Update(old(editingTrip).value.id, TripData(old(formData), parseNumber)))
      ensures signedIn && old(editingTrip).None? ==> w == Some(Insert(TripData(old(formData), parseNumber)))
      ensures signedIn ==> !dialogOpen && editingTrip == None && formData == BlankForm
      ensures trips == old(trips)
    {
      if !signedIn {
        return None;
      }
      var fields := TripData(formData, parseNumber);
      if editingTrip.Some? {
        w := Some(Update(editingTrip.value.id, fields));
      } else {
        w := Some(Insert(fields));
      }
      dialogOpen := false;
      ResetForm();
    }
  }
}
