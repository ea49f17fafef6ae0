/**
 * The public view of a shared trip: the link token is checked against the share table in a
 * fixed order before the trip itself is fetched.
 */
module SharedTrip {
  import opened Wrappers
  import opened Trips

  const InvalidLink := "Invalid share link"
  const ShareMissing := "This shared trip doesn't exist or has been removed"
  const LinkExpired := "This share link has expired"
  const NotShared := "This trip is no longer shared"
  const TripMissing := "The trip associated with this link no longer exists"

  /** A row of the share table (missing or failed lookups are `None`). */
  datatype Share = Share(tripId: string, isPublic: bool, expiresAt: Option<string>)

  /** The queries the page sends, in order. */
  datatype Query = ShareQuery(token: string) | TripQuery(tripId: string)

  /**
   * An expiry that is set, parses (`instant`, `None` for an invalid date) and lies before `now`.
   * An unparsable date compares false, so it never expires.
   */
  predicate Expired(share: Share, instant: string -> Option<int>, now: int): (b: bool)
    ensures share.expiresAt.None? || share.expiresAt == Some("") ==> !b
    ensures share.expiresAt.Some? && instant(share.expiresAt.value).None? ==> !b
    ensures b <==> (share.expiresAt.Some? && share.expiresAt.value != ""
                    && exists t :: instant(share.expiresAt.value) == Some(t) && t < now)
  {
    share.expiresAt.Some? && share.expiresAt.value != ""
    && instant(share.expiresAt.value).Some? && instant(share.expiresAt.value).value < now
  }

  /** The caption under the trip title. */
  function FormatDateRange(start: Option<string>, end: Option<string>, format: string -> string): (caption: string)
    ensures !Present(start) ==> caption == "Dates not set"
    ensures Present(start) && !Present(end) ==> caption == format(start.value)
    ensures Present(start) && Present(end) ==> caption == format(start.value) + " - " + format(end.value)
  {
    FormatRange(start, end, format, "Dates not set", " - ")
  }

  class SharedTripView {
    var trip: Option<Trip>
    var loading: bool
    var error: Option<string>

    constructor()
      ensures trip == None && loading && error == None
    {
      trip := None;
      loading := true;
      error := None;
    }

    /**
     * `fetchSharedTrip`. The lookups are parameters: `shareOf` answers the share query for a
     * token and `tripOf` the trip query for an id. Returns the queries sent.
     */
    method Fetch(token: Option<string>, shareOf: string -> Option<Share>, tripOf: string -> Option<Trip>,
                 instant: string -> Option<int>, now: int) returns (sent: seq<Query>)
      requires trip == None && error == None
      modifies this
      ensures !loading
      ensures error.Some? <==> trip.None?
      ensures !(token.Some? && token.value != "") ==> error == Some(InvalidLink) && sent == []
      ensures token.Some? && token.value != "" ==>
        var share := shareOf(token.value);
        && (share.None? ==> error == Some(ShareMissing) && sent == [ShareQuery(token.value)])
        && (share.Some? && Expired(share.value, instant, now) ==>
              error == Some(LinkExpired) && sent == [ShareQuery(token.value)])
        && (share.Some? && !Expired(share.value, instant, now) && !share.value.isPublic ==>
              error == Some(NotShared) && sent == [ShareQuery(token.value)])
        && (share.Some? && !Expired(share.value, instant, now) && share.value.isPublic ==>
              sent == [ShareQuery(token.value), TripQuery(share.value.tripId)]
              && (tripOf(share.value.tripId).None? ==> error == Some(TripMissing))
              && (tripOf(share.value.tripId).Some? ==> trip == tripOf(share.value.tripId) && error == None))
    {
      if token.None? || token.value == "" {
        error := Some(InvalidLink);
        loading := false;
        return [];
      }
      sent := [ShareQuery(token.value)];
      var share := shareOf(token.value);
      if share.None? {
        error := Some(ShareMissing);
        loading := false;
        return;
      }
      if Expired(share.value, instant, now) {
        error := Some(LinkExpired);
        loading := false;
        return;
      }
      if !share.value.isPublic {
        error := Some(NotShared);
        loading := false;
        return;
      }
      sent := sent + [TripQuery(share.value.tripId)];
      var found := tripOf(share.value.tripId);
      if found.None? {
        error := Some(TripMissing);
        loading := false;
        return;
      }
      trip := found;
      loading := false;
    }
  }
}
