/**
 * The itinerary dialog of the AI concierge: an itinerary generated from the chat, its
 * download as a text file, saving it as a planned trip, and the reset on closing.
 */
module Itinerary {
  import opened Wrappers
  import opened Strings

  /**
   * The country of a free-text destination such as "Kyoto, Japan": the trimmed text after
   * the last comma when there is a comma, otherwise the whole destination as it stands.
   */
  function CountryOf(destination: string): (country: string)
    ensures ',' !in destination ==> country == destination
  {
    SplitSeveralIffSeparator(destination, ',');
    var parts := Split(destination, ',');
    if |parts| > 1 then Trim(parts[|parts| - 1]) else destination
  }

  /** With a comma, the country is the trimmed text after the last comma of the destination. */
  lemma CountryAfterLastComma(destination: string) returns (k: nat)
    requires ',' in destination
    ensures k < |destination| && destination[k] == ','
    ensures ',' !in destination[k + 1..]
    ensures CountryOf(destination) == Trim(destination[k + 1..])
  {
    SplitSeveralIffSeparator(destination, ',');
    var last := SplitLast(destination, ',');
    k := |destination| - |last| - 1;
    assert destination[k + 1..] == last;
  }

  /** Characters kept in a download file name: ASCII letters and digits. */
  function SafeChar(c: char): (r: char)
    ensures IsAsciiLetterOrDigit(c) ==> r == c
    ensures !IsAsciiLetterOrDigit(c) ==> r == '_'
  {
    if IsAsciiLetterOrDigit(c) then c else '_'
  }

  /** The destination with every character other than an ASCII letter or digit replaced by '_'. */
  function SafeName(s: string): (r: string)
    ensures |r| == |s|
    ensures forall i :: 0 <= i < |s| ==> r[i] == SafeChar(s[i])
    ensures forall i :: 0 <= i < |r| ==> IsAsciiLetterOrDigit(r[i]) || r[i] == '_'
  {
    seq(|s|, i requires 0 <= i < |s| => SafeChar(s[i]))
  }

  /** Making a name safe twice changes nothing more than doing it once. */
  lemma SafeNameIdempotent(s: string)
    ensures SafeName(SafeName(s)) == SafeName(s)
  {
    var once := SafeName(s);
    forall i | 0 <= i < |once|
      ensures SafeChar(once[i]) == once[i]
    {
    }
  }

  /** A name made only of ASCII letters and digits is kept as it is. */
  lemma SafeNameKeepsPlainNames(s: string)
    requires forall i :: 0 <= i < |s| ==> IsAsciiLetterOrDigit(s[i])
    ensures SafeName(s) == s
  {
  }

  const DownloadSuffix: string := "_itinerary.txt"

  /** The file name of a downloaded itinerary: the safe destination name, then "_itinerary.txt". */
  function DownloadFilename(destination: string): (name: string)
    ensures |name| == |destination| + |DownloadSuffix|
    ensures EndsWith(name, DownloadSuffix)
    ensures name[..|destination|] == SafeName(destination)
  {
    SafeName(destination) + DownloadSuffix
  }

  /** The row inserted into the saved trips when an itinerary is saved. */
  datatype TripRow = TripRow(destinationName: string, destinationCountry: string, notes: string, status: string)

  /** A downloaded file: its name and its text. */
  datatype Download = Download(filename: string, contents: string)

  class ItineraryDialog {
    var itinerary: Option<string>
    var destination: string
    var isGenerating: bool
    var isSaving: bool
    var saved: bool

    /** JavaScript truthiness of the itinerary: present and not the empty string. */
    predicate HasItinerary()
      reads this
    {
      itinerary.Some? && itinerary.value != ""
    }

    constructor()
      ensures itinerary == None && destination == "" && !isGenerating && !isSaving && !saved
      ensures !HasItinerary()
    {
      itinerary := None;
      destination := "";
      isGenerating := false;
      isSaving := false;
      saved := false;
    }

    /**
     * `generateItinerary`: a successful reply (itinerary text and destination) replaces both;
     * a failed request changes neither. Generation is over either way.
     */
    method Generate(reply: Option<(string, string)>)
      modifies this
      ensures !isGenerating
      ensures reply.Some? ==> itinerary == Some(reply.value.0) && destination == reply.value.1
      ensures reply.None? ==> itinerary == old(itinerary) && destination == old(destination)
      ensures saved == old(saved) && isSaving == old(isSaving)
    {
      isGenerating := true;
      if reply.Some? {
        itinerary := Some(reply.value.0);
        destination := reply.value.1;
      }
      isGenerating := false;
    }

    /**
     * `downloadItinerary`: nothing without an itinerary; otherwise a file named after the
     * destination holding the itinerary text.
     */
    method DownloadItinerary() returns (file: Option<Download>)
      ensures file.Some? <==> HasItinerary()
      ensures file.Some? ==> file.value == Download(DownloadFilename(destination), itinerary.value)
    {
      if !HasItinerary() {
        return None;
      }
      file := Some(Download(DownloadFilename(destination), itinerary.value));
    }

    /**
     * `saveToTrips`: without a user, or without an itinerary, nothing is inserted and nothing
     * changes. Otherwise a planned trip carrying the itinerary as notes is inserted; the dialog
     * is marked saved only when the insert succeeded, and saving is over either way.
     */
    method SaveToTrips(signedIn: bool, insertSucceeds: bool) returns (inserted: Option<TripRow>)
      modifies this
      ensures inserted.Some? <==> signedIn && old(HasItinerary())
      ensures inserted.Some? ==> itinerary.Some?
      ensures inserted.Some? ==> inserted.value == TripRow(destination, CountryOf(destination), itinerary.value, "planned")
      ensures inserted.None? ==> saved == old(saved) && isSaving == old(isSaving)
      ensures inserted.Some? ==> !isSaving && saved == (old(saved) || insertSucceeds)
      ensures itinerary == old(itinerary) && destination == old(destination)
    {
      if !signedIn || !HasItinerary() {
        return None;
      }
      isSaving := true;
      inserted := Some(TripRow(destination, CountryOf(destination), itinerary.value, "planned"));
      if insertSucceeds {
        saved := true;
      }
      isSaving := false;
    }

    /** `handleOpenChange`: closing clears the itinerary, the destination and the saved mark; opening changes nothing. */
    method OpenChange(newOpen: bool)
      modifies this
      ensures !newOpen ==> itinerary == None && destination == "" && !saved && !HasItinerary()
      ensures newOpen ==> itinerary == old(itinerary) && destination == old(destination) && saved == old(saved)
      ensures isSaving == old(isSaving) && isGenerating == old(isGenerating)
    {
      if !newOpen {
        itinerary := None;
        destination := "";
        saved := false;
      }
    }
  }
}
