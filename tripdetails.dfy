/**
 * The saved-trip details dialog: the AI details projected from a place-details reply, the
 * truncated texts it shows, the date range and budget labels, and the PDF file name.
 */
module TripDetails {
  import opened Wrappers
  import opened Strings
  import opened Seqs

  /** A place-details reply; a field the reply does not carry is `None`. */
  datatype PlaceReply = PlaceReply(
    overview: Option<string>,
    description: Option<string>,
    topAttractions: Option<seq<string>>,
    bestSeason: Option<string>,
    safetyTips: Option<seq<string>>,
    localTransport: Option<seq<string>>,
    error: bool)

  datatype AIDetails = AIDetails(
    overview: string,
    highlights: seq<string>,
    bestTimeToVisit: string,
    budgetTips: seq<string>,
    mustTry: seq<string>)

  const MaxHighlights: nat := 4
  const MaxBudgetTips: nat := 3
  const MaxMustTry: nat := 3
  const YearRound: string := "Year-round"

  /** JavaScript truthiness of an optional string: present and not "". */
  predicate Truthy(s: Option<string>) {
    s.Some? && s.value != ""
  }

  /** `a || b` on optional strings. */
  function OrElse(a: Option<string>, b: string): (r: string)
    ensures Truthy(a) ==> r == a.value
    ensures !Truthy(a) ==> r == b
  {
    if Truthy(a) then a.value else b
  }

  /**
   * The details set from a reply: none when the request failed or the reply reports an error;
   * otherwise the overview falls back to the description and then to a sentence naming the
   * destination, the best time falls back to "Year-round", and the three lists are prefixes
   * of at most four, three and three entries of the reply's lists (empty when absent).
   */
  function Project(name: string, reply: Option<PlaceReply>): (r: Option<AIDetails>)
    ensures r.Some? <==> reply.Some? && !reply.value.error
    ensures r.Some? ==> (r.value.overview ==
      if Truthy(reply.value.overview) then reply.value.overview.value
      else if Truthy(reply.value.description) then reply.value.description.value
      else "Discover the beauty of " + name)
    ensures r.Some? ==> (r.value.bestTimeToVisit ==
      if Truthy(reply.value.bestSeason) then reply.value.bestSeason.value else YearRound)
    ensures r.Some? ==> r.value.highlights == Take(reply.value.topAttractions.GetOr([]), MaxHighlights)
    ensures r.Some? ==> r.value.budgetTips == Take(reply.value.safetyTips.GetOr([]), MaxBudgetTips)
    ensures r.Some? ==> r.value.mustTry == Take(reply.value.localTransport.GetOr([]), MaxMustTry)
  {
    if reply.None? || reply.value.error then None
    else
      var data := reply.value;
      Some(AIDetails(
        OrElse(data.overview, OrElse(data.description, "Discover the beauty of " + name)),
        Take(data.topAttractions.GetOr([]), MaxHighlights),
        OrElse(data.bestSeason, YearRound),
        Take(data.safetyTips.GetOr([]), MaxBudgetTips),
        Take(data.localTransport.GetOr([]), MaxMustTry)))
  }

  /** Projected details always have an overview and a best time, and lists no longer than their caps that begin the reply's lists. */
  lemma ProjectedDetailsAreBounded(name: string, reply: PlaceReply)
    requires !reply.error
    ensures var d := Project(name, Some(reply)).value;
      d.overview != "" && d.bestTimeToVisit != ""
      && |d.highlights| <= MaxHighlights && |d.budgetTips| <= MaxBudgetTips && |d.mustTry| <= MaxMustTry
      && IsSubsequence(d.highlights, reply.topAttractions.GetOr([]))
  {
    var d := Project(name, Some(reply));
    TakeIsSubsequence(reply.topAttractions.GetOr([]), MaxHighlights);
  }

  const Ellipsis: string := "..."
  const OverviewLimit: nat := 200
  const HighlightLimit: nat := 25

  /** A text cut to its first `n` characters followed by "..." when longer than `n`, and kept whole otherwise. */
  function Truncate(s: string, n: nat): (r: string)
    ensures |s| <= n ==> r == s
    ensures |s| > n ==> |r| == n + |Ellipsis| && r[..n] == s[..n] && r[n..] == Ellipsis
  {
    if |s| > n then s[..n] + Ellipsis else s
  }

  /** A shown text never exceeds the limit by more than the ellipsis, and showing it again changes nothing. */
  lemma TruncateIdempotent(s: string, n: nat)
    ensures |Truncate(s, n)| <= n + |Ellipsis|
    ensures Truncate(Truncate(s, n), n) == Truncate(s, n)
  {
    if |s| > n {
      var r := Truncate(s, n);
      assert r[..n] + Ellipsis == r;
    }
  }

  /** The overview paragraph of the dialog. */
  function ShownOverview(details: AIDetails): (r: string)
    ensures |details.overview| <= OverviewLimit ==> r == details.overview
    ensures |r| <= OverviewLimit + |Ellipsis|
  {
    Truncate(details.overview, OverviewLimit)
  }

  /** The highlight badges of the dialog, one per highlight. */
  function HighlightBadges(details: AIDetails): (r: seq<string>)
    ensures |r| == |details.highlights|
    ensures forall i :: 0 <= i < |r| ==> r[i] == Truncate(details.highlights[i], HighlightLimit)
    ensures forall i :: 0 <= i < |r| ==> |r[i]| <= HighlightLimit + |Ellipsis|
  {
    seq(|details.highlights|, i requires 0 <= i < |details.highlights| => Truncate(details.highlights[i], HighlightLimit))
  }

  const Undecided: string := "Dates to be decided"
  const EnDashSeparator: string := " – "

  /**
   * `formatDateRange`, with the date formatting as a parameter: no start date gives
   * "Dates to be decided", a start without an end gives the formatted start alone, and both
   * give the two formatted dates joined by an en dash.
   */
  function FormatDateRange(start: Option<string>, end: Option<string>, format: string -> string): (r: string)
    ensures !Truthy(start) ==> r == Undecided
    ensures Truthy(start) && !Truthy(end) ==> r == format(start.value)
    ensures Truthy(start) && Truthy(end) ==> r == format(start.value) + EnDashSeparator + format(end.value)
  {
    if !Truthy(start) then Undecided
    else if !Truthy(end) then format(start.value)
    else format(start.value) + EnDashSeparator + format(end.value)
  }

  const Flexible: string := "Flexible"

  /** The budget label: "Flexible" for no budget or a zero budget, otherwise "$" and the formatted amount. */
  function BudgetLabel(budget: Option<real>, localeString: real -> string): (r: string)
    ensures r == Flexible <==> budget.None? || budget.value == 0.0
    ensures budget.Some? && budget.value != 0.0 ==> r == "$" + localeString(budget.value)
  {
    if budget.None? || budget.value == 0.0 then Flexible
    else
      var amount := "$" + localeString(budget.value);
      assert amount[0] != Flexible[0];
      amount
  }

  /**
   * `s.replace(/\s+/g, "-")`, scanning left to right: the first whitespace character of a run
   * becomes '-', the rest of the run is dropped. `inRun` says the previous character was
   * whitespace.
   */
  function DashFrom(s: string, inRun: bool): (r: string)
    ensures forall i :: 0 <= i < |r| ==> !IsSpace(r[i])
    ensures |r| <= |s|
  {
    if s == [] then []
    else
      var tail := DashFrom(s[1..], IsSpace(s[0]));
      if IsSpace(s[0]) && inRun then tail
      else
        var first := if IsSpace(s[0]) then '-' else s[0];
        assert forall i :: 0 < i <= |tail| ==> ([first] + tail)[i] == tail[i - 1];
        [first] + tail
  }

  /** Every maximal run of whitespace becomes a single '-'. */
  function DashRuns(s: string): (r: string)
    ensures forall i :: 0 <= i < |r| ==> !IsSpace(r[i])
    ensures |r| <= |s|
  {
    DashFrom(s, false)
  }

  lemma {:induction false} DashFromKeepsPlainText(s: string, inRun: bool)
    requires forall i :: 0 <= i < |s| ==> !IsSpace(s[i])
    ensures DashFrom(s, inRun) == s
  {
    if s != [] {
      DashFromKeepsPlainText(s[1..], false);
      assert [s[0]] + s[1..] == s;
    }
  }

  /** A name without whitespace is kept as it is. */
  lemma DashRunsKeepsPlainText(s: string)
    requires forall i :: 0 <= i < |s| ==> !IsSpace(s[i])
    ensures DashRuns(s) == s
  {
    DashFromKeepsPlainText(s, false);
  }

  /** Replacing the runs twice gives what replacing them once gives. */
  lemma DashRunsIdempotent(s: string)
    ensures DashRuns(DashRuns(s)) == DashRuns(s)
  {
    DashRunsKeepsPlainText(DashRuns(s));
  }

  /** No two dashes in a row; right after whitespace the output does not start with a dash. */
  lemma {:induction false} DashFromSingleDashes(s: string, inRun: bool)
    requires '-' !in s
    ensures var r := DashFrom(s, inRun);
      forall i :: 0 <= i < |r| - 1 ==> !(r[i] == '-' && r[i + 1] == '-')
    ensures var r := DashFrom(s, inRun);
      inRun ==> r == [] || r[0] != '-'
    ensures var r := DashFrom(s, inRun);
      !inRun && r != [] ==> (r[0] == '-' <==> IsSpace(s[0]))
  {
    if s != [] {
      assert '-' !in s[1..];
      DashFromSingleDashes(s[1..], IsSpace(s[0]));
      var tail := DashFrom(s[1..], IsSpace(s[0]));
      if !(IsSpace(s[0]) && inRun) {
        var first := if IsSpace(s[0]) then '-' else s[0];
        var r := [first] + tail;
        forall i | 0 <= i < |r| - 1 ensures !(r[i] == '-' && r[i + 1] == '-') {
          if i > 0 {
            assert r[i] == tail[i - 1] && r[i + 1] == tail[i];
          }
        }
      }
    }
  }

  /** A name without dashes gets no two dashes in a row: each run of whitespace became exactly one. */
  lemma DashRunsSingleDashes(s: string)
    requires '-' !in s
    ensures var r := DashRuns(s);
      forall i :: 0 <= i < |r| - 1 ==> !(r[i] == '-' && r[i + 1] == '-')
    ensures var r := DashRuns(s);
      r != [] ==> (r[0] == '-' <==> IsSpace(s[0]))
  {
    DashFromSingleDashes(s, false);
  }

  /** Whether a run of whitespace is open after scanning `a` from state `inRun`. */
  function RunAfter(a: string, inRun: bool): bool {
    if a == [] then inRun else IsSpace(a[|a| - 1])
  }

  /** What scanning one character adds: nothing inside a whitespace run, '-' for the run's first space, else the character. */
  function DashOf(c: char, inRun: bool): string {
    if IsSpace(c) && inRun then [] else [if IsSpace(c) then '-' else c]
  }

  /** Scanning a non-empty text is scanning its first character, then the rest. */
  lemma DashFromHead(s: string, inRun: bool)
    requires s != []
    ensures DashFrom(s, inRun) == DashOf(s[0], inRun) + DashFrom(s[1..], IsSpace(s[0]))
  {
  }

  /** Scanning a concatenation scans the first part, then the second from where the first left off. */
  lemma {:induction false} DashFromAppend(a: string, x: string, inRun: bool)
    ensures DashFrom(a + x, inRun) == DashFrom(a, inRun) + DashFrom(x, RunAfter(a, inRun))
  {
    if a == [] {
      assert a + x == x;
    } else {
      var rest := a[1..];
      assert (a + x)[0] == a[0] && (a + x)[1..] == rest + x;
      DashFromAppend(rest, x, IsSpace(a[0]));
      assert RunAfter(rest, IsSpace(a[0])) == RunAfter(a, inRun) by {
        if rest != [] {
          assert rest[|rest| - 1] == a[|a| - 1];
        }
      }
      var first := DashOf(a[0], inRun);
      var tail := DashFrom(rest, IsSpace(a[0]));
      var later := DashFrom(x, RunAfter(a, inRun));
      DashFromHead(a, inRun);
      DashFromHead(a + x, inRun);
      AppendAssociative(first, tail, later);
    }
  }

  /** Whitespace scanned inside a run adds nothing. */
  lemma {:induction false} DashFromSkipsRun(w: string, b: string)
    requires forall i :: 0 <= i < |w| ==> IsSpace(w[i])
    ensures DashFrom(w + b, true) == DashFrom(b, true)
  {
    if w == [] {
      assert w + b == b;
    } else {
      assert (w + b)[0] == w[0] && (w + b)[1..] == w[1..] + b;
      assert IsSpace(w[0]);
      DashFromSkipsRun(w[1..], b);
    }
  }

  /** Each maximal whitespace run becomes exactly one '-': the text around it is dashed on its own. */
  lemma DashRunsSplice(a: string, w: string, b: string)
    requires w != [] && forall i :: 0 <= i < |w| ==> IsSpace(w[i])
    requires a == [] || !IsSpace(a[|a| - 1])
    requires b == [] || !IsSpace(b[0])
    ensures DashRuns(a + w + b) == DashRuns(a) + "-" + DashRuns(b)
  {
    var tail := w + b;
    assert a + w + b == a + tail;
    DashFromAppend(a, tail, false);
    assert RunAfter(a, false) == false;
    DashFromHead(tail, false);
    assert tail[0] == w[0] && tail[1..] == w[1..] + b;
    assert IsSpace(w[0]);
    DashFromSkipsRun(w[1..], b);
    if b != [] {
      DashFromHead(b, true);
      DashFromHead(b, false);
    }
    AppendAssociative(DashFrom(a, false), "-", DashFrom(b, false));
  }

  const PdfSuffix: string := "-trip-plan.pdf"

  /** The exported PDF's file name: the destination name with whitespace runs dashed, then "-trip-plan.pdf". */
  function PdfFilename(name: string): (r: string)
    ensures EndsWith(r, PdfSuffix)
    ensures forall i :: 0 <= i < |r| ==> !IsSpace(r[i])
    ensures |r| <= |name| + |PdfSuffix|
  {
    DashRuns(name) + PdfSuffix
  }

  /** A name without whitespace is used as it is in the PDF file name. */
  lemma PdfFilenameOfPlainName(name: string)
    requires forall i :: 0 <= i < |name| ==> !IsSpace(name[i])
    ensures PdfFilename(name) == name + PdfSuffix
  {
    DashRunsKeepsPlainText(name);
  }
}
