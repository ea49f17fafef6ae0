/**
 * The concierge function's guess at the places a user asks about: capitalised word runs,
 * then phrase captures, filtered against common words and de-duplicated; and the choice of
 * the message and the place the photo lookup uses.
 */
module PlaceNames {
  import opened Wrappers
  import opened Strings
  import opened Seqs

  predicate IsUpper(c: char) { 'A' <= c <= 'Z' }
  predicate IsLower(c: char) { 'a' <= c <= 'z' }

  /** The characters of `\w`, between which and the others `\b` sits. */
  predicate IsWordChar(c: char) { IsUpper(c) || IsLower(c) || ('0' <= c <= '9') || c == '_' }

  /** The first position at or after `j` that is not a lower-case letter. */
  function LowerRunEnd(s: string, j: nat): (e: nat)
    requires j <= |s|
    decreases |s| - j
    ensures j <= e <= |s|
    ensures forall k :: j <= k < e ==> IsLower(s[k])
    ensures e < |s| ==> !IsLower(s[e])
  {
    if j < |s| && IsLower(s[j]) then LowerRunEnd(s, j + 1) else j
  }

  /** The first position at or after `j` that is not whitespace. */
  function SpaceRunEnd(s: string, j: nat): (e: nat)
    requires j <= |s|
    decreases |s| - j
    ensures j <= e <= |s|
    ensures forall k :: j <= k < e ==> IsSpace(s[k])
    ensures e < |s| ==> !IsSpace(s[e])
  {
    if j < |s| && IsSpace(s[j]) then SpaceRunEnd(s, j + 1) else j
  }

  /** `[A-Z][a-z]+` matches at `i` and the word is followed by a word boundary. */
  predicate WordAt(s: string, i: nat) {
    i + 1 < |s| && IsUpper(s[i]) && IsLower(s[i + 1]) &&
    var e := LowerRunEnd(s, i + 1);
    e == |s| || !IsWordChar(s[e])
  }

  function WordEnd(s: string, i: nat): (e: nat)
    requires WordAt(s, i)
    ensures i + 2 <= e <= |s|
  {
    LowerRunEnd(s, i + 1)
  }

  /** Where a run of capitalised words starting at `i` ends: words joined by whitespace, as many as match. */
  function RunEnd(s: string, i: nat): (e: nat)
    requires WordAt(s, i)
    decreases |s| - i
    ensures i + 2 <= e <= |s|
  {
    var w := WordEnd(s, i);
    var j := SpaceRunEnd(s, w);
    if j > w && WordAt(s, j) then RunEnd(s, j) else w
  }

  /** A match of the capitalised-run pattern can start at `i`. */
  predicate RunStartsAt(s: string, i: nat) {
    (i == 0 || (i <= |s| && !IsWordChar(s[i - 1]))) && WordAt(s, i)
  }

  /** The successive matches of the capitalised-run pattern from position `i` on. */
  function Runs(s: string, i: nat): (r: seq<string>)
    requires i <= |s|
    decreases |s| - i
    ensures forall k :: 0 <= k < |r| ==> |r[k]| >= 2 && IsUpper(r[k][0])
  {
    if i == |s| then []
    else if RunStartsAt(s, i) then
      var e := RunEnd(s, i);
      [s[i..e]] + Runs(s, e)
    else Runs(s, i + 1)
  }

  /** `run` is the whole match of the capitalised-run pattern starting at `p`. */
  predicate IsRunAt(s: string, p: nat, run: string) {
    RunStartsAt(s, p) && run == s[p..RunEnd(s, p)]
  }

  /** Every run is the whole match at a position where the pattern can start. */
  lemma {:induction false} RunPosition(s: string, i: nat, k: nat) returns (p: nat)
    requires i <= |s| && k < |Runs(s, i)|
    decreases |s| - i, 1
    ensures i <= p && IsRunAt(s, p, Runs(s, i)[k])
  {
    assert i < |s|;
    if RunStartsAt(s, i) {
      p := RunPositionAtMatch(s, i, k);
    } else {
      RunsAtNoMatch(s, i);
      p := RunPosition(s, i + 1, k);
    }
  }

  lemma {:induction false} RunPositionAtMatch(s: string, i: nat, k: nat) returns (p: nat)
    requires i < |s| && RunStartsAt(s, i) && k < |Runs(s, i)|
    decreases |s| - i, 0
    ensures i <= p && IsRunAt(s, p, Runs(s, i)[k])
  {
    var e := RunEnd(s, i);
    RunsHead(s, i);
    if k == 0 {
      p := i;
    } else {
      p := RunPosition(s, e, k - 1);
    }
  }

  /** Where a match starts, the first run is that match and the others are the runs after it. */
  lemma RunsHead(s: string, i: nat)
    requires i < |s| && RunStartsAt(s, i)
    ensures var e := RunEnd(s, i);
      |Runs(s, i)| == 1 + |Runs(s, e)| && Runs(s, i)[0] == s[i..e]
      && forall k :: 1 <= k < |Runs(s, i)| ==> Runs(s, i)[k] == Runs(s, e)[k - 1]
  {
    var e := RunEnd(s, i);
    var later := Runs(s, e);
    RunsAtMatch(s, i);
    assert Runs(s, i) == [s[i..e]] + later;
    forall k | 1 <= k < |Runs(s, i)|
      ensures Runs(s, i)[k] == later[k - 1]
    {
      assert ([s[i..e]] + later)[k] == later[k - 1];
    }
  }

  /** Where no match starts, the runs are those from the next position. */
  lemma RunsAtNoMatch(s: string, i: nat)
    requires i < |s| && !RunStartsAt(s, i)
    ensures Runs(s, i) == Runs(s, i + 1)
  {
  }

  /** Where a match starts, it is the next run. */
  lemma RunsAtMatch(s: string, i: nat)
    requires i < |s| && RunStartsAt(s, i)
    ensures Runs(s, i) == [s[i..RunEnd(s, i)]] + Runs(s, RunEnd(s, i))
  {
  }

  const Example: string := "Trip to Paris"

  /** A run stops at a lower-case word: "Trip to Paris" yields two runs. */
  lemma TwoRunsExample()
    ensures Runs(Example, 0) == ["Trip", "Paris"]
  {
    ExampleFirstRun();
    ExampleGap();
    ExampleSecondRun();
  }

  lemma ExampleFirstRun()
    ensures Runs(Example, 0) == ["Trip"] + Runs(Example, 4)
  {
    var s := Example;
    assert s[0] == 'T' && s[1] == 'r' && s[2] == 'i' && s[3] == 'p' && s[4] == ' ' && s[5] == 't';
    assert LowerRunEnd(s, 4) == 4;
    assert LowerRunEnd(s, 3) == 4;
    assert LowerRunEnd(s, 1) == 4;
    assert WordAt(s, 0);
    assert SpaceRunEnd(s, 4) == 5;
    assert !WordAt(s, 5);
    assert RunEnd(s, 0) == 4;
    assert s[0..4] == "Trip";
  }

  lemma ExampleGap()
    ensures Runs(Example, 4) == Runs(Example, 8)
  {
    var s := Example;
    assert !RunStartsAt(s, 4) && !RunStartsAt(s, 5) && !RunStartsAt(s, 6) && !RunStartsAt(s, 7);
  }

  lemma ExampleSecondRun()
    ensures Runs(Example, 8) == ["Paris"]
  {
    var s := Example;
    assert s[8] == 'P' && s[9] == 'a' && s[10] == 'r' && s[11] == 'i' && s[12] == 's';
    assert LowerRunEnd(s, 13) == 13;
    assert LowerRunEnd(s, 11) == 13;
    assert LowerRunEnd(s, 9) == 13;
    assert WordAt(s, 8);
    assert RunEnd(s, 8) == 13;
    assert Runs(s, 13) == [];
    assert s[8..13] == "Paris";
  }

  const CommonWords: set<string> := {
    "the", "a", "an", "and", "or", "but", "in", "on", "at", "to", "for", "of", "with", "by",
    "what", "where", "when", "how", "why", "best", "good", "great", "nice", "beautiful",
    "amazing", "wonderful", "budget", "cheap", "expensive", "luxury", "affordable", "day",
    "days", "week", "weeks", "month", "trip", "travel", "vacation", "holiday", "itinerary",
    "plan", "suggest", "recommend"
  }

  /** A candidate survives when it is longer than two characters and not a common word in any case. */
  predicate Keep(p: string) {
    ToLower(p) !in CommonWords && |p| > 2
  }

  function KeepPlace(): string -> bool {
    (p: string) => Keep(p)
  }

  /** The phrase-pattern test on a capture: longer than two characters. */
  function LongCapture(): string -> bool {
    (c: string) => |c| > 2
  }

  /** Every text of a list, trimmed. */
  function TrimAll(xs: seq<string>): (r: seq<string>)
    ensures |r| == |xs|
    ensures forall k :: 0 <= k < |r| ==> r[k] == Trim(xs[k])
  {
    seq(|xs|, k requires 0 <= k < |xs| => Trim(xs[k]))
  }

  lemma TrimAllAppend(xs: seq<string>, ys: seq<string>)
    ensures TrimAll(xs + ys) == TrimAll(xs) + TrimAll(ys)
  {
    var a := TrimAll(xs + ys);
    var b := TrimAll(xs) + TrimAll(ys);
    forall k | 0 <= k < |a| ensures a[k] == b[k] {
      if k < |xs| {
        assert (xs + ys)[k] == xs[k];
      } else {
        assert (xs + ys)[k] == ys[k - |xs|];
      }
    }
  }

  /** The phrase captures that are recorded: each capture longer than two characters, trimmed, in order. */
  function Accepted(captures: seq<string>): (r: seq<string>)
    ensures |r| == |Filter(captures, LongCapture())|
    ensures forall k :: 0 <= k < |r| ==> r[k] == Trim(Filter(captures, LongCapture())[k])
  {
    TrimAll(Filter(captures, LongCapture()))
  }

  /** One more capture adds its trimmed text when it is longer than two characters, and nothing otherwise. */
  lemma AcceptedSnoc(front: seq<string>, c: string)
    ensures Accepted(front + [c]) == Accepted(front) + (if |c| > 2 then [Trim(c)] else [])
  {
    var last := if |c| > 2 then [c] else [];
    FilterSnoc(front, c, LongCapture());
    TrimAllAppend(Filter(front, LongCapture()), last);
    assert TrimAll(last) == if |c| > 2 then [Trim(c)] else [];
  }

  /** All candidates in order: the capitalised runs first, then the accepted phrase captures. */
  function Candidates(text: string, captures: seq<string>): seq<string> {
    Runs(text, 0) + Accepted(captures)
  }

  /** The loop of `extractPlaceNames` records one more capture per iteration. */
  lemma CandidatesStep(text: string, captures: seq<string>, k: nat)
    requires k < |captures|
    ensures Runs(text, 0) + Accepted(captures[..k + 1]) ==
      Runs(text, 0) + Accepted(captures[..k]) + (if |captures[k]| > 2 then [Trim(captures[k])] else [])
  {
    assert captures[..k + 1] == captures[..k] + [captures[k]];
    AcceptedSnoc(captures[..k], captures[k]);
    AppendAssociative(Runs(text, 0), Accepted(captures[..k]), if |captures[k]| > 2 then [Trim(captures[k])] else []);
  }

  /**
   * `extractPlaceNames`: the runs, then each phrase capture longer than two characters,
   * trimmed; common words and short names are dropped, and each name is kept once, where it
   * first occurs. The phrase patterns themselves are given as their captures.
   */
  method ExtractPlaceNames(text: string, captures: seq<string>) returns (names: seq<string>)
    ensures names == Dedup(Filter(Candidates(text, captures), KeepPlace()))
    ensures NoDup(names)
    ensures forall n :: n in names ==> |n| > 2 && ToLower(n) !in CommonWords
    ensures forall n :: n in names <==> n in Candidates(text, captures) && Keep(n)
  {
    var places := Runs(text, 0);
    for k := 0 to |captures|
      invariant places == Runs(text, 0) + Accepted(captures[..k])
    {
      CandidatesStep(text, captures, k);
      if |captures[k]| > 2 {
        places := places + [Trim(captures[k])];
      }
    }
    assert captures[..|captures|] == captures;
    names := Dedup(Filter(places, KeepPlace()));
  }

  /** The names come in the order in which they first occur among the candidates. */
  lemma NamesInFirstOccurrenceOrder(text: string, captures: seq<string>)
    ensures var kept := Filter(Candidates(text, captures), KeepPlace());
      forall i, j :: 0 <= i < j < |Dedup(kept)| ==> FirstIndex(kept, Dedup(kept)[i]) < FirstIndex(kept, Dedup(kept)[j])
  {
    DedupFirstOccurrenceOrder(Filter(Candidates(text, captures), KeepPlace()));
  }

  /** Every capitalised run that survives the filter is found before any phrase capture. */
  lemma RunsComeFirst(text: string, captures: seq<string>)
    ensures Candidates(text, captures)[..|Runs(text, 0)|] == Runs(text, 0)
  {
  }

  const UserRole: string := "user"

  /** A message of the request body. */
  datatype ChatMessage = ChatMessage(role: string, content: string)

  /** The position of the last message with role "user", if there is one. */
  function LastUserIndex(messages: seq<ChatMessage>): (r: Option<nat>)
    ensures r.None? ==> forall k :: 0 <= k < |messages| ==> messages[k].role != UserRole
    ensures r.Some? ==> r.value < |messages| && messages[r.value].role == UserRole
    ensures r.Some? ==> forall j :: r.value < j < |messages| ==> messages[j].role != UserRole
  {
    if messages == [] then None
    else if messages[|messages| - 1].role == UserRole then Some(|messages| - 1)
    else
      var init := messages[..|messages| - 1];
      assert forall j :: 0 <= j < |init| ==> init[j] == messages[j];
      LastUserIndex(init)
  }

  /** The content of the last message with role "user", or "" when there is none. */
  function LastUserMessage(messages: seq<ChatMessage>): (r: string)
    ensures (forall k :: 0 <= k < |messages| ==> messages[k].role != UserRole) ==> r == ""
    ensures r != "" ==> exists k :: 0 <= k < |messages| && messages[k].role == UserRole && messages[k].content == r &&
                                    forall j :: k < j < |messages| ==> messages[j].role != UserRole
    ensures LastUserIndex(messages).Some? ==> r == messages[LastUserIndex(messages).value].content
  {
    var last := LastUserIndex(messages);
    if last.Some? then messages[last.value].content else ""
  }

  /** The place the photo lookup is made for: the first name, only when a key is configured. */
  function ImageQuery(accessKey: Option<string>, places: seq<string>): (q: Option<string>)
    ensures q.Some? <==> accessKey.Some? && accessKey.value != "" && places != []
    ensures q.Some? ==> q.value == places[0]
  {
    if accessKey.Some? && accessKey.value != "" && |places| > 0 then Some(places[0]) else None
  }
}
