/**
 * The AI concierge chat: sending a message, and reading the streamed answer as
 * server-sent-event lines (`data: {json}`), growing one assistant message as deltas arrive.
 */
module ChatStream {
  import opened Strings
  import Seqs

  datatype Role = User | Assistant
  datatype Message = Message(role: Role, content: string)

  /** What the JSON parser makes of a payload: an error, or the delta text ("" when there is none). */
  datatype Parsed = Malformed | Delta(content: string)

  /** What one complete line means, after a trailing carriage return is removed. */
  datatype LineKind = Skip | Done | Payload(json: string)

  const DataPrefix := "data: "
  const DoneMarker := "[DONE]"

  /** `line` ends with a carriage return. */
  predicate EndsWithCR(line: string) {
    |line| > 0 && line[|line| - 1] == '\r'
  }

  /** A trailing carriage return is removed; nothing else changes. */
  function StripCR(line: string): (r: string)
    ensures EndsWithCR(line) ==> |r| == |line| - 1 && r == line[..|r|]
    ensures !EndsWithCR(line) ==> r == line
  {
    if EndsWithCR(line) then line[..|line| - 1] else line
  }

  /**
   * Comment lines (starting with `:`), blank lines and lines without the `data: ` prefix are
   * skipped; otherwise the trimmed payload is the end marker or a JSON payload.
   */
  function Classify(line: string): (k: LineKind)
    ensures (StartsWith(line, ":") || AllSpace(line) || !StartsWith(line, DataPrefix)) <==> k.Skip?
    ensures k.Done? <==> !k.Skip? && Trim(line[|DataPrefix|..]) == DoneMarker
    ensures k.Payload? ==> StartsWith(line, DataPrefix) && k.json == Trim(line[|DataPrefix|..]) && k.json != DoneMarker
  {
    TrimEmptyIffAllSpace(line);
    if StartsWith(line, ":") || Trim(line) == "" then Skip
    else if !StartsWith(line, DataPrefix) then Skip
    else
      var json := Trim(line[|DataPrefix|..]);
      if json == DoneMarker then Done else Payload(json)
  }

  /** What one complete line does to the stream: add a delta, finish, or block (with the line to put back). */
  datatype Step = Next(delta: string) | Finish | Block(line: string)

  /**
   * The step for the text before a newline: skipped lines add nothing, the end marker
   * finishes, and a payload adds its delta, or blocks when it does not parse.
   */
  function StepOf(raw: string, parse: string -> Parsed): (r: Step)
    ensures var kind := Classify(StripCR(raw));
      (r.Finish? <==> kind.Done?) &&
      (r.Block? <==> kind.Payload? && parse(kind.json).Malformed?) &&
      (r.Block? ==> r.line == StripCR(raw)) &&
      (kind.Skip? ==> r == Next("")) &&
      (r.Next? && r.delta != "" ==> kind.Payload? && parse(kind.json) == Delta(r.delta))
  {
    var line := StripCR(raw);
    match Classify(line)
    case Skip => Next("")
    case Done => Finish
    case Payload(json) =>
      match parse(json)
      case Malformed => Block(line)
      case Delta(c) => Next(c)
  }

  /** The line handling of the concierge page, as a step function. */
  function LineSteps(parse: string -> Parsed): string -> Step {
    (raw: string) => StepOf(raw, parse)
  }

  /** The state after the complete lines of a buffer have been consumed. */
  datatype Drained = Drained(buffer: string, content: string, done: bool, blocked: bool)

  /**
   * The inner loop as a function: consumes complete lines from the front of `buffer`, adding
   * each delta to `content`, until no newline is left, a line finishes the stream, or a line
   * blocks (then it goes back to the front of the buffer).
   */
  function Drain(buffer: string, content: string, step: string -> Step): (r: Drained)
    decreases |buffer|
    ensures !(r.done && r.blocked)
    ensures content <= r.content
  {
    if '\n' !in buffer then Drained(buffer, content, false, false)
    else
      var k := IndexOf(buffer, '\n');
      var rest := buffer[k + 1..];
      match step(buffer[..k])
      case Next(delta) => Drain(rest, content + delta, step)
      case Finish => Drained(rest, content, true, false)
      case Block(line) => Drained(line + "\n" + rest, content, false, true)
  }

  /** One step of the drain, spelled out. */
  lemma DrainUnfold(buffer: string, content: string, step: string -> Step)
    requires '\n' in buffer
    ensures var k := IndexOf(buffer, '\n');
      var st := step(buffer[..k]);
      Drain(buffer, content, step) ==
        if st.Next? then Drain(buffer[k + 1..], content + st.delta, step)
        else if st.Finish? then Drained(buffer[k + 1..], content, true, false)
        else Drained(st.line + "\n" + buffer[k + 1..], content, false, true)
  {
  }

  /** A drain that runs to the end of the buffer consumed its first line and went on. */
  lemma DrainSkipsLine(buffer: string, content: string, step: string -> Step) returns (k: nat, delta: string)
    requires '\n' in buffer
    requires !Drain(buffer, content, step).done && !Drain(buffer, content, step).blocked
    ensures k < |buffer| && buffer[k] == '\n'
    ensures Drain(buffer, content, step) == Drain(buffer[k + 1..], content + delta, step)
  {
    k := IndexOf(buffer, '\n');
    DrainUnfold(buffer, content, step);
    delta := step(buffer[..k]).delta;
  }

  /**
   * `left` is the text after the last newline of `buffer`: a suffix of it without a newline,
   * preceded by a newline unless it is the whole buffer.
   */
  predicate IsIncompleteLine(buffer: string, left: string) {
    '\n' !in left && |left| <= |buffer| && left == buffer[|buffer| - |left|..] &&
    (|left| < |buffer| ==> buffer[|buffer| - |left| - 1] == '\n')
  }

  /** Unless it stopped at a finishing or blocking line, draining leaves exactly the text after the last newline. */
  lemma {:induction false} DrainKeepsIncompleteLine(buffer: string, content: string, step: string -> Step, r: Drained)
    requires r == Drain(buffer, content, step) && !r.done && !r.blocked
    decreases |buffer|, 1
    ensures IsIncompleteLine(buffer, r.buffer)
  {
    if '\n' in buffer {
      IncompleteLineAfterFirst(buffer, content, step, r);
    } else {
      assert r.buffer == buffer;
      assert buffer[0..] == buffer;
    }
  }

  lemma {:induction false} IncompleteLineAfterFirst(buffer: string, content: string, step: string -> Step, r: Drained)
    requires r == Drain(buffer, content, step) && !r.done && !r.blocked
    requires '\n' in buffer
    decreases |buffer|, 0
    ensures IsIncompleteLine(buffer, r.buffer)
  {
    var k, delta := DrainSkipsLine(buffer, content, step);
    DrainKeepsIncompleteLine(buffer[k + 1..], content + delta, step, r);
    IncompleteLineOfTail(buffer, k + 1, r.buffer);
  }

  /** The text after the last newline of a tail that follows a newline is the text after the last newline of the whole. */
  lemma IncompleteLineOfTail(buffer: string, from: nat, t: string)
    requires 0 < from <= |buffer| && buffer[from - 1] == '\n'
    requires IsIncompleteLine(buffer[from..], t)
    ensures IsIncompleteLine(buffer, t)
  {
    var tail := buffer[from..];
    var j := |buffer| - from - |t|;
    assert tail[j..] == buffer[from + j..];
    if 0 < j {
      assert tail[j - 1] == buffer[from + j - 1];
    }
  }

  /**
   * Draining after some assistant text is draining from nothing with that text put in front:
   * the deltas are concatenated in order, and where the drain stops does not depend on the
   * text gathered before it.
   */
  lemma {:induction false} DrainShift(buffer: string, content: string, step: string -> Step)
    decreases |buffer|
    ensures var d := Drain(buffer, "", step);
      Drain(buffer, content, step) == Drained(d.buffer, content + d.content, d.done, d.blocked)
  {
    if '\n' in buffer {
      var k := IndexOf(buffer, '\n');
      var st := step(buffer[..k]);
      DrainUnfold(buffer, content, step);
      DrainUnfold(buffer, "", step);
      if st.Next? {
        var rest := buffer[k + 1..];
        DrainShift(rest, content + st.delta, step);
        DrainShift(rest, st.delta, step);
        assert "" + st.delta == st.delta;
        var tail := Drain(rest, "", step).content;
        Seqs.AppendAssociative(content, st.delta, tail);
      } else {
        assert content + [] == content;
      }
    } else {
      assert content + [] == content;
    }
  }

  lemma IndexOfAfter(line: string, rest: string)
    requires '\n' !in line
    ensures '\n' in line + "\n" + rest && IndexOf(line + "\n" + rest, '\n') == |line|
  {
    var s := line + "\n" + rest;
    assert s[|line|] == '\n';
    assert s[..|line|] == line;
  }

  /** The drain on a buffer that starts with one complete line. */
  lemma DrainFirstLine(line: string, rest: string, content: string, step: string -> Step)
    requires '\n' !in line
    ensures var st := step(line);
      Drain(line + "\n" + rest, content, step) ==
        if st.Next? then Drain(rest, content + st.delta, step)
        else if st.Finish? then Drained(rest, content, true, false)
        else Drained(st.line + "\n" + rest, content, false, true)
  {
    IndexOfAfter(line, rest);
    assert (line + "\n" + rest)[..|line|] == line;
    assert (line + "\n" + rest)[|line| + 1..] == rest;
    DrainUnfold(line + "\n" + rest, content, step);
  }

  /** A skipped line (a comment, a blank line, or one without the data prefix) contributes nothing. */
  lemma SkippedLine(line: string, rest: string, content: string, parse: string -> Parsed)
    requires '\n' !in line && Classify(StripCR(line)).Skip?
    ensures Drain(line + "\n" + rest, content, LineSteps(parse)) == Drain(rest, content, LineSteps(parse))
  {
    DrainFirstLine(line, rest, content, LineSteps(parse));
    assert content + "" == content;
  }

  /** The line that ends the stream. */
  const DoneLine := DataPrefix + DoneMarker

  /** The end marker has no surrounding whitespace. */
  lemma DoneMarkerIsTrimmed()
    ensures Trim(DoneMarker) == DoneMarker
  {
    TrimOfTrimmed(DoneMarker);
  }

  /** The end marker line is classified as the end of the stream. */
  lemma DoneLineIsDone()
    ensures Classify(DoneLine) == Done
  {
    var line := DoneLine;
    assert line[..|DataPrefix|] == DataPrefix;
    assert line[|DataPrefix|..] == DoneMarker;
    DoneMarkerIsTrimmed();
    ClassifyDataLine(line);
  }

  /** The end marker line carries no carriage return, so it finishes the stream. */
  lemma DoneLineFinishes(parse: string -> Parsed)
    ensures StripCR(DoneLine) == DoneLine
    ensures StepOf(DoneLine, parse) == Finish
  {
    DoneLineIsDone();
    assert !EndsWithCR(DoneLine);
  }

  /** A line classified as the end marker stops the drain, whatever follows it. */
  lemma DoneLineStops(line: string, rest: string, content: string, parse: string -> Parsed)
    requires '\n' !in line && Classify(StripCR(line)).Done?
    ensures Drain(line + "\n" + rest, content, LineSteps(parse)) == Drained(rest, content, true, false)
  {
    DrainFirstLine(line, rest, content, LineSteps(parse));
  }

  /** The first complete line of `buffer` blocks. */
  predicate HeadBlocks(buffer: string, step: string -> Step) {
    '\n' in buffer && step(buffer[..IndexOf(buffer, '\n')]).Block?
  }

  /** A line that blocks stays at the front however much text arrives after it, and nothing is added. */
  lemma BlockedStaysBlocked(buffer: string, more: string, content: string, step: string -> Step)
    requires HeadBlocks(buffer, step)
    ensures HeadBlocks(buffer + more, step)
    ensures Drain(buffer + more, content, step).blocked
    ensures Drain(buffer + more, content, step).content == content
  {
    var k := IndexOf(buffer, '\n');
    var s := buffer + more;
    assert s[k] == '\n';
    assert s[..k] == buffer[..k];
    DrainUnfold(s, content, step);
  }

  /** The line put back after a parse failure is the line without its carriage return, and it blocks again. */
  lemma BlockedLineBlocksAgain(raw: string, parse: string -> Parsed)
    requires StepOf(raw, parse).Block?
    ensures StepOf(raw, parse).line == StripCR(raw)
    ensures StepOf(StripCR(raw), parse).Block?
  {
    var line := StripCR(raw);
    assert Classify(line).Payload?;
    StripCRKeepsPayload(line);
  }

  /** Removing a carriage return adds no newline. */
  lemma StripCRKeepsOneLine(raw: string)
    requires '\n' !in raw
    ensures '\n' !in StripCR(raw)
  {
    var line := StripCR(raw);
    forall i | 0 <= i < |line| ensures line[i] != '\n' {
      assert line[i] == raw[i];
    }
  }

  /** A buffer whose first complete line blocks. */
  lemma HeadBlocksWhenFirstLineBlocks(line: string, rest: string, step: string -> Step)
    requires '\n' !in line && step(line).Block?
    ensures HeadBlocks(line + "\n" + rest, step)
  {
    var buffer := line + "\n" + rest;
    IndexOfAfter(line, rest);
    assert buffer[..IndexOf(buffer, '\n')] == line;
  }

  /** A line put back after a parse failure blocks again when it is read next. */
  lemma PutBackLineBlocks(raw: string, rest: string, parse: string -> Parsed)
    requires '\n' !in raw && StepOf(raw, parse).Block?
    ensures HeadBlocks(StepOf(raw, parse).line + "\n" + rest, LineSteps(parse))
  {
    BlockedLineBlocksAgain(raw, parse);
    StripCRKeepsOneLine(raw);
    HeadBlocksWhenFirstLineBlocks(StripCR(raw), rest, LineSteps(parse));
  }

  /** When the drain blocks, the line left at the front is one that blocks. */
  lemma {:induction false} DrainBlockedHead(buffer: string, content: string, parse: string -> Parsed)
    requires Drain(buffer, content, LineSteps(parse)).blocked
    ensures HeadBlocks(Drain(buffer, content, LineSteps(parse)).buffer, LineSteps(parse))
    decreases |buffer|
  {
    var k := IndexOf(buffer, '\n');
    var raw := buffer[..k];
    DrainUnfold(buffer, content, LineSteps(parse));
    var st := StepOf(raw, parse);
    if st.Next? {
      DrainBlockedHead(buffer[k + 1..], content + st.delta, parse);
    } else {
      assert '\n' !in raw;
      PutBackLineBlocks(raw, buffer[k + 1..], parse);
    }
  }

  /** Removing a trailing carriage return does not change what a data line carries. */
  lemma StripCRKeepsPayload(line: string)
    requires StartsWith(line, DataPrefix)
    ensures Classify(StripCR(line)) == Classify(line)
  {
    if EndsWithCR(line) {
      var s := StripCR(line);
      assert line[5] == DataPrefix[5];
      assert |line| >= 7;
      assert s[..|DataPrefix|] == line[..|DataPrefix|];
      ClassifyDataLine(line);
      ClassifyDataLine(s);
      SuffixAfterDroppingLast(line, |DataPrefix|);
      TrimDropsTrailingSpace(s[|DataPrefix|..], '\r');
    }
  }

  /** Dropping the last character and taking a suffix is taking the suffix and then dropping its last character. */
  lemma SuffixAfterDroppingLast(line: string, n: nat)
    requires n < |line|
    ensures line[n..] == line[..|line| - 1][n..] + [line[|line| - 1]]
  {
    var t := line[..|line| - 1][n..] + [line[|line| - 1]];
    assert |t| == |line[n..]|;
    forall i | 0 <= i < |t| ensures t[i] == line[n..][i] {
      if i < |t| - 1 {
        assert t[i] == line[n + i];
      }
    }
  }

  /** Comment lines and blank lines are skipped. */
  lemma SkipLine(line: string)
    requires StartsWith(line, ":") || Trim(line) == ""
    ensures Classify(line) == Skip
  {
    TrimEmptyIffAllSpace(line);
  }

  /** A line with the data prefix carries its trimmed payload. */
  lemma ClassifyDataLine(line: string)
    requires StartsWith(line, DataPrefix)
    ensures Classify(line) == if Trim(line[|DataPrefix|..]) == DoneMarker then Done else Payload(Trim(line[|DataPrefix|..]))
  {
    assert line[0] == 'd';
    assert !AllSpace(line) by { assert !IsSpace(line[0]); }
    assert !StartsWith(line, ":");
  }

  lemma {:induction false} TrimDropsTrailingSpace(s: string, c: char)
    requires IsSpace(c)
    ensures Trim(s + [c]) == Trim(s)
  {
    var t := s + [c];
    if s == [] {
      assert t[1..] == [];
    } else if IsSpace(s[0]) {
      assert t[0] == s[0] && t[1..] == s[1..] + [c];
      TrimDropsTrailingSpace(s[1..], c);
    } else {
      assert t[0] == s[0] && t[..|t| - 1] == s;
    }
  }

  /** The state after the reader has delivered some chunks. */
  datatype Streamed = Streamed(buffer: string, content: string, done: bool)

  /** The outer loop as a function: append each chunk and drain, stopping once the stream finishes. */
  function Run(buffer: string, content: string, chunks: seq<string>, step: string -> Step): (r: Streamed)
    decreases |chunks|
    ensures content <= r.content
  {
    if chunks == [] then Streamed(buffer, content, false)
    else
      var d := Drain(buffer + chunks[0], content, step);
      if d.done then Streamed(d.buffer, d.content, true)
      else Run(d.buffer, d.content, chunks[1..], step)
  }

  /** Reading chunk `i` drains the buffer it extends, then either stops with the run's text or reads the chunks after it. */
  lemma RunStep(buffer: string, content: string, chunks: seq<string>, i: nat, step: string -> Step, target: Streamed)
    requires i < |chunks| && Run(buffer, content, chunks[i..], step) == target
    ensures var d := Drain(buffer + chunks[i], content, step);
      (d.done ==> d.content == target.content)
      && (!d.done ==> Run(d.buffer, d.content, chunks[i + 1..], step) == target)
  {
    assert chunks[i..][0] == chunks[i];
    assert chunks[i..][1..] == chunks[i + 1..];
  }

  /** Once the end marker has been read, later chunks change nothing. */
  lemma {:induction false} DoneIgnoresLaterChunks(buffer: string, content: string, chunks: seq<string>, more: seq<string>, step: string -> Step)
    requires Run(buffer, content, chunks, step).done
    ensures Run(buffer, content, chunks + more, step) == Run(buffer, content, chunks, step)
    decreases |chunks|
  {
    assert chunks != [];
    assert (chunks + more)[0] == chunks[0];
    assert (chunks + more)[1..] == chunks[1..] + more;
    var d := Drain(buffer + chunks[0], content, step);
    if !d.done {
      DoneIgnoresLaterChunks(d.buffer, d.content, chunks[1..], more, step);
    }
  }

  /** Once a payload fails to parse, no later chunk adds anything to the assistant text. */
  lemma {:induction false} BlockedStreamAddsNothing(buffer: string, content: string, chunks: seq<string>, parse: string -> Parsed)
    requires HeadBlocks(buffer, LineSteps(parse))
    ensures Run(buffer, content, chunks, LineSteps(parse)).content == content
    decreases |chunks|
  {
    if chunks != [] {
      BlockedStaysBlocked(buffer, chunks[0], content, LineSteps(parse));
      DrainBlockedHead(buffer + chunks[0], content, parse);
      var d := Drain(buffer + chunks[0], content, LineSteps(parse));
      BlockedStreamAddsNothing(d.buffer, d.content, chunks[1..], parse);
    }
  }

  /** On the concierge page, a payload that does not parse ends all progress of the answer. */
  lemma MalformedLineStallsAnswer(buffer: string, content: string, chunks: seq<string>, parse: string -> Parsed)
    requires Drain(buffer, content, LineSteps(parse)).blocked
    ensures Run(Drain(buffer, content, LineSteps(parse)).buffer, content, chunks, LineSteps(parse)).content == content
  {
    DrainBlockedHead(buffer, content, parse);
    BlockedStreamAddsNothing(Drain(buffer, content, LineSteps(parse)).buffer, content, chunks, parse);
  }

  /** The message list after a delta: the text replaces a trailing assistant message, or is appended as one. */
  function Merge(messages: seq<Message>, content: string): (r: seq<Message>)
    ensures |r| >= 1 && r[|r| - 1] == Message(Assistant, content)
    ensures r[..|r| - 1] == if messages != [] && messages[|messages| - 1].role == Assistant then messages[..|messages| - 1] else messages
  {
    if messages != [] && messages[|messages| - 1].role == Assistant then messages[..|messages| - 1] + [Message(Assistant, content)]
    else messages + [Message(Assistant, content)]
  }

  /** Successive deltas keep one assistant message, holding the latest text. */
  lemma MergeTwice(messages: seq<Message>, a: string, b: string)
    ensures Merge(Merge(messages, a), b) == Merge(messages, b)
  {
  }

  /** The assistant message the stream has produced so far, if any. */
  function Reply(content: string): seq<Message> {
    if content == "" then [] else [Message(Assistant, content)]
  }

  /** After the user's message, merging a non-empty text leaves exactly one assistant reply holding it. */
  lemma MergeReply(base: seq<Message>, content: string, newContent: string)
    requires base != [] && base[|base| - 1].role == User && newContent != ""
    ensures Merge(base + Reply(content), newContent) == base + Reply(newContent)
  {
    if content != "" {
      assert (base + Reply(content))[..|base|] == base;
    }
  }

  class Concierge {
    var messages: seq<Message>
    var input: string
    var isLoading: bool

    constructor()
      ensures messages == [] && input == "" && !isLoading
    {
      messages := [];
      input := "";
      isLoading := false;
    }

    method SetInput(text: string)
      modifies this
      ensures input == text && messages == old(messages) && isLoading == old(isLoading)
    {
      input := text;
    }

    /**
     * `sendMessage` up to the request: nothing happens for whitespace-only input or while a
     * request is in flight; otherwise the user message is appended, the input cleared and
     * loading set.
     */
    method SendMessage() returns (started: bool)
      modifies this
      ensures started <==> !AllSpace(old(input)) && !old(isLoading)
      ensures !started ==> messages == old(messages) && input == old(input) && isLoading == old(isLoading)
      ensures started ==> messages == old(messages) + [Message(User, old(input))] && input == "" && isLoading
    {
      TrimEmptyIffAllSpace(input);
      if Trim(input) == "" || isLoading {
        return false;
      }
      messages := messages + [Message(User, input)];
      input := "";
      isLoading := true;
      started := true;
    }

    /**
     * The inner loop of `sendMessage`: takes the complete lines off the front of the buffer,
     * appending each delta to the assistant text and showing it, until no newline is left,
     * the end marker is read, or a payload fails to parse and is put back.
     */
    method ReadLines(buffer: string, content: string, parse: string -> Parsed, ghost base: seq<Message>)
      returns (textBuffer: string, assistantContent: string, streamDone: bool)
      requires base != [] && base[|base| - 1].role == User
      requires messages == base + Reply(content)
      modifies this
      ensures var d := Drain(buffer, content, LineSteps(parse));
        textBuffer == d.buffer && assistantContent == d.content && streamDone == d.done
      ensures messages == base + Reply(assistantContent)
      ensures input == old(input) && isLoading == old(isLoading)
    {
      ghost var steps := LineSteps(parse);
      ghost var d := Drain(buffer, content, steps);
      textBuffer := buffer;
      assistantContent := content;
      streamDone := false;
      while '\n' in textBuffer
        invariant Drain(textBuffer, assistantContent, steps) == d
        invariant messages == base + Reply(assistantContent)
        invariant input == old(input) && isLoading == old(isLoading)
        decreases |textBuffer|
      {
        var rest, delta, stop, done := TakeLine(textBuffer, assistantContent, parse);
        textBuffer := rest;
        if delta != "" {
          MergeReply(base, assistantContent, assistantContent + delta);
          assistantContent := assistantContent + delta;
          messages := Merge(messages, assistantContent);
        } else {
          assert assistantContent + delta == assistantContent;
        }
        if stop {
          streamDone := done;
          break;
        }
      }
    }

    /**
     * One pass of the inner loop: the first complete line is taken off the buffer and handled.
     * Either reading goes on with the rest of the buffer, or it stops, finished by the end
     * marker or blocked with the line put back; in every case the drain's outcome is unchanged.
     */
    static method TakeLine(textBuffer: string, content: string, parse: string -> Parsed)
      returns (rest: string, delta: string, stop: bool, done: bool)
      requires '\n' in textBuffer
      ensures !stop ==> |rest| < |textBuffer| && !done
      ensures !stop ==> Drain(rest, content + delta, LineSteps(parse)) == Drain(textBuffer, content, LineSteps(parse))
      ensures stop ==> delta == "" && Drained(rest, content, done, !done) == Drain(textBuffer, content, LineSteps(parse))
    {
      var newlineIndex := IndexOf(textBuffer, '\n');
      var line := textBuffer[..newlineIndex];
      DrainUnfold(textBuffer, content, LineSteps(parse));
      rest := textBuffer[newlineIndex + 1..];
      var step := LineStep(line, parse);
      assert LineSteps(parse)(line) == step;
      match step
      case Next(d) =>
        delta, stop, done := d, false, false;
      case Finish =>
        delta, stop, done := "", true, true;
      case Block(putBack) =>
        rest := putBack + "\n" + rest;
        delta, stop, done := "", true, false;
    }

    /**
     * The handling of one complete line: a trailing carriage return is removed, comment,
     * blank and non-data lines are skipped, the end marker finishes, and a payload gives its
     * delta, or is put back when it does not parse.
     */
    static method LineStep(raw: string, parse: string -> Parsed) returns (step: Step)
      ensures step == StepOf(raw, parse)
    {
      var line := raw;
      assert EndsWith(line, "\r") <==> EndsWithCR(line);
      if EndsWith(line, "\r") {
        line := line[..|line| - 1];
      }
      assert line == StripCR(raw);
      if StartsWith(line, ":") || Trim(line) == "" {
        SkipLine(line);
        return Next("");
      }
      if !StartsWith(line, DataPrefix) {
        return Next("");
      }
      ClassifyDataLine(line);
      var jsonStr := Trim(line[|DataPrefix|..]);
      if jsonStr == DoneMarker {
        return Finish;
      }
      match parse(jsonStr)
      case Malformed =>
        return Block(line);
      case Delta(content) =>
        return Next(content);
    }

    /**
     * The rest of `sendMessage`: with a failed response, an error is reported; otherwise the
     * chunks are read line by line and the assistant text, when not empty, becomes one message
     * after the user's. Loading ends on every path.
     */
    method ReceiveStream(ok: bool, chunks: seq<string>, parse: string -> Parsed) returns (failed: bool)
      requires isLoading && messages != [] && messages[|messages| - 1].role == User
      modifies this
      ensures !isLoading && input == old(input)
      ensures failed <==> !ok
      ensures !ok ==> messages == old(messages)
      ensures ok ==> messages == old(messages) + Reply(Run("", "", chunks, LineSteps(parse)).content)
    {
      if !ok {
        isLoading := false;
        return true;
      }
      failed := false;
      ghost var steps := LineSteps(parse);
      ghost var base := messages;
      ghost var target := Run("", "", chunks, steps);
      var textBuffer := "";
      var streamDone := false;
      var assistantContent := "";
      var i := 0;
      while !streamDone
        invariant 0 <= i <= |chunks|
        invariant !streamDone ==> Run(textBuffer, assistantContent, chunks[i..], steps) == target
        invariant streamDone ==> assistantContent == target.content
        invariant messages == base + Reply(assistantContent)
        invariant input == old(input) && isLoading
        decreases |chunks| - i
      {
        if i == |chunks| {
          break;
        }
        RunStep(textBuffer, assistantContent, chunks, i, steps, target);
        textBuffer := textBuffer + chunks[i];
        i := i + 1;
        textBuffer, assistantContent, streamDone := ReadLines(textBuffer, assistantContent, parse, base);
      }
      isLoading := false;
    }
  }
}
