/**
 * The streamed-response readers of the providers: the generic server-sent-events
 * reader (`parseSSEStream`) and the Anthropic variant of the same loop. Both keep a
 * buffer, split it at line feeds, hand every complete line to a per-provider
 * classifier and keep the unfinished last piece for the next read. This follows a
 * simplified subset of the event-stream format of section 9.2 (Server-sent events)
 * of the WHATWG HTML Living Standard: only single `data: ` lines are understood.
 *
 * The byte stream is the sequence of already decoded reads; JSON.parse together
 * with the provider's content extraction is an oracle.
 */
module EventStream {
  import opened Text

  /** What the `onChunk` callback receives. */
  datatype Chunk = Chunk(text: string, done: bool)

  const Done: Chunk := Chunk("", true)

  /** What one complete line asks the reader to do. */
  datatype LineAction = Skip | Emit(text: string) | Finish

  const DataPrefix: string := "data: "

  /** `line.slice(6).trim()`. */
  function Payload(line: string): string
  {
    if |line| >= |DataPrefix| then Trim(line[|DataPrefix|..]) else ""
  }

  // ---------------------------------------------------------------------------
  // Classifiers
  // ---------------------------------------------------------------------------

  /**
   * The generic reader's decision for one line: only `data: ` lines count, the
   * payload `[DONE]` ends the stream, and otherwise non-empty extracted content is
   * emitted. `content` stands for `extractContent(JSON.parse(payload))`: None when
   * the payload is malformed, extraction throws or yields null.
   */
  function SseAction(line: string, content: string -> Option<string>): (a: LineAction)
    ensures !StartsWith(line, DataPrefix) ==> a == Skip
    ensures a == Finish <==> StartsWith(line, DataPrefix) && Payload(line) == "[DONE]"
    ensures a.Emit? <==> StartsWith(line, DataPrefix) && Payload(line) != "[DONE]"
                         && content(Payload(line)).Some? && content(Payload(line)).value != ""
    ensures a.Emit? ==> a.text == content(Payload(line)).value
  {
    if !StartsWith(line, DataPrefix) then Skip
    else
      var data := Payload(line);
      if data == "[DONE]" then Finish
      else
        match content(data)
        case None => Skip
        case Some(t) => if t == "" then Skip else Emit(t)
  }

  function SseClassifier(content: string -> Option<string>): string -> LineAction
  {
    line => SseAction(line, content)
  }

  /** The events of the Anthropic stream the reader distinguishes, as JSON.parse and `parsed.type` give them. */
  datatype AnthropicEvent = ContentBlockDelta(deltaText: string) | MessageStop | OtherEvent

  /**
   * The Anthropic reader's decision for one line: a `content_block_delta` with
   * non-empty text is emitted, `message_stop` ends the stream, anything else and
   * malformed JSON (None) are skipped.
   */
  function AnthropicAction(line: string, events: string -> Option<AnthropicEvent>): (a: LineAction)
    ensures !StartsWith(line, DataPrefix) ==> a == Skip
    ensures a == Finish <==> StartsWith(line, DataPrefix) && events(Payload(line)) == Some(MessageStop)
    ensures a.Emit? <==> StartsWith(line, DataPrefix) && events(Payload(line)).Some?
                         && events(Payload(line)).value.ContentBlockDelta?
                         && events(Payload(line)).value.deltaText != ""
    ensures a.Emit? ==> a.text == events(Payload(line)).value.deltaText
  {
    if !StartsWith(line, DataPrefix) then Skip
    else
      match events(Payload(line))
      case None => Skip
      case Some(ContentBlockDelta(t)) => if t == "" then Skip else Emit(t)
      case Some(MessageStop) => Finish
      case Some(OtherEvent) => Skip
  }

  function AnthropicClassifier(events: string -> Option<AnthropicEvent>): string -> LineAction
  {
    line => AnthropicAction(line, events)
  }

  /** A classifier that never emits an empty text (both readers test the content for truthiness). */
  ghost predicate EmitsText(classify: string -> LineAction)
  {
    forall line :: classify(line).Emit? ==> classify(line).text != ""
  }

  lemma SseEmitsText(content: string -> Option<string>)
    ensures EmitsText(SseClassifier(content))
  {
  }

  lemma AnthropicEmitsText(events: string -> Option<AnthropicEvent>)
    ensures EmitsText(AnthropicClassifier(events))
  {
  }

  // ---------------------------------------------------------------------------
  // Specification: lines of a text, and processing them in order
  // ---------------------------------------------------------------------------

  /** Everything read so far, in order. */
  function Concat(received: seq<string>): string
  {
    if received == [] then "" else Concat(received[..|received| - 1]) + received[|received| - 1]
  }

  lemma {:induction false} ConcatAppend(a: seq<string>, b: seq<string>)
    ensures Concat(a + b) == Concat(a) + Concat(b)
  {
    if b == [] {
      assert a + b == a;
    } else {
      var init := b[..|b| - 1];
      assert (a + b)[..|a + b| - 1] == a + init;
      assert (a + b)[|a + b| - 1] == b[|b| - 1];
      ConcatAppend(a, init);
      calc {
        Concat(a + b);
        Concat(a + init) + b[|b| - 1];
        (Concat(a) + Concat(init)) + b[|b| - 1];
        Concat(a) + (Concat(init) + b[|b| - 1]);
      }
    }
  }

  /** The line-feed-terminated lines of a text. */
  function CompleteLines(s: string): seq<string>
  {
    var parts := Split(s, '\n');
    parts[..|parts| - 1]
  }

  /** The unfinished last piece of a text, which the reader keeps in its buffer. */
  function LastPiece(s: string): string
  {
    var parts := Split(s, '\n');
    parts[|parts| - 1]
  }

  /** Every character of the text is in exactly one line or in the buffer, in order. */
  lemma LinesCoverText(s: string)
    ensures Join(CompleteLines(s) + [LastPiece(s)], "\n") == s
  {
    var parts := Split(s, '\n');
    assert CompleteLines(s) + [LastPiece(s)] == parts;
    SplitJoin(s, '\n');
  }

  /** Appending to a text keeps its complete lines and continues its last piece. */
  lemma CompleteLinesAppend(x: string, y: string)
    ensures CompleteLines(x + y) == CompleteLines(x) + CompleteLines(LastPiece(x) + y)
    ensures LastPiece(x + y) == LastPiece(LastPiece(x) + y)
  {
    SplitAppend(x, y, '\n');
    var sx := Split(x, '\n');
    var t := Split(sx[|sx| - 1] + y, '\n');
    assert Split(x + y, '\n') == sx[..|sx| - 1] + t;
    assert (sx[..|sx| - 1] + t)[..|sx| - 1 + |t| - 1] == sx[..|sx| - 1] + t[..|t| - 1];
  }

  /** A trailing piece without a line feed adds no line: the final partial line is never processed. */
  lemma TrailingPartialIgnored(s: string, tail: string)
    requires LastPiece(s) == "" && '\n' !in tail
    ensures CompleteLines(s + tail) == CompleteLines(s)
  {
    CompleteLinesAppend(s, tail);
    assert LastPiece(s) + tail == tail;
    SplitNoSeparator(tail, '\n');
  }

  /** The reader's state between lines: text so far, chunks emitted so far, and whether it returned. */
  datatype Progress = Progress(text: string, chunks: seq<Chunk>, finished: bool)

  const Start: Progress := Progress("", [], false)

  /** One line: nothing after a return; otherwise skip, append and emit, or emit done and return. */
  function Step(p: Progress, line: string, classify: string -> LineAction): Progress
  {
    if p.finished then p
    else
      match classify(line)
      case Skip => p
      case Emit(t) => Progress(p.text + t, p.chunks + [Chunk(t, false)], false)
      case Finish => Progress(p.text, p.chunks + [Done], true)
  }

  /** The lines, in order, from state `p`. */
  function FoldFrom(p: Progress, lines: seq<string>, classify: string -> LineAction): Progress
  {
    if lines == [] then p
    else Step(FoldFrom(p, lines[..|lines| - 1], classify), lines[|lines| - 1], classify)
  }

  lemma {:induction false} FoldFromAppend(p: Progress, a: seq<string>, b: seq<string>, classify: string -> LineAction)
    ensures FoldFrom(p, a + b, classify) == FoldFrom(FoldFrom(p, a, classify), b, classify)
  {
    if b == [] {
      assert a + b == a;
    } else {
      assert (a + b)[..|a + b| - 1] == a + b[..|b| - 1];
      FoldFromAppend(p, a, b[..|b| - 1], classify);
    }
  }

  /** Once returned, later lines change nothing. */
  lemma {:induction false} FinishedStays(p: Progress, lines: seq<string>, classify: string -> LineAction)
    requires p.finished
    ensures FoldFrom(p, lines, classify) == p
  {
    if lines != [] {
      FinishedStays(p, lines[..|lines| - 1], classify);
    }
  }

  /** What the reader returns and emits for a stream whose complete lines are `lines`. */
  function Outcome(lines: seq<string>, classify: string -> LineAction): (string, seq<Chunk>)
  {
    var p := FoldFrom(Start, lines, classify);
    if p.finished then (p.text, p.chunks) else (p.text, p.chunks + [Done])
  }

  /** The concatenation of the chunks' texts. */
  function Texts(chunks: seq<Chunk>): string
  {
    if chunks == [] then "" else Texts(chunks[..|chunks| - 1]) + chunks[|chunks| - 1].text
  }

  /** Chunks emitted while streaming: none is done, none is empty, and the text is theirs. */
  ghost predicate Streaming(text: string, chunks: seq<Chunk>)
  {
    && (forall k :: 0 <= k < |chunks| ==> !chunks[k].done && chunks[k].text != "")
    && text == Texts(chunks)
  }

  ghost predicate Settled(p: Progress)
  {
    if p.finished then |p.chunks| >= 1 && p.chunks[|p.chunks| - 1] == Done && Streaming(p.text, p.chunks[..|p.chunks| - 1])
    else Streaming(p.text, p.chunks)
  }

  lemma StepSettled(p: Progress, line: string, classify: string -> LineAction)
    requires EmitsText(classify) && Settled(p)
    ensures Settled(Step(p, line, classify))
  {
    if !p.finished {
      match classify(line)
      case Skip =>
      case Emit(t) =>
        var q := Step(p, line, classify);
        assert q.chunks[..|q.chunks| - 1] == p.chunks;
      case Finish =>
        var q := Step(p, line, classify);
        assert q.chunks[..|q.chunks| - 1] == p.chunks;
    }
  }

  lemma {:induction false} FoldFromSettled(p: Progress, lines: seq<string>, classify: string -> LineAction)
    requires EmitsText(classify) && Settled(p)
    ensures Settled(FoldFrom(p, lines, classify))
  {
    if lines != [] {
      FoldFromSettled(p, lines[..|lines| - 1], classify);
      StepSettled(FoldFrom(p, lines[..|lines| - 1], classify), lines[|lines| - 1], classify);
    }
  }

  /**
   * The shape of every stream's result: exactly one done chunk, always last; the
   * chunks before it are non-empty texts, and the returned text is their concatenation.
   */
  lemma OutcomeShape(lines: seq<string>, classify: string -> LineAction)
    requires EmitsText(classify)
    ensures var (text, chunks) := Outcome(lines, classify);
      && |chunks| >= 1 && chunks[|chunks| - 1] == Done
      && (forall k :: 0 <= k < |chunks| - 1 ==> !chunks[k].done && chunks[k].text != "")
      && text == Texts(chunks[..|chunks| - 1])
  {
    FoldFromSettled(Start, lines, classify);
    var p := FoldFrom(Start, lines, classify);
    if !p.finished {
      assert (p.chunks + [Done])[..|p.chunks|] == p.chunks;
    }
  }

  /** A line that ends the stream makes every later line irrelevant. */
  lemma FinishIgnoresLater(before: seq<string>, line: string, after: seq<string>, classify: string -> LineAction)
    requires classify(line) == Finish
    ensures Outcome(before + [line] + after, classify) == Outcome(before + [line], classify)
  {
    FoldFromAppend(Start, before + [line], after, classify);
    assert (before + [line])[..|before|] == before;
    FinishedStays(FoldFrom(Start, before + [line], classify), after, classify);
  }

  /** A stream without a terminating line still ends with one done chunk after all its text. */
  lemma {:induction false} NoFinishEmitsAll(lines: seq<string>, classify: string -> LineAction)
    requires forall k :: 0 <= k < |lines| ==> classify(lines[k]) != Finish
    ensures !FoldFrom(Start, lines, classify).finished
  {
    if lines != [] {
      NoFinishEmitsAll(lines[..|lines| - 1], classify);
    }
  }

  // ---------------------------------------------------------------------------
  // The reader
  // ---------------------------------------------------------------------------

  /** The `for (const line of lines)` loop, which returns as soon as a line finishes the stream. */
  method ProcessLines(start: Progress, lines: seq<string>, classify: string -> LineAction) returns (p: Progress)
    requires !start.finished
    ensures p == FoldFrom(start, lines, classify)
  {
    p := start;
    var j := 0;
    while j < |lines|
      invariant 0 <= j <= |lines|
      invariant p == FoldFrom(start, lines[..j], classify)
      invariant !p.finished
    {
      assert lines[..j + 1][..j] == lines[..j];
      match classify(lines[j]) {
        case Skip =>
        case Emit(t) =>
          p := Progress(p.text + t, p.chunks + [Chunk(t, false)], false);
        case Finish =>
          p := Progress(p.text, p.chunks + [Done], true);
      }
      if p.finished {
        FoldFromAppend(start, lines[..j + 1], lines[j + 1..], classify);
        assert lines[..j + 1] + lines[j + 1..] == lines;
        FinishedStays(p, lines[j + 1..], classify);
        return;
      }
      j := j + 1;
    }
    assert lines[..j] == lines;
  }

  /**
   * The read loop shared by both readers: appends each read to the buffer, processes
   * its complete lines and keeps the rest. The result depends only on the complete
   * lines of everything read, not on how the stream was cut into received.
   */
  method ReadDataLines(received: seq<string>, classify: string -> LineAction) returns (text: string, chunks: seq<Chunk>)
    ensures (text, chunks) == Outcome(CompleteLines(Concat(received)), classify)
  {
    var buffer := "";
    var p := Start;
    var i := 0;
    while i < |received|
      invariant 0 <= i <= |received|
      invariant buffer == LastPiece(Concat(received[..i]))
      invariant p == FoldFrom(Start, CompleteLines(Concat(received[..i])), classify)
      invariant !p.finished
    {
      var before := Concat(received[..i]);
      assert received[..i + 1][..i] == received[..i];
      assert Concat(received[..i + 1]) == before + received[i];
      CompleteLinesAppend(before, received[i]);
      FoldFromAppend(Start, CompleteLines(before), CompleteLines(buffer + received[i]), classify);

      buffer := buffer + received[i];
      var lines := Split(buffer, '\n');
      buffer := lines[|lines| - 1];
      p := ProcessLines(p, lines[..|lines| - 1], classify);
      i := i + 1;
      if p.finished {
        ReadToEnd(received, i, p, classify);
        return p.text, p.chunks;
      }
    }
    assert received[..i] == received;
    return p.text, p.chunks + [Done];
  }

  /** Once a prefix of the received has finished the stream, the received after it do not matter. */
  lemma ReadToEnd(received: seq<string>, i: nat, p: Progress, classify: string -> LineAction)
    requires i <= |received| && p.finished
    requires p == FoldFrom(Start, CompleteLines(Concat(received[..i])), classify)
    ensures Outcome(CompleteLines(Concat(received)), classify) == (p.text, p.chunks)
  {
    var x := Concat(received[..i]);
    assert received[..i] + received[i..] == received;
    ConcatAppend(received[..i], received[i..]);
    CompleteLinesAppend(x, Concat(received[i..]));
    FoldFromAppend(Start, CompleteLines(x), CompleteLines(LastPiece(x) + Concat(received[i..])), classify);
    FinishedStays(p, CompleteLines(LastPiece(x) + Concat(received[i..])), classify);
  }

  /** `parseSSEStream`: the generic reader with the `data: `/`[DONE]` classifier. */
  method ParseSseStream(received: seq<string>, content: string -> Option<string>) returns (text: string, chunks: seq<Chunk>)
    ensures (text, chunks) == Outcome(CompleteLines(Concat(received)), SseClassifier(content))
    ensures |chunks| >= 1 && chunks[|chunks| - 1] == Done
    ensures forall k :: 0 <= k < |chunks| - 1 ==> !chunks[k].done && chunks[k].text != ""
    ensures text == Texts(chunks[..|chunks| - 1])
  {
    text, chunks := ReadDataLines(received, SseClassifier(content));
    SseEmitsText(content);
    OutcomeShape(CompleteLines(Concat(received)), SseClassifier(content));
  }

  // ---------------------------------------------------------------------------
  // Endpoints and the Anthropic request
  // ---------------------------------------------------------------------------

  /** `getEndpoint`: the proxy when one is configured (a non-empty string), else the direct endpoint. */
  function GetEndpoint(proxyUrl: Option<string>, direct: string): (url: string)
    ensures proxyUrl.Some? && proxyUrl.value != "" ==> url == proxyUrl.value
    ensures proxyUrl.None? || proxyUrl.value == "" ==> url == direct
  {
    if proxyUrl.Some? && proxyUrl.value != "" then proxyUrl.value else direct
  }

  const AnthropicDirectEndpoint: string := "https://api.anthropic.com/v1/messages"

  /** What `fetch` returns: the status and the decoded received of the body. */
  datatype HttpResponse = HttpResponse(ok: bool, status: int, received: seq<string>)

  /** The settled promise of `complete`: the full text, or the thrown error's message. */
  datatype Completed = Completed(text: string) | Failed(message: string)

  /**
   * The stream loop of the Anthropic provider's `complete`, after the request: a
   * non-ok response fails before any chunk is emitted; otherwise the body is read
   * with the Anthropic classifier.
   */
  method AnthropicComplete(response: HttpResponse, events: string -> Option<AnthropicEvent>)
    returns (result: Completed, chunks: seq<Chunk>)
    ensures !response.ok ==> result == Failed("Anthropic API error: " + IntToString(response.status)) && chunks == []
    ensures response.ok ==>
              var (text, emitted) := Outcome(CompleteLines(Concat(response.received)), AnthropicClassifier(events));
              result == Completed(text) && chunks == emitted
    ensures response.ok ==>
              && |chunks| >= 1 && chunks[|chunks| - 1] == Done
              && (forall k :: 0 <= k < |chunks| - 1 ==> !chunks[k].done && chunks[k].text != "")
              && result.text == Texts(chunks[..|chunks| - 1])
  {
    if !response.ok {
      return Failed("Anthropic API error: " + IntToString(response.status)), [];
    }
    var text;
    text, chunks := ReadDataLines(response.received, AnthropicClassifier(events));
    AnthropicEmitsText(events);
    OutcomeShape(CompleteLines(Concat(response.received)), AnthropicClassifier(events));
    result := Completed(text);
  }
}
