/** The line-oriented event-stream reader of the agent provider: complete
    lines are trimmed, blank ones skipped, "event: " lines set the current
    event name and "data: " lines are dispatched on it. It is a small subset
    of the event-stream format of section 9.2 of the WHATWG HTML Living
    Standard: a space must follow the colon, and blank lines neither end an
    event nor reset its name. */
module EventStream {
  import opened Wrappers
  import opened Text
  import opened LineBuffer

  /** A complete line as the reader sees it after trimming. */
  datatype LineKind = Blank | EventName(name: string) | Data(payload: string) | Other

  const EventPrefix: string := "event: "
  const DataPrefix: string := "data: "

  function Classify(line: string): (k: LineKind)
    ensures k.Blank? <==> AllSpace(line)
    ensures k.EventName? ==> StartsWith(Trim(line), EventPrefix) && k.name == Trim(Trim(line)[7..])
    ensures k.Data? ==> StartsWith(Trim(line), DataPrefix) && Trim(line)[6..] == k.payload
  {
    TrimEmptyIffAllSpace(line);
    ClassifyTrimmed(Trim(line))
  }

  /** The kind of an already trimmed line. */
  function ClassifyTrimmed(t: string): (k: LineKind)
    ensures k.Blank? <==> t == []
    ensures k.EventName? ==> StartsWith(t, EventPrefix) && k.name == Trim(t[7..])
    ensures k.EventName? ==> k.name == [] || (!IsSpace(k.name[0]) && !IsSpace(k.name[|k.name| - 1]))
    ensures k.Data? ==> StartsWith(t, DataPrefix) && t[6..] == k.payload
  {
    if t == "" then Blank
    else if StartsWith(t, EventPrefix) then EventName(Trim(t[7..]))
    else if StartsWith(t, DataPrefix) then Data(t[6..])
    else Other
  }

  /** A data line always carries a non-empty payload without trailing white
      space: the trimmed line ends in a non-space character, so it is longer
      than "data: ". A line reading "data:" or "data: " followed by white
      space is therefore never dispatched. */
  lemma DataPayloadNonEmpty(line: string)
    ensures Classify(line).Data? ==> Classify(line).payload != [] && !IsSpace(Classify(line).payload[|Classify(line).payload| - 1])
  {
    var t := Trim(line);
    if Classify(line).Data? {
      assert t[5] == DataPrefix[5] == ' ';
    }
  }

  /** A data line can only be dispatched with a non-empty payload. */
  lemma EmptyDataNeverDispatched(line: string)
    requires AllSpace(line) || (exists w :: AllSpace(w) && line == DataPrefix + w)
    ensures !Classify(line).Data?
  {
    DataPayloadNonEmpty(line);
  }

  lemma TrimEndWithin(s: string, n: nat)
    requires n <= |s| && AllSpace(s[n..])
    ensures |TrimEnd(s)| <= n
    decreases |s|
  {
    if |s| > n {
      assert IsSpace(s[|s| - 1]) by { assert s[|s| - 1] == s[n..][|s| - 1 - n]; }
      assert s[..|s| - 1][n..] == s[n..][..|s| - 1 - n];
      TrimEndWithin(s[..|s| - 1], n);
    }
  }

  /** What `JSON.parse` makes of a payload, as far as the readers look at
      it: an object with its optional string fields `type` and `message`, or
      a failure (which includes payloads whose value has no properties). */
  datatype Json = Json(kind: Option<string>, message: Option<string>) | NotJson

  const FragmentPreview: string := "Generating..."

  /** The status text for a data line: a fragment shows "Generating...", an
      object with a non-empty message shows the message, anything else the
      raw payload. */
  function Preview(data: string, parse: string -> Json): (r: string)
    ensures parse(data).NotJson? ==> r == data
    ensures parse(data).Json? && parse(data).kind == Some("fragment") ==> r == FragmentPreview
    ensures r == data || r == FragmentPreview || (parse(data).Json? && parse(data).message == Some(r) && r != [])
  {
    match parse(data)
    case NotJson => data
    case Json(kind, message) =>
      if kind == Some("fragment") then FragmentPreview
      else if message.Some? && message.value != "" then message.value
      else data
  }

  /** Whether the reader is still running, has returned on a "done" event,
      or has thrown on an "error" event with the payload as message. */
  datatype End = Streaming | Finished | Failed(message: string)

  datatype Parser = Parser(event: string, previews: seq<string>, end: End)

  const Start: Parser := Parser("message", [], Streaming)

  /** One complete line. */
  function Dispatch(p: Parser, line: string, parse: string -> Json): (r: Parser)
    requires p.end.Streaming?
    ensures |p.previews| <= |r.previews| <= |p.previews| + 1 && r.previews[..|p.previews|] == p.previews
    ensures |r.previews| > |p.previews| ==> Classify(line).Data? && r.end.Streaming? && r.previews[|p.previews|] == Preview(Classify(line).payload, parse)
    ensures Classify(line).EventName? ==> r == p.(event := Classify(line).name)
    ensures !Classify(line).EventName? ==> r.event == p.event
    ensures !Classify(line).Data? ==> r.previews == p.previews && r.end == p.end
  {
    match Classify(line)
    case EventName(n) => p.(event := n)
    case Data(d) =>
      if p.event == "error" then p.(end := Failed(d))
      else if p.event == "done" then p.(end := Finished)
      else p.(previews := p.previews + [Preview(d, parse)])
    case _ => p
  }

  /** What a data line does under each current event name. */
  lemma DataDispatch(p: Parser, line: string, parse: string -> Json)
    requires p.end.Streaming? && Classify(line).Data?
    ensures var d := Classify(line).payload;
      && (p.event == "error" ==> Dispatch(p, line, parse) == p.(end := Failed(d)))
      && (p.event == "done" ==> Dispatch(p, line, parse) == p.(end := Finished))
      && (p.event != "error" && p.event != "done" ==> Dispatch(p, line, parse) == p.(previews := p.previews + [Preview(d, parse)]))
  {
  }

  /** Lines in order, until the reader returns or throws. */
  function Lines(p: Parser, lines: seq<string>, parse: string -> Json): (r: Parser)
    ensures |p.previews| <= |r.previews| && r.previews[..|p.previews|] == p.previews
    ensures !p.end.Streaming? ==> r == p
    decreases |lines|
  {
    if lines == [] || !p.end.Streaming? then p
    else Lines(Dispatch(p, lines[0], parse), lines[1..], parse)
  }

  lemma {:induction false} LinesAppend(p: Parser, a: seq<string>, b: seq<string>, parse: string -> Json)
    ensures Lines(p, a + b, parse) == Lines(Lines(p, a, parse), b, parse)
    decreases |a|
  {
    if a != [] && p.end.Streaming? {
      assert (a + b)[1..] == a[1..] + b;
      LinesAppend(Dispatch(p, a[0], parse), a[1..], b, parse);
    } else if a == [] {
      assert a + b == b;
    }
  }

  /** Once the reader has returned or thrown, no line changes anything. */
  lemma NothingAfterEnd(p: Parser, a: seq<string>, b: seq<string>, parse: string -> Json)
    requires !Lines(p, a, parse).end.Streaming?
    ensures Lines(p, a + b, parse) == Lines(p, a, parse)
  {
    LinesAppend(p, a, b, parse);
  }

  /** Blank lines change nothing: in particular they do not reset the event
      name, which persists until the next "event: " line. */
  lemma {:induction false} BlankLinesIgnored(p: Parser, blanks: seq<string>, parse: string -> Json)
    requires forall i :: 0 <= i < |blanks| ==> AllSpace(blanks[i])
    ensures Lines(p, blanks, parse) == p
    decreases |blanks|
  {
    if blanks != [] && p.end.Streaming? {
      assert Classify(blanks[0]).Blank?;
      BlankLinesIgnored(p, blanks[1..], parse);
    }
  }

  // ---------------------------------------------------------------------------
  // Chunks

  /** The reader's state between reads: the line buffer and the parser. */
  datatype Reader = Reader(buffer: string, parser: Parser)

  const Open: Reader := Reader("", Start)

  /** One read: the complete lines of buffer plus chunk are dispatched and
      the rest is kept. A finished reader reads nothing more. */
  function Read(r: Reader, chunk: string, parse: string -> Json): (next: Reader)
    ensures NoNewline(r.buffer) ==> NoNewline(next.buffer)
  {
    if !r.parser.end.Streaming? then r
    else
      var fed := Feed(r.buffer, chunk);
      Reader(fed.buffer, Lines(r.parser, fed.lines, parse))
  }

  function ReadAll(r: Reader, chunks: seq<string>, parse: string -> Json): (next: Reader)
    ensures NoNewline(r.buffer) ==> NoNewline(next.buffer)
    decreases |chunks|
  {
    if chunks == [] then r else ReadAll(Read(r, chunks[0], parse), chunks[1..], parse)
  }

  /** The parser state after any sequence of reads is the line-by-line parse
      of the complete lines of the buffer and all chunks together. */
  lemma {:induction false} ReadAllIsLineParse(r: Reader, chunks: seq<string>, parse: string -> Json)
    requires NoNewline(r.buffer)
    ensures ReadAll(r, chunks, parse).parser == Lines(r.parser, CompleteLines(r.buffer + Concat(chunks)), parse)
    decreases |chunks|
  {
    if chunks == [] {
      assert r.buffer + "" == r.buffer;
      SplitNoNewlineSingle(r.buffer);
    } else {
      var c := chunks[0];
      var rest := Concat(chunks[1..]);
      ConcatAssoc(r.buffer, c, rest);
      CompleteLinesAppend(r.buffer + c, rest);
      var next := Read(r, c, parse);
      ReadAllIsLineParse(next, chunks[1..], parse);
      if r.parser.end.Streaming? {
        LinesAppend(r.parser, CompleteLines(r.buffer + c), CompleteLines(Remainder(r.buffer + c) + rest), parse);
      }
    }
  }

  /** The text's parse: its complete lines, from the start state. */
  function ParseText(text: string, parse: string -> Json): Parser {
    Lines(Start, CompleteLines(text), parse)
  }

  /** Chunk boundaries do not matter: two read sequences with the same
      concatenation yield the same previews and end the same way. */
  lemma ChunkBoundaryIndependence(chunks1: seq<string>, chunks2: seq<string>, parse: string -> Json)
    requires Concat(chunks1) == Concat(chunks2)
    ensures ReadAll(Open, chunks1, parse).parser == ReadAll(Open, chunks2, parse).parser
    ensures ReadAll(Open, chunks1, parse).parser == ParseText(Concat(chunks1), parse)
  {
    ReadAllIsLineParse(Open, chunks1, parse);
    ReadAllIsLineParse(Open, chunks2, parse);
    assert "" + Concat(chunks1) == Concat(chunks1);
  }

  lemma RemainderAfterNewline(s: string)
    ensures Remainder(s + "\n") == ""
  {
    SplitAppend(s, "\n");
    SplitTerminated(Remainder(s));
  }

  /** When the stream ends, a final line without "\n" is never dispatched. */
  lemma UnterminatedLineDropped(s: string, tail: string, parse: string -> Json)
    requires NoNewline(tail)
    ensures ParseText(s + "\n" + tail, parse) == ParseText(s + "\n", parse)
  {
    RemainderAfterNewline(s);
    CompleteLinesUnterminated(s + "\n", tail);
  }
}
