/** The agent provider of the current package: endpoint resolution, the
    request it posts, and `send`, which reads the response body chunk by
    chunk through the event-stream reader and hands each preview to its
    consumer. The network is abstract: the response is a sequence of read
    events. */
module Provider {
  import opened Wrappers
  import opened Seqs
  import opened LineBuffer
  import opened EventStream

  datatype AgentType = Claude | Opencode

  const ClaudeEndpoint: string := "http://127.0.0.1:3000/api/code-edit"
  const OpencodeEndpoint: string := "http://127.0.0.1:6569/api/code-edit"

  function DefaultEndpoint(t: AgentType): string {
    match t
    case Claude => ClaudeEndpoint
    case Opencode => OpencodeEndpoint
  }

  datatype ProviderOptions = ProviderOptions(
    agent: AgentType,
    endpoint: Option<string>,
    provider: Option<string>,
    model: Option<string>,
    apiKey: Option<string>)

  /** JavaScript truthiness of an optional string. */
  predicate Given(s: Option<string>) {
    s.Some? && s.value != ""
  }

  /** `options.endpoint || AGENT_ENDPOINTS[options.type]`. */
  function Endpoint(o: ProviderOptions): (e: string)
    ensures Given(o.endpoint) ==> e == o.endpoint.value
    ensures !Given(o.endpoint) ==> e == DefaultEndpoint(o.agent)
    ensures e != ""
  {
    if Given(o.endpoint) then o.endpoint.value else DefaultEndpoint(o.agent)
  }

  /** The `agentConfig` object of the request: each of provider, model and
      apiKey is spread in only when it is truthy. */
  function AgentConfig(o: ProviderOptions): (m: map<string, string>)
    ensures "provider" in m <==> Given(o.provider)
    ensures "model" in m <==> Given(o.model)
    ensures "apiKey" in m <==> Given(o.apiKey)
    ensures "provider" in m ==> m["provider"] == o.provider.value
    ensures "model" in m ==> m["model"] == o.model.value
    ensures "apiKey" in m ==> m["apiKey"] == o.apiKey.value
    ensures m.Keys <= {"provider", "model", "apiKey"}
  {
    var a := if Given(o.provider) then map["provider" := o.provider.value] else map[];
    var b := if Given(o.model) then a["model" := o.model.value] else a;
    if Given(o.apiKey) then b["apiKey" := o.apiKey.value] else b
  }

  /** The `options` of an agent context: the locator (an opaque JSON value,
      kept here as its serialised text) and the snippet. */
  datatype TargetOptions = TargetOptions(locator: string, htmlSnippet: string)

  datatype Request = Request(
    url: string,
    prompt: string,
    locator: string,
    htmlSnippet: string,
    agentConfig: map<string, string>)

  /** What one `reader.read()` brings: a decoded chunk, the end of the body,
      a rejection (an abort through the signal surfaces here), or the
      consumer leaving its loop so that the generator is closed. */
  datatype ReadEvent = Chunk(text: string) | StreamDone | ReadFails(reason: string) | ConsumerStops

  function ChunkEvent(text: string): ReadEvent {
    Chunk(text)
  }

  /** How the generator finishes: still awaiting a read, returned, or thrown. */
  datatype Outcome = Pending | Returned | Threw(message: string)

  const MissingOptions: string := "Missing locator and htmlSnippet"
  const NoBody: string := "No response body"

  /** The outcome a finished parser stands for. */
  function Settle(e: End): (o: Outcome)
    ensures e.Finished? ==> o == Returned
    ensures e.Failed? ==> o == Threw(e.message)
    ensures e.Streaming? ==> o == Pending
  {
    match e
    case Streaming => Pending
    case Finished => Returned
    case Failed(m) => Threw(m)
  }

  datatype Pumped = Pumped(parser: Parser, outcome: Outcome)

  /** The read loop inside `try`: each chunk goes through the reader until
      the parser returns or throws, or a read ends the loop. */
  function Pump(r: Reader, events: seq<ReadEvent>, parse: string -> Json): (p: Pumped)
    ensures p.outcome.Pending? ==> p.parser.end.Streaming?
    ensures !r.parser.end.Streaming? ==> p == Pumped(r.parser, Settle(r.parser.end))
    ensures |r.parser.previews| <= |p.parser.previews| && p.parser.previews[..|r.parser.previews|] == r.parser.previews
    decreases |events|
  {
    if !r.parser.end.Streaming? then Pumped(r.parser, Settle(r.parser.end))
    else if events == [] then Pumped(r.parser, Pending)
    else
      match events[0]
      case Chunk(c) =>
        var n := Read(r, c, parse);
        assert n.parser == Lines(r.parser, Feed(r.buffer, c).lines, parse);
        Pump(n, events[1..], parse)
      case StreamDone => Pumped(r.parser, Returned)
      case ReadFails(m) => Pumped(r.parser, Threw(m))
      case ConsumerStops => Pumped(r.parser, Returned)
  }

  /** How `await fetch(...)` settled: rejected (a network failure, or an
      abort through the signal before the response), or with a response
      that has a body or none. */
  datatype Fetched = Rejected(reason: string) | Response(hasBody: bool)

  /** What one call to `send` did: the request it posted (none when it threw
      first), the previews it yielded, how it finished, and whether it took
      and released the reader lock. */
  datatype Sent = Sent(
    request: Option<Request>,
    previews: seq<string>,
    outcome: Outcome,
    locked: bool,
    released: bool)

  function Send(o: ProviderOptions, prompt: string, target: Option<TargetOptions>, fetched: Fetched, events: seq<ReadEvent>, parse: string -> Json): (s: Sent)
    ensures target.None? ==> s == Sent(None, [], Threw(MissingOptions), false, false)
    ensures target.Some? ==> s.request == Some(Request(Endpoint(o), prompt, target.value.locator, target.value.htmlSnippet, AgentConfig(o)))
    ensures target.Some? && fetched.Rejected? ==> s == Sent(s.request, [], Threw(fetched.reason), false, false)
    ensures target.Some? && fetched == Response(false) ==> s == Sent(s.request, [], Threw(NoBody), false, false)
    ensures s.locked <==> target.Some? && fetched == Response(true)
    ensures s.locked ==> (s.released <==> !s.outcome.Pending?)
    ensures !s.locked ==> !s.released && s.previews == []
  {
    match target
    case None => Sent(None, [], Threw(MissingOptions), false, false)
    case Some(t) =>
      var req := Request(Endpoint(o), prompt, t.locator, t.htmlSnippet, AgentConfig(o));
      if fetched.Rejected? then Sent(Some(req), [], Threw(fetched.reason), false, false)
      else if !fetched.hasBody then Sent(Some(req), [], Threw(NoBody), false, false)
      else
        var p := Pump(Open, events, parse);
        Sent(Some(req), p.parser.previews, p.outcome, true, !p.outcome.Pending?)
  }

  /** A finished reader reads nothing more. */
  lemma {:induction false} ReadAllEnded(r: Reader, chunks: seq<string>, parse: string -> Json)
    requires !r.parser.end.Streaming?
    ensures ReadAll(r, chunks, parse) == r
    decreases |chunks|
  {
    if chunks != [] {
      ReadAllEnded(r, chunks[1..], parse);
    }
  }

  /** A run of chunks is pumped exactly as the reader reads them in turn. */
  lemma {:induction false} PumpChunks(r: Reader, chunks: seq<string>, rest: seq<ReadEvent>, parse: string -> Json)
    ensures Pump(r, Map(ChunkEvent, chunks) + rest, parse) == Pump(ReadAll(r, chunks, parse), rest, parse)
    decreases |chunks|
  {
    if chunks == [] {
      assert Map(ChunkEvent, chunks) + rest == rest;
    } else if !r.parser.end.Streaming? {
      ReadAllEnded(r, chunks, parse);
    } else {
      MapSuffix(ChunkEvent, chunks, 0);
      assert chunks[0..] == chunks;
      assert (Map(ChunkEvent, chunks) + rest)[1..] == Map(ChunkEvent, chunks[1..]) + rest;
      PumpChunks(Read(r, chunks[0], parse), chunks[1..], rest, parse);
    }
  }

  /** After anything but a chunk, the pump depends only on the parser. */
  lemma PumpLast(r1: Reader, r2: Reader, e: ReadEvent, parse: string -> Json)
    requires r1.parser == r2.parser && !e.Chunk?
    ensures Pump(r1, [e], parse) == Pump(r2, [e], parse)
  {
  }

  /** Chunk boundaries do not matter to `send`: two bodies with the same text
      and the same final read yield the same previews and finish the same
      way, and the previews are those of the text's complete lines. */
  lemma SendChunkBoundaryIndependence(o: ProviderOptions, prompt: string, target: TargetOptions, chunks1: seq<string>, chunks2: seq<string>, last: ReadEvent, parse: string -> Json)
    requires Concat(chunks1) == Concat(chunks2) && !last.Chunk?
    ensures var s1 := Send(o, prompt, Some(target), Response(true), Map(ChunkEvent, chunks1) + [last], parse);
      && s1 == Send(o, prompt, Some(target), Response(true), Map(ChunkEvent, chunks2) + [last], parse)
      && s1.previews == ParseText(Concat(chunks1), parse).previews
  {
    PumpChunks(Open, chunks1, [last], parse);
    PumpChunks(Open, chunks2, [last], parse);
    ChunkBoundaryIndependence(chunks1, chunks2, parse);
    PumpLast(ReadAll(Open, chunks1, parse), ReadAll(Open, chunks2, parse), last, parse);
  }

  /** An "error" data line makes `send` throw with the raw payload; a "done"
      one makes it return; in both cases the reader lock is released. */
  lemma SendTerminalEvents(o: ProviderOptions, prompt: string, target: TargetOptions, chunks: seq<string>, last: ReadEvent, parse: string -> Json)
    requires !last.Chunk?
    ensures var s := Send(o, prompt, Some(target), Response(true), Map(ChunkEvent, chunks) + [last], parse);
      var p := ParseText(Concat(chunks), parse);
      && (p.end.Failed? ==> s.outcome == Threw(p.end.message) && s.released)
      && (p.end.Finished? ==> s.outcome == Returned && s.released)
      && (p.end.Streaming? && last.StreamDone? ==> s.outcome == Returned && s.released)
      && (p.end.Streaming? && last.ReadFails? ==> s.outcome == Threw(last.reason) && s.released)
  {
    PumpChunks(Open, chunks, [last], parse);
    ChunkBoundaryIndependence(chunks, chunks, parse);
  }
}
