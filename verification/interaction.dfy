/** The prompt interaction of the current package's entry point: after a
    Ctrl+X click the input box asks for a prompt; on submit a loading timer
    runs, the request is posted, and the response body is read line by line
    until one terminal outcome (done, error or a 30 s timeout) is shown; a
    delayed dismissal then clears the overlay.

    The flags `isInteracting`, `isWaiting` and the per-submit `done` live in
    one record, and everything drawn on the overlay is kept as a log of
    screens, so that "the outcome is shown once" is a statement about the
    log. Clocks, the network and frame scheduling are events. */
module Interaction {
  import opened Wrappers
  import opened Text
  import LineBuffer
  import EventStream
  import Overlay

  /** What one call into the overlay drew. */
  datatype Screen =
    | Input                                          // renderInput
    | Elapsed(ms: int)                               // renderLoading with the elapsed time
    | Status(text: string)                           // renderLoading with a stream preview
    | Result(status: Overlay.ResultStatus, message: Option<string>)   // renderResult
    | Cleared                                        // hideOverlay

  /** How far the request has got: waiting for the prompt, waiting for the
      response, reading the body (with the response's `ok` flag and status
      text, the current event name and the line buffer), or finished. */
  datatype Phase =
    | Typing
    | Fetching
    | Reading(ok: bool, statusText: string, event: string, buffer: string)
    | Over

  datatype Prompt = Prompt(
    interacting: bool,
    waiting: bool,
    done: bool,
    start: int,
    frame: bool,
    phase: Phase,
    screens: seq<Screen>,
    dismissals: seq<int>)

  const Idle: Prompt := Prompt(false, false, false, 0, false, Over, [], [])

  const TimeoutMs: int := 30000
  const DismissMs: int := 2000
  const NoEndpointDismissMs: int := 1000
  const PreviewLimit: nat := 30
  const NoBody: string := "No response body"
  const NetworkError: string := "Network Error"
  const ServerErrorPrefix: string := "Server Error: "

  /** The number of result banners in a log. */
  function ResultCount(s: seq<Screen>): nat
    decreases |s|
  {
    if s == [] then 0 else ResultCount(s[..|s| - 1]) + (if s[|s| - 1].Result? then 1 else 0)
  }

  lemma ResultCountSnoc(s: seq<Screen>, x: Screen)
    ensures ResultCount(s + [x]) == ResultCount(s) + (if x.Result? then 1 else 0)
  {
    assert (s + [x])[..|s|] == s;
  }

  /** The invariant of an interaction: the outcome has been shown exactly
      when `done` is set, and never twice; `isWaiting` is set exactly while a
      submitted interaction has no outcome yet; the timer frame is pending
      only while it has none. */
  ghost predicate Sound(p: Prompt) {
    && (p.done <==> ResultCount(p.screens) == 1)
    && ResultCount(p.screens) <= 1
    && (p.waiting ==> p.interacting && !p.done)
    && (p.interacting && !p.done && !p.phase.Typing? ==> p.waiting)
    && (p.frame ==> p.interacting && !p.done && !p.phase.Typing?)
    && (p.phase.Typing? ==> !p.done && !p.waiting)
  }

  function Show(p: Prompt, s: Screen): (r: Prompt)
    ensures r.screens == p.screens + [s]
    ensures ResultCount(r.screens) == ResultCount(p.screens) + (if s.Result? then 1 else 0)
  {
    ResultCountSnoc(p.screens, s);
    p.(screens := p.screens + [s])
  }

  /** Taking the outcome: `done` and no longer waiting, the timer frame
      cancelled, the banner shown. */
  function Conclude(p: Prompt, status: Overlay.ResultStatus, message: Option<string>): (r: Prompt)
    ensures r.done && !r.waiting && !r.frame
    ensures r.screens == p.screens + [Result(status, message)]
    ensures r.interacting == p.interacting && r.phase == p.phase && r.dismissals == p.dismissals
  {
    Show(p.(done := true, waiting := false, frame := false), Result(status, message))
  }

  /** `cancelInteraction`: only while interacting; clears the flags, cancels
      the timer frame and hides the overlay. */
  function Cancel(p: Prompt): (r: Prompt)
    ensures !p.interacting ==> r == p
    ensures p.interacting ==> !r.interacting && !r.waiting && !r.frame && r.screens == p.screens + [Cleared]
    ensures r.done == p.done && r.phase == p.phase && r.dismissals == p.dismissals
    ensures ResultCount(r.screens) == ResultCount(p.screens)
  {
    if p.interacting then Show(p.(interacting := false, waiting := false, frame := false), Cleared) else p
  }

  /** The Ctrl+X click: the interaction starts with the input box. */
  function Begin(now: int): (r: Prompt)
    ensures r.interacting && !r.waiting && !r.done && r.phase.Typing? && r.screens == [Input]
    ensures Sound(r)
  {
    Show(Idle.(interacting := true, phase := Typing, start := now), Input)
  }

  /** The input's submit callback: waiting starts, the timer shows 0 ms and
      requests a frame, and either the request goes out or, without an
      endpoint, "Done" is shown at once with a 1 s dismissal. A submit outside
      the typing phase does nothing. */
  function Submit(p: Prompt, hasEndpoint: bool, now: int): (r: Prompt)
    ensures !(p.interacting && p.phase.Typing?) ==> r == p
    ensures p.interacting && p.phase.Typing? && hasEndpoint ==>
      r.waiting && !r.done && r.frame && r.phase.Fetching? && r.start == now && r.screens == p.screens + [Elapsed(0)]
    ensures p.interacting && p.phase.Typing? && !hasEndpoint ==>
      r.done && !r.waiting && !r.frame && r.phase.Over? && r.dismissals == p.dismissals + [NoEndpointDismissMs]
      && r.screens == p.screens + [Elapsed(0), Result(Overlay.Done, None)]
  {
    if !(p.interacting && p.phase.Typing?) then p
    else
      var q := Show(p.(waiting := true, done := false, start := now, frame := true), Elapsed(0));
      if hasEndpoint then q.(phase := Fetching)
      else Conclude(q, Overlay.Done, None).(phase := Over, dismissals := q.dismissals + [NoEndpointDismissMs])
  }

  /** `updateTimer` as its frame fires: nothing once cancelled or done;
      after more than 30 s the timeout is the outcome; otherwise the elapsed
      time is shown and the next frame requested. */
  function Tick(p: Prompt, now: int): (r: Prompt)
    ensures !p.frame ==> r == p
    ensures p.frame && p.interacting && !p.done && now - p.start > TimeoutMs ==>
      r == Conclude(p, Overlay.TimedOut, None).(dismissals := p.dismissals + [DismissMs])
    ensures p.frame && p.interacting && !p.done && now - p.start <= TimeoutMs ==>
      r.frame && r.screens == p.screens + [Elapsed(now - p.start)] && r.done == p.done
  {
    if !p.frame then p
    else
      var q := p.(frame := false);
      if !q.interacting || q.done then q
      else if now - q.start > TimeoutMs then Conclude(q, Overlay.TimedOut, None).(dismissals := q.dismissals + [DismissMs])
      else Show(q, Elapsed(now - q.start)).(frame := true)
  }

  /** `err.message || "Network Error"`. */
  function Shown(message: string): (r: string)
    ensures r != ""
    ensures message != "" ==> r == message
  {
    if message == "" then NetworkError else message
  }

  /** The `catch` block: the request is over; unless an outcome was taken
      already, the error is the outcome, dismissed after 2 s. */
  function Fail(p: Prompt, message: string): (r: Prompt)
    ensures r.phase.Over?
    ensures p.done ==> r == p.(phase := Over)
    ensures !p.done ==> r == Conclude(p, Overlay.Error, Some(Shown(message))).(phase := Over, dismissals := p.dismissals + [DismissMs])
  {
    var q := p.(phase := Over);
    if q.done then q
    else Conclude(q, Overlay.Error, Some(Shown(message))).(dismissals := q.dismissals + [DismissMs])
  }

  /** The response arrives: an interaction that took its outcome meanwhile
      stops here; a missing body is an error; otherwise reading starts with
      the event name "message". */
  function Respond(p: Prompt, ok: bool, hasBody: bool, statusText: string): (r: Prompt)
    ensures !p.phase.Fetching? ==> r == p
    ensures p.phase.Fetching? && p.done ==> r == p.(phase := Over)
    ensures p.phase.Fetching? && !p.done && !hasBody ==> r == Fail(p, NoBody)
    ensures p.phase.Fetching? && !p.done && hasBody ==> r == p.(phase := Reading(ok, statusText, "message", ""))
  {
    if !p.phase.Fetching? then p
    else if p.done then p.(phase := Over)
    else if !hasBody then Fail(p, NoBody)
    else p.(phase := Reading(ok, statusText, "message", ""))
  }

  /** The message an "error" data line throws with: the payload's JSON
      `message` when it parses (empty when it has none), else the raw
      payload. */
  function ErrorText(data: string, parse: string -> EventStream.Json): (m: string)
    ensures parse(data).NotJson? ==> m == data
    ensures parse(data).Json? ==> m == parse(data).message.GetOr("")
  {
    match parse(data)
    case NotJson => data
    case Json(_, message) => message.GetOr("")
  }

  /** The status text of a data line: the provider's preview rule, cut to 30
      characters plus "...". */
  function StatusText(data: string, parse: string -> EventStream.Json): (t: string)
    ensures |t| <= PreviewLimit + 3
    ensures |EventStream.Preview(data, parse)| <= PreviewLimit ==> t == EventStream.Preview(data, parse)
    ensures |EventStream.Preview(data, parse)| > PreviewLimit ==>
      |t| == PreviewLimit + 3 && t[..PreviewLimit] == EventStream.Preview(data, parse)[..PreviewLimit] && t[PreviewLimit..] == "..."
  {
    TruncateBound(EventStream.Preview(data, parse), PreviewLimit);
    Truncate(EventStream.Preview(data, parse), PreviewLimit)
  }

  /** One complete line of the body, as the loop in the source handles it:
      an "error" data line throws, a "done" data line takes the outcome and
      keeps reading, any other data line shows its status text. Neither of
      the last two looks at `done`. */
  function LineAsWritten(p: Prompt, line: string, parse: string -> EventStream.Json): (r: Prompt)
    requires p.phase.Reading?
    ensures r.phase.Reading? || r.phase.Over?
    ensures r.phase.Over? ==> EventStream.Classify(line).Data? && p.phase.event == "error"
    ensures r.phase.Reading? ==> r.phase.ok == p.phase.ok && r.phase.statusText == p.phase.statusText && r.phase.buffer == p.phase.buffer
  {
    match EventStream.Classify(line)
    case EventName(n) => p.(phase := p.phase.(event := n))
    case Data(d) =>
      if p.phase.event == "error" then Fail(p, ErrorText(d, parse))
      else if p.phase.event == "done" then Conclude(p, Overlay.Done, None)
      else Show(p, Status(StatusText(d, parse)))
    case _ => p
  }

  /** The same line handler with the guard the rest of the interaction
      applies: once the outcome is taken, "done" and status lines draw
      nothing. */
  function Line(p: Prompt, line: string, parse: string -> EventStream.Json): (r: Prompt)
    requires p.phase.Reading?
    ensures !p.done ==> r == LineAsWritten(p, line, parse)
    ensures p.done ==> ResultCount(r.screens) == ResultCount(p.screens)
    ensures r.phase.Reading? || r.phase.Over?
    ensures r.phase.Over? ==> EventStream.Classify(line).Data? && p.phase.event == "error"
    ensures r.phase.Reading? ==> r.phase.ok == p.phase.ok && r.phase.statusText == p.phase.statusText && r.phase.buffer == p.phase.buffer
  {
    var k := EventStream.Classify(line);
    if p.done && k.Data? && p.phase.event != "error" then p
    else LineAsWritten(p, line, parse)
  }

  lemma LineSound(p: Prompt, line: string, parse: string -> EventStream.Json)
    requires p.phase.Reading? && Sound(p)
    ensures Sound(Line(p, line, parse))
  {
    var k := EventStream.Classify(line);
    var r := Line(p, line, parse);
    if p.done && k.Data? && p.phase.event != "error" {
      assert r == p;
    } else {
      match k
      case EventName(n) =>
        assert r == p.(phase := p.phase.(event := n));
      case Data(d) =>
        if p.phase.event == "error" {
          assert r == Fail(p, ErrorText(d, parse));
          FailSound(p, ErrorText(d, parse));
        } else if p.phase.event == "done" {
          assert r == Conclude(p, Overlay.Done, None);
        } else {
          assert r == Show(p, Status(StatusText(d, parse)));
        }
      case _ =>
        assert r == p;
    }
  }

  /** The lines of one read, until one throws. */
  function Lines(p: Prompt, lines: seq<string>, parse: string -> EventStream.Json): (r: Prompt)
    requires p.phase.Reading?
    ensures r.phase.Reading? || r.phase.Over?
    ensures r.phase.Reading? ==> r.phase.ok == p.phase.ok && r.phase.statusText == p.phase.statusText && r.phase.buffer == p.phase.buffer
    decreases |lines|
  {
    if lines == [] then p
    else
      var q := Line(p, lines[0], parse);
      if q.phase.Reading? then Lines(q, lines[1..], parse) else q
  }

  lemma {:induction false} LinesSound(p: Prompt, lines: seq<string>, parse: string -> EventStream.Json)
    requires p.phase.Reading? && Sound(p)
    ensures Sound(Lines(p, lines, parse))
    decreases |lines|
  {
    if lines != [] {
      var q := Line(p, lines[0], parse);
      LineSound(p, lines[0], parse);
      if q.phase.Reading? {
        LinesSound(q, lines[1..], parse);
      }
    }
  }

  /** The lines of a batch run in order: the second part starts where the
      first left off, unless a line of the first part threw. */
  lemma {:induction false} LinesAppend(p: Prompt, a: seq<string>, b: seq<string>, parse: string -> EventStream.Json)
    requires p.phase.Reading?
    ensures var q := Lines(p, a, parse);
      Lines(p, a + b, parse) == (if q.phase.Reading? then Lines(q, b, parse) else q)
    decreases |a|
  {
    if a == [] {
      assert a + b == b;
    } else {
      assert (a + b)[0] == a[0] && (a + b)[1..] == a[1..] + b;
      var q := Line(p, a[0], parse);
      if q.phase.Reading? {
        LinesAppend(q, a[1..], b, parse);
      }
    }
  }

  /** `p` with the line buffer set to `x`, while reading. */
  function WithBuffer(p: Prompt, x: string): Prompt {
    if p.phase.Reading? then p.(phase := p.phase.(buffer := x)) else p
  }

  /** The line handler never looks at the buffer. */
  lemma LineBufferIndependent(p: Prompt, line: string, x: string, parse: string -> EventStream.Json)
    requires p.phase.Reading?
    ensures Line(WithBuffer(p, x), line, parse) == WithBuffer(Line(p, line, parse), x)
  {
    var px := WithBuffer(p, x);
    assert px.done == p.done && px.phase.event == p.phase.event;
    var k := EventStream.Classify(line);
    if !(p.done && k.Data? && p.phase.event != "error") {
      match k
      case EventName(n) =>
      case Data(d) =>
        if p.phase.event == "error" {
          var m := ErrorText(d, parse);
          assert px.(phase := Over) == p.(phase := Over);
        } else if p.phase.event == "done" {
          assert Conclude(px, Overlay.Done, None) == WithBuffer(Conclude(p, Overlay.Done, None), x);
        } else {
          var s := Status(StatusText(d, parse));
          assert Show(px, s) == WithBuffer(Show(p, s), x);
        }
      case _ =>
    }
  }

  lemma {:induction false} LinesBufferIndependent(p: Prompt, lines: seq<string>, x: string, parse: string -> EventStream.Json)
    requires p.phase.Reading?
    ensures Lines(WithBuffer(p, x), lines, parse) == WithBuffer(Lines(p, lines, parse), x)
    decreases |lines|
  {
    if lines != [] {
      LineBufferIndependent(p, lines[0], x, parse);
      var q := Line(p, lines[0], parse);
      if q.phase.Reading? {
        LinesBufferIndependent(q, lines[1..], x, parse);
      }
    }
  }

  /** One chunk of the body: appended to the buffer, its complete lines
      handled, the rest kept. */
  function Chunk(p: Prompt, text: string, parse: string -> EventStream.Json): (r: Prompt)
    ensures !p.phase.Reading? ==> r == p
    ensures p.phase.Reading? ==> r.phase.Reading? || r.phase.Over?
    ensures p.phase.Reading? && r.phase.Reading? ==>
      && r.phase.buffer == LineBuffer.Feed(p.phase.buffer, text).buffer
      && r.phase.ok == p.phase.ok && r.phase.statusText == p.phase.statusText
  {
    if !p.phase.Reading? then p
    else
      var fed := LineBuffer.Feed(p.phase.buffer, text);
      Lines(p.(phase := p.phase.(buffer := fed.buffer)), fed.lines, parse)
  }

  /** Where the body is cut into chunks does not matter: two chunks in a row
      act as their concatenation, whether or not a line of the first one
      threw. */
  lemma ChunkConcat(p: Prompt, a: string, b: string, parse: string -> EventStream.Json)
    requires p.phase.Reading?
    ensures Chunk(Chunk(p, a, parse), b, parse) == Chunk(p, a + b, parse)
  {
    var buf := p.phase.buffer;
    var fa := LineBuffer.Feed(buf, a);
    var q := Chunk(p, a, parse);
    var fab := LineBuffer.Feed(buf, a + b);
    assert buf + (a + b) == (buf + a) + b;
    LineBuffer.CompleteLinesAppend(buf + a, b);
    assert fab.lines == fa.lines + LineBuffer.Feed(fa.buffer, b).lines;
    assert fab.buffer == LineBuffer.Feed(fa.buffer, b).buffer;
    var p1 := WithBuffer(p, fa.buffer);
    var p2 := WithBuffer(p, fab.buffer);
    assert q == Lines(p1, fa.lines, parse);
    LinesAppend(p2, fa.lines, LineBuffer.Feed(fa.buffer, b).lines, parse);
    assert p2 == WithBuffer(p1, fab.buffer);
    LinesBufferIndependent(p1, fa.lines, fab.buffer, parse);
    if q.phase.Reading? {
      LinesBufferIndependent(p1, fa.lines + LineBuffer.Feed(fa.buffer, b).lines, fab.buffer, parse);
    }
  }

  /** The end of the body: a response that was not ok and produced no
      outcome is a server error; otherwise the request is over and a
      dismissal is scheduled, whether or not an outcome was shown. */
  function End(p: Prompt): (r: Prompt)
    ensures !p.phase.Reading? ==> r == p
    ensures p.phase.Reading? && !p.done && !p.phase.ok ==> r == Fail(p, ServerErrorPrefix + p.phase.statusText)
    ensures p.phase.Reading? && (p.done || p.phase.ok) ==> r == p.(phase := Over, dismissals := p.dismissals + [DismissMs])
  {
    if !p.phase.Reading? then p
    else if !p.done && !p.phase.ok then Fail(p, ServerErrorPrefix + p.phase.statusText)
    else p.(phase := Over, dismissals := p.dismissals + [DismissMs])
  }

  /** The earliest scheduled dismissal fires: it cancels the interaction if
      it is still on. */
  function Dismiss(p: Prompt): (r: Prompt)
    ensures p.dismissals == [] ==> r == p
    ensures p.dismissals != [] ==> r == Cancel(p.(dismissals := p.dismissals[1..]))
  {
    if p.dismissals == [] then p else Cancel(p.(dismissals := p.dismissals[1..]))
  }

  /** A click while interacting: ignored while waiting, else it cancels. */
  function Click(p: Prompt): (r: Prompt)
    requires p.interacting
    ensures p.waiting ==> r == p
    ensures !p.waiting ==> r == Cancel(p)
  {
    if p.waiting then p else Cancel(p)
  }

  /** What can happen to a running interaction. */
  datatype Event =
    | Submitted(hasEndpoint: bool, now: int)
    | Frame(now: int)
    | Responded(ok: bool, hasBody: bool, statusText: string)
    | FetchFailed(message: string)
    | Received(text: string)
    | Ended
    | ReadFailed(message: string)
    | DismissFired
    | Clicked

  function Step(p: Prompt, e: Event, parse: string -> EventStream.Json): Prompt {
    match e
    case Submitted(h, now) => Submit(p, h, now)
    case Frame(now) => Tick(p, now)
    case Responded(ok, b, t) => Respond(p, ok, b, t)
    case FetchFailed(m) => if p.phase.Fetching? then Fail(p, m) else p
    case Received(t) => Chunk(p, t, parse)
    case Ended => End(p)
    case ReadFailed(m) => if p.phase.Reading? then Fail(p, m) else p
    case DismissFired => Dismiss(p)
    case Clicked => if p.interacting then Click(p) else p
  }

  lemma SubmitSound(p: Prompt, hasEndpoint: bool, now: int)
    requires Sound(p)
    ensures Sound(Submit(p, hasEndpoint, now))
  {
  }

  lemma TickSound(p: Prompt, now: int)
    requires Sound(p)
    ensures Sound(Tick(p, now))
  {
  }

  lemma FailSound(p: Prompt, message: string)
    requires Sound(p) && !p.phase.Typing?
    ensures Sound(Fail(p, message))
  {
  }

  lemma RespondSound(p: Prompt, ok: bool, hasBody: bool, statusText: string)
    requires Sound(p)
    ensures Sound(Respond(p, ok, hasBody, statusText))
  {
    if p.phase.Fetching? && !p.done && !hasBody {
      FailSound(p, NoBody);
    }
  }

  lemma EndSound(p: Prompt)
    requires Sound(p)
    ensures Sound(End(p))
  {
    if p.phase.Reading? && !p.done && !p.phase.ok {
      FailSound(p, ServerErrorPrefix + p.phase.statusText);
    }
  }

  lemma CancelSound(p: Prompt)
    requires Sound(p)
    ensures Sound(Cancel(p))
  {
  }

  /** Every event keeps the interaction sound: the outcome is shown at most
      once, exactly when `done` is set. */
  lemma StepSound(p: Prompt, e: Event, parse: string -> EventStream.Json)
    requires Sound(p)
    ensures Sound(Step(p, e, parse))
  {
    match e
    case Submitted(h, now) => SubmitSound(p, h, now);
    case Frame(now) => TickSound(p, now);
    case Responded(ok, b, t) => RespondSound(p, ok, b, t);
    case FetchFailed(m) => if p.phase.Fetching? { FailSound(p, m); }
    case Received(t) =>
      if p.phase.Reading? {
        var fed := LineBuffer.Feed(p.phase.buffer, t);
        LinesSound(p.(phase := p.phase.(buffer := fed.buffer)), fed.lines, parse);
      }
    case Ended => EndSound(p);
    case ReadFailed(m) => if p.phase.Reading? { FailSound(p, m); }
    case DismissFired =>
      if p.dismissals != [] { CancelSound(p.(dismissals := p.dismissals[1..])); }
    case Clicked => CancelSound(p);
  }

  function Run(p: Prompt, events: seq<Event>, parse: string -> EventStream.Json): Prompt
    decreases |events|
  {
    if events == [] then p else Run(Step(p, events[0], parse), events[1..], parse)
  }

  lemma {:induction false} RunSound(p: Prompt, events: seq<Event>, parse: string -> EventStream.Json)
    requires Sound(p)
    ensures Sound(Run(p, events, parse))
    ensures ResultCount(Run(p, events, parse).screens) <= 1
    decreases |events|
  {
    if events != [] {
      StepSound(p, events[0], parse);
      RunSound(Step(p, events[0], parse), events[1..], parse);
    }
  }

  /** With the `done` guard in the line handler and one submit call per
      Enter, from the Ctrl+X click on, whatever happens, at most one outcome
      is shown. */
  lemma OutcomeShownOnce(now: int, events: seq<Event>, parse: string -> EventStream.Json)
    ensures ResultCount(Run(Begin(now), events, parse).screens) <= 1
  {
    RunSound(Begin(now), events, parse);
  }

  /** A click while a submitted interaction runs is ignored until its
      outcome is shown, and cancels it afterwards. */
  lemma ClickCancelsOnlyAfterOutcome(p: Prompt)
    requires Sound(p) && p.interacting && !p.phase.Typing?
    ensures Click(p) == p <==> !p.done
    ensures p.done ==> !Click(p).interacting
  {
  }

  /** A body that ends without a "done" event on an ok response shows no
      outcome: the interaction is dismissed 2 s later without any banner. */
  lemma EndWithoutOutcome(p: Prompt)
    requires Sound(p) && p.interacting && p.phase.Reading? && p.phase.ok && !p.done && p.dismissals == []
    ensures var q := Dismiss(End(p));
      && !q.interacting && !q.done
      && ResultCount(q.screens) == 0
      && q.screens == p.screens + [Cleared]
  {
  }

  /** A "done" event line: it sets the event name, and the next data line
      takes the outcome. */
  lemma DoneEventConcludes(p: Prompt, l1: string, l2: string, parse: string -> EventStream.Json)
    requires Sound(p) && p.phase.Reading? && !p.done
    requires EventStream.Classify(l1) == EventStream.EventName("done") && EventStream.Classify(l2).Data?
    ensures var q := Line(Line(p, l1, parse), l2, parse);
      q.done && !q.waiting && q.phase.Reading? && q.screens == p.screens + [Result(Overlay.Done, None)]
  {
  }

  /** An "error" data line ends the request with its message as the
      outcome, or "Network Error" when the message is empty. */
  lemma ErrorLineConcludes(p: Prompt, line: string, parse: string -> EventStream.Json)
    requires Sound(p) && p.phase.Reading? && p.phase.event == "error" && !p.done
    requires EventStream.Classify(line).Data?
    ensures var q := Line(p, line, parse);
      var m := ErrorText(EventStream.Classify(line).payload, parse);
      && q.phase.Over? && q.done
      && q.screens == p.screens + [Result(Overlay.Error, Some(if m == "" then NetworkError else m))]
  {
  }

  // ---------------------------------------------------------------------------
  // The finding: lines after the outcome

  /** The timeout as it fires after 30 s: the outcome is taken and the
      body is still being read. */
  lemma TimeoutConcludes(p: Prompt)
    requires Sound(p) && p.phase.Reading? && p.interacting && !p.done && p.frame
    ensures var t := Tick(p, p.start + TimeoutMs + 1);
      t.done && t.phase == p.phase && ResultCount(t.screens) == 1
  {
    ResultCountSnoc(p.screens, Result(Overlay.TimedOut, None));
  }

  /** As written, a "done" event followed by a data line draws a "Done"
      banner whatever `done` already is. */
  lemma DoneLinesAsWritten(t: Prompt, l1: string, l2: string, parse: string -> EventStream.Json)
    requires t.phase.Reading?
    requires EventStream.Classify(l1) == EventStream.EventName("done") && EventStream.Classify(l2).Data?
    ensures ResultCount(LineAsWritten(LineAsWritten(t, l1, parse), l2, parse).screens) == ResultCount(t.screens) + 1
  {
    var u := LineAsWritten(t, l1, parse);
    assert u == t.(phase := t.phase.(event := "done"));
    ResultCountSnoc(u.screens, Result(Overlay.Done, None));
  }

  /** The line handler as written can show a second outcome: after the
      timeout, a "done" event still in the body draws "Done" over it. */
  lemma SecondOutcomeAsWritten(p: Prompt, l1: string, l2: string, parse: string -> EventStream.Json)
    requires Sound(p) && p.phase.Reading? && p.interacting && !p.done && p.frame
    requires EventStream.Classify(l1) == EventStream.EventName("done") && EventStream.Classify(l2).Data?
    ensures var t := Tick(p, p.start + TimeoutMs + 1);
      && t.done && ResultCount(t.screens) == 1
      && ResultCount(LineAsWritten(LineAsWritten(t, l1, parse), l2, parse).screens) == 2
  {
    TimeoutConcludes(p);
    DoneLinesAsWritten(Tick(p, p.start + TimeoutMs + 1), l1, l2, parse);
  }

  lemma EventLine(e: string, n: string)
    requires |e| >= 7 && Trim(e) == e && e[..7] == EventStream.EventPrefix && Trim(e[7..]) == n
    ensures EventStream.Classify(e) == EventStream.EventName(n)
  {
  }

  /** A line that shows the effect: "event: done". */
  lemma DoneEventLine(e: string, n: string)
    requires n == "done" && e == EventStream.EventPrefix + n
    ensures EventStream.Classify(e) == EventStream.EventName(n)
  {
    assert |e| == 11 && e[0] == 'e' && e[10] == 'e';
    assert !IsSpace('e') && !IsSpace('d');
    TrimNoEdgeSpace(e);
    assert n[0] == 'd' && n[3] == 'e';
    TrimNoEdgeSpace(n);
    assert e[..7] == EventStream.EventPrefix && e[7..] == n;
    EventLine(e, n);
  }

  /** And the data line that follows it: "data: ok". */
  lemma OkDataLine(d: string)
    requires d == EventStream.DataPrefix + "ok"
    ensures EventStream.Classify(d).Data?
  {
    assert |d| == 8 && d[0] == 'd' && d[7] == 'k';
    assert !IsSpace('d') && !IsSpace('k');
    TrimNoEdgeSpace(d);
    assert d[..6] == EventStream.DataPrefix;
    assert !StartsWith(d, EventStream.EventPrefix) by { assert d[1] != EventStream.EventPrefix[1]; }
  }

  /** The concrete input: a body still open after the timeout that carries
      "event: done" and then "data: ok". */
  lemma SecondOutcomeExample(p: Prompt, parse: string -> EventStream.Json)
    requires Sound(p) && p.phase.Reading? && p.interacting && !p.done && p.frame
    ensures var t := Tick(p, p.start + TimeoutMs + 1);
      ResultCount(LineAsWritten(LineAsWritten(t, EventStream.EventPrefix + "done", parse), EventStream.DataPrefix + "ok", parse).screens) == 2
  {
    DoneEventLine(EventStream.EventPrefix + "done", "done");
    OkDataLine(EventStream.DataPrefix + "ok");
    SecondOutcomeAsWritten(p, EventStream.EventPrefix + "done", EventStream.DataPrefix + "ok", parse);
  }

  /** With the guard, the same lines draw nothing after the timeout. */
  lemma NoSecondOutcome(p: Prompt, l1: string, l2: string, parse: string -> EventStream.Json)
    requires Sound(p) && p.phase.Reading? && p.interacting && !p.done && p.frame
    requires EventStream.Classify(l1) == EventStream.EventName("done") && EventStream.Classify(l2).Data?
    ensures var t := Tick(p, p.start + TimeoutMs + 1);
      ResultCount(Line(Line(t, l1, parse), l2, parse).screens) == 1
  {
  }

  // ---------------------------------------------------------------------------
  // The finding: two submit calls per Enter

  /** One run of the submit callback without an endpoint, as the source
      writes it: the call has its own `done` and start time, shows the
      elapsed time while the interaction is on, and then takes "Done" as its
      outcome with a 1 s dismissal. It does not look at the phase. */
  function CallWithoutEndpoint(p: Prompt, now: int): (r: Prompt)
    ensures r.done && !r.waiting && !r.frame && r.phase.Over?
    ensures ResultCount(r.screens) == ResultCount(p.screens) + 1
    ensures r.dismissals == p.dismissals + [NoEndpointDismissMs]
  {
    var q := p.(waiting := true, done := false, start := now);
    var q1 := if q.interacting then Show(q.(frame := true), Elapsed(0)) else q;
    Conclude(q1, Overlay.Done, None).(phase := Over, dismissals := q1.dismissals + [NoEndpointDismissMs])
  }

  /** The single call `Submit` models is that callback. */
  lemma SubmitIsOneCall(p: Prompt, now: int)
    requires p.interacting && p.phase.Typing?
    ensures Submit(p, false, now) == CallWithoutEndpoint(p, now)
  {
  }

  /** Enter as the input box wires it: two keydown listeners each call the
      submit callback, so without an endpoint one Enter runs it twice. */
  function EnterAsWritten(p: Prompt, now: int): (r: Prompt)
    ensures ResultCount(r.screens) == ResultCount(p.screens) + 2
    ensures r.dismissals == p.dismissals + [NoEndpointDismissMs, NoEndpointDismissMs]
  {
    CallWithoutEndpoint(CallWithoutEndpoint(p, now), now)
  }

  /** The concrete input: a Ctrl+X click, then Enter with no endpoint
      configured, draws two "Done" banners. */
  lemma DoubleSubmitExample(now: int)
    ensures ResultCount(EnterAsWritten(Begin(now), now).screens) == 2
  {
  }

  /** With one call per Enter the same input draws one banner, and the
      interaction stays sound. */
  lemma SingleSubmitShowsOnce(now: int)
    ensures ResultCount(Submit(Begin(now), false, now).screens) == 1
    ensures Sound(Submit(Begin(now), false, now))
  {
    SubmitSound(Begin(now), false, now);
  }
}
