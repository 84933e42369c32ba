/** The per-frame render decision of the current package's renderer, and its
    animation-frame loop. A frame looks at a snapshot of the session map:
    streaming sessions get a loading render with their elapsed time, and a
    finished session gets one result render, after which it is marked so
    that no later frame renders it again. */
module Renderer {
  import opened Wrappers
  import opened Store
  import AgentManager

  /** What a frame draws for one session. */
  datatype Render = Loading(elapsedMs: int) | ResultTimeout | ResultError(message: string) | ResultDone | Skip

  predicate IsResult(d: Render) {
    d.ResultTimeout? || d.ResultError? || d.ResultDone?
  }

  /** The branch taken for one session, from its snapshot record. */
  function Decide(s: Session, now: int): (d: Render)
    ensures s.isStreaming <==> d.Loading?
    ensures d.Loading? ==> d.elapsedMs == now - s.createdAt
    ensures d.ResultTimeout? <==> !s.isStreaming && Given(s.error) && !Set(s.errorRendered) && s.error == Some(AgentManager.TimeoutError)
    ensures d.ResultError? <==> !s.isStreaming && Given(s.error) && !Set(s.errorRendered) && s.error != Some(AgentManager.TimeoutError)
    ensures d.ResultError? ==> Some(d.message) == s.error
    ensures d.ResultDone? <==> !s.isStreaming && !Given(s.error) && !Set(s.completedRendered)
  {
    if s.isStreaming then Loading(now - s.createdAt)
    else if Given(s.error) && !Set(s.errorRendered) then
      if s.error.value == AgentManager.TimeoutError then ResultTimeout else ResultError(s.error.value)
    else if !s.isStreaming && !Set(s.completedRendered) && !Given(s.error) then ResultDone
    else Skip
  }

  /** The mark a result render leaves on the session. */
  function MarkFor(d: Render): SessionPatch {
    if d.ResultTimeout? || d.ResultError? then NoSessionChange.(errorRendered := Put(Some(true)))
    else if d.ResultDone? then NoSessionChange.(completedRendered := Put(Some(true)))
    else NoSessionChange
  }

  function Marked(s: Session, now: int): Session {
    MergeSession(s, MarkFor(Decide(s, now)))
  }

  /** A result is rendered at most once: once a frame has rendered a result
      for a session, no later frame renders one, whatever the time. */
  lemma ResultRenderedOnce(s: Session, now: int, later: int)
    requires IsResult(Decide(s, now))
    ensures Decide(Marked(s, now), later) == Skip
    ensures AgentManager.Settled(map[s.id := s], map[s.id := Marked(s, now)])
  {
  }

  /** A session that keeps streaming is re-rendered every frame with a fresh
      elapsed time, and never marked. */
  lemma StreamingNeverMarked(s: Session, now: int, later: int)
    requires s.isStreaming
    ensures Marked(s, now) == s && Decide(Marked(s, now), later) == Loading(later - s.createdAt)
  {
  }

  datatype Drawn = Drawn(id: string, render: Render)

  datatype Frame = Frame(store: Store, drawn: seq<Drawn>)

  /** The loop over the snapshot, in the map's iteration order: draw each
      session and store the mark of a result render. */
  function Draw(st: Store, snap: map<string, Session>, order: seq<string>, now: int): (f: Frame)
    requires forall id :: id in order ==> id in snap
    ensures |f.drawn| == |order|
    ensures forall i :: 0 <= i < |order| ==> f.drawn[i] == Drawn(order[i], Decide(snap[order[i]], now))
    ensures f.store.state.sessions.Keys == st.state.sessions.Keys
    decreases |order|
  {
    if order == [] then Frame(st, [])
    else
      var id := order[0];
      var d := Decide(snap[id], now);
      var st1 := if IsResult(d) then UpdateSession(st, id, MarkFor(d)) else st;
      var rest := Draw(st1, snap, order[1..], now);
      Frame(rest.store, [Drawn(id, d)] + rest.drawn)
  }

  /** After the loop each session of the snapshot carries its mark and
      nothing else changed. */
  lemma {:induction false} DrawMarks(st: Store, snap: map<string, Session>, order: seq<string>, now: int)
    requires Distinct(order) && forall id :: id in order ==> id in snap && id in st.state.sessions && st.state.sessions[id] == snap[id]
    ensures var r := Draw(st, snap, order, now).store.state.sessions;
      forall id :: id in r ==> r[id] == if id in order then Marked(snap[id], now) else st.state.sessions[id]
    decreases |order|
  {
    if order != [] {
      var id := order[0];
      var d := Decide(snap[id], now);
      var st1 := if IsResult(d) then UpdateSession(st, id, MarkFor(d)) else st;
      assert forall k :: k in order[1..] ==> k != id;
      DrawMarks(st1, snap, order[1..], now);
    }
  }

  /** `renderSessions`: the timer bookkeeping of sessions no longer stored
      (and of sessions that get a result now) is dropped, the sessions are
      drawn, and the frame reports whether any session is streaming. */
  datatype Pass = Pass(store: Store, drawn: seq<Drawn>, shown: map<string, int>, anyStreaming: bool)

  function RenderSessions(st: Store, shown: map<string, int>, order: seq<string>, now: int): (p: Pass)
    requires forall id :: id in order <==> id in st.state.sessions
    ensures p.shown.Keys <= shown.Keys && p.shown.Keys <= st.state.sessions.Keys
    ensures forall id :: id in p.shown ==> p.shown[id] == shown[id] && !IsResult(Decide(st.state.sessions[id], now))
    ensures p.anyStreaming <==> exists id :: id in st.state.sessions && st.state.sessions[id].isStreaming
    ensures p.store.state.sessions.Keys == st.state.sessions.Keys
  {
    var snap := st.state.sessions;
    var f := Draw(st, snap, order, now);
    var kept := map id | id in shown && id in snap && !IsResult(Decide(snap[id], now)) :: shown[id];
    Pass(f.store, f.drawn, kept, exists id :: id in snap && snap[id].isStreaming)
  }

  /** One pass marks every drawn result and moves no flag back. */
  lemma RenderSessionsMarks(st: Store, shown: map<string, int>, order: seq<string>, now: int)
    requires Distinct(order) && forall id :: id in order <==> id in st.state.sessions
    ensures var r := RenderSessions(st, shown, order, now).store.state.sessions;
      && (forall id :: id in r ==> r[id] == Marked(st.state.sessions[id], now))
      && AgentManager.Settled(st.state.sessions, r)
  {
    DrawMarks(st, st.state.sessions, order, now);
    var r := RenderSessions(st, shown, order, now).store.state.sessions;
    forall id | id in st.state.sessions && id in r
      ensures !st.state.sessions[id].isStreaming ==> !r[id].isStreaming
      ensures Set(st.state.sessions[id].errorRendered) ==> Set(r[id].errorRendered)
      ensures Set(st.state.sessions[id].completedRendered) ==> Set(r[id].completedRendered)
    {
      MarkKeepsFlags(st.state.sessions[id], now);
    }
  }

  lemma MarkKeepsFlags(s: Session, now: int)
    ensures Marked(s, now).isStreaming == s.isStreaming && Marked(s, now).error == s.error
    ensures Set(s.errorRendered) ==> Set(Marked(s, now).errorRendered)
    ensures Set(s.completedRendered) ==> Set(Marked(s, now).completedRendered)
  {
  }

  // ---------------------------------------------------------------------------
  // The animation-frame loop

  /** `animationFrameId`, the id the next request gets, and the frames
      requested and neither fired nor cancelled. */
  datatype Loop = Loop(frame: Option<nat>, nextId: nat, pending: set<nat>)

  ghost predicate LoopOk(l: Loop) {
    && (l.frame.None? ==> l.pending == {})
    && (l.frame.Some? ==> l.pending == {l.frame.value} && l.frame.value < l.nextId)
  }

  const Idle: Loop := Loop(None, 0, {})

  function Request(l: Loop): (r: Loop)
    ensures r.frame == Some(l.nextId) && r.pending == l.pending + {l.nextId}
  {
    Loop(Some(l.nextId), l.nextId + 1, l.pending + {l.nextId})
  }

  /** `startRenderLoop`: requests a frame only when none is pending. */
  function StartLoop(l: Loop): (r: Loop)
    requires LoopOk(l)
    ensures LoopOk(r) && r.frame.Some? && |r.pending| == 1
    ensures l.frame.Some? ==> r == l
  {
    if l.frame.None? then Request(l) else l
  }

  /** `stopRenderLoop`: cancels the recorded frame. */
  function StopLoop(l: Loop): (r: Loop)
    ensures r.frame.None? && r.pending == if l.frame.Some? then l.pending - {l.frame.value} else l.pending
    ensures LoopOk(l) ==> LoopOk(r)
  {
    if l.frame.Some? then Loop(None, l.nextId, l.pending - {l.frame.value}) else l
  }

  /** `renderLoop` as frame `f` fires, given whether the pass saw a
      streaming session and whether the map is non-empty after it. The pass
      stops the loop when nothing streams, but the loop then requests the
      next frame anyway while sessions are stored. */
  function Tick(l: Loop, f: nat, anyStreaming: bool, stored: bool): (r: Loop)
    requires LoopOk(l) && f in l.pending
    ensures LoopOk(r)
    ensures stored <==> r.frame.Some?
    ensures |r.pending| <= 1 && f !in r.pending
  {
    var fired := l.(pending := l.pending - {f});
    var afterPass := if anyStreaming then fired else StopLoop(fired);
    if stored then Request(afterPass) else afterPass.(frame := None)
  }

  /** The loop keeps exactly one frame pending while sessions are stored,
      even when every stored session is finished, and goes idle once the
      map is empty. */
  lemma LoopRearms(l: Loop, f: nat, stored: bool)
    requires LoopOk(l) && f in l.pending
    ensures stored ==> |Tick(l, f, false, stored).pending| == 1 && Tick(l, f, false, stored).frame.Some?
    ensures !stored ==> Tick(l, f, true, stored).pending == {} && Tick(l, f, false, stored).pending == {}
  {
    assert l.pending == {f};
  }

  /** One frame of the running loop: a pass over the store, then the
      re-arm decision on the state after the pass. */
  function Step(l: Loop, f: nat, st: Store, shown: map<string, int>, order: seq<string>, now: int): (r: (Loop, Pass))
    requires LoopOk(l) && f in l.pending
    requires forall id :: id in order <==> id in st.state.sessions
    ensures LoopOk(r.0) && (r.0.frame.Some? <==> |st.state.sessions| > 0)
  {
    var p := RenderSessions(st, shown, order, now);
    (Tick(l, f, p.anyStreaming, |p.store.state.sessions| > 0), p)
  }
}
