/** The session lifecycle of the current package's agent manager. Each
    asynchronous happening (a status yielded by the provider, the end or
    failure of the stream, a timer firing, a user action, a viewport change)
    is one step function over the manager's state; interleaved sessions are
    interleaved steps. */
module AgentManager {
  import opened Wrappers
  import opened Store
  import Provider

  /** The manager's tables next to the store: the element and abort
      controller of each session (the flag tells whether `abort()` was
      called), the armed 30-second timers, the sessions whose stream loop is
      still running, the 2-second dismissals scheduled, and the overlay
      clean-ups requested. */
  datatype Manager = Manager(
    hasProvider: bool,
    store: Store,
    elements: map<string, ElementRef>,
    aborts: map<string, bool>,
    timeouts: set<string>,
    running: set<string>,
    dismissals: seq<string>,
    cleanups: multiset<string>)

  const StreamTimeout: int := 30000
  const DismissDelay: int := 2000
  const TimeoutError: string := "timeout"
  const UnknownError: string := "Unknown error"

  /** The initial status text exactly as the source file spells it: the
      UTF-8 bytes of "…" read as Windows-1252, i.e. "â€¦". */
  const Thinking: string := "Thinking\U{e2}\U{20ac}\U{a6}"

  function Sessions(m: Manager): map<string, Session> {
    m.store.state.sessions
  }

  /** The tables agree: every session has an element entry and is stored
      under its own id; every controller and armed timer belongs to a
      running stream. */
  ghost predicate Consistent(m: Manager) {
    && Sessions(m).Keys <= m.elements.Keys
    && (forall id :: id in Sessions(m) ==> Sessions(m)[id].id == id)
    && m.aborts.Keys <= m.running
    && m.timeouts <= m.running
  }

  /** Terminal flags only move one way between two snapshots of the map:
      a session that stopped streaming does not stream again, and a result
      marked as rendered stays marked. */
  ghost predicate Settled(a: map<string, Session>, b: map<string, Session>) {
    forall id :: id in a && id in b ==>
      && (!a[id].isStreaming ==> !b[id].isStreaming)
      && (Set(a[id].errorRendered) ==> Set(b[id].errorRendered))
      && (Set(a[id].completedRendered) ==> Set(b[id].completedRendered))
  }

  lemma SettledTrans(a: map<string, Session>, b: map<string, Session>, c: map<string, Session>)
    requires Settled(a, b) && Settled(b, c) && a.Keys <= b.Keys
    ensures Settled(a, c)
  {
  }

  // ---------------------------------------------------------------------------
  // Starting

  datatype StartParams = StartParams(
    element: ElementRef,
    prompt: string,
    position: Point,
    selectionBounds: Option<Box>,
    sessionId: Option<string>)

  /** The id of a new session: the given one when non-empty, else the
      generated `session-<now>-<random>` (passed in, as clock and random
      source are outside the model). */
  function SessionId(p: StartParams, generated: string): (id: string)
    ensures Given(p.sessionId) ==> id == p.sessionId.value
    ensures !Given(p.sessionId) ==> id == generated
  {
    if Given(p.sessionId) then p.sessionId.value else generated
  }

  /** `startSession`: without a provider nothing happens; otherwise the
      session is stored, its element and a fresh controller are registered,
      its timer is armed and its stream loop starts. The locator, snippet
      and lower-case tag name of the element are passed in. */
  function Start(m: Manager, p: StartParams, target: Provider.TargetOptions, tagName: string, now: int, generated: string): (r: Manager)
    ensures !m.hasProvider ==> r == m
    ensures m.hasProvider ==>
      var id := SessionId(p, generated);
      && id in Sessions(r) && r.elements == m.elements[id := p.element] && r.aborts == m.aborts[id := false]
      && id in r.timeouts && id in r.running
      && Sessions(r)[id].isStreaming && Sessions(r)[id].id == id
      && Sessions(r)[id].errorRendered == Some(false) && Sessions(r)[id].completedRendered == Some(false)
      && Sessions(r)[id].error == None && Sessions(r)[id].lastStatus == Thinking
      && Sessions(r)[id].element == Some(p.element) && Sessions(r)[id].createdAt == now
      && Sessions(r)[id].context.options == Some(target)
      && (forall k :: k != id ==> GetSession(r.store, k) == GetSession(m.store, k))
    ensures Consistent(m) ==> Consistent(r)
  {
    if !m.hasProvider then m
    else
      var id := SessionId(p, generated);
      var s := Session(id, Context(target.htmlSnippet, p.prompt, Some(target)), Thinking, true, now,
                       p.position, p.selectionBounds, Some(tagName), None, None, Some(p.element), Some(false), Some(false));
      m.(store := AddSession(m.store, s),
         elements := m.elements[id := p.element],
         aborts := m.aborts[id := false],
         timeouts := m.timeouts + {id},
         running := m.running + {id})
  }

  // ---------------------------------------------------------------------------
  // The stream loop

  /** The `finally` block: the timer is cleared and the controller dropped. */
  function Finish(m: Manager, id: string): (r: Manager)
    ensures id !in r.timeouts && id !in r.aborts && id !in r.running
    ensures r.store == m.store && r.elements == m.elements
    ensures Consistent(m) ==> Consistent(r)
  {
    m.(timeouts := m.timeouts - {id}, aborts := m.aborts - {id}, running := m.running - {id})
  }

  function SetStatus(status: string): SessionPatch {
    NoSessionChange.(lastStatus := Put(status))
  }

  /** The provider yields a status. While the session is stored it becomes
      its last status; once the session is gone the loop breaks, and as the
      session is gone the completion step does nothing but the `finally`
      block. */
  function Status(m: Manager, id: string, status: string): (r: Manager)
    ensures id !in m.running ==> r == m
    ensures id in m.running && id in Sessions(m) ==>
      && r == m.(store := r.store)
      && Sessions(r) == Sessions(m)[id := Sessions(m)[id].(lastStatus := status)]
    ensures id in m.running && id !in Sessions(m) ==> r == Finish(m, id)
    ensures Consistent(m) ==> Consistent(r)
    ensures Settled(Sessions(m), Sessions(r)) && Sessions(r).Keys == Sessions(m).Keys
  {
    if id !in m.running then m
    else if id !in Sessions(m) then Finish(m, id)
    else m.(store := UpdateSession(m.store, id, SetStatus(status)))
  }

  function Statuses(m: Manager, id: string, statuses: seq<string>): Manager
    decreases |statuses|
  {
    if statuses == [] then m else Statuses(Status(m, id, statuses[0]), id, statuses[1..])
  }

  /** While the session stays stored, the statuses overwrite each other in
      order: the last one is shown, and the loop is still running. */
  lemma {:induction false} StatusesInOrder(m: Manager, id: string, statuses: seq<string>)
    requires id in m.running && id in Sessions(m) && statuses != []
    ensures var r := Statuses(m, id, statuses);
      && id in r.running && id in Sessions(r)
      && Sessions(r)[id] == Sessions(m)[id].(lastStatus := statuses[|statuses| - 1])
    decreases |statuses|
  {
    var n := Status(m, id, statuses[0]);
    if |statuses| > 1 {
      StatusesInOrder(n, id, statuses[1..]);
    }
  }

  function StopStreaming(): SessionPatch {
    NoSessionChange.(isStreaming := Put(false))
  }

  function Fail(message: string): SessionPatch {
    NoSessionChange.(isStreaming := Put(false), error := Put(Some(message)))
  }

  /** Failing a stored session changes only its streaming flag and error. */
  lemma FailedSessions(st: Store, id: string, message: string)
    requires id in st.state.sessions
    ensures UpdateSession(st, id, Fail(message)).state.sessions
      == st.state.sessions[id := st.state.sessions[id].(isStreaming := false, error := Some(message))]
  {
    var s := st.state.sessions[id];
    assert MergeSession(s, Fail(message)) == s.(isStreaming := false, error := Some(message));
  }

  /** The stream ends normally: a stored session stops streaming and its
      dismissal is scheduled; then the `finally` block. */
  function StreamEnd(m: Manager, id: string): (r: Manager)
    ensures id !in m.running ==> r == m
    ensures id in m.running ==> id !in r.timeouts && id !in r.aborts && id !in r.running && r.elements == m.elements
    ensures id in m.running && id in Sessions(m) ==>
      && Sessions(r) == Sessions(m)[id := Sessions(m)[id].(isStreaming := false)]
      && r.dismissals == m.dismissals + [id]
    ensures id in m.running && id !in Sessions(m) ==> Sessions(r) == Sessions(m) && r.dismissals == m.dismissals
    ensures Consistent(m) ==> Consistent(r)
    ensures Settled(Sessions(m), Sessions(r)) && Sessions(r).Keys == Sessions(m).Keys
  {
    if id !in m.running then m
    else if id in Sessions(m) then
      Finish(m.(store := UpdateSession(m.store, id, StopStreaming()), dismissals := m.dismissals + [id]), id)
    else Finish(m, id)
  }

  /** What the stream loop can catch: an abort, an `Error` with its
      message, or some other thrown value. */
  datatype Thrown = AbortError | ErrorWith(message: string) | NonError

  function ErrorMessage(t: Thrown): string
    requires !t.AbortError?
  {
    match t
    case ErrorWith(msg) => msg
    case NonError => UnknownError
  }

  /** The stream fails. An abort records no error: the session, its element
      entry and its overlay are removed. Any other failure stops a stored
      session with the message as error and schedules its dismissal.
      Either way the `finally` block runs. */
  function StreamFails(m: Manager, id: string, t: Thrown): (r: Manager)
    ensures id !in m.running ==> r == m
    ensures id in m.running ==> id !in r.timeouts && id !in r.aborts && id !in r.running
    ensures id in m.running && t.AbortError? ==>
      && Sessions(r) == Sessions(m) - {id} && r.elements == m.elements - {id}
      && r.cleanups == m.cleanups + multiset{id} && r.dismissals == m.dismissals
    ensures id in m.running && !t.AbortError? ==>
      && r.elements == m.elements && r.dismissals == m.dismissals + [id] && r.cleanups == m.cleanups
      && Sessions(r) == (if id in Sessions(m) then Sessions(m)[id := Sessions(m)[id].(isStreaming := false, error := Some(ErrorMessage(t)))] else Sessions(m))
    ensures Consistent(m) ==> Consistent(r)
    ensures Settled(Sessions(m), Sessions(r)) && Sessions(r).Keys <= Sessions(m).Keys
  {
    if id !in m.running then m
    else if t.AbortError? then
      Finish(m.(elements := m.elements - {id}, store := RemoveSession(m.store, id), cleanups := m.cleanups + multiset{id}), id)
    else
      Finish(m.(store := UpdateSession(m.store, id, Fail(ErrorMessage(t))), dismissals := m.dismissals + [id]), id)
  }

  /** The 30-second timer fires. It acts only on a stored session: the
      session stops with the error "timeout" and its controller is
      aborted. */
  function Timeout(m: Manager, id: string): (r: Manager)
    ensures id !in m.timeouts ==> r == m
    ensures id in m.timeouts ==> id !in r.timeouts && r.elements == m.elements && r.running == m.running
    ensures id in m.timeouts && id !in Sessions(m) ==> r == m.(timeouts := m.timeouts - {id})
    ensures id in m.timeouts && id in Sessions(m) ==>
      && Sessions(r) == Sessions(m)[id := Sessions(m)[id].(isStreaming := false, error := Some(TimeoutError))]
      && r.aborts == (if id in m.aborts then m.aborts[id := true] else m.aborts)
    ensures Consistent(m) ==> Consistent(r)
    ensures Settled(Sessions(m), Sessions(r)) && Sessions(r).Keys == Sessions(m).Keys
  {
    if id !in m.timeouts then m
    else
      var m1 := m.(timeouts := m.timeouts - {id});
      if id !in Sessions(m) then m1
      else
        FailedSessions(m.store, id, TimeoutError);
        m1.(store := UpdateSession(m.store, id, Fail(TimeoutError)),
            aborts := if id in m.aborts then m.aborts[id := true] else m.aborts)
  }

  // ---------------------------------------------------------------------------
  // User actions

  /** `abortSession`: signals the controller, if any. */
  function Abort(m: Manager, id: string): (r: Manager)
    ensures id in m.aborts ==> r == m.(aborts := m.aborts[id := true])
    ensures id !in m.aborts ==> r == m
    ensures Consistent(m) ==> Consistent(r)
  {
    if id in m.aborts then m.(aborts := m.aborts[id := true]) else m
  }

  /** `abortAllSessions`: every controller is signalled and dropped and the
      session map is emptied; element entries are left in place. */
  function AbortAll(m: Manager): (r: Manager)
    ensures r.aborts == map[] && Sessions(r) == map[] && r.elements == m.elements
    ensures Consistent(m) ==> Consistent(r)
  {
    m.(aborts := map[], store := ClearSessions(m.store))
  }

  /** `dismissSession`: the overlay, element entry and session are removed;
      the controller is left alone. */
  function Dismiss(m: Manager, id: string): (r: Manager)
    ensures Sessions(r) == Sessions(m) - {id} && r.elements == m.elements - {id}
    ensures r.aborts == m.aborts && r.timeouts == m.timeouts && r.running == m.running
    ensures r.cleanups == m.cleanups + multiset{id}
    ensures Consistent(m) ==> Consistent(r)
  {
    m.(cleanups := m.cleanups + multiset{id}, elements := m.elements - {id}, store := RemoveSession(m.store, id))
  }

  function Ids(ids: seq<string>): (r: set<string>)
    ensures forall id :: id in r <==> id in ids
  {
    set id | id in ids
  }

  function DismissAll(m: Manager, ids: seq<string>): (r: Manager)
    ensures Sessions(r) == Sessions(m) - Ids(ids) && r.elements == m.elements - Ids(ids)
    ensures r.aborts == m.aborts && r.timeouts == m.timeouts && r.running == m.running && r.dismissals == m.dismissals
    ensures r.cleanups == m.cleanups + multiset(ids) && r.hasProvider == m.hasProvider
    ensures Consistent(m) ==> Consistent(r)
    decreases |ids|
  {
    if ids == [] then m
    else
      var m1 := Dismiss(m, ids[0]);
      var r := DismissAll(m1, ids[1..]);
      assert Ids(ids) == {ids[0]} + Ids(ids[1..]);
      assert Sessions(r) == Sessions(m) - Ids(ids);
      assert r.elements == m.elements - Ids(ids);
      assert ids == [ids[0]] + ids[1..];
      assert multiset(ids) == multiset{ids[0]} + multiset(ids[1..]);
      r
  }

  // ---------------------------------------------------------------------------
  // Viewport changes

  function CenterX(b: Box): real {
    b.x + b.width / 2.0
  }

  /** The new position for new bounds: the horizontal offset from the
      centre of the selection is kept; without old bounds the position is
      kept. */
  function Reposition(s: Session, nb: Box): (p: Point)
    ensures p.y == s.position.y
    ensures s.selectionBounds.Some? ==> p.x - CenterX(nb) == s.position.x - CenterX(s.selectionBounds.value)
    ensures s.selectionBounds.None? ==> p == s.position
  {
    match s.selectionBounds
    case None => s.position
    case Some(ob) => s.position.(x := CenterX(nb) + (s.position.x - CenterX(ob)))
  }

  /** A session is live when its element entry names an element that is
      still in the document; `live` maps such elements to their rectangles
      (the document and layout are outside the model). */
  predicate Live(m: Manager, live: map<ElementRef, Box>, id: string) {
    id in m.elements && m.elements[id] in live
  }

  function Moved(s: Session, nb: Box): (r: Session)
    ensures r.selectionBounds == Some(nb)
    ensures r == s.(selectionBounds := r.selectionBounds, position := r.position)
  {
    s.(selectionBounds := Some(nb), position := Reposition(s, nb))
  }

  function Dead(m: Manager, live: map<ElementRef, Box>, order: seq<string>): (r: seq<string>)
    ensures forall id :: id in r <==> id in order && !Live(m, live, id)
  {
    if order == [] then []
    else if Live(m, live, order[0]) then Dead(m, live, order[1..])
    else [order[0]] + Dead(m, live, order[1..])
  }

  /** The copy of the session map with every live session moved to its
      element's new rectangle. */
  function MovedAll(m: Manager, live: map<ElementRef, Box>): (r: map<string, Session>)
    ensures r.Keys == Sessions(m).Keys
    ensures forall id :: id in r && Live(m, live, id) ==> r[id] == Moved(Sessions(m)[id], live[m.elements[id]])
    ensures forall id :: id in r && !Live(m, live, id) ==> r[id] == Sessions(m)[id]
  {
    map id | id in Sessions(m) :: if Live(m, live, id) then Moved(Sessions(m)[id], live[m.elements[id]]) else Sessions(m)[id]
  }

  predicate AnyLive(m: Manager, live: map<ElementRef, Box>) {
    exists id :: id in Sessions(m) && Live(m, live, id)
  }

  /** `updateSessionBoundsOnViewportChange`, with `order` the iteration
      order of the session map. Live sessions get the new bounds in a copy
      of the map taken before anything is dismissed; the others are
      dismissed; then, if any session was live, that copy is written back. */
  function Viewport(m: Manager, live: map<ElementRef, Box>, order: seq<string>): (r: Manager)
    requires forall id :: id in order <==> id in Sessions(m)
    ensures |Sessions(m)| == 0 ==> r == m
    ensures |Sessions(m)| > 0 ==> r.elements == m.elements - Ids(Dead(m, live, order)) && r.cleanups == m.cleanups + multiset(Dead(m, live, order))
    ensures |Sessions(m)| > 0 && AnyLive(m, live) ==> Sessions(r) == MovedAll(m, live)
    ensures |Sessions(m)| > 0 && !AnyLive(m, live) ==> Sessions(r) == Sessions(m) - Ids(Dead(m, live, order))
    ensures r.aborts == m.aborts && r.timeouts == m.timeouts && r.running == m.running
  {
    if |Sessions(m)| == 0 then m
    else
      var moved := MovedAll(m, live);
      var m1 := DismissAll(m, Dead(m, live, order));
      if AnyLive(m, live) then
        m1.(store := UpdateState(m1.store, NoStateChange.(sessions := Put(moved))))
      else m1
  }

  /** A live session keeps its horizontal offset from the selection centre
      and its vertical position, and gets the new bounds. */
  lemma ViewportKeepsOffset(m: Manager, live: map<ElementRef, Box>, order: seq<string>, id: string)
    requires forall k :: k in order <==> k in Sessions(m)
    requires id in Sessions(m) && Live(m, live, id)
    ensures var r := Viewport(m, live, order);
      var s := Sessions(m)[id];
      var nb := live[m.elements[id]];
      && id in Sessions(r)
      && Sessions(r)[id].selectionBounds == Some(nb)
      && Sessions(r)[id].position.y == s.position.y
      && (s.selectionBounds.Some? ==> Sessions(r)[id].position.x - CenterX(nb) == s.position.x - CenterX(s.selectionBounds.value))
  {
  }

  /** When no session is live, all of them are dismissed. */
  lemma ViewportNoneLive(m: Manager, live: map<ElementRef, Box>, order: seq<string>)
    requires forall k :: k in order <==> k in Sessions(m)
    requires forall id :: id in Sessions(m) ==> !Live(m, live, id)
    ensures Sessions(Viewport(m, live, order)) == map[]
    ensures Consistent(m) ==> Consistent(Viewport(m, live, order))
  {
  }

  /** The write-back: when any session is live, the map written back is the
      copy taken before the dismissals, so every dismissed session is
      stored again, unchanged, although its element entry and overlay are
      gone. */
  lemma ViewportRestoresDismissed(m: Manager, live: map<ElementRef, Box>, order: seq<string>, id: string)
    requires forall k :: k in order <==> k in Sessions(m)
    requires exists k :: k in Sessions(m) && Live(m, live, k)
    requires id in Sessions(m) && !Live(m, live, id)
    ensures var r := Viewport(m, live, order);
      && Sessions(r).Keys == Sessions(m).Keys
      && Sessions(r)[id] == Sessions(m)[id]
      && id !in r.elements
      && r.cleanups[id] > m.cleanups[id]
  {
  }

  /** Hence the tables disagree afterwards: a stored session has no
      element entry. */
  lemma ViewportBreaksConsistency(m: Manager, live: map<ElementRef, Box>, order: seq<string>, id: string)
    requires forall k :: k in order <==> k in Sessions(m)
    requires exists k :: k in Sessions(m) && Live(m, live, k)
    requires id in Sessions(m) && !Live(m, live, id)
    ensures !Consistent(Viewport(m, live, order))
  {
    ViewportRestoresDismissed(m, live, order, id);
  }

  /** Without dismissals (every session live) the tables stay consistent,
      and in every case no terminal flag moves back. */
  lemma ViewportConsistentWhenAllLive(m: Manager, live: map<ElementRef, Box>, order: seq<string>)
    requires forall k :: k in order <==> k in Sessions(m)
    requires Consistent(m)
    ensures (forall id :: id in Sessions(m) ==> Live(m, live, id)) ==> Consistent(Viewport(m, live, order))
    ensures Settled(Sessions(m), Sessions(Viewport(m, live, order)))
  {
    var r := Viewport(m, live, order);
    if |Sessions(m)| > 0 {
      if AnyLive(m, live) {
        MovedSettled(m, live);
        if forall id :: id in Sessions(m) ==> Live(m, live, id) {
          NoneDead(m, live, order);
          MovedIds(m, live);
        }
      } else {
        assert Sessions(r) == Sessions(m) - Ids(Dead(m, live, order));
      }
    }
  }

  /** Moving a session keeps its flags. */
  lemma MovedSettled(m: Manager, live: map<ElementRef, Box>)
    ensures Settled(Sessions(m), MovedAll(m, live))
  {
    var r := MovedAll(m, live);
    forall id | id in Sessions(m) && id in r
      ensures r[id].isStreaming == Sessions(m)[id].isStreaming
      ensures r[id].errorRendered == Sessions(m)[id].errorRendered
      ensures r[id].completedRendered == Sessions(m)[id].completedRendered
    {
    }
  }

  /** Moving a session keeps its id. */
  lemma MovedIds(m: Manager, live: map<ElementRef, Box>)
    requires forall id :: id in Sessions(m) ==> Sessions(m)[id].id == id
    ensures forall id :: id in MovedAll(m, live) ==> MovedAll(m, live)[id].id == id
  {
  }

  /** With every session live nothing is dismissed. */
  lemma {:induction false} NoneDead(m: Manager, live: map<ElementRef, Box>, order: seq<string>)
    requires forall k :: k in order ==> Live(m, live, k)
    ensures Dead(m, live, order) == []
    decreases |order|
  {
    if order != [] {
      NoneDead(m, live, order[1..]);
    }
  }
}
