/** The application state of the current package and its observable store:
    the state is replaced whole on every mutation, and every mutation
    notifies each subscribed listener, in subscription order, with the new
    state. */
module Store {
  import opened Wrappers
  import Provider

  /** DOM elements are opaque; the model names them by number. */
  type ElementRef = nat

  /** A rectangle in viewport coordinates. Geometry is exact (`real`). */
  datatype Box = Box(x: real, y: real, width: real, height: real)

  datatype Point = Point(x: real, y: real)

  /** What a session asks the agent: the snippet as content, the prompt,
      and the provider options (locator and snippet). */
  datatype Context = Context(content: string, prompt: string, options: Option<Provider.TargetOptions>)

  /** One agent session. The optional fields of the record are `Option`s. */
  datatype Session = Session(
    id: string,
    context: Context,
    lastStatus: string,
    isStreaming: bool,
    createdAt: int,
    position: Point,
    selectionBounds: Option<Box>,
    tagName: Option<string>,
    componentName: Option<string>,
    error: Option<string>,
    element: Option<ElementRef>,
    errorRendered: Option<bool>,
    completedRendered: Option<bool>)

  /** JavaScript truthiness of an optional string or flag. */
  predicate Given(s: Option<string>) {
    s.Some? && s.value != ""
  }

  predicate Set(b: Option<bool>) {
    b == Some(true)
  }

  datatype AppState = AppState(
    mouseX: real,
    mouseY: real,
    hoveredElement: Option<ElementRef>,
    hoveredRect: Option<Box>,
    isActive: bool,
    isInputMode: bool,
    inputText: string,
    sessions: map<string, Session>,
    lastRenderKey: string,
    rafPending: bool,
    rafId: Option<int>)

  const Initial: AppState := AppState(-1000.0, -1000.0, None, None, false, false, "", map[], "", false, None)

  /** One key of a `Partial<...>` spread: kept, or overwritten. */
  datatype Patch<T> = Keep | Put(value: T)

  function Apply<T>(old_: T, p: Patch<T>): (r: T)
    ensures p.Keep? ==> r == old_
    ensures p.Put? ==> r == p.value
  {
    match p
    case Keep => old_
    case Put(v) => v
  }

  /** The keys of a session that callers update. */
  datatype SessionPatch = SessionPatch(
    lastStatus: Patch<string>,
    isStreaming: Patch<bool>,
    error: Patch<Option<string>>,
    errorRendered: Patch<Option<bool>>,
    completedRendered: Patch<Option<bool>>)

  const NoSessionChange := SessionPatch(Keep, Keep, Keep, Keep, Keep)

  /** `{ ...session, ...updates }`. */
  function MergeSession(s: Session, p: SessionPatch): (r: Session)
    ensures r.(lastStatus := s.lastStatus, isStreaming := s.isStreaming, error := s.error,
               errorRendered := s.errorRendered, completedRendered := s.completedRendered) == s
    ensures p.lastStatus.Put? ==> r.lastStatus == p.lastStatus.value
    ensures p.isStreaming.Put? ==> r.isStreaming == p.isStreaming.value
    ensures p.error.Put? ==> r.error == p.error.value
    ensures p.errorRendered.Put? ==> r.errorRendered == p.errorRendered.value
    ensures p.completedRendered.Put? ==> r.completedRendered == p.completedRendered.value
    ensures p.lastStatus.Keep? ==> r.lastStatus == s.lastStatus
    ensures p.isStreaming.Keep? ==> r.isStreaming == s.isStreaming
    ensures p.error.Keep? ==> r.error == s.error
    ensures p.errorRendered.Keep? ==> r.errorRendered == s.errorRendered
    ensures p.completedRendered.Keep? ==> r.completedRendered == s.completedRendered
    ensures p == NoSessionChange ==> r == s
  {
    s.(lastStatus := Apply(s.lastStatus, p.lastStatus),
       isStreaming := Apply(s.isStreaming, p.isStreaming),
       error := Apply(s.error, p.error),
       errorRendered := Apply(s.errorRendered, p.errorRendered),
       completedRendered := Apply(s.completedRendered, p.completedRendered))
  }

  /** A `Partial<AppState>`. */
  datatype StatePatch = StatePatch(
    mouseX: Patch<real>,
    mouseY: Patch<real>,
    hoveredElement: Patch<Option<ElementRef>>,
    hoveredRect: Patch<Option<Box>>,
    isActive: Patch<bool>,
    isInputMode: Patch<bool>,
    inputText: Patch<string>,
    sessions: Patch<map<string, Session>>,
    lastRenderKey: Patch<string>,
    rafPending: Patch<bool>,
    rafId: Patch<Option<int>>)

  const NoStateChange := StatePatch(Keep, Keep, Keep, Keep, Keep, Keep, Keep, Keep, Keep, Keep, Keep)

  function MergeState(s: AppState, p: StatePatch): AppState {
    AppState(
      Apply(s.mouseX, p.mouseX), Apply(s.mouseY, p.mouseY),
      Apply(s.hoveredElement, p.hoveredElement), Apply(s.hoveredRect, p.hoveredRect),
      Apply(s.isActive, p.isActive), Apply(s.isInputMode, p.isInputMode),
      Apply(s.inputText, p.inputText), Apply(s.sessions, p.sessions),
      Apply(s.lastRenderKey, p.lastRenderKey), Apply(s.rafPending, p.rafPending),
      Apply(s.rafId, p.rafId))
  }

  /** Two spreads in a row: the later value of a key wins. */
  function Then<T>(first: Patch<T>, second: Patch<T>): Patch<T> {
    if second.Put? then second else first
  }

  function ThenSession(p: SessionPatch, q: SessionPatch): SessionPatch {
    SessionPatch(Then(p.lastStatus, q.lastStatus), Then(p.isStreaming, q.isStreaming), Then(p.error, q.error),
                 Then(p.errorRendered, q.errorRendered), Then(p.completedRendered, q.completedRendered))
  }

  function ThenState(p: StatePatch, q: StatePatch): StatePatch {
    StatePatch(Then(p.mouseX, q.mouseX), Then(p.mouseY, q.mouseY), Then(p.hoveredElement, q.hoveredElement),
               Then(p.hoveredRect, q.hoveredRect), Then(p.isActive, q.isActive), Then(p.isInputMode, q.isInputMode),
               Then(p.inputText, q.inputText), Then(p.sessions, q.sessions), Then(p.lastRenderKey, q.lastRenderKey),
               Then(p.rafPending, q.rafPending), Then(p.rafId, q.rafId))
  }

  /** Merging two session patches in a row is merging one patch in which
      the later value of each key wins; so merging the same patch twice is
      merging it once. */
  lemma MergeSessionCompose(s: Session, p: SessionPatch, q: SessionPatch)
    ensures MergeSession(MergeSession(s, p), q) == MergeSession(s, ThenSession(p, q))
    ensures MergeSession(MergeSession(s, p), p) == MergeSession(s, p)
  {
  }

    // ---------------------------------------------------------------------------
  // The store

  /** Listeners are opaque and named by number; a notice records one call. */
  type Listener = int

  datatype Notice = Notice(listener: Listener, state: AppState)

  /** The current state, the subscribed listeners in subscription order
      (a JavaScript `Set` keeps insertion order), and every notice so far. */
  datatype Store = Store(state: AppState, listeners: seq<Listener>, log: seq<Notice>)

  predicate Distinct<T(==)>(xs: seq<T>) {
    forall i, j :: 0 <= i < j < |xs| ==> xs[i] != xs[j]
  }

  ghost predicate Valid(s: Store) {
    Distinct(s.listeners)
  }

  const Fresh: Store := Store(Initial, [], [])

  function NoticesFor(listeners: seq<Listener>, state: AppState): (r: seq<Notice>)
    ensures |r| == |listeners|
    ensures forall i :: 0 <= i < |r| ==> r[i] == Notice(listeners[i], state)
  {
    seq(|listeners|, i requires 0 <= i < |listeners| => Notice(listeners[i], state))
  }

  /** `s` became `r` by one mutation: the new state is in `r`, the listeners
      are the same, and each of them got exactly one notice with the new
      state, in order. */
  ghost predicate Notified(s: Store, r: Store) {
    && r.listeners == s.listeners
    && |r.log| == |s.log| + |s.listeners|
    && r.log[..|s.log|] == s.log
    && forall i :: 0 <= i < |s.listeners| ==> r.log[|s.log| + i] == Notice(s.listeners[i], r.state)
  }

  /** Replace the state and notify every listener. */
  function Commit(s: Store, next: AppState): (r: Store)
    ensures r.state == next && Notified(s, r)
  {
    Store(next, s.listeners, s.log + NoticesFor(s.listeners, next))
  }

  /** `setState(updater)`. */
  function SetState(s: Store, updater: AppState -> AppState): (r: Store)
    ensures r.state == updater(s.state) && Notified(s, r)
  {
    Commit(s, updater(s.state))
  }

  /** `updateState(partial)`: a shallow merge; absent keys keep their value. */
  function UpdateState(s: Store, p: StatePatch): (r: Store)
    ensures Notified(s, r)
    ensures r.state.mouseX == Apply(s.state.mouseX, p.mouseX)
    ensures r.state.mouseY == Apply(s.state.mouseY, p.mouseY)
    ensures r.state.hoveredElement == Apply(s.state.hoveredElement, p.hoveredElement)
    ensures r.state.hoveredRect == Apply(s.state.hoveredRect, p.hoveredRect)
    ensures r.state.isActive == Apply(s.state.isActive, p.isActive)
    ensures r.state.isInputMode == Apply(s.state.isInputMode, p.isInputMode)
    ensures r.state.inputText == Apply(s.state.inputText, p.inputText)
    ensures r.state.sessions == Apply(s.state.sessions, p.sessions)
    ensures r.state.lastRenderKey == Apply(s.state.lastRenderKey, p.lastRenderKey)
    ensures r.state.rafPending == Apply(s.state.rafPending, p.rafPending)
    ensures r.state.rafId == Apply(s.state.rafId, p.rafId)
    ensures p == NoStateChange ==> r.state == s.state
  {
    Commit(s, MergeState(s.state, p))
  }

  /** Two `updateState` calls leave the state one call with the later
      values winning would leave, and notify every listener twice. */
  lemma UpdateStateCompose(s: Store, p: StatePatch, q: StatePatch)
    ensures var r := UpdateState(UpdateState(s, p), q);
      && r.state == UpdateState(s, ThenState(p, q)).state
      && |r.log| == |s.log| + 2 * |s.listeners|
    ensures UpdateState(UpdateState(s, p), p).state == UpdateState(s, p).state
  {
  }

    /** `subscribe(listener)`; adding a listener twice keeps one entry. */
  function Subscribe(s: Store, l: Listener): (r: Store)
    requires Valid(s)
    ensures Valid(r) && r.state == s.state && r.log == s.log
    ensures l in r.listeners && forall m :: m in s.listeners ==> m in r.listeners
    ensures forall m :: m in r.listeners ==> m == l || m in s.listeners
  {
    if l in s.listeners then s else s.(listeners := s.listeners + [l])
  }

  function Without(xs: seq<Listener>, l: Listener): (r: seq<Listener>)
    ensures forall m :: m in r <==> m in xs && m != l
    ensures Distinct(xs) ==> Distinct(r)
  {
    if xs == [] then []
    else if xs[0] == l then Without(xs[1..], l)
    else
      var rest := Without(xs[1..], l);
      assert Distinct(xs) ==> xs[0] !in xs[1..];
      [xs[0]] + rest
  }

  /** The function `subscribe` returns: removes the listener. */
  function Unsubscribe(s: Store, l: Listener): (r: Store)
    requires Valid(s)
    ensures Valid(r) && r.state == s.state && r.log == s.log
    ensures l !in r.listeners
    ensures forall m :: m != l ==> (m in r.listeners <==> m in s.listeners)
  {
    s.(listeners := Without(s.listeners, l))
  }

  /** The listeners a mutation from `s` to `r` notified. */
  function Receivers(s: Store, r: Store): (ls: seq<Listener>)
    requires |s.log| <= |r.log|
    ensures |ls| == |r.log| - |s.log|
  {
    seq(|r.log| - |s.log|, i requires 0 <= i < |r.log| - |s.log| => r.log[|s.log| + i].listener)
  }

  lemma {:induction false} DistinctCount<T>(xs: seq<T>, x: T)
    requires Distinct(xs)
    ensures multiset(xs)[x] == if x in xs then 1 else 0
    decreases |xs|
  {
    if xs != [] {
      assert xs == [xs[0]] + xs[1..];
      assert Distinct(xs[1..]);
      DistinctCount(xs[1..], x);
      if x == xs[0] {
        assert x !in xs[1..];
      }
    }
  }

  /** Every mutation notifies each current listener exactly once, and no
      one else. */
  lemma NotifiedExactlyOnce(s: Store, r: Store, l: Listener)
    requires Valid(s) && Notified(s, r)
    ensures multiset(Receivers(s, r))[l] == if l in s.listeners then 1 else 0
  {
    assert Receivers(s, r) == s.listeners;
    DistinctCount(s.listeners, l);
  }

  /** After unsubscribing, no later mutation notifies the listener. */
  lemma UnsubscribeStops(s: Store, l: Listener, r: Store)
    requires Valid(s) && Notified(Unsubscribe(s, l), r)
    ensures l !in Receivers(Unsubscribe(s, l), r)
  {
    var u := Unsubscribe(s, l);
    assert Receivers(u, r) == u.listeners;
  }

  // ---------------------------------------------------------------------------
  // Sessions

  function GetSession(s: Store, id: string): (r: Option<Session>)
    ensures r.Some? <==> id in s.state.sessions
    ensures r.Some? ==> r.value == s.state.sessions[id]
  {
    if id in s.state.sessions then Some(s.state.sessions[id]) else None
  }

  predicate HasActiveSessions(s: Store): (b: bool)
    ensures b <==> exists id :: id in s.state.sessions
  {
    var ks := s.state.sessions.Keys;
    assert |ks| == |s.state.sessions|;
    if |ks| > 0 then
      var id :| id in ks;
      true
    else
      assert ks == {};
      false
  }

  /** `addSession`: stored under its id, replacing an entry with that id. */
  function AddSession(s: Store, x: Session): (r: Store)
    ensures Notified(s, r) && r.state.(sessions := s.state.sessions) == s.state
    ensures GetSession(r, x.id) == Some(x)
    ensures forall id :: id != x.id ==> GetSession(r, id) == GetSession(s, id)
  {
    Commit(s, s.state.(sessions := s.state.sessions[x.id := x]))
  }

  /** `updateSession`: merges into a present session only; for an absent id
      the state is kept, but the listeners are still notified. */
  function UpdateSession(s: Store, id: string, p: SessionPatch): (r: Store)
    ensures Notified(s, r) && r.state.(sessions := s.state.sessions) == s.state
    ensures id !in s.state.sessions ==> r.state == s.state
    ensures id in s.state.sessions ==> GetSession(r, id) == Some(MergeSession(s.state.sessions[id], p))
    ensures forall k :: k != id ==> GetSession(r, k) == GetSession(s, k)
    ensures r.state.sessions.Keys == s.state.sessions.Keys
  {
    if id !in s.state.sessions then Commit(s, s.state)
    else Commit(s, s.state.(sessions := s.state.sessions[id := MergeSession(s.state.sessions[id], p)]))
  }

  /** `removeSession`. */
  function RemoveSession(s: Store, id: string): (r: Store)
    ensures Notified(s, r) && r.state.(sessions := s.state.sessions) == s.state
    ensures GetSession(r, id) == None
    ensures forall k :: k != id ==> GetSession(r, k) == GetSession(s, k)
  {
    Commit(s, s.state.(sessions := s.state.sessions - {id}))
  }

  /** `clearSessions`. */
  function ClearSessions(s: Store): (r: Store)
    ensures Notified(s, r) && r.state.(sessions := s.state.sessions) == s.state
    ensures !HasActiveSessions(r)
  {
    Commit(s, s.state.(sessions := map[]))
  }

  /** The fresh store: no sessions, pointer far off-screen, inactive. */
  lemma FreshState()
    ensures !HasActiveSessions(Fresh) && Valid(Fresh)
    ensures Fresh.state.mouseX == -1000.0 && Fresh.state.mouseY == -1000.0
    ensures !Fresh.state.isActive && !Fresh.state.isInputMode && Fresh.state.inputText == ""
  {
  }

  /** Removing after adding leaves no entry; adding twice keeps the last. */
  lemma AddRemove(s: Store, x: Session, y: Session)
    requires x.id == y.id
    ensures GetSession(RemoveSession(AddSession(s, x), x.id), x.id) == None
    ensures GetSession(AddSession(AddSession(s, x), y), x.id) == Some(y)
    ensures RemoveSession(AddSession(s, x), x.id).state.sessions == s.state.sessions - {x.id}
  {
  }
}
