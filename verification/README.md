# vue-grab in Dafny

vue-grab is a browser tool for Vue applications. While a hotkey is held,
it outlines the element under the pointer with a box, a caption and
crosshairs. A click then copies a description of that element to the
clipboard: its Vue component chain, a CSS path, an ancestor tree and its
text, optionally preceded by a JSON "locator" block. With Ctrl+X held, a
click opens a prompt box instead. The prompt goes to a local coding agent
over HTTP, and the agent's streamed status lines are shown next to the
element until a result banner appears.

This project models both entry points of the repository in Dafny:

- the current package (`packages/vue-grab/src`), which has a hotkey with
  OR/AND readings, a configurable ignore filter, render de-duplication,
  the agent prompt flow, a session store, an agent manager, a render loop
  and an overlay with per-session node sets;
- the original single-package build (`src/`), which has a time-windowed
  "c" combo, no filter and no agent.

One module per source file:

| module | models |
|---|---|
| `Text`, `Seqs`, `Wrappers` | JavaScript string and array built-ins the sources use (`trim`, `split(/\s+/)`, `replace(/\s+/g, " ")`, `repeat`, `slice`, `includes`, `map`), and `undefined` as `Option` |
| `Hotkeys` | `packages/vue-grab/src/modules/hotkeys.ts`, plus the key handlers' bookkeeping |
| `LegacyHotkeys` | `src/modules/hotkeys.ts` (its copy in `src/index.ts` is identical) |
| `Config` | `src/modules/config.ts`, the runtime configuration and its nested merge |
| `Dom` | `packages/vue-grab/src/modules/dom.ts`: component chain, CSS path, locator, HTML snippet, ignore walk |
| `LegacyDom` | `src/modules/dom.ts` |
| `LineBuffer`, `EventStream` | the line splitting and the `event:`/`data:` line protocol shared by the provider and the entry point |
| `Provider` | `packages/vue-grab/src/modules/provider.ts` |
| `Store` | `packages/vue-grab/src/state.ts` |
| `AgentManager` | `packages/vue-grab/src/modules/agent-manager.ts` |
| `Renderer` | `packages/vue-grab/src/modules/renderer.ts` |
| `Overlay` | the geometry, colour and node bookkeeping of `packages/vue-grab/src/modules/overlay.ts` |
| `Interaction` | the prompt flow inside `packages/vue-grab/src/index.ts` (timer, fetch, stream loop, result, dismissal) |
| `Controller` | the rest of `packages/vue-grab/src/index.ts`: `init`, the mouse, key and click handlers, and the clipboard text |
| `LegacyController` | `src/index.ts` |

The browser is abstracted in these ways:

- An element is a record holding:
  - its tag name, id, raw class attribute and text content;
  - the component chain of its own Vue instance.
- The element under the pointer is passed in as its path from the document root.
- `Element.matches` is a function parameter that can answer "match", "no match" or "throws".
- `JSON.parse` is a function parameter returning the two fields the readers look at.
- Times are integers in milliseconds, and geometry is `real`.
- A "screen" log records what the overlay was asked to draw.

Some behaviour of the sources looks unintended, but the model reproduces it as written:

- The two opencode default endpoints differ: port 6567 in `index.ts` and 6569 in `provider.ts`.
- The viewport update writes back a map that still holds the sessions it has just dismissed.
- Clean-up by session id matches the id as a substring of class names.
- `keyHoldDuration` is resolved but never read.

## Model

| member | source | states |
|---|---|---|
| Text.Lower | packages/vue-grab/src/modules/dom.ts:37 | ASCII letters A-Z become a-z and every other character is kept, so the length is kept; full Unicode case mapping is left out |
| Text.LowerIdempotent | packages/vue-grab/src/modules/dom.ts:87-91 | lower-casing an already lower-cased tag list changes nothing, so the comparison is case-insensitive on both sides |
| Text.TrimStart | packages/vue-grab/src/modules/dom.ts:44 | the result is a suffix of the input, everything dropped is white space, and it does not start with white space |
| Text.TrimEnd | packages/vue-grab/src/modules/dom.ts:44 | the result is a prefix of the input, everything dropped is white space, and it does not end with white space |
| Text.Trim | packages/vue-grab/src/modules/dom.ts:44 | a trimmed string has no white space at either edge |
| Text.TrimNoEdgeSpace | packages/vue-grab/src/modules/provider.ts:60 | trimming a string without edge white space returns it unchanged |
| Text.TrimEmptyIffAllSpace | packages/vue-grab/src/modules/provider.ts:57-58 | a line trims to the empty string exactly when it is all white space, which is when the reader skips it |
| Text.Collapse | packages/vue-grab/src/modules/dom.ts:44 | collapsing white-space runs never lengthens the text |
| Text.CollapseFirst | packages/vue-grab/src/modules/dom.ts:44 | collapsing keeps emptiness, and the first character survives unless it is white space, which becomes a blank |
| Text.CollapseCollapsed | packages/vue-grab/src/modules/dom.ts:44 | after collapsing, every white-space character is a single blank never followed by another |
| Text.CollapseLast | packages/vue-grab/src/modules/dom.ts:44 | the collapsed text ends in white space exactly when the input does |
| Text.CollapseFixpoint | packages/vue-grab/src/modules/dom.ts:44 | text already in collapsed form is left unchanged |
| Text.NormalizeText | packages/vue-grab/src/modules/dom.ts:44 | normalised text is collapsed, has no white space at its edges and is no longer than the input |
| Text.NormalizeTextIdempotent | packages/vue-grab/src/modules/dom.ts:162 | normalising element text twice gives the same text as once |
| Text.Word | packages/vue-grab/src/modules/dom.ts:39-41 | the first piece is the longest prefix without white space, ended by white space or the end of the text |
| Text.SplitSpaces | packages/vue-grab/src/modules/dom.ts:39-41 | splitting on white-space runs yields at least one piece and no piece contains white space |
| Text.SplitSpacesJoin | packages/vue-grab/src/modules/dom.ts:39-44 | joining the pieces of a split with one blank gives the same text as the collapse the text snippet uses |
| Text.SplitSpacesPieces | packages/vue-grab/src/modules/dom.ts:39-42 | the empty string splits into one empty piece, and trimmed non-empty text splits into non-empty pieces only |
| Text.NonEmpty | packages/vue-grab/src/modules/dom.ts:42 | the filter keeps exactly the non-empty pieces, and every kept piece comes from the input |
| Text.Repeat | packages/vue-grab/src/modules/dom.ts:154 | repeating a string n times gives n times its length |
| Text.Indent | packages/vue-grab/src/modules/dom.ts:154 | the indentation of depth n is 2n blanks |
| Text.Truncate | packages/vue-grab/src/modules/dom.ts:45 | text of at most n characters is kept, and longer text becomes its first n characters followed by "..."; characters are code points, not UTF-16 units |
| Text.TruncateBound | packages/vue-grab/src/modules/dom.ts:163 | a truncated text has at most n+3 characters and is empty only when the input is |
| Text.ContainsSelf | packages/vue-grab/src/modules/overlay.ts:595 | a class name contains every id placed inside it |
| Text.RemoveFirst | packages/vue-grab/src/modules/overlay.ts:6 | replacing with a one-character pattern removes exactly one character when it occurs and otherwise changes nothing |
| LineBuffer.LineOf | packages/vue-grab/src/modules/provider.ts:53 | the first line is the prefix before the first newline |
| LineBuffer.SplitLines | packages/vue-grab/src/modules/provider.ts:53 | splitting on "\n" yields at least one piece and no piece holds a newline |
| LineBuffer.CompleteLines | packages/vue-grab/src/modules/provider.ts:53-54 | the complete lines are all pieces but the popped last one |
| LineBuffer.Remainder | packages/vue-grab/src/modules/provider.ts:54 | the kept buffer never holds a newline |
| LineBuffer.SplitLinesShape | packages/vue-grab/src/modules/provider.ts:53-54 | the pieces are exactly the complete lines followed by the remainder |
| LineBuffer.LineOfPrefix | packages/vue-grab/src/modules/provider.ts:53 | the first line of a newline-terminated line and anything after it is that line |
| LineBuffer.SplitTerminated | packages/vue-grab/src/modules/provider.ts:53-54 | a single terminated line splits into itself and an empty remainder |
| LineBuffer.JoinSplitLines | packages/vue-grab/src/modules/provider.ts:53 | joining the pieces with "\n" gives back the text |
| LineBuffer.SplitJoinLines | packages/vue-grab/src/modules/provider.ts:53 | splitting newline-free pieces joined with "\n" gives back the pieces |
| LineBuffer.SplitAppend | packages/vue-grab/src/modules/provider.ts:52-54 | appending a chunk only re-splits the remainder: earlier complete lines stay as they were |
| LineBuffer.CompleteLinesAppend | packages/vue-grab/src/modules/provider.ts:52-54 | the lines of buffer plus chunk are the buffer's lines followed by those of its remainder plus the chunk |
| LineBuffer.Feed | packages/vue-grab/src/modules/provider.ts:52-54 | one read hands on the complete lines of buffer plus chunk and keeps the newline-free remainder |
| LineBuffer.FeedAllConcat | packages/vue-grab/src/modules/provider.ts:48-54 | any sequence of reads hands on the same lines and keeps the same remainder as one read of the concatenated text |
| LineBuffer.CompleteLinesUnterminated | packages/vue-grab/src/modules/provider.ts:49-54 | after terminated text, a newline-free tail adds no complete line |
| LineBuffer.SplitNoNewlineSingle | packages/vue-grab/src/modules/provider.ts:53-54 | newline-free text is one piece, so it stays in the buffer |
| LineBuffer.LineOfNoNewline | packages/vue-grab/src/modules/provider.ts:53 | newline-free text is its own first line |
| EventStream.Classify | packages/vue-grab/src/modules/provider.ts:57-62 | a line is blank exactly when it is all white space; an event line's name is the trimmed text after "event: "; a data line's payload is the trimmed line after "data: " |
| EventStream.ClassifyTrimmed | packages/vue-grab/src/modules/provider.ts:58-62 | the same classification on trimmed text, with event names free of edge white space |
| EventStream.DataPayloadNonEmpty | packages/vue-grab/src/modules/provider.ts:57-62 | a dispatched data payload is never empty and never ends in white space |
| EventStream.EmptyDataNeverDispatched | packages/vue-grab/src/modules/provider.ts:57-62 | a blank line, or "data: " followed only by white space, is never taken as data |
| EventStream.Preview | packages/vue-grab/src/modules/provider.ts:68-73 | non-JSON data is shown as is, a fragment shows "Generating...", and otherwise a non-empty message replaces the data |
| EventStream.Dispatch | packages/vue-grab/src/modules/provider.ts:56-76 | a line adds at most one preview, only for data while streaming; an event line only sets the event; other lines neither yield nor end the stream |
| EventStream.DataDispatch | packages/vue-grab/src/modules/provider.ts:63-75 | under "error" a data line throws with its payload, under "done" it returns, and otherwise it yields its preview |
| EventStream.Lines | packages/vue-grab/src/modules/provider.ts:56-77 | lines only append previews, and nothing happens once the reader has returned or thrown |
| EventStream.LinesAppend | packages/vue-grab/src/modules/provider.ts:56-77 | processing lines in two batches is the same as processing them at once |
| EventStream.NothingAfterEnd | packages/vue-grab/src/modules/provider.ts:63-66 | once the reader has returned or thrown, later lines change nothing |
| EventStream.BlankLinesIgnored | packages/vue-grab/src/modules/provider.ts:57-58 | blank lines change nothing, in particular they do not reset the current event |
| EventStream.Read | packages/vue-grab/src/modules/provider.ts:49-77 | a read keeps the buffer newline-free |
| EventStream.ReadAll | packages/vue-grab/src/modules/provider.ts:48-78 | a sequence of reads keeps the buffer newline-free |
| EventStream.ReadAllIsLineParse | packages/vue-grab/src/modules/provider.ts:48-78 | after any sequence of reads the parser is the line-by-line parse of the complete lines of all text read |
| EventStream.ChunkBoundaryIndependence | packages/vue-grab/src/modules/provider.ts:48-78 | two bodies with the same text yield the same previews and end, however they are cut into chunks |
| EventStream.RemainderAfterNewline | packages/vue-grab/src/modules/provider.ts:53-54 | text ending in a newline leaves an empty buffer |
| EventStream.UnterminatedLineDropped | packages/vue-grab/src/modules/provider.ts:49-54 | a last line without a newline is never dispatched when the body ends |
| Provider.Endpoint | packages/vue-grab/src/modules/provider.ts:3-17 | a non-empty configured endpoint wins; otherwise the agent type's default is used; it is never empty |
| Provider.AgentConfig | packages/vue-grab/src/modules/provider.ts:32-36 | the agent configuration holds exactly the non-empty provider, model and API key, each with its given value |
| Provider.Settle | packages/vue-grab/src/modules/provider.ts:63-66 | a "done" end returns, an "error" end throws with its message, and a running parser is still pending |
| Provider.Pump | packages/vue-grab/src/modules/provider.ts:47-81 | pumping only appends previews, a finished reader is not read further, and "pending" means still streaming |
| Provider.Send | packages/vue-grab/src/modules/provider.ts:20-81 | missing options throw before any request; otherwise exactly one request is posted with the endpoint, prompt, locator, snippet and agent configuration; a rejected fetch throws its reason and a missing body throws, both without the lock; with a body the lock is taken and released once the generator finishes |
| Provider.ReadAllEnded | packages/vue-grab/src/modules/provider.ts:63-66 | a finished reader reads nothing more |
| Provider.PumpChunks | packages/vue-grab/src/modules/provider.ts:48-54 | pumping a run of chunks is reading them in turn |
| Provider.PumpLast | packages/vue-grab/src/modules/provider.ts:49-50 | after a non-chunk event the outcome depends only on the parser, not on the buffer |
| Provider.SendChunkBoundaryIndependence | packages/vue-grab/src/modules/provider.ts:48-78 | `send` yields the same previews and outcome for any chunking of the same body |
| Provider.SendTerminalEvents | packages/vue-grab/src/modules/provider.ts:63-66 | an "error" data line makes `send` throw with the raw payload, and a "done" data line makes it return; both release the lock |
| Store.Apply | packages/vue-grab/src/state.ts:85 | a key of a partial update is either kept or overwritten with the given value |
| Store.MergeSession | packages/vue-grab/src/state.ts:85 | each key the patch carries takes the patch's value, each key it leaves out keeps its value, and keys outside the patch type are untouched |
| Store.MergeSessionCompose | packages/vue-grab/src/state.ts:80-91 | two merges in a row equal one merge where the later value of each key wins, so merging a patch twice equals merging it once |
| Store.NoticesFor | packages/vue-grab/src/state.ts:68-70 | one notice per listener, in order, each with the new state |
| Store.Commit | packages/vue-grab/src/state.ts:53-56 | the state is replaced and every listener is notified once |
| Store.SetState | packages/vue-grab/src/state.ts:53-56 | the new state is the updater applied to the old one, and listeners are notified |
| Store.UpdateState | packages/vue-grab/src/state.ts:58-61 | a shallow merge over all eleven keys: a key the patch leaves out keeps its value and a given key takes the given value; every listener is notified |
| Store.UpdateStateCompose | packages/vue-grab/src/state.ts:58-61 | two updates in a row leave the state one update with the later values winning leaves, notify twice, and repeating a patch changes nothing |
| Store.Subscribe | packages/vue-grab/src/state.ts:63-64 | the listener is added once and no other listener changes |
| Store.Without | packages/vue-grab/src/state.ts:65 | removal drops exactly the given listener and keeps the rest distinct |
| Store.Unsubscribe | packages/vue-grab/src/state.ts:65 | the returned function removes just that listener |
| Store.Receivers | packages/vue-grab/src/state.ts:68-70 | the listeners called by a mutation, one per notice |
| Store.NotifiedExactlyOnce | packages/vue-grab/src/state.ts:63-70 | every mutation calls each subscribed listener exactly once and no other listener |
| Store.UnsubscribeStops | packages/vue-grab/src/state.ts:63-70 | after unsubscribing, no later mutation calls the listener |
| Store.GetSession | packages/vue-grab/src/state.ts:101-103 | a session is found exactly when stored, and it is the stored one |
| Store.HasActiveSessions | packages/vue-grab/src/state.ts:105-107 | the store has active sessions exactly when some id is stored |
| Store.AddSession | packages/vue-grab/src/state.ts:73-78 | the session is stored under its id, replacing an older one, and other ids are untouched |
| Store.UpdateSession | packages/vue-grab/src/state.ts:80-91 | a present session gets the patch merged in; an absent id changes nothing; the set of ids never changes |
| Store.RemoveSession | packages/vue-grab/src/state.ts:93-99 | only the given id is removed |
| Store.ClearSessions | packages/vue-grab/src/state.ts:109-114 | no session is left, and the rest of the state is unchanged |
| Store.FreshState | packages/vue-grab/src/state.ts:33-46 | the fresh store has no sessions, the pointer at -1000,-1000, and is inactive with an empty input |
| Store.AddRemove | packages/vue-grab/src/state.ts:73-99 | removing after adding leaves the map as it was without that id, and adding twice keeps the last session |
| AgentManager.SessionId | packages/vue-grab/src/modules/agent-manager.ts:51 | a non-empty given id is used, and otherwise the generated one |
| AgentManager.Start | packages/vue-grab/src/modules/agent-manager.ts:31-80 | without a provider nothing changes; otherwise a streaming, unrendered session is stored and gets an element entry, a controller, a timer and a running stream; consistency is kept |
| AgentManager.Finish | packages/vue-grab/src/modules/agent-manager.ts:123-125 | the timer is cleared and the controller dropped; store and elements are untouched |
| AgentManager.Status | packages/vue-grab/src/modules/agent-manager.ts:95-100 | a status updates only a stored session's last status; a removed session ends the loop |
| AgentManager.StatusesInOrder | packages/vue-grab/src/modules/agent-manager.ts:95-100 | while the session stays stored, the last yielded status is the one shown and the stream still runs |
| AgentManager.FailedSessions | packages/vue-grab/src/modules/agent-manager.ts:117 | failing a stored session changes only its streaming flag and error |
| AgentManager.StreamEnd | packages/vue-grab/src/modules/agent-manager.ts:102-125 | normal completion stops a stored session's streaming and schedules its dismissal; a removed session is left alone; the finally block runs |
| AgentManager.StreamFails | packages/vue-grab/src/modules/agent-manager.ts:111-133 | an abort removes the session, its element and its overlay without an error; any other failure records its message and schedules a dismissal |
| AgentManager.Timeout | packages/vue-grab/src/modules/agent-manager.ts:87-92 | after 30 s a stored session stops streaming with error "timeout" and its controller is aborted; otherwise only the timer goes |
| AgentManager.Abort | packages/vue-grab/src/modules/agent-manager.ts:136-141 | only the controller of that session is signalled, if it has one |
| AgentManager.AbortAll | packages/vue-grab/src/modules/agent-manager.ts:143-147 | every controller is dropped and the session map is emptied; element entries stay |
| AgentManager.Dismiss | packages/vue-grab/src/modules/agent-manager.ts:149-153 | the session and its element entry are removed and one overlay clean-up is requested; the controller is left alone |
| AgentManager.DismissAll | packages/vue-grab/src/modules/agent-manager.ts:204-207 | dismissing a list removes exactly those sessions and element entries, with one clean-up per entry |
| AgentManager.Reposition | packages/vue-grab/src/modules/agent-manager.ts:183-190 | the new position keeps its horizontal offset from the selection centre and its vertical position |
| AgentManager.Moved | packages/vue-grab/src/modules/agent-manager.ts:192-196 | a moved session has the new bounds and differs from the old one only in bounds and position |
| AgentManager.Dead | packages/vue-grab/src/modules/agent-manager.ts:198-201 | the dismissed ids are exactly those whose element is gone |
| AgentManager.MovedAll | packages/vue-grab/src/modules/agent-manager.ts:170-197 | the copied map moves every live session and keeps every dead one unchanged |
| AgentManager.Viewport | packages/vue-grab/src/modules/agent-manager.ts:165-212 | with no sessions nothing happens; dead sessions lose their element entries and overlays; if any session was live, the copy, dead ones included, is written back |
| AgentManager.ViewportKeepsOffset | packages/vue-grab/src/modules/agent-manager.ts:183-196 | a live session keeps its offset from the selection centre and gets the new bounds |
| AgentManager.ViewportNoneLive | packages/vue-grab/src/modules/agent-manager.ts:198-211 | when no element is live, every session is dismissed and consistency is kept |
| AgentManager.ViewportRestoresDismissed | packages/vue-grab/src/modules/agent-manager.ts:204-211 | when some session is live, the write-back restores a dismissed session whose element is gone |
| AgentManager.ViewportBreaksConsistency | packages/vue-grab/src/modules/agent-manager.ts:204-211 | so afterwards a stored session has no element entry |
| AgentManager.ViewportConsistentWhenAllLive | packages/vue-grab/src/modules/agent-manager.ts:165-212 | with every element live consistency is kept, and in every case no terminal flag moves back |
| AgentManager.MovedSettled | packages/vue-grab/src/modules/agent-manager.ts:192-196 | moving sessions keeps their streaming, error and rendered flags |
| AgentManager.MovedIds | packages/vue-grab/src/modules/agent-manager.ts:192-196 | moving a session keeps its id |
| AgentManager.NoneDead | packages/vue-grab/src/modules/agent-manager.ts:173-201 | with every element live nothing is dismissed |
| Renderer.Decide | packages/vue-grab/src/modules/renderer.ts:25-46 | streaming sessions get a loading render with their elapsed time; an unrendered error renders once as a timeout or an error with its message; an unrendered completion renders once as done; everything else is skipped |
| Renderer.ResultRenderedOnce | packages/vue-grab/src/modules/renderer.ts:32-46 | after a result render the session is marked and no later frame renders a result for it |
| Renderer.StreamingNeverMarked | packages/vue-grab/src/modules/renderer.ts:25-31 | a streaming session is never marked and is re-rendered with a fresh elapsed time |
| Renderer.Draw | packages/vue-grab/src/modules/renderer.ts:22-48 | one render per snapshot session in iteration order, each decided from the snapshot; the stored ids never change |
| Renderer.DrawMarks | packages/vue-grab/src/modules/renderer.ts:22-48 | after the loop every snapshot session carries its mark and every other one is unchanged |
| Renderer.RenderSessions | packages/vue-grab/src/modules/renderer.ts:8-55 | timer entries survive only for stored sessions without a result now; the pass reports whether any session streams |
| Renderer.RenderSessionsMarks | packages/vue-grab/src/modules/renderer.ts:22-48 | one pass marks every drawn result and moves no flag back |
| Renderer.StartLoop | packages/vue-grab/src/modules/renderer.ts:69-73 | a frame is requested only when none is pending, so exactly one is pending afterwards |
| Renderer.StopLoop | packages/vue-grab/src/modules/renderer.ts:75-80 | the recorded frame is cancelled and nothing is pending |
| Renderer.Tick | packages/vue-grab/src/modules/renderer.ts:57-67 | after a frame fires, a frame is pending exactly when sessions are stored, and never more than one |
| Renderer.LoopRearms | packages/vue-grab/src/modules/renderer.ts:52-67 | the stop inside the pass is undone: the loop re-arms while any session, finished or not, is stored |
| Renderer.Step | packages/vue-grab/src/modules/renderer.ts:57-67 | a full frame leaves a pending frame exactly when the store is non-empty |
| Overlay.HexVal | packages/vue-grab/src/modules/overlay.ts:14-16 | a hex digit's value is below 16 |
| Overlay.HexPrefix | packages/vue-grab/src/modules/overlay.ts:14-16 | `parseInt` reads the longest prefix of hex digits |
| Overlay.Slice | packages/vue-grab/src/modules/overlay.ts:14-16 | a slice is at most b-a long and is the exact sub-sequence when in range |
| Overlay.Doubled | packages/vue-grab/src/modules/overlay.ts:8-12 | every character of the short form appears twice in a row |
| Overlay.ClampAlpha | packages/vue-grab/src/modules/overlay.ts:17 | alpha is clamped into [0, 1] and kept when already inside |
| Overlay.OnlyFirstHashDropped | packages/vue-grab/src/modules/overlay.ts:6 | only the first '#' is removed from the colour |
| Overlay.ShortFormIsDoubled | packages/vue-grab/src/modules/overlay.ts:5-13 | a three-digit colour gives the same channels as its doubled six-digit form, with or without '#' |
| Overlay.HexPairValue | packages/vue-grab/src/modules/overlay.ts:14-16 | two hex digits parse to 16 times the first digit plus the second |
| Overlay.ChannelsInRange | packages/vue-grab/src/modules/overlay.ts:5-18 | for six hex digits each channel is the byte of its digit pair, so it lies in 0..255, and alpha lies in [0, 1] |
| Overlay.RgbaChannels | packages/vue-grab/src/modules/overlay.ts:14-17 | the channels are read from digit pairs 0-2, 2-4 and 4-6 of the six-digit form |
| Overlay.ChannelValue | packages/vue-grab/src/modules/overlay.ts:14-16 | a digit pair parses to its byte value |
| Overlay.Suffix | packages/vue-grab/src/modules/overlay.ts:152 | a non-empty session id gives "-id", and anything else the hover overlay's empty suffix |
| Overlay.SelectedIff | packages/vue-grab/src/modules/overlay.ts:220-226 | `.vg-element<suffix>` selects exactly the nodes created with that suffix |
| Overlay.EnsureParts | packages/vue-grab/src/modules/overlay.ts:150-217 | the existing nodes are kept; new nodes carry the suffix, start hidden, and every listed part exists afterwards |
| Overlay.Ensure | packages/vue-grab/src/modules/overlay.ts:150-218 | after `ensureOverlay` all five parts exist for the suffix and no earlier node changed |
| Overlay.Hide | packages/vue-grab/src/modules/overlay.ts:220-227 | exactly the selected nodes become invisible and nothing else changes |
| Overlay.HideIsolated | packages/vue-grab/src/modules/overlay.ts:220-227 | hiding one session leaves the nodes of other suffixes alone |
| Overlay.HideHoverIsolated | packages/vue-grab/src/modules/overlay.ts:220-227 | hiding the hover overlay leaves session nodes alone |
| Overlay.CleanupPicksIff | packages/vue-grab/src/modules/overlay.ts:577-597 | the four clean-up selectors together pick a node exactly when its class name contains the id |
| Overlay.CleanupHide | packages/vue-grab/src/modules/overlay.ts:583-598 | the first phase hides exactly the nodes whose class name, including " vg-visible" while shown, the selectors or the id test pick |
| Overlay.CleanupRemove | packages/vue-grab/src/modules/overlay.ts:600-615 | the second phase removes the nodes the selectors match again, and the collected nodes whose class name then contains the id; it keeps the rest |
| Overlay.CleanupReachesLongerIds | packages/vue-grab/src/modules/overlay.ts:592-597 | clean-up for an id also hides a session whose id extends it |
| Overlay.CleanupReachesHover | packages/vue-grab/src/modules/overlay.ts:592-597 | an id such as "box" even hides the hover overlay's box |
| Overlay.CleanupReachesShownNodes | packages/vue-grab/src/modules/overlay.ts:592-597 | since a shown node's class name carries "vg-visible", the clean-up for the id "visible" hides every shown node of every overlay |
| Overlay.LabelTop | packages/vue-grab/src/modules/overlay.ts:265 | the caption sits 24 px above the box but never above 8 px |
| Overlay.Width | packages/vue-grab/src/modules/overlay.ts:274-275 | the first non-zero measured width is used, and otherwise the fallback |
| Overlay.Round | packages/vue-grab/src/modules/overlay.ts:250-251 | rounding gives the nearest integer, with halves rounded up |
| Overlay.RenderOverlay | packages/vue-grab/src/modules/overlay.ts:229-289 | the box is the rectangle; the crosshair is at the cursor or the rounded centre; captions appear only with the tag hint on; the second caption needs non-empty text |
| Overlay.Label2FollowsLabel | packages/vue-grab/src/modules/overlay.ts:272-278 | the second caption starts 8 px right of the measured first caption, on the same line |
| Overlay.LoadingLabelPos | packages/vue-grab/src/modules/overlay.ts:456-466 | the loading caption is placed above the rectangle, or above the box when no rectangle is given |
| Overlay.RenderLoading | packages/vue-grab/src/modules/overlay.ts:439-493 | "Loading.." on the caption and the elapsed text on the second caption, 8 px to its right |
| Overlay.ResultBanner | packages/vue-grab/src/modules/overlay.ts:532-545 | done, timeout and error banners with their texts and colours; an error without a message reads "× Error" |
| Overlay.ResultLabelPos | packages/vue-grab/src/modules/overlay.ts:509-527 | without a rectangle the previous caption position is reused, each coordinate falling back to the box when it is 0 |
| Overlay.RenderResult | packages/vue-grab/src/modules/overlay.ts:495-551 | the banner is shown on the caption and the second caption is hidden and emptied |
| Overlay.InputLayout | packages/vue-grab/src/modules/overlay.ts:301-343 | the box is placed only when it is still at 0,0,0,0; the caption reads "Wait.." above the rectangle; the input sits 8 px to its right |
| Dom.OwnerIndex | packages/vue-grab/src/modules/dom.ts:8-14 | the nearest ancestor-or-self with a Vue instance, and none nearer |
| Dom.NearestOwner | packages/vue-grab/src/modules/dom.ts:8-14 | the chain is empty exactly when no ancestor has an instance; otherwise it is that of the nearest one |
| Dom.ComponentChain | packages/vue-grab/src/modules/dom.ts:6-24 | the component chain is empty exactly when no ancestor-or-self has a Vue instance |
| Dom.NearestOwnerSkip | packages/vue-grab/src/modules/dom.ts:11-14 | an element without an instance does not change the nearest owner |
| Dom.NearestOwnerWalk | packages/vue-grab/src/modules/dom.ts:8-14 | the climbing loop finds the nearest owner |
| Dom.ComponentChainWalk | packages/vue-grab/src/modules/dom.ts:6-24 | the two loops build the component chain, root component first |
| Dom.Names | packages/vue-grab/src/modules/dom.ts:28 | one name per component, "Anonymous" for a missing or empty name |
| Dom.Files | packages/vue-grab/src/modules/dom.ts:29 | exactly the present, non-empty files, and none when no component has one |
| Dom.FormatVueChainShape | packages/vue-grab/src/modules/dom.ts:26-33 | the empty chain reads "(no vue component)"; otherwise "Vue: " and the names, with a "Files:" line only when some file is known |
| Dom.ClassTokens | packages/vue-grab/src/modules/dom.ts:133 | splitting a class attribute never yields an empty list |
| Dom.Take2 | packages/vue-grab/src/modules/dom.ts:134 | at most the first two class tokens, in order |
| Dom.Segments | packages/vue-grab/src/modules/dom.ts:129-137 | one segment per element of the path |
| Dom.CssPathStructure | packages/vue-grab/src/modules/dom.ts:126-139 | the path of one element is its segment, and a child adds " > " and its own segment |
| Dom.CssPathWalk | packages/vue-grab/src/modules/dom.ts:126-139 | the upward walk that prepends segments gives the CSS path |
| Dom.GetLocatorData | packages/vue-grab/src/modules/dom.ts:35-54 | lower-case tag; id only when non-empty; class tokens non-empty, white-space free, and joined with blanks equal to the normalised class attribute; the CSS path; text of at most 163 characters; the component chain |
| Dom.ClassListAndSegment | packages/vue-grab/src/modules/dom.ts:39-42 | the class list is empty exactly for a blank class attribute, whose segment then ends in a bare "." |
| Dom.ClassListJoin | packages/vue-grab/src/modules/dom.ts:39-42 | the class list is the tokens of the class attribute: joined with single blanks they give the attribute trimmed and with white-space runs collapsed |
| Dom.LocatorTextSnippet | packages/vue-grab/src/modules/dom.ts:44-45 | the locator text is the normalised text, cut after 160 characters (code points) and followed by "..." |
| Dom.SnippetText | packages/vue-grab/src/modules/dom.ts:162-163 | the snippet's text is at most 63 characters |
| Dom.AncestorLines | packages/vue-grab/src/modules/dom.ts:147-161 | one line per ancestor, root first, the i-th indented by 2i blanks |
| Dom.TextLine | packages/vue-grab/src/modules/dom.ts:162-165 | the text line is left out exactly when the normalised text is empty |
| Dom.SnippetLines | packages/vue-grab/src/modules/dom.ts:141-166 | three header lines, one tree line per ancestor, and the optional text line |
| Dom.AncestorLinesBuild | packages/vue-grab/src/modules/dom.ts:147-161 | the collect-then-emit loops give the ancestor lines |
| Dom.HtmlSnippetBuild | packages/vue-grab/src/modules/dom.ts:141-166 | the imperative construction gives the snippet |
| Dom.SnippetLayout | packages/vue-grab/src/modules/dom.ts:141-166 | the lines in order: chain line, path line, blank, tree, text |
| Dom.LowerAll | packages/vue-grab/src/modules/dom.ts:87 | the ignore tags are lower-cased one by one |
| Dom.SelectorsMatch | packages/vue-grab/src/modules/dom.ts:94-106 | true exactly when a non-empty selector matches before any earlier selector throws |
| Dom.IgnoreTagCaseInsensitive | packages/vue-grab/src/modules/dom.ts:87-91 | a tag is ignored whatever its case in the rule or the page |
| Dom.IgnoreWalk | packages/vue-grab/src/modules/dom.ts:84-116 | the nearest ancestor-or-self not ignored, with every element below it ignored, or none when all are |
| Dom.ElementAtMouse | packages/vue-grab/src/modules/dom.ts:56-119 | the result is an ancestor-or-self of the hit that is not ignored, everything skipped was ignored, and nothing is found only when every element was |
| Dom.NoRulesKeepsHit | packages/vue-grab/src/modules/dom.ts:86-115 | with the default rules the hit element itself is returned |
| LegacyDom.LegacyElementAtMouse | src/modules/dom.ts:3-6 | the element under the pointer is the hit element itself |
| LegacyDom.LegacyLookupIsUnfiltered | src/modules/dom.ts:3-6 | the legacy lookup is the current one with no ignore rules |
| LegacyDom.LegacySnippetLines | src/modules/dom.ts:28-49 | a path line, a blank, one tree line per ancestor and the optional text line |
| LegacyDom.HtmlSnippetExtendsLegacy | src/modules/dom.ts:28-49 | the current snippet is the legacy one preceded by the component-chain line and a blank line |
| Hotkeys.NormalizeKey | packages/vue-grab/src/modules/hotkeys.ts:3 | normalisation keeps the key's length, with case mapping limited to ASCII letters |
| Hotkeys.NormalizeKeyProperties | packages/vue-grab/src/modules/hotkeys.ts:3 | exactly the one-character keys are mapped, by ASCII lower-casing; named keys pass through; normalising is idempotent |
| Hotkeys.DefaultHotkey | packages/vue-grab/src/modules/hotkeys.ts:5-9 | the default is a named modifier followed by a "c" key |
| Hotkeys.DefaultHotkeyCases | packages/vue-grab/src/modules/hotkeys.ts:5-9 | Meta+C without a navigator, Meta+c on a Mac platform, Control+c elsewhere |
| Hotkeys.NormalizedKeys | packages/vue-grab/src/modules/hotkeys.ts:19-20 | a single key becomes a one-element list, and every entry is normalised |
| Hotkeys.AnyHeldMeaning | packages/vue-grab/src/modules/hotkeys.ts:30 | "some key held" means there is a held entry |
| Hotkeys.AllHeldMeaning | packages/vue-grab/src/modules/hotkeys.ts:34 | "every key held" means each entry is held |
| Hotkeys.AllSingleCharMeaning | packages/vue-grab/src/modules/hotkeys.ts:29 | "all single letters" means every entry has length one |
| Hotkeys.IsComboPressed | packages/vue-grab/src/modules/hotkeys.ts:17-35 | a list of one-character keys is pressed when any is held; anything else needs all keys held |
| Hotkeys.OrAndSemantics | packages/vue-grab/src/modules/hotkeys.ts:27-34 | both readings stated over the held-key set, for lists of letters and for everything else |
| Hotkeys.EmptyListNeverActive | packages/vue-grab/src/modules/hotkeys.ts:29-31 | an empty key list is never active |
| Hotkeys.HoldMsIgnored | packages/vue-grab/src/modules/hotkeys.ts:17-18 | the hold duration changes nothing: the decision depends on the held keys only |
| Hotkeys.ComboMonotone | packages/vue-grab/src/modules/hotkeys.ts:17-35 | holding more keys never deactivates an active hotkey |
| Hotkeys.DefaultHotkeyIsAndCombo | packages/vue-grab/src/modules/hotkeys.ts:5-34 | the default hotkey needs both its modifier and "c" held |
| Hotkeys.KeyDown | packages/vue-grab/src/index.ts:310-312 | the normalised key is held and stamped with the time, and other keys are unchanged |
| Hotkeys.KeyUp | packages/vue-grab/src/index.ts:331 | only the normalised key is released, and the timestamps stay |
| Hotkeys.KeyDownUpReleases | packages/vue-grab/src/index.ts:310-331 | a key pressed and released as its ASCII upper- or lower-case variant is no longer held |
| LegacyHotkeys.Modifiers | src/modules/hotkeys.ts:18 | the modifiers are exactly the keys other than "c" |
| LegacyHotkeys.IsComboPressed | src/modules/hotkeys.ts:15-26 | with "c" in the combo, the other keys must be held and "c" held or pressed within 800 ms; without it, all keys must be held |
| LegacyHotkeys.CaseInsensitive | src/modules/hotkeys.ts:16-18 | "C" and "c" in a combo behave identically |
| LegacyHotkeys.ReleasedModifierDeactivates | src/modules/hotkeys.ts:19-23 | releasing any modifier deactivates the combo, however recent "c" was |
| LegacyHotkeys.NoTriggerIgnoresTime | src/modules/hotkeys.ts:25 | without "c" in the combo, timestamps and the clock play no part |
| LegacyHotkeys.RecencyBoundary | src/modules/hotkeys.ts:22 | recency is strict: a press exactly 800 ms ago no longer counts, one 799 ms ago does, and no press counts only before time 800 |
| LegacyHotkeys.TapWindow | src/modules/hotkeys.ts:20-23 | after a tap of "c" with the modifier held, the default combo stays active exactly until 800 ms after the tap |
| LegacyHotkeys.ComboMonotone | src/modules/hotkeys.ts:15-26 | more held keys or a later "c" press never deactivate the combo |
| Config.Spread | src/modules/config.ts:39-46 | a key present in the patch overwrites, even with undefined, and an absent one keeps its value |
| Config.UpdateConfig | src/modules/config.ts:39-46 | top-level keys follow the spread, and a missing or undefined nested patch keeps highlight and filter |
| Config.NestedMergeKeywise | src/modules/config.ts:43-44 | nested keys merge one by one: absent ones keep their old value, and present ones, undefined included, overwrite |
| Config.EmptyPatchIdentity | src/modules/config.ts:39-46 | the empty patch changes nothing |
| Config.UpdateIdempotent | src/modules/config.ts:39-46 | applying a patch twice is the same as applying it once |
| Config.DefaultValues | src/modules/config.ts:19-35 | the initial colours, tag hint and filter as the source states them |
| Controller.DefaultEndpoint | packages/vue-grab/src/index.ts:38-41 | every agent type has a non-empty default endpoint |
| Controller.ResolveAgent | packages/vue-grab/src/index.ts:52-65 | opencode without an API key and a provider is dropped; otherwise a non-empty endpoint wins over the default and the other fields are kept |
| Controller.Init | packages/vue-grab/src/index.ts:45-80 | `enabled: false` makes init inert; otherwise the hotkey and hold duration default, and the agent is resolved |
| Controller.InitConfig | packages/vue-grab/src/index.ts:68-80 | init sets exactly the given colours, falling back to the defaults when drawn, and the given filter; the tag hint and locator block are on unless switched off |
| Controller.OpencodeNeedsCredentials | packages/vue-grab/src/index.ts:61-65 | the agent survives init exactly unless it is opencode missing a key or a provider |
| Controller.EndpointTables | packages/vue-grab/src/index.ts:38-41 | this table and the provider's agree on claude and differ on opencode |
| Controller.RequestAgentConfig | packages/vue-grab/src/index.ts:198-202 | serialisation keeps exactly the defined provider, model and API key |
| Controller.RequestMatchesProvider | packages/vue-grab/src/index.ts:191-203 | without empty strings, the posted request equals the one the provider module posts |
| Controller.Unwrap | packages/vue-grab/src/index.ts:298-300 | a successful unwrap gives the body that, wrapped again, is the input |
| Controller.UnwrapBlock | packages/vue-grab/src/index.ts:298-300 | unwrapping a block gives back its body |
| Controller.Blocks | packages/vue-grab/src/index.ts:300 | the copied text splits into its locator part and its snippet part |
| Controller.PayloadRoundTrip | packages/vue-grab/src/index.ts:296-300 | the snippet, and the locator JSON when enabled, can be read back from the copied text |
| Controller.CancelUi | packages/vue-grab/src/index.ts:97-105 | cancelling only acts while interacting: flags cleared, overlay hidden, render key reset |
| Controller.KeyDown | packages/vue-grab/src/index.ts:309-329 | the key is recorded; outside an interaction, a hovered element is drawn exactly when the hotkey or Ctrl+X is active |
| Controller.KeyUp | packages/vue-grab/src/index.ts:330-334 | the key is released, and outside an interaction the overlay is hidden once nothing is active |
| Controller.MouseMove | packages/vue-grab/src/index.ts:111-118 | ignored while interacting; otherwise a frame is pending |
| Controller.HoverFrame | packages/vue-grab/src/index.ts:117-141 | the frame records the hovered element; while active it draws only a new render key; otherwise it hides and resets the key |
| Controller.HoverDrawsOnce | packages/vue-grab/src/index.ts:121-136 | moving over the same box and tag draws once |
| Controller.Click | packages/vue-grab/src/index.ts:145-307 | a click while interacting cancels unless waiting; Ctrl+X over an element opens the prompt; otherwise the active hotkey offers the payload to the clipboard; only when the write succeeds is the overlay hidden and the adapter given the locator JSON |
| Controller.CtrlXActivates | packages/vue-grab/src/index.ts:107-159 | Ctrl+X alone makes the overlay active and a Control-click prompts |
| Controller.ClickDuringPrompt | packages/vue-grab/src/index.ts:145-150 | while a submitted prompt has no outcome a click changes nothing; afterwards it cancels |
| Controller.Teardown | packages/vue-grab/src/index.ts:341-349 | clean-up cancels both pending frames and hides the overlay |
| Interaction.Conclude | packages/vue-grab/src/index.ts:236-239 | taking the outcome sets done, stops waiting, cancels the timer frame and draws one result |
| Interaction.Cancel | packages/vue-grab/src/index.ts:97-105 | cancelling ends a running interaction and clears the overlay without drawing a result |
| Interaction.Begin | packages/vue-grab/src/index.ts:154-160 | the interaction starts with only the input box drawn |
| Interaction.Submit | packages/vue-grab/src/index.ts:160-186 | the first submit call starts waiting and the timer; without an endpoint it concludes "done" at once with a 1 s dismissal; later calls are ignored |
| Interaction.Tick | packages/vue-grab/src/index.ts:165-183 | the timer does nothing once cancelled or done; past 30 s it concludes with a timeout and schedules a dismissal; otherwise it shows the elapsed time |
| Interaction.Shown | packages/vue-grab/src/index.ts:269 | the error text is the message, or "Network Error" when that is empty |
| Interaction.Fail | packages/vue-grab/src/index.ts:264-277 | a failure after the outcome changes nothing; otherwise the error is shown once and a dismissal scheduled |
| Interaction.Respond | packages/vue-grab/src/index.ts:204-212 | a response after the outcome is ignored; without a body it fails; otherwise reading starts with event "message" |
| Interaction.ErrorText | packages/vue-grab/src/index.ts:231-234 | an error line throws with the raw data, or with the JSON message |
| Interaction.StatusText | packages/vue-grab/src/index.ts:241-248 | the provider's preview, cut after 30 characters (code points) and followed by "..." |
| Interaction.LineAsWritten | packages/vue-grab/src/index.ts:222-250 | only an "error" data line ends the read, and reading keeps its response fields |
| Interaction.Line | packages/vue-grab/src/index.ts:222-250 | the line handler with a done guard: identical before the outcome, drawing no result after it |
| Interaction.LineSound | packages/vue-grab/src/index.ts:222-250 | with the done guard, a line keeps the outcome shown at most once |
| Interaction.Lines | packages/vue-grab/src/index.ts:222-251 | a batch of lines keeps the response fields and either keeps reading or has thrown |
| Interaction.LinesAppend | packages/vue-grab/src/index.ts:222-251 | lines run in order: a second batch continues where the first left off, unless a line of the first threw |
| Interaction.LineBufferIndependent | packages/vue-grab/src/index.ts:222-250 | the line handler does not depend on the line buffer |
| Interaction.LinesBufferIndependent | packages/vue-grab/src/index.ts:222-251 | a batch of lines does not depend on the line buffer |
| Interaction.LinesSound | packages/vue-grab/src/index.ts:222-251 | with the done guard, a batch of lines keeps the outcome shown at most once |
| Interaction.Chunk | packages/vue-grab/src/index.ts:214-221 | outside reading nothing happens; otherwise the buffer becomes the remainder of buffer plus chunk, unless a line threw, and the response fields are kept |
| Interaction.ChunkConcat | packages/vue-grab/src/index.ts:214-251 | two chunks in a row act exactly as their concatenation, so where the body is cut does not matter |
| Interaction.End | packages/vue-grab/src/index.ts:254-262 | a failed response without an outcome fails with "Server Error: "; otherwise a dismissal is scheduled |
| Interaction.Dismiss | packages/vue-grab/src/index.ts:258-262 | the earliest dismissal cancels the interaction if it is still running |
| Interaction.Click | packages/vue-grab/src/index.ts:146-150 | a click while interacting is ignored while waiting and cancels otherwise |
| Interaction.SubmitSound | packages/vue-grab/src/index.ts:160-186 | a single submit call keeps the outcome shown at most once |
| Interaction.TickSound | packages/vue-grab/src/index.ts:165-183 | the timer keeps the outcome shown at most once |
| Interaction.FailSound | packages/vue-grab/src/index.ts:264-277 | a failure keeps the outcome shown at most once |
| Interaction.RespondSound | packages/vue-grab/src/index.ts:204-208 | a response keeps the outcome shown at most once |
| Interaction.EndSound | packages/vue-grab/src/index.ts:254-262 | the end of the body keeps the outcome shown at most once |
| Interaction.CancelSound | packages/vue-grab/src/index.ts:97-105 | cancelling keeps the outcome shown at most once |
| Interaction.StepSound | packages/vue-grab/src/index.ts:160-286 | with the done guard and one submit call per Enter, every event keeps the outcome shown at most once |
| Interaction.RunSound | packages/vue-grab/src/index.ts:160-286 | with the done guard and one submit call per Enter, any event sequence keeps the outcome shown at most once |
| Interaction.OutcomeShownOnce | packages/vue-grab/src/index.ts:154-286 | with the done guard and one submit call per Enter, from the Ctrl+X click on at most one result banner is drawn, whatever happens |
| Interaction.ClickCancelsOnlyAfterOutcome | packages/vue-grab/src/index.ts:146-150 | a click leaves a submitted interaction alone exactly until its outcome, then ends it |
| Interaction.EndWithoutOutcome | packages/vue-grab/src/index.ts:254-262 | an ok body without "done" draws no result and is simply dismissed |
| Interaction.DoneEventConcludes | packages/vue-grab/src/index.ts:235-239 | a "done" event followed by a data line concludes with "done" |
| Interaction.ErrorLineConcludes | packages/vue-grab/src/index.ts:231-234 | an "error" data line concludes with its message |
| Interaction.TimeoutConcludes | packages/vue-grab/src/index.ts:168-178 | past 30 s the timer concludes with a timeout |
| Interaction.DoneLinesAsWritten | packages/vue-grab/src/index.ts:235-239 | as written, a "done" event and a data line always draw a result, done or not |
| Interaction.SecondOutcomeAsWritten | packages/vue-grab/src/index.ts:235-239 | as written, a "done" line after the timeout draws a second result |
| Interaction.DoneEventLine | packages/vue-grab/src/index.ts:227-228 | "event: done" is an event line named "done" |
| Interaction.OkDataLine | packages/vue-grab/src/index.ts:229-230 | "data: ok" is a data line |
| Interaction.SecondOutcomeExample | packages/vue-grab/src/index.ts:235-248 | the concrete lines "event: done" and "data: ok" after the timeout draw two results |
| Interaction.NoSecondOutcome | packages/vue-grab/src/index.ts:235-248 | with the guard, the same lines draw no second result |
| Interaction.CallWithoutEndpoint | packages/vue-grab/src/index.ts:160-286 | one run of the submit callback without an endpoint takes "Done" as its own outcome, whatever the phase, and schedules a 1 s dismissal |
| Interaction.SubmitIsOneCall | packages/vue-grab/src/index.ts:160-286 | in the typing phase, the modelled submit is exactly one run of that callback |
| Interaction.EnterAsWritten | packages/vue-grab/src/modules/overlay.ts:350-432 | as written, one Enter runs the callback once per keydown listener, twice, and draws two more banners |
| Interaction.DoubleSubmitExample | packages/vue-grab/src/modules/overlay.ts:350-432 | a Ctrl+X click and one Enter with no endpoint draw two "Done" banners |
| Interaction.SingleSubmitShowsOnce | packages/vue-grab/src/modules/overlay.ts:350-432 | with one call per Enter the same input draws one banner and the interaction stays sound |
| LegacyController.LegacyInit | src/index.ts:179-186 | `enabled: false` makes init inert; otherwise the hotkey and hold duration take their defaults |
| LegacyController.MouseMove | src/index.ts:192-202 | the hovered element is the hit; it is drawn while active, and otherwise the overlay is hidden |
| LegacyController.EveryMoveDraws | src/index.ts:192-202 | every move over the same element draws again |
| LegacyController.KeyDown | src/index.ts:217-224 | the key is recorded, and a hovered element is drawn exactly when active |
| LegacyController.KeyUp | src/index.ts:225-228 | the key is released and the overlay hidden once inactive |
| LegacyController.Click | src/index.ts:204-215 | a click offers text only with a hovered element and an active combo; the offered block unwraps to the legacy snippet; the adapter gets the snippet exactly when the clipboard write succeeds |
| LegacyController.ClipboardIsPayloadWithoutLocator | src/index.ts:212 | the copied text is the current package's with the locator block off |
| LegacyController.HoldDurationIgnored | src/index.ts:185 | no handler depends on the hold duration |
| LegacyController.TapThenClick | src/index.ts:166-177 | after a tap of "c" with the modifier held, a click copies exactly within 800 ms of the tap |

## Left out

- Rendering, styling and DOM mutation of the overlay are left out, as are the toast, the spinner and the fade animation. Only geometry, texts, colours and node visibility are modelled.
- The `rgba(...)` text of `hexToRGBA` is left out: the model returns its four arguments. A NaN alpha is not modelled, because reals have no NaN.
- `toFixed` formatting of elapsed seconds is left out. Elapsed times are integer milliseconds, because floating point is outside the model.
- `Math.round` and all geometry are exact reals. Floating-point rounding is not modelled.
- `getBoundingClientRect`, `document.elementFromPoint`, `document.contains`, `performance.now`, `Date.now`, `requestAnimationFrame` and `setTimeout` are left out. Their results are parameters or recorded requests.
- The see-through loop of `getElementAtMouse` (dom.ts:60-82) is left out, because it hides vue-grab's own shadow host and asks the browser again. The hit passed in is already the page element.
- `JSON.parse` is left out: it is a parameter that returns only the `type` and `message` fields the readers use.
- `JSON.stringify` of the locator is left out: the locator JSON is an opaque string parameter of `Controller.Click`.
- The element lookup, snippet and locator are not computed inside `Controller.Click`: they are passed in as values. `Controller.HoverFrame` takes the looked-up target, and the caption's component chain and cursor are not part of the UI record.
- `TextDecoder` is left out: chunks are already decoded text.
- The server at the far end of the request is left out: responses are event sequences.
- Any consumer of the provider's generator other than the agent manager is left out. Stopping the consumer is modelled per chunk, not per yielded preview.
- Interaction.Submit: models one run of the submit callback per Enter, as intended. As written, Enter runs it twice (see Findings). With an endpoint, the two concurrent requests and timers of the doubled call are not modelled; `Interaction.EnterAsWritten` models the doubled call without an endpoint only.
- Interaction.OutcomeShownOnce: holds for one submit call per Enter and for the line handler with its `done` guard; the source as written breaks it in both places (see Findings).
- Interaction.SubmitSound: holds under one submit call per Enter, like `Interaction.OutcomeShownOnce`.
- Interaction.StepSound: holds under one submit call per Enter, like `Interaction.OutcomeShownOnce`.
- Interaction.RunSound: holds under one submit call per Enter, like `Interaction.OutcomeShownOnce`.
- Interaction.LineSound: holds for the line handler with the `done` guard, not for the handler as written (see Findings).
- Interaction.LinesSound: holds for the line handler with the `done` guard, not for the handler as written (see Findings).
- Text.Lower: only ASCII letters are lower-cased; JavaScript's `toLowerCase` also maps other letters, which the model keeps as they are.
- Text.Truncate: lengths count characters (code points), while JavaScript counts UTF-16 code units, so text with astral characters is cut at a different place.
- Hotkeys.NormalizeKey: only ASCII letters are lower-cased, and a key is one character when it is one code point; an astral key (two UTF-16 units) counts as one character here but not in the source.
- Hotkeys.NormalizeKeyProperties: stated for ASCII case mapping and code-point lengths, like `Hotkeys.NormalizeKey`.
- Hotkeys.KeyDownUpReleases: stated for ASCII case mapping only.
- Dom.LocatorTextSnippet: the 160-character cut counts code points, not UTF-16 units.
- Interaction.StatusText: the 30-character cut counts code points, not UTF-16 units.
- Dom.SnippetText: the 60-character cut counts code points, not UTF-16 units.
- Hotkeys.AllSingleCharMeaning: "length one" means one code point; an astral key, two UTF-16 units long, is a letter here but not in the source.
- Overlay.CleanupHide: the picked set is exact for ids and part names without white space, as for `Overlay.ClassName`.
- Overlay.ClassName: ids and part names are assumed free of white space; an id with white space or CSS-special characters, which the source would put into a class name or selector as is, is not modelled.
- The outside-click and Escape cancellation inside `renderInput` is left out. A click is modelled by `Interaction.Click`.
- An earlier interaction's request that is still running when a new one starts is not modelled. Each `Interaction.Prompt` is one interaction.
- Re-initialisation, where `activeCleanup` runs a previous `init`'s clean-up, is not modelled.
- `undoSession` is not modelled separately, because it only calls `dismissSession`.
- The `catch` branch of `startSession` (agent-manager.ts:75-79) is left out: calling an async generator never throws there.
- `lastDisplayedSeconds` in renderer.ts is left out: it only ever has entries deleted, so it stays empty. The model keeps the deletions on an arbitrary map.
- `Store.UpdateSession`: patches never carry an explicit `undefined`; the merge is otherwise exact.
- `AgentManager.Start`: starting a second session with an id already in use is not modelled; generated ids are opaque strings passed in.
- `Dom.ClassTokens`: the class attribute is a plain string; SVG elements, whose `className` is not a string, are not modelled.
- `packages/vue-grab/src/modules/config.ts` is not part of this model. `Config` follows `src/modules/config.ts` with `includeLocatorTag` added as a top-level key, which the current entry point sets.
- `Hotkeys.IsComboPressed` models the current package's test only. `LegacyController` uses `LegacyHotkeys.IsComboPressed`, which is identical to the copy in `src/index.ts`.

## Findings

| source | as written | input that shows it | evidently intended | confidence | as-written member | corrected member |
|---|---|---|---|---|---|---|
| packages/vue-grab/src/index.ts:235-248 | the "done" and preview branches of the stream loop do not check `done`, so a "done" event still draws a result after the 30 s timeout has drawn one | a response body still open after 30 s that then carries "event: done" and "data: ok" | an interaction shows at most one result banner, as the `done` checks elsewhere (lines 166, 206, 265) ensure | medium, not executed | Interaction.SecondOutcomeExample | Interaction.NoSecondOutcome |
| packages/vue-grab/src/modules/overlay.ts:350-432 | two keydown listeners on the prompt input each call the submit callback on Enter, so one Enter submits twice | a Ctrl+X click on an element, then Enter with no agent endpoint configured | one submit per Enter, so one "Done" banner | high, not executed | Interaction.DoubleSubmitExample | Interaction.SingleSubmitShowsOnce |
