/** The entry point of the original single-package build: the overlay is
    drawn on every mouse move and key press while the combo is active, and a
    click while active copies the element's snippet. There is no prompt, no
    agent and no render de-duplication. */
module LegacyController {
  import opened Wrappers
  import Hotkeys
  import LegacyHotkeys
  import Dom
  import LegacyDom
  import Controller

  /** The options of this `init`; the adapter is the clipboard consumer and
      is modelled by the text it receives. */
  datatype LegacyOptions = LegacyOptions(enabled: Option<bool>, hotkey: Option<Hotkeys.HotkeySpec>, keyHoldDuration: Option<int>)

  /** The resolved options; `keyHoldDuration` is resolved and never read. */
  datatype LegacyResolved = LegacyResolved(hotkey: Hotkeys.HotkeySpec, keyHoldDuration: int)

  /** This build's default hotkey has no platform argument. */
  function LegacyInit(o: LegacyOptions, platform: Option<string>): (r: Option<LegacyResolved>)
    ensures r.None? <==> o.enabled == Some(false)
    ensures r.Some? ==> r.value.hotkey == (if o.hotkey.Some? then o.hotkey.value else Hotkeys.Keys(Hotkeys.DefaultHotkey(platform)))
    ensures r.Some? ==> r.value.keyHoldDuration == (if o.keyHoldDuration.Some? then o.keyHoldDuration.value else Controller.DefaultKeyHoldMs)
  {
    if o.enabled == Some(false) then None
    else Some(LegacyResolved(if o.hotkey.Some? then o.hotkey.value else Hotkeys.Keys(Hotkeys.DefaultHotkey(platform)), o.keyHoldDuration.GetOr(Controller.DefaultKeyHoldMs)))
  }

  /** The handlers' state: held keys, the hovered element (its path from the
      root), what the overlay shows (`None`: hidden) and how often it was
      drawn. */
  datatype LegacyUi = LegacyUi(keys: Hotkeys.KeyState, hovered: Option<seq<Dom.Element>>, shown: Option<seq<Dom.Element>>, draws: nat)

  /** A hovered element always has a path. */
  predicate Wf(u: LegacyUi) {
    u.hovered.Some? ==> |u.hovered.value| > 0
  }

  const Start: LegacyUi := LegacyUi(Hotkeys.NoKeys, None, None, 0)

  predicate Active(r: LegacyResolved, keys: Hotkeys.KeyState, now: int) {
    LegacyHotkeys.IsComboPressed(r.hotkey, keys, now)
  }

  /** mousemove, given what the pointer hits: the element becomes the
      hovered one and is drawn while active; otherwise the overlay is
      hidden. */
  function MouseMove(u: LegacyUi, r: LegacyResolved, hit: Option<seq<Dom.Element>>, now: int): (v: LegacyUi)
    ensures Wf(v)
    ensures v.hovered == LegacyDom.LegacyElementAtMouse(hit) && v.keys == u.keys
    ensures v.hovered.Some? && Active(r, u.keys, now) ==> v.shown == v.hovered && v.draws == u.draws + 1
    ensures !(v.hovered.Some? && Active(r, u.keys, now)) ==> v.shown.None? && v.draws == u.draws
  {
    var el := LegacyDom.LegacyElementAtMouse(hit);
    var u1 := u.(hovered := el);
    if el.Some? && Active(r, u.keys, now) then u1.(shown := el, draws := u.draws + 1)
    else u1.(shown := None)
  }

  /** Unlike the current package, every move over the same element draws
      again. */
  lemma EveryMoveDraws(u: LegacyUi, r: LegacyResolved, path: seq<Dom.Element>, now: int)
    requires |path| > 0 && Active(r, u.keys, now)
    ensures var v := MouseMove(u, r, Some(path), now);
      MouseMove(v, r, Some(path), now).draws == u.draws + 2
  {
  }

  /** keydown: the key and its time are recorded; a hovered element is
      drawn while active. */
  function KeyDown(u: LegacyUi, r: LegacyResolved, key: string, now: int): (v: LegacyUi)
    requires Wf(u)
    ensures Wf(v) && v.hovered == u.hovered
    ensures v.keys == Hotkeys.KeyDown(u.keys, key, now)
    ensures v.draws == u.draws + 1 <==> u.hovered.Some? && Active(r, v.keys, now)
    ensures v.draws == u.draws + 1 ==> v.shown == u.hovered
    ensures v.draws != u.draws + 1 ==> v.draws == u.draws && v.shown == u.shown
  {
    var u1 := u.(keys := Hotkeys.KeyDown(u.keys, key, now));
    if u.hovered.Some? && Active(r, u1.keys, now) then u1.(shown := u.hovered, draws := u.draws + 1) else u1
  }

  /** keyup: the key is released and the overlay hidden once inactive. */
  function KeyUp(u: LegacyUi, r: LegacyResolved, key: string, now: int): (v: LegacyUi)
    requires Wf(u)
    ensures Wf(v) && v.hovered == u.hovered && v.draws == u.draws
    ensures v.keys == Hotkeys.KeyUp(u.keys, key)
    ensures !Active(r, v.keys, now) ==> v.shown.None?
    ensures Active(r, v.keys, now) ==> v.shown == u.shown
  {
    var u1 := u.(keys := Hotkeys.KeyUp(u.keys, key));
    if !Active(r, u1.keys, now) then u1.(shown := None) else u1
  }

  /** The copied text: only the referenced-element block. */
  function Clipboard(snippet: string): string {
    Controller.Block(Controller.ReferenceOpen, snippet, Controller.ReferenceClose)
  }

  /** click: with a hovered element and the combo active, the clipboard is
      offered the snippet block and, once it accepted the text, the adapter
      gets the bare snippet; a rejected write ends in the empty `catch`. The
      overlay stays as it is. The result is the text offered and what the
      adapter got. */
  function Click(u: LegacyUi, r: LegacyResolved, clipboardOk: bool, now: int): (res: Option<(string, Option<string>)>)
    requires Wf(u)
    ensures res.Some? <==> u.hovered.Some? && Active(r, u.keys, now)
    ensures res.Some? ==>
      var snippet := LegacyDom.LegacyHtmlSnippet(u.hovered.value);
      && Controller.Unwrap(res.value.0, Controller.ReferenceOpen, Controller.ReferenceClose) == Some(snippet)
      && (res.value.1.Some? <==> clipboardOk)
      && (clipboardOk ==> res.value.1 == Some(snippet))
  {
    if u.hovered.None? || !Active(r, u.keys, now) then None
    else
      var snippet := LegacyDom.LegacyHtmlSnippet(u.hovered.value);
      Controller.UnwrapBlock(Controller.ReferenceOpen, snippet, Controller.ReferenceClose);
      Some((Clipboard(snippet), if clipboardOk then Some(snippet) else None))
  }

  /** The copied text is the current package's with the locator block
      switched off; the adapter gets the snippet, where the current package
      passes the locator JSON. */
  lemma ClipboardIsPayloadWithoutLocator(snippet: string, locatorJson: string)
    ensures Clipboard(snippet) == Controller.Payload(Some(false), locatorJson, snippet)
    ensures Clipboard(snippet) != Controller.Payload(Some(true), locatorJson, snippet)
  {
    var p := Controller.Payload(Some(true), locatorJson, snippet);
    assert |p| == |Controller.LocatorOpen| + |locatorJson| + |Controller.LocatorClose| + |Clipboard(snippet)|;
  }

  /** `keyHoldDuration` changes nothing: every handler gives the same result
      for any hold duration. */
  lemma HoldDurationIgnored(u: LegacyUi, r: LegacyResolved, d: int, key: string, hit: Option<seq<Dom.Element>>, clipboardOk: bool, now: int)
    requires Wf(u)
    ensures var r2 := r.(keyHoldDuration := d);
      && MouseMove(u, r, hit, now) == MouseMove(u, r2, hit, now)
      && KeyDown(u, r, key, now) == KeyDown(u, r2, key, now)
      && KeyUp(u, r, key, now) == KeyUp(u, r2, key, now)
      && Click(u, r, clipboardOk, now) == Click(u, r2, clipboardOk, now)
  {
  }

  /** A tap of "c" with the modifier held lets a click copy for just under
      800 ms after the tap, with the "c" key already released. */
  lemma TapThenClick(u: LegacyUi, modifier: string, t: int, clipboardOk: bool, now: int)
    requires Wf(u) && u.hovered.Some? && |modifier| > 1 && modifier in u.keys.pressed
    ensures var r := LegacyResolved(Hotkeys.Keys([modifier, "c"]), Controller.DefaultKeyHoldMs);
      var tapped := KeyUp(KeyDown(u, r, "c", t), r, "c", t);
      Click(tapped, r, clipboardOk, now).Some? <==> t > now - LegacyHotkeys.TriggerWindowMs
  {
    var r := LegacyResolved(Hotkeys.Keys([modifier, "c"]), Controller.DefaultKeyHoldMs);
    LegacyHotkeys.TapWindow(u.keys, modifier, t, now);
    var tapped := KeyUp(KeyDown(u, r, "c", t), r, "c", t);
    assert tapped.keys == Hotkeys.KeyUp(Hotkeys.KeyDown(u.keys, "c", t), "c");
  }
}
