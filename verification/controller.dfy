/** The entry point of the current package: `init` resolves its options and
    pushes the runtime configuration, then the key, mouse and click
    handlers decide when the hover overlay is drawn or hidden, when a click
    copies the element to the clipboard and when it starts a prompt
    interaction. The DOM, the clipboard and the element lookup are given as
    values; the interaction itself is the `Interaction` module. */
module Controller {
  import opened Wrappers
  import opened Text
  import Hotkeys
  import Config
  import Provider
  import Overlay
  import Interaction

  // ---------------------------------------------------------------------------
  // Options and their resolution

  /** The entry point's own endpoint table; its opencode port differs from
      the provider module's. */
  const ClaudeEndpoint: string := "http://127.0.0.1:3000/api/code-edit"
  const OpencodeEndpoint: string := "http://127.0.0.1:6567/api/code-edit"

  function DefaultEndpoint(t: Provider.AgentType): (e: string)
    ensures e != ""
  {
    match t
    case Claude => ClaudeEndpoint
    case Opencode => OpencodeEndpoint
  }

  const DefaultKeyHoldMs: int := 500

  datatype AgentOptions = AgentOptions(
    agent: Provider.AgentType,
    endpoint: Option<string>,
    provider: Option<string>,
    model: Option<string>,
    apiKey: Option<string>)

  datatype FilterOptions = FilterOptions(
    ignoreSelectors: Option<seq<string>>,
    ignoreTags: Option<seq<string>>,
    skipCommonComponents: Option<bool>)

  /** The options of `init`; `None` is a key that is missing or undefined. */
  datatype Options = Options(
    enabled: Option<bool>,
    hotkey: Option<Hotkeys.HotkeySpec>,
    keyHoldDuration: Option<int>,
    agent: Option<AgentOptions>,
    highlightColor: Option<string>,
    labelTextColor: Option<string>,
    showTagHint: Option<bool>,
    includeLocatorTag: Option<bool>,
    filter: Option<FilterOptions>)

  /** The agent after resolution: the endpoint is always set. */
  datatype Agent = Agent(
    agent: Provider.AgentType,
    endpoint: string,
    provider: Option<string>,
    model: Option<string>,
    apiKey: Option<string>)

  datatype Resolved = Resolved(hotkey: Hotkeys.HotkeySpec, keyHoldDuration: int, agent: Option<Agent>)

  /** The agent part of the resolved options: the endpoint falls back to the
      table when empty, and an opencode agent without an API key or a
      provider is dropped. */
  function ResolveAgent(a: AgentOptions): (r: Option<Agent>)
    ensures r.None? <==> a.agent.Opencode? && (!Provider.Given(a.apiKey) || !Provider.Given(a.provider))
    ensures r.Some? ==> r.value.endpoint != ""
    ensures r.Some? && Provider.Given(a.endpoint) ==> r.value.endpoint == a.endpoint.value
    ensures r.Some? && !Provider.Given(a.endpoint) ==> r.value.endpoint == DefaultEndpoint(a.agent)
    ensures r.Some? ==> r.value.agent == a.agent && r.value.provider == a.provider && r.value.model == a.model && r.value.apiKey == a.apiKey
  {
    var endpoint := if Provider.Given(a.endpoint) then a.endpoint.value else DefaultEndpoint(a.agent);
    if a.agent.Opencode? && (!Provider.Given(a.apiKey) || !Provider.Given(a.provider)) then None
    else Some(Agent(a.agent, endpoint, a.provider, a.model, a.apiKey))
  }

  /** The configuration patch `init` applies: both colours and all three
      filter keys are always present (possibly undefined), the box shadow is
      not touched, and both flags default to true. */
  function InitPatch(o: Options): Config.ConfigPatch {
    var f := o.filter;
    Config.ConfigPatch(
      Config.Present(Some(Config.HighlightPatch(Config.Present(o.highlightColor), Config.Present(o.labelTextColor), Config.Absent))),
      Config.Present(Some(Config.FilterPatch(
        Config.Present(if f.Some? then f.value.ignoreSelectors else None),
        Config.Present(if f.Some? then f.value.ignoreTags else None),
        Config.Present(if f.Some? then f.value.skipCommonComponents else None)))),
      Config.Present(Some(o.showTagHint.GetOr(true))),
      Config.Present(Some(o.includeLocatorTag.GetOr(true))))
  }

  /** What `init` leaves behind: nothing when disabled, else the resolved
      options and the updated configuration. */
  datatype Started = Inert | Running(resolved: Resolved, config: Config.RuntimeConfig)

  function Init(o: Options, platform: Option<string>, cfg: Config.RuntimeConfig): (s: Started)
    ensures s.Inert? <==> o.enabled == Some(false)
    ensures s.Running? ==> s.resolved.hotkey == (if o.hotkey.Some? then o.hotkey.value else Hotkeys.Keys(Hotkeys.DefaultHotkey(platform)))
    ensures s.Running? ==> s.resolved.keyHoldDuration == (if o.keyHoldDuration.Some? then o.keyHoldDuration.value else DefaultKeyHoldMs)
    ensures s.Running? ==> (s.resolved.agent.Some? ==> o.agent.Some? && s.resolved.agent == ResolveAgent(o.agent.value))
    ensures s.Running? && o.agent.None? ==> s.resolved.agent.None?
  {
    if o.enabled == Some(false) then Inert
    else
      var hotkey := if o.hotkey.Some? then o.hotkey.value else Hotkeys.Keys(Hotkeys.DefaultHotkey(platform));
      var agent := if o.agent.Some? then ResolveAgent(o.agent.value) else None;
      Running(Resolved(hotkey, o.keyHoldDuration.GetOr(DefaultKeyHoldMs), agent), Config.UpdateConfig(cfg, InitPatch(o)))
  }

  /** After `init` the configuration holds exactly the given colours (an
      omitted one becomes undefined, so the overlay falls back to its
      default), keeps the box shadow, holds the given filter keys, and shows
      the tag hint and the locator block unless they are switched off. */
  lemma InitConfig(o: Options, platform: Option<string>, cfg: Config.RuntimeConfig)
    requires o.enabled != Some(false)
    ensures Init(o, platform, cfg).config.highlight == Config.Highlight(o.highlightColor, o.labelTextColor, cfg.highlight.boxShadow)
    ensures o.highlightColor.None? ==> Config.EffectiveColor(Init(o, platform, cfg).config) == Config.DefaultColor
    ensures o.filter.None? ==> Init(o, platform, cfg).config.filter == Config.Filter(None, None, None)
    ensures o.filter.Some? ==>
      Init(o, platform, cfg).config.filter == Config.Filter(o.filter.value.ignoreSelectors, o.filter.value.ignoreTags, o.filter.value.skipCommonComponents)
    ensures Config.Truthy(Init(o, platform, cfg).config.showTagHint) <==> o.showTagHint != Some(false)
    ensures Config.Truthy(Init(o, platform, cfg).config.includeLocatorTag) <==> o.includeLocatorTag != Some(false)
  {
    var p := InitPatch(o);
    Config.NestedMergeKeywise(cfg, p.highlight.value.value, p.filter.value.value, p);
    FlagDefault(o.showTagHint);
    FlagDefault(o.includeLocatorTag);
  }

  /** A flag that defaults to true is on unless explicitly switched off. */
  lemma FlagDefault(b: Option<bool>)
    ensures Config.Truthy(Some(b.GetOr(true))) <==> b != Some(false)
  {
    if b.Some? {
      assert b.GetOr(true) == b.value;
    }
  }

  /** The agent has an endpoint exactly when it survives resolution, so the
      request is sent iff an agent is configured and, for opencode, has both
      an API key and a provider. */
  lemma OpencodeNeedsCredentials(o: Options, platform: Option<string>, cfg: Config.RuntimeConfig)
    requires o.enabled != Some(false) && o.agent.Some?
    ensures var a := Init(o, platform, cfg).resolved.agent;
      a.Some? <==> (o.agent.value.agent.Claude? || (Provider.Given(o.agent.value.apiKey) && Provider.Given(o.agent.value.provider)))
  {
  }

  /** The two endpoint tables agree on claude and differ on opencode. */
  lemma EndpointTables()
    ensures DefaultEndpoint(Provider.Claude) == Provider.DefaultEndpoint(Provider.Claude)
    ensures DefaultEndpoint(Provider.Opencode) != Provider.DefaultEndpoint(Provider.Opencode)
  {
    assert OpencodeEndpoint[20] == '7' && Provider.OpencodeEndpoint[20] == '9';
  }

  /** The request body's `agentConfig`: JSON serialisation drops undefined
      keys but keeps empty strings. */
  function RequestAgentConfig(a: Agent): (m: map<string, string>)
    ensures "provider" in m <==> a.provider.Some?
    ensures "model" in m <==> a.model.Some?
    ensures "apiKey" in m <==> a.apiKey.Some?
    ensures "provider" in m ==> m["provider"] == a.provider.value
    ensures "model" in m ==> m["model"] == a.model.value
    ensures "apiKey" in m ==> m["apiKey"] == a.apiKey.value
    ensures m.Keys <= {"provider", "model", "apiKey"}
  {
    var p := if a.provider.Some? then map["provider" := a.provider.value] else map[];
    var q := if a.model.Some? then p["model" := a.model.value] else p;
    if a.apiKey.Some? then q["apiKey" := a.apiKey.value] else q
  }

  /** The request this entry point posts for a prompt. */
  function PromptRequest(a: Agent, prompt: string, locator: string, snippet: string): Provider.Request {
    Provider.Request(a.endpoint, prompt, locator, snippet, RequestAgentConfig(a))
  }

  /** Without empty strings, the request is the one the provider posts for
      the same settings; an empty provider, model or key is sent here but
      dropped by the provider. */
  lemma RequestMatchesProvider(a: Agent, prompt: string, locator: string, snippet: string)
    ensures var o := Provider.ProviderOptions(a.agent, Some(a.endpoint), a.provider, a.model, a.apiKey);
      && (a.endpoint != "" && a.provider != Some("") && a.model != Some("") && a.apiKey != Some("") ==>
            PromptRequest(a, prompt, locator, snippet) == Provider.Request(Provider.Endpoint(o), prompt, locator, snippet, Provider.AgentConfig(o)))
      && (a.apiKey == Some("") ==> "apiKey" in RequestAgentConfig(a) && "apiKey" !in Provider.AgentConfig(o))
  {
    var o := Provider.ProviderOptions(a.agent, Some(a.endpoint), a.provider, a.model, a.apiKey);
    if a.endpoint != "" && a.provider != Some("") && a.model != Some("") && a.apiKey != Some("") {
      var m1, m2 := RequestAgentConfig(a), Provider.AgentConfig(o);
      assert m1.Keys == m2.Keys;
      assert forall k :: k in m1 ==> m1[k] == m2[k];
    }
  }

  // ---------------------------------------------------------------------------
  // The clipboard text

  const LocatorOpen: string := "\n\n<vue_grab_locator>\n"
  const LocatorClose: string := "\n</vue_grab_locator>"
  const ReferenceOpen: string := "\n\n<referenced_element>\n"
  const ReferenceClose: string := "\n</referenced_element>"

  function Block(open: string, body: string, close: string): string {
    open + body + close
  }

  /** The copied text: the locator block when `includeLocatorTag` is set,
      then the referenced-element block. */
  function Payload(includeLocatorTag: Option<bool>, locatorJson: string, snippet: string): string {
    (if Config.Truthy(includeLocatorTag) then Block(LocatorOpen, locatorJson, LocatorClose) else "")
      + Block(ReferenceOpen, snippet, ReferenceClose)
  }

  /** The inverse of `Block`: the body between a known opening and closing
      text. */
  function Unwrap(s: string, open: string, close: string): (r: Option<string>)
    ensures r.Some? ==> Block(open, r.value, close) == s
  {
    if |open| + |close| <= |s| && s[..|open|] == open && s[|s| - |close|..] == close then
      var body := s[|open|..|s| - |close|];
      assert s == s[..|open|] + body + s[|s| - |close|..];
      Some(body)
    else None
  }

  lemma UnwrapBlock(open: string, body: string, close: string)
    ensures Unwrap(Block(open, body, close), open, close) == Some(body)
  {
    var s := Block(open, body, close);
    assert s[..|open|] == open;
    assert s[|s| - |close|..] == close;
    assert s[|open|..|s| - |close|] == body;
  }

  /** The split of the copied text into its blocks. */
  function Blocks(s: string, locatorLen: nat): (r: (string, string))
    requires locatorLen <= |s|
    ensures r.0 + r.1 == s
  {
    (s[..locatorLen], s[locatorLen..])
  }

  /** Both blocks can be read back from the copied text: the snippet from
      its referenced-element block, and with the locator tag on, the locator
      JSON from the block before it. */
  lemma PayloadRoundTrip(includeLocatorTag: Option<bool>, locatorJson: string, snippet: string)
    ensures var s := Payload(includeLocatorTag, locatorJson, snippet);
      var n := if Config.Truthy(includeLocatorTag) then |Block(LocatorOpen, locatorJson, LocatorClose)| else 0;
      && n <= |s|
      && Unwrap(Blocks(s, n).1, ReferenceOpen, ReferenceClose) == Some(snippet)
      && (Config.Truthy(includeLocatorTag) ==> Unwrap(Blocks(s, n).0, LocatorOpen, LocatorClose) == Some(locatorJson))
  {
    var l := if Config.Truthy(includeLocatorTag) then Block(LocatorOpen, locatorJson, LocatorClose) else "";
    var b := Block(ReferenceOpen, snippet, ReferenceClose);
    var s := l + b;
    assert s[..|l|] == l && s[|l|..] == b;
    UnwrapBlock(ReferenceOpen, snippet, ReferenceClose);
    UnwrapBlock(LocatorOpen, locatorJson, LocatorClose);
  }

  // ---------------------------------------------------------------------------
  // Handlers

  /** An element under the pointer: an identity, its bounding box and tag. */
  datatype Target = Target(element: nat, box: Overlay.Box, tag: string)

  /** The render key: the box and the tag name. */
  datatype RenderKey = RenderKey(box: Overlay.Box, tag: string)

  function KeyOf(t: Target): RenderKey {
    RenderKey(t.box, t.tag)
  }

  /** The handlers' shared state: the held keys, the hovered element, what
      the hover overlay shows (`None`: hidden) and how often it was drawn,
      the last render key (`None`: the empty key), whether a mouse frame is
      pending, and the prompt interaction. */
  datatype Ui = Ui(
    keys: Hotkeys.KeyState,
    hovered: Option<Target>,
    shown: Option<Target>,
    draws: nat,
    lastKey: Option<RenderKey>,
    framePending: bool,
    prompt: Interaction.Prompt)

  const Fresh: Ui := Ui(Hotkeys.NoKeys, None, None, 0, None, false, Interaction.Idle)

  predicate CtrlX(keys: Hotkeys.KeyState) {
    "Control" in keys.pressed && "x" in keys.pressed
  }

  /** The overlay is active while the hotkey or Ctrl+X is held. */
  predicate Active(r: Resolved, keys: Hotkeys.KeyState) {
    Hotkeys.IsComboPressed(r.hotkey, keys.pressed, Some(r.keyHoldDuration)) || CtrlX(keys)
  }

  function Draw(u: Ui, t: Target): (v: Ui)
    ensures v.shown == Some(t) && v.draws == u.draws + 1
  {
    u.(shown := Some(t), draws := u.draws + 1)
  }

  /** `cancelInteraction`, with the hover key reset so that hovering
      resumes. */
  function CancelUi(u: Ui): (v: Ui)
    ensures !u.prompt.interacting ==> v == u
    ensures u.prompt.interacting ==> !v.prompt.interacting && v.shown.None? && v.lastKey.None?
    ensures v.prompt == Interaction.Cancel(u.prompt)
  {
    if u.prompt.interacting then u.(prompt := Interaction.Cancel(u.prompt), shown := None, lastKey := None) else u
  }

  /** keydown: the key is recorded; outside an interaction, a hovered
      element is drawn while the overlay is active. */
  function KeyDown(u: Ui, r: Resolved, key: string, now: int): (v: Ui)
    ensures v.keys == Hotkeys.KeyDown(u.keys, key, now)
    ensures v.shown != u.shown || v.draws != u.draws <==> !u.prompt.interacting && u.hovered.Some? && Active(r, v.keys)
    ensures v.draws != u.draws ==> v.shown == u.hovered
    ensures v.prompt == u.prompt && v.hovered == u.hovered && v.lastKey == u.lastKey
  {
    var u1 := u.(keys := Hotkeys.KeyDown(u.keys, key, now));
    if u.prompt.interacting then u1
    else if u.hovered.Some? && Active(r, u1.keys) then Draw(u1, u.hovered.value)
    else u1
  }

  /** keyup: the key is released; outside an interaction the overlay is
      hidden once it is no longer active. */
  function KeyUp(u: Ui, r: Resolved, key: string): (v: Ui)
    ensures v.keys == Hotkeys.KeyUp(u.keys, key)
    ensures !u.prompt.interacting && !Active(r, v.keys) ==> v.shown.None?
    ensures u.prompt.interacting || Active(r, v.keys) ==> v.shown == u.shown
    ensures v.prompt == u.prompt && v.draws == u.draws && v.lastKey == u.lastKey
  {
    var u1 := u.(keys := Hotkeys.KeyUp(u.keys, key));
    if !u.prompt.interacting && !Active(r, u1.keys) then u1.(shown := None) else u1
  }

  /** mousemove: ignored during an interaction; otherwise one frame is
      requested unless one is pending. */
  function MouseMove(u: Ui): (v: Ui)
    ensures u.prompt.interacting ==> v == u
    ensures !u.prompt.interacting ==> v == u.(framePending := true)
  {
    if u.prompt.interacting then u else u.(framePending := true)
  }

  /** The mouse frame, with the element found under the pointer: the element
      becomes the hovered one; while active it is drawn when its render key
      changed; otherwise the key is reset and the overlay hidden. The frame
      does not look at the interaction flag. */
  function HoverFrame(u: Ui, r: Resolved, el: Option<Target>): (v: Ui)
    ensures !u.framePending ==> v == u
    ensures u.framePending ==> !v.framePending && v.hovered == el && v.prompt == u.prompt
    ensures u.framePending && el.Some? && Active(r, u.keys) ==>
      v.lastKey == Some(KeyOf(el.value)) && (v.draws == u.draws + 1 <==> u.lastKey != Some(KeyOf(el.value)))
    ensures u.framePending && !(el.Some? && Active(r, u.keys)) ==> v.lastKey.None? && v.shown.None? && v.draws == u.draws
  {
    if !u.framePending then u
    else
      var u1 := u.(framePending := false, hovered := el);
      if el.Some? && Active(r, u.keys) then
        var k := KeyOf(el.value);
        if u.lastKey != Some(k) then Draw(u1.(lastKey := Some(k)), el.value) else u1
      else u1.(lastKey := None, shown := None)
  }

  /** Moving over the same box and tag draws once: a second frame finds the
      render key unchanged. */
  lemma HoverDrawsOnce(u: Ui, r: Resolved, t: Target)
    requires !u.prompt.interacting && Active(r, u.keys)
    ensures var v := HoverFrame(MouseMove(u), r, Some(t));
      HoverFrame(MouseMove(v), r, Some(t)).draws == v.draws
      && v.draws <= u.draws + 1
  {
  }

  /** What a click did. A copy whose clipboard write was rejected ends in
      the empty `catch`: the text was offered, and nothing after the write
      ran. */
  datatype Clicked = NoEffect | Cancelled | Prompted | Copied(clipboard: string, adapterText: string) | CopyFailed(clipboard: string)

  /** The click handler, given whether Control is down on the event, the
      configuration, the element's locator JSON and snippet, whether the
      clipboard accepted the text, and the time. */
  function Click(u: Ui, r: Resolved, cfg: Config.RuntimeConfig, ctrlKey: bool, locatorJson: string, snippet: string, clipboardOk: bool, now: int): (res: (Ui, Clicked))
    ensures res.1.Cancelled? <==> u.prompt.interacting && !u.prompt.waiting
    ensures res.1.Prompted? <==> !u.prompt.interacting && u.hovered.Some? && ctrlKey && "x" in u.keys.pressed
    ensures (res.1.Copied? || res.1.CopyFailed?) <==>
      (!u.prompt.interacting && u.hovered.Some? && !(ctrlKey && "x" in u.keys.pressed)
       && Hotkeys.IsComboPressed(r.hotkey, u.keys.pressed, Some(r.keyHoldDuration)))
    ensures res.1.Copied? || res.1.CopyFailed? ==> res.1.clipboard == Payload(cfg.includeLocatorTag, locatorJson, snippet)
    ensures res.1.Copied? <==> (res.1.Copied? || res.1.CopyFailed?) && clipboardOk
    ensures res.1.Copied? ==> res.1.adapterText == locatorJson && res.0 == u.(shown := None)
    ensures res.1.CopyFailed? ==> res.0 == u
    ensures res.1.Prompted? ==> res.0.prompt == Interaction.Begin(now)
    ensures res.1.NoEffect? ==> res.0 == u
  {
    if u.prompt.interacting then
      if u.prompt.waiting then (u, NoEffect) else (CancelUi(u), Cancelled)
    else if u.hovered.None? then (u, NoEffect)
    else if ctrlKey && "x" in u.keys.pressed then (u.(prompt := Interaction.Begin(now)), Prompted)
    else if !Hotkeys.IsComboPressed(r.hotkey, u.keys.pressed, Some(r.keyHoldDuration)) then (u, NoEffect)
    else
      var text := Payload(cfg.includeLocatorTag, locatorJson, snippet);
      if clipboardOk then (u.(shown := None), Copied(text, locatorJson)) else (u, CopyFailed(text))
  }

  /** Ctrl+X alone shows the overlay over a hovered element even when the
      configured hotkey is not held, and a Ctrl+X click starts a prompt
      rather than copying. */
  lemma CtrlXActivates(u: Ui, r: Resolved, cfg: Config.RuntimeConfig, locatorJson: string, snippet: string, clipboardOk: bool, now: int)
    requires !u.prompt.interacting && u.hovered.Some? && CtrlX(u.keys)
    ensures Active(r, u.keys)
    ensures Click(u, r, cfg, true, locatorJson, snippet, clipboardOk, now).1 == Prompted
  {
  }

  /** While a submitted prompt has no outcome, clicks change nothing; once
      it has one, a click dismisses it. */
  lemma ClickDuringPrompt(u: Ui, r: Resolved, cfg: Config.RuntimeConfig, ctrlKey: bool, locatorJson: string, snippet: string, clipboardOk: bool, now: int)
    requires Interaction.Sound(u.prompt) && u.prompt.interacting && !u.prompt.phase.Typing?
    ensures var res := Click(u, r, cfg, ctrlKey, locatorJson, snippet, clipboardOk, now);
      && (!u.prompt.done ==> res == (u, NoEffect))
      && (u.prompt.done ==> res.1 == Cancelled && !res.0.prompt.interacting)
  {
  }

  /** `cleanup`: pending frames are cancelled and the overlay hidden. */
  function Teardown(u: Ui): (v: Ui)
    ensures !v.framePending && !v.prompt.frame && v.shown.None?
    ensures v.keys == u.keys && v.prompt.screens == u.prompt.screens
  {
    u.(framePending := false, prompt := u.prompt.(frame := false), shown := None)
  }
}
