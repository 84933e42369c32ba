/** The arithmetic and bookkeeping of the current package's overlay: colour
    parsing for the box fill, the node naming that keeps each session's
    overlay apart from the hover overlay, the caption and crosshair geometry,
    the result banner, and the two-phase clean-up of a session's nodes. The
    DOM itself is replaced by a list of nodes with their class names and
    visibility. */
module Overlay {
  import opened Wrappers
  import opened Text
  import Config

  // ---------------------------------------------------------------------------
  // Colours

  predicate IsHexDigit(c: char) {
    ('0' <= c <= '9') || ('a' <= c <= 'f') || ('A' <= c <= 'F')
  }

  function HexVal(c: char): (v: nat)
    requires IsHexDigit(c)
    ensures v < 16
  {
    if '0' <= c <= '9' then c as int - '0' as int
    else if 'a' <= c <= 'f' then c as int - 'a' as int + 10
    else c as int - 'A' as int + 10
  }

  /** The longest prefix made of hex digits. */
  function HexPrefix(s: string): (r: string)
    ensures |r| <= |s| && r == s[..|r|]
    ensures forall i :: 0 <= i < |r| ==> IsHexDigit(r[i])
    ensures |r| < |s| ==> !IsHexDigit(s[|r|])
  {
    if s == [] || !IsHexDigit(s[0]) then [] else [s[0]] + HexPrefix(s[1..])
  }

  function HexValue(ds: string): (v: nat)
    requires forall i :: 0 <= i < |ds| ==> IsHexDigit(ds[i])
    decreases |ds|
  {
    if ds == [] then 0 else 16 * HexValue(ds[..|ds| - 1]) + HexVal(ds[|ds| - 1])
  }

  /** A JavaScript number as far as `parseInt` produces one. */
  datatype Num = NaN | Int(value: int)

  /** `parseInt(s, 16)`: leading white space, an optional sign and an
      optional "0x" prefix are skipped, then the longest run of hex digits
      is read; with no digit the result is NaN. */
  function ParseHex(s: string): (n: Num)
  {
    var t := TrimStart(s);
    var neg := t != [] && t[0] == '-';
    var u := if t != [] && (t[0] == '-' || t[0] == '+') then t[1..] else t;
    var v := if |u| >= 2 && u[0] == '0' && (u[1] == 'x' || u[1] == 'X') then u[2..] else u;
    var ds := HexPrefix(v);
    var val: int := HexValue(ds);
    if ds == [] then NaN else Int(if neg then -val else val)
  }

  /** `s.slice(a, b)` for 0 <= a <= b: both ends are clamped to the length. */
  function Slice(s: string, a: nat, b: nat): (r: string)
    requires a <= b
    ensures |r| <= b - a
    ensures b <= |s| ==> r == s[a..b]
  {
    var hi := if b <= |s| then b else |s|;
    var lo := if a <= hi then a else hi;
    s[lo..hi]
  }

  /** `split("").map(c => c + c).join("")`. */
  function Doubled(s: string): (r: string)
    ensures |r| == 2 * |s|
    ensures forall i :: 0 <= i < |s| ==> r[2 * i] == s[i] && r[2 * i + 1] == s[i]
  {
    if s == [] then [] else [s[0], s[0]] + Doubled(s[1..])
  }

  /** The six-digit form of a colour: the first '#' dropped, a three-digit
      form doubled. */
  function FullHex(hex: string): string {
    var n := RemoveFirst(hex, '#');
    if |n| == 3 then Doubled(n) else n
  }

  /** `Math.max(0, Math.min(1, alpha))`. */
  function ClampAlpha(a: real): (r: real)
    ensures 0.0 <= r <= 1.0
    ensures 0.0 <= a <= 1.0 ==> r == a
    ensures a < 0.0 ==> r == 0.0
    ensures a > 1.0 ==> r == 1.0
  {
    if a < 0.0 then 0.0 else if a > 1.0 then 1.0 else a
  }

  /** The four arguments of the `rgba(...)` text `hexToRGBA` returns. */
  datatype Rgba = Rgba(r: Num, g: Num, b: Num, alpha: real)

  function HexToRgba(hex: string, alpha: real): Rgba {
    var full := FullHex(hex);
    Rgba(ParseHex(Slice(full, 0, 2)), ParseHex(Slice(full, 2, 4)), ParseHex(Slice(full, 4, 6)), ClampAlpha(alpha))
  }

  /** Only the first '#' is dropped: a later one stays in the digits. */
  lemma OnlyFirstHashDropped(s: string)
    ensures RemoveFirst("#" + s, '#') == s
  {
    assert ("#" + s)[0] == '#';
    assert ("#" + s)[1..] == s;
  }

  /** A three-digit colour is the same as its doubled six-digit form. */
  lemma ShortFormIsDoubled(n: string, alpha: real)
    requires |n| == 3 && '#' !in n
    ensures HexToRgba(n, alpha) == HexToRgba(Doubled(n), alpha)
    ensures HexToRgba("#" + n, alpha) == HexToRgba(n, alpha)
  {
    var d := Doubled(n);
    assert '#' !in d by {
      forall i | 0 <= i < |d| ensures d[i] != '#' {
        assert d[i] == n[i / 2] by { assert i == 2 * (i / 2) || i == 2 * (i / 2) + 1; }
      }
    }
    assert FullHex(n) == d;
    assert FullHex(d) == d;
    OnlyFirstHashDropped(n);
    assert FullHex("#" + n) == FullHex(n);
  }

  lemma HexPairValue(x: char, y: char)
    requires IsHexDigit(x) && IsHexDigit(y)
    ensures ParseHex([x, y]) == Int(16 * HexVal(x) + HexVal(y))
  {
    var s := [x, y];
    assert !IsSpace(x);
    assert TrimStart(s) == s;
    assert s[1..] == [y] && [y][1..] == [];
    assert HexPrefix([y]) == [y];
    assert HexPrefix(s) == s;
    assert s[..1] == [x] && [x][..0] == [];
    assert HexValue([x]) == HexVal(x);
  }

  /** The byte two hex digits at `k` stand for. */
  function Byte(f: string, k: nat): (v: nat)
    requires k + 2 <= |f| && IsHexDigit(f[k]) && IsHexDigit(f[k + 1])
    ensures v <= 255
  {
    16 * HexVal(f[k]) + HexVal(f[k + 1])
  }

  /** With six hex digits each channel is the byte of its two digits, so it
      lies in 0..255, and the alpha lies in [0, 1]. */
  lemma ChannelsInRange(hex: string, alpha: real)
    requires |FullHex(hex)| >= 6 && forall i :: 0 <= i < 6 ==> IsHexDigit(FullHex(hex)[i])
    ensures HexToRgba(hex, alpha) == Rgba(Int(Byte(FullHex(hex), 0)), Int(Byte(FullHex(hex), 2)), Int(Byte(FullHex(hex), 4)), HexToRgba(hex, alpha).alpha)
    ensures 0.0 <= HexToRgba(hex, alpha).alpha <= 1.0
  {
    var f := FullHex(hex);
    assert IsHexDigit(f[0]) && IsHexDigit(f[1]) && IsHexDigit(f[2]) && IsHexDigit(f[3]) && IsHexDigit(f[4]) && IsHexDigit(f[5]);
    RgbaChannels(hex, alpha);
    ChannelValue(f, 0);
    ChannelValue(f, 2);
    ChannelValue(f, 4);
  }

  /** The colour's channels are read from the six-digit form, two digits
      each. */
  lemma RgbaChannels(hex: string, alpha: real)
    ensures var f := FullHex(hex);
      HexToRgba(hex, alpha) == Rgba(ParseHex(Slice(f, 0, 2)), ParseHex(Slice(f, 2, 4)), ParseHex(Slice(f, 4, 6)), ClampAlpha(alpha))
  {
  }

  /** One channel: the two digits at `k` read as a byte. */
  lemma ChannelValue(f: string, k: nat)
    requires k + 2 <= |f| && IsHexDigit(f[k]) && IsHexDigit(f[k + 1])
    ensures ParseHex(Slice(f, k, k + 2)) == Int(Byte(f, k))
  {
    var x, y := f[k], f[k + 1];
    assert Slice(f, k, k + 2) == [x, y];
    HexPairValue(x, y);
    assert Byte(f, k) == 16 * HexVal(x) + HexVal(y);
  }

  // ---------------------------------------------------------------------------
  // Nodes and their names

  datatype Part = BoxPart | LabelPart | Label2Part | CrossXPart | CrossYPart

  const Parts: seq<Part> := [BoxPart, LabelPart, Label2Part, CrossXPart, CrossYPart]

  function PartClass(p: Part): string {
    match p
    case BoxPart => "vg-box"
    case LabelPart => "vg-label"
    case Label2Part => "vg-label-2"
    case CrossXPart => "vg-crosshair-x"
    case CrossYPart => "vg-crosshair-y"
  }

  /** `sessionId ? "-" + sessionId : ""`. */
  function Suffix(sessionId: Option<string>): (s: string)
    ensures sessionId.Some? && sessionId.value != "" ==> s == "-" + sessionId.value
    ensures !(sessionId.Some? && sessionId.value != "") ==> s == ""
  {
    if sessionId.Some? && sessionId.value != "" then "-" + sessionId.value else ""
  }

  const ElementClass: string := "vg-element"

  /** One overlay node: its part, the suffix it was created with, and
      whether it carries the visible class. Session ids are taken to be
      free of white space, so the class list is exactly the part class,
      "vg-element" plus the suffix, and "vg-visible" while shown. */
  datatype Node = Node(part: Part, suffix: string, visible: bool)

  /** The class every node of one overlay shares. */
  function Key(suffix: string): string {
    ElementClass + suffix
  }

  const VisibleClass: string := "vg-visible"

  /** The `className` string: `classList.add` appends the visible class after
      the two classes the node was created with. */
  function ClassName(n: Node): string {
    PartClass(n.part) + " " + Key(n.suffix) + (if n.visible then " " + VisibleClass else "")
  }

  /** Whether `.vg-element<suffix>` selects the node. */
  predicate Selected(n: Node, suffix: string) {
    Key(n.suffix) == Key(suffix)
  }

  lemma SelectedIff(n: Node, suffix: string)
    ensures Selected(n, suffix) <==> n.suffix == suffix
  {
    if Selected(n, suffix) {
      assert n.suffix == Key(n.suffix)[|ElementClass|..];
      assert suffix == Key(suffix)[|ElementClass|..];
    }
  }

  predicate HasPart(root: seq<Node>, p: Part, suffix: string) {
    exists i :: 0 <= i < |root| && root[i].part == p && root[i].suffix == suffix
  }

  /** Creates the missing parts, in order, for one suffix. */
  function EnsureParts(root: seq<Node>, parts: seq<Part>, suffix: string): (r: seq<Node>)
    ensures |root| <= |r| && r[..|root|] == root
    ensures forall i :: |root| <= i < |r| ==> r[i].suffix == suffix && !r[i].visible
    ensures forall p :: p in parts ==> HasPart(r, p, suffix)
    decreases |parts|
  {
    if parts == [] then root
    else
      var root1 := if HasPart(root, parts[0], suffix) then root else root + [Node(parts[0], suffix, false)];
      assert HasPart(root1, parts[0], suffix) by {
        if !HasPart(root, parts[0], suffix) { assert root1[|root|].part == parts[0]; }
      }
      var r := EnsureParts(root1, parts[1..], suffix);
      assert HasPart(r, parts[0], suffix) by {
        var i :| 0 <= i < |root1| && root1[i].part == parts[0] && root1[i].suffix == suffix;
        assert r[i] == root1[i];
      }
      r
  }

  lemma AllParts()
    ensures forall p: Part :: p in Parts
  {
    forall p: Part ensures p in Parts {
      PartListed(p);
    }
  }

  lemma PartListed(p: Part)
    ensures p in Parts
  {
    match p
    case BoxPart => assert Parts[0] == p;
    case LabelPart => assert Parts[1] == p;
    case Label2Part => assert Parts[2] == p;
    case CrossXPart => assert Parts[3] == p;
    case CrossYPart => assert Parts[4] == p;
  }

  /** `ensureOverlay(sessionId)`: every part exists for the suffix; nodes of
      other suffixes are untouched and nothing is removed. */
  function Ensure(root: seq<Node>, sessionId: Option<string>): (r: seq<Node>)
    ensures |root| <= |r| && r[..|root|] == root
    ensures forall i :: |root| <= i < |r| ==> r[i].suffix == Suffix(sessionId)
    ensures forall p :: HasPart(r, p, Suffix(sessionId))
  {
    var r := EnsureParts(root, Parts, Suffix(sessionId));
    AllParts();
    r
  }

  /** `hideOverlay(sessionId)`: the nodes `.vg-element<suffix>` selects lose
      the visible class. */
  function Hide(root: seq<Node>, sessionId: Option<string>): (r: seq<Node>)
    ensures |r| == |root|
    ensures forall i :: 0 <= i < |r| ==> r[i].part == root[i].part && r[i].suffix == root[i].suffix
    ensures forall i :: 0 <= i < |r| ==> r[i].visible == (root[i].visible && !Selected(root[i], Suffix(sessionId)))
  {
    seq(|root|, i requires 0 <= i < |root| => if Selected(root[i], Suffix(sessionId)) then root[i].(visible := false) else root[i])
  }

  /** Hiding one session touches only that session's nodes: the hover
      nodes and other sessions' nodes keep their visibility. */
  lemma HideIsolated(root: seq<Node>, id: string, i: nat)
    requires id != "" && i < |root| && root[i].suffix != "-" + id
    ensures Hide(root, Some(id))[i] == root[i]
  {
    SelectedIff(root[i], "-" + id);
  }

  /** Hiding the hover overlay leaves every session's nodes alone. */
  lemma HideHoverIsolated(root: seq<Node>, i: nat)
    requires i < |root| && root[i].suffix != ""
    ensures Hide(root, None)[i] == root[i]
  {
    SelectedIff(root[i], "");
  }

  // ---------------------------------------------------------------------------
  // Clean-up

  /** The nodes `cleanupSessionOverlay` picks: `.vg-element-<id>`,
      `[class*="vg-element-<id>"]`, `[class$="vg-element-<id>"]`, and any
      node whose class name contains the id. */
  predicate CleanupPicks(n: Node, id: string) {
    || Selected(n, "-" + id)
    || Contains(ClassName(n), Key("-" + id))
    || EndsWith(ClassName(n), Key("-" + id))
    || Contains(ClassName(n), id)
  }

  lemma {:induction false} ContainsWithin(s: string, sub: string, part: string)
    requires Contains(s, sub) && Contains(sub, part)
    ensures Contains(s, part)
    decreases |s|
  {
    if StartsWith(s, sub) {
      ContainsPrefix(s, sub, part);
    } else {
      ContainsWithin(s[1..], sub, part);
    }
  }

  lemma {:induction false} ContainsPrefix(s: string, sub: string, part: string)
    requires StartsWith(s, sub) && Contains(sub, part)
    ensures Contains(s, part)
    decreases |sub|
  {
    if StartsWith(sub, part) {
      assert s[..|part|] == sub[..|part|];
    } else {
      assert StartsWith(s[1..], sub[1..]);
      ContainsPrefix(s[1..], sub[1..], part);
    }
  }

  /** All four selectors reduce to the last one: a node is picked iff its
      class name contains the id. */
  lemma CleanupPicksIff(n: Node, id: string)
    ensures CleanupPicks(n, id) <==> Contains(ClassName(n), id)
  {
    var key := Key("-" + id);
    ConcatAssoc(ElementClass, "-", id);
    assert key == (ElementClass + "-") + id + "";
    ContainsSelf(id, ElementClass + "-", "");
    var c := ClassName(n);
    var shown := if n.visible then " " + VisibleClass else "";
    if Selected(n, "-" + id) {
      SelectedIff(n, "-" + id);
      assert c == PartClass(n.part) + " " + key + shown;
      ContainsSelf(key, PartClass(n.part) + " ", shown);
      ContainsWithin(c, key, id);
    } else if Contains(c, key) {
      ContainsWithin(c, key, id);
    } else if EndsWith(c, key) {
      assert c == c[..|c| - |key|] + key + "";
      ContainsSelf(key, c[..|c| - |key|], "");
      ContainsWithin(c, key, id);
    }
  }

  /** The first phase: the picked nodes lose the visible class. */
  function CleanupHide(root: seq<Node>, id: string): (r: seq<Node>)
    ensures |r| == |root|
    ensures forall i :: 0 <= i < |r| ==> r[i].part == root[i].part && r[i].suffix == root[i].suffix
    ensures forall i :: 0 <= i < |r| ==> r[i].visible == (root[i].visible && !CleanupPicks(root[i], id))
  {
    seq(|root|, i requires 0 <= i < |root| => if CleanupPicks(root[i], id) then root[i].(visible := false) else root[i])
  }

  /** The second phase, 400 ms later: the selectors are queried again on the
      nodes present then, and the class-name test runs, on the class names
      they have then, over the nodes collected in the first phase. */
  function CleanupRemove(root: seq<Node>, id: string, collected: seq<Node>): (r: seq<Node>)
    ensures forall n :: n in r <==> n in root && !(Contains(ClassName(n), Key("-" + id)) || Selected(n, "-" + id) || EndsWith(ClassName(n), Key("-" + id))) && !((exists c :: c in collected && c.part == n.part && c.suffix == n.suffix) && Contains(ClassName(n), id))
    decreases |root|
  {
    if root == [] then []
    else
      var n := root[0];
      var rest := CleanupRemove(root[1..], id, collected);
      var byQuery := Contains(ClassName(n), Key("-" + id)) || Selected(n, "-" + id) || EndsWith(ClassName(n), Key("-" + id));
      var byName := (exists c :: c in collected && c.part == n.part && c.suffix == n.suffix) && Contains(ClassName(n), id);
      if byQuery || byName then rest else [n] + rest
  }

  const CleanupDelay: int := 400

  /** The id is matched as a substring, so clean-up is not isolated: the
      clean-up of a session whose id is a prefix of another's hides the
      other session's nodes too. */
  lemma CleanupReachesLongerIds(root: seq<Node>, id: string, other: string, i: nat)
    requires i < |root| && root[i].suffix == "-" + id + other && root[i].visible
    ensures !CleanupHide(root, id)[i].visible
  {
    var n := root[i];
    assert ClassName(n) == (PartClass(n.part) + " " + ElementClass + "-") + id + (other + " " + VisibleClass);
    ContainsSelf(id, PartClass(n.part) + " " + ElementClass + "-", other + " " + VisibleClass);
    CleanupPicksIff(n, id);
  }

  /** An id that occurs in a part's class name, such as "box", even reaches
      the hover overlay. */
  lemma CleanupReachesHover(root: seq<Node>, i: nat)
    requires i < |root| && root[i].part == BoxPart && root[i].suffix == "" && root[i].visible
    ensures !CleanupHide(root, "box")[i].visible
  {
    var n := root[i];
    assert ClassName(n) == "vg-" + "box" + (" vg-element" + " " + VisibleClass);
    ContainsSelf("box", "vg-", " vg-element" + " " + VisibleClass);
    CleanupPicksIff(n, "box");
  }

  /** A shown node's class name carries "vg-visible", so the clean-up of a
      session with the id "visible" hides every shown node, whatever its
      overlay. */
  lemma CleanupReachesShownNodes(root: seq<Node>, i: nat)
    requires i < |root| && root[i].visible
    ensures !CleanupHide(root, "visible")[i].visible
  {
    var n := root[i];
    var base := PartClass(n.part) + " " + Key(n.suffix);
    assert ClassName(n) == (base + " vg-") + "visible" + "";
    ContainsSelf("visible", base + " vg-", "");
    CleanupPicksIff(n, "visible");
  }

  // ---------------------------------------------------------------------------
  // Geometry

  /** `Math.max(8, y - 24)`: the caption sits 24 px above the box, but never
      above 8 px. */
  function LabelTop(y: real): (t: real)
    ensures t >= 8.0 && t >= y - 24.0
    ensures t == 8.0 || t == y - 24.0
  {
    if y - 24.0 > 8.0 then y - 24.0 else 8.0
  }

  const LabelGap: real := 8.0

  /** `a || b || fallback` on measured widths (0 is falsy). */
  function Width(first: real, second: real, fallback: real): (w: real)
    ensures first != 0.0 ==> w == first
    ensures first == 0.0 && second != 0.0 ==> w == second
    ensures first == 0.0 && second == 0.0 ==> w == fallback
  {
    if first != 0.0 then first else if second != 0.0 then second else fallback
  }

  /** `Math.round`: the nearest integer, halves rounded up. */
  function Round(x: real): (n: int)
    ensures n as real - 0.5 <= x < n as real + 0.5
  {
    (x + 0.5).Floor
  }

  datatype Box = Box(x: real, y: real, width: real, height: real)

  datatype Point = Point(x: real, y: real)

  datatype Label = Label(pos: Point, text: string)

  /** What `renderOverlay` sets: the box, the crosshair point, and the two
      labels when they are made visible (`None`: hidden). */
  datatype View = View(box: Box, cross: Point, caption: Option<Label>, caption2: Option<Label>)

  const DefaultLabel: string := "VueGrab"

  /** `renderOverlay`, given the configured tag-hint flag and the two
      measured caption widths. */
  function RenderOverlay(rect: Box, text: Option<string>, cursor: Option<Point>, secondary: Option<string>,
                         showTagHint: Option<bool>, measured: real, offset: real): (v: View)
    ensures v.box == rect
    ensures cursor.Some? ==> v.cross == cursor.value
    ensures cursor.None? ==> v.cross == Point(Round(rect.x + rect.width / 2.0) as real, Round(rect.y + rect.height / 2.0) as real)
    ensures v.caption.Some? <==> Config.Truthy(showTagHint)
    ensures v.caption2.Some? <==> Config.Truthy(showTagHint) && secondary.Some? && secondary.value != ""
    ensures v.caption.Some? ==> v.caption.value.pos == Point(rect.x, LabelTop(rect.y)) && v.caption.value.pos.y >= 8.0
    ensures v.caption.Some? ==> v.caption.value.text == text.GetOr(DefaultLabel)
    ensures v.caption2.Some? ==> v.caption2.value == Label(Point(rect.x + Width(measured, offset, 0.0) + LabelGap, v.caption.value.pos.y), secondary.value)
  {
    var cx := if cursor.Some? then cursor.value.x else Round(rect.x + rect.width / 2.0) as real;
    var cy := if cursor.Some? then cursor.value.y else Round(rect.y + rect.height / 2.0) as real;
    if !Config.Truthy(showTagHint) then View(rect, Point(cx, cy), None, None)
    else
      var top := LabelTop(rect.y);
      var caption := Label(Point(rect.x, top), text.GetOr(DefaultLabel));
      var x2 := rect.x + Width(measured, offset, 0.0) + LabelGap;
      var caption2 := if secondary.Some? && secondary.value != "" then Some(Label(Point(x2, top), secondary.value)) else None;
      View(rect, Point(cx, cy), Some(caption), caption2)
  }

  /** The second caption always starts 8 px right of the first caption's right
      edge, on the same line. */
  lemma Label2FollowsLabel(rect: Box, text: Option<string>, cursor: Option<Point>, secondary: Option<string>,
                           showTagHint: Option<bool>, measured: real, offset: real)
    requires measured != 0.0
    ensures var v := RenderOverlay(rect, text, cursor, secondary, showTagHint, measured, offset);
      v.caption2.Some? ==> v.caption.Some? && v.caption2.value.pos.x == v.caption.value.pos.x + measured + LabelGap && v.caption2.value.pos.y == v.caption.value.pos.y
  {
  }

  /** Where `renderLoading` and `renderResult` put the caption: above the
      given rectangle, else from the box position (`renderLoading`). */
  function LoadingLabelPos(rect: Option<Box>, boxPos: Point): (p: Point)
    ensures p.y >= 8.0
    ensures rect.Some? ==> p == Point(rect.value.x, LabelTop(rect.value.y))
    ensures rect.None? ==> p == Point(boxPos.x, LabelTop(boxPos.y))
  {
    match rect
    case Some(b) => Point(b.x, LabelTop(b.y))
    case None => Point(boxPos.x, LabelTop(boxPos.y))
  }

  const LoadingText: string := "Loading.."

  /** `renderLoading`: "Loading.." on the caption, the elapsed time on the
      second caption 8 px to its right, both visible. */
  function RenderLoading(elapsed: string, rect: Option<Box>, boxPos: Point, offset: real, measured: real): (r: (Label, Label))
    ensures r.0 == Label(LoadingLabelPos(rect, boxPos), LoadingText)
    ensures r.1.text == elapsed && r.1.pos.y == r.0.pos.y
    ensures r.1.pos.x == r.0.pos.x + Width(offset, measured, 50.0) + LabelGap
  {
    var p := LoadingLabelPos(rect, boxPos);
    (Label(p, LoadingText), Label(Point(p.x + Width(offset, measured, 50.0) + LabelGap, p.y), elapsed))
  }

  datatype ResultStatus = Done | Error | TimedOut

  /** The banner: its text, background and text colour. */
  datatype Banner = Banner(text: string, background: string, color: string)

  const Check: string := "\U{221A} Done"
  const TimeoutText: string := "\U{00D7} Timeout"
  const ErrorText: string := "\U{00D7} Error"

  function ResultBanner(status: ResultStatus, message: Option<string>): (b: Banner)
    ensures status.Done? ==> b == Banner(Check, "#42b883", "#35495e")
    ensures status.TimedOut? ==> b == Banner(TimeoutText, "#e6a23c", "white")
    ensures status.Error? && message.Some? && message.value != "" ==> b == Banner("\U{00D7} " + message.value, "#e74c3c", "white")
    ensures status.Error? && !(message.Some? && message.value != "") ==> b == Banner(ErrorText, "#e74c3c", "white")
  {
    match status
    case Done => Banner(Check, "#42b883", "#35495e")
    case TimedOut => Banner(TimeoutText, "#e6a23c", "white")
    case Error => Banner(if message.Some? && message.value != "" then "\U{00D7} " + message.value else ErrorText, "#e74c3c", "white")
  }

  /** Where `renderResult` puts the caption without a rectangle: the previous
      caption position, with a zero coordinate taken from the box instead. */
  function ResultLabelPos(rect: Option<Box>, prevLabel: Point, boxPos: Point): (p: Point)
    ensures rect.Some? ==> p == Point(rect.value.x, LabelTop(rect.value.y))
    ensures rect.None? ==> p.x == (if prevLabel.x == 0.0 then boxPos.x else prevLabel.x)
    ensures rect.None? ==> p.y == (if prevLabel.y == 0.0 then LabelTop(boxPos.y) else prevLabel.y)
  {
    match rect
    case Some(b) => Point(b.x, LabelTop(b.y))
    case None =>
      Point(if prevLabel.x == 0.0 then boxPos.x else prevLabel.x,
            if prevLabel.y == 0.0 then LabelTop(boxPos.y) else prevLabel.y)
  }

  /** `renderResult`: the banner on the caption, and the second caption hidden
      and emptied, whatever the status. */
  datatype ResultView = ResultView(caption: Label, banner: Banner, caption2Visible: bool, caption2Text: string)

  function RenderResult(status: ResultStatus, message: Option<string>, rect: Option<Box>, prevLabel: Point, boxPos: Point): (v: ResultView)
    ensures !v.caption2Visible && v.caption2Text == ""
    ensures v.banner == ResultBanner(status, message) && v.caption.text == v.banner.text
    ensures v.caption.pos == ResultLabelPos(rect, prevLabel, boxPos)
  {
    var b := ResultBanner(status, message);
    ResultView(Label(ResultLabelPos(rect, prevLabel, boxPos), b.text), b, false, "")
  }

  /** The geometry `renderInput` sets: the box is placed only when it has no
      position yet, the caption reads "Wait..", and the second caption follows
      8 px to its right (40 px assumed when the caption has no width). */
  function InputLayout(rect: Box, current: Box, measured: real, offset: real): (r: (Box, Label, Point))
    ensures current == Box(0.0, 0.0, 0.0, 0.0) ==> r.0 == rect
    ensures current != Box(0.0, 0.0, 0.0, 0.0) ==> r.0 == current
    ensures r.1 == Label(Point(rect.x, LabelTop(rect.y)), "Wait..")
    ensures r.2 == Point(rect.x + Width(measured, offset, 40.0) + LabelGap, LabelTop(rect.y))
  {
    var box := if current == Box(0.0, 0.0, 0.0, 0.0) then rect else current;
    var top := LabelTop(rect.y);
    (box, Label(Point(rect.x, top), "Wait.."), Point(rect.x + Width(measured, offset, 40.0) + LabelGap, top))
  }
}
