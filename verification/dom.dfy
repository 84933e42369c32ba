/** Locator and snippet builders of the current package, and the ignore-rule
    walk that picks the element under the pointer.

    An element is seen through its ancestor path: a sequence whose first entry
    is the root and whose last entry is the element itself. The component
    that owns an element and the CSS-selector test are oracles supplied by the
    caller. */
module Dom {
  import opened Wrappers
  import opened Text
  import opened Seqs
  import Config

  /** A component instance: its optional name and optional source file. */
  datatype ComponentInfo = ComponentInfo(name: Option<string>, file: Option<string>)

  /** One element: tag name, id, raw class attribute and text content, plus
      the component instance attached to it, listed with its parents nearest
      first (empty when the element carries none). */
  datatype Element = Element(
    tagName: string,
    id: string,
    className: string,
    textContent: string,
    owner: seq<ComponentInfo>)

  function Last(path: seq<Element>): Element
    requires |path| > 0
  {
    path[|path| - 1]
  }

  // ---------------------------------------------------------------------------
  // Component chain

  /** The index of the nearest ancestor-or-self carrying a component
      instance, or -1 when there is none. */
  function OwnerIndex(path: seq<Element>): (k: int)
    ensures -1 <= k < |path|
    ensures k >= 0 ==> path[k].owner != []
    ensures forall j :: k < j < |path| ==> path[j].owner == []
  {
    if path == [] then -1
    else if Last(path).owner != [] then |path| - 1
    else
      var k := OwnerIndex(path[..|path| - 1]);
      assert forall j :: k < j < |path| - 1 ==> path[..|path| - 1][j] == path[j];
      k
  }

  /** The component instance chain of the nearest ancestor-or-self carrying one. */
  function NearestOwner(path: seq<Element>): (r: seq<ComponentInfo>)
    ensures r == [] <==> forall i :: 0 <= i < |path| ==> path[i].owner == []
    ensures r != [] ==> exists i :: 0 <= i < |path| && r == path[i].owner && (forall j :: i < j < |path| ==> path[j].owner == [])
  {
    var k := OwnerIndex(path);
    if k < 0 then [] else path[k].owner
  }

  /** The component chain, root component first. */
  function ComponentChain(path: seq<Element>): (chain: seq<ComponentInfo>)
    ensures chain == [] <==> forall i :: 0 <= i < |path| ==> path[i].owner == []
  {
    Reverse(NearestOwner(path))
  }

  lemma NearestOwnerSkip(path: seq<Element>, cur: nat)
    requires 0 < cur < |path| && path[cur].owner == []
    ensures NearestOwner(path[..cur + 1]) == NearestOwner(path[..cur])
  {
    assert path[..cur + 1][..cur] == path[..cur];
  }

  /** The source's first loop: climb to the first element with a component. */
  method NearestOwnerWalk(path: seq<Element>) returns (comp: seq<ComponentInfo>)
    requires |path| > 0
    ensures comp == NearestOwner(path)
  {
    var cur := |path| - 1;
    comp := path[cur].owner;
    assert path[..cur + 1] == path;
    while comp == [] && cur > 0
      invariant 0 <= cur < |path|
      invariant comp == path[cur].owner
      invariant NearestOwner(path) == NearestOwner(path[..cur + 1])
      decreases cur
    {
      NearestOwnerSkip(path, cur);
      cur := cur - 1;
      comp := path[cur].owner;
    }
  }

  /** The source's two loops: climb to the first element with a component,
      then walk the component's parents, prepending each. */
  method ComponentChainWalk(path: seq<Element>) returns (chain: seq<ComponentInfo>)
    requires |path| > 0
    ensures chain == ComponentChain(path)
  {
    var comp := NearestOwnerWalk(path);
    chain := [];
    var k := 0;
    while k < |comp|
      invariant 0 <= k <= |comp|
      invariant chain == Reverse(comp[..k])
    {
      ReverseSnoc(comp[..k], comp[k]);
      assert comp[..k + 1] == comp[..k] + [comp[k]];
      chain := [comp[k]] + chain;
      k := k + 1;
    }
    assert comp[..k] == comp;
  }

  /** `name || "Anonymous"`. */
  function DisplayName(c: ComponentInfo): string {
    if c.name.Some? && c.name.value != "" then c.name.value else "Anonymous"
  }

  function Names(chain: seq<ComponentInfo>): (r: seq<string>)
    ensures |r| == |chain|
    ensures forall i :: 0 <= i < |chain| ==> r[i] == DisplayName(chain[i])
  {
    seq(|chain|, i requires 0 <= i < |chain| => DisplayName(chain[i]))
  }

  predicate HasFile(c: ComponentInfo) {
    c.file.Some? && c.file.value != ""
  }

  /** The present, non-empty source files, in chain order. */
  function Files(chain: seq<ComponentInfo>): (r: seq<string>)
    ensures r == [] <==> forall i :: 0 <= i < |chain| ==> !HasFile(chain[i])
    ensures forall f :: f in r <==> exists i :: 0 <= i < |chain| && HasFile(chain[i]) && chain[i].file.value == f
  {
    if chain == [] then []
    else
      var rest := Files(chain[1..]);
      assert forall i :: 1 <= i < |chain| ==> chain[i] == chain[1..][i - 1];
      if HasFile(chain[0]) then [chain[0].file.value] + rest else rest
  }

  /** The chain line: "(no vue component)", or "Vue: " and the names joined
      by " > ", followed by a "Files:" line when any file is known. */
  function FormatVueChain(chain: seq<ComponentInfo>): string {
    if chain == [] then "(no vue component)"
    else
      var names := Names(chain);
      var files := Files(chain);
      var head := Join(names, " > ");
      var tail := if files != [] then "\nFiles: " + Join(files, " > ") else "";
      "Vue: " + head + tail
  }

  /** What the chain line says: the empty chain is reported, every component
      is named (anonymous ones as "Anonymous") in chain order, and the files
      line appears exactly when some component has a file. */
  lemma FormatVueChainShape(chain: seq<ComponentInfo>)
    ensures chain == [] ==> FormatVueChain(chain) == "(no vue component)"
    ensures chain != [] && (forall i :: 0 <= i < |chain| ==> !HasFile(chain[i])) ==>
      FormatVueChain(chain) == "Vue: " + Join(Names(chain), " > ")
    ensures chain != [] && (exists i :: 0 <= i < |chain| && HasFile(chain[i])) ==>
      FormatVueChain(chain) == "Vue: " + Join(Names(chain), " > ") + "\nFiles: " + Join(Files(chain), " > ")
  {
  }

  // ---------------------------------------------------------------------------
  // CSS path

  /** `#id` when the id is non-empty. */
  function IdPart(e: Element): string {
    if e.id != "" then "#" + e.id else ""
  }

  /** `className.trim().split(/\s+/)`: never empty; `[""]` for a blank class. */
  function ClassTokens(className: string): (r: seq<string>)
    ensures |r| >= 1
  {
    SplitSpaces(Trim(className))
  }

  function Take2(xs: seq<string>): (r: seq<string>)
    ensures |r| == (if |xs| < 2 then |xs| else 2) && r == xs[..|r|]
  {
    if |xs| <= 2 then xs else xs[..2]
  }

  /** One path segment: lower-case tag, then `#id`, then "." and the first two
      class tokens joined by ".". */
  function Segment(e: Element): string {
    Lower(e.tagName) + IdPart(e) + "." + Join(Take2(ClassTokens(e.className)), ".")
  }

  function Segments(path: seq<Element>): (r: seq<string>)
    ensures |r| == |path|
  {
    Map(Segment, path)
  }

  /** The CSS path: one segment per element of the path, root first, joined
      by " > ". */
  function CssPath(path: seq<Element>): string {
    Join(Segments(path), " > ")
  }

  /** The path of a single element is its segment, and the path of a child
      extends its parent's path by " > " and the child's segment. */
  lemma CssPathStructure(path: seq<Element>, e: Element)
    ensures CssPath([e]) == Segment(e)
    ensures |path| > 0 ==> CssPath(path + [e]) == CssPath(path) + " > " + Segment(e)
  {
    assert Segments([e]) == [Segment(e)];
    if |path| > 0 {
      MapSnoc(Segment, path, e);
      JoinSnoc(Segments(path), Segment(e), " > ");
    }
  }

  /** The source's walk from the element up to the root, prepending one
      segment per level, then joining. */
  method CssPathWalk(path: seq<Element>) returns (r: string)
    ensures r == CssPath(path)
  {
    var segs: seq<string> := [];
    var cur := |path|;
    while cur > 0
      invariant 0 <= cur <= |path|
      invariant segs == Segments(path[cur..])
    {
      cur := cur - 1;
      var selector := Segment(path[cur]);
      MapSuffix(Segment, path, cur);
      segs := [selector] + segs;
    }
    assert path[0..] == path;
    r := Join(segs, " > ");
  }

  // ---------------------------------------------------------------------------
  // Locator data

  datatype Locator = Locator(
    tag: string,
    id: Option<string>,
    classList: seq<string>,
    cssPath: string,
    textSnippet: string,
    vue: seq<ComponentInfo>)

  const LocatorTextLimit: nat := 160

  /** The element's class tokens with the empty ones dropped. */
  function ClassList(className: string): seq<string> {
    NonEmpty(ClassTokens(className))
  }

  function GetLocatorData(path: seq<Element>): (loc: Locator)
    requires |path| > 0
    ensures loc.tag == Lower(Last(path).tagName)
    ensures loc.id.None? <==> Last(path).id == ""
    ensures loc.id.Some? ==> loc.id.value == Last(path).id
    ensures forall i :: 0 <= i < |loc.classList| ==> loc.classList[i] != [] && NoSpace(loc.classList[i])
    ensures Join(loc.classList, " ") == NormalizeText(Last(path).className)
    ensures loc.cssPath == CssPath(path)
    ensures |loc.textSnippet| <= LocatorTextLimit + 3
    ensures loc.vue == ComponentChain(path)
  {
    var el := Last(path);
    var text := NormalizeText(el.textContent);
    TruncateBound(text, LocatorTextLimit);
    ClassListJoin(el.className);
    Locator(
      Lower(el.tagName),
      if el.id != "" then Some(el.id) else None,
      ClassList(el.className),
      CssPath(path),
      Truncate(text, LocatorTextLimit),
      ComponentChain(path))
  }

  /** The class list is the class attribute's tokens: joined with single
      blanks they give back the attribute, trimmed and with every run of
      white space collapsed. */
  lemma ClassListJoin(className: string)
    ensures Join(ClassList(className), " ") == NormalizeText(className)
  {
    var t := Trim(className);
    SplitSpacesPieces(t);
    SplitSpacesJoin(t);
    if t != [] {
      NonEmptyIdentity(SplitSpaces(t));
    }
  }

  lemma {:induction false} NonEmptyIdentity(xs: seq<string>)
    requires forall i :: 0 <= i < |xs| ==> xs[i] != []
    ensures NonEmpty(xs) == xs
  {
    if xs != [] {
      NonEmptyIdentity(xs[1..]);
    }
  }

  /** The class list is empty exactly for a blank class attribute, in which
      case the element's path segment ends with a bare "."; otherwise the
      segment carries the first one or two entries of the class list. */
  lemma ClassListAndSegment(e: Element)
    ensures ClassList(e.className) == [] <==> AllSpace(e.className)
    ensures AllSpace(e.className) ==> Segment(e) == Lower(e.tagName) + IdPart(e) + "."
    ensures !AllSpace(e.className) ==>
      Segment(e) == Lower(e.tagName) + IdPart(e) + "." + Join(Take2(ClassList(e.className)), ".")
  {
    var t := Trim(e.className);
    TrimEmptyIffAllSpace(e.className);
    SplitSpacesPieces(t);
    if t != [] {
      NonEmptyIdentity(SplitSpaces(t));
    }
  }

  /** The locator's text is the normalised text when it fits in 160
      characters, and otherwise its first 160 characters and "...". */
  lemma LocatorTextSnippet(path: seq<Element>)
    requires |path| > 0
    ensures var text := NormalizeText(Last(path).textContent);
      var snippet := GetLocatorData(path).textSnippet;
      && (|text| <= 160 ==> snippet == text)
      && (|text| > 160 ==> snippet == text[..160] + "...")
  {
  }

  // ---------------------------------------------------------------------------
  // HTML snippet

  /** `<tag#id class="...">`, with the raw class attribute. */
  function OpenTag(e: Element): string {
    "<" + Lower(e.tagName) + IdPart(e) + (if e.className != "" then " class=\"" + e.className + "\"" else "") + ">"
  }

  const SnippetTextLimit: nat := 60

  /** The element's text, normalised and cut at 60 characters. */
  function SnippetText(path: seq<Element>): (t: string)
    requires |path| > 0
    ensures |t| <= SnippetTextLimit + 3
  {
    TruncateBound(NormalizeText(Last(path).textContent), SnippetTextLimit);
    Truncate(NormalizeText(Last(path).textContent), SnippetTextLimit)
  }

  /** The tree line of an element at depth `depth`. */
  function TreeLine(depth: nat, e: Element): string {
    Indent(depth) + OpenTag(e)
  }

  /** One line per ancestor, root first, the i-th indented by 2i blanks. */
  function AncestorLines(path: seq<Element>): (lines: seq<string>)
    ensures |lines| == |path|
    ensures forall i :: 0 <= i < |path| ==> lines[i] == TreeLine(i, path[i])
  {
    seq(|path|, i requires 0 <= i < |path| => TreeLine(i, path[i]))
  }

  /** The text line, indented one level below the element, left out when
      the element has no text. */
  function TextLine(path: seq<Element>): (lines: seq<string>)
    requires |path| > 0
    ensures |lines| <= 1
    ensures lines == [] <==> NormalizeText(Last(path).textContent) == ""
  {
    var t := SnippetText(path);
    TruncateBound(NormalizeText(Last(path).textContent), SnippetTextLimit);
    if t != "" then [Indent(|path|) + t] else []
  }

  /** "Path: " and the CSS path. */
  function PathLine(path: seq<Element>): string {
    "Path: " + CssPath(path)
  }

  function SnippetLines(path: seq<Element>): (lines: seq<string>)
    requires |path| > 0
    ensures |lines| == 3 + |path| + |TextLine(path)|
  {
    [FormatVueChain(ComponentChain(path)), "\n" + PathLine(path), ""] + AncestorLines(path) + TextLine(path)
  }

  /** The HTML snippet: the chain line, a blank line, "Path: " and the CSS
      path, a blank line, then the indented tree. */
  function HtmlSnippet(path: seq<Element>): string
    requires |path| > 0
  {
    Join(SnippetLines(path), "\n")
  }

  /** The source's tree loops: collect the ancestors root first, then emit
      one indented line per ancestor. */
  method AncestorLinesBuild(path: seq<Element>) returns (tree: seq<string>)
    ensures tree == AncestorLines(path)
  {
    var ancestors: seq<Element> := [];
    var cur := |path|;
    while cur > 0
      invariant 0 <= cur <= |path|
      invariant ancestors == path[cur..]
    {
      cur := cur - 1;
      ancestors := [path[cur]] + ancestors;
    }
    assert ancestors == path;
    tree := [];
    var i := 0;
    while i < |ancestors|
      invariant 0 <= i <= |ancestors|
      invariant tree == AncestorLines(path)[..i]
    {
      var line := TreeLine(i, ancestors[i]);
      assert AncestorLines(path)[..i + 1] == AncestorLines(path)[..i] + [line];
      tree := tree + [line];
      i := i + 1;
    }
  }

  /** The source's construction: the header lines, the tree, and the text
      line when there is text. */
  method HtmlSnippetBuild(path: seq<Element>) returns (r: string)
    requires |path| > 0
    ensures r == HtmlSnippet(path)
  {
    var css := CssPathWalk(path);
    var lines := [FormatVueChain(ComponentChain(path)), "\n" + ("Path: " + css), ""];
    var tree := AncestorLinesBuild(path);
    lines := lines + tree;
    var text := NormalizeText(Last(path).textContent);
    var truncated := if |text| > 60 then text[..60] + "..." else text;
    assert truncated == SnippetText(path);
    if truncated != "" {
      lines := lines + [Indent(|path|) + truncated];
    }
    assert lines == SnippetLines(path);
    r := Join(lines, "\n");
  }

  /** The snippet's lines in order: chain line, path line, blank line,
      ancestors with 2i-blank indentation, and the truncated text line. */
  lemma LayoutShape(a: string, b: string, tree: seq<string>, text: seq<string>)
    ensures var lines := [a, b, ""] + tree + text;
      && lines[0] == a && lines[1] == b && lines[2] == ""
      && lines[3..3 + |tree|] == tree && lines[3 + |tree|..] == text
  {
  }

  lemma SnippetLayout(path: seq<Element>)
    requires |path| > 0
    ensures var lines := SnippetLines(path);
      && lines[0] == FormatVueChain(ComponentChain(path))
      && lines[1] == "\n" + PathLine(path)
      && lines[2] == ""
      && lines[3..3 + |path|] == AncestorLines(path)
      && (SnippetText(path) == "" <==> |lines| == 3 + |path|)
      && (SnippetText(path) != "" ==> lines[3 + |path|] == Indent(|path|) + SnippetText(path))
  {
    LayoutShape(FormatVueChain(ComponentChain(path)), "\n" + PathLine(path), AncestorLines(path), TextLine(path));
  }

  // ---------------------------------------------------------------------------
  // Element under the pointer

  /** What `Element.matches(selector)` does: match, no match, or throw. */
  datatype MatchOutcome = Matches | NoMatch | Throws

  const CommonTags: seq<string> := ["header", "nav", "footer", "aside"]

  function LowerAll(xs: seq<string>): (r: seq<string>)
    ensures |r| == |xs|
    ensures forall i :: 0 <= i < |xs| ==> r[i] == Lower(xs[i])
  {
    seq(|xs|, i requires 0 <= i < |xs| => Lower(xs[i]))
  }

  /** The selector loop: empty selectors are skipped, the first match
      answers true, and a throwing selector ends the loop with false. */
  function SelectorsMatch(e: Element, sels: seq<string>, matches: (Element, string) -> MatchOutcome): (r: bool)
    ensures r <==> exists i :: 0 <= i < |sels| && sels[i] != "" && matches(e, sels[i]) == Matches && (forall j :: 0 <= j < i ==> sels[j] == "" || matches(e, sels[j]) == NoMatch)
    decreases |sels|
  {
    if sels == [] then false
    else
      var rest := SelectorsMatch(e, sels[1..], matches);
      assert forall j :: 1 <= j < |sels| ==> sels[j] == sels[1..][j - 1];
      if sels[0] == "" then rest
      else match matches(e, sels[0])
        case Matches => true
        case Throws => false
        case NoMatch => rest
  }

  /** Whether the ignore rules skip an element: an ignored tag (compared in
      lower case), a landmark tag when enabled, or a matching selector. */
  predicate ShouldIgnore(e: Element, f: Config.Filter, matches: (Element, string) -> MatchOutcome) {
    var tag := Lower(e.tagName);
    if tag in LowerAll(f.ignoreTags.GetOr([])) then true
    else if Config.Truthy(f.skipCommonComponents) && tag in CommonTags then true
    else SelectorsMatch(e, f.ignoreSelectors.GetOr([]), matches)
  }

  /** Tags are ignored whatever their case in the rule or the page. */
  lemma IgnoreTagCaseInsensitive(e: Element, f: Config.Filter, matches: (Element, string) -> MatchOutcome, t: string)
    requires f.ignoreTags.Some? && t in f.ignoreTags.value && Lower(t) == Lower(e.tagName)
    ensures ShouldIgnore(e, f, matches)
  {
    var i :| 0 <= i < |f.ignoreTags.value| && f.ignoreTags.value[i] == t;
    assert LowerAll(f.ignoreTags.value)[i] == Lower(e.tagName);
  }

  /** Index of the nearest ancestor-or-self that is not ignored. */
  function IgnoreWalk(path: seq<Element>, f: Config.Filter, matches: (Element, string) -> MatchOutcome): (r: Option<nat>)
    ensures r.Some? ==> r.value < |path| && !ShouldIgnore(path[r.value], f, matches) && (forall j :: r.value < j < |path| ==> ShouldIgnore(path[j], f, matches))
    ensures r.None? ==> forall j :: 0 <= j < |path| ==> ShouldIgnore(path[j], f, matches)
  {
    if path == [] then None
    else if !ShouldIgnore(Last(path), f, matches) then Some(|path| - 1)
    else
      var r := IgnoreWalk(path[..|path| - 1], f, matches);
      assert forall j :: 0 <= j < |path| - 1 ==> path[..|path| - 1][j] == path[j];
      r
  }

  /** The element under the pointer after the ignore walk. `hit` is the
      element the hit test returned (after looking through the tool's own
      overlay), given by its ancestor path, or `None`. The answer is the
      ancestor path of the resolved element, a prefix of `hit`. */
  function ElementAtMouse(hit: Option<seq<Element>>, f: Config.Filter, matches: (Element, string) -> MatchOutcome): (r: Option<seq<Element>>)
    ensures hit.None? ==> r.None?
    ensures r.Some? ==> hit.Some? && 0 < |r.value| <= |hit.value| && r.value == hit.value[..|r.value|]
    ensures r.Some? ==> !ShouldIgnore(Last(r.value), f, matches)
    ensures r.Some? ==> forall j :: |r.value| <= j < |hit.value| ==> ShouldIgnore(hit.value[j], f, matches)
    ensures hit.Some? && r.None? ==> forall j :: 0 <= j < |hit.value| ==> ShouldIgnore(hit.value[j], f, matches)
  {
    match hit
    case None => None
    case Some(p) =>
      match IgnoreWalk(p, f, matches)
      case None => None
      case Some(k) => Some(p[..k + 1])
  }

  /** With no ignore rules, the hit element itself is returned. */
  lemma NoRulesKeepsHit(path: seq<Element>, matches: (Element, string) -> MatchOutcome)
    requires |path| > 0
    ensures ElementAtMouse(Some(path), Config.Filter(Some([]), Some([]), Some(false)), matches) == Some(path)
  {
    var f := Config.Filter(Some([]), Some([]), Some(false));
    assert !ShouldIgnore(Last(path), f, matches);
    assert path[..|path|] == path;
  }
}
