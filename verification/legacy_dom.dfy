/** Element lookup and snippet of the original single-package build. Its CSS
    path is the same as the current package's (`Dom.CssPath`); its snippet
    has no component line, and its lookup applies no ignore rules. */
module LegacyDom {
  import opened Wrappers
  import opened Text
  import opened Dom
  import Config

  /** The element under the pointer: the hit element itself, when there is one. */
  function LegacyElementAtMouse(hit: Option<seq<Element>>): (r: Option<seq<Element>>)
    ensures r.Some? ==> hit == r && |r.value| > 0
    ensures r.None? ==> hit.None? || hit.value == []
  {
    match hit
    case None => None
    case Some(p) => if p == [] then None else Some(p)
  }

  /** Ignore rules that ignore nothing. */
  const NoRules := Config.Filter(Some([]), Some([]), Some(false))

  /** The legacy lookup is the current lookup with no ignore rules. */
  lemma LegacyLookupIsUnfiltered(hit: Option<seq<Element>>, matches: (Element, string) -> MatchOutcome)
    ensures LegacyElementAtMouse(hit) == ElementAtMouse(hit, NoRules, matches)
  {
    if hit.Some? && hit.value != [] {
      NoRulesKeepsHit(hit.value, matches);
    }
  }

  function LegacySnippetLines(path: seq<Element>): (lines: seq<string>)
    requires |path| > 0
    ensures |lines| == 2 + |path| + |TextLine(path)|
  {
    [PathLine(path), ""] + AncestorLines(path) + TextLine(path)
  }

  /** The legacy snippet: "Path: " and the CSS path, a blank line, then the
      same indented tree as the current package. */
  function LegacyHtmlSnippet(path: seq<Element>): string
    requires |path| > 0
  {
    Join(LegacySnippetLines(path), "\n")
  }

  lemma JoinHead(a: string, b: string, rest: seq<string>, nl: string)
    requires |rest| >= 1
    ensures Join([a, b] + rest, nl) == a + nl + (b + nl + Join(rest, nl))
  {
    assert [a, b] + rest == [a] + ([b] + rest);
    JoinCons(a, [b] + rest, nl);
    JoinCons(b, rest, nl);
  }

  lemma Regroup<T>(x: T, y: T, y2: T, z: T, xs: seq<T>, ys: seq<T>)
    ensures [x, y, z] + xs + ys == [x, y] + ([z] + xs + ys)
    ensures [y2, z] + xs + ys == [y2] + ([z] + xs + ys)
  {
  }

  lemma HeaderJoin(a: string, p: string, rest: seq<string>)
    requires |rest| >= 1
    ensures Join([a, "\n" + p] + rest, "\n") == a + "\n\n" + Join([p] + rest, "\n")
  {
    var nl := "\n";
    var tail := p + nl + Join(rest, nl);
    JoinHead(a, nl + p, rest, nl);
    JoinCons(p, rest, nl);
    ConcatAssoc(nl, p, nl);
    ConcatAssoc(nl, p + nl, Join(rest, nl));
    ConcatAssoc(a, nl, nl);
    ConcatAssoc(a + nl, nl, tail);
    assert nl + nl == "\n\n";
  }

  /** The current snippet is the legacy one preceded by the component chain
      line and a blank line. */
  lemma HtmlSnippetExtendsLegacy(path: seq<Element>)
    requires |path| > 0
    ensures HtmlSnippet(path) == FormatVueChain(ComponentChain(path)) + "\n\n" + LegacyHtmlSnippet(path)
  {
    var a := FormatVueChain(ComponentChain(path));
    var rest := [""] + AncestorLines(path) + TextLine(path);
    Regroup(a, "\n" + PathLine(path), PathLine(path), "", AncestorLines(path), TextLine(path));
    HeaderJoin(a, PathLine(path), rest);
  }
}
