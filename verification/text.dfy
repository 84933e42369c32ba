/** String primitives the locator and parser code relies on, written as in
    JavaScript: `trim`, `replace(/\s+/g, " ")`, `split(/\s+/)`, `join`,
    `repeat`, `startsWith`, `includes`, `slice` and `toLowerCase`. */
module Text {

  /** White space as JavaScript's `trim` and the regular expression `\s` see
      it: the WhiteSpace and LineTerminator characters of ECMAScript. */
  predicate IsSpace(c: char) {
    || c == ' ' || c == '\t' || c == '\n' || c == '\r'
    || c == '\U{000B}' || c == '\U{000C}' || c == '\U{00A0}' || c == '\U{1680}'
    || ('\U{2000}' <= c <= '\U{200A}')
    || c == '\U{2028}' || c == '\U{2029}' || c == '\U{202F}' || c == '\U{205F}'
    || c == '\U{3000}' || c == '\U{FEFF}'
  }

  predicate NoSpace(s: string) {
    forall i :: 0 <= i < |s| ==> !IsSpace(s[i])
  }

  predicate AllSpace(s: string) {
    forall i :: 0 <= i < |s| ==> IsSpace(s[i])
  }

  /** `toLowerCase` on one character; only the ASCII letters are mapped. */
  function LowerChar(c: char): char {
    if 'A' <= c <= 'Z' then (c as int - 'A' as int + 'a' as int) as char else c
  }

  function Lower(s: string): (r: string)
    ensures |r| == |s|
    ensures forall i :: 0 <= i < |s| ==> r[i] == LowerChar(s[i])
  {
    if s == [] then [] else [LowerChar(s[0])] + Lower(s[1..])
  }

  lemma LowerIdempotent(s: string)
    ensures Lower(Lower(s)) == Lower(s)
  {
  }

  // ---------------------------------------------------------------------------
  // trim

  /** Drops the leading white space. */
  function TrimStart(s: string): (r: string)
    ensures |r| <= |s| && r == s[|s| - |r|..]
    ensures forall i :: 0 <= i < |s| - |r| ==> IsSpace(s[i])
    ensures r == [] || !IsSpace(r[0])
    ensures |s| > 0 && IsSpace(s[0]) ==> |r| < |s|
  {
    if |s| > 0 && IsSpace(s[0]) then TrimStart(s[1..]) else s
  }

  /** Drops the trailing white space. */
  function TrimEnd(s: string): (r: string)
    ensures |r| <= |s| && r == s[..|r|]
    ensures forall i :: |r| <= i < |s| ==> IsSpace(s[i])
    ensures r == [] || !IsSpace(r[|r| - 1])
  {
    if |s| > 0 && IsSpace(s[|s| - 1]) then TrimEnd(s[..|s| - 1]) else s
  }

  /** JavaScript's `trim`. */
  function Trim(s: string): (r: string)
    ensures |r| <= |s|
    ensures r == [] || (!IsSpace(r[0]) && !IsSpace(r[|r| - 1]))
  {
    TrimEnd(TrimStart(s))
  }

  lemma TrimNoEdgeSpace(s: string)
    requires s == [] || (!IsSpace(s[0]) && !IsSpace(s[|s| - 1]))
    ensures Trim(s) == s
  {
  }

  /** The characters `trim` removes are exactly white space, so a string of
      white space trims to the empty string and nothing else does. */
  lemma TrimEmptyIffAllSpace(s: string)
    ensures Trim(s) == [] <==> AllSpace(s)
  {
    var t := TrimStart(s);
    if !AllSpace(s) {
      var k :| 0 <= k < |s| && !IsSpace(s[k]);
      assert t[k - (|s| - |t|)] == s[k];
    }
  }

  // ---------------------------------------------------------------------------
  // replace(/\s+/g, " ")

  /** Replaces every maximal run of white space by one blank. */
  function Collapse(s: string): (r: string)
    ensures |r| <= |s|
    decreases |s|
  {
    if s == [] then []
    else if IsSpace(s[0]) then [' '] + Collapse(TrimStart(s))
    else [s[0]] + Collapse(s[1..])
  }

  /** A string in the form `Collapse` produces: every white-space character is
      a blank, and no two blanks are adjacent. */
  predicate Collapsed(s: string) {
    && (forall i :: 0 <= i < |s| && IsSpace(s[i]) ==> s[i] == ' ')
    && (forall i :: 0 <= i < |s| - 1 ==> !(IsSpace(s[i]) && IsSpace(s[i + 1])))
  }

  /** `Collapse` keeps the first character when it is not white space and
      turns a leading run of white space into one blank. */
  lemma CollapseFirst(s: string)
    ensures s == [] <==> Collapse(s) == []
    ensures s != [] ==> Collapse(s)[0] == (if IsSpace(s[0]) then ' ' else s[0])
  {
  }

  lemma {:induction false} CollapseCollapsed(s: string)
    ensures Collapsed(Collapse(s))
    decreases |s|
  {
    if s == [] {
    } else if IsSpace(s[0]) {
      var t := TrimStart(s);
      CollapseCollapsed(t);
      CollapseFirst(t);
      assert Collapse(s) == [' '] + Collapse(t);
      CollapsedCons(' ', Collapse(t));
    } else {
      CollapseCollapsed(s[1..]);
      assert Collapse(s) == [s[0]] + Collapse(s[1..]);
      CollapsedCons(s[0], Collapse(s[1..]));
    }
  }

  /** A character in front of a collapsed string keeps it collapsed when it
      is not white space, or is a blank before a non-blank. */
  lemma CollapsedCons(c: char, r: string)
    requires Collapsed(r)
    requires IsSpace(c) ==> c == ' ' && (r == [] || !IsSpace(r[0]))
    ensures Collapsed([c] + r)
  {
    var s := [c] + r;
    forall i | 0 <= i < |s| && IsSpace(s[i])
      ensures s[i] == ' '
    {
      if i > 0 {
        assert s[i] == r[i - 1];
      }
    }
    forall i | 0 <= i < |s| - 1
      ensures !(IsSpace(s[i]) && IsSpace(s[i + 1]))
    {
      assert s[i + 1] == r[i];
      if i > 0 {
        assert s[i] == r[i - 1];
      }
    }
  }

  /** The last character of `Collapse(s)` is white space iff that of `s` is. */
  lemma {:induction false} CollapseLast(s: string)
    ensures var r := Collapse(s);
      (r != [] && IsSpace(r[|r| - 1])) <==> (s != [] && IsSpace(s[|s| - 1]))
    decreases |s|
  {
    if s == [] {
    } else if IsSpace(s[0]) {
      var t := TrimStart(s);
      assert Collapse(s) == [' '] + Collapse(t);
      CollapseLast(t);
      CollapseFirst(t);
      if t == [] {
        assert IsSpace(s[|s| - 1]);
      } else {
        assert s[|s| - 1] == t[|t| - 1];
      }
    } else {
      assert Collapse(s) == [s[0]] + Collapse(s[1..]);
      CollapseLast(s[1..]);
      CollapseFirst(s[1..]);
      if |s| > 1 {
        assert s[|s| - 1] == s[1..][|s[1..]| - 1];
      }
    }
  }

  /** A string already in collapsed form is left unchanged. */
  lemma {:induction false} CollapseFixpoint(s: string)
    requires Collapsed(s)
    ensures Collapse(s) == s
    decreases |s|
  {
    if s == [] {
    } else if IsSpace(s[0]) {
      assert s[0] == ' ';
      assert |s| == 1 || !IsSpace(s[1]);
      assert TrimStart(s) == s[1..] by {
        assert TrimStart(s) == TrimStart(s[1..]);
      }
      assert Collapsed(s[1..]) by {
        forall i | 0 <= i < |s[1..]| - 1
          ensures !(IsSpace(s[1..][i]) && IsSpace(s[1..][i + 1]))
        {
          assert s[1..][i] == s[i + 1] && s[1..][i + 1] == s[i + 2];
        }
      }
      CollapseFixpoint(s[1..]);
    } else {
      assert Collapsed(s[1..]) by {
        forall i | 0 <= i < |s[1..]| - 1
          ensures !(IsSpace(s[1..][i]) && IsSpace(s[1..][i + 1]))
        {
          assert s[1..][i] == s[i + 1] && s[1..][i + 1] == s[i + 2];
        }
      }
      CollapseFixpoint(s[1..]);
    }
  }

  /** `(text || "").trim().replace(/\s+/g, " ")`. */
  function NormalizeText(s: string): (r: string)
    ensures Collapsed(r)
    ensures r == [] || (!IsSpace(r[0]) && !IsSpace(r[|r| - 1]))
    ensures |r| <= |s|
  {
    var t := Trim(s);
    CollapseCollapsed(t);
    CollapseEdges(t);
    Collapse(t)
  }

  /** The collapsed form of a trimmed string is again trimmed. */
  lemma CollapseEdges(t: string)
    requires t == [] || (!IsSpace(t[0]) && !IsSpace(t[|t| - 1]))
    ensures var r := Collapse(t); r == [] || (!IsSpace(r[0]) && !IsSpace(r[|r| - 1]))
  {
    CollapseFirst(t);
    CollapseLast(t);
  }

  /** Normalising text twice is the same as normalising it once. */
  lemma NormalizeTextIdempotent(s: string)
    ensures NormalizeText(NormalizeText(s)) == NormalizeText(s)
  {
    var r := NormalizeText(s);
    TrimNoEdgeSpace(r);
    CollapseFixpoint(r);
  }

  // ---------------------------------------------------------------------------
  // split(/\s+/)

  /** The longest prefix without white space. */
  function Word(s: string): (w: string)
    ensures |w| <= |s| && w == s[..|w|]
    ensures NoSpace(w)
    ensures |w| < |s| ==> IsSpace(s[|w|])
  {
    if s == [] || IsSpace(s[0]) then [] else [s[0]] + Word(s[1..])
  }

  /** JavaScript's `s.split(/\s+/)`: the pieces between maximal runs of white
      space; a leading (trailing) run yields an empty first (last) piece, and
      the empty string yields one empty piece. */
  function SplitSpaces(s: string): (r: seq<string>)
    ensures |r| >= 1
    ensures forall i :: 0 <= i < |r| ==> NoSpace(r[i])
    decreases |s|
  {
    var w := Word(s);
    var rest := s[|w|..];
    if rest == [] then [w] else [w] + SplitSpaces(TrimStart(rest))
  }

  /** Joining the pieces with one blank gives the collapsed string. */
  lemma {:induction false} SplitSpacesJoin(s: string)
    ensures Join(SplitSpaces(s), " ") == Collapse(s)
    decreases |s|
  {
    var w := Word(s);
    var rest := s[|w|..];
    if rest == [] {
      assert |w| == |s|;
      assert s == w;
      assert SplitSpaces(s) == [s];
      CollapseNoSpace(s);
    } else {
      var t := TrimStart(rest);
      assert SplitSpaces(s) == [w] + SplitSpaces(t);
      SplitSpacesJoin(t);
      assert s == w + rest;
      SplitJoinStep(w, rest);
    }
  }

  /** One word, then white space and the rest whose pieces join to its
      collapsed form. */
  lemma SplitJoinStep(w: string, rest: string)
    requires NoSpace(w) && rest != [] && IsSpace(rest[0])
    requires Join(SplitSpaces(TrimStart(rest)), " ") == Collapse(TrimStart(rest))
    ensures Join([w] + SplitSpaces(TrimStart(rest)), " ") == Collapse(w + rest)
  {
    var t := TrimStart(rest);
    JoinCons(w, SplitSpaces(t), " ");
    CollapseAppend(w, rest);
    CollapseSpaceHead(rest);
    ConcatAssoc(w, " ", Collapse(t));
  }

  lemma ConcatAssoc<T>(a: seq<T>, b: seq<T>, c: seq<T>)
    ensures a + b + c == a + (b + c)
  {
  }

  lemma JoinCons(x: string, xs: seq<string>, sep: string)
    requires |xs| >= 1
    ensures Join([x] + xs, sep) == x + sep + Join(xs, sep)
  {
    assert ([x] + xs)[1..] == xs;
  }

  lemma {:induction false} JoinSnoc(xs: seq<string>, x: string, sep: string)
    requires |xs| > 0
    ensures Join(xs + [x], sep) == Join(xs, sep) + sep + x
    decreases |xs|
  {
    if |xs| == 1 {
      assert (xs + [x])[1..] == [x];
    } else {
      assert (xs + [x])[1..] == xs[1..] + [x];
      JoinSnoc(xs[1..], x, sep);
    }
  }

  lemma CollapseSpaceHead(s: string)
    requires s != [] && IsSpace(s[0])
    ensures Collapse(s) == [' '] + Collapse(TrimStart(s))
  {
  }

  lemma {:induction false} CollapseNoSpace(s: string)
    requires NoSpace(s)
    ensures Collapse(s) == s
    decreases |s|
  {
    if s != [] {
      CollapseNoSpace(s[1..]);
    }
  }

  lemma {:induction false} CollapseAppend(w: string, rest: string)
    requires NoSpace(w)
    ensures Collapse(w + rest) == w + Collapse(rest)
    decreases |w|
  {
    if w != [] {
      var s := w + rest;
      assert s[0] == w[0] && !IsSpace(w[0]);
      assert s[1..] == w[1..] + rest;
      assert Collapse(s) == [w[0]] + Collapse(s[1..]);
      CollapseAppend(w[1..], rest);
      assert w == [w[0]] + w[1..];
    } else {
      assert w + rest == rest;
    }
  }

  /** For trimmed, non-empty input no piece is empty; the empty string yields
      the single piece "". */
  lemma {:induction false} SplitSpacesPieces(s: string)
    ensures s == [] ==> SplitSpaces(s) == [[]]
    ensures s != [] && !IsSpace(s[0]) && !IsSpace(s[|s| - 1]) ==>
      forall i :: 0 <= i < |SplitSpaces(s)| ==> SplitSpaces(s)[i] != []
    decreases |s|
  {
    if s != [] && !IsSpace(s[0]) && !IsSpace(s[|s| - 1]) {
      var w := Word(s);
      var rest := s[|w|..];
      assert w != [] by { assert w == [s[0]] + Word(s[1..]); }
      if rest != [] {
        var t := TrimStart(rest);
        TrimmedTail(s);
        SplitSpacesPieces(t);
        var tail := SplitSpaces(t);
        assert SplitSpaces(s) == [w] + tail;
        PiecesCons(w, tail);
      }
    }
  }

  /** What follows the first word and its white space is again trimmed and
      shorter. */
  lemma TrimmedTail(s: string)
    requires s != [] && !IsSpace(s[|s| - 1]) && |Word(s)| < |s|
    ensures var t := TrimStart(s[|Word(s)|..]);
      t != [] && !IsSpace(t[0]) && !IsSpace(t[|t| - 1]) && |t| < |s|
  {
    var w := Word(s);
    var rest := s[|w|..];
    assert |rest| == |s| - |w| && rest[0] == s[|w|];
    assert rest[|rest| - 1] == s[|s| - 1];
    TrimStartKeepsLast(rest);
    var t := TrimStart(rest);
    assert |t| < |rest|;
  }

  lemma PiecesCons(w: string, tail: seq<string>)
    requires w != [] && forall i :: 0 <= i < |tail| ==> tail[i] != []
    ensures forall i :: 0 <= i < |[w] + tail| ==> ([w] + tail)[i] != []
  {
  }

  lemma {:induction false} TrimStartKeepsLast(s: string)
    requires s != [] && !IsSpace(s[|s| - 1])
    ensures TrimStart(s) != [] && TrimStart(s)[|TrimStart(s)| - 1] == s[|s| - 1]
  {
    if IsSpace(s[0]) {
      assert s[1..][|s| - 2] == s[|s| - 1];
      TrimStartKeepsLast(s[1..]);
    }
  }

  /** Keeps the non-empty pieces (`.filter(Boolean)`). */
  function NonEmpty(xs: seq<string>): (r: seq<string>)
    ensures |r| <= |xs|
    ensures forall i :: 0 <= i < |r| ==> r[i] != [] && r[i] in xs
    ensures forall x :: x in xs && x != [] ==> x in r
  {
    if xs == [] then []
    else if xs[0] == [] then NonEmpty(xs[1..])
    else [xs[0]] + NonEmpty(xs[1..])
  }

  // ---------------------------------------------------------------------------
  // join, repeat, slice

  /** `parts.join(sep)`. */
  function Join(parts: seq<string>, sep: string): string
    decreases |parts|
  {
    if |parts| == 0 then ""
    else if |parts| == 1 then parts[0]
    else parts[0] + sep + Join(parts[1..], sep)
  }

  /** `s.repeat(n)`. */
  function Repeat(s: string, n: nat): (r: string)
    ensures |r| == n * |s|
  {
    if n == 0 then "" else s + Repeat(s, n - 1)
  }

  /** `"  ".repeat(n)`: the indentation of depth `n`, all blanks. */
  function Indent(n: nat): (r: string)
    ensures |r| == 2 * n
    ensures forall i :: 0 <= i < |r| ==> r[i] == ' '
  {
    if n == 0 then "" else "  " + Indent(n - 1)
  }

  /** `s.length > n ? s.slice(0, n) + "..." : s`. */
  function Truncate(s: string, n: nat): (r: string)
    ensures |s| <= n ==> r == s
    ensures |s| > n ==> |r| == n + 3 && r[..n] == s[..n] && r[n..] == "..."
  {
    if |s| > n then s[..n] + "..." else s
  }

  lemma TruncateBound(s: string, n: nat)
    ensures |Truncate(s, n)| <= n + 3
    ensures Truncate(s, n) == [] <==> s == []
  {
  }

  predicate StartsWith(s: string, p: string) {
    |p| <= |s| && s[..|p|] == p
  }

  predicate EndsWith(s: string, p: string) {
    |p| <= |s| && s[|s| - |p|..] == p
  }

  /** `s.includes(sub)`. */
  predicate Contains(s: string, sub: string)
    decreases |s|
  {
    StartsWith(s, sub) || (|s| > 0 && Contains(s[1..], sub))
  }

  lemma {:induction false} ContainsAt(s: string, sub: string, i: nat)
    requires i + |sub| <= |s| && s[i..i + |sub|] == sub
    ensures Contains(s, sub)
    decreases i
  {
    if i > 0 {
      assert s[1..][i - 1..i - 1 + |sub|] == s[i..i + |sub|];
      ContainsAt(s[1..], sub, i - 1);
    }
  }

  lemma ContainsSelf(s: string, p: string, q: string)
    ensures Contains(p + s + q, s)
  {
    var t := p + s + q;
    assert t[|p|..|p| + |s|] == s;
    ContainsAt(t, s, |p|);
  }

  /** `s.replace(c, "")` with a one-character pattern: drops the first
      occurrence of `c` only. */
  function RemoveFirst(s: string, c: char): (r: string)
    ensures c !in s ==> r == s
    ensures c in s ==> |r| == |s| - 1
  {
    if s == [] then []
    else if s[0] == c then s[1..]
    else [s[0]] + RemoveFirst(s[1..], c)
  }
}
