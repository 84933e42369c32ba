/** The line buffering shared by both event-stream readers: each decoded
    chunk is appended to a buffer, the buffer is split on "\n", every piece
    but the last is handed on as a complete line, and the last piece is kept
    as the new buffer. */
module LineBuffer {
  import opened Text

  predicate NoNewline(s: string) {
    '\n' !in s
  }

  /** The text before the first "\n" (all of `s` when there is none). */
  function LineOf(s: string): (w: string)
    ensures |w| <= |s| && w == s[..|w|]
    ensures NoNewline(w)
    ensures |w| < |s| ==> s[|w|] == '\n'
  {
    if s == [] || s[0] == '\n' then [] else [s[0]] + LineOf(s[1..])
  }

  /** `s.split("\n")`: the pieces between the newlines, in order; there is
      always one piece more than there are newlines. */
  function SplitLines(s: string): (r: seq<string>)
    ensures |r| >= 1
    ensures forall i :: 0 <= i < |r| ==> NoNewline(r[i])
    decreases |s|
  {
    var w := LineOf(s);
    if |w| == |s| then [w] else [w] + SplitLines(s[|w| + 1..])
  }

  /** The complete lines of `s`: every piece but the last. */
  function CompleteLines(s: string): (r: seq<string>)
    ensures |r| == |SplitLines(s)| - 1
  {
    var pieces := SplitLines(s);
    pieces[..|pieces| - 1]
  }

  /** The unterminated rest of `s`: the last piece. */
  function Remainder(s: string): (r: string)
    ensures NoNewline(r)
  {
    var pieces := SplitLines(s);
    pieces[|pieces| - 1]
  }

  lemma SplitLinesShape(s: string)
    ensures SplitLines(s) == CompleteLines(s) + [Remainder(s)]
  {
  }

  lemma LineOfPrefix(w: string, rest: string)
    requires NoNewline(w)
    ensures LineOf(w + "\n" + rest) == w
    decreases |w|
  {
    if w != [] {
      assert (w + "\n" + rest)[1..] == w[1..] + "\n" + rest;
      LineOfPrefix(w[1..], rest);
    }
  }

  /** A newline-terminated line splits into the line and an empty rest. */
  lemma SplitTerminated(x: string)
    requires NoNewline(x)
    ensures SplitLines(x + "\n") == [x, ""]
  {
    assert x + "\n" + "" == x + "\n";
    LineOfPrefix(x, "");
    assert (x + "\n")[|x| + 1..] == "";
  }

  /** Splitting on "\n" and joining with "\n" gives back the text. */
  lemma {:induction false} JoinSplitLines(s: string)
    ensures Join(SplitLines(s), "\n") == s
    decreases |s|
  {
    var w := LineOf(s);
    if |w| < |s| {
      var rest := s[|w| + 1..];
      JoinSplitLines(rest);
      JoinSplitStep(s);
    }
  }

  lemma JoinSplitStep(s: string)
    requires |LineOf(s)| < |s|
    requires var rest := s[|LineOf(s)| + 1..]; Join(SplitLines(rest), "\n") == rest
    ensures Join(SplitLines(s), "\n") == s
  {
    var w := LineOf(s);
    var rest := s[|w| + 1..];
    SplitStep(s);
    JoinCons(w, SplitLines(rest), "\n");
    assert s == w + "\n" + rest;
  }

  /** Joining newline-free pieces with "\n" and splitting again gives back
      the pieces. */
  lemma {:induction false} SplitJoinLines(pieces: seq<string>)
    requires |pieces| >= 1
    requires forall i :: 0 <= i < |pieces| ==> NoNewline(pieces[i])
    ensures SplitLines(Join(pieces, "\n")) == pieces
    decreases |pieces|
  {
    if |pieces| > 1 {
      var rest := Join(pieces[1..], "\n");
      var s := pieces[0] + "\n" + rest;
      LineOfPrefix(pieces[0], rest);
      assert s[|pieces[0]| + 1..] == rest;
      SplitJoinLines(pieces[1..]);
      assert pieces == [pieces[0]] + pieces[1..];
    } else {
      SplitNoNewlineSingle(pieces[0]);
    }
  }

  lemma {:induction false} LineOfExtend(s: string, c: string)
    requires |LineOf(s)| < |s|
    ensures LineOf(s + c) == LineOf(s)
    decreases |s|
  {
    if s[0] != '\n' {
      assert (s + c)[1..] == s[1..] + c;
      LineOfExtend(s[1..], c);
    }
  }

  lemma SliceAppend<T>(s: seq<T>, c: seq<T>, k: nat)
    requires k <= |s|
    ensures (s + c)[k..] == s[k..] + c
  {
  }

  /** Appending text only touches the last piece: the pieces of `s + c` are
      the complete lines of `s` followed by the pieces of its remainder
      extended by `c`. */
  lemma {:induction false} SplitAppend(s: string, c: string)
    ensures SplitLines(s + c) == CompleteLines(s) + SplitLines(Remainder(s) + c)
    decreases |s|
  {
    var w := LineOf(s);
    if |w| == |s| {
      assert CompleteLines(s) == [];
      assert Remainder(s) == s;
    } else {
      SplitAppend(s[|w| + 1..], c);
      SplitAppendStep(s, c);
    }
  }

  /** The step of `SplitAppend` past the first newline, given the rest. */
  lemma SplitAppendStep(s: string, c: string)
    requires |LineOf(s)| < |s|
    requires var rest := s[|LineOf(s)| + 1..];
      SplitLines(rest + c) == CompleteLines(rest) + SplitLines(Remainder(rest) + c)
    ensures SplitLines(s + c) == CompleteLines(s) + SplitLines(Remainder(s) + c)
  {
    var w := LineOf(s);
    var rest := s[|w| + 1..];
    var a, b := CompleteLines(rest), SplitLines(Remainder(rest) + c);
    assert SplitLines(s + c) == [w] + (a + b) by {
      LineOfExtend(s, c);
      SliceAppend(s, c, |w| + 1);
      SplitStep(s + c);
    }
    assert CompleteLines(s) == [w] + a && Remainder(s) == Remainder(rest) by {
      CompleteStep(s);
    }
    ConsAssoc(w, a, b);
  }

  lemma ConsAssoc<T>(x: T, a: seq<T>, b: seq<T>)
    ensures [x] + (a + b) == ([x] + a) + b
  {
  }

  lemma SplitStep(s: string)
    requires |LineOf(s)| < |s|
    ensures SplitLines(s) == [LineOf(s)] + SplitLines(s[|LineOf(s)| + 1..])
  {
  }

  /** Past the first newline, the complete lines continue with the rest's
      and the remainder is the rest's. */
  lemma CompleteStep(s: string)
    requires |LineOf(s)| < |s|
    ensures CompleteLines(s) == [LineOf(s)] + CompleteLines(s[|LineOf(s)| + 1..])
    ensures Remainder(s) == Remainder(s[|LineOf(s)| + 1..])
  {
    SplitStep(s);
  }

  lemma CompleteLinesAppend(s: string, c: string)
    ensures CompleteLines(s + c) == CompleteLines(s) + CompleteLines(Remainder(s) + c)
    ensures Remainder(s + c) == Remainder(Remainder(s) + c)
  {
    SplitAppend(s, c);
    SplitLinesShape(Remainder(s) + c);
    SplitLinesShape(s + c);
    var a := CompleteLines(s);
    var b := CompleteLines(Remainder(s) + c);
    var r := Remainder(Remainder(s) + c);
    assert SplitLines(s + c) == (a + b) + [r];
  }

  /** One read: the buffer extended by the chunk, split into the complete
      lines handed on and the new buffer. */
  datatype Fed = Fed(lines: seq<string>, buffer: string)

  function Feed(buffer: string, chunk: string): (r: Fed)
    ensures NoNewline(r.buffer)
    ensures r.lines == CompleteLines(buffer + chunk) && r.buffer == Remainder(buffer + chunk)
  {
    var pieces := SplitLines(buffer + chunk);
    Fed(pieces[..|pieces| - 1], pieces[|pieces| - 1])
  }

  function Concat(chunks: seq<string>): string {
    if chunks == [] then "" else chunks[0] + Concat(chunks[1..])
  }

  /** Every read in turn, collecting the lines handed on. */
  function FeedAll(buffer: string, chunks: seq<string>): (r: Fed)
    decreases |chunks|
  {
    if chunks == [] then Fed([], buffer)
    else
      var first := Feed(buffer, chunks[0]);
      var rest := FeedAll(first.buffer, chunks[1..]);
      Fed(first.lines + rest.lines, rest.buffer)
  }

  /** Chunk boundaries do not matter: the lines handed on and the final
      buffer depend only on the concatenated text. */
  lemma {:induction false} FeedAllConcat(buffer: string, chunks: seq<string>)
    requires NoNewline(buffer)
    ensures FeedAll(buffer, chunks) == Fed(CompleteLines(buffer + Concat(chunks)), Remainder(buffer + Concat(chunks)))
    decreases |chunks|
  {
    if chunks == [] {
      assert buffer + "" == buffer;
      SplitNoNewlineSingle(buffer);
    } else {
      var c := chunks[0];
      var first := Feed(buffer, c);
      FeedAllConcat(first.buffer, chunks[1..]);
      CompleteLinesAppend(buffer + c, Concat(chunks[1..]));
      ConcatAssoc(buffer, c, Concat(chunks[1..]));
    }
  }

  /** After a terminated text, newline-free text adds no complete line. */
  lemma CompleteLinesUnterminated(u: string, tail: string)
    requires Remainder(u) == [] && NoNewline(tail)
    ensures CompleteLines(u + tail) == CompleteLines(u)
  {
    CompleteLinesAppend(u, tail);
    assert Remainder(u) + tail == tail;
    SplitNoNewlineSingle(tail);
    assert CompleteLines(u) + [] == CompleteLines(u);
  }

  lemma SplitNoNewlineSingle(s: string)
    requires NoNewline(s)
    ensures SplitLines(s) == [s]
  {
    LineOfNoNewline(s);
  }

  lemma {:induction false} LineOfNoNewline(s: string)
    requires NoNewline(s)
    ensures LineOf(s) == s
  {
    if s != [] {
      assert s[0] in s;
      assert s == [s[0]] + s[1..];
      LineOfNoNewline(s[1..]);
    }
  }
}
