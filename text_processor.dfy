/**
 * `TextProcessor`: a profile text is cut into chunks of bounded size, the
 * chunks overlap a little, and the skills a language model finds in each
 * chunk are gathered into one sorted list. The model is a parameter.
 */
module TextProcessor {
  import opened Text
  import opened Json
  import opened SortedStrings

  // ---------------------------------------------------------------------------
  // Characters other than whitespace: what chunking never loses or reorders.

  /** The characters of `s` that are not whitespace, in order. */
  function Visible(s: string): string
  {
    if s == [] then [] else (if IsWs(s[0]) then [] else [s[0]]) + Visible(s[1..])
  }

  lemma {:induction false} VisibleAppend(a: string, b: string)
    ensures Visible(a + b) == Visible(a) + Visible(b)
  {
    if a == [] {
      assert a + b == b;
    } else {
      assert (a + b)[0] == a[0];
      assert (a + b)[1..] == a[1..] + b;
      VisibleAppend(a[1..], b);
    }
  }

  /** Whitespace only. */
  predicate Blank(s: string)
  {
    forall i | 0 <= i < |s| :: IsWs(s[i])
  }

  lemma {:induction false} VisibleBlank(s: string)
    requires Blank(s)
    ensures Visible(s) == []
  {
    if s != [] {
      VisibleBlank(s[1..]);
    }
  }

  /** Stripping drops whitespace only. */
  lemma {:induction false} VisibleStrip(s: string)
    ensures Visible(Strip(s)) == Visible(s)
  {
    var l := TrimLeft(s, IsWs);
    VisibleTrimLeft(s);
    VisibleTrimRight(l);
  }

  lemma {:induction false} VisibleTrimLeft(s: string)
    ensures Visible(TrimLeft(s, IsWs)) == Visible(s)
  {
    var l := TrimLeft(s, IsWs);
    var cut := s[..|s| - |l|];
    assert s == cut + l;
    VisibleAppend(cut, l);
    VisibleBlank(cut);
  }

  lemma {:induction false} VisibleTrimRight(s: string)
    ensures Visible(TrimRight(s, IsWs)) == Visible(s)
  {
    var r := TrimRight(s, IsWs);
    var cut := s[|r|..];
    assert s == r + cut;
    VisibleAppend(r, cut);
    VisibleBlank(cut);
  }

  /** `s` with every `c` removed: what is left when only `c` may be dropped. */
  function Without(s: string, c: char): string
  {
    if s == [] then [] else (if s[0] == c then [] else [s[0]]) + Without(s[1..], c)
  }

  lemma {:induction false} WithoutAppend(a: string, b: string, c: char)
    ensures Without(a + b, c) == Without(a, c) + Without(b, c)
  {
    if a == [] {
      assert a + b == b;
    } else {
      assert (a + b)[0] == a[0];
      assert (a + b)[1..] == a[1..] + b;
      WithoutAppend(a[1..], b, c);
    }
  }

  lemma {:induction false} WithoutAll(s: string, c: char)
    requires forall i | 0 <= i < |s| :: s[i] == c
    ensures Without(s, c) == []
  {
    if s != [] {
      WithoutAll(s[1..], c);
    }
  }

  // ---------------------------------------------------------------------------
  // Line breaks: `re.sub(r'\r\n', '\n', text)`, then `re.sub(r'\n{3,}', '\n\n', text)`.

  /** Every "\r\n", found left to right, becomes "\n". */
  function Crlf(s: string): string
    decreases |s|
  {
    if |s| >= 2 && s[0] == '\r' && s[1] == '\n' then "\n" + Crlf(s[2..])
    else if s == [] then []
    else [s[0]] + Crlf(s[1..])
  }

  /** The scan is `str.replace("\r\n", "\n")`: cut at every "\r\n" and glue the pieces with "\n". */
  lemma {:induction false} CrlfReplaces(s: string)
    ensures Crlf(s) == Join(SplitOn(s, "\r\n"), "\n")
    decreases |s|
  {
    if |s| >= 2 && s[0] == '\r' && s[1] == '\n' {
      assert "\r\n" <= s;
      CrlfReplaces(s[2..]);
      var rest := SplitOn(s[2..], "\r\n");
      assert SplitOn(s, "\r\n") == [[]] + rest;
      JoinCons([], rest, "\n");
    } else if s != [] {
      assert !("\r\n" <= s);
      CrlfReplaces(s[1..]);
      var rest := SplitOn(s[1..], "\r\n");
      JoinGrowFirst(s[0], rest, "\n");
    }
  }

  /** Only carriage returns are dropped: every other character is kept, in order. */
  lemma {:induction false} CrlfVisible(s: string)
    ensures Without(Crlf(s), '\r') == Without(s, '\r')
    ensures Visible(Crlf(s)) == Visible(s)
    decreases |s|
  {
    if |s| >= 2 && s[0] == '\r' && s[1] == '\n' {
      CrlfVisible(s[2..]);
      assert s[1..][1..] == s[2..];
      VisibleAppend("\n", Crlf(s[2..]));
      WithoutAppend("\n", Crlf(s[2..]), '\r');
      assert Without(s[1..], '\r') == "\n" + Without(s[2..], '\r');
    } else if s != [] {
      CrlfVisible(s[1..]);
      VisibleAppend([s[0]], Crlf(s[1..]));
      WithoutAppend([s[0]], Crlf(s[1..]), '\r');
    }
  }

  /** The number of line feeds `s` starts with. */
  function NewlineRun(s: string): (r: nat)
    ensures r <= |s|
    ensures forall i | 0 <= i < r :: s[i] == '\n'
    ensures r < |s| ==> s[r] != '\n'
  {
    if s == [] || s[0] != '\n' then 0 else 1 + NewlineRun(s[1..])
  }

  /** Every run of three or more line feeds becomes exactly two. */
  function Collapse(s: string): string
    decreases |s|
  {
    if s == [] then []
    else if s[0] == '\n' then
      var k := NewlineRun(s);
      (if k >= 3 then "\n\n" else s[..k]) + Collapse(s[k..])
    else [s[0]] + Collapse(s[1..])
  }

  /** No three line feeds in a row. */
  predicate NoTriple(s: string)
  {
    forall i | 0 <= i && i + 2 < |s| :: !(s[i] == '\n' && s[i + 1] == '\n' && s[i + 2] == '\n')
  }

  lemma CollapseHead(s: string)
    requires s != [] && s[0] != '\n'
    ensures Collapse(s) != [] && Collapse(s)[0] == s[0]
  {
  }

  /** After collapsing, no three line feeds are left in a row. */
  lemma {:induction false} CollapseNoTriple(s: string)
    ensures NoTriple(Collapse(s))
    decreases |s|
  {
    if s != [] {
      if s[0] == '\n' {
        var k := NewlineRun(s);
        var piece := if k >= 3 then "\n\n" else s[..k];
        var rest := Collapse(s[k..]);
        CollapseNoTriple(s[k..]);
        if s[k..] != [] {
          CollapseHead(s[k..]);
        }
        var r := piece + rest;
        forall i | 0 <= i && i + 2 < |r|
          ensures !(r[i] == '\n' && r[i + 1] == '\n' && r[i + 2] == '\n')
        {
          if i >= |piece| {
            assert r[i] == rest[i - |piece|] && r[i + 1] == rest[i + 1 - |piece|] && r[i + 2] == rest[i + 2 - |piece|];
          } else if i + 1 == |piece| {
            assert r[i + 1] == rest[0];
          } else {
            assert r[i + 2] == rest[0];
          }
        }
      } else {
        CollapseNoTriple(s[1..]);
        var r := [s[0]] + Collapse(s[1..]);
        forall i | 0 <= i && i + 2 < |r|
          ensures !(r[i] == '\n' && r[i + 1] == '\n' && r[i + 2] == '\n')
        {
          if i > 0 {
            assert r[i] == Collapse(s[1..])[i - 1] && r[i + 1] == Collapse(s[1..])[i] && r[i + 2] == Collapse(s[1..])[i + 1];
          }
        }
      }
    }
  }

  /** A text without three line feeds in a row is left as it is; so collapsing twice is collapsing once. */
  lemma {:induction false} CollapseFixed(s: string)
    requires NoTriple(s)
    ensures Collapse(s) == s
    decreases |s|
  {
    if s != [] {
      var k := if s[0] == '\n' then NewlineRun(s) else 1;
      assert k < 3 by {
        if s[0] == '\n' {
          RunShort(s);
        }
      }
      NoTripleSuffix(s, k);
      CollapseFixed(s[k..]);
      assert s[..k] + s[k..] == s;
    }
  }

  lemma {:induction false} RunShort(s: string)
    requires NoTriple(s)
    ensures NewlineRun(s) < 3
  {
    if |s| >= 3 {
      assert !(s[0] == '\n' && s[1] == '\n' && s[2] == '\n');
    }
  }

  lemma {:induction false} NoTripleSuffix(s: string, k: nat)
    requires NoTriple(s) && k <= |s|
    ensures NoTriple(s[k..])
  {
    var t := s[k..];
    forall i | 0 <= i && i + 2 < |t|
      ensures !(t[i] == '\n' && t[i + 1] == '\n' && t[i + 2] == '\n')
    {
      assert t[i] == s[k + i] && t[i + 1] == s[k + i + 1] && t[i + 2] == s[k + i + 2];
    }
  }

  /** Only line feeds are dropped: every other character is kept, in order. */
  lemma {:induction false} CollapseVisible(s: string)
    ensures Without(Collapse(s), '\n') == Without(s, '\n')
    ensures Visible(Collapse(s)) == Visible(s)
    decreases |s|
  {
    if s != [] {
      if s[0] == '\n' {
        var k := NewlineRun(s);
        var piece := if k >= 3 then "\n\n" else s[..k];
        CollapseVisible(s[k..]);
        assert s == s[..k] + s[k..];
        VisibleAppend(piece, Collapse(s[k..]));
        VisibleBlank(piece);
        VisibleAppend(s[..k], s[k..]);
        VisibleBlank(s[..k]);
        WithoutAppend(piece, Collapse(s[k..]), '\n');
        WithoutAll(piece, '\n');
        WithoutAppend(s[..k], s[k..], '\n');
        WithoutAll(s[..k], '\n');
      } else {
        CollapseVisible(s[1..]);
        VisibleAppend([s[0]], Collapse(s[1..]));
        WithoutAppend([s[0]], Collapse(s[1..]), '\n');
      }
    }
  }

  /** `s` is `run` line feeds followed by a text that does not start with one. */
  lemma {:induction false} NewlineRunPrefix(run: string, b: string)
    requires forall i | 0 <= i < |run| :: run[i] == '\n'
    requires b == [] || b[0] != '\n'
    ensures NewlineRun(run + b) == |run|
    decreases |run|
  {
    if run == [] {
      assert run + b == b;
    } else {
      assert (run + b)[1..] == run[1..] + b;
      NewlineRunPrefix(run[1..], b);
    }
  }

  /** A maximal run of line feeds: three or more become exactly "\n\n", fewer stay as they are. */
  lemma {:induction false} CollapseRun(run: string, b: string)
    requires forall i | 0 <= i < |run| :: run[i] == '\n'
    requires b == [] || b[0] != '\n'
    ensures Collapse(run + b) == (if |run| >= 3 then "\n\n" else run) + Collapse(b)
  {
    if run == [] {
      assert run + b == b;
    } else {
      var s := run + b;
      NewlineRunPrefix(run, b);
      assert s[0] == '\n';
      assert s[..|run|] == run && s[|run|..] == b;
    }
  }

  /** Collapsing works piece by piece after a piece that does not end in a line feed. */
  lemma {:induction false} CollapseAppend(a: string, b: string)
    requires a == [] || a[|a| - 1] != '\n'
    ensures Collapse(a + b) == Collapse(a) + Collapse(b)
    decreases |a|
  {
    if a == [] {
      assert a + b == b;
    } else if a[0] == '\n' {
      var k := NewlineRun(a);
      var run, rest := a[..k], a[k..];
      assert k < |a|;
      assert a == run + rest && a + b == run + (rest + b);
      CollapseRun(run, rest);
      CollapseRun(run, rest + b);
      CollapseAppend(rest, b);
      var piece := if k >= 3 then "\n\n" else run;
      assert piece + (Collapse(rest) + Collapse(b)) == (piece + Collapse(rest)) + Collapse(b);
    } else {
      assert (a + b)[1..] == a[1..] + b;
      CollapseAppend(a[1..], b);
    }
  }

  /**
   * `re.sub(r'\n{3,}', '\n\n', ...)` on a maximal run of line feeds between two
   * texts: a run of three or more becomes exactly "\n\n", a shorter one stays.
   */
  lemma CollapseAround(a: string, run: string, b: string)
    requires a == [] || a[|a| - 1] != '\n'
    requires forall i | 0 <= i < |run| :: run[i] == '\n'
    requires b == [] || b[0] != '\n'
    ensures Collapse(a + run + b) == Collapse(a) + (if |run| >= 3 then "\n\n" else run) + Collapse(b)
  {
    assert a + run + b == a + (run + b);
    CollapseAppend(a, run + b);
    CollapseRun(run, b);
  }

  /** The text `chunk_text` splits into paragraphs. */
  function Normalised(text: string): string
  {
    Collapse(Crlf(text))
  }

  /**
   * The paragraphs: the normalised text cut at every blank line. Joined with
   * blank lines they give the normalised text back, none of them holds a blank
   * line, and the normalised text has no three line feeds in a row.
   */
  function Paragraphs(text: string): (r: seq<string>)
    ensures |r| >= 1
    ensures Join(r, "\n\n") == Normalised(text)
    ensures forall i | 0 <= i < |r| :: !IsInfix("\n\n", r[i])
    ensures NoTriple(Normalised(text))
  {
    JoinSplitOn(Normalised(text), "\n\n");
    SplitOnPiecesFree(Normalised(text), "\n\n");
    CollapseNoTriple(Crlf(text));
    SplitOn(Normalised(text), "\n\n")
  }

  // ---------------------------------------------------------------------------
  // Concatenation.

  function Concat(parts: seq<string>): string
  {
    if parts == [] then [] else parts[0] + Concat(parts[1..])
  }

  lemma {:induction false} ConcatCons(x: string, parts: seq<string>)
    ensures Concat([x] + parts) == x + Concat(parts)
  {
    assert ([x] + parts)[1..] == parts;
  }

  lemma {:induction false} ConcatSnoc(parts: seq<string>, x: string)
    ensures Concat(parts + [x]) == Concat(parts) + x
  {
    if parts == [] {
      assert [] + [x] == [x];
      assert Concat([x]) == x + Concat([]);
    } else {
      assert (parts + [x])[1..] == parts[1..] + [x];
      ConcatSnoc(parts[1..], x);
    }
  }

  /** Joining with a whitespace separator adds nothing visible. */
  lemma {:induction false} VisibleJoin(parts: seq<string>, sep: string)
    requires Blank(sep)
    ensures Visible(Join(parts, sep)) == Visible(Concat(parts))
  {
    if |parts| == 1 {
      assert parts[1..] == [];
      assert Concat(parts) == parts[0] + Concat(parts[1..]);
      assert parts[0] + [] == parts[0];
      assert Join(parts, sep) == parts[0];
    } else if |parts| > 1 {
      VisibleJoin(parts[1..], sep);
      assert parts == [parts[0]] + parts[1..];
      ConcatCons(parts[0], parts[1..]);
      VisibleAppend(parts[0] + sep, Join(parts[1..], sep));
      VisibleAppend(parts[0], sep);
      VisibleBlank(sep);
      VisibleAppend(parts[0], Concat(parts[1..]));
    }
  }

  // ---------------------------------------------------------------------------
  // Sentences: `re.split(r'(?<=[.!?])\s+', paragraph)`.

  predicate IsMark(c: char)
  {
    c == '.' || c == '!' || c == '?'
  }

  /** The number of whitespace characters `s` starts with. */
  function WsRun(s: string): (r: nat)
    ensures r <= |s|
    ensures Blank(s[..r])
    ensures r < |s| ==> !IsWs(s[r])
  {
    if s == [] || !IsWs(s[0]) then 0
    else
      var k := WsRun(s[1..]);
      assert s[..k + 1] == [s[0]] + s[1..][..k];
      k + 1
  }

  /**
   * The split of `s` when `afterMark` says whether the character before it was
   * a sentence mark: a run of whitespace right after a mark is a cut.
   */
  function SplitAfter(s: string, afterMark: bool): (r: seq<string>)
    ensures |r| >= 1
    decreases |s|
  {
    if s == [] then [[]]
    else if afterMark && IsWs(s[0]) then [[]] + SplitAfter(s[WsRun(s)..], false)
    else
      var rest := SplitAfter(s[1..], IsMark(s[0]));
      [[s[0]] + rest[0]] + rest[1..]
  }

  function Sentences(paragraph: string): (r: seq<string>)
    ensures |r| >= 1
  {
    SplitAfter(paragraph, false)
  }

  /** A mark directly followed by whitespace: where a sentence ends. */
  predicate BreakAt(s: string, i: int)
  {
    0 <= i && i + 1 < |s| && IsMark(s[i]) && IsWs(s[i + 1])
  }

  predicate NoBreak(s: string)
  {
    forall i | 0 <= i < |s| :: !BreakAt(s, i)
  }

  /** Splitting into sentences drops whitespace only. */
  lemma {:induction false} SplitAfterVisible(s: string, afterMark: bool)
    ensures Visible(Concat(SplitAfter(s, afterMark))) == Visible(s)
    decreases |s|
  {
    if s == [] {
      var one: seq<string> := [[]];
      assert Concat(one) == [] + Concat([]);
    } else if afterMark && IsWs(s[0]) {
      var k := WsRun(s);
      var r := SplitAfter(s[k..], false);
      SplitAfterVisible(s[k..], false);
      assert SplitAfter(s, afterMark) == [[]] + r;
      ConcatCons([], r);
      assert [] + Concat(r) == Concat(r);
      VisibleCut(s, k);
    } else {
      var rest := SplitAfter(s[1..], IsMark(s[0]));
      SplitAfterVisible(s[1..], IsMark(s[0]));
      ConcatGrowFirst(s[0], rest[0], rest[1..]);
      assert [rest[0]] + rest[1..] == rest;
      VisibleAppend([s[0]], Concat(rest));
      VisibleAppend([s[0]], s[1..]);
      assert s == [s[0]] + s[1..];
    }
  }

  lemma {:induction false} VisibleCut(s: string, k: nat)
    requires k <= |s| && Blank(s[..k])
    ensures Visible(s) == Visible(s[k..])
  {
    assert s == s[..k] + s[k..];
    VisibleAppend(s[..k], s[k..]);
    VisibleBlank(s[..k]);
  }

  lemma {:induction false} ConcatGrowFirst(c: char, first: string, tail: seq<string>)
    ensures Concat([[c] + first] + tail) == [c] + Concat([first] + tail)
  {
    ConcatCons([c] + first, tail);
    ConcatCons(first, tail);
    var y := Concat(tail);
    assert ([c] + first) + y == [c] + (first + y);
  }

  /** The first sentence starts with the first character, unless the text starts with a cut. */
  lemma SplitAfterHead(s: string, afterMark: bool)
    requires s != [] && !(afterMark && IsWs(s[0]))
    ensures SplitAfter(s, afterMark)[0] != [] && SplitAfter(s, afterMark)[0][0] == s[0]
  {
  }

  /** No sentence still holds a mark followed by whitespace: every cut was made. */
  lemma {:induction false} SplitAfterNoBreak(s: string, afterMark: bool)
    ensures forall j | 0 <= j < |SplitAfter(s, afterMark)| :: NoBreak(SplitAfter(s, afterMark)[j])
    ensures afterMark && SplitAfter(s, afterMark)[0] != [] ==> !IsWs(SplitAfter(s, afterMark)[0][0])
    decreases |s|
  {
    var r := SplitAfter(s, afterMark);
    if s == [] {
    } else if afterMark && IsWs(s[0]) {
      SplitAfterNoBreak(s[WsRun(s)..], false);
      assert forall j | 1 <= j < |r| :: r[j] == SplitAfter(s[WsRun(s)..], false)[j - 1];
    } else {
      var rest := SplitAfter(s[1..], IsMark(s[0]));
      SplitAfterNoBreak(s[1..], IsMark(s[0]));
      var first := [s[0]] + rest[0];
      forall i | 0 <= i < |first|
        ensures !BreakAt(first, i)
      {
        if i > 0 && BreakAt(first, i) {
          assert BreakAt(rest[0], i - 1);
        }
      }
      assert forall j | 1 <= j < |r| :: r[j] == rest[j];
    }
  }

  /** A paragraph without a cut point is one sentence. */
  lemma {:induction false} SplitAfterWhole(s: string, afterMark: bool)
    requires NoBreak(s) && (afterMark && s != [] ==> !IsWs(s[0]))
    ensures SplitAfter(s, afterMark) == [s]
    decreases |s|
  {
    if s != [] {
      assert NoBreak(s[1..]) by {
        forall i | 0 <= i < |s[1..]| ensures !BreakAt(s[1..], i) {
          assert !BreakAt(s, i + 1);
        }
      }
      if IsMark(s[0]) && |s| > 1 {
        assert !BreakAt(s, 0);
      }
      SplitAfterWhole(s[1..], IsMark(s[0]));
      assert [s[0]] + s[1..] == s;
    }
  }

  /** The whitespace runs the split cuts out, in order. */
  function SentenceGaps(s: string, afterMark: bool): seq<string>
    decreases |s|
  {
    if s == [] then []
    else if afterMark && IsWs(s[0]) then [s[..WsRun(s)]] + SentenceGaps(s[WsRun(s)..], false)
    else SentenceGaps(s[1..], IsMark(s[0]))
  }

  predicate EndsInMark(p: string)
  {
    p != [] && IsMark(p[|p| - 1])
  }

  predicate NoLeadingWs(p: string)
  {
    p == [] || !IsWs(p[0])
  }

  /** Splitting loses only the cut runs: the text is the sentences with the runs put back between them. */
  lemma {:induction false} SplitAfterGaps(s: string, afterMark: bool)
    ensures |SplitAfter(s, afterMark)| == |SentenceGaps(s, afterMark)| + 1
    ensures s == Interleave(SplitAfter(s, afterMark), SentenceGaps(s, afterMark))
    ensures forall j | 0 <= j < |SentenceGaps(s, afterMark)| ::
      SentenceGaps(s, afterMark)[j] != [] && Blank(SentenceGaps(s, afterMark)[j])
    decreases |s|
  {
    var r, g := SplitAfter(s, afterMark), SentenceGaps(s, afterMark);
    if s == [] {
    } else if afterMark && IsWs(s[0]) {
      var k := WsRun(s);
      var w, t := s[..k], s[k..];
      SplitAfterGaps(t, false);
      var r', g' := SplitAfter(t, false), SentenceGaps(t, false);
      assert r == [[]] + r' && g == [w] + g';
      assert r[1..] == r' && g[1..] == g';
      assert s == w + t;
      assert Interleave(r, g) == [] + w + Interleave(r', g');
    } else {
      var r', g' := SplitAfter(s[1..], IsMark(s[0])), SentenceGaps(s[1..], IsMark(s[0]));
      SplitAfterGaps(s[1..], IsMark(s[0]));
      assert r == [[s[0]] + r'[0]] + r'[1..] && g == g';
      InterleaveGrowFirst(s[0], r', g');
      assert s == [s[0]] + s[1..];
    }
  }

  /**
   * Where the split cuts: every sentence but the last ends in a mark (or, right
   * after a mark, the first is empty), and no sentence after the first starts
   * with whitespace, so each cut run is the whole run after a mark.
   */
  lemma {:induction false} SplitAfterCuts(s: string, afterMark: bool)
    ensures forall j | 0 <= j < |SplitAfter(s, afterMark)| - 1 ::
      EndsInMark(SplitAfter(s, afterMark)[j]) || (j == 0 && afterMark && SplitAfter(s, afterMark)[0] == [])
    ensures forall j | 1 <= j < |SplitAfter(s, afterMark)| :: NoLeadingWs(SplitAfter(s, afterMark)[j])
    decreases |s|
  {
    var r := SplitAfter(s, afterMark);
    if s == [] {
    } else if afterMark && IsWs(s[0]) {
      var t := s[WsRun(s)..];
      var r' := SplitAfter(t, false);
      SplitAfterCuts(t, false);
      assert r == [[]] + r';
      assert forall j | 1 <= j < |r| :: r[j] == r'[j - 1];
      if t != [] {
        SplitAfterHead(t, false);
      }
      assert NoLeadingWs(r'[0]);
    } else {
      var r' := SplitAfter(s[1..], IsMark(s[0]));
      SplitAfterCuts(s[1..], IsMark(s[0]));
      var first := [s[0]] + r'[0];
      assert r == [first] + r'[1..];
      assert forall j | 1 <= j < |r| :: r[j] == r'[j];
      if |r| > 1 {
        assert EndsInMark(first) by {
          if r'[0] != [] {
            assert first[|first| - 1] == r'[0][|r'[0]| - 1];
          }
        }
      }
    }
  }

  /**
   * `re.split(r'(?<=[.!?])\s+', paragraph)` exactly: the paragraph is its
   * sentences with non-empty whitespace runs put back between them; every
   * sentence but the last ends in a mark; the sentence after a run does not
   * start with whitespace, so the run is maximal; and no sentence still holds a
   * mark followed by whitespace, so no cut was missed.
   */
  lemma SentencesSplit(paragraph: string)
    ensures var r, g := Sentences(paragraph), SentenceGaps(paragraph, false);
      && |r| == |g| + 1 && paragraph == Interleave(r, g)
      && (forall j | 0 <= j < |g| :: g[j] != [] && Blank(g[j]))
      && (forall j | 0 <= j < |r| - 1 :: EndsInMark(r[j]))
      && (forall j | 1 <= j < |r| :: NoLeadingWs(r[j]))
      && (forall j | 0 <= j < |r| :: NoBreak(r[j]))
  {
    SplitAfterGaps(paragraph, false);
    SplitAfterCuts(paragraph, false);
    SplitAfterNoBreak(paragraph, false);
  }

  // ---------------------------------------------------------------------------
  // Packing paragraphs and sentences into chunks.

  /** A piece to be packed and what follows it in a chunk: "\n\n" after a paragraph, " " after a sentence. */
  datatype Unit = Unit(text: string, sep: string)

  /** The chunks closed so far and the one being filled (`chunks`, `current_chunk`). */
  datatype Packing = Packing(chunks: seq<string>, current: string)

  function SentenceUnits(sentences: seq<string>): (r: seq<Unit>)
    ensures |r| == |sentences|
    ensures forall i | 0 <= i < |sentences| :: r[i] == Unit(sentences[i], " ")
  {
    seq(|sentences|, i requires 0 <= i < |sentences| => Unit(sentences[i], " "))
  }

  /** A paragraph longer than `max` is packed sentence by sentence, any other as a whole. */
  function UnitsOf(paragraph: string, max: int): seq<Unit>
  {
    if |paragraph| > max then SentenceUnits(Sentences(paragraph)) else [Unit(paragraph, "\n\n")]
  }

  function Units(paragraphs: seq<string>, max: int): seq<Unit>
  {
    if paragraphs == [] then []
    else Units(paragraphs[..|paragraphs| - 1], max) + UnitsOf(paragraphs[|paragraphs| - 1], max)
  }

  /**
   * One unit: it joins the current chunk when both together fit in `max`;
   * otherwise a non-empty current chunk is closed, stripped, and the unit
   * starts the next one.
   */
  function Step(st: Packing, u: Unit, max: int): Packing
  {
    if |st.current| + |u.text| <= max then Packing(st.chunks, st.current + u.text + u.sep)
    else Packing(if st.current != "" then st.chunks + [Strip(st.current)] else st.chunks, u.text + u.sep)
  }

  function Pack(units: seq<Unit>, max: int): Packing
  {
    if units == [] then Packing([], "")
    else Step(Pack(units[..|units| - 1], max), units[|units| - 1], max)
  }

  /** The last chunk is added when it is not empty. */
  function Finish(st: Packing): seq<string>
  {
    if st.current != "" then st.chunks + [Strip(st.current)] else st.chunks
  }

  /** The chunks of `chunk_text` before overlap is added. */
  function BaseChunks(text: string, max: int): seq<string>
  {
    Finish(Pack(Units(Paragraphs(text), max), max))
  }

  lemma SentenceUnitsSnoc(sentences: seq<string>, s: string)
    ensures SentenceUnits(sentences + [s]) == SentenceUnits(sentences) + [Unit(s, " ")]
  {
  }

  lemma {:induction false} UnitsSnoc(paragraphs: seq<string>, p: string, max: int)
    ensures Units(paragraphs + [p], max) == Units(paragraphs, max) + UnitsOf(p, max)
  {
    assert (paragraphs + [p])[..|paragraphs|] == paragraphs;
  }

  lemma {:induction false} PackSnoc(units: seq<Unit>, u: Unit, max: int)
    ensures Pack(units + [u], max) == Step(Pack(units, max), u, max)
  {
    assert (units + [u])[..|units|] == units;
  }

  /** The texts of the units, one after the other. */
  function UnitsText(units: seq<Unit>): string
  {
    if units == [] then [] else UnitsText(units[..|units| - 1]) + units[|units| - 1].text
  }

  predicate BlankSeps(units: seq<Unit>)
  {
    forall i | 0 <= i < |units| :: Blank(units[i].sep)
  }

  lemma {:induction false} UnitsTextAppend(a: seq<Unit>, b: seq<Unit>)
    ensures UnitsText(a + b) == UnitsText(a) + UnitsText(b)
    decreases |b|
  {
    if b == [] {
      assert a + b == a;
    } else {
      var init := b[..|b| - 1];
      var last := b[|b| - 1].text;
      assert UnitsText(a + b) == UnitsText(a + init) + last by {
        assert (a + b)[..|a + b| - 1] == a + init;
        assert (a + b)[|a + b| - 1] == b[|b| - 1];
      }
      UnitsTextAppend(a, init);
      assert UnitsText(b) == UnitsText(init) + last;
    }
  }

  lemma {:induction false} SentenceUnitsText(sentences: seq<string>)
    ensures UnitsText(SentenceUnits(sentences)) == Concat(sentences)
    decreases |sentences|
  {
    if sentences != [] {
      var init := sentences[..|sentences| - 1];
      var last := sentences[|sentences| - 1];
      assert SentenceUnits(sentences)[..|sentences| - 1] == SentenceUnits(init);
      SentenceUnitsText(init);
      assert sentences == init + [last];
      ConcatSnoc(init, last);
    }
  }

  lemma {:induction false} UnitsOfVisible(paragraph: string, max: int)
    ensures Visible(UnitsText(UnitsOf(paragraph, max))) == Visible(paragraph)
    ensures BlankSeps(UnitsOf(paragraph, max))
  {
    if |paragraph| > max {
      SentenceUnitsText(Sentences(paragraph));
      SplitAfterVisible(paragraph, false);
    } else {
      var one := [Unit(paragraph, "\n\n")];
      assert UnitsOf(paragraph, max) == one;
      assert one[..0] == [];
      assert UnitsText(one) == UnitsText([]) + paragraph;
      assert [] + paragraph == paragraph;
      assert Blank("\n\n") by {
        assert IsWs('\n');
      }
    }
  }

  lemma {:induction false} UnitsVisible(paragraphs: seq<string>, max: int)
    ensures Visible(UnitsText(Units(paragraphs, max))) == Visible(Concat(paragraphs))
    decreases |paragraphs|
  {
    if paragraphs != [] {
      var init := paragraphs[..|paragraphs| - 1];
      var last := paragraphs[|paragraphs| - 1];
      var a, b := Units(init, max), UnitsOf(last, max);
      calc {
        Visible(UnitsText(Units(paragraphs, max)));
        Visible(UnitsText(a + b));
        { UnitsTextAppend(a, b); }
        Visible(UnitsText(a) + UnitsText(b));
        { VisibleAppend(UnitsText(a), UnitsText(b)); }
        Visible(UnitsText(a)) + Visible(UnitsText(b));
        { UnitsVisible(init, max); UnitsOfVisible(last, max); }
        Visible(Concat(init)) + Visible(last);
        { VisibleAppend(Concat(init), last); }
        Visible(Concat(init) + last);
        { assert paragraphs == init + [last]; ConcatSnoc(init, last); }
        Visible(Concat(paragraphs));
      }
    }
  }

  /** Every unit of the paragraphs ends in whitespace. */
  lemma {:induction false} UnitsBlank(paragraphs: seq<string>, max: int)
    ensures BlankSeps(Units(paragraphs, max))
    decreases |paragraphs|
  {
    if paragraphs != [] {
      var init := paragraphs[..|paragraphs| - 1];
      var last := paragraphs[|paragraphs| - 1];
      UnitsBlank(init, max);
      UnitsOfVisible(last, max);
      BlankSepsAppend(Units(init, max), UnitsOf(last, max));
    }
  }

  lemma BlankSepsAppend(a: seq<Unit>, b: seq<Unit>)
    requires BlankSeps(a) && BlankSeps(b)
    ensures BlankSeps(a + b)
  {
    forall i | 0 <= i < |a + b|
      ensures Blank((a + b)[i].sep)
    {
      if i >= |a| {
        assert (a + b)[i] == b[i - |a|];
      }
    }
  }

  /** One step moves the unit's visible characters into the packing and loses none. */
  lemma {:induction false} StepVisible(st: Packing, u: Unit, max: int)
    requires Blank(u.sep)
    ensures var next := Step(st, u, max);
      Visible(Concat(next.chunks)) + Visible(next.current)
        == Visible(Concat(st.chunks)) + Visible(st.current) + Visible(u.text)
  {
    PieceVisible(u.text, u.sep);
    if |st.current| + |u.text| <= max {
      VisibleAppend(st.current, u.text + u.sep);
      assert st.current + u.text + u.sep == st.current + (u.text + u.sep);
    } else if st.current != "" {
      CloseVisible(st.chunks, st.current);
    }
  }

  lemma {:induction false} PieceVisible(text: string, sep: string)
    requires Blank(sep)
    ensures Visible(text + sep) == Visible(text)
  {
    VisibleBlank(sep);
    VisibleAppend(text, sep);
    assert Visible(text) + [] == Visible(text);
  }

  lemma {:induction false} CloseVisible(chunks: seq<string>, current: string)
    ensures Visible(Concat(chunks + [Strip(current)])) == Visible(Concat(chunks)) + Visible(current)
  {
    ConcatSnoc(chunks, Strip(current));
    VisibleAppend(Concat(chunks), Strip(current));
    VisibleStrip(current);
  }

  lemma {:induction false} PackVisible(units: seq<Unit>, max: int)
    requires BlankSeps(units)
    ensures Visible(Concat(Pack(units, max).chunks)) + Visible(Pack(units, max).current) == Visible(UnitsText(units))
    decreases |units|
  {
    if units == [] {
    } else {
      var init := units[..|units| - 1];
      var u := units[|units| - 1];
      PackVisible(init, max);
      StepVisible(Pack(init, max), u, max);
      VisibleAppend(UnitsText(init), u.text);
    }
  }

  lemma {:induction false} FinishVisible(st: Packing)
    ensures Visible(Concat(Finish(st))) == Visible(Concat(st.chunks)) + Visible(st.current)
  {
    if st.current != "" {
      ConcatSnoc(st.chunks, Strip(st.current));
      VisibleAppend(Concat(st.chunks), Strip(st.current));
      VisibleStrip(st.current);
    } else {
      assert Visible(st.current) == [];
    }
  }

  /**
   * Chunking loses and reorders nothing but whitespace: the characters of the
   * chunks, read one after the other, are those of the text.
   */
  lemma {:induction false} ChunksVisible(text: string, max: int)
    ensures Visible(Concat(BaseChunks(text, max))) == Visible(text)
  {
    PackedVisible(text, max);
    ParagraphsVisible(text);
  }

  /** Packing the paragraphs' units into chunks keeps their visible characters. */
  lemma {:induction false} PackedVisible(text: string, max: int)
    ensures Visible(Concat(BaseChunks(text, max))) == Visible(Concat(Paragraphs(text)))
  {
    var paragraphs := Paragraphs(text);
    var units := Units(paragraphs, max);
    UnitsVisible(paragraphs, max);
    UnitsBlank(paragraphs, max);
    PackVisible(units, max);
    FinishVisible(Pack(units, max));
  }

  /** Splitting into paragraphs keeps the visible characters. */
  lemma {:induction false} ParagraphsVisible(text: string)
    ensures Visible(Concat(Paragraphs(text))) == Visible(text)
  {
    var paragraphs := Paragraphs(text);
    VisibleJoin(paragraphs, "\n\n");
    JoinSplitOn(Normalised(text), "\n\n");
    CollapseVisible(Crlf(text));
    CrlfVisible(text);
  }

  /** Every unit and `max` stay within `bound`; then so does every chunk. */
  predicate WithinBound(units: seq<Unit>, max: int, bound: int)
  {
    max <= bound && forall i | 0 <= i < |units| :: |units[i].text| <= bound
  }

  predicate AllWithin(chunks: seq<string>, bound: int)
  {
    forall i | 0 <= i < |chunks| :: |chunks[i]| <= bound
  }

  lemma AllWithinSnoc(chunks: seq<string>, c: string, bound: int)
    requires AllWithin(chunks, bound) && |c| <= bound
    ensures AllWithin(chunks + [c], bound)
  {
  }

  lemma {:induction false} StepBound(st: Packing, u: Unit, max: int, bound: int)
    requires Blank(u.sep) && max <= bound && |u.text| <= bound
    requires AllWithin(st.chunks, bound) && (st.current != "" ==> |Strip(st.current)| <= bound)
    ensures var next := Step(st, u, max);
      AllWithin(next.chunks, bound) && (next.current != "" ==> |Strip(next.current)| <= bound)
  {
    if |st.current| + |u.text| <= max {
      StripAppendWs(st.current + u.text, u.sep);
    } else {
      StripAppendWs(u.text, u.sep);
      if st.current != "" {
        AllWithinSnoc(st.chunks, Strip(st.current), bound);
      }
    }
  }

  lemma {:induction false} PackBound(units: seq<Unit>, max: int, bound: int)
    requires BlankSeps(units) && WithinBound(units, max, bound)
    ensures var st := Pack(units, max);
      AllWithin(st.chunks, bound) && (st.current != "" ==> |Strip(st.current)| <= bound)
    decreases |units|
  {
    if units != [] {
      var init := units[..|units| - 1];
      var u := units[|units| - 1];
      assert BlankSeps(init) && WithinBound(init, max, bound) by {
        forall i | 0 <= i < |init|
          ensures init[i] == units[i]
        {
        }
      }
      PackBound(init, max, bound);
      StepBound(Pack(init, max), u, max, bound);
      assert Pack(units, max) == Step(Pack(init, max), u, max);
    }
  }

  lemma {:induction false} FinishBound(st: Packing, bound: int)
    requires AllWithin(st.chunks, bound) && (st.current != "" ==> |Strip(st.current)| <= bound)
    ensures AllWithin(Finish(st), bound)
  {
    if st.current != "" {
      AllWithinSnoc(st.chunks, Strip(st.current), bound);
    }
  }

  /**
   * No chunk is longer than `bound` when `max` and every piece that is packed
   * (each paragraph of at most `max` characters, each sentence of a longer
   * one) are within it; with `bound == max`, no chunk exceeds `max` unless a
   * single sentence does.
   */
  lemma {:induction false} ChunksWithin(text: string, max: int, bound: int)
    requires WithinBound(Units(Paragraphs(text), max), max, bound)
    ensures forall i | 0 <= i < |BaseChunks(text, max)| :: |BaseChunks(text, max)[i]| <= bound
  {
    var units := Units(Paragraphs(text), max);
    UnitsBlank(Paragraphs(text), max);
    PackBound(units, max, bound);
    FinishBound(Pack(units, max), bound);
    assert BaseChunks(text, max) == Finish(Pack(units, max));
  }

  lemma {:induction false} CrlfNoCr(s: string)
    requires '\r' !in s
    ensures Crlf(s) == s
  {
    if s != [] {
      CrlfNoCr(s[1..]);
      assert [s[0]] + s[1..] == s;
    }
  }

  lemma {:induction false} NoTripleWithoutBreak(s: string)
    requires !IsInfix("\n\n", s)
    ensures NoTriple(s)
  {
    forall i | 0 <= i && i + 2 < |s|
      ensures !(s[i] == '\n' && s[i + 1] == '\n' && s[i + 2] == '\n')
    {
      if s[i] == '\n' && s[i + 1] == '\n' {
        assert s == s[..i] + "\n\n" + s[i + 2..];
        InfixAt(s[..i], "\n\n", s[i + 2..]);
      }
    }
  }

  lemma {:induction false} SplitOnAbsent(s: string, sep: string)
    requires sep != [] && !IsInfix(sep, s)
    ensures SplitOn(s, sep) == [s]
    decreases |s|
  {
    if s != [] {
      SplitOnAbsent(s[1..], sep);
      assert [s[0]] + s[1..] == s;
    }
  }

  /**
   * A text of at most `max` characters, without carriage returns and without
   * a blank line, is one chunk: the text stripped.
   */
  lemma {:induction false} OneChunk(text: string, max: int)
    requires '\r' !in text && !IsInfix("\n\n", text) && |text| <= max
    ensures BaseChunks(text, max) == [Strip(text)]
  {
    ParagraphsOne(text);
    PackOne(text, max);
  }

  lemma {:induction false} ParagraphsOne(text: string)
    requires '\r' !in text && !IsInfix("\n\n", text)
    ensures Paragraphs(text) == [text]
  {
    CrlfNoCr(text);
    NoTripleWithoutBreak(text);
    CollapseFixed(text);
    SplitOnAbsent(text, "\n\n");
  }

  lemma {:induction false} PackOne(text: string, max: int)
    requires |text| <= max
    ensures Finish(Pack(Units([text], max), max)) == [Strip(text)]
  {
    var u := Unit(text, "\n\n");
    assert Units([text], max) == [u] by {
      assert [text][..0] == [];
      assert Units([text], max) == Units([], max) + UnitsOf(text, max);
    }
    assert Pack([u], max) == Step(Packing([], ""), u, max) by {
      assert [u][..0] == [];
    }
    assert Step(Packing([], ""), u, max) == Packing([], text + "\n\n") by {
      assert |""| + |text| <= max;
      assert "" + text == text;
    }
    var nl := "\n\n";
    assert Strip(text + nl) == Strip(text) by {
      assert forall i | 0 <= i < |nl| :: IsWs(nl[i]) by {
        assert IsWs('\n');
        assert nl[0] == '\n' && nl[1] == '\n';
      }
      StripAppendWs(text, nl);
    }
  }

  // ---------------------------------------------------------------------------
  // Overlap.

  /** Chunk `cur` with the last `overlap` characters of `prev` in front, when `prev` is longer than that. */
  function WithOverlap(prev: string, cur: string, overlap: nat): string
  {
    if |prev| > overlap then prev[|prev| - overlap..] + cur else cur
  }

  /** With `overlap > 0` and two chunks or more, every chunk but the first carries the tail of the one before. */
  function Overlapped(chunks: seq<string>, overlap: int): seq<string>
  {
    if overlap > 0 && |chunks| > 1 then
      seq(|chunks|, i requires 0 <= i < |chunks| => if i == 0 then chunks[0] else WithOverlap(chunks[i - 1], chunks[i], overlap))
    else chunks
  }

  /** The base chunks back from overlapped ones: undo each prefix, knowing the chunk before. */
  function Recover(overlapped: seq<string>, overlap: int, n: nat): (r: seq<string>)
    requires n <= |overlapped|
    ensures |r| == n
  {
    if n == 0 then []
    else
      var before := Recover(overlapped, overlap, n - 1);
      var cur := overlapped[n - 1];
      before + [if n >= 2 && overlap > 0 && |before[n - 2]| > overlap && |cur| >= overlap then cur[overlap..] else cur]
  }

  function Unoverlapped(overlapped: seq<string>, overlap: int): seq<string>
  {
    Recover(overlapped, overlap, |overlapped|)
  }

  lemma {:induction false} RecoverPrefix(chunks: seq<string>, overlap: int, n: nat)
    requires n <= |chunks|
    ensures Recover(Overlapped(chunks, overlap), overlap, n) == chunks[..n]
  {
    if n > 0 {
      var ov := Overlapped(chunks, overlap);
      OverlappedAt(chunks, overlap, n - 1);
      RecoverPrefix(chunks, overlap, n - 1);
      var before := Recover(ov, overlap, n - 1);
      var cur := ov[n - 1];
      if n >= 2 {
        assert before[n - 2] == chunks[n - 2];
        UndoOne(chunks[n - 2], chunks[n - 1], overlap, cur);
      }
      assert Recover(ov, overlap, n) == chunks[..n - 1] + [chunks[n - 1]];
      TakeSnoc(chunks, n - 1);
    }
  }

  /** Dropping the first `overlap` characters of an overlapped chunk gives the base chunk back. */
  lemma {:induction false} UndoOne(prev: string, base: string, overlap: int, cur: string)
    requires cur == if overlap > 0 then WithOverlap(prev, base, overlap) else base
    ensures (if overlap > 0 && |prev| > overlap && |cur| >= overlap then cur[overlap..] else cur) == base
  {
    if overlap > 0 && |prev| > overlap {
      TailAdded(prev[|prev| - overlap..], base);
    }
  }

  /** Adding overlap loses nothing: the base chunks can be recovered from the overlapped ones. */
  lemma {:induction false} OverlapRoundTrip(chunks: seq<string>, overlap: int)
    ensures Unoverlapped(Overlapped(chunks, overlap), overlap) == chunks
  {
    RecoverPrefix(chunks, overlap, |chunks|);
    assert chunks[..|chunks|] == chunks;
  }

  /**
   * Overlap keeps the number of chunks and the first chunk; every later
   * chunk is its base chunk after the last `overlap` characters of the base
   * chunk before it, when that one is longer than `overlap`, and after
   * nothing otherwise.
   */
  lemma {:induction false} OverlapShape(chunks: seq<string>, overlap: int, i: nat)
    requires 1 <= i < |chunks|
    ensures |Overlapped(chunks, overlap)| == |chunks|
    ensures Overlapped(chunks, overlap)[0] == chunks[0]
    ensures TailThenChunk(Overlapped(chunks, overlap)[i], chunks[i - 1], chunks[i], overlap)
  {
    OverlappedAt(chunks, overlap, 0);
    OverlappedAt(chunks, overlap, i);
    TailShape(chunks[i - 1], chunks[i], overlap, Overlapped(chunks, overlap)[i]);
  }

  /**
   * `r` is `cur` after the last `overlap` characters of `prev` when `overlap > 0`
   * and `prev` is longer than that, and `cur` alone otherwise.
   */
  predicate TailThenChunk(r: string, prev: string, cur: string, overlap: int)
  {
    var k := |r| - |cur|;
    && k == (if overlap > 0 && |prev| > overlap then overlap else 0)
    && k <= |prev|
    && r[k..] == cur
    && r[..k] == prev[|prev| - k..]
  }

  lemma {:induction false} TailShape(prev: string, cur: string, overlap: int, r: string)
    requires r == if overlap > 0 then WithOverlap(prev, cur, overlap) else cur
    ensures TailThenChunk(r, prev, cur, overlap)
  {
    if overlap > 0 && |prev| > overlap {
      var tail := prev[|prev| - overlap..];
      assert r == tail + cur;
      TailAdded(tail, cur);
    } else {
      assert r[..0] == [] == prev[|prev|..];
    }
  }

  lemma OverlappedAt(chunks: seq<string>, overlap: int, i: nat)
    requires i < |chunks|
    ensures |Overlapped(chunks, overlap)| == |chunks|
    ensures Overlapped(chunks, overlap)[i]
      == if overlap > 0 && i > 0 then WithOverlap(chunks[i - 1], chunks[i], overlap) else chunks[i]
  {
  }

  lemma TailAdded(tail: string, cur: string)
    ensures var r := tail + cur; |r| - |cur| == |tail| && r[|tail|..] == cur && r[..|tail|] == tail
  {
  }

  /** Without overlap, or with a single chunk, the chunks are returned as they are. */
  lemma OverlapNone(chunks: seq<string>, overlap: int)
    requires overlap <= 0 || |chunks| <= 1
    ensures Overlapped(chunks, overlap) == chunks
  {
  }

  // ---------------------------------------------------------------------------
  // `chunk_text`.

  /**
   * Chunks of at most about `maxChunkSize` characters: paragraphs, and the
   * sentences of longer paragraphs, are packed in order; then each chunk
   * after the first gets the last `overlap` characters of the one before.
   */
  method ChunkText(text: string, maxChunkSize: int, overlap: int) returns (result: seq<string>)
    ensures result == Overlapped(BaseChunks(text, maxChunkSize), overlap)
  {
    var chunks := PackChunks(text, maxChunkSize);
    result := AddOverlap(chunks, overlap);
  }

  /** The overlap loop of `chunk_text`. */
  method AddOverlap(chunks: seq<string>, overlap: int) returns (result: seq<string>)
    ensures result == Overlapped(chunks, overlap)
  {
    result := chunks;
    if overlap > 0 && |chunks| > 1 {
      var overlapped := [chunks[0]];
      for i := 1 to |chunks|
        invariant OverlapUpTo(chunks, overlap, overlapped, i)
      {
        var previous := chunks[i - 1];
        var current := chunks[i];
        var next;
        if |previous| > overlap {
          next := previous[|previous| - overlap..] + current;
        } else {
          next := current;
        }
        OverlapUpToSnoc(chunks, overlap, overlapped, i, next);
        overlapped := overlapped + [next];
      }
      OverlapUpToAll(chunks, overlap, overlapped);
      result := overlapped;
    }
  }

  /** `r` holds the first `n` overlapped chunks (for `overlap > 0`). */
  predicate OverlapUpTo(chunks: seq<string>, overlap: nat, r: seq<string>, n: nat)
    requires 1 <= n <= |chunks|
  {
    && |r| == n
    && r[0] == chunks[0]
    && forall k | 1 <= k < n :: r[k] == WithOverlap(chunks[k - 1], chunks[k], overlap)
  }

  lemma OverlapUpToSnoc(chunks: seq<string>, overlap: nat, r: seq<string>, n: nat, next: string)
    requires 1 <= n < |chunks| && OverlapUpTo(chunks, overlap, r, n)
    requires next == WithOverlap(chunks[n - 1], chunks[n], overlap)
    ensures OverlapUpTo(chunks, overlap, r + [next], n + 1)
  {
  }

  lemma OverlapUpToAll(chunks: seq<string>, overlap: int, r: seq<string>)
    requires overlap > 0 && |chunks| > 1 && OverlapUpTo(chunks, overlap, r, |chunks|)
    ensures r == Overlapped(chunks, overlap)
  {
  }

  lemma TakeSnoc<T>(s: seq<T>, i: nat)
    requires i < |s|
    ensures s[..i + 1] == s[..i] + [s[i]]
  {
  }

  lemma TakeAll<T>(s: seq<T>)
    ensures s[..|s|] == s
  {
  }

  /** One piece into the chunk being filled, or into a new one: the `if` that `chunk_text` writes twice. */
  method AddPiece(chunks: seq<string>, current: string, piece: string, sep: string, max: int)
    returns (chunks': seq<string>, current': string)
    ensures Packing(chunks', current') == Step(Packing(chunks, current), Unit(piece, sep), max)
  {
    chunks' := chunks;
    if |current| + |piece| <= max {
      current' := current + piece + sep;
    } else {
      if current != "" {
        chunks' := chunks + [Strip(current)];
      }
      current' := piece + sep;
    }
  }

  /** The packing loop of `chunk_text`, with the last chunk added. */
  method PackChunks(text: string, max: int) returns (chunks: seq<string>)
    ensures chunks == BaseChunks(text, max)
  {
    var paragraphs := SplitOn(Normalised(text), "\n\n");
    chunks := [];
    var current := "";
    for i := 0 to |paragraphs|
      invariant Packing(chunks, current) == Pack(Units(paragraphs[..i], max), max)
    {
      var paragraph := paragraphs[i];
      ghost var before := Units(paragraphs[..i], max);
      TakeSnoc(paragraphs, i);
      UnitsSnoc(paragraphs[..i], paragraph, max);
      if |paragraph| > max {
        chunks, current := PackSentences(chunks, current, Sentences(paragraph), max, before);
      } else {
        PackSnoc(before, Unit(paragraph, "\n\n"), max);
        chunks, current := AddPiece(chunks, current, paragraph, "\n\n", max);
      }
    }
    TakeAll(paragraphs);
    if current != "" {
      chunks := chunks + [Strip(current)];
    }
  }

  /** The inner loop of `chunk_text` over the sentences of a long paragraph. */
  method PackSentences(chunks: seq<string>, current: string, sentences: seq<string>, max: int, ghost before: seq<Unit>)
    returns (chunks': seq<string>, current': string)
    requires Packing(chunks, current) == Pack(before, max)
    ensures Packing(chunks', current') == Pack(before + SentenceUnits(sentences), max)
  {
    chunks', current' := chunks, current;
    assert before + SentenceUnits(sentences[..0]) == before by {
      assert SentenceUnits(sentences[..0]) == [];
    }
    for j := 0 to |sentences|
      invariant Packing(chunks', current') == Pack(before + SentenceUnits(sentences[..j]), max)
    {
      SentencePackSnoc(before, sentences, j, max);
      chunks', current' := AddPiece(chunks', current', sentences[j], " ", max);
    }
    TakeAll(sentences);
  }

  lemma {:induction false} SentencePackSnoc(before: seq<Unit>, sentences: seq<string>, j: nat, max: int)
    requires j < |sentences|
    ensures Pack(before + SentenceUnits(sentences[..j + 1]), max)
      == Step(Pack(before + SentenceUnits(sentences[..j]), max), Unit(sentences[j], " "), max)
  {
    var done := before + SentenceUnits(sentences[..j]);
    TakeSnoc(sentences, j);
    SentenceUnitsSnoc(sentences[..j], sentences[j]);
    assert before + SentenceUnits(sentences[..j + 1]) == done + [Unit(sentences[j], " ")];
    PackSnoc(done, Unit(sentences[j], " "), max);
  }

  // ---------------------------------------------------------------------------
  // `process_profile_text`.

  /** The skills of every chunk, gathered as a set kept as a sorted list. */
  function SkillsOf(chunks: seq<string>, extract: string -> seq<string>): seq<string>
  {
    if chunks == [] then []
    else InsertAll(SkillsOf(chunks[..|chunks| - 1], extract), extract(chunks[|chunks| - 1]))
  }

  /** A skill is gathered exactly when some chunk yields it; each once, in order. */
  lemma {:induction false} SkillsOfSpec(chunks: seq<string>, extract: string -> seq<string>)
    ensures StrictlySorted(SkillsOf(chunks, extract))
    ensures forall skill :: (skill in SkillsOf(chunks, extract)
      <==> exists i | 0 <= i < |chunks| :: skill in extract(chunks[i]))
    decreases |chunks|
  {
    if chunks != [] {
      var init := chunks[..|chunks| - 1];
      var last := chunks[|chunks| - 1];
      SkillsOfSpec(init, extract);
      InsertAllSorted(SkillsOf(init, extract), extract(last));
      forall skill
        ensures skill in SkillsOf(chunks, extract) <==> exists i | 0 <= i < |chunks| :: skill in extract(chunks[i])
      {
        assert skill in SkillsOf(chunks, extract) <==> skill in Elems(SkillsOf(chunks, extract));
        assert skill in SkillsOf(init, extract) <==> skill in Elems(SkillsOf(init, extract));
        assert skill in extract(last) <==> skill in Elems(extract(last));
        if skill in extract(last) {
          assert skill in extract(chunks[|chunks| - 1]);
        }
        if exists i | 0 <= i < |chunks| :: skill in extract(chunks[i]) {
          var i :| 0 <= i < |chunks| && skill in extract(chunks[i]);
          if i < |init| {
            assert chunks[i] == init[i];
          }
        }
      }
    }
  }

  /** What `process_profile_text` returns: the sorted skills and how many chunks there were. */
  datatype ProfileSkills = ProfileSkills(skills: seq<string>, chunkCount: nat)

  /**
   * Chunks the text with the defaults (1000 characters, overlap 100) and
   * gathers what `extract` finds in each chunk; `extract` stands for the
   * language-model call.
   */
  method ProcessProfileText(text: string, extract: string -> seq<string>) returns (r: ProfileSkills)
    ensures var chunks := Overlapped(BaseChunks(text, 1000), 100);
      r == ProfileSkills(SkillsOf(chunks, extract), |chunks|)
    ensures StrictlySorted(r.skills)
  {
    var chunks := ChunkText(text, 1000, 100);
    var all := GatherSkills(chunks, extract);
    SkillsOfSpec(chunks, extract);
    r := ProfileSkills(all, |chunks|);
  }

  /** The loop of `process_profile_text`: each chunk's skills are added to the set so far. */
  method GatherSkills(chunks: seq<string>, extract: string -> seq<string>) returns (all: seq<string>)
    ensures all == SkillsOf(chunks, extract)
  {
    all := [];
    for i := 0 to |chunks|
      invariant all == SkillsOf(chunks[..i], extract)
    {
      assert chunks[..i + 1][..i] == chunks[..i];
      all := InsertAll(all, extract(chunks[i]));
    }
    assert chunks[..|chunks|] == chunks;
  }
}
