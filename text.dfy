/**
 * The Python string operations the modelled code relies on: `lower`, `strip`,
 * `split`, `join`, `in`, and the order that `sorted` puts strings in.
 */
module Text {

  /** `str.isspace()` for one character: the characters Python's `split()`, `strip()` and `\s` treat as whitespace. */
  predicate IsWs(c: char)
  {
    var n := c as int;
    (9 <= n <= 13) || (28 <= n <= 32) || n == 133 || n == 160 || n == 5760
    || (8192 <= n <= 8202) || n == 8232 || n == 8233 || n == 8239 || n == 8287 || n == 12288
  }

  predicate NoWs(s: string)
  {
    forall i | 0 <= i < |s| :: !IsWs(s[i])
  }

  predicate IsUpper(c: char)
  {
    'A' <= c <= 'Z'
  }

  function LowerChar(c: char): (r: char)
    ensures !IsUpper(r)
    ensures IsWs(r) <==> IsWs(c)
  {
    if IsUpper(c) then (c as int + 32) as char else c
  }

  /** `str.lower()`, on the ASCII letters. */
  function Lower(s: string): (r: string)
    ensures |r| == |s|
    ensures forall i | 0 <= i < |s| :: r[i] == LowerChar(s[i])
  {
    if s == [] then [] else [LowerChar(s[0])] + Lower(s[1..])
  }

  predicate NoUpper(s: string)
  {
    forall i | 0 <= i < |s| :: !IsUpper(s[i])
  }

  /** Drops the leading characters that `drop` selects. */
  function TrimLeft(s: string, drop: char -> bool): (r: string)
    ensures |r| <= |s|
    ensures r == s[|s| - |r|..]
    ensures r != [] ==> !drop(r[0])
    ensures forall i | 0 <= i < |s| - |r| :: drop(s[i])
  {
    if s == [] || !drop(s[0]) then s else TrimLeft(s[1..], drop)
  }

  /** Drops the trailing characters that `drop` selects. */
  function TrimRight(s: string, drop: char -> bool): (r: string)
    ensures |r| <= |s|
    ensures r == s[..|r|]
    ensures r != [] ==> !drop(r[|r| - 1])
    ensures forall i | |r| <= i < |s| :: drop(s[i])
  {
    if s == [] || !drop(s[|s| - 1]) then s else TrimRight(s[..|s| - 1], drop)
  }

  /** `str.strip()`: both ends, whitespace. */
  function Strip(s: string): (r: string)
    ensures |r| <= |s|
    ensures r != [] ==> !IsWs(r[0]) && !IsWs(r[|r| - 1])
  {
    TrimRight(TrimLeft(s, IsWs), IsWs)
  }

  /** `str.split()` with no separator: the maximal runs of non-whitespace. */
  function SplitWs(s: string): (r: seq<string>)
    ensures forall i | 0 <= i < |r| :: r[i] != [] && NoWs(r[i])
    decreases |s|
  {
    if s == [] then []
    else if IsWs(s[0]) then SplitWs(s[1..])
    else
      var w := Word(s);
      [w] + SplitWs(s[|w|..])
  }

  /** The longest prefix of `s` without whitespace. */
  function Word(s: string): (r: string)
    ensures |r| <= |s| && r == s[..|r|] && NoWs(r)
    ensures |r| < |s| ==> IsWs(s[|r|])
    ensures s != [] && !IsWs(s[0]) ==> r != []
  {
    if s == [] || IsWs(s[0]) then [] else [s[0]] + Word(s[1..])
  }

  /** `sep.join(parts)`. */
  function Join(parts: seq<string>, sep: string): (r: string)
  {
    if parts == [] then []
    else if |parts| == 1 then parts[0]
    else parts[0] + sep + Join(parts[1..], sep)
  }

  /** `needle in hay` for strings. */
  predicate IsInfix(needle: string, hay: string)
  {
    needle <= hay || (hay != [] && IsInfix(needle, hay[1..]))
  }

  /** `s.split(sep)` for a non-empty separator: cut at every occurrence, left to right. */
  function SplitOn(s: string, sep: string): (r: seq<string>)
    requires sep != []
    ensures |r| >= 1
    decreases |s|
  {
    if sep <= s then [[]] + SplitOn(s[|sep|..], sep)
    else if s == [] then [[]]
    else
      var rest := SplitOn(s[1..], sep);
      [[s[0]] + rest[0]] + rest[1..]
  }

  /** Python's `<` on strings: lexicographic by code point. */
  predicate Less(a: string, b: string)
  {
    if a == [] then b != []
    else if b == [] then false
    else a[0] < b[0] || (a[0] == b[0] && Less(a[1..], b[1..]))
  }

  /** `str(n)` for a natural number. */
  function NatToString(n: nat): (r: string)
    ensures r != []
  {
    if n < 10 then [Digit(n)] else NatToString(n / 10) + [Digit(n % 10)]
  }

  function Digit(d: nat): char
    requires d < 10
  {
    ("0123456789")[d]
  }

  // ---------------------------------------------------------------------------
  // Facts about the operations above.

  lemma {:induction false} LessIrreflexive(a: string)
    ensures !Less(a, a)
  {
    if a != [] { LessIrreflexive(a[1..]); }
  }

  lemma {:induction false} LessTransitive(a: string, b: string, c: string)
    requires Less(a, b) && Less(b, c)
    ensures Less(a, c)
  {
    if a != [] && b != [] && c != [] && a[0] == b[0] && b[0] == c[0] {
      LessTransitive(a[1..], b[1..], c[1..]);
    }
  }

  lemma {:induction false} LessTotal(a: string, b: string)
    ensures a == b || Less(a, b) || Less(b, a)
  {
    if a != [] && b != [] && a[0] == b[0] {
      LessTotal(a[1..], b[1..]);
      if a[1..] == b[1..] {
        assert a == [a[0]] + a[1..] && b == [b[0]] + b[1..];
      }
    }
  }

  lemma {:induction false} LessAsymmetric(a: string, b: string)
    requires Less(a, b)
    ensures !Less(b, a)
  {
    if a != [] && b != [] && a[0] == b[0] {
      LessAsymmetric(a[1..], b[1..]);
    }
  }

  /** Trailing whitespace makes no difference to `strip()`. */
  lemma {:induction false} StripAppendWs(s: string, ws: string)
    requires forall i | 0 <= i < |ws| :: IsWs(ws[i])
    ensures Strip(s + ws) == Strip(s)
  {
    TrimLeftAppend(s, ws);
    if TrimLeft(s, IsWs) != [] {
      TrimRightAppend(TrimLeft(s, IsWs), ws);
    }
  }

  lemma {:induction false} TrimRightAppend(s: string, ws: string)
    requires forall i | 0 <= i < |ws| :: IsWs(ws[i])
    ensures TrimRight(s + ws, IsWs) == TrimRight(s, IsWs)
    decreases |ws|
  {
    if ws != [] {
      assert (s + ws)[..|s + ws| - 1] == s + ws[..|ws| - 1];
      TrimRightAppend(s, ws[..|ws| - 1]);
    } else {
      assert s + ws == s;
    }
  }

  /** Trimming the left of `s + ws` is trimming `s`, then keeping `ws` unless nothing of `s` was left. */
  lemma {:induction false} TrimLeftAppend(s: string, ws: string)
    requires forall i | 0 <= i < |ws| :: IsWs(ws[i])
    ensures TrimLeft(s + ws, IsWs) == if TrimLeft(s, IsWs) == [] then [] else TrimLeft(s, IsWs) + ws
  {
    if s == [] {
      TrimAllWs(ws);
      assert s + ws == ws;
    } else if !IsWs(s[0]) {
    } else {
      assert (s + ws)[1..] == s[1..] + ws;
      TrimLeftAppend(s[1..], ws);
    }
  }

  lemma {:induction false} TrimAllWs(ws: string)
    requires forall i | 0 <= i < |ws| :: IsWs(ws[i])
    ensures TrimLeft(ws, IsWs) == []
  {
    if ws != [] { TrimAllWs(ws[1..]); }
  }

  /** Joining non-empty whitespace-free tokens with single spaces and splitting again gives the tokens back. */
  lemma {:induction false} SplitJoin(ts: seq<string>)
    requires forall i | 0 <= i < |ts| :: ts[i] != [] && NoWs(ts[i])
    ensures SplitWs(Join(ts, " ")) == ts
  {
    if ts == [] {
    } else if |ts| == 1 {
      SplitWsCons(ts[0], []);
      assert ts[0] + [] == ts[0];
    } else {
      var rest := Join(ts[1..], " ");
      assert Join(ts, " ") == ts[0] + (" " + rest);
      SplitWsCons(ts[0], " " + rest);
      assert (" " + rest)[1..] == rest;
      SplitJoin(ts[1..]);
    }
  }

  lemma {:induction false} SplitWsCons(t: string, tail: string)
    requires t != [] && NoWs(t)
    requires tail == [] || IsWs(tail[0])
    ensures SplitWs(t + tail) == [t] + SplitWs(tail)
  {
    WordOfToken(t, tail);
    assert (t + tail)[|t|..] == tail;
  }

  lemma {:induction false} WordOfToken(t: string, tail: string)
    requires t != [] && NoWs(t)
    requires tail == [] || IsWs(tail[0])
    ensures Word(t + tail) == t
  {
    if |t| == 1 {
      assert (t + tail)[1..] == tail;
    } else {
      assert (t + tail)[1..] == t[1..] + tail;
      WordOfToken(t[1..], tail);
      assert t == [t[0]] + t[1..];
    }
  }

  /** Whitespace only as single spaces between other characters. */
  predicate Spaced(s: string)
  {
    && (s != [] ==> !IsWs(s[0]) && !IsWs(s[|s| - 1]))
    && (forall i | 0 <= i < |s| - 1 :: !IsWs(s[i]) || !IsWs(s[i + 1]))
    && (forall i | 0 <= i < |s| :: s[i] == ' ' || !IsWs(s[i]))
  }

  /** `" ".join` of non-empty whitespace-free tokens has no leading, trailing or doubled whitespace. */
  lemma {:induction false} JoinClean(ts: seq<string>)
    requires forall i | 0 <= i < |ts| :: ts[i] != [] && NoWs(ts[i])
    ensures Spaced(Join(ts, " ")) && Strip(Join(ts, " ")) == Join(ts, " ")
  {
    JoinSpaced(ts);
    StripUntrimmed(Join(ts, " "));
  }

  /** A string with no whitespace at either end is its own `strip()`. */
  lemma {:induction false} StripUntrimmed(s: string)
    requires s != [] ==> !IsWs(s[0]) && !IsWs(s[|s| - 1])
    ensures Strip(s) == s
  {
    if s != [] {
      assert TrimLeft(s, IsWs) == s;
      assert TrimRight(s, IsWs) == s;
    }
  }

  lemma {:induction false} JoinSpaced(ts: seq<string>)
    requires forall i | 0 <= i < |ts| :: ts[i] != [] && NoWs(ts[i])
    ensures Spaced(Join(ts, " "))
  {
    if |ts| == 1 {
      assert Join(ts, " ") == ts[0];
      NoWsSpaced(ts[0]);
    } else if |ts| > 1 {
      JoinSpaced(ts[1..]);
      JoinLength(ts[1..]);
      assert Join(ts, " ") == ts[0] + " " + Join(ts[1..], " ");
      ConsSpaced(ts[0], Join(ts[1..], " "));
    }
  }

  lemma NoWsSpaced(t: string)
    requires t != [] && NoWs(t)
    ensures Spaced(t)
  {
  }

  lemma {:induction false} ConsSpaced(t: string, rest: string)
    requires t != [] && NoWs(t) && rest != [] && Spaced(rest)
    ensures Spaced(t + " " + rest)
  {
    var s := t + " " + rest;
    forall i | 0 <= i < |s| ensures s[i] == ' ' || !IsWs(s[i]) {
      if i < |t| {
        assert s[i] == t[i];
      } else if i > |t| {
        assert s[i] == rest[i - |t| - 1];
      }
    }
    forall i | 0 <= i < |s| - 1 ensures !IsWs(s[i]) || !IsWs(s[i + 1]) {
      if i < |t| {
        assert s[i] == t[i];
      } else if i == |t| {
        assert s[i + 1] == rest[0];
      } else {
        assert s[i] == rest[i - |t| - 1] && s[i + 1] == rest[i - |t|];
      }
    }
    assert s[0] == t[0];
    assert s[|s| - 1] == rest[|rest| - 1];
  }

  lemma {:induction false} JoinLength(ts: seq<string>)
    requires ts != []
    ensures |Join(ts, " ")| >= |ts[0]|
    ensures |Join(ts, " ")| >= |ts[|ts| - 1]|
  {
    if |ts| > 1 { JoinLength(ts[1..]); }
  }

  /** Every character of a `" ".join` comes from a token or is a space. */
  lemma {:induction false} JoinChars(ts: seq<string>, p: char -> bool)
    requires p(' ')
    requires forall i, j | 0 <= i < |ts| && 0 <= j < |ts[i]| :: p(ts[i][j])
    ensures forall i | 0 <= i < |Join(ts, " ")| :: p(Join(ts, " ")[i])
  {
    if |ts| > 1 {
      var t := ts[0];
      var rest := Join(ts[1..], " ");
      JoinChars(ts[1..], p);
      assert Join(ts, " ") == t + " " + rest;
      forall i | 0 <= i < |t| + 1 + |rest| ensures p((t + " " + rest)[i]) {
        if i < |t| {
          assert (t + " " + rest)[i] == ts[0][i];
          assert p(ts[0][i]);
        } else if i == |t| {
          assert (t + " " + rest)[i] == ' ';
        } else {
          assert (t + " " + rest)[i] == rest[i - |t| - 1];
        }
      }
    }
  }

  /** A string occurs in any string built around it. */
  lemma {:induction false} InfixAt(pre: string, x: string, post: string)
    ensures IsInfix(x, pre + x + post)
  {
    if pre == [] {
      assert pre + x + post == x + post;
    } else {
      InfixAt(pre[1..], x, post);
      assert (pre + x + post)[1..] == pre[1..] + x + post;
    }
  }

  /** Every character of `s` satisfies `p`. */
  predicate All(s: string, p: char -> bool)
  {
    forall i | 0 <= i < |s| :: p(s[i])
  }

  /** Trimming keeps a property of every character. */
  lemma {:induction false} TrimAll(s: string, drop: char -> bool, p: char -> bool)
    requires All(s, p)
    ensures All(TrimLeft(s, drop), p) && All(TrimRight(s, drop), p)
  {
    if s != [] {
      if drop(s[0]) { TrimAll(s[1..], drop, p); }
      if drop(s[|s| - 1]) { TrimAll(s[..|s| - 1], drop, p); }
    }
  }

  lemma {:induction false} StripAll(s: string, p: char -> bool)
    requires All(s, p)
    ensures All(Strip(s), p)
  {
    TrimAll(s, IsWs, p);
    TrimAll(TrimLeft(s, IsWs), IsWs, p);
  }

  /** Joining the pieces of a split with the same separator gives the text back. */
  lemma {:induction false} JoinSplitOn(s: string, sep: string)
    requires sep != []
    ensures Join(SplitOn(s, sep), sep) == s
    decreases |s|
  {
    if sep <= s {
      JoinSplitOn(s[|sep|..], sep);
      JoinSplitSep(s, sep);
    } else if s != [] {
      JoinSplitOn(s[1..], sep);
      JoinSplitChar(s, sep);
    }
  }

  lemma {:induction false} JoinSplitSep(s: string, sep: string)
    requires sep != [] && sep <= s
    requires Join(SplitOn(s[|sep|..], sep), sep) == s[|sep|..]
    ensures Join(SplitOn(s, sep), sep) == s
  {
    var t := s[|sep|..];
    var rest := SplitOn(t, sep);
    assert SplitOn(s, sep) == [[]] + rest;
    JoinEmptyFirst(sep, t, rest);
    assert s == s[..|sep|] + t;
  }

  lemma {:induction false} JoinEmptyFirst(sep: string, t: string, rest: seq<string>)
    requires rest != [] && Join(rest, sep) == t
    ensures Join([[]] + rest, sep) == sep + t
  {
    var empty: string := [];
    JoinCons(empty, rest, sep);
    assert empty + sep == sep;
  }

  lemma {:induction false} JoinSplitChar(s: string, sep: string)
    requires sep != [] && !(sep <= s) && s != []
    requires Join(SplitOn(s[1..], sep), sep) == s[1..]
    ensures Join(SplitOn(s, sep), sep) == s
  {
    var rest := SplitOn(s[1..], sep);
    calc {
      Join(SplitOn(s, sep), sep);
      { SplitOnGrow(s, sep); }
      Join([[s[0]] + rest[0]] + rest[1..], sep);
      { JoinGrowFirst(s[0], rest, sep); }
      [s[0]] + Join(rest, sep);
      [s[0]] + s[1..];
      s;
    }
  }

  /** A text that does not start with the separator: its first character joins the first piece. */
  lemma SplitOnGrow(s: string, sep: string)
    requires sep != [] && !(sep <= s) && s != []
    ensures SplitOn(s, sep) == [[s[0]] + SplitOn(s[1..], sep)[0]] + SplitOn(s[1..], sep)[1..]
  {
  }

  lemma {:induction false} JoinCons(a: string, rest: seq<string>, sep: string)
    requires rest != []
    ensures Join([a] + rest, sep) == a + sep + Join(rest, sep)
  {
    assert ([a] + rest)[1..] == rest;
  }

  /** Putting a character in front of the first piece puts it in front of the joined text. */
  lemma {:induction false} JoinGrowFirst(c: char, rest: seq<string>, sep: string)
    requires rest != []
    ensures Join([[c] + rest[0]] + rest[1..], sep) == [c] + Join(rest, sep)
  {
    if |rest| > 1 {
      JoinCons([c] + rest[0], rest[1..], sep);
      JoinCons(rest[0], rest[1..], sep);
      assert rest == [rest[0]] + rest[1..];
    }
  }

  /** No piece of a split on one character contains that character. */
  lemma {:induction false} SplitOnFree(s: string, c: char)
    ensures forall i | 0 <= i < |SplitOn(s, [c])| :: c !in SplitOn(s, [c])[i]
    decreases |s|
  {
    if [c] <= s {
      SplitOnFree(s[1..], c);
      assert s[|[c]|..] == s[1..];
    } else if s != [] {
      SplitOnFree(s[1..], c);
      assert s[0] != c;
    }
  }

  /** Splitting at the first separator: the text before it is the first piece. */
  lemma {:induction false} SplitOnFirst(a: string, c: char, rest: string)
    requires c !in a
    ensures SplitOn(a + [c] + rest, [c]) == [a] + SplitOn(rest, [c])
    decreases |a|
  {
    var s := a + [c] + rest;
    if a == [] {
      assert s == [c] + rest;
      assert s[1..] == rest;
    } else {
      assert s[0] == a[0] && s[0] != c;
      assert s[1..] == a[1..] + [c] + rest;
      SplitOnFirst(a[1..], c, rest);
      assert [s[0]] + a[1..] == a;
    }
  }

  /** A text without the separator is a single piece. */
  lemma {:induction false} SplitOnNone(a: string, c: char)
    requires c !in a
    ensures SplitOn(a, [c]) == [a]
    decreases |a|
  {
    if a != [] {
      assert a[0] != c;
      SplitOnNone(a[1..], c);
      assert [a[0]] + a[1..] == a;
    }
  }

  /** The pieces with the cut runs put back between them: `ps[0] + rs[0] + ps[1] + ... + ps[|rs|]`. */
  function Interleave(ps: seq<string>, rs: seq<string>): string
    requires |ps| == |rs| + 1
  {
    if rs == [] then ps[0] else ps[0] + rs[0] + Interleave(ps[1..], rs[1..])
  }

  /** Putting a character in front of the first piece puts it in front of the interleaved text. */
  lemma {:induction false} InterleaveGrowFirst(c: char, ps: seq<string>, rs: seq<string>)
    requires |ps| == |rs| + 1
    ensures Interleave([[c] + ps[0]] + ps[1..], rs) == [c] + Interleave(ps, rs)
  {
    var qs := [[c] + ps[0]] + ps[1..];
    assert qs[0] == [c] + ps[0] && qs[1..] == ps[1..];
    if rs != [] {
      var tail := Interleave(ps[1..], rs[1..]);
      assert ([c] + ps[0]) + rs[0] + tail == [c] + (ps[0] + rs[0] + tail);
    }
  }

  /** The first piece of a split is a prefix of the text. */
  lemma {:induction false} SplitOnFirstPrefix(s: string, sep: string)
    requires sep != []
    ensures SplitOn(s, sep)[0] <= s
    decreases |s|
  {
    if !(sep <= s) && s != [] {
      SplitOnFirstPrefix(s[1..], sep);
      assert s == [s[0]] + s[1..];
    }
  }

  /** No piece of a split holds the separator: every occurrence was cut. */
  lemma {:induction false} SplitOnPiecesFree(s: string, sep: string)
    requires sep != []
    ensures forall i | 0 <= i < |SplitOn(s, sep)| :: !IsInfix(sep, SplitOn(s, sep)[i])
    decreases |s|
  {
    var r := SplitOn(s, sep);
    var empty: string := [];
    assert !IsInfix(sep, empty);
    if sep <= s {
      SplitOnPiecesFree(s[|sep|..], sep);
      assert forall i | 1 <= i < |r| :: r[i] == SplitOn(s[|sep|..], sep)[i - 1];
    } else if s != [] {
      var rest := SplitOn(s[1..], sep);
      SplitOnPiecesFree(s[1..], sep);
      SplitOnFirstPrefix(s[1..], sep);
      var first := [s[0]] + rest[0];
      assert first[1..] == rest[0];
      assert first <= s by {
        assert s == [s[0]] + s[1..];
      }
      assert !(sep <= first);
      assert forall i | 1 <= i < |r| :: r[i] == rest[i];
    }
  }
}
