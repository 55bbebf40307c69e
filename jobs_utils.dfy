/**
 * The job-side helpers: splitting a skills text into items, normalising a
 * skill name, the position-based importance of a skill, the seniority of a
 * title and the generated job description.
 */
module JobsUtils {
  import opened Wrappers
  import opened Text
  import opened PyRound

  // ---------------------------------------------------------------------------
  // extract_skills_from_text

  /** The separators of a skills text: comma, semicolon, newline and the bullet U+2022. */
  predicate IsSep(c: char)
  {
    c == ',' || c == ';' || c == '\n' || c as int == 0x2022
  }

  predicate NoSep(s: string)
  {
    forall i | 0 <= i < |s| :: !IsSep(s[i])
  }

  predicate IsDot(c: char)
  {
    c == '.'
  }

  /** The longest prefix of `s` without a separator. */
  function UpToSep(s: string): (r: string)
    ensures |r| <= |s| && r == s[..|r|] && NoSep(r)
    ensures |r| < |s| ==> IsSep(s[|r|])
  {
    if s == [] || IsSep(s[0]) then [] else [s[0]] + UpToSep(s[1..])
  }

  /** `re.split(r'[,;\n•]+', s)`: the pieces between maximal runs of separators, empty ones included. */
  function Pieces(s: string): (r: seq<string>)
    ensures |r| >= 1
    ensures forall i | 0 <= i < |r| :: NoSep(r[i])
    decreases |s|
  {
    var w := UpToSep(s);
    if |w| == |s| then [s]
    else [w] + Pieces(TrimLeft(s[|w|..], IsSep))
  }

  /** Every character of `s` is a separator. */
  predicate AllSep(s: string)
  {
    forall i | 0 <= i < |s| :: IsSep(s[i])
  }

  /** The separator runs that `re.split(r'[,;\n•]+', s)` cuts `s` at, in order. */
  function SepRuns(s: string): (r: seq<string>)
    ensures |r| == |Pieces(s)| - 1
    decreases |s|
  {
    var w := UpToSep(s);
    if |w| == |s| then []
    else
      var rest := s[|w|..];
      var t := TrimLeft(rest, IsSep);
      [rest[..|rest| - |t|]] + SepRuns(t)
  }

  /**
   * Splitting loses only the separators: the text is its pieces with the cut runs put
   * back between them, and every run is a non-empty block of separators. As no piece
   * holds a separator, the runs are the maximal ones, which is the split `re.split` makes.
   */
  lemma {:induction false} PiecesRoundTrip(s: string)
    ensures s == Interleave(Pieces(s), SepRuns(s))
    ensures SepBlocks(SepRuns(s))
    decreases |s|
  {
    var w := UpToSep(s);
    if |w| < |s| {
      var run, t := PiecesStep(s);
      assert Pieces(s) == [w] + Pieces(t);
      assert SepRuns(s) == [run] + SepRuns(t);
      PiecesRoundTrip(t);
      assert Interleave(Pieces(s), SepRuns(s)) == w + run + Interleave(Pieces(t), SepRuns(t)) by {
        assert ([w] + Pieces(t))[1..] == Pieces(t);
        assert ([run] + SepRuns(t))[1..] == SepRuns(t);
      }
      SepBlocksCons(run, SepRuns(t));
    }
  }

  /** One cut of the split: the first piece, then the separator run, then the rest. */
  lemma PiecesStep(s: string) returns (run: string, t: string)
    requires |UpToSep(s)| < |s|
    ensures t == TrimLeft(s[|UpToSep(s)|..], IsSep) && |t| < |s|
    ensures s == UpToSep(s) + run + t
    ensures run != [] && AllSep(run)
    ensures run == s[|UpToSep(s)|..][..|s| - |UpToSep(s)| - |t|]
  {
    var w := UpToSep(s);
    var rest := s[|w|..];
    t := TrimLeft(rest, IsSep);
    run := TrimCut(rest, IsSep);
    Rejoin(s, |w|, run, t);
  }

  /** A string is its prefix followed by any split of the rest. */
  lemma Rejoin(s: string, k: nat, a: string, b: string)
    requires k <= |s| && a + b == s[k..]
    ensures s == s[..k] + a + b
  {
    assert s == s[..k] + s[k..];
  }

  /** What `TrimLeft` drops is a non-empty block when the first character is dropped. */
  lemma TrimCut(rest: string, drop: char -> bool) returns (run: string)
    requires rest != [] && drop(rest[0])
    ensures run + TrimLeft(rest, drop) == rest && run == rest[..|rest| - |TrimLeft(rest, drop)|]
    ensures run != [] && forall i | 0 <= i < |run| :: drop(run[i])
  {
    var t := TrimLeft(rest, drop);
    var k := |rest| - |t|;
    run := rest[..k];
    assert rest == rest[..k] + rest[k..];
  }

  /** Every run is a non-empty block of separators. */
  predicate SepBlocks(rs: seq<string>)
  {
    forall i | 0 <= i < |rs| :: rs[i] != [] && AllSep(rs[i])
  }

  lemma SepBlocksCons(run: string, rs: seq<string>)
    requires run != [] && AllSep(run) && SepBlocks(rs)
    ensures SepBlocks([run] + rs)
  {
    forall i | 0 <= i < |[run] + rs|
      ensures ([run] + rs)[i] != [] && AllSep(([run] + rs)[i])
    {
      if i > 0 { assert ([run] + rs)[i] == rs[i - 1]; }
    }
  }

  /** `piece.strip().strip('.')`. */
  function Clean(piece: string): string
  {
    TrimRight(TrimLeft(Strip(piece), IsDot), IsDot)
  }

  /** The cleaned pieces that are at least two characters long, in order. */
  function Kept(pieces: seq<string>): (r: seq<string>)
    ensures |r| <= |pieces|
  {
    KeptBy(pieces, Clean)
  }

  /** The positions of the pieces that `Kept` keeps, in order. */
  function KeptAt(pieces: seq<string>): seq<nat>
  {
    KeptAtBy(pieces, Clean)
  }

  /** The pieces, passed through `clean`, that are at least two characters long, in order. */
  function KeptBy(pieces: seq<string>, clean: string -> string): (r: seq<string>)
    ensures |r| <= |pieces|
  {
    if pieces == [] then []
    else
      var rest := KeptBy(pieces[..|pieces| - 1], clean);
      var c := clean(pieces[|pieces| - 1]);
      if |c| > 1 then rest + [c] else rest
  }

  /** The positions of the pieces that `KeptBy` keeps, in order. */
  function KeptAtBy(pieces: seq<string>, clean: string -> string): seq<nat>
  {
    if pieces == [] then []
    else
      var rest := KeptAtBy(pieces[..|pieces| - 1], clean);
      if |clean(pieces[|pieces| - 1])| > 1 then rest + [|pieces| - 1] else rest
  }

  /** `f` applied to each string, position by position. */
  function MapStrings(xs: seq<string>, f: string -> string): (r: seq<string>)
    ensures |r| == |xs|
    ensures forall j | 0 <= j < |xs| :: r[j] == f(xs[j])
  {
    seq(|xs|, j requires 0 <= j < |xs| => f(xs[j]))
  }

  lemma MapStringsSnoc(xs: seq<string>, f: string -> string)
    requires xs != []
    ensures MapStrings(xs, f) == MapStrings(xs[..|xs| - 1], f) + [f(xs[|xs| - 1])]
  {
    var n := |xs| - 1;
    forall j | 0 <= j < n
      ensures MapStrings(xs, f)[j] == MapStrings(xs[..n], f)[j]
    {
      assert xs[..n][j] == xs[j];
    }
  }

  /** Each piece cleaned, position by position. */
  function Cleaned(pieces: seq<string>): (r: seq<string>)
    ensures |r| == |pieces|
    ensures forall j | 0 <= j < |pieces| :: r[j] == Clean(pieces[j])
  {
    MapStrings(pieces, Clean)
  }

  /**
   * `items` are the entries of `cleaned` at the strictly increasing positions `at`,
   * and a position is picked exactly when its entry is at least two characters long.
   */
  predicate Picks(cleaned: seq<string>, items: seq<string>, at: seq<nat>)
  {
    && |at| == |items|
    && (forall i | 0 <= i < |at| :: at[i] < |cleaned| && items[i] == cleaned[at[i]])
    && (forall i, j | 0 <= i < j < |at| :: at[i] < at[j])
    && (forall j | 0 <= j < |cleaned| :: |cleaned[j]| > 1 <==> j in at)
  }

  /**
   * The items are the cleaned pieces at strictly increasing positions, so they keep
   * the order in which they appear, and a piece gives an item exactly when it cleans
   * to at least two characters.
   */
  lemma KeptOrder(pieces: seq<string>)
    ensures Picks(Cleaned(pieces), Kept(pieces), KeptAt(pieces))
  {
    KeptOrderBy(pieces, Clean);
  }

  lemma {:induction false} KeptOrderBy(pieces: seq<string>, clean: string -> string)
    ensures Picks(MapStrings(pieces, clean), KeptBy(pieces, clean), KeptAtBy(pieces, clean))
  {
    if pieces != [] {
      var n := |pieces| - 1;
      var init := pieces[..n];
      KeptOrderBy(init, clean);
      MapStringsSnoc(pieces, clean);
      PicksSnoc(MapStrings(init, clean), KeptBy(init, clean), KeptAtBy(init, clean), clean(pieces[n]));
    }
  }

  lemma PicksSnoc(cleaned: seq<string>, items: seq<string>, at: seq<nat>, c: string)
    requires Picks(cleaned, items, at)
    ensures Picks(cleaned + [c], if |c| > 1 then items + [c] else items,
                  if |c| > 1 then at + [|cleaned|] else at)
  {
    var n := |cleaned|;
    var cl := cleaned + [c];
    var it := if |c| > 1 then items + [c] else items;
    var at' := if |c| > 1 then at + [n] else at;
    assert n !in at;
    forall i | 0 <= i < |at'|
      ensures at'[i] < |cl| && it[i] == cl[at'[i]]
    {
      if i < |at| { assert at'[i] == at[i] && it[i] == items[i] && cl[at[i]] == cleaned[at[i]]; }
    }
    forall i, j | 0 <= i < j < |at'|
      ensures at'[i] < at'[j]
    {
      if j < |at| { assert at'[i] == at[i] && at'[j] == at[j]; }
    }
    forall j | 0 <= j < |cl|
      ensures |cl[j]| > 1 <==> j in at'
    {
      if j < n { assert cl[j] == cleaned[j]; }
    }
  }

  /** A cleaned piece is a stretch of the piece: cleaning only cuts characters off its ends. */
  lemma {:induction false} CleanInfix(piece: string)
    ensures IsInfix(Clean(piece), piece)
  {
    var lo, hi := CleanSlice(piece);
    InfixSlice(piece, lo, hi);
  }

  /** Where the cleaned piece sits in the piece. */
  lemma CleanSlice(piece: string) returns (lo: nat, hi: nat)
    ensures lo <= hi <= |piece| && Clean(piece) == piece[lo..hi]
  {
    var l1 := TrimLeft(piece, IsWs);
    var r1 := TrimRight(l1, IsWs);
    var l2 := TrimLeft(r1, IsDot);
    var c := TrimRight(l2, IsDot);
    lo, hi := EndsCut(piece, l1, r1, l2, c);
  }

  /** Cutting a suffix, a prefix, a suffix and a prefix leaves a slice of the start. */
  lemma EndsCut(s: string, l1: string, r1: string, l2: string, c: string) returns (lo: nat, hi: nat)
    requires |l1| <= |s| && l1 == s[|s| - |l1|..]
    requires |r1| <= |l1| && r1 == l1[..|r1|]
    requires |l2| <= |r1| && l2 == r1[|r1| - |l2|..]
    requires |c| <= |l2| && c == l2[..|c|]
    ensures lo <= hi <= |s| && c == s[lo..hi]
  {
    lo := |s| - |l1| + |r1| - |l2|;
    hi := lo + |c|;
    forall i | 0 <= i < |c|
      ensures c[i] == s[lo + i]
    {
      assert c[i] == l2[i] == r1[|r1| - |l2| + i] == l1[|r1| - |l2| + i];
    }
  }

  /** A slice of a string occurs in it. */
  lemma InfixSlice(s: string, lo: nat, hi: nat)
    requires lo <= hi <= |s|
    ensures IsInfix(s[lo..hi], s)
  {
    assert s == s[..lo] + s[lo..hi] + s[hi..];
    InfixAt(s[..lo], s[lo..hi], s[hi..]);
  }

  /** Cleaning only cuts characters off the ends of a piece, so it cannot bring in a separator. */
  lemma {:induction false} CleanNoSep(piece: string)
    requires NoSep(piece)
    ensures NoSep(Clean(piece))
  {
    var p := (c: char) => !IsSep(c);
    assert All(piece, p);
    StripAll(piece, p);
    TrimAll(Strip(piece), IsDot, p);
    TrimAll(TrimLeft(Strip(piece), IsDot), IsDot, p);
    assert All(Clean(piece), p);
  }

  /** The items `extract_skills_from_text` returns. */
  function SkillsOfText(text: Option<string>): seq<string>
  {
    if text.None? || text.value == "" then [] else Kept(Pieces(text.value))
  }

  /**
   * What `extract_skills_from_text` computes from a non-empty text: the text is its
   * pieces with non-empty separator runs between them, each item is a cleaned piece
   * (a stretch of that piece), the items follow the pieces' order, and a piece gives
   * an item exactly when it cleans to two characters or more.
   */
  lemma SkillsOfTextSpec(text: string)
    requires text != ""
    ensures text == Interleave(Pieces(text), SepRuns(text)) && SepBlocks(SepRuns(text))
    ensures Picks(Cleaned(Pieces(text)), SkillsOfText(Some(text)), KeptAt(Pieces(text)))
    ensures forall j | 0 <= j < |Pieces(text)| ::
      NoSep(Pieces(text)[j]) && IsInfix(Cleaned(Pieces(text))[j], Pieces(text)[j])
  {
    PiecesRoundTrip(text);
    KeptOrder(Pieces(text));
    forall j | 0 <= j < |Pieces(text)|
      ensures IsInfix(Cleaned(Pieces(text))[j], Pieces(text)[j])
    {
      CleanInfix(Pieces(text)[j]);
    }
  }

  /** Items of at least two characters, none holding a separator. */
  predicate GoodItems(items: seq<string>)
  {
    forall i | 0 <= i < |items| :: |items[i]| >= 2 && NoSep(items[i])
  }

  lemma {:induction false} KeptItems(pieces: seq<string>)
    requires forall i | 0 <= i < |pieces| :: NoSep(pieces[i])
    ensures GoodItems(Kept(pieces))
  {
    if pieces != [] {
      var init := pieces[..|pieces| - 1];
      KeptItems(init);
      CleanNoSep(pieces[|pieces| - 1]);
      GoodSnoc(Kept(init), Clean(pieces[|pieces| - 1]));
    }
  }

  lemma GoodSnoc(items: seq<string>, c: string)
    requires GoodItems(items) && NoSep(c)
    ensures GoodItems(if |c| > 1 then items + [c] else items)
  {
  }

  /**
   * `extract_skills_from_text`: no text gives no items; otherwise every item is
   * at least two characters long and holds no separator.
   */
  method ExtractSkillsFromText(text: Option<string>) returns (skills: seq<string>)
    ensures skills == SkillsOfText(text)
    ensures text.None? || text == Some("") ==> skills == []
    ensures GoodItems(skills)
  {
    if text.None? || text.value == "" {
      return [];
    }
    var raw := Pieces(text.value);
    skills := KeepPieces(raw);
    KeptItems(raw);
  }

  /** The loop of `extract_skills_from_text` over the split pieces. */
  method KeepPieces(raw: seq<string>) returns (skills: seq<string>)
    ensures skills == Kept(raw)
  {
    skills := [];
    for k := 0 to |raw|
      invariant skills == Kept(raw[..k])
    {
      var cleaned := Clean(raw[k]);
      KeptSnoc(raw, k);
      if cleaned != [] && |cleaned| > 1 {
        skills := skills + [cleaned];
      }
    }
    KeptAll(raw);
  }

  lemma {:induction false} KeptSnoc(pieces: seq<string>, k: nat)
    requires k < |pieces|
    ensures Kept(pieces[..k + 1]) == Kept(pieces[..k]) + (if |Clean(pieces[k])| > 1 then [Clean(pieces[k])] else [])
  {
    assert pieces[..k + 1][..k] == pieces[..k] && pieces[..k + 1][k] == pieces[k];
  }

  lemma {:induction false} KeptAll(pieces: seq<string>)
    ensures Kept(pieces[..|pieces|]) == Kept(pieces)
  {
    assert pieces[..|pieces|] == pieces;
  }

  // ---------------------------------------------------------------------------
  // normalize_skill_name

  /** The lead-in phrases removed from the start of a name when whitespace follows them. */
  const Prefixes: seq<string> := ["knowledge of", "experience with", "proficiency in", "skills in", "understanding of"]

  /** The trailing words removed from the end of a name when whitespace precedes them. */
  const Suffixes: seq<string> := ["basics", "fundamentals", "framework", "library", "development", "programming", "language"]

  /** The words dropped from a normalised name. */
  const StopWords: seq<string> := ["the", "and", "or", "a", "an", "in", "on", "with", "using", "for", "to"]

  /**
   * `^(knowledge of|...)\s+` removed: the first listed phrase that starts `s` and is
   * followed by whitespace goes, with all of that whitespace.
   */
  function StripPrefix(s: string): string
  {
    StripPrefixFrom(s, 0)
  }

  function StripPrefixFrom(s: string, i: nat): string
    requires i <= |Prefixes|
    decreases |Prefixes| - i
  {
    if i == |Prefixes| then s
    else
      var p := Prefixes[i];
      if p <= s && |s| > |p| && IsWs(s[|p|]) then TrimLeft(s[|p|..], IsWs)
      else StripPrefixFrom(s, i + 1)
  }

  /** Whether `t` ends with whitespace followed by the listed word `w`. */
  predicate EndsWith(t: string, w: string)
  {
    |t| > |w| && t[|t| - |w|..] == w && IsWs(t[|t| - |w| - 1])
  }

  /** Removes a trailing listed word and the whitespace before it, if `t` ends that way. */
  function CutSuffix(t: string, i: nat): (r: Option<string>)
    requires i <= |Suffixes|
    decreases |Suffixes| - i
  {
    if i == |Suffixes| then None
    else if EndsWith(t, Suffixes[i]) then Some(TrimRight(t[..|t| - |Suffixes[i]|], IsWs))
    else CutSuffix(t, i + 1)
  }

  /**
   * `\s+(basics|...)$` removed. Python's `$` also matches just before a final
   * newline, so the word may sit right before one; the newline stays.
   */
  function StripSuffix(s: string): string
  {
    match CutSuffix(s, 0)
    case Some(t) => t
    case None =>
      if s != [] && s[|s| - 1] == '\n' then
        match CutSuffix(s[..|s| - 1], 0)
        case Some(t) => t + "\n"
        case None => s
      else s
  }

  /**
   * One entry of the table of canonical names: the token sequences it matches
   * (tried in order) and the tokens that replace a match.
   */
  datatype Rule = Rule(patterns: seq<seq<string>>, replacement: seq<string>)

  /** The table of canonical names, as whole-token rewrites, in the order it is applied. */
  const Rules: seq<Rule> := LanguageRules + PlatformRules + AiRules + DataRules + PracticeRules + DesignRules

  /** Languages and frameworks. */
  const LanguageRules: seq<Rule> := [
    Rule([["js"]], ["javascript"]),
    Rule([["ts"]], ["typescript"]),
    Rule([["py"]], ["python"]),
    Rule([["nodejs"]], ["node.js"]),
    Rule([["reactjs"], ["react", "js"]], ["react"]),
    Rule([["angularjs"], ["angular", "js"]], ["angular"]),
    Rule([["vuejs"], ["vue", "js"]], ["vue"])
  ]

  /** Cloud platforms and services. */
  const PlatformRules: seq<Rule> := [
    Rule([["aws", "services"]], ["aws"]),
    Rule([["cloud", "technologies"]], ["cloud", "computing"]),
    Rule([["rest", "api"]], ["rest"])
  ]

  /** Machine learning and AI. */
  const AiRules: seq<Rule> := [
    Rule([["ml"]], ["machine", "learning"]),
    Rule([["ai"]], ["artificial", "intelligence"]),
    Rule([["nlp"]], ["natural", "language", "processing"])
  ]

  /** Databases and data platforms. */
  const DataRules: seq<Rule> := [
    Rule([["db"]], ["database"]),
    Rule([["rdbms"]], ["relational", "database"]),
    Rule([["sql", "database"]], ["sql"]),
    Rule([["gcp"]], ["google", "cloud", "platform"]),
    Rule([["nosqldatabases"], ["nosqldatabase"], ["nosql", "databases"], ["nosql", "database"]], ["nosql"])
  ]

  /** Programming paradigms. */
  const PracticeRules: seq<Rule> := [
    Rule([["oop"]], ["object-oriented", "programming"]),
    Rule([["fp"]], ["functional", "programming"])
  ]

  /** User-facing design. */
  const DesignRules: seq<Rule> := [
    Rule([["ui/ux"]], ["ui/ux", "design"]),
    Rule([["ui"]], ["user", "interface"]),
    Rule([["ux"]], ["user", "experience"])
  ]

  /** The length of the first pattern that `ts` starts with. */
  function FirstMatch(ts: seq<string>, patterns: seq<seq<string>>): (r: nat)
    ensures r <= |ts|
  {
    if patterns == [] then 0
    else if patterns[0] != [] && patterns[0] <= ts then |patterns[0]|
    else FirstMatch(ts, patterns[1..])
  }

  /** `re.sub` of one rule: left to right, each match replaced, the replacement not searched again. */
  function Rewrite(ts: seq<string>, rule: Rule): seq<string>
    decreases |ts|
  {
    if ts == [] then []
    else
      var n := FirstMatch(ts, rule.patterns);
      if n > 0 then rule.replacement + Rewrite(ts[n..], rule)
      else [ts[0]] + Rewrite(ts[1..], rule)
  }

  /** The rules in `rules`, applied one after the other. */
  function RewriteAll(ts: seq<string>, rules: seq<Rule>): seq<string>
  {
    if rules == [] then ts
    else Rewrite(RewriteAll(ts, rules[..|rules| - 1]), rules[|rules| - 1])
  }

  /** The tokens that are not stop words, in order. */
  function DropStopWords(ts: seq<string>): (r: seq<string>)
    ensures forall i | 0 <= i < |r| :: r[i] !in StopWords
    ensures forall i | 0 <= i < |r| :: r[i] in ts
  {
    if ts == [] then []
    else if ts[0] in StopWords then DropStopWords(ts[1..])
    else [ts[0]] + DropStopWords(ts[1..])
  }

  /** The normalised name, step by step as `normalize_skill_name` computes it. */
  function Normalize(name: string): string
  {
    if name == "" then ""
    else
      var s := StripSuffix(StripPrefix(Lower(name)));
      var ts := RewriteAll(SplitWs(s), Rules);
      Strip(Join(DropStopWords(ts), " "))
  }

  /** `normalize_skill_name`, rewriting the name in place through the table of canonical names. */
  method NormalizeSkillName(name: string) returns (normalized: string)
    ensures normalized == Normalize(name)
  {
    if name == "" {
      return "";
    }
    normalized := Lower(name);
    normalized := StripPrefix(normalized);
    normalized := StripSuffix(normalized);
    var tokens := SplitWs(normalized);
    ghost var start := tokens;
    for k := 0 to |Rules|
      invariant tokens == RewriteAll(start, Rules[..k])
    {
      RewriteAllSnoc(start, Rules, k);
      tokens := Rewrite(tokens, Rules[k]);
    }
    RewriteAllDone(start, Rules);
    var parts := DropStopWords(tokens);
    normalized := Join(parts, " ");
    normalized := Strip(normalized);
  }

  lemma {:induction false} RewriteAllSnoc(ts: seq<string>, rules: seq<Rule>, k: nat)
    requires k < |rules|
    ensures RewriteAll(ts, rules[..k + 1]) == Rewrite(RewriteAll(ts, rules[..k]), rules[k])
  {
    assert rules[..k + 1][..k] == rules[..k];
  }

  lemma {:induction false} RewriteAllDone(ts: seq<string>, rules: seq<Rule>)
    ensures RewriteAll(ts, rules[..|rules|]) == RewriteAll(ts, rules)
  {
    assert rules[..|rules|] == rules;
  }

  /** Tokens as `split()` produces them, and lower-case. */
  predicate GoodTokens(ts: seq<string>)
  {
    forall i | 0 <= i < |ts| :: ts[i] != [] && NoWs(ts[i]) && NoUpper(ts[i])
  }

  lemma {:induction false} RewriteGood(ts: seq<string>, rule: Rule)
    requires GoodTokens(ts) && GoodTokens(rule.replacement)
    ensures GoodTokens(Rewrite(ts, rule))
    decreases |ts|
  {
    if ts != [] {
      var n := FirstMatch(ts, rule.patterns);
      if n > 0 {
        RewriteGood(ts[n..], rule);
        var r := rule.replacement + Rewrite(ts[n..], rule);
        assert forall i | 0 <= i < |r| :: r[i] == if i < |rule.replacement| then rule.replacement[i] else Rewrite(ts[n..], rule)[i - |rule.replacement|];
      } else {
        RewriteGood(ts[1..], rule);
      }
    }
  }

  /** Every replacement in `rules` is a sequence of tokens as `split()` produces them, lower-case. */
  predicate GoodReplacements(rules: seq<Rule>)
  {
    forall k | 0 <= k < |rules| :: GoodTokens(rules[k].replacement)
  }

  lemma {:induction false} GoodReplacementsConcat(a: seq<Rule>, b: seq<Rule>)
    requires GoodReplacements(a) && GoodReplacements(b)
    ensures GoodReplacements(a + b)
  {
    forall k | 0 <= k < |a + b| ensures GoodTokens((a + b)[k].replacement) {
      if k >= |a| {
        assert (a + b)[k] == b[k - |a|];
      }
    }
  }

  lemma {:induction false} RulesGood()
    ensures GoodReplacements(Rules)
  {
    LanguageRulesGood();
    PlatformRulesGood();
    AiRulesGood();
    DataRulesGood();
    PracticeRulesGood();
    DesignRulesGood();
    GoodReplacementsConcat(LanguageRules, PlatformRules);
    GoodReplacementsConcat(LanguageRules + PlatformRules, AiRules);
    GoodReplacementsConcat(LanguageRules + PlatformRules + AiRules, DataRules);
    GoodReplacementsConcat(LanguageRules + PlatformRules + AiRules + DataRules, PracticeRules);
    GoodReplacementsConcat(LanguageRules + PlatformRules + AiRules + DataRules + PracticeRules, DesignRules);
  }

  lemma {:induction false} LanguageRulesGood()
    ensures GoodReplacements(LanguageRules)
  {
    forall k | 0 <= k < |LanguageRules| ensures GoodTokens(LanguageRules[k].replacement) {
      var rep := LanguageRules[k].replacement;
      forall i | 0 <= i < |rep| ensures rep[i] != [] && NoWs(rep[i]) && NoUpper(rep[i]) {
        var w := rep[i];
        forall j | 0 <= j < |w| ensures !IsWs(w[j]) && !IsUpper(w[j]) { }
      }
    }
  }

  lemma {:induction false} PlatformRulesGood()
    ensures GoodReplacements(PlatformRules)
  {
    forall k | 0 <= k < |PlatformRules| ensures GoodTokens(PlatformRules[k].replacement) {
      var rep := PlatformRules[k].replacement;
      forall i | 0 <= i < |rep| ensures rep[i] != [] && NoWs(rep[i]) && NoUpper(rep[i]) {
        var w := rep[i];
        forall j | 0 <= j < |w| ensures !IsWs(w[j]) && !IsUpper(w[j]) { }
      }
    }
  }

  lemma {:induction false} AiRulesGood()
    ensures GoodReplacements(AiRules)
  {
    forall k | 0 <= k < |AiRules| ensures GoodTokens(AiRules[k].replacement) {
      var rep := AiRules[k].replacement;
      forall i | 0 <= i < |rep| ensures rep[i] != [] && NoWs(rep[i]) && NoUpper(rep[i]) {
        var w := rep[i];
        forall j | 0 <= j < |w| ensures !IsWs(w[j]) && !IsUpper(w[j]) { }
      }
    }
  }

  lemma {:induction false} DataRulesGood()
    ensures GoodReplacements(DataRules)
  {
    forall k | 0 <= k < |DataRules| ensures GoodTokens(DataRules[k].replacement) {
      var rep := DataRules[k].replacement;
      forall i | 0 <= i < |rep| ensures rep[i] != [] && NoWs(rep[i]) && NoUpper(rep[i]) {
        var w := rep[i];
        forall j | 0 <= j < |w| ensures !IsWs(w[j]) && !IsUpper(w[j]) { }
      }
    }
  }

  lemma {:induction false} PracticeRulesGood()
    ensures GoodReplacements(PracticeRules)
  {
    forall k | 0 <= k < |PracticeRules| ensures GoodTokens(PracticeRules[k].replacement) {
      var rep := PracticeRules[k].replacement;
      forall i | 0 <= i < |rep| ensures rep[i] != [] && NoWs(rep[i]) && NoUpper(rep[i]) {
        var w := rep[i];
        forall j | 0 <= j < |w| ensures !IsWs(w[j]) && !IsUpper(w[j]) { }
      }
    }
  }

  lemma {:induction false} DesignRulesGood()
    ensures GoodReplacements(DesignRules)
  {
    forall k | 0 <= k < |DesignRules| ensures GoodTokens(DesignRules[k].replacement) {
      var rep := DesignRules[k].replacement;
      forall i | 0 <= i < |rep| ensures rep[i] != [] && NoWs(rep[i]) && NoUpper(rep[i]) {
        var w := rep[i];
        forall j | 0 <= j < |w| ensures !IsWs(w[j]) && !IsUpper(w[j]) { }
      }
    }
  }

  lemma {:induction false} RewriteAllGood(ts: seq<string>, rules: seq<Rule>)
    requires GoodTokens(ts)
    requires GoodReplacements(rules)
    ensures GoodTokens(RewriteAll(ts, rules))
  {
    if rules != [] {
      RewriteAllGood(ts, rules[..|rules| - 1]);
      RewriteGood(RewriteAll(ts, rules[..|rules| - 1]), rules[|rules| - 1]);
    }
  }

  lemma {:induction false} SplitLowerGood(s: string)
    requires NoUpper(s)
    ensures GoodTokens(SplitWs(s))
    decreases |s|
  {
    if s != [] {
      if IsWs(s[0]) {
        SplitLowerGood(s[1..]);
      } else {
        var w := Word(s);
        SplitLowerGood(s[|w|..]);
      }
    }
  }

  lemma {:induction false} StripPrefixLower(s: string, i: nat)
    requires NoUpper(s) && i <= |Prefixes|
    ensures NoUpper(StripPrefixFrom(s, i))
    decreases |Prefixes| - i
  {
    if i < |Prefixes| {
      var p := Prefixes[i];
      if p <= s && |s| > |p| && IsWs(s[|p|]) {
        assert StripPrefixFrom(s, i) == TrimLeft(s[|p|..], IsWs);
        TrimLower(s, |p|);
      } else {
        StripPrefixLower(s, i + 1);
      }
    }
  }

  lemma TrimLower(s: string, k: nat)
    requires NoUpper(s) && k <= |s|
    ensures NoUpper(TrimLeft(s[k..], IsWs))
  {
    var q := (c: char) => !IsUpper(c);
    assert All(s[k..], q);
    TrimAll(s[k..], IsWs, q);
    assert All(TrimLeft(s[k..], IsWs), q);
  }

  lemma {:induction false} CutSuffixLower(t: string, i: nat)
    requires NoUpper(t) && i <= |Suffixes|
    ensures CutSuffix(t, i).Some? ==> NoUpper(CutSuffix(t, i).value)
    decreases |Suffixes| - i
  {
    if i < |Suffixes| && !EndsWith(t, Suffixes[i]) {
      CutSuffixLower(t, i + 1);
    }
  }

  lemma {:induction false} StripSuffixLower(s: string)
    requires NoUpper(s)
    ensures NoUpper(StripSuffix(s))
  {
    CutSuffixLower(s, 0);
    if s != [] {
      CutSuffixLower(s[..|s| - 1], 0);
    }
  }

  /**
   * The normalised name is lower-case, holds no stop word as a token, and has no
   * leading, trailing or doubled whitespace and no whitespace other than single spaces.
   */
  lemma {:induction false} NormalizeClean(name: string)
    ensures NoUpper(Normalize(name))
    ensures Spaced(Normalize(name))
    ensures forall i | 0 <= i < |SplitWs(Normalize(name))| :: SplitWs(Normalize(name))[i] !in StopWords
  {
    if name != "" {
      var s := StripSuffix(StripPrefix(Lower(name)));
      var kept := DropStopWords(RewriteAll(SplitWs(s), Rules));
      KeptTokensGood(name);
      JoinedClean(kept);
      SplitJoin(kept);
      assert Normalize(name) == Join(kept, " ");
    }
  }

  /** The tokens left after the rewrites and the stop-word filter are lower-case words. */
  lemma {:induction false} KeptTokensGood(name: string)
    ensures GoodTokens(DropStopWords(RewriteAll(SplitWs(StripSuffix(StripPrefix(Lower(name)))), Rules)))
  {
    var low := Lower(name);
    StripPrefixLower(low, 0);
    StripSuffixLower(StripPrefix(low));
    var s := StripSuffix(StripPrefix(low));
    SplitLowerGood(s);
    RulesGood();
    RewriteAllGood(SplitWs(s), Rules);
  }

  /** Lower-case words joined by single spaces are already stripped, lower-case and single-spaced. */
  lemma {:induction false} JoinedClean(kept: seq<string>)
    requires GoodTokens(kept)
    ensures Strip(Join(kept, " ")) == Join(kept, " ")
    ensures NoUpper(Join(kept, " ")) && Spaced(Join(kept, " "))
  {
    JoinClean(kept);
    JoinLower(kept);
  }

  lemma {:induction false} JoinLower(kept: seq<string>)
    requires forall i | 0 <= i < |kept| :: NoUpper(kept[i])
    ensures NoUpper(Join(kept, " "))
  {
    var p := c => !IsUpper(c);
    forall i, j | 0 <= i < |kept| && 0 <= j < |kept[i]| ensures p(kept[i][j]) {
      assert NoUpper(kept[i]);
    }
    JoinChars(kept, p);
  }

  /** The empty name normalises to the empty name. */
  lemma NormalizeEmpty()
    ensures Normalize("") == ""
  {
  }

  // ---------------------------------------------------------------------------
  // calculate_skill_importance

  /**
   * `calculate_skill_importance`, in tenths: 5 (0.5) for the degenerate inputs,
   * 10 (1.0) for a single skill, otherwise 1.0 - 0.9 * position / (total - 1) rounded to tenths.
   */
  function SkillImportance(skills: seq<string>, position: int, total: int): (tenths: int)
    ensures skills == [] || position >= |skills| || total == 0 ==> tenths == 5
    ensures skills != [] && position < |skills| && total == 1 ==> tenths == 10
  {
    if skills == [] || position >= |skills| || total == 0 then 5
    else if total == 1 then 10
    else RoundTenths(1.0 - (1.0 - 0.1) * position as real / (total - 1) as real)
  }

  /** On a position inside the ranked list the importance runs from 1.0 at the top to 0.1 at the bottom. */
  lemma {:induction false} ImportanceRange(skills: seq<string>, position: int, total: int)
    requires total >= 2 && 0 <= position <= total - 1 && position < |skills|
    ensures 1 <= SkillImportance(skills, position, total) <= 10
    ensures position == 0 ==> SkillImportance(skills, position, total) == 10
    ensures position == total - 1 ==> SkillImportance(skills, position, total) == 1
  {
    var t := UnitRatio(position, total - 1);
    var x := 1.0 - (1.0 - 0.1) * position as real / (total - 1) as real;
    assert x == 1.0 - 0.9 * t;
    RoundWithin(10.0 * x, 1, 10);
    if position == total - 1 {
      assert 10.0 * x == 1 as real;
      RoundWhole(1);
    }
    if position == 0 {
      assert 10.0 * x == 10 as real;
      RoundWhole(10);
    }
  }

  /** `p / d` for `0 <= p <= d`, and the way `c * p / d` factors through it. */
  lemma {:induction false} UnitRatio(p: int, d: int) returns (t: real)
    requires 0 <= p <= d && 0 < d
    ensures t == p as real / d as real && 0.0 <= t <= 1.0
    ensures (1.0 - 0.1) * p as real / d as real == 0.9 * t
    ensures p == 0 ==> t == 0.0
    ensures p == d ==> t == 1.0
  {
    var num, den := p as real, d as real;
    t := num / den;
    assert t * den == num;
    ScaleLe(t, 1.0, den);
    ScaleLe(0.0, t, den);
    ScaleEq(t, 0.0, den);
    ScaleEq(t, 1.0, den);
    QuotientScale(num, den, 1.0 - 0.1);
    assert (1.0 - 0.1) * num / den == 0.9 * t;
    assert 0.0 <= t <= 1.0;
    assert p == 0 ==> t == 0.0;
  }

  /** A later position never gets a higher importance. */
  lemma {:induction false} ImportanceMonotone(skills: seq<string>, p: int, q: int, total: int)
    requires total >= 2 && 0 <= p <= q < |skills|
    ensures SkillImportance(skills, q, total) <= SkillImportance(skills, p, total)
  {
    var d := (total - 1) as real;
    assert p as real / d <= q as real / d;
    RoundMonotone(10.0 * (1.0 - 0.9 * q as real / d), 10.0 * (1.0 - 0.9 * p as real / d));
  }

  // ---------------------------------------------------------------------------
  // calculate_job_level and generate_job_description

  const SeniorTerms: seq<string> := ["senior", "sr", "lead", "principal", "staff", "architect", "manager", "head", "chief", "cto", "vp"]
  const EntryTerms: seq<string> := ["junior", "jr", "entry", "intern", "trainee", "graduate", "associate"]

  /** Whether one of `terms` occurs in `s`. */
  predicate AnyIn(terms: seq<string>, s: string)
  {
    exists i | 0 <= i < |terms| :: IsInfix(terms[i], s)
  }

  function AnyInFrom(terms: seq<string>, s: string): (r: bool)
    ensures r <==> AnyIn(terms, s)
  {
    if terms == [] then false
    else IsInfix(terms[0], s) || AnyInFrom(terms[1..], s)
  }

  /** `calculate_job_level`: senior terms are looked for first, then entry terms; anything else is mid. */
  function JobLevel(title: string): (level: string)
    ensures level in {"senior", "entry", "mid"}
    ensures level == "senior" <==> AnyIn(SeniorTerms, Lower(title))
    ensures level == "entry" <==> !AnyIn(SeniorTerms, Lower(title)) && AnyIn(EntryTerms, Lower(title))
  {
    var t := Lower(title);
    if AnyInFrom(SeniorTerms, t) then "senior"
    else if AnyInFrom(EntryTerms, t) then "entry"
    else "mid"
  }

  /** The opening sentence for a job of the given level. */
  function Intro(level: string, title: string, company: string): string
  {
    if level == "entry" then company + " is looking for an entry-level " + title + " to join our team."
    else if level == "senior" then company + " is seeking an experienced " + title + " to lead our technical initiatives."
    else company + " is hiring a " + title + " to strengthen our development team."
  }

  /** The experience sentence for a job of the given level. */
  function Experience(level: string): string
  {
    if level == "entry" then "This is an excellent opportunity for recent graduates or developers early in their career path."
    else if level == "senior" then "The ideal candidate will have extensive experience and can mentor junior team members."
    else "We're looking for someone with proven experience who can hit the ground running."
  }

  /** The skills sentence: the first five skills at most, or a fixed sentence when there are none. */
  function SkillsSection(skills: seq<string>): string
  {
    if skills == [] then NoSkillsSentence
    else "Key technologies include " + Join(skills[..if |skills| < 5 then |skills| else 5], ", ") + ", among others."
  }

  const NoSkillsSentence := "Experience with relevant technologies is required."

  function LocationSentence(location: string): string
  {
    "This position is located in " + location + "."
  }

  /** The `location` argument, "Remote" when it is not passed. */
  function LocationOr(location: Option<string>): string
  {
    if location.Some? then location.value else "Remote"
  }

  /**
   * `generate_job_description`: it always ends with the location sentence,
   * naming "Remote" when no location is passed.
   */
  function JobDescription(title: string, company: string, skills: seq<string>, location: Option<string>): (d: string)
    ensures |d| >= |LocationSentence(LocationOr(location))|
    ensures d[|d| - |LocationSentence(LocationOr(location))|..] == LocationSentence(LocationOr(location))
    ensures location.None? ==> d[|d| - |LocationSentence("Remote")|..] == LocationSentence("Remote")
  {
    var level := JobLevel(title);
    var loc := LocationSentence(LocationOr(location));
    var head := Intro(level, title, company) + " " + Experience(level) + " " + SkillsSection(skills) + " ";
    assert (head + loc)[|head|..] == loc;
    head + loc
  }

  /** Skills after the fifth never show in the description. */
  lemma {:induction false} DescriptionUsesFirstFive(title: string, company: string, skills: seq<string>, location: Option<string>)
    requires |skills| > 5
    ensures JobDescription(title, company, skills, location) == JobDescription(title, company, skills[..5], location)
  {
    assert skills[..5][..5] == skills[..5];
  }

  /** With no skills the description carries the fixed sentence. */
  lemma {:induction false} DescriptionWithoutSkills(title: string, company: string, location: Option<string>)
    ensures IsInfix(NoSkillsSentence, JobDescription(title, company, [], location))
  {
    var level := JobLevel(title);
    var pre := Intro(level, title, company) + " " + Experience(level) + " ";
    InfixBefore(pre, NoSkillsSentence, " ", LocationSentence(LocationOr(location)));
  }

  lemma {:induction false} InfixBefore(pre: string, x: string, sep: string, post: string)
    ensures IsInfix(x, pre + x + sep + post)
  {
    InfixAt(pre, x, sep + post);
    assert pre + x + (sep + post) == pre + x + sep + post;
  }
}
