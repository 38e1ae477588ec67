/** The Markdown classifiers on text, and the pruner from document to document. */
module MarkdownText {
  import opened Text
  import opened Markdown
  import opened MarkdownPasses
  import opened MarkdownVerbatim
  import opened MarkdownVerdict

  const PRUNED := "<!-- meshloop:pruned -->"
  const PRUNED_ROW := "| <!-- meshloop:pruned --> |"
  const CODE_STUB := "/* ... */"
  const BOM := '\U{FEFF}'

  const METADATA: seq<string> :=
    ["- status:", "status:", "- implementation:", "implementation:", "- date:", "date:", "- author:", "author:",
     "- author/executor:", "author/executor:", "- reviewer:", "reviewer:", "- approval evidence:", "approval evidence:",
     "- supersedes:", "supersedes:", "- superseded by:", "superseded by:", "- technical specification:",
     "technical specification:", "decision:", "decision or proposal:", "consequences:", "verification:",
     "verification and implementation evidence:", "acceptance criteria:", "requirements:", "constraints:"]

  const CALLOUTS: seq<string> := ["> [!note]", "> [!tip]", "> [!important]", "> [!warning]", "> [!caution]"]

  // -------------------------------------------------------------- classifiers

  function Lower(c: char): char {
    if 'A' <= c <= 'Z' then ((c as int) + 32) as char else c
  }

  function ToLower(s: string): (r: string)
    ensures |r| == |s| && forall i :: 0 <= i < |s| ==> r[i] == Lower(s[i])
  {
    seq(|s|, i requires 0 <= i < |s| => Lower(s[i]))
  }

  /** How many characters from the front are one of two. */
  function Run(s: string, a: char, b: char): (n: nat)
    ensures n <= |s| && (n > 0 ==> s[0] == a || s[0] == b)
  {
    if s != [] && (s[0] == a || s[0] == b) then 1 + Run(s[1..], a, b) else 0
  }

  function FenceLength(t: string): (n: nat)
    ensures n > 0 ==> t != [] && (t[0] == '`' || t[0] == '~')
  {
    var n := Run(t, '`', '~');
    if n >= 3 && (n == |t| || t[0] == t[n - 1]) then n else 0
  }

  predicate AtxHeading(t: string) {
    var n := Run(t, '#', '#');
    n > 0 && n <= 6 && (n == |t| || t[n] == ' ')
  }

  predicate AllOf(t: string, c: char) {
    forall i :: 0 <= i < |t| ==> t[i] == c
  }

  predicate SeparatorChar(c: char) {
    c == '|' || c == '-' || c == ':' || c == ' ' || c == '\t' || c == '\n' || c == '\U{0C}' || c == '\r'
  }

  predicate TableSeparator(t: string) {
    '|' in t && '-' in t && forall i :: 0 <= i < |t| ==> SeparatorChar(t[i])
  }

  predicate Badge(t: string) {
    StartsWith(t, "![") || StartsWith(t, "[![")
  }

  predicate HtmlComment(t: string) {
    StartsWith(t, "<!--") && EndsWith(t, "-->")
  }

  predicate ListItem(t: string) {
    StartsWith(t, "- ") || StartsWith(t, "* ") || StartsWith(t, "+ ") || (t != [] && '0' <= t[0] <= '9' && Contains(t, ". "))
  }

  function ViewOf(t: string): View {
    View(FenceLength(t), if t == [] then '`' else t[0], t == "---" || t == "+++", t == [], t == PRUNED, Badge(t) || HtmlComment(t),
         AtxHeading(t), |t| >= 2 && (AllOf(t, '=') || AllOf(t, '-')), '|' in t, TableSeparator(t),
         StartsWithAny(ToLower(t), CALLOUTS), StartsWithAny(ToLower(t), METADATA), ListItem(t))
  }

  const READER := Reader(ViewOf, Bare(PRUNED), Bare(PRUNED_ROW), Line("    " + CODE_STUB, CODE_STUB))

  function ReadLine(raw: string): Line {
    Line(TrimEnd(raw), Trim(TrimEnd(raw)))
  }

  // --------------------------------------------------------------------- laws

  lemma SeparatorSensible(t: string)
    requires TableSeparator(t)
    ensures '|' in t && FenceLength(t) == 0 && t != "---" && t != "+++" && t != [] && t != PRUNED
    ensures !Badge(t) && !HtmlComment(t) && !AtxHeading(t) && !AllOf(t, '=') && !AllOf(t, '-')
  {
    assert SeparatorChar(t[0]);
    assert PRUNED[0] == '<' && "!["[0] == '!' && "[!["[0] == '[' && "<!--"[0] == '<';
    var i :| 0 <= i < |t| && t[i] == '|';
  }

  lemma FenceSensible(t: string)
    requires FenceLength(t) > 0 || t == "---" || t == "+++"
    ensures t != [] && t != PRUNED && !Badge(t) && !HtmlComment(t)
  {
    assert t[0] == '`' || t[0] == '~' || t[0] == '-' || t[0] == '+';
    assert PRUNED[0] == '<' && "!["[0] == '!' && "[!["[0] == '[' && "<!--"[0] == '<';
  }

  /** No text of one character repeated is longer than a prefix that ends differently. */
  lemma NoPrefix(t: string, c: char, p: string)
    requires AllOf(t, c) && Lower(c) == c && p != [] && p[|p| - 1] != c
    ensures !StartsWith(ToLower(t), p) && !StartsWith(t, p)
  {
  }

  predicate EndsIn(p: string, c: char) {
    p != [] && p[|p| - 1] == c
  }

  lemma PrefixesEnd()
    ensures forall i :: 0 <= i < |METADATA| ==> EndsIn(METADATA[i], ':')
    ensures forall i :: 0 <= i < |CALLOUTS| ==> EndsIn(CALLOUTS[i], ']')
  {
  }

  lemma NoPrefixes(t: string, c: char, ps: seq<string>, e: char)
    requires AllOf(t, c) && Lower(c) == c && c != e && forall i :: 0 <= i < |ps| ==> EndsIn(ps[i], e)
    ensures !StartsWithAny(ToLower(t), ps)
  {
    forall i | 0 <= i < |ps|
      ensures !StartsWith(ToLower(t), ps[i])
    {
      NoPrefix(t, c, ps[i]);
    }
  }

  lemma UnderlineSensible(t: string, c: char)
    requires |t| >= 2 && AllOf(t, c) && (c == '=' || c == '-')
    ensures FenceLength(t) == 0 && t != PRUNED && !Badge(t) && !HtmlComment(t) && !AtxHeading(t) && '|' !in t
    ensures !StartsWithAny(ToLower(t), CALLOUTS) && !StartsWithAny(ToLower(t), METADATA) && !ListItem(t)
  {
    PrefixesEnd();
    NoPrefixes(t, c, METADATA, ':');
    NoPrefixes(t, c, CALLOUTS, ']');
    assert t[0] == c && t[1] == c;
    assert PRUNED[0] == '<' && "!["[0] == '!' && "[!["[0] == '[' && "<!--"[0] == '<';
    assert "- "[1] == ' ' && "* "[1] == ' ' && "+ "[1] == ' ';
  }

  lemma AllSensible(t: string)
    ensures Sensible(READER, t)
  {
    if |t| >= 2 && AllOf(t, '=') {
      UnderlineSensible(t, '=');
    }
    if |t| >= 2 && AllOf(t, '-') {
      UnderlineSensible(t, '-');
    }
    if TableSeparator(t) {
      SeparatorSensible(t);
    }
    if FenceLength(t) > 0 || t == "---" || t == "+++" {
      FenceSensible(t);
    }
  }

  lemma RowSensible(t: string)
    requires t == PRUNED_ROW
    ensures '|' in t && FenceLength(t) == 0 && t != "---" && t != "+++" && t != [] && t != PRUNED
    ensures !Badge(t) && !HtmlComment(t) && !AtxHeading(t) && !AllOf(t, '=') && !AllOf(t, '-') && !TableSeparator(t)
  {
    assert t[0] == '|' && t[2] == '<';
    assert PRUNED[0] == '<' && "!["[0] == '!' && "[!["[0] == '[' && "<!--"[0] == '<' && "---"[0] == '-' && "+++"[0] == '+';
    assert !SeparatorChar(t[2]);
  }

  lemma SentinelSensible(t: string)
    requires t == PRUNED
    ensures FenceLength(t) == 0 && t != "---" && t != "+++" && t != []
  {
    assert t[0] == '<' && "---"[0] == '-' && "+++"[0] == '+';
  }

  lemma StubSensible(t: string)
    requires t == CODE_STUB
    ensures FenceLength(t) == 0 && t != []
  {
    assert t[0] == '/';
  }

  lemma ReaderLawful()
    ensures Lawful(READER)
  {
    forall t
      ensures Sensible(READER, t)
    {
      AllSensible(t);
    }
    RowSensible(PRUNED_ROW);
    SentinelSensible(PRUNED);
    StubSensible(CODE_STUB);
  }

  // --------------------------------------------------- from text to text again

  ghost predicate Sourced(p: Line -> bool, r: Turn) {
    (forall i :: 0 <= i < |r.out| ==> p(r.out[i])) && (r.state.prev != [] ==> p(Bare(r.state.prev)))
  }

  ghost predicate Marked(m: Reader, p: Line -> bool) {
    p(m.sentinel) && p(m.row) && p(m.stub) && p(BLANK)
  }

  lemma TextFrom(m: Reader, s: State, l: Line, n: bool, p: Line -> bool)
    requires Marked(m, p) && p(l) && p(Bare(l.t)) && (s.prev != [] ==> p(Bare(s.prev)))
    ensures Sourced(p, AtText(m, s, l, n))
  {
    var v := m.view(l.t);
    if v.sentinel || v.comment || v.heading {
      ProseFrom(m, s, l, p);
    } else if (s.prev != [] && v.underline) || v.bar {
      RowFrom(m, s, l, n, p);
    } else {
      PlainFrom(m, s, l, n, p);
    }
  }

  lemma PlainFrom(m: Reader, s: State, l: Line, n: bool, p: Line -> bool)
    requires Marked(m, p) && p(l) && p(Bare(l.t)) && (s.prev != [] ==> p(Bare(s.prev)))
    requires var v := m.view(l.t); !v.sentinel && !v.comment && !v.heading && !(s.prev != [] && v.underline) && !v.bar
    ensures Sourced(p, AtText(m, s, l, n))
  {
    ProseFrom(m, s, l, p);
  }

  lemma RowFrom(m: Reader, s: State, l: Line, n: bool, p: Line -> bool)
    requires Marked(m, p) && p(l) && p(Bare(l.t)) && (s.prev != [] ==> p(Bare(s.prev)))
    ensures Sourced(p, AtTable(m, s, l, n)) && (s.prev != [] ==> Sourced(p, AtUnderline(m, s, l)))
  {
  }

  lemma ProseFrom(m: Reader, s: State, l: Line, p: Line -> bool)
    requires Marked(m, p) && p(l) && p(Bare(l.t)) && (s.prev != [] ==> p(Bare(s.prev)))
    ensures Sourced(p, AtProse(m, s, l)) && Sourced(p, AtSentinel(m, s))
  {
  }

  /** What every kept line is made of. */
  lemma StepFrom(m: Reader, s: State, l: Line, n: bool, p: Line -> bool)
    requires Marked(m, p) && p(l) && p(Bare(l.t)) && (s.prev != [] ==> p(Bare(s.prev)))
    ensures Sourced(p, Step(m, s, l, n))
  {
    if IsText(m, s, l) {
      TextStep(m, s, l, n);
      TextFrom(m, Reading(s), l, n, p);
    } else {
      OtherFrom(m, s, l, n, p);
    }
  }

  lemma OtherFrom(m: Reader, s: State, l: Line, n: bool, p: Line -> bool)
    requires Marked(m, p) && p(l) && p(Bare(l.t)) && (s.prev != [] ==> p(Bare(s.prev))) && !IsText(m, s, l)
    ensures Sourced(p, Step(m, s, l, n))
  {
  }

  lemma {:induction false} KeptFrom(m: Reader, s: State, ls: seq<Line>, p: Line -> bool)
    requires Marked(m, p) && (s.prev != [] ==> p(Bare(s.prev)))
    requires forall i :: 0 <= i < |ls| ==> p(ls[i]) && p(Bare(ls[i].t))
    ensures forall i :: 0 <= i < |Kept(m, s, ls)| ==> p(Kept(m, s, ls)[i])
    decreases |ls|
  {
    if ls != [] {
      StepFrom(m, s, ls[0], NextSeparator(m, ls[1..]), p);
      KeptFrom(m, First(m, s, ls).state, ls[1..], p);
    }
  }

  /** A line as it is read: its text ends in no white space and holds no line feed or byte order
      mark, and the trimmed text is what is left of it behind its indentation. */
  ghost predicate Stable(l: Line) {
    '\n' !in l.te && BOM !in l.te && (l.te == [] || !Whitespace(l.te[|l.te| - 1])) && Indented(l.te, l.t) && (l.t == [] || !Whitespace(l.t[0]))
  }

  predicate AllWhite(w: string) {
    forall i :: 0 <= i < |w| ==> Whitespace(w[i])
  }

  ghost predicate Indented(te: string, t: string) {
    exists w: string :: te == w + t && AllWhite(w)
  }

  lemma IndentedBy(w: string, te: string, t: string)
    requires te == w + t && AllWhite(w)
    ensures Indented(te, t)
  {
  }

  lemma TrimEndFixed(s: string)
    requires s == [] || !Whitespace(s[|s| - 1])
    ensures TrimEnd(s) == s
  {
  }

  lemma TrimFixed(s: string)
    requires s == [] || (!Whitespace(s[0]) && !Whitespace(s[|s| - 1]))
    ensures TrimEnd(s) == s && Trim(s) == s
  {
  }

  /** It is read back from its text as it is. */
  lemma StableRead(l: Line)
    requires Stable(l)
    ensures ReadLine(l.te) == l
  {
    var w: string :| l.te == w + l.t && AllWhite(w);
    TrimEndFixed(l.te);
    if l.t == [] {
      assert l.te == w;
    } else {
      TrimStartIs(w, l.t);
    }
  }

  lemma TrimIndented(te: string)
    ensures Indented(te, TrimStart(te))
  {
    var t := TrimStart(te);
    TrimmedBlank(te);
    IndentedBy(te[..|te| - |t|], te, t);
  }

  lemma ReadStable(raw: string)
    requires '\n' !in raw && NoMark(raw)
    ensures Stable(ReadLine(raw)) && Stable(Bare(ReadLine(raw).t))
  {
    var te := TrimEnd(raw);
    TrimEndFixed(te);
    PartOf(raw, te);
    TrimIndented(te);
    StableBare(ReadLine(raw));
  }

  /** A stretch of plain text is plain. */
  lemma Stretch(s: string, t: string, i: nat)
    requires '\n' !in s && NoMark(s) && i + |t| <= |s| && t == s[i..i + |t|]
    ensures '\n' !in t && NoMark(t)
  {
    forall j | 0 <= j < |t|
      ensures t[j] != '\n' && t[j] != BOM
    {
      assert t[j] == s[i + j];
    }
  }

  lemma PartOf(raw: string, te: string)
    requires '\n' !in raw && NoMark(raw) && te <= raw
    ensures '\n' !in te && NoMark(te)
  {
    Stretch(raw, te, 0);
  }

  lemma BareStable(t: string)
    requires '\n' !in t && NoMark(t) && (t == [] || (!Whitespace(t[0]) && !Whitespace(t[|t| - 1])))
    ensures Stable(Bare(t))
  {
    IndentedBy([], t, t);
  }

  /** No byte order mark in the line. */
  ghost predicate NoMark(raw: string) {
    BOM !in raw
  }

  predicate Tight(t: string) {
    |t| > 0 && !Whitespace(t[0]) && !Whitespace(t[|t| - 1]) && forall i :: 0 <= i < |t| ==> t[i] != '\n' && t[i] != BOM
  }

  lemma TightStable(t: string)
    requires Tight(t)
    ensures Stable(Bare(t))
  {
    BareStable(t);
  }

  lemma IndentedStable(w: string, t: string, o: string)
    requires (forall i :: 0 <= i < |w| ==> w[i] == ' ') && Tight(t) && o == w + t
    ensures Stable(Line(o, t))
  {
    IndentedBy(w, o, t);
    assert o[|o| - 1] == t[|t| - 1];
    forall i | 0 <= i < |o|
      ensures o[i] != '\n' && o[i] != BOM
    {
      assert o[i] == if i < |w| then w[i] else t[i - |w|];
    }
  }

  lemma MarksTight()
    ensures Tight(PRUNED) && Tight(PRUNED_ROW) && Tight(CODE_STUB)
  {
  }

  lemma MarksStable()
    ensures Marked(READER, Stable)
  {
    MarksTight();
    TightStable(PRUNED);
    TightStable(PRUNED_ROW);
    IndentedStable("    ", CODE_STUB, "    " + CODE_STUB);
    TrimFixed([]);
  }

  /** A reader with the marker lines of the real one. */
  ghost predicate OwnMarks(m: Reader) {
    m.sentinel == READER.sentinel && m.row == READER.row && m.stub == READER.stub
  }

  lemma OwnMarksStable(m: Reader)
    requires OwnMarks(m)
    ensures Marked(m, Stable)
  {
    MarksStable();
  }

  // ----------------------------------------------------------------- documents

  function ReadAll(raws: seq<string>): (ls: seq<Line>)
    ensures |ls| == |raws| && forall i :: 0 <= i < |raws| ==> ls[i] == ReadLine(raws[i])
  {
    seq(|raws|, i requires 0 <= i < |raws| => ReadLine(raws[i]))
  }

  function Texts(ls: seq<Line>): (raws: seq<string>)
    ensures |raws| == |ls| && forall i :: 0 <= i < |ls| ==> raws[i] == ls[i].te
  {
    seq(|ls|, i requires 0 <= i < |ls| => ls[i].te)
  }

  function StripBom(source: string): string {
    if source != [] && source[0] == BOM then source[1..] else source
  }

  /** Joined with line feeds, one more at the end unless there is nothing. */
  function Render(ls: seq<Line>): string {
    var text := Join(Texts(ls));
    if text == [] then text else text + "\n"
  }

  function Document(source: string): seq<Line> {
    ReadAll(Lines(StripBom(source)))
  }

  function PruneMarkdown(source: string): string {
    Render(PruneLines(READER, Document(source)))
  }

  method Prune(source: string) returns (skeleton: string)
    ensures skeleton == PruneMarkdown(source)
  {
    var out := PruneLoop(READER, ReadAll(Lines(StripBom(source))));
    var text := Join(Texts(out));
    skeleton := if text == [] then text else text + "\n";
  }

  /** Every text followed by a line feed. */
  function Terminate(raws: seq<string>): string {
    if raws == [] then [] else raws[0] + "\n" + Terminate(raws[1..])
  }

  lemma {:induction false} JoinTerminate(raws: seq<string>)
    requires raws != []
    ensures Join(raws) + "\n" == Terminate(raws)
  {
    if |raws| == 1 {
      assert Terminate(raws[1..]) == [];
    } else {
      JoinTerminate(raws[1..]);
      assert raws[0] + "\n" + Join(raws[1..]) + "\n" == raws[0] + "\n" + (Join(raws[1..]) + "\n");
    }
  }

  lemma {:induction false} FeedIs(s: string, k: nat)
    requires k < |s| && s[k] == '\n' && '\n' !in s[..k]
    ensures LineFeed(s) == k
  {
    if k > 0 {
      assert s[..k][0] == s[0] && s[1..][..k - 1] == s[..k][1..];
      FeedIs(s[1..], k - 1);
    }
  }

  lemma FeedAfter(a: string, rest: string)
    requires '\n' !in a && (a == [] || a[|a| - 1] != '\r')
    ensures Lines(a + "\n" + rest) == [a] + Lines(rest)
  {
    var s := a + "\n" + rest;
    assert s[..|a|] == a && s[|a| + 1..] == rest;
    FeedIs(s, |a|);
    LinesUnfold(s);
  }

  lemma {:induction false} LinesTerminate(raws: seq<string>)
    requires forall i :: 0 <= i < |raws| ==> '\n' !in raws[i] && (raws[i] == [] || raws[i][|raws[i]| - 1] != '\r')
    ensures Lines(Terminate(raws)) == raws
  {
    if raws != [] {
      LinesTerminate(raws[1..]);
      FeedAfter(raws[0], Terminate(raws[1..]));
    }
  }

  ghost predicate AllStable(ls: seq<Line>) {
    forall i :: 0 <= i < |ls| ==> Stable(ls[i])
  }

  lemma StableEnd(l: Line)
    requires Stable(l)
    ensures '\n' !in l.te && (l.te == [] || l.te[|l.te| - 1] != '\r')
  {
  }

  lemma TextsRead(ls: seq<Line>)
    requires AllStable(ls)
    ensures ReadAll(Texts(ls)) == ls
  {
    forall i | 0 <= i < |ls|
      ensures ReadLine(ls[i].te) == ls[i]
    {
      StableRead(ls[i]);
    }
  }

  /** Texts written line by line are read back as they were. */
  lemma TerminateRead(ls: seq<Line>)
    requires AllStable(ls)
    ensures ReadAll(Lines(Terminate(Texts(ls)))) == ls
  {
    var raws := Texts(ls);
    forall i | 0 <= i < |raws|
      ensures '\n' !in raws[i] && (raws[i] == [] || raws[i][|raws[i]| - 1] != '\r')
    {
      StableEnd(ls[i]);
    }
    LinesTerminate(raws);
    TextsRead(ls);
  }

  lemma RenderFilled(ls: seq<Line>, raws: seq<string>)
    requires raws == Texts(ls) && raws != [] && raws[|raws| - 1] != []
    ensures Render(ls) == Terminate(raws)
  {
    JoinFilled(raws);
    JoinTerminate(raws);
  }

  /** A rendered document that does not end in a blank line is read back as it was. */
  lemma RenderRead(ls: seq<Line>)
    requires AllStable(ls) && (ls == [] || ls[|ls| - 1].t != [])
    ensures Document(Render(ls)) == ls
  {
    if ls == [] {
      assert Texts(ls) == [] && Lines([]) == [];
    } else {
      LastFilled(ls);
      RenderFilled(ls, Texts(ls));
      NoBomFirst(ls, Texts(ls));
      TerminateRead(ls);
    }
  }

  lemma LastFilled(ls: seq<Line>)
    requires AllStable(ls) && ls != [] && ls[|ls| - 1].t != []
    ensures Texts(ls)[|ls| - 1] != []
  {
    assert Stable(ls[|ls| - 1]);
  }

  lemma {:induction false} JoinFilled(raws: seq<string>)
    requires raws != [] && raws[|raws| - 1] != []
    ensures Join(raws) != []
  {
    if |raws| > 1 {
      JoinFilled(raws[1..]);
    }
  }

  lemma FirstOfText(raw: string, rest: string)
    requires BOM !in raw
    ensures StripBom(raw + "\n" + rest) == raw + "\n" + rest
  {
    var s := raw + "\n" + rest;
    assert s[0] == if raw == [] then '\n' else raw[0];
  }

  lemma NoBomFirst(ls: seq<Line>, raws: seq<string>)
    requires AllStable(ls) && ls != [] && raws == Texts(ls)
    ensures StripBom(Terminate(raws)) == Terminate(raws)
  {
    assert Stable(ls[0]);
    FirstOfText(raws[0], Terminate(raws[1..]));
  }

  lemma {:induction false} LinesPlain(s: string)
    requires BOM !in s
    ensures forall i :: 0 <= i < |Lines(s)| ==> '\n' !in Lines(s)[i] && NoMark(Lines(s)[i])
    decreases |s|
  {
    var k := LineFeed(s);
    if s != [] && k == |s| {
      assert s[..k] == s;
    } else if s != [] {
      LinesUnfold(s);
      LinesPlain(s[k + 1..]);
      PartOf(s[..k], StripReturn(s[..k]));
    }
  }

  lemma SuffixPlain(w: string, t: string)
    requires '\n' !in w + t && NoMark(w + t) && (w + t == [] || !Whitespace((w + t)[|w + t| - 1]))
    ensures '\n' !in t && NoMark(t) && (t == [] || !Whitespace(t[|t| - 1]))
  {
    assert (w + t)[|w|..] == t;
    Stretch(w + t, t, |w|);
    assert t != [] ==> t[|t| - 1] == (w + t)[|w + t| - 1];
  }

  lemma StableBare(l: Line)
    requires Stable(l)
    ensures Stable(Bare(l.t))
  {
    var w: string :| l.te == w + l.t && AllWhite(w);
    SuffixPlain(w, l.t);
    BareStable(l.t);
  }

  lemma PrunedFrom(m: Reader, ls: seq<Line>, p: Line -> bool)
    requires Marked(m, p) && forall i :: 0 <= i < |ls| ==> p(ls[i]) && p(Bare(ls[i].t))
    ensures forall i :: 0 <= i < |PruneLines(m, ls)| ==> p(PruneLines(m, ls)[i])
  {
    KeptFrom(m, START, ls, p);
  }

  /** A rendered skeleton is read back, and rendering tells two skeletons apart. */
  ghost predicate Renders(m: Reader, source: string) {
    var p := PruneLines(m, Document(source));
    var q := PruneLines(m, p);
    Document(Render(p)) == p && (Render(q) == Render(p) <==> q == p)
  }

  /** Rendering the skeleton of a document loses nothing. */
  lemma RenderIff(m: Reader, source: string)
    requires OwnMarks(m) && BOM !in StripBom(source)
    ensures Renders(m, source)
  {
    var raws, ls := Lines(StripBom(source)), Document(source);
    LinesPlain(StripBom(source));
    forall i | 0 <= i < |ls|
      ensures Stable(ls[i]) && Stable(Bare(ls[i].t))
    {
      ReadStable(raws[i]);
    }
    OwnMarksStable(m);
    PrunedFrom(m, ls, Stable);
    var p := PruneLines(m, ls);
    forall i | 0 <= i < |p|
      ensures Stable(Bare(p[i].t))
    {
      StableBare(p[i]);
    }
    PrunedFrom(m, p, Stable);
    RenderRead(p);
    RenderRead(PruneLines(m, p));
  }

  /** A document without a byte order mark inside it, badges, and comments but the sentinel. */
  ghost predicate ProperDocument(source: string) {
    BOM !in StripBom(source) && Uncommented(READER, START, Document(source))
  }

  /** On proper documents, pruning again changes nothing exactly when the first line pushed again
      out of turn, if there is one, is a fence delimiter under which the lines are given back. */
  lemma PruneMarkdownIdempotentIff(source: string)
    requires ProperDocument(source)
    ensures PruneMarkdown(PruneMarkdown(source)) == PruneMarkdown(source) <==>
      Fixed(READER, START, VerdictOf(READER, START, false, Document(source)))
  {
    ReaderLawful();
    RenderIff(READER, source);
    IdempotentIff(READER, Document(source));
  }

  /** With badges and comments too, a skeleton is a fixed point exactly when every turn of a pass
      over it keeps its line or brings back the one before. */
  lemma AnyDocumentIdempotentIff(source: string)
    requires BOM !in StripBom(source)
    ensures PruneMarkdown(PruneMarkdown(source)) == PruneMarkdown(source) <==>
      Verbatim(READER, START, PruneLines(READER, Document(source)))
  {
    ReaderLawful();
    RenderIff(READER, source);
    AnyIdempotentIff(READER, Document(source));
  }
}
