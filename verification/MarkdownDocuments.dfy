/** Whole documents, at the real classifiers: one for every way a second pass changes a skeleton,
    and one that it gives back although a fence was pushed again. */
module MarkdownDocuments {
  import opened Text
  import opened Markdown
  import opened MarkdownPasses
  import opened MarkdownVerbatim
  import opened MarkdownVerdict
  import opened MarkdownText
  import opened MarkdownWitness

  /** Pruning the skeleton again gives another text. */
  ghost predicate Changed(d: string) {
    PruneMarkdown(PruneMarkdown(d)) != PruneMarkdown(d)
  }

  // ------------------------------------------------------- documents by lines

  /** Lines that are read as they are written. */
  predicate Plain(raw: string) {
    raw == [] || Tight(raw)
  }

  function Bares(raws: seq<string>): (ls: seq<Line>)
    ensures |ls| == |raws| && forall i :: 0 <= i < |raws| ==> ls[i] == Bare(raws[i])
  {
    seq(|raws|, i requires 0 <= i < |raws| => Bare(raws[i]))
  }

  lemma {:induction false} NoMarkIn(raws: seq<string>)
    requires forall i :: 0 <= i < |raws| ==> Plain(raws[i])
    ensures BOM !in Terminate(raws)
  {
    if raws != [] {
      assert Plain(raws[0]);
      NoMarkIn(raws[1..]);
    }
  }

  lemma PlainRead(raw: string)
    requires Plain(raw)
    ensures ReadLine(raw) == Bare(raw) && '\n' !in raw && (raw == [] || raw[|raw| - 1] != '\r')
  {
    TrimFixed(raw);
  }

  lemma PlainLines(raws: seq<string>)
    requires forall i :: 0 <= i < |raws| ==> Plain(raws[i])
    ensures Lines(Terminate(raws)) == raws
  {
    forall i | 0 <= i < |raws|
      ensures '\n' !in raws[i] && (raws[i] == [] || raws[i][|raws[i]| - 1] != '\r')
    {
      PlainRead(raws[i]);
    }
    LinesTerminate(raws);
  }

  lemma PlainBares(raws: seq<string>)
    requires forall i :: 0 <= i < |raws| ==> Plain(raws[i])
    ensures ReadAll(raws) == Bares(raws)
  {
    forall i | 0 <= i < |raws|
      ensures ReadLine(raws[i]) == Bare(raws[i])
    {
      PlainRead(raws[i]);
    }
  }

  lemma DocumentOf(raws: seq<string>)
    requires forall i :: 0 <= i < |raws| ==> Plain(raws[i])
    ensures Document(Terminate(raws)) == Bares(raws) && BOM !in StripBom(Terminate(raws))
  {
    NoMarkIn(raws);
    PlainLines(raws);
    PlainBares(raws);
    var d := Terminate(raws);
    assert StripBom(d) == d;
  }

  // ------------------------------------------------------ under any classifiers

  ghost predicate ChangedBy(m: Reader, d: string) {
    var once := Render(PruneLines(m, Document(d)));
    Render(PruneLines(m, Document(once))) != once
  }

  ghost predicate ProperBy(m: Reader, d: string) {
    BOM !in StripBom(d) && Uncommented(m, START, Document(d))
  }

  /** Rendering loses nothing of any skeleton. */
  ghost predicate Faithful(m: Reader) {
    forall d :: BOM !in StripBom(d) ==> Renders(m, d)
  }

  lemma ReaderFaithful()
    ensures Faithful(READER)
  {
    forall d | BOM !in StripBom(d)
      ensures Renders(READER, d)
    {
      RenderIff(READER, d);
    }
  }

  /** The second pass over a document changes it exactly when it changes its lines. */
  lemma ByLines(m: Reader, raws: seq<string>, ls: seq<Line>)
    requires Faithful(m) && ls == Bares(raws) && forall i :: 0 <= i < |raws| ==> Plain(raws[i])
    ensures ChangedBy(m, Terminate(raws)) <==> PruneLines(m, PruneLines(m, ls)) != PruneLines(m, ls)
  {
    DocumentOf(raws);
    assert Renders(m, Terminate(raws));
  }

  /** A line that is neither a badge nor a comment, but for the sentinel. */
  ghost predicate WordOf(m: Reader, raw: string) {
    Plain(raw) && (m.view(raw).sentinel || !m.view(raw).comment)
  }

  ghost function Word(m: Reader): string -> bool {
    raw => WordOf(m, raw)
  }

  ghost predicate All(p: string -> bool, raws: seq<string>) {
    forall i :: 0 <= i < |raws| ==> p(raws[i])
  }

  lemma AllCons(p: string -> bool, x: string, rest: seq<string>)
    requires p(x) && All(p, rest)
    ensures All(p, [x] + rest)
  {
  }

  lemma WordsPlain(m: Reader, raws: seq<string>)
    requires All(Word(m), raws)
    ensures forall i :: 0 <= i < |raws| ==> Plain(raws[i]) && (m.view(raws[i]).sentinel || !m.view(raws[i]).comment)
  {
    forall i | 0 <= i < |raws|
      ensures WordOf(m, raws[i])
    {
      assert Word(m)(raws[i]);
    }
  }

  /** The verdict on its lines says whether a document changes. */
  lemma ByVerdict(m: Reader, raws: seq<string>, ls: seq<Line>)
    requires Lawful(m) && Faithful(m) && ls == Bares(raws) && All(Word(m), raws)
    ensures ProperBy(m, Terminate(raws)) && (ChangedBy(m, Terminate(raws)) <==> !Fixed(m, START, VerdictOf(m, START, false, ls)))
  {
    WordsPlain(m, raws);
    DocumentOf(raws);
    PlainUncommented(m, START, ls);
    IdempotentIff(m, ls);
    ByLines(m, raws, ls);
  }

  // ----------------------------------------------------------------- the words

  ghost predicate Prose(m: Reader, t: string) {
    ProseText(m, t) && WordOf(m, t)
  }

  ghost predicate Row(m: Reader, t: string) {
    RowText(m, t) && WordOf(m, t)
  }

  ghost predicate Separator(m: Reader, t: string) {
    m.view(t).separator && WordOf(m, t)
  }

  ghost predicate Underline(m: Reader, t: string) {
    m.view(t).underline && WordOf(m, t)
  }

  ghost predicate Fence(m: Reader, t: string) {
    m.view(t).fence > 0 && !m.view(t).metadata && WordOf(m, t)
  }

  lemma Longer()
    ensures forall i :: 0 <= i < |METADATA| ==> |METADATA[i]| > 1
    ensures forall i :: 0 <= i < |CALLOUTS| ==> |CALLOUTS[i]| > 1
  {
  }

  /** One letter is prose. */
  lemma Letter(t: string)
    requires |t| == 1 && 'a' <= t[0] <= 'z'
    ensures Prose(READER, t)
  {
    Longer();
  }

  lemma BadgeWord()
    ensures BadgeText(READER, "![b]") && Plain("![b]")
  {
  }

  lemma RowOf(t: string)
    requires Tight(t) && |t| > 2 && t[0] == '|' && t[2] == 'r'
    ensures Row(READER, t)
  {
    assert !SeparatorChar(t[2]);
  }

  lemma RowWord()
    ensures Row(READER, "| r |")
  {
    RowOf("| r |");
  }

  lemma SeparatorOf(t: string)
    requires Tight(t) && TableSeparator(t)
    ensures Separator(READER, t)
  {
    SeparatorSensible(t);
  }

  lemma SeparatorWord()
    ensures Separator(READER, "|---|")
  {
    var t := "|---|";
    assert t[0] == '|' && t[1] == '-';
    SeparatorOf(t);
  }

  lemma UnderlineOf(t: string, c: char)
    requires |t| >= 2 && AllOf(t, c) && (c == '=' || c == '-')
    ensures Underline(READER, t) && (t[..2] == "==" ==> UnderlineText(READER, t))
  {
    UnderlineSensible(t, c);
  }

  lemma UnderlineWord()
    ensures UnderlineText(READER, "===") && Underline(READER, "===") && Underline(READER, "---")
  {
    UnderlineOf("===", '=');
    UnderlineOf("---", '-');
  }

  lemma FenceWord()
    ensures Fence(READER, "```")
  {
    var t := "```";
    assert Run(t[3..], '`', '~') == 0;
    assert Run(t[2..], '`', '~') == 1;
    assert Run(t[1..], '`', '~') == 2;
    PrefixesEnd();
    NoPrefixes(t, '`', METADATA, ':');
  }

  // ------------------------------------------------- a badge between two blanks

  lemma BadgeLines(m: Reader, ls: seq<Line>, p: string, badge: string, q: string)
    requires Lawful(m) && ProseText(m, p) && ProseText(m, q) && BadgeText(m, badge) && ls == Bares([p, [], badge, [], q])
    ensures PruneLines(m, PruneLines(m, ls)) != PruneLines(m, ls)
  {
    assert ls == [Bare(p), BLANK, Bare(badge), BLANK, Bare(q)];
    BadgeLeavesTwoBlanks(m, p, badge, q);
  }

  lemma BadgeFamily(m: Reader, raws: seq<string>, ls: seq<Line>, p: string, badge: string, q: string)
    requires Lawful(m) && Faithful(m) && ls == Bares(raws) && forall i :: 0 <= i < |raws| ==> Plain(raws[i])
    requires ProseText(m, p) && ProseText(m, q) && BadgeText(m, badge) && raws == [p, [], badge, [], q]
    ensures ChangedBy(m, Terminate(raws))
  {
    BadgeLines(m, ls, p, badge, q);
    ByLines(m, raws, ls);
  }

  lemma BadgePlain(raws: seq<string>, p: string, badge: string, q: string)
    requires raws == [p, [], badge, [], q] && Plain(p) && Plain(badge) && Plain(q)
    ensures forall i :: 0 <= i < |raws| ==> Plain(raws[i])
  {
  }

  lemma BadgeWords(m: Reader, raws: seq<string>, p: string, badge: string, q: string)
    requires Lawful(m) && Faithful(m) && raws == [p, [], badge, [], q] && Plain(p) && Plain(badge) && Plain(q)
    requires ProseText(m, p) && ProseText(m, q) && BadgeText(m, badge)
    ensures ChangedBy(m, Terminate(raws))
  {
    BadgePlain(raws, p, badge, q);
    BadgeFamily(m, raws, Bares(raws), p, badge, q);
  }

  lemma BadgeRead(p: string, badge: string, q: string)
    requires Prose(READER, p) && Prose(READER, q) && BadgeText(READER, badge) && Plain(badge)
    ensures Changed(Terminate([p, [], badge, [], q]))
  {
    ReaderLawful();
    ReaderFaithful();
    BadgeWords(READER, [p, [], badge, [], q], p, badge, q);
  }

  /** Two blank lines stay where the badge was, and only the second pass makes them one. */
  lemma BadgeDocument()
    ensures Changed(Terminate(["p", "", "![b]", "", "q"]))
  {
    Letter("p");
    Letter("q");
    BadgeWord();
    BadgeRead("p", "![b]", "q");
  }

  // ------------------------------------------------------------------- a table

  lemma TableVerdict(m: Reader, ls: seq<Line>, a: string, b: string, row: string, p: string, sep: string, q: string, u: string)
    requires Lawful(m) && ls == Bares([a, b, row, p, sep, q, u])
    requires ProseText(m, a) && ProseText(m, b) && RowText(m, row) && ProseText(m, p)
    requires m.view(sep).separator && ProseText(m, q) && m.view(u).underline
    ensures VerdictOf(m, START, false, ls) == Changes
  {
    var rest := [Bare(row)] + ([Bare(p)] + ([Bare(sep)] + ([Bare(q)] + [Bare(u)])));
    assert ls == [Bare(a)] + ([Bare(b)] + rest);
    assert Sensible(m, sep) && Sensible(m, b) && Sensible(m, q);
    TwoProse(m, a, b, rest);
    TableDiverges(m, AfterTwo(b), row, p, sep, q, u);
  }

  lemma TableFamily(m: Reader, raws: seq<string>, ls: seq<Line>, a: string, b: string, row: string, p: string, sep: string, q: string, u: string)
    requires Lawful(m) && Faithful(m) && ls == Bares(raws) && raws == [a, b, row, p, sep, q, u] && All(Word(m), raws)
    requires ProseText(m, a) && ProseText(m, b) && RowText(m, row) && ProseText(m, p)
    requires m.view(sep).separator && ProseText(m, q) && m.view(u).underline
    ensures ProperBy(m, Terminate(raws)) && ChangedBy(m, Terminate(raws))
  {
    TableVerdict(m, ls, a, b, row, p, sep, q, u);
    ByVerdict(m, raws, ls);
  }

  lemma TableAll(m: Reader, raws: seq<string>, a: string, b: string, row: string, p: string, sep: string, q: string, u: string)
    requires raws == [a, b, row, p, sep, q, u]
    requires WordOf(m, a) && WordOf(m, b) && WordOf(m, row) && WordOf(m, p) && WordOf(m, sep) && WordOf(m, q) && WordOf(m, u)
    ensures All(Word(m), raws)
  {
  }

  lemma TableRead(a: string, b: string, row: string, p: string, sep: string, q: string, u: string)
    requires Prose(READER, a) && Prose(READER, b) && Row(READER, row) && Prose(READER, p)
    requires Separator(READER, sep) && Prose(READER, q) && Underline(READER, u)
    ensures var d := Terminate([a, b, row, p, sep, q, u]); ProperDocument(d) && Changed(d)
  {
    ReaderLawful();
    ReaderFaithful();
    var raws := [a, b, row, p, sep, q, u];
    TableAll(READER, raws, a, b, row, p, sep, q, u);
    TableFamily(READER, raws, Bares(raws), a, b, row, p, sep, q, u);
  }

  /** A pruned line is underlined below a marker row that stands on a separator. */
  lemma TableDocument()
    ensures var d := Terminate(["a", "b", "| r |", "p", "|---|", "q", "==="]); ProperDocument(d) && Changed(d)
  {
    RowWord();
    SeparatorWord();
    UnderlineWord();
    Letter("a");
    Letter("b");
    Letter("p");
    Letter("q");
    TableRead("a", "b", "| r |", "p", "|---|", "q", "===");
  }

  // --------------------------------------------------- an underline pushed again

  lemma UnderlineLines(m: Reader, ls: seq<Line>, u: string)
    requires Lawful(m) && UnderlineText(m, u) && ls == Bares([u, m.sentinel.t, u])
    ensures PruneLines(m, PruneLines(m, ls)) != PruneLines(m, ls)
  {
    assert Sensible(m, u);
    assert ls == [Bare(u)] + ([m.sentinel] + [Bare(u)]);
    SentinelDoublesUnderline(m, u);
  }

  lemma WordsChange(m: Reader, raws: seq<string>, ls: seq<Line>)
    requires Faithful(m) && ls == Bares(raws) && All(Word(m), raws)
    requires PruneLines(m, PruneLines(m, ls)) != PruneLines(m, ls)
    ensures ProperBy(m, Terminate(raws)) && ChangedBy(m, Terminate(raws))
  {
    WordsPlain(m, raws);
    WordsProper(m, raws, ls);
    ByLines(m, raws, ls);
  }

  lemma WordsProper(m: Reader, raws: seq<string>, ls: seq<Line>)
    requires ls == Bares(raws) && All(Word(m), raws)
    ensures ProperBy(m, Terminate(raws))
  {
    WordsPlain(m, raws);
    DocumentOf(raws);
    PlainUncommented(m, START, ls);
  }

  lemma UnderlineFamily(m: Reader, raws: seq<string>, ls: seq<Line>, u: string)
    requires Lawful(m) && Faithful(m) && ls == Bares(raws) && raws == [u, m.sentinel.t, u] && All(Word(m), raws) && UnderlineText(m, u)
    ensures ProperBy(m, Terminate(raws)) && ChangedBy(m, Terminate(raws))
  {
    UnderlineLines(m, ls, u);
    WordsChange(m, raws, ls);
  }

  lemma UnderlineAll(m: Reader, raws: seq<string>, u: string)
    requires Lawful(m) && raws == [u, m.sentinel.t, u] && WordOf(m, u) && WordOf(m, m.sentinel.t)
    ensures All(Word(m), raws)
  {
  }

  lemma UnderlineWords(m: Reader, raws: seq<string>, u: string)
    requires Lawful(m) && Faithful(m) && raws == [u, m.sentinel.t, u] && UnderlineText(m, u) && Plain(u) && Plain(m.sentinel.t)
    ensures ProperBy(m, Terminate(raws)) && ChangedBy(m, Terminate(raws))
  {
    UnderlineAll(m, raws, u);
    UnderlineFamily(m, raws, Bares(raws), u);
  }

  lemma UnderlineRead(u: string)
    requires UnderlineText(READER, u) && Plain(u)
    ensures var d := Terminate([u, PRUNED, u]); ProperDocument(d) && Changed(d)
  {
    ReaderLawful();
    ReaderFaithful();
    MarksTight();
    var raws := [u, PRUNED, u];
    UnderlineWords(READER, raws, u);
  }

  /** The underline above the sentinel is pushed again, and again in every pass. */
  lemma UnderlineDocument()
    ensures var d := Terminate(["===", PRUNED, "==="]); ProperDocument(d) && Changed(d)
  {
    UnderlineWord();
    UnderlineRead("===");
  }

  // ------------------------------------------------------- a fence pushed again

  /** A line of prose, a code block, the sentinel and an underline, and more below. */
  function FenceRaws(sentinel: string, p: string, q: string, c: string, u: string, rest: seq<string>): seq<string> {
    [p] + ([q] + ([c] + ([q] + ([sentinel] + ([u] + rest)))))
  }

  ghost predicate FenceWords(m: Reader, p: string, q: string, c: string, u: string, rest: seq<string>) {
    Plain(m.sentinel.t) && Prose(m, p) && Fence(m, q) && Prose(m, c) && Underline(m, u) && All(Word(m), rest)
  }

  lemma BaresCons(x: string, rest: seq<string>)
    ensures Bares([x] + rest) == [Bare(x)] + Bares(rest)
  {
  }

  lemma FenceBares(m: Reader, p: string, q: string, c: string, u: string, rest: seq<string>)
    requires Lawful(m)
    ensures Bares(FenceRaws(m.sentinel.t, p, q, c, u, rest)) ==
      [Bare(p)] + ([Bare(q)] + ([Bare(c)] + ([Bare(q)] + ([m.sentinel] + ([Bare(u)] + Bares(rest))))))
  {
    var e := [u] + rest;
    var d := [m.sentinel.t] + e;
    BaresCons(u, rest);
    BaresCons(m.sentinel.t, e);
    BaresCons(q, d);
    BaresCons(c, [q] + d);
    BaresCons(q, [c] + ([q] + d));
    BaresCons(p, [q] + ([c] + ([q] + d)));
  }

  /** What is under the fence once it was pushed again. */
  lemma FenceVerdictOf(m: Reader, p: string, q: string, c: string, u: string, rest: seq<string>)
    requires Lawful(m) && FenceWords(m, p, q, c, u, rest)
    ensures VerdictOf(m, START, false, Bares(FenceRaws(m.sentinel.t, p, q, c, u, rest))) ==
      Reopens(Above(m, p, q, c), q, [Bare(u)] + Kept(m, Below(m, q, u), Bares(rest)))
  {
    FenceBares(m, p, q, c, u, rest);
    FenceAgain(m, p, q, c, u, Bares(rest));
  }

  lemma FenceAll(m: Reader, p: string, q: string, c: string, u: string, rest: seq<string>)
    requires Lawful(m) && FenceWords(m, p, q, c, u, rest)
    ensures All(Word(m), FenceRaws(m.sentinel.t, p, q, c, u, rest))
  {
    var e := [u] + rest;
    var d := [m.sentinel.t] + e;
    AllCons(Word(m), u, rest);
    AllCons(Word(m), m.sentinel.t, e);
    AllCons(Word(m), q, d);
    AllCons(Word(m), c, [q] + d);
    AllCons(Word(m), q, [c] + ([q] + d));
    AllCons(Word(m), p, [q] + ([c] + ([q] + d)));
  }

  /** The verdict decides. */
  lemma FenceFamily(m: Reader, p: string, q: string, c: string, u: string, rest: seq<string>, below: seq<Line>)
    requires Lawful(m) && Faithful(m) && FenceWords(m, p, q, c, u, rest)
    requires below == [Bare(u)] + Kept(m, Below(m, q, u), Bares(rest))
    ensures var d := Terminate(FenceRaws(m.sentinel.t, p, q, c, u, rest));
      ProperBy(m, d) && (ChangedBy(m, d) <==> !Fixed(m, START, Reopens(Above(m, p, q, c), q, below)))
  {
    FenceAll(m, p, q, c, u, rest);
    FenceVerdictOf(m, p, q, c, u, rest);
    var raws := FenceRaws(m.sentinel.t, p, q, c, u, rest);
    ByVerdict(m, raws, Bares(raws));
  }

  /** With nothing under it but an underline, the fence stays open over that. */
  lemma FenceAlone(m: Reader, v: Verdict, q: string, u: string)
    requires Lawful(m) && m.view(u).underline && v.Reopens? && v.fence == q && v.below == [Bare(u)]
    ensures Fixed(m, START, v)
  {
    assert Sensible(m, u);
    assert !ClosesFence(m, q, v.below[0]);
    assert |DropBlanks(v.below)| <= 1;
  }

  /** Over three lines it does not give them back. */
  lemma FenceBusy(m: Reader, v: Verdict, q: string, u: string, a: string, b: string)
    requires Lawful(m) && m.view(u).underline && ProseText(m, a) && ProseText(m, b)
    requires v.Reopens? && v.fence == q && v.below == [Bare(u), Bare(a), Bare(b)]
    ensures !Fixed(m, START, v)
  {
    assert Sensible(m, u) && Sensible(m, b);
    assert !ClosesFence(m, q, v.below[0]) && !ClosesFence(m, q, v.below[1]) && !ClosesFence(m, q, v.below[2]);
    assert DropBlanks(v.below) == v.below;
  }

  lemma ClosedSecond(m: Reader, q: string, u: string, below: seq<Line>)
    requires Lawful(m) && m.view(u).underline && m.view(q).fence > 0 && |below| >= 2 && below[0] == Bare(u) && below[1] == Bare(q)
    ensures Closer(m, q, below) == 1
  {
    assert Sensible(m, u);
    assert !ClosesFence(m, q, below[0]) && ClosesFence(m, q, below[1..][0]);
  }

  /** Closed right below the underline, with nothing under it. */
  lemma FenceClosed(m: Reader, v: Verdict, q: string, u: string)
    requires Lawful(m) && m.view(u).underline && m.view(q).fence > 0 && v.Reopens? && v.fence == q && v.below == [Bare(u), Bare(q)]
    ensures Fixed(m, START, v)
  {
    ClosedSecond(m, q, u, v.below);
    assert v.below[2..] == [];
  }

  /** Closed, with two lines under it that were code: now they are prose, and one is pruned. */
  lemma FenceClosedBusy(m: Reader, p: string, q: string, c: string, u: string, a: string, b: string)
    requires Lawful(m) && ProseText(m, p) && m.view(q).fence > 0 && m.view(c).fence == 0 && m.view(u).underline
    requires ProseText(m, a) && ProseText(m, b)
    ensures !Fixed(m, START, Reopens(Above(m, p, q, c), q, [Bare(u), Bare(q), Bare(a), Bare(b)]))
  {
    var below := [Bare(u), Bare(q), Bare(a), Bare(b)];
    ClosedSecond(m, q, u, below);
    assert below[2..] == [Bare(a), Bare(b)];
    ReadAbove(m, p, q, c);
    var o := Outside(Reopened(m, START, Above(m, p, q, c), q), q, 1);
    OneTooMuchProse(m, o, a, b);
  }

  lemma OneTooMuchProse(m: Reader, o: State, a: string, b: string)
    requires Lawful(m) && ProseText(m, a) && ProseText(m, b)
    requires !o.fence && !o.front && !o.allowed && o.prose == 1 && o.pruned
    ensures !Verbatim(m, o, [Bare(a), Bare(b)])
  {
    var ls := [Bare(a), Bare(b)];
    assert Sensible(m, a) && Sensible(m, b);
    assert ls[0].t != [] && ls[1..] == [Bare(b)];
    ProseAt(m, o, a, false);
    var r := First(m, o, ls);
    assert r.out == [Bare(a)];
    var last := [Bare(b)];
    assert last[0].t != [];
    ProseAt(m, r.state, b, false);
    assert First(m, r.state, last).out == [];
  }

  lemma FreshProse(m: Reader, s: State, a: string, b: string)
    requires Lawful(m) && ProseText(m, a) && ProseText(m, b) && !s.front && !s.fence && !s.allowed && s.prose == 0
    ensures Kept(m, s, [Bare(a)] + [Bare(b)]) == [Bare(a), Bare(b)]
  {
    ProseAt(m, s, a, false);
    var r := Step(m, s, Bare(a), false).state;
    ProseAt(m, r, b, false);
    OneLine(m, r, Bare(b));
    assert !NextSeparator(m, [Bare(b)]) by {
      assert Sensible(m, b);
    }
    KeptCons(m, s, Bare(a), [Bare(b)]);
  }

  /** A fence and two lines in it. */
  lemma FreshCode(m: Reader, s: State, q: string, a: string, b: string)
    requires Lawful(m) && m.view(q).fence > 0 && ProseText(m, a) && ProseText(m, b) && !s.front && !s.fence
    ensures Kept(m, s, [Bare(q)]) == [Bare(q)]
    ensures Kept(m, s, [Bare(q)] + ([Bare(a)] + [Bare(b)])) == [Bare(q), Bare(a), Bare(b)]
  {
    OneLine(m, s, Bare(q));
    var n := NextSeparator(m, [Bare(a)] + [Bare(b)]);
    var r := Step(m, s, Bare(q), n).state;
    KeptCons(m, s, Bare(q), [Bare(a)] + [Bare(b)]);
    KeptCons(m, r, Bare(a), [Bare(b)]);
    OneLine(m, Step(m, r, Bare(a), NextSeparator(m, [Bare(b)])).state, Bare(b));
  }

  lemma AloneFamily(m: Reader, p: string, q: string, c: string, u: string)
    requires Lawful(m) && Faithful(m) && FenceWords(m, p, q, c, u, [])
    ensures var d := Terminate(FenceRaws(m.sentinel.t, p, q, c, u, [])); ProperBy(m, d) && !ChangedBy(m, d)
  {
    var below := [Bare(u)] + Kept(m, Below(m, q, u), Bares([]));
    assert Bares([]) == [] && below == [Bare(u)];
    FenceFamily(m, p, q, c, u, [], below);
    FenceAlone(m, Reopens(Above(m, p, q, c), q, below), q, u);
  }

  lemma BusyBelow(m: Reader, q: string, u: string, a: string, b: string)
    requires Lawful(m) && Prose(m, a) && Prose(m, b)
    ensures [Bare(u)] + Kept(m, Below(m, q, u), Bares([a, b])) == [Bare(u), Bare(a), Bare(b)]
  {
    assert Bares([a, b]) == [Bare(a)] + [Bare(b)];
    FreshProse(m, Below(m, q, u), a, b);
  }

  lemma BusyFamily(m: Reader, p: string, q: string, c: string, u: string, a: string, b: string)
    requires Lawful(m) && Faithful(m) && FenceWords(m, p, q, c, u, [a, b]) && Prose(m, a) && Prose(m, b)
    ensures var d := Terminate(FenceRaws(m.sentinel.t, p, q, c, u, [a, b])); ProperBy(m, d) && ChangedBy(m, d)
  {
    var below := [Bare(u), Bare(a), Bare(b)];
    BusyBelow(m, q, u, a, b);
    FenceFamily(m, p, q, c, u, [a, b], below);
    FenceBusy(m, Reopens(Above(m, p, q, c), q, below), q, u, a, b);
  }

  lemma ClosedBelow(m: Reader, q: string, u: string, a: string, b: string)
    requires Lawful(m) && Fence(m, q) && Prose(m, a) && Prose(m, b)
    ensures [Bare(u)] + Kept(m, Below(m, q, u), Bares([q])) == [Bare(u), Bare(q)]
    ensures [Bare(u)] + Kept(m, Below(m, q, u), Bares([q, a, b])) == [Bare(u), Bare(q), Bare(a), Bare(b)]
  {
    assert Bares([q]) == [Bare(q)];
    assert Bares([q, a, b]) == [Bare(q)] + ([Bare(a)] + [Bare(b)]);
    FreshCode(m, Below(m, q, u), q, a, b);
  }

  lemma ClosedFamily(m: Reader, p: string, q: string, c: string, u: string)
    requires Lawful(m) && Faithful(m) && FenceWords(m, p, q, c, u, [q])
    ensures var d := Terminate(FenceRaws(m.sentinel.t, p, q, c, u, [q])); ProperBy(m, d) && !ChangedBy(m, d)
  {
    var below := [Bare(u), Bare(q)];
    ClosedBelow(m, q, u, p, p);
    FenceFamily(m, p, q, c, u, [q], below);
    FenceClosed(m, Reopens(Above(m, p, q, c), q, below), q, u);
  }

  lemma ClosedBusyFamily(m: Reader, p: string, q: string, c: string, u: string, a: string, b: string)
    requires Lawful(m) && Faithful(m) && FenceWords(m, p, q, c, u, [q, a, b]) && Prose(m, a) && Prose(m, b)
    ensures var d := Terminate(FenceRaws(m.sentinel.t, p, q, c, u, [q, a, b])); ProperBy(m, d) && ChangedBy(m, d)
  {
    var below := [Bare(u), Bare(q), Bare(a), Bare(b)];
    ClosedBelow(m, q, u, a, b);
    FenceFamily(m, p, q, c, u, [q, a, b], below);
    FenceClosedBusy(m, p, q, c, u, a, b);
  }

  lemma FenceNest(s: string, p: string, q: string, c: string, u: string, a: string, b: string)
    ensures FenceRaws(s, p, q, c, u, []) == [p, q, c, q, s, u] && FenceRaws(s, p, q, c, u, [a, b]) == [p, q, c, q, s, u, a, b]
    ensures FenceRaws(s, p, q, c, u, [q]) == [p, q, c, q, s, u, q] && FenceRaws(s, p, q, c, u, [q, a, b]) == [p, q, c, q, s, u, q, a, b]
  {
  }

  lemma FewWords(m: Reader, q: string, a: string, b: string)
    requires WordOf(m, q) && WordOf(m, a) && WordOf(m, b)
    ensures All(Word(m), []) && All(Word(m), [a, b]) && All(Word(m), [q]) && All(Word(m), [q, a, b])
  {
  }

  lemma OpenRead(p: string, q: string, c: string, u: string, a: string, b: string)
    requires Prose(READER, p) && Fence(READER, q) && Prose(READER, c) && Underline(READER, u) && Prose(READER, a) && Prose(READER, b)
    ensures var d := Terminate([p, q, c, q, PRUNED, u]); ProperDocument(d) && !Changed(d)
    ensures var d := Terminate([p, q, c, q, PRUNED, u, a, b]); ProperDocument(d) && Changed(d)
  {
    ReaderLawful();
    ReaderFaithful();
    MarksTight();
    FewWords(READER, q, a, b);
    FenceNest(PRUNED, p, q, c, u, a, b);
    AloneFamily(READER, p, q, c, u);
    BusyFamily(READER, p, q, c, u, a, b);
  }

  lemma ClosedRead(p: string, q: string, c: string, u: string, a: string, b: string)
    requires Prose(READER, p) && Fence(READER, q) && Prose(READER, c) && Underline(READER, u) && Prose(READER, a) && Prose(READER, b)
    ensures var d := Terminate([p, q, c, q, PRUNED, u, q]); ProperDocument(d) && !Changed(d)
    ensures var d := Terminate([p, q, c, q, PRUNED, u, q, a, b]); ProperDocument(d) && Changed(d)
  {
    ReaderLawful();
    ReaderFaithful();
    MarksTight();
    FewWords(READER, q, a, b);
    FenceNest(PRUNED, p, q, c, u, a, b);
    ClosedFamily(READER, p, q, c, u);
    ClosedBusyFamily(READER, p, q, c, u, a, b);
  }

  lemma FenceLetters()
    ensures Prose(READER, "t") && Prose(READER, "c") && Prose(READER, "a") && Prose(READER, "b")
    ensures Fence(READER, "```") && Underline(READER, "---")
  {
    Letter("t");
    Letter("c");
    Letter("a");
    Letter("b");
    FenceWord();
    UnderlineWord();
  }

  /** The closing fence is pushed again below the sentinel, and opens a block in the second pass:
      an underline alone is given back under it, of three lines one is lost. */
  lemma FenceDocuments()
    ensures var d := Terminate(["t", "```", "c", "```", PRUNED, "---"]); ProperDocument(d) && !Changed(d)
    ensures var d := Terminate(["t", "```", "c", "```", PRUNED, "---", "a", "b"]); ProperDocument(d) && Changed(d)
  {
    FenceLetters();
    OpenRead("t", "```", "c", "---", "a", "b");
  }

  /** A later delimiter closes that block: with nothing below, all is given back; what was code
      below is prose now, and the second line is pruned. */
  lemma ClosedFenceDocuments()
    ensures var d := Terminate(["t", "```", "c", "```", PRUNED, "---", "```"]); ProperDocument(d) && !Changed(d)
    ensures var d := Terminate(["t", "```", "c", "```", PRUNED, "---", "```", "a", "b"]); ProperDocument(d) && Changed(d)
  {
    FenceLetters();
    ClosedRead("t", "```", "c", "---", "a", "b");
  }
}
