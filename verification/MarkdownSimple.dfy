/** Documents whose skeletons are fixed points, found without pruning them. */
module MarkdownSimple {
  import opened Markdown
  import opened MarkdownPasses
  import opened MarkdownVerdict
  import opened MarkdownText

  /** In a code fence, in front matter, or past the first text. */
  datatype Mode = Mode(front: bool, started: bool, fence: bool, mark: char, length: nat)

  const OUTSIDE := Mode(false, false, false, ' ', 0)

  /** What a line outside fences and front matter is read as. */
  predicate IsOutside(m: Reader, d: Mode, l: Line) {
    var v := m.view(l.t);
    !d.fence && v.fence == 0 && !(!d.started && v.rule) && !d.front && !v.blank
  }

  /** Fences and front matter, followed line by line. */
  function NextMode(m: Reader, d: Mode, l: Line): Mode {
    var v := m.view(l.t);
    if d.fence then if v.fence > 0 && v.first == d.mark && v.fence >= d.length then d.(fence := false) else d
    else if v.fence > 0 then d.(fence := true, mark := v.first, length := v.fence)
    else if !d.started && v.rule then d.(front := true, started := true)
    else if d.front then if v.rule then d.(front := false) else d
    else if v.blank then d
    else d.(started := true)
  }

  /** Outside fences and front matter there is no underline, and no comment but the sentinel. */
  predicate Simple(m: Reader, d: Mode, ls: seq<Line>)
    decreases |ls|
  {
    ls != [] ==>
      && (IsOutside(m, d, ls[0]) ==> !m.view(ls[0].t).underline && (m.view(ls[0].t).sentinel || !m.view(ls[0].t).comment))
      && Simple(m, NextMode(m, d, ls[0]), ls[1..])
  }

  function ModeOf(s: State): Mode {
    Mode(s.front, s.started, s.fence, s.mark, s.length)
  }

  lemma RowMode(m: Reader, s: State, l: Line, n: bool)
    ensures ModeOf(AtTable(m, s, l, n).state) == ModeOf(s) && ModeOf(AtUnderline(m, s, l).state) == ModeOf(s)
  {
  }

  lemma ProseMode(m: Reader, s: State, l: Line)
    ensures ModeOf(AtProse(m, s, l).state) == ModeOf(s) && ModeOf(AtSentinel(m, s).state) == ModeOf(s)
  {
  }

  /** Text changes neither fences nor front matter. */
  lemma TextMode(m: Reader, s: State, l: Line, n: bool)
    ensures ModeOf(AtText(m, s, l, n).state) == ModeOf(s)
  {
    RowMode(m, s, l, n);
    ProseMode(m, s, l);
    var v := m.view(l.t);
    if v.sentinel || v.comment || v.heading {
    } else if (s.prev != [] && v.underline) || v.bar {
    } else {
      PlainMode(m, s, l, n);
    }
  }

  lemma PlainMode(m: Reader, s: State, l: Line, n: bool)
    requires var v := m.view(l.t); !v.sentinel && !v.comment && !v.heading && !(s.prev != [] && v.underline) && !v.bar
    ensures ModeOf(AtText(m, s, l, n).state) == ModeOf(s)
  {
    ProseMode(m, s, l);
  }

  lemma OtherMode(m: Reader, s: State, l: Line, n: bool)
    requires !IsText(m, s, l)
    ensures ModeOf(Step(m, s, l, n).state) == NextMode(m, ModeOf(s), l)
  {
  }

  lemma ModeFollows(m: Reader, s: State, l: Line, n: bool)
    ensures ModeOf(Step(m, s, l, n).state) == NextMode(m, ModeOf(s), l)
    ensures IsOutside(m, ModeOf(s), l) <==> IsText(m, s, l)
  {
    if IsText(m, s, l) {
      TextStep(m, s, l, n);
      TextMode(m, Reading(s), l, n);
    } else {
      OtherMode(m, s, l, n);
    }
  }

  lemma {:induction false} SimpleAgrees(m: Reader, s: State, lag: bool, ls: seq<Line>)
    requires Simple(m, ModeOf(s), ls)
    ensures Uncommented(m, s, ls) && VerdictOf(m, s, lag, ls) == Agrees
    decreases |ls|
  {
    if ls != [] {
      var r, n := First(m, s, ls), NextSeparator(m, ls[1..]);
      ModeFollows(m, s, ls[0], n);
      SimpleAgrees(m, r.state, LagAfter(m, s, lag, ls[0], n, NextSeparator(m, Kept(m, r.state, ls[1..]))), ls[1..]);
    }
  }

  /** Without underlines, badges and comments, pruning again changes nothing. */
  lemma SimpleDocumentFixed(source: string)
    requires BOM !in StripBom(source) && Simple(READER, OUTSIDE, Document(source))
    ensures PruneMarkdown(PruneMarkdown(source)) == PruneMarkdown(source)
  {
    SimpleAgrees(READER, START, false, Document(source));
    PruneMarkdownIdempotentIff(source);
  }

  // -------------------------------------------------------- harmless comments

  /** A badge or comment that is left out. */
  predicate IsRemark(m: Reader, d: Mode, l: Line) {
    IsOutside(m, d, l) && m.view(l.t).comment && !m.view(l.t).sentinel
  }

  /** Outside fences and front matter there is no underline, and a badge or comment only after
      the first text: with nothing blank right above it, and no table separator right below, or
      else with no blank line right below. `gap` says that the last other line was blank. */
  predicate Tame(m: Reader, d: Mode, gap: bool, ls: seq<Line>)
    decreases |ls|
  {
    ls != [] ==>
      var l, rest := ls[0], ls[1..];
      if IsRemark(m, d, l) then
        && d.started && Tame(m, d, gap, rest)
        && if gap then rest != [] ==> !m.view(rest[0].t).blank else !NextSeparator(m, rest)
      else
        && (IsOutside(m, d, l) ==> !m.view(l.t).underline)
        && Tame(m, NextMode(m, d, l), !d.fence && !d.front && m.view(l.t).blank, rest)
  }

  /** The lines without badges and comments. */
  function Strip(m: Reader, d: Mode, ls: seq<Line>): seq<Line>
    decreases |ls|
  {
    if ls == [] then []
    else if IsRemark(m, d, ls[0]) then Strip(m, NextMode(m, d, ls[0]), ls[1..])
    else [ls[0]] + Strip(m, NextMode(m, d, ls[0]), ls[1..])
  }

  lemma {:induction false} StripSimple(m: Reader, d: Mode, gap: bool, ls: seq<Line>)
    requires Tame(m, d, gap, ls)
    ensures Simple(m, d, Strip(m, d, ls))
    decreases |ls|
  {
    if ls != [] {
      var l, rest := ls[0], ls[1..];
      if IsRemark(m, d, l) {
        StripSimple(m, d, gap, rest);
      } else {
        StripSimple(m, NextMode(m, d, l), !d.fence && !d.front && m.view(l.t).blank, rest);
        assert ([l] + Strip(m, NextMode(m, d, l), rest))[1..] == Strip(m, NextMode(m, d, l), rest);
      }
    }
  }

  /** Below a line that is not blank, the next line is a separator with the remarks or without. */
  lemma {:induction false} StripNext(m: Reader, d: Mode, ls: seq<Line>)
    requires Lawful(m) && Tame(m, d, false, ls)
    ensures NextSeparator(m, Strip(m, d, ls)) <==> NextSeparator(m, ls)
    decreases |ls|
  {
    if ls != [] && IsRemark(m, d, ls[0]) {
      assert Sensible(m, ls[0].t);
      StripNext(m, d, ls[1..]);
    }
  }

  /** The two passes differ at most in the count of blank lines, which the next line forgets. */
  ghost predicate Alike(s: State, t: State, gap: bool, ls: seq<Line>) {
    && t == s.(blanks := t.blanks)
    && (!gap ==> s.blanks == 0 && t == s) && (s.fence || s.front ==> !gap)
    && (t == s || ls == [] || (ls[0].t != [] && !s.fence && !s.front && s.started))
  }

  lemma RemarkStep(m: Reader, s: State, l: Line, n: bool)
    requires IsRemark(m, ModeOf(s), l)
    ensures Step(m, s, l, n) == Turn(Reading(s), [])
  {
  }

  lemma BlankStep(m: Reader, s: State, l: Line, n: bool)
    requires Lawful(m) && l.t == [] && !s.fence && !s.front
    ensures Step(m, s, l, n) == AtBlank(s)
  {
    assert Sensible(m, []);
  }

  lemma ForgetsBlanks(m: Reader, s: State, l: Line, n: bool, b: nat)
    requires Lawful(m) && l.t != [] && !s.fence && !s.front && s.started
    ensures Step(m, s.(blanks := b), l, n) == Step(m, s, l, n)
  {
    assert Sensible(m, l.t);
    if m.view(l.t).fence == 0 {
      TextStep(m, s, l, n);
      TextStep(m, s.(blanks := b), l, n);
    }
  }

  lemma TextBlanks(m: Reader, s: State, l: Line, n: bool)
    ensures AtText(m, s.(started := true, blanks := 0), l, n).state.blanks == 0
  {
    var r := s.(started := true, blanks := 0);
    var v := m.view(l.t);
    if !v.sentinel && !v.comment && !v.heading && !(r.prev != [] && v.underline) && !v.bar {
      NoteBlanks(m, r, l);
    }
  }

  lemma NoteBlanks(m: Reader, r: State, l: Line)
    requires r.blanks == 0
    ensures AtProse(m, r, l).state.blanks == 0
  {
  }

  /** After a line that is not blank between paragraphs nothing is counted. */
  lemma CountsNone(m: Reader, s: State, l: Line, n: bool)
    requires Lawful(m) && (s.fence || s.front ==> s.blanks == 0) && (s.fence || s.front || l.t != [])
    ensures Step(m, s, l, n).state.blanks == 0
  {
    assert Sensible(m, l.t);
    if IsText(m, s, l) {
      TextStep(m, s, l, n);
      TextBlanks(m, s, l, n);
    }
  }

  /** A pass keeps the same lines without the remarks. */
  lemma {:induction false} StripKept(m: Reader, s: State, t: State, gap: bool, ls: seq<Line>)
    requires Lawful(m) && Tame(m, ModeOf(s), gap, ls) && Alike(s, t, gap, ls)
    ensures Kept(m, s, ls) == Kept(m, t, Strip(m, ModeOf(s), ls))
    decreases |ls|
  {
    if ls != [] {
      var l, rest := ls[0], ls[1..];
      var n := NextSeparator(m, rest);
      if IsRemark(m, ModeOf(s), l) {
        RemarkStep(m, s, l, n);
        assert Sensible(m, if rest == [] then [] else rest[0].t);
        Empty(Kept(m, Reading(s), rest));
        StripKept(m, Reading(s), t, gap, rest);
      } else {
        StripTurn(m, s, t, gap, l, rest);
        var r := Step(m, s, l, n).state;
        StripKept(m, r, r, !s.fence && !s.front && m.view(l.t).blank, rest);
        KeptOne(m, t, l, Strip(m, ModeOf(r), rest));
      }
    }
  }

  /** A line that stays makes the same turn in both passes. */
  lemma StripTurn(m: Reader, s: State, t: State, gap: bool, l: Line, rest: seq<Line>)
    requires Lawful(m) && Tame(m, ModeOf(s), gap, [l] + rest) && Alike(s, t, gap, [l] + rest) && !IsRemark(m, ModeOf(s), l)
    ensures var r := Step(m, s, l, NextSeparator(m, rest));
      && Step(m, t, l, NextSeparator(m, Strip(m, ModeOf(r.state), rest))) == r && ModeOf(r.state) == NextMode(m, ModeOf(s), l)
      && Alike(r.state, r.state, !s.fence && !s.front && m.view(l.t).blank, rest)
  {
    var n, d := NextSeparator(m, rest), NextMode(m, ModeOf(s), l);
    assert ([l] + rest)[1..] == rest;
    assert Sensible(m, l.t);
    ModeFollows(m, s, l, n);
    if !s.fence && !s.front && l.t == [] {
      BlankStep(m, s, l, n);
      BlankStep(m, t, l, NextSeparator(m, Strip(m, d, rest)));
    } else {
      StripNext(m, d, rest);
      CountsNone(m, s, l, n);
      if t != s {
        ForgetsBlanks(m, s, l, n, t.blanks);
      }
    }
  }

  /** Badges and comments that stand apart from blank lines do no harm: without underlines,
      pruning again changes nothing. */
  lemma TameDocumentFixed(source: string)
    requires BOM !in StripBom(source) && Tame(READER, OUTSIDE, false, Document(source))
    ensures PruneMarkdown(PruneMarkdown(source)) == PruneMarkdown(source)
  {
    var ls := Document(source);
    ReaderLawful();
    RenderIff(READER, source);
    TameFixed(READER, ls);
  }

  lemma TameFixed(m: Reader, ls: seq<Line>)
    requires Lawful(m) && Tame(m, OUTSIDE, false, ls)
    ensures PruneLines(m, PruneLines(m, ls)) == PruneLines(m, ls)
  {
    var o := Strip(m, OUTSIDE, ls);
    StripKept(m, START, START, false, ls);
    StripSimple(m, OUTSIDE, false, ls);
    SimpleAgrees(m, START, false, o);
    IdempotentIff(m, o);
  }
}
