/** Families of lines and their verdicts, for every lawful reader. */
module MarkdownWitness {
  import opened Options
  import opened Markdown
  import opened MarkdownPasses
  import opened MarkdownVerdict

  /** Plain narrative text. */
  ghost predicate ProseText(m: Reader, t: string) {
    var v := m.view(t);
    && v.fence == 0 && !v.rule && !v.blank && !v.sentinel && !v.comment && !v.heading && !v.underline && !v.bar
    && !v.callout && !v.metadata && !v.item
  }

  ghost predicate RowText(m: Reader, t: string) {
    var v := m.view(t);
    v.fence == 0 && !v.rule && !v.blank && !v.sentinel && !v.comment && !v.heading && !v.underline && v.bar && !v.separator
  }

  ghost predicate UnderlineText(m: Reader, t: string) {
    var v := m.view(t);
    && v.fence == 0 && !v.rule && !v.blank && !v.sentinel && !v.comment && !v.heading && v.underline && !v.bar
    && !v.callout && !v.metadata && !v.item
  }

  ghost predicate BadgeText(m: Reader, t: string) {
    var v := m.view(t);
    v.fence == 0 && !v.rule && !v.blank && !v.sentinel && v.comment
  }

  /** Text is being read in the middle of a document. */
  ghost predicate Amid(s: State) {
    !s.front && s.started && !s.fence && s.prev != [] && !s.allowed
  }

  lemma ProseAt(m: Reader, s: State, p: string, n: bool)
    requires Lawful(m) && ProseText(m, p) && !s.front && !s.fence && !s.allowed
    ensures Step(m, s, Bare(p), n) == AtProse(m, Reading(s), Bare(p))
  {
  }

  lemma KeptCons(m: Reader, s: State, l: Line, rest: seq<Line>)
    ensures Kept(m, s, [l] + rest) == Step(m, s, l, NextSeparator(m, rest)).out + Kept(m, Step(m, s, l, NextSeparator(m, rest)).state, rest)
  {
    assert ([l] + rest)[1..] == rest;
  }

  /** A line that decides nothing leaves the verdict to the rest. */
  lemma VerdictCons(m: Reader, s: State, lag: bool, l: Line, rest: seq<Line>)
    requires !Repushes(m, s, l)
    ensures var r := Step(m, s, l, NextSeparator(m, rest));
      VerdictOf(m, s, lag, [l] + rest) ==
      Behind(r.out, VerdictOf(m, r.state, LagAfter(m, s, lag, l, NextSeparator(m, rest), NextSeparator(m, Kept(m, r.state, rest))), rest))
  {
    assert ([l] + rest)[1..] == rest;
  }

  /** Without comments a pass is proper from every state. */
  lemma {:induction false} PlainUncommented(m: Reader, s: State, ls: seq<Line>)
    requires forall i :: 0 <= i < |ls| ==> m.view(ls[i].t).sentinel || !m.view(ls[i].t).comment
    ensures Uncommented(m, s, ls)
    decreases |ls|
  {
    if ls != [] {
      PlainUncommented(m, First(m, s, ls).state, ls[1..]);
    }
  }

  // ------------------------------------------------- a badge between two blanks

  /** A badge is skipped after it reset the count of blank lines, so two blank lines stay
      together, and only the next pass collapses them. */
  lemma BadgeLeavesTwoBlanks(m: Reader, p: string, badge: string, q: string)
    requires Lawful(m) && ProseText(m, p) && ProseText(m, q) && BadgeText(m, badge)
    ensures var ls := [Bare(p), BLANK, Bare(badge), BLANK, Bare(q)];
      && PruneLines(m, ls) == [Bare(p), BLANK, BLANK, Bare(q)]
      && PruneLines(m, PruneLines(m, ls)) == [Bare(p), BLANK, Bare(q)]
  {
    BadgePass(m, p, badge, q);
    PlainPass(m, p, q);
    assert Sensible(m, q);
  }

  /** The state after a line of prose, after a blank below it, after a second one. */
  function AfterProse(p: string): State {
    START.(started := true, prose := 1, prev := p, last := Some(p))
  }

  function AfterBlank(n: nat): State {
    START.(started := true, blanks := n, last := Some([]))
  }

  lemma ProseThenBlank(m: Reader, p: string, n: bool, k: bool)
    requires Lawful(m) && ProseText(m, p)
    ensures Step(m, START, Bare(p), n) == Turn(AfterProse(p), [Bare(p)])
    ensures Step(m, AfterProse(p), BLANK, k) == Turn(AfterBlank(1), [BLANK])
  {
    ProseAt(m, START, p, n);
    assert Sensible(m, []);
  }

  lemma BlankAgain(m: Reader, n: bool)
    requires Lawful(m)
    ensures Step(m, AfterBlank(1), BLANK, n) == Turn(AfterBlank(2), [])
    ensures Step(m, AfterBlank(0), BLANK, n) == Turn(AfterBlank(1), [BLANK])
  {
    assert Sensible(m, []);
  }

  lemma BadgeSkipped(m: Reader, badge: string, n: bool)
    requires Lawful(m) && BadgeText(m, badge)
    ensures Step(m, AfterBlank(1), Bare(badge), n) == Turn(AfterBlank(0), [])
  {
  }

  lemma LastProse(m: Reader, s: State, q: string)
    requires Lawful(m) && ProseText(m, q) && !s.front && !s.fence && !s.allowed && s.prose == 0
    ensures Kept(m, s, [Bare(q)]) == [Bare(q)]
  {
    ProseAt(m, s, q, false);
    assert [Bare(q)][1..] == [];
  }

  lemma BadgeTail(m: Reader, badge: string, q: string)
    requires Lawful(m) && ProseText(m, q) && BadgeText(m, badge)
    ensures Kept(m, AfterBlank(1), [Bare(badge)] + ([BLANK] + [Bare(q)])) == [BLANK] + [Bare(q)]
  {
    LastProse(m, AfterBlank(1), q);
    BlankAgain(m, NextSeparator(m, [Bare(q)]));
    KeptCons(m, AfterBlank(0), BLANK, [Bare(q)]);
    BadgeSkipped(m, badge, NextSeparator(m, [BLANK] + [Bare(q)]));
    KeptCons(m, AfterBlank(1), Bare(badge), [BLANK] + [Bare(q)]);
  }

  lemma BadgePass(m: Reader, p: string, badge: string, q: string)
    requires Lawful(m) && ProseText(m, p) && ProseText(m, q) && BadgeText(m, badge)
    ensures Kept(m, START, [Bare(p), BLANK, Bare(badge), BLANK, Bare(q)]) == [Bare(p), BLANK, BLANK, Bare(q)]
  {
    var c := [Bare(badge)] + ([BLANK] + [Bare(q)]);
    BadgeTail(m, badge, q);
    ProseThenBlank(m, p, NextSeparator(m, [BLANK] + c), NextSeparator(m, c));
    KeptCons(m, AfterProse(p), BLANK, c);
    KeptCons(m, START, Bare(p), [BLANK] + c);
    assert [Bare(p)] + ([BLANK] + c) == [Bare(p), BLANK, Bare(badge), BLANK, Bare(q)];
  }

  lemma PlainPass(m: Reader, p: string, q: string)
    requires Lawful(m) && ProseText(m, p) && ProseText(m, q)
    ensures Kept(m, START, [Bare(p), BLANK, BLANK, Bare(q)]) == [Bare(p), BLANK, Bare(q)]
  {
    var a := [Bare(q)];
    var b := [BLANK] + a;
    var c := [BLANK] + b;
    LastProse(m, AfterBlank(2), q);
    BlankAgain(m, NextSeparator(m, a));
    KeptCons(m, AfterBlank(1), BLANK, a);
    ProseThenBlank(m, p, NextSeparator(m, c), NextSeparator(m, b));
    KeptCons(m, AfterProse(p), BLANK, b);
    KeptCons(m, START, Bare(p), c);
    assert [Bare(p)] + c == [Bare(p), BLANK, BLANK, Bare(q)];
  }

  // -------------------------------------- a pruned line pushed again out of step

  lemma PushedAgain(m: Reader, s: State, p: string, u: string)
    requires Lawful(m) && Amid(s) && s.pruned && s.prose >= 2 && s.last != Some(p)
    requires ProseText(m, p) && m.view(u).underline
    ensures VerdictOf(m, s, true, [Bare(p)] + [Bare(u)]) == Changes
  {
    assert Sensible(m, p) && Sensible(m, u);
    ProseAt(m, s, p, NextSeparator(m, [Bare(u)]));
    var r := Step(m, s, Bare(p), NextSeparator(m, [Bare(u)])).state;
    assert p != m.row.t;
    assert Diverges(m, r, true, Bare(u));
    assert VerdictOf(m, r, true, [Bare(u)]) == Changes;
    VerdictCons(m, s, true, Bare(p), [Bare(u)]);
  }

  lemma SeparatorFirst(m: Reader, s: State, sep: string, rest: seq<Line>)
    requires Lawful(m) && Amid(s) && m.view(sep).separator
    ensures var r := Step(m, s, Bare(sep), NextSeparator(m, rest));
      r == Turn(Reading(s).(prev := sep, last := Some(sep)), [Bare(sep)]) && NextSeparator(m, Kept(m, s, [Bare(sep)] + rest))
  {
    assert Sensible(m, sep);
    RowStep(m, s, Bare(sep), NextSeparator(m, rest));
    KeptCons(m, s, Bare(sep), rest);
  }

  /** A row is pruned, a separator follows, then a pruned line is underlined. */
  lemma TableDiverges(m: Reader, s: State, row: string, p: string, sep: string, q: string, u: string)
    requires Lawful(m) && Amid(s) && !s.pruned && s.prose >= 2 && sep != q
    requires RowText(m, row) && ProseText(m, p) && m.view(sep).separator && ProseText(m, q) && m.view(u).underline
    ensures VerdictOf(m, s, false, [Bare(row)] + ([Bare(p)] + ([Bare(sep)] + ([Bare(q)] + [Bare(u)])))) == Changes
  {
    assert Sensible(m, sep) && Sensible(m, p) && Sensible(m, row);
    var tail := [Bare(q)] + [Bare(u)];
    var mid := [Bare(sep)] + tail;
    var s1 := Reading(s).(prev := row, pruned := true, last := Some(m.row.t));
    RowStep(m, s, Bare(row), false);
    assert Step(m, s, Bare(row), false) == Turn(s1, [m.row]);
    var s2 := s1.(prev := p);
    ProseAt(m, s1, p, true);
    assert Step(m, s1, Bare(p), true) == Turn(s2, []);
    SeparatorFirst(m, s2, sep, tail);
    var s3 := Reading(s2).(prev := sep, last := Some(sep));
    PushedAgain(m, s3, q, u);
    VerdictCons(m, s2, true, Bare(sep), tail);
    assert NextSeparator(m, mid);
    VerdictCons(m, s1, true, Bare(p), mid);
    KeptCons(m, s1, Bare(p), mid);
    assert Kept(m, s1, [Bare(p)] + mid) == [] + Kept(m, s2, mid) == Kept(m, s2, mid);
    assert MarksRow(m, s, Bare(row), false);
    VerdictCons(m, s, false, Bare(row), [Bare(p)] + mid);
  }

  function AfterTwo(q: string): State {
    START.(started := true, prose := 2, prev := q, last := Some(q))
  }

  lemma TwoProse(m: Reader, a: string, b: string, rest: seq<Line>)
    requires Lawful(m) && ProseText(m, a) && ProseText(m, b) && !NextSeparator(m, rest)
    ensures VerdictOf(m, START, false, [Bare(a)] + ([Bare(b)] + rest)) == Behind([Bare(a)], Behind([Bare(b)], VerdictOf(m, AfterTwo(b), false, rest)))
  {
    assert Sensible(m, b);
    ProseAt(m, START, a, false);
    ProseAt(m, AfterProse(a), b, false);
    VerdictCons(m, AfterProse(a), false, Bare(b), rest);
    VerdictCons(m, START, false, Bare(a), [Bare(b)] + rest);
  }

  // ------------------------------------------- an underline after the sentinel

  lemma UnderlineFirst(m: Reader, s: State, u: string, n: bool)
    requires Lawful(m) && UnderlineText(m, u) && !s.front && !s.fence && !s.allowed && s.prev == [] && s.prose == 0
    ensures Step(m, s, Bare(u), n) == Turn(Reading(s).(prose := 1, prev := u, last := Some(u)), [Bare(u)])
  {
  }

  lemma UnderlineAfter(m: Reader, s: State, u: string, n: bool)
    requires Lawful(m) && UnderlineText(m, u) && !s.front && !s.fence && s.prev == u && s.last == Some(m.sentinel.t)
    ensures Step(m, s, Bare(u), n) ==
      Turn(Reading(s).(prose := 0, pruned := false, allowed := false, prev := [], last := Some(u)), [Bare(u), Bare(u)])
  {
    assert Sensible(m, u);
    UnderlineStep(m, s, Bare(u), n);
  }

  /** The sentinel does not count as the line before an underline, so the line above it is
      pushed again; where that line is an underline itself, every pass adds one more. */
  lemma SentinelDoublesUnderline(m: Reader, u: string)
    requires Lawful(m) && UnderlineText(m, u)
    ensures var ls := [Bare(u)] + ([m.sentinel] + [Bare(u)]);
      && Kept(m, START, ls) == [Bare(u)] + ([m.sentinel] + ([Bare(u)] + [Bare(u)]))
      && Kept(m, START, Kept(m, START, ls)) == [Bare(u)] + ([m.sentinel] + [Bare(u), Bare(u), Bare(u)])
  {
    assert Sensible(m, u) && Sensible(m, m.sentinel.t);
    var s1 := START.(started := true, prose := 1, prev := u, last := Some(u));
    var s2 := s1.(pruned := true, last := Some(m.sentinel.t));
    var s3 := s2.(prose := 0, pruned := false, prev := [], last := Some(u));
    SentinelAgain(m, s1, false);
    UnderlineFirst(m, START, u, false);
    UnderlineAfter(m, s2, u, false);
    UnderlineFirst(m, s3, u, false);
    OneLine(m, s2, Bare(u));
    OneLine(m, s3, Bare(u));
    KeptCons(m, s1, m.sentinel, [Bare(u)]);
    KeptCons(m, START, Bare(u), [m.sentinel] + [Bare(u)]);
    KeptCons(m, s2, Bare(u), [Bare(u)]);
    KeptCons(m, s1, m.sentinel, [Bare(u)] + [Bare(u)]);
    KeptCons(m, START, Bare(u), [m.sentinel] + ([Bare(u)] + [Bare(u)]));
  }

  lemma OneLine(m: Reader, s: State, l: Line)
    ensures Kept(m, s, [l]) == Step(m, s, l, false).out
  {
    assert [l][1..] == [];
  }

  // ----------------------------------------------------- a fence pushed again

  lemma FenceSteps(m: Reader, p: string, q: string, c: string, n: bool)
    requires Lawful(m) && ProseText(m, p) && m.view(q).fence > 0 && m.view(c).fence == 0
    ensures Step(m, START, Bare(p), n) == Turn(AfterProse(p), [Bare(p)])
    ensures Step(m, AfterProse(p), Bare(q), n) == Turn(Opened(m, p, q), [Bare(q)])
    ensures Step(m, Opened(m, p, q), Bare(c), n) == Turn(Inner(m, q, c), [Bare(c)])
    ensures Step(m, Inner(m, q, c), Bare(q), n) == Turn(Shut(m, q), [Bare(q)])
  {
    ProseAt(m, START, p, n);
  }

  lemma SentinelStep(m: Reader, q: string, n: bool)
    requires Lawful(m)
    ensures Step(m, Shut(m, q), m.sentinel, n) == Turn(Shut(m, q).(pruned := true, last := Some(m.sentinel.t)), [m.sentinel])
  {
    SentinelAgain(m, Shut(m, q), n);
  }

  /** Lines that decide nothing, one after the other. */
  lemma Undecided(m: Reader, s: State, l: Line, r: Turn, rest: seq<Line>)
    requires Step(m, s, l, NextSeparator(m, rest)) == r && !m.view(l.t).underline && !r.state.pruned
    ensures VerdictOf(m, s, false, [l] + rest) == Behind(r.out, VerdictOf(m, r.state, false, rest))
  {
    VerdictCons(m, s, false, l, rest);
  }

  lemma UndecidedSentinel(m: Reader, q: string, rest: seq<Line>)
    requires Lawful(m)
    ensures VerdictOf(m, Shut(m, q), false, [m.sentinel] + rest) ==
      Behind([m.sentinel], VerdictOf(m, Shut(m, q).(pruned := true, last := Some(m.sentinel.t)), false, rest))
  {
    assert Sensible(m, m.sentinel.t);
    SentinelStep(m, q, NextSeparator(m, rest));
    VerdictCons(m, Shut(m, q), false, m.sentinel, rest);
  }

  /** After a line of prose and a code block, the sentinel in between: the closing fence is
      pushed again above an underline. */
  lemma FenceAgain(m: Reader, p: string, q: string, c: string, u: string, rest: seq<Line>)
    requires Lawful(m) && ProseText(m, p) && m.view(q).fence > 0 && m.view(u).underline && !m.view(q).metadata
    requires m.view(c).fence == 0 && !m.view(c).underline
    ensures var v := VerdictOf(m, START, false, [Bare(p)] + ([Bare(q)] + ([Bare(c)] + ([Bare(q)] + ([m.sentinel] + ([Bare(u)] + rest))))));
      v == Reopens(Above(m, p, q, c), q, [Bare(u)] + Kept(m, Below(m, q, u), rest))
  {
    assert Sensible(m, q);
    var e := [Bare(u)] + rest;
    var d := [m.sentinel] + e;
    FenceVerdict(m, q, u, rest);
    UndecidedSentinel(m, q, e);
    FenceChain(m, p, q, c, d);
  }

  lemma FenceChain(m: Reader, p: string, q: string, c: string, d: seq<Line>)
    requires Lawful(m) && ProseText(m, p) && m.view(q).fence > 0 && m.view(c).fence == 0 && !m.view(c).underline
    ensures var v := VerdictOf(m, START, false, [Bare(p)] + ([Bare(q)] + ([Bare(c)] + ([Bare(q)] + d))));
      v == Behind([Bare(p)], Behind([Bare(q)], Behind([Bare(c)], Behind([Bare(q)], VerdictOf(m, Shut(m, q), false, d)))))
  {
    assert Sensible(m, q);
    var c3 := [Bare(q)] + d;
    var c2 := [Bare(c)] + c3;
    var c1 := [Bare(q)] + c2;
    FenceSteps(m, p, q, c, NextSeparator(m, d));
    Undecided(m, Inner(m, q, c), Bare(q), Turn(Shut(m, q), [Bare(q)]), d);
    FenceSteps(m, p, q, c, NextSeparator(m, c3));
    Undecided(m, Opened(m, p, q), Bare(c), Turn(Inner(m, q, c), [Bare(c)]), c3);
    FenceSteps(m, p, q, c, NextSeparator(m, c2));
    Undecided(m, AfterProse(p), Bare(q), Turn(Opened(m, p, q), [Bare(q)]), c2);
    FenceSteps(m, p, q, c, NextSeparator(m, c1));
    Undecided(m, START, Bare(p), Turn(AfterProse(p), [Bare(p)]), c1);
  }

  /** What is kept above the fence. */
  function Above(m: Reader, p: string, q: string, c: string): seq<Line> {
    [Bare(p)] + ([Bare(q)] + ([Bare(c)] + ([Bare(q)] + ([m.sentinel] + []))))
  }

  lemma ReadOnCons(m: Reader, t: State, l: Line, rest: seq<Line>, k: bool)
    ensures ReadOn(m, t, [l] + rest, k) == ReadOn(m, Step(m, t, l, if rest != [] then m.view(rest[0].t).separator else k).state, rest, k)
  {
    assert ([l] + rest)[1..] == rest;
  }

  /** The second pass there: one line of prose was read, and the block is taken for pruned. */
  lemma ReadAbove(m: Reader, p: string, q: string, c: string)
    requires Lawful(m) && ProseText(m, p) && m.view(q).fence > 0 && m.view(c).fence == 0
    ensures ReadOn(m, START, Above(m, p, q, c), false) == Shut(m, q).(pruned := true, last := Some(m.sentinel.t))
  {
    var e := [m.sentinel] + [];
    var d := [Bare(q)] + e;
    var b := [Bare(c)] + d;
    var a := [Bare(q)] + b;
    ReadOnCons(m, START, Bare(p), a, false);
    FenceSteps(m, p, q, c, m.view(a[0].t).separator);
    ReadOnCons(m, AfterProse(p), Bare(q), b, false);
    FenceSteps(m, p, q, c, m.view(b[0].t).separator);
    ReadOnCons(m, Opened(m, p, q), Bare(c), d, false);
    FenceSteps(m, p, q, c, m.view(d[0].t).separator);
    ReadOnCons(m, Inner(m, q, c), Bare(q), e, false);
    FenceSteps(m, p, q, c, m.view(e[0].t).separator);
    ReadOnCons(m, Shut(m, q), m.sentinel, [], false);
    SentinelStep(m, q, false);
  }

  function Opened(m: Reader, p: string, q: string): State {
    OpenFence(m, AfterProse(p), Bare(q)).state
  }

  function Inner(m: Reader, q: string, c: string): State {
    Opened(m, [], q).(kept := 1, prev := c, last := Some(c))
  }

  function Shut(m: Reader, q: string): State {
    Opened(m, [], q).(fence := false, kept := 1, prev := q, last := Some(q))
  }

  /** The state below the underline. */
  function Below(m: Reader, q: string, u: string): State {
    Shut(m, q).(prose := 0, pruned := false, allowed := false, prev := [], last := Some(u))
  }

  lemma FenceVerdict(m: Reader, q: string, u: string, rest: seq<Line>)
    requires Lawful(m) && m.view(q).fence > 0 && m.view(u).underline && !m.view(q).metadata
    ensures var s := Shut(m, q).(pruned := true, last := Some(m.sentinel.t));
      VerdictOf(m, s, false, [Bare(u)] + rest) == Reopens([], q, [Bare(u)] + Kept(m, Below(m, q, u), rest))
  {
    var s := Shut(m, q).(pruned := true, last := Some(m.sentinel.t));
    assert Sensible(m, q) && Sensible(m, u) && Sensible(m, m.sentinel.t);
    assert Repushes(m, s, Bare(u));
    UnderlineStep(m, s, Bare(u), NextSeparator(m, rest));
    assert ([Bare(u)] + rest)[1..] == rest;
  }
}
