/** A second pass over a pruned document, followed line by line against the first. */
module MarkdownPasses {
  import opened Options
  import opened Markdown

  // ---------------------------------------------------------------- conditions

  /** The line is text, past the tests for fences, front matter and blanks. */
  predicate IsText(m: Reader, s: State, l: Line) {
    var v := m.view(l.t);
    !s.fence && v.fence == 0 && !(!s.started && v.rule) && !s.front && !v.blank
  }

  predicate IsHeading(m: Reader, s: State, l: Line) {
    IsText(m, s, l) && !m.view(l.t).sentinel && !m.view(l.t).comment && m.view(l.t).heading
  }

  /** An underline below a line. */
  predicate Underlines(m: Reader, s: State, l: Line) {
    var v := m.view(l.t);
    IsText(m, s, l) && !v.sentinel && !v.comment && !v.heading && s.prev != [] && v.underline
  }

  /** ... that pushes the line before again. */
  predicate Repushes(m: Reader, s: State, l: Line) {
    Underlines(m, s, l) && s.last != Some(s.prev)
  }

  predicate IsRow(m: Reader, s: State, l: Line) {
    var v := m.view(l.t);
    IsText(m, s, l) && !v.sentinel && !v.comment && !v.heading && !(s.prev != [] && v.underline) && v.bar
  }

  /** A table row is pruned and leaves the marker row. */
  predicate MarksRow(m: Reader, s: State, l: Line, nextSeparator: bool) {
    IsRow(m, s, l) && !m.view(l.t).separator && !nextSeparator && s.prose >= 1 && !s.pruned
  }

  /** Neither a badge nor a comment, but for the sentinel. */
  predicate PlainTurnOf(m: Reader, s: State, l: Line) {
    IsText(m, s, l) && !m.view(l.t).sentinel ==> !m.view(l.t).comment
  }

  predicate Uncommented(m: Reader, s: State, ls: seq<Line>)
    decreases |ls|
  {
    ls == [] || (PlainTurnOf(m, s, ls[0]) && Uncommented(m, First(m, s, ls).state, ls[1..]))
  }

  /** Whether the second pass misses that this block was pruned: the marker row stands right
      above a separator there, and is taken for a table header. */
  function LagAfter(m: Reader, s: State, lag: bool, l: Line, nextSeparator: bool, keptSeparator: bool): bool {
    if !Step(m, s, l, nextSeparator).state.pruned then false
    else if MarksRow(m, s, l, nextSeparator) then keptSeparator
    else lag
  }

  /** A pruned line is pushed again while the second pass lags. */
  predicate Diverges(m: Reader, s: State, lag: bool, l: Line) {
    lag && Repushes(m, s, l) && s.prev != m.row.t
  }

  /** What becomes of a skeleton in a second pass: it is given back; it is not; or a fence
      delimiter was pushed again, which the second pass takes for an opening one, with `before`
      kept above it and `below` under it. */
  datatype Verdict = Agrees | Changes | Reopens(before: seq<Line>, fence: string, below: seq<Line>)

  /** The first line that is pushed again out of turn decides. */
  function VerdictOf(m: Reader, s: State, lag: bool, ls: seq<Line>): Verdict
    decreases |ls|
  {
    if ls == [] then Agrees
    else
      var r, n := First(m, s, ls), NextSeparator(m, ls[1..]);
      var rest := Kept(m, r.state, ls[1..]);
      if Repushes(m, s, ls[0]) && m.view(s.prev).underline then Changes
      else if Repushes(m, s, ls[0]) && m.view(s.prev).fence > 0 then Reopens([], s.prev, [Bare(ls[0].t)] + rest)
      else if Diverges(m, s, lag, ls[0]) then Changes
      else
        var v := VerdictOf(m, r.state, LagAfter(m, s, lag, ls[0], n, NextSeparator(m, rest)), ls[1..]);
        if v.Reopens? then v.(before := r.out + v.before) else v
  }

  // ------------------------------------------------------------------ relation

  /** A line the first pass pruned, which a pass that knows nothing of it would mark. */
  ghost predicate Hidden(m: Reader, q: string, prose: nat, allowed: bool) {
    var v := m.view(q);
    && v.fence == 0 && !v.blank && !v.sentinel && !v.comment && !v.heading && !v.underline
    && if v.bar then !v.separator && prose >= 1 else !v.callout && !v.metadata && !(allowed && v.item) && prose >= 2
  }

  /** What holds of the first pass alone. */
  ghost predicate Settled(m: Reader, s: State) {
    && (s.pruned ==> s.blanks == 0 && s.last.Some?)
    && (s.front || !s.started ==> s.prose == 0 && !s.pruned) && (s.front ==> s.started)
    && (s.last.None? || s.blanks >= 1 ==> s.prose == 0 && !s.pruned && s.prev == [] && !s.fence && !s.front)
    && (!s.fence ==>
          && (s.prose >= 1 ==> s.prev != [])
          && (s.prev != [] && !s.front ==> !m.view(s.prev).sentinel && !m.view(s.prev).comment)
          && (s.prev != [] && s.last != Some(s.prev) ==> s.pruned))
  }

  ghost predicate SameFence(s: State, t: State) {
    s.mark == t.mark && s.length == t.length && s.kept == t.kept <= 2 && !t.cut && (s.cut ==> s.kept == 2)
  }

  ghost predicate SamePrev(m: Reader, s: State, t: State, lag: bool) {
    && (s.prev == [] <==> t.prev == [])
    && (s.prev != [] && (s.last == Some(s.prev) || m.view(s.prev).underline) ==> t.prev == s.prev)
    && (t.prev != [] && t.last.Some? && t.last != Some(m.sentinel.t) ==> t.last == Some(t.prev))
    && (lag && s.prev != [] && s.last != Some(s.prev) ==> Hidden(m, s.prev, s.prose, s.allowed))
  }

  /** The first pass in `s` and the second in `t`, after what the first one kept. */
  ghost predicate Rel(m: Reader, s: State, t: State, lag: bool) {
    && Settled(m, s)
    && s.fence == t.fence && s.front == t.front && s.started == t.started && s.allowed == t.allowed && s.last == t.last
    && (s.fence ==> SameFence(s, t))
    && (s.last.None? || (s.blanks == 0 <==> t.blanks == 0))
    && t.pruned == (s.pruned && !lag) && (lag ==> s.pruned && s.prose >= 1)
    && t.prose <= s.prose && (lag || !s.pruned ==> t.prose == s.prose)
    && (!s.fence ==> SamePrev(m, s, t, lag))
  }

  /** What the second pass finds below the line has to agree for table rows. */
  ghost predicate Ahead(m: Reader, s: State, l: Line, n: bool, k: bool) {
    IsRow(m, s, l) && !m.view(l.t).separator ==> (n ==> k) && (!n && s.prose < 1 && !s.pruned ==> !k)
  }

  /** The second pass keeps what the first kept of one line, and stays related. */
  ghost predicate KeepsOne(m: Reader, s: State, t: State, lag: bool, l: Line, n: bool, k: bool) {
    var r := Step(m, s, l, n);
    && |r.out| == 1 && Step(m, t, r.out[0], k).out == r.out
    && Rel(m, r.state, Step(m, t, r.out[0], k).state, LagAfter(m, s, lag, l, n, k))
  }

  /** Nothing is kept, and the second pass stays where it is. */
  ghost predicate KeepsNone(m: Reader, s: State, t: State, lag: bool, l: Line, n: bool, k: bool) {
    var r := Step(m, s, l, n);
    r.out == [] && Rel(m, r.state, t, LagAfter(m, s, lag, l, n, k))
  }

  // ------------------------------------------------------------ turn by turn

  ghost predicate Closes(m: Reader, s: State, l: Line) {
    var v := m.view(l.t);
    s.fence && v.fence > 0 && v.first == s.mark && v.fence >= s.length
  }

  lemma FenceTurn(m: Reader, s: State, t: State, lag: bool, l: Line, n: bool, k: bool)
    requires Lawful(m) && Rel(m, s, t, lag) && s.fence && !Closes(m, s, l)
    ensures if s.kept < 2 then KeepsOne(m, s, t, lag, l, n, k) else KeepsNone(m, s, t, lag, l, n, k)
  {
  }

  lemma OpenTurn(m: Reader, s: State, t: State, lag: bool, l: Line, n: bool, k: bool)
    requires Lawful(m) && Rel(m, s, t, lag) && !s.fence && m.view(l.t).fence > 0
    ensures KeepsOne(m, s, t, lag, l, n, k)
  {
  }

  lemma FrontOpens(m: Reader, s: State, t: State, lag: bool, l: Line, n: bool, k: bool)
    requires Lawful(m) && Rel(m, s, t, lag) && !s.fence && m.view(l.t).fence == 0 && !s.started && m.view(l.t).rule
    ensures KeepsOne(m, s, t, lag, l, n, k)
  {
    assert Sensible(m, l.t);
  }

  lemma FrontStep(m: Reader, s: State, l: Line, n: bool)
    requires !s.fence && m.view(l.t).fence == 0 && s.started && s.front
    ensures Step(m, s, l, n) == InFront(m, s, l)
  {
  }

  lemma FrontTurn(m: Reader, s: State, t: State, lag: bool, l: Line, n: bool, k: bool)
    requires Lawful(m) && Rel(m, s, t, lag) && !s.fence && m.view(l.t).fence == 0 && s.started && s.front
    ensures KeepsOne(m, s, t, lag, l, n, k)
  {
    FrontStep(m, s, l, n);
    FrontStep(m, t, InFront(m, s, l).out[0], k);
    assert Sensible(m, l.t);
  }

  lemma BlankTurn(m: Reader, s: State, t: State, lag: bool, l: Line, n: bool, k: bool)
    requires Lawful(m) && Rel(m, s, t, lag) && !s.fence && m.view(l.t).fence == 0
    requires !(!s.started && m.view(l.t).rule) && !s.front && m.view(l.t).blank
    ensures if s.blanks == 0 && s.last.Some? then KeepsOne(m, s, t, lag, l, n, k) else KeepsNone(m, s, t, lag, l, n, k)
  {
    assert Sensible(m, []);
  }

  /** The state in which text is read. */
  function Reading(s: State): State {
    s.(started := true, blanks := 0)
  }

  lemma TextStep(m: Reader, s: State, l: Line, n: bool)
    requires IsText(m, s, l)
    ensures Step(m, s, l, n) == AtText(m, Reading(s), l, n)
  {
  }

  /** Text stays text for the second pass. */
  lemma TextAgain(m: Reader, s: State, t: State, lag: bool, l: Line, o: Line, k: bool)
    requires Lawful(m) && Rel(m, s, t, lag) && IsText(m, s, l) && o.t == l.t
    ensures IsText(m, t, o) && Step(m, t, o, k) == AtText(m, Reading(t), o, k)
  {
  }

  lemma SentinelTurn(m: Reader, s: State, t: State, lag: bool, l: Line, n: bool, k: bool)
    requires Lawful(m) && Rel(m, s, t, lag) && IsText(m, s, l) && m.view(l.t).sentinel
    ensures if s.pruned then KeepsNone(m, s, t, lag, l, n, k) else KeepsOne(m, s, t, lag, l, n, k)
  {
    assert Sensible(m, l.t);
    TextStep(m, s, l, n);
    TextAgain(m, s, t, lag, l, m.sentinel, k);
  }

  lemma HeadingTurn(m: Reader, s: State, t: State, lag: bool, l: Line, n: bool, k: bool)
    requires Lawful(m) && Rel(m, s, t, lag) && IsHeading(m, s, l)
    ensures KeepsOne(m, s, t, lag, l, n, k)
  {
    assert Sensible(m, l.t);
    TextStep(m, s, l, n);
    TextAgain(m, s, t, lag, l, Bare(l.t), k);
  }

  lemma UnderlineTurn(m: Reader, s: State, t: State, lag: bool, l: Line, n: bool, k: bool)
    requires Lawful(m) && Rel(m, s, t, lag) && Underlines(m, s, l) && !Repushes(m, s, l)
    ensures KeepsOne(m, s, t, lag, l, n, k)
  {
    assert Sensible(m, l.t);
  }

  lemma RowStep(m: Reader, s: State, l: Line, n: bool)
    requires IsRow(m, s, l)
    ensures Step(m, s, l, n) == AtTable(m, Reading(s), l, n)
  {
  }

  /** A row stays a row for the second pass. */
  lemma RowAgain(m: Reader, s: State, t: State, lag: bool, l: Line, o: Line, k: bool)
    requires Lawful(m) && Rel(m, s, t, lag) && IsRow(m, s, l) && o.t == l.t
    ensures Step(m, t, o, k) == AtTable(m, Reading(t), o, k)
  {
  }

  lemma SeparatorTurn(m: Reader, s: State, t: State, lag: bool, l: Line, n: bool, k: bool)
    requires Lawful(m) && Rel(m, s, t, lag) && IsRow(m, s, l) && (m.view(l.t).separator || (n && k))
    ensures KeepsOne(m, s, t, lag, l, n, k)
  {
    assert Sensible(m, l.t);
    RowStep(m, s, l, n);
    RowAgain(m, s, t, lag, l, l, k);
  }

  lemma FirstRowTurn(m: Reader, s: State, t: State, lag: bool, l: Line, n: bool, k: bool)
    requires Lawful(m) && Rel(m, s, t, lag) && IsRow(m, s, l) && !m.view(l.t).separator && !n && s.prose < 1 && (s.pruned || !k)
    ensures KeepsOne(m, s, t, lag, l, n, k)
  {
    assert Sensible(m, l.t);
    RowStep(m, s, l, n);
    RowAgain(m, s, t, lag, l, l, k);
  }

  lemma MarkerAgain(m: Reader, t: State, k: bool)
    requires Lawful(m) && !t.fence && !t.front && t.started
    ensures Step(m, t, m.row, k) == AtTable(m, Reading(t), m.row, k)
  {
  }

  lemma MarkRowTurn(m: Reader, s: State, t: State, lag: bool, l: Line, n: bool, k: bool)
    requires Lawful(m) && Rel(m, s, t, lag) && MarksRow(m, s, l, n)
    ensures KeepsOne(m, s, t, lag, l, n, k)
  {
    assert Sensible(m, l.t) && Sensible(m, m.row.t);
    RowStep(m, s, l, n);
    MarkerAgain(m, t, k);
  }

  lemma HiddenRowTurn(m: Reader, s: State, t: State, lag: bool, l: Line, n: bool, k: bool)
    requires Lawful(m) && Rel(m, s, t, lag) && IsRow(m, s, l) && !m.view(l.t).separator && !n && s.prose >= 1 && s.pruned
    ensures KeepsNone(m, s, t, lag, l, n, k)
  {
    assert Sensible(m, l.t);
    RowStep(m, s, l, n);
  }

  // -------------------------------------------------------------- plain text

  /** Text that is no heading, underline or row. */
  predicate IsPlain(m: Reader, s: State, l: Line) {
    var v := m.view(l.t);
    IsText(m, s, l) && !v.sentinel && !v.comment && !v.heading && !(s.prev != [] && v.underline) && !v.bar
  }

  predicate IsProse(m: Reader, s: State, l: Line) {
    var v := m.view(l.t);
    IsPlain(m, s, l) && !v.callout && !v.metadata && !(s.allowed && v.item)
  }

  lemma PlainAgain(m: Reader, s: State, t: State, lag: bool, l: Line, k: bool)
    requires Lawful(m) && Rel(m, s, t, lag) && IsPlain(m, s, l)
    ensures IsPlain(m, t, l) && (IsProse(m, t, l) <==> IsProse(m, s, l))
  {
  }

  lemma ProseStep(m: Reader, s: State, l: Line, n: bool)
    requires IsProse(m, s, l)
    ensures Step(m, s, l, n) == AtProse(m, Reading(s), l)
  {
  }

  lemma NoteStep(m: Reader, s: State, l: Line, n: bool)
    requires IsPlain(m, s, l) && !IsProse(m, s, l)
    ensures var v, r := m.view(l.t), Reading(s);
      Step(m, s, l, n) ==
        if v.callout then Put(r.(prose := 0, pruned := false, prev := l.t), l)
        else if v.metadata then Put(r.(prose := 0, pruned := false, allowed := true, prev := l.t), l)
        else Put(r.(prev := l.t), l)
  {
  }

  lemma NoteTurn(m: Reader, s: State, t: State, lag: bool, l: Line, n: bool, k: bool)
    requires Lawful(m) && Rel(m, s, t, lag) && IsPlain(m, s, l) && !IsProse(m, s, l)
    ensures KeepsOne(m, s, t, lag, l, n, k)
  {
    assert Sensible(m, l.t);
    PlainAgain(m, s, t, lag, l, k);
    NoteStep(m, s, l, n);
    NoteStep(m, t, l, k);
  }

  lemma ProseTurn(m: Reader, s: State, t: State, lag: bool, l: Line, n: bool, k: bool)
    requires Lawful(m) && Rel(m, s, t, lag) && IsProse(m, s, l) && s.prose < 2
    ensures KeepsOne(m, s, t, lag, l, n, k)
  {
    assert Sensible(m, l.t);
    PlainAgain(m, s, t, lag, l, k);
    ProseStep(m, s, l, n);
    ProseStep(m, t, l, k);
  }

  lemma SentinelAgain(m: Reader, t: State, k: bool)
    requires Lawful(m) && !t.fence && !t.front
    ensures Step(m, t, m.sentinel, k) == AtSentinel(m, Reading(t))
  {
  }

  lemma MarkProseTurn(m: Reader, s: State, t: State, lag: bool, l: Line, n: bool, k: bool)
    requires Lawful(m) && Rel(m, s, t, lag) && IsProse(m, s, l) && s.prose >= 2 && !s.pruned
    ensures KeepsOne(m, s, t, lag, l, n, k)
  {
    assert Sensible(m, l.t) && Sensible(m, m.sentinel.t);
    ProseStep(m, s, l, n);
    SentinelAgain(m, t, k);
  }

  lemma HiddenProseTurn(m: Reader, s: State, t: State, lag: bool, l: Line, n: bool, k: bool)
    requires Lawful(m) && Rel(m, s, t, lag) && IsProse(m, s, l) && s.prose >= 2 && s.pruned
    ensures KeepsNone(m, s, t, lag, l, n, k)
  {
    assert Sensible(m, l.t);
    ProseStep(m, s, l, n);
  }

  // ---------------------------------------------------- a line pushed again

  lemma Reread(m: Reader, t: State, l: Line, q: string, k: bool)
    requires Lawful(m) && !t.fence && !t.front && t.started && t.prev != [] && q != []
    requires var v := m.view(q); v.fence == 0 && !v.sentinel && !v.comment && !v.underline
    ensures Step(m, t, Bare(q), k) == AtText(m, Reading(t), Bare(q), k)
  {
    assert Sensible(m, q);
  }

  /** The line pushed again is kept or passed over, but not marked, by a pass that knows the
      block was pruned. */
  lemma RereadQuietly(m: Reader, t: State, q: string)
    requires Lawful(m) && !t.fence && !t.front && t.started && t.pruned && t.prev != [] && q != []
    requires var v := m.view(q); v.fence == 0 && !v.sentinel && !v.comment && !v.underline
    ensures var r := Step(m, t, Bare(q), false);
      && ((r.out == [Bare(q)] && r.state.last == Some(q)) || (r.out == [] && r.state.last == t.last))
      && r.state.prev == q && !r.state.fence && !r.state.front && r.state.started
  {
    Reread(m, t, Bare(q), q, false);
  }

  lemma UnderlineStep(m: Reader, t: State, l: Line, n: bool)
    requires Underlines(m, t, l)
    ensures Step(m, t, l, n) == AtUnderline(m, Reading(t), l)
  {
  }

  /** The state after some lines, when a separator follows them or not. */
  function ReadOn(m: Reader, t: State, ls: seq<Line>, k: bool): State
    decreases |ls|
  {
    if ls == [] then t
    else ReadOn(m, Step(m, t, ls[0], if |ls| > 1 then m.view(ls[1].t).separator else k).state, ls[1..], k)
  }

  lemma ReadOnOne(m: Reader, t: State, a: Line, k: bool)
    ensures ReadOn(m, t, [a], k) == Step(m, t, a, k).state
  {
    assert [a][1..] == [];
  }

  lemma ReadOnTwo(m: Reader, t: State, a: Line, b: Line, k: bool)
    requires !m.view(b.t).separator
    ensures ReadOn(m, t, [a, b], k) == Step(m, Step(m, t, a, false).state, b, k).state
  {
    assert [a, b][1..] == [b];
    ReadOnOne(m, Step(m, t, a, false).state, b, k);
  }

  /** Two lines read one after the other. */
  lemma KeptTwo(m: Reader, t: State, a: Line, b: Line, rest: seq<Line>)
    requires !m.view(b.t).separator
    ensures var x := Step(m, t, a, false); var y := Step(m, x.state, b, NextSeparator(m, rest));
      Kept(m, t, [a, b] + rest) == x.out + (y.out + Kept(m, y.state, rest))
  {
    var ls := [a, b] + rest;
    assert ls[1..] == [b] + rest && ls[1..][1..] == rest;
  }

  lemma KeptOne(m: Reader, t: State, a: Line, rest: seq<Line>)
    ensures var x := Step(m, t, a, NextSeparator(m, rest)); Kept(m, t, [a] + rest) == x.out + Kept(m, x.state, rest)
  {
    assert ([a] + rest)[1..] == rest;
  }

  ghost predicate AfterUnderline(m: Reader, s: State, l: Line, u: State, y: Turn) {
    y.state == Reading(u).(prose := 0, pruned := false, allowed := m.view(s.prev).metadata, prev := [], last := Some(l.t))
  }

  lemma UnderlineAgain(m: Reader, s: State, l: Line, u: State, k: bool)
    requires Lawful(m) && Repushes(m, s, l) && u.prev == s.prev && !u.fence && !u.front && u.started
    ensures var y := Step(m, u, Bare(l.t), k);
      && y.out == (if u.last == Some(u.prev) then [] else [Bare(s.prev)]) + [Bare(l.t)]
      && AfterUnderline(m, s, l, u, y)
  {
    UnderlineStep(m, u, Bare(l.t), k);
  }

  lemma AfterRel(m: Reader, s: State, t: State, lag: bool, l: Line, n: bool, k: bool, u: State, y: Turn)
    requires Lawful(m) && Rel(m, s, t, lag) && Repushes(m, s, l) && AfterUnderline(m, s, l, u, y) && !u.fence && !u.front
    ensures Rel(m, Step(m, s, l, n).state, y.state, LagAfter(m, s, lag, l, n, k))
    ensures Step(m, s, l, n).out == [Bare(s.prev), Bare(l.t)]
  {
    UnderlineStep(m, s, l, n);
  }

  /** A line pushed again in step with the first pass. */
  lemma RepushTurn(m: Reader, s: State, t: State, l: Line, n: bool, rest: seq<Line>) returns (u: State)
    requires Lawful(m) && Rel(m, s, t, false) && Repushes(m, s, l)
    requires m.view(s.prev).fence == 0 && !m.view(s.prev).underline
    ensures var r := Step(m, s, l, n); Kept(m, t, r.out + rest) == r.out + Kept(m, u, rest)
    ensures Rel(m, Step(m, s, l, n).state, u, LagAfter(m, s, false, l, n, NextSeparator(m, rest)))
    ensures u == ReadOn(m, t, Step(m, s, l, n).out, NextSeparator(m, rest))
  {
    var q, k := s.prev, NextSeparator(m, rest);
    assert Sensible(m, l.t);
    RereadQuietly(m, t, q);
    var x := Step(m, t, Bare(q), false);
    UnderlineAgain(m, s, l, x.state, k);
    var y := Step(m, x.state, Bare(l.t), k);
    u := y.state;
    AfterRel(m, s, t, false, l, n, k, x.state, y);
    KeptTwo(m, t, Bare(q), Bare(l.t), rest);
    ReadOnTwo(m, t, Bare(q), Bare(l.t), k);
    Joined(x.out, y.out, Bare(q), Bare(l.t), Kept(m, u, rest));
  }

  lemma Joined(x: seq<Line>, y: seq<Line>, a: Line, b: Line, rest: seq<Line>)
    requires (x == [a] && y == [b]) || (x == [] && y == [a, b])
    ensures x + (y + rest) == [a, b] + rest
  {
  }

  /** A pass that missed the pruning marks the line. */
  lemma RereadMarks(m: Reader, t: State, q: string)
    requires Lawful(m) && !t.fence && !t.front && t.started && !t.pruned && t.prev != [] && q != [] && Hidden(m, q, t.prose, t.allowed)
    ensures var r := Step(m, t, Bare(q), false); var x := if m.view(q).bar then m.row else m.sentinel;
      && r.out == [x] && r.state.last == Some(x.t) && r.state.prev == q && !r.state.fence && !r.state.front && r.state.started
  {
    Reread(m, t, Bare(q), q, false);
  }

  /** A line pushed again out of step: the second pass adds a marker, unless the line is one. */
  lemma LaggingTurn(m: Reader, s: State, t: State, l: Line, n: bool, rest: seq<Line>) returns (u: State, extra: seq<Line>)
    requires Lawful(m) && Rel(m, s, t, true) && Repushes(m, s, l)
    ensures var r := Step(m, s, l, n); Kept(m, t, r.out + rest) == extra + (r.out + Kept(m, u, rest))
    ensures Rel(m, Step(m, s, l, n).state, u, LagAfter(m, s, true, l, n, NextSeparator(m, rest)))
    ensures u == ReadOn(m, t, Step(m, s, l, n).out, NextSeparator(m, rest))
    ensures if s.prev == m.row.t then extra == [] else |extra| == 1 && extra[0].t != [] && extra[0].t != s.prev
  {
    var q, k := s.prev, NextSeparator(m, rest);
    assert Sensible(m, l.t) && Sensible(m, q) && Sensible(m, m.row.t) && Sensible(m, m.sentinel.t);
    RereadMarks(m, t, q);
    var x := Step(m, t, Bare(q), false);
    UnderlineAgain(m, s, l, x.state, k);
    var y := Step(m, x.state, Bare(l.t), k);
    u := y.state;
    AfterRel(m, s, t, true, l, n, k, x.state, y);
    KeptTwo(m, t, Bare(q), Bare(l.t), rest);
    ReadOnTwo(m, t, Bare(q), Bare(l.t), k);
    if q == m.row.t {
      extra := [];
      Joined(x.out, y.out, Bare(q), Bare(l.t), Kept(m, u, rest));
    } else {
      extra := x.out;
    }
  }

  // --------------------------------------------------------- closing a fence

  lemma CloseStep(m: Reader, s: State, l: Line, n: bool)
    requires Closes(m, s, l)
    ensures Step(m, s, l, n) ==
      Turn(s.(fence := false, cut := false, blanks := 0, prev := l.t, last := Some(l.t)), (if s.cut then [m.stub] else []) + [Bare(l.t)])
  {
  }

  lemma CloseRel(m: Reader, s: State, t: State, lag: bool, l: Line, n: bool, k: bool)
    requires Lawful(m) && Rel(m, s, t, lag) && Closes(m, s, l)
    ensures var c := t.(fence := false, cut := false, blanks := 0, prev := l.t, last := Some(l.t));
      Rel(m, Step(m, s, l, n).state, c, LagAfter(m, s, lag, l, n, k))
  {
    assert Sensible(m, l.t);
    CloseStep(m, s, l, n);
  }

  lemma CloseTurn(m: Reader, s: State, t: State, lag: bool, l: Line, n: bool, rest: seq<Line>) returns (u: State)
    requires Lawful(m) && Rel(m, s, t, lag) && Closes(m, s, l)
    ensures var r := Step(m, s, l, n); Kept(m, t, r.out + rest) == r.out + Kept(m, u, rest)
    ensures Rel(m, Step(m, s, l, n).state, u, LagAfter(m, s, lag, l, n, NextSeparator(m, rest)))
    ensures u == ReadOn(m, t, Step(m, s, l, n).out, NextSeparator(m, rest))
  {
    var k := NextSeparator(m, rest);
    assert Sensible(m, l.t);
    CloseStep(m, s, l, n);
    u := t.(fence := false, cut := false, blanks := 0, prev := l.t, last := Some(l.t));
    CloseRel(m, s, t, lag, l, n, k);
    if s.cut {
      var x := Step(m, t, m.stub, false);
      assert x == Skip(t.(cut := true, prev := m.stub.t));
      CloseStep(m, x.state, Bare(l.t), k);
      KeptTwo(m, t, m.stub, Bare(l.t), rest);
      ReadOnTwo(m, t, m.stub, Bare(l.t), k);
      assert [m.stub] + [Bare(l.t)] == [m.stub, Bare(l.t)];
    } else {
      CloseStep(m, t, Bare(l.t), k);
      KeptOne(m, t, Bare(l.t), rest);
      ReadOnOne(m, t, Bare(l.t), k);
    }
  }

  // ---------------------------------------------------------- looking ahead

  lemma KeptFirst(m: Reader, s: State, ls: seq<Line>)
    requires ls != [] && First(m, s, ls).out != []
    ensures NextSeparator(m, Kept(m, s, ls)) <==> m.view(First(m, s, ls).out[0].t).separator
  {
  }

  /** A separator below is kept, so it is below for the second pass too. */
  lemma HeaderAhead(m: Reader, s: State, ls: seq<Line>)
    requires Lawful(m) && ls != [] && IsRow(m, s, ls[0]) && NextSeparator(m, ls[1..])
    ensures NextSeparator(m, Kept(m, First(m, s, ls).state, ls[1..]))
  {
    var l, r, rest := ls[0], First(m, s, ls).state, ls[1..];
    RowStep(m, s, l, true);
    assert Sensible(m, rest[0].t);
    RowStep(m, r, rest[0], NextSeparator(m, rest[1..]));
    KeptFirst(m, r, rest);
  }

  /** After the first row of a block something other than a separator is kept next. */
  lemma RowAhead(m: Reader, s: State, ls: seq<Line>)
    requires Lawful(m) && ls != [] && IsRow(m, s, ls[0]) && !m.view(ls[0].t).separator && !NextSeparator(m, ls[1..])
    requires s.prose < 1 && !s.pruned && Uncommented(m, s, ls)
    ensures !NextSeparator(m, Kept(m, First(m, s, ls).state, ls[1..]))
  {
    var l, r, rest := ls[0], First(m, s, ls).state, ls[1..];
    if rest != [] {
      RowStep(m, s, l, false);
      assert Sensible(m, l.t);
      assert PlainTurnOf(m, r, rest[0]);
      NextKept(m, r, rest[0], NextSeparator(m, rest[1..]));
      KeptFirst(m, r, rest);
    }
  }

  lemma NextKept(m: Reader, r: State, l: Line, n: bool)
    requires Lawful(m) && !r.fence && !r.front && r.started && r.blanks == 0 && r.prose == 1 && !r.pruned
    requires r.prev != [] && r.last == Some(r.prev) && PlainTurnOf(m, r, l) && !m.view(l.t).separator
    ensures var x := Step(m, r, l, n); x.out != [] && !m.view(x.out[0].t).separator
  {
    assert Sensible(m, l.t) && Sensible(m, []) && Sensible(m, m.sentinel.t);
  }

  lemma AheadHolds(m: Reader, s: State, ls: seq<Line>)
    requires Lawful(m) && ls != [] && Uncommented(m, s, ls)
    ensures Ahead(m, s, ls[0], NextSeparator(m, ls[1..]), NextSeparator(m, Kept(m, First(m, s, ls).state, ls[1..])))
  {
    if IsRow(m, s, ls[0]) && !m.view(ls[0].t).separator {
      if NextSeparator(m, ls[1..]) {
        HeaderAhead(m, s, ls);
      } else if s.prose < 1 && !s.pruned {
        RowAhead(m, s, ls);
      }
    }
  }

  // --------------------------------------------------------------- all turns

  lemma RowTurn(m: Reader, s: State, t: State, lag: bool, l: Line, n: bool, k: bool)
    requires Lawful(m) && Rel(m, s, t, lag) && IsRow(m, s, l) && Ahead(m, s, l, n, k)
    ensures KeepsOne(m, s, t, lag, l, n, k) || KeepsNone(m, s, t, lag, l, n, k)
  {
    if m.view(l.t).separator || n {
      SeparatorTurn(m, s, t, lag, l, n, k);
    } else if s.prose < 1 {
      FirstRowTurn(m, s, t, lag, l, n, k);
    } else if s.pruned {
      HiddenRowTurn(m, s, t, lag, l, n, k);
    } else {
      MarkRowTurn(m, s, t, lag, l, n, k);
    }
  }

  lemma PlainTurn(m: Reader, s: State, t: State, lag: bool, l: Line, n: bool, k: bool)
    requires Lawful(m) && Rel(m, s, t, lag) && IsPlain(m, s, l)
    ensures KeepsOne(m, s, t, lag, l, n, k) || KeepsNone(m, s, t, lag, l, n, k)
  {
    if !IsProse(m, s, l) {
      NoteTurn(m, s, t, lag, l, n, k);
    } else if s.prose < 2 {
      ProseTurn(m, s, t, lag, l, n, k);
    } else if s.pruned {
      HiddenProseTurn(m, s, t, lag, l, n, k);
    } else {
      MarkProseTurn(m, s, t, lag, l, n, k);
    }
  }

  lemma TextTurn(m: Reader, s: State, t: State, lag: bool, l: Line, n: bool, k: bool)
    requires Lawful(m) && Rel(m, s, t, lag) && IsText(m, s, l) && PlainTurnOf(m, s, l) && !Repushes(m, s, l) && Ahead(m, s, l, n, k)
    ensures KeepsOne(m, s, t, lag, l, n, k) || KeepsNone(m, s, t, lag, l, n, k)
  {
    if m.view(l.t).sentinel {
      SentinelTurn(m, s, t, lag, l, n, k);
    } else if IsHeading(m, s, l) {
      HeadingTurn(m, s, t, lag, l, n, k);
    } else if Underlines(m, s, l) {
      UnderlineTurn(m, s, t, lag, l, n, k);
    } else if IsRow(m, s, l) {
      RowTurn(m, s, t, lag, l, n, k);
    } else {
      PlainTurn(m, s, t, lag, l, n, k);
    }
  }

  /** Every turn but the closing of a fence and a line pushed again. */
  lemma SimpleTurn(m: Reader, s: State, t: State, lag: bool, l: Line, n: bool, k: bool)
    requires Lawful(m) && Rel(m, s, t, lag) && PlainTurnOf(m, s, l) && Ahead(m, s, l, n, k)
    requires !Closes(m, s, l) && !Repushes(m, s, l)
    ensures KeepsOne(m, s, t, lag, l, n, k) || KeepsNone(m, s, t, lag, l, n, k)
  {
    if s.fence {
      FenceTurn(m, s, t, lag, l, n, k);
    } else if m.view(l.t).fence > 0 {
      OpenTurn(m, s, t, lag, l, n, k);
    } else if !s.started && m.view(l.t).rule {
      FrontOpens(m, s, t, lag, l, n, k);
    } else if s.front {
      assert s.started;
      FrontTurn(m, s, t, lag, l, n, k);
    } else if m.view(l.t).blank {
      BlankTurn(m, s, t, lag, l, n, k);
    } else {
      TextTurn(m, s, t, lag, l, n, k);
    }
  }

  // ------------------------------------------------------------ the whole run

  /** A turn after which the second pass is still in step. */
  predicate InStep(m: Reader, s: State, lag: bool, l: Line) {
    Repushes(m, s, l) ==> m.view(s.prev).fence == 0 && !m.view(s.prev).underline && !Diverges(m, s, lag, l)
  }

  /** One turn of the first pass, and all the second pass makes of what it kept. */
  lemma AnyTurn(m: Reader, s: State, t: State, lag: bool, ls: seq<Line>) returns (u: State)
    requires Lawful(m) && Rel(m, s, t, lag) && ls != [] && Uncommented(m, s, ls) && InStep(m, s, lag, ls[0])
    ensures var r := First(m, s, ls); var rest := Kept(m, r.state, ls[1..]);
      && Kept(m, t, r.out + rest) == r.out + Kept(m, u, rest) && u == ReadOn(m, t, r.out, NextSeparator(m, rest))
      && Rel(m, r.state, u, LagAfter(m, s, lag, ls[0], NextSeparator(m, ls[1..]), NextSeparator(m, rest)))
  {
    var l, n, r := ls[0], NextSeparator(m, ls[1..]), First(m, s, ls);
    var rest := Kept(m, r.state, ls[1..]);
    if Repushes(m, s, l) && lag {
      var extra;
      u, extra := LaggingTurn(m, s, t, l, n, rest);
      Empty(r.out + Kept(m, u, rest));
    } else if Repushes(m, s, l) {
      u := RepushTurn(m, s, t, l, n, rest);
    } else if Closes(m, s, l) {
      u := CloseTurn(m, s, t, lag, l, n, rest);
    } else {
      u := SimplyKept(m, s, t, lag, ls, rest);
    }
  }

  lemma Empty(x: seq<Line>)
    ensures [] + x == x
  {
  }

  lemma SimplyKept(m: Reader, s: State, t: State, lag: bool, ls: seq<Line>, rest: seq<Line>) returns (u: State)
    requires Lawful(m) && Rel(m, s, t, lag) && ls != [] && Uncommented(m, s, ls) && !Closes(m, s, ls[0]) && !Repushes(m, s, ls[0])
    requires rest == Kept(m, First(m, s, ls).state, ls[1..])
    ensures var r := First(m, s, ls);
      && Kept(m, t, r.out + rest) == r.out + Kept(m, u, rest) && u == ReadOn(m, t, r.out, NextSeparator(m, rest))
      && Rel(m, r.state, u, LagAfter(m, s, lag, ls[0], NextSeparator(m, ls[1..]), NextSeparator(m, rest)))
  {
    AheadHolds(m, s, ls);
    SimpleTurn(m, s, t, lag, ls[0], NextSeparator(m, ls[1..]), NextSeparator(m, rest));
    u := Read(m, s, t, lag, ls[0], NextSeparator(m, ls[1..]), rest);
  }

  lemma Read(m: Reader, s: State, t: State, lag: bool, l: Line, n: bool, rest: seq<Line>) returns (u: State)
    requires KeepsOne(m, s, t, lag, l, n, NextSeparator(m, rest)) || KeepsNone(m, s, t, lag, l, n, NextSeparator(m, rest))
    ensures var r := Step(m, s, l, n);
      Kept(m, t, r.out + rest) == r.out + Kept(m, u, rest) && u == ReadOn(m, t, r.out, NextSeparator(m, rest))
    ensures Rel(m, Step(m, s, l, n).state, u, LagAfter(m, s, lag, l, n, NextSeparator(m, rest)))
  {
    var k, out := NextSeparator(m, rest), Step(m, s, l, n).out;
    if KeepsOne(m, s, t, lag, l, n, k) {
      u := Step(m, t, out[0], k).state;
      assert out == [out[0]];
      KeptOne(m, t, out[0], rest);
      ReadOnOne(m, t, out[0], k);
    } else {
      u := t;
      Empty(rest);
      Empty(Kept(m, t, rest));
    }
  }

  // ----------------------------------------------------- trailing blank lines

  lemma DropLast(ls: seq<Line>, b: Line)
    requires b.t == []
    ensures DropBlanks(ls + [b]) == DropBlanks(ls)
  {
    assert (ls + [b])[..|ls|] == ls;
  }

  ghost predicate AddsBlank(a: seq<Line>, b: seq<Line>) {
    a == b || exists x: Line :: x.t == [] && b == a + [x]
  }

  lemma AddedBlank(a: seq<Line>, b: seq<Line>)
    requires AddsBlank(a, b)
    ensures DropBlanks(a) == DropBlanks(b)
  {
    if x: Line :| x.t == [] && b == a + [x] {
      DropLast(a, x);
    }
  }

  /** A blank line at the end adds a blank line or nothing. */
  lemma {:induction false} BlankLast(m: Reader, s: State, ls: seq<Line>, b: Line)
    requires Lawful(m) && b.t == []
    ensures AddsBlank(Kept(m, s, ls), Kept(m, s, ls + [b]))
    decreases |ls|
  {
    if ls == [] {
      assert ls + [b] == [b];
      BlankOnly(m, s, b);
    } else {
      assert (ls + [b])[1..] == ls[1..] + [b];
      assert Sensible(m, []);
      assert NextSeparator(m, ls[1..] + [b]) == NextSeparator(m, ls[1..]);
      BlankLast(m, First(m, s, ls).state, ls[1..], b);
      var out, rest := First(m, s, ls).out, Kept(m, First(m, s, ls).state, ls[1..]);
      if x: Line :| x.t == [] && Kept(m, First(m, s, ls).state, ls[1..] + [b]) == rest + [x] {
        assert out + (rest + [x]) == (out + rest) + [x];
      }
    }
  }

  lemma BlankOnly(m: Reader, s: State, b: Line)
    requires Lawful(m) && b.t == []
    ensures AddsBlank([], Kept(m, s, [b]))
  {
    assert Sensible(m, []);
    var r := Step(m, s, b, false);
    assert Kept(m, s, [b]) == r.out + Kept(m, r.state, []);
    if r.out != [] {
      assert r.out == [r.out[0]] && r.out[0].t == [];
      assert Kept(m, s, [b]) == [] + [r.out[0]];
    }
  }

  lemma DropStep(m: Reader, s: State, front: seq<Line>, b: Line, d: seq<Line>)
    requires Lawful(m) && b.t == [] && DropBlanks(Kept(m, s, d)) == DropBlanks(Kept(m, s, front))
    ensures DropBlanks(Kept(m, s, d)) == DropBlanks(Kept(m, s, front + [b]))
  {
    BlankLast(m, s, front, b);
    AddedBlank(Kept(m, s, front), Kept(m, s, front + [b]));
  }

  lemma DropsTo(ls: seq<Line>)
    requires ls != [] && ls[|ls| - 1].t == []
    ensures DropBlanks(ls) == DropBlanks(ls[..|ls| - 1])
  {
  }

  lemma Snoc<T>(ls: seq<T>)
    requires ls != []
    ensures ls == ls[..|ls| - 1] + [ls[|ls| - 1]]
  {
  }

  /** Dropping the trailing blanks before a pass or after it is the same. */
  lemma {:induction false} DropBefore(m: Reader, s: State, ls: seq<Line>)
    requires Lawful(m)
    ensures DropBlanks(Kept(m, s, DropBlanks(ls))) == DropBlanks(Kept(m, s, ls))
  {
    if ls != [] && ls[|ls| - 1].t == [] {
      DropsTo(ls);
      Snoc(ls);
      DropBefore(m, s, ls[..|ls| - 1]);
      DropStep(m, s, ls[..|ls| - 1], ls[|ls| - 1], DropBlanks(ls));
    } else {
      assert DropBlanks(ls) == ls;
    }
  }
}
