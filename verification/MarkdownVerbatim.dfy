/** When a pass gives its lines back, told turn by turn. */
module MarkdownVerbatim {
  import opened Options
  import opened Collections
  import opened Markdown
  import opened MarkdownPasses

  // ------------------------------------------- equality up to trailing blanks

  ghost predicate Same(a: seq<Line>, b: seq<Line>) {
    DropBlanks(a) == DropBlanks(b)
  }

  lemma {:induction false} DropFront(c: Line, a: seq<Line>)
    ensures DropBlanks([c] + a) == if DropBlanks(a) == [] then DropBlanks([c]) else [c] + DropBlanks(a)
    decreases |a|
  {
    if a == [] {
      assert [c] + a == [c];
    } else if a[|a| - 1].t == [] {
      var front := a[..|a| - 1];
      DropFront(c, front);
      DropsTo(a);
      Snoc(a);
      Regroup([c], front, [a[|a| - 1]]);
      DropLast([c] + front, a[|a| - 1]);
    } else {
      assert ([c] + a)[|[c] + a| - 1] == a[|a| - 1];
    }
  }

  /** What starts with a filled line is only matched by what starts with that line. */
  lemma SameHead(c: Line, a: seq<Line>, b: seq<Line>)
    requires c.t != [] && Same([c] + a, b)
    ensures b != [] && b[0] == c && Same(a, b[1..])
  {
    DropFront(c, a);
    assert DropBlanks([c]) == [c];
    if b != [] {
      assert b == [b[0]] + b[1..];
      DropFront(b[0], b[1..]);
      assert DropBlanks(a) == DropBlanks([c] + a)[1..];
      assert DropBlanks([b[0]]) == if b[0].t == [] then [] else [b[0]];
    }
  }

  lemma SameTail(c: Line, a: seq<Line>, b: seq<Line>)
    requires Same([c] + a, [c] + b)
    ensures Same(a, b)
  {
    DropFront(c, a);
    DropFront(c, b);
    assert |DropBlanks([c])| <= 1;
    var x, y := DropBlanks([c] + a), DropBlanks([c] + b);
    if DropBlanks(a) != [] && DropBlanks(b) != [] {
      assert x[1..] == DropBlanks(a) && y[1..] == DropBlanks(b);
    }
  }

  lemma {:induction false} SameCancel(p: seq<Line>, a: seq<Line>, b: seq<Line>)
    ensures Same(p + a, p + b) <==> Same(a, b)
  {
    if p == [] {
      Empty(a);
      Empty(b);
    } else {
      SameCancel(p[1..], a, b);
      assert p == [p[0]] + p[1..];
      Regroup([p[0]], p[1..], a);
      Regroup([p[0]], p[1..], b);
      if Same(p + a, p + b) {
        SameTail(p[0], p[1..] + a, p[1..] + b);
      }
      if Same(p[1..] + a, p[1..] + b) {
        DropFront(p[0], p[1..] + a);
        DropFront(p[0], p[1..] + b);
      }
    }
  }

  lemma SameCons(c: Line, a: seq<Line>, d: Line, b: seq<Line>)
    requires c.t != []
    ensures Same([c] + a, [d] + b) <==> c == d && Same(a, b)
  {
    if Same([c] + a, [d] + b) {
      SameHead(c, a, [d] + b);
      assert ([d] + b)[1..] == b;
    }
    if c == d && Same(a, b) {
      SameCancel([c], a, b);
    }
  }

  // ------------------------------------------------- one underline too many

  /** Between two turns, with the underline `q` as the line before, or none. */
  ghost predicate Between(x: State, q: string) {
    && !x.fence && !x.front && x.started && x.prose <= 1
    && ((x.prev == [] && x.prose == 0) || (x.prev == q && x.last == Some(q)))
  }

  lemma UnderlineKept(m: Reader, x: State, q: string, n: bool)
    requires Lawful(m) && m.view(q).underline && Between(x, q)
    ensures var r := Step(m, x, Bare(q), n); r.out == [Bare(q)] && Between(r.state, q)
  {
    assert Sensible(m, q);
    if x.prev == [] {
      assert IsProse(m, x, Bare(q));
      ProseStep(m, x, Bare(q), n);
    } else {
      UnderlineStep(m, x, Bare(q), n);
    }
  }

  /** One underline too many is never caught up with. */
  lemma {:induction false} OneTooMany(m: Reader, x: State, q: string, rest: seq<Line>)
    requires Lawful(m) && m.view(q).underline && Between(x, q)
    ensures !Same([Bare(q)] + Kept(m, x, rest), rest)
    decreases |rest|
  {
    assert Sensible(m, q);
    if Same([Bare(q)] + Kept(m, x, rest), rest) {
      SameHead(Bare(q), Kept(m, x, rest), rest);
      var n := NextSeparator(m, rest[1..]);
      UnderlineKept(m, x, q, n);
      OneTooMany(m, Step(m, x, Bare(q), n).state, q, rest[1..]);
    }
  }

  // ------------------------------------------------------------ turn by turn

  predicate AllBlank(ls: seq<Line>) {
    forall i :: 0 <= i < |ls| ==> ls[i].t == []
  }

  /** Only blank lines are left; or the line is kept as it is; or it is left out and the next
      turn brings it back: a pruned line by its underline, a stub by its closing fence. */
  predicate Verbatim(m: Reader, s: State, ls: seq<Line>)
    decreases |ls|
  {
    if AllBlank(ls) then true
    else
      var r := First(m, s, ls);
      if r.out == [ls[0]] then Verbatim(m, r.state, ls[1..])
      else
        && r.out == [] && |ls| >= 2 && First(m, r.state, ls[1..]).out == [ls[0], ls[1]]
        && Verbatim(m, First(m, r.state, ls[1..]).state, ls[2..])
  }

  /** What holds in every state a pass comes to. */
  ghost predicate Steady(s: State) {
    && (s.pruned ==> s.last.Some?) && (s.front || !s.started ==> s.prose == 0)
    && (!s.fence && s.prose >= 1 ==> s.prev != [])
  }

  lemma TextSteady(m: Reader, s: State, l: Line, n: bool)
    requires Lawful(m) && Steady(s) && IsText(m, s, l)
    ensures Steady(Step(m, s, l, n).state)
  {
    assert Sensible(m, l.t);
    TextStep(m, s, l, n);
  }

  lemma StepSteady(m: Reader, s: State, l: Line, n: bool)
    requires Lawful(m) && Steady(s)
    ensures Steady(Step(m, s, l, n).state)
  {
    if IsText(m, s, l) {
      TextSteady(m, s, l, n);
    } else {
      OtherSteady(m, s, l, n);
    }
  }

  lemma OtherSteady(m: Reader, s: State, l: Line, n: bool)
    requires Lawful(m) && Steady(s) && !IsText(m, s, l)
    ensures Steady(Step(m, s, l, n).state)
  {
    assert Sensible(m, l.t);
  }

  lemma {:induction false} ReadSteady(m: Reader, s: State, ls: seq<Line>, k: bool)
    requires Lawful(m) && Steady(s)
    ensures Steady(ReadOn(m, s, ls, k))
    decreases |ls|
  {
    if ls != [] {
      var n := if |ls| > 1 then m.view(ls[1].t).separator else k;
      StepSteady(m, s, ls[0], n);
      ReadSteady(m, Step(m, s, ls[0], n).state, ls[1..], k);
    }
  }

  // ------------------------------------------------------------- blank lines

  lemma {:induction false} BlankDrops(ls: seq<Line>)
    ensures DropBlanks(ls) == [] <==> AllBlank(ls)
  {
    if ls != [] && ls[|ls| - 1].t == [] {
      DropsTo(ls);
      BlankDrops(ls[..|ls| - 1]);
    }
  }

  lemma BlankOut(m: Reader, s: State, l: Line, n: bool)
    requires Lawful(m) && l.t == []
    ensures AllBlank(Step(m, s, l, n).out)
  {
    assert Sensible(m, []);
  }

  lemma {:induction false} BlankKept(m: Reader, s: State, ls: seq<Line>)
    requires Lawful(m) && AllBlank(ls)
    ensures AllBlank(Kept(m, s, ls))
    decreases |ls|
  {
    if ls != [] {
      BlankOut(m, s, ls[0], NextSeparator(m, ls[1..]));
      BlankKept(m, First(m, s, ls).state, ls[1..]);
    }
  }

  /** Lines that are not all blank are matched from the front. */
  lemma SameFirst(x: Line, a: seq<Line>, ls: seq<Line>)
    requires !AllBlank(ls) && Same([x] + a, ls)
    ensures x == ls[0] && Same(a, ls[1..])
  {
    var l, rest := ls[0], ls[1..];
    assert ls == [l] + rest;
    BlankDrops(ls);
    BlankDrops(rest);
    DropFront(x, a);
    DropFront(l, rest);
    if DropBlanks(rest) == [] {
      assert l.t != [];
      assert DropBlanks([l]) == [l];
      SameCons(l, rest, x, a);
    } else {
      var d := DropBlanks(ls);
      assert d == [l] + DropBlanks(rest) && |d| >= 2;
      assert |DropBlanks([x])| <= 1;
      assert d[0] == l && d[1..] == DropBlanks(rest);
      assert d == [x] + DropBlanks(a);
    }
  }

  // ---------------------------------------------------- a line left out of a fence

  /** In a fence that already left a line out. */
  ghost predicate CutFence(s: State) {
    s.fence && s.cut && s.kept >= 2
  }

  lemma CutStep(m: Reader, s: State, l: Line, n: bool)
    requires CutFence(s)
    ensures var r := Step(m, s, l, n);
      if Closes(m, s, l) then r.out == [m.stub, Bare(l.t)]
      else r.out == [] && CutFence(r.state) && r.state.mark == s.mark && r.state.length == s.length
  {
  }

  lemma OnlyBlank(a: seq<Line>)
    requires Same([], a)
    ensures AllBlank(a)
  {
    BlankDrops(a);
  }

  /** Two lines match two lines. */
  lemma SameTwo(x: Line, y: Line, k: seq<Line>, a: Line, b: Line, more: seq<Line>)
    requires x.t != [] && y.t != [] && Same([x, y] + k, [a] + ([b] + more))
    ensures a == x && b == y && Same(k, more)
  {
    assert [x, y] + k == [x] + ([y] + k);
    SameCons(x, [y] + k, a, [b] + more);
    SameCons(y, k, b, more);
  }

  /** Two lines left out do not come back. */
  lemma {:induction false} TwoLeftOut(m: Reader, s: State, a: Line, b: Line, rest: seq<Line>, more: seq<Line>)
    requires Lawful(m) && CutFence(s) && !Closes(m, s, b) && Same(Kept(m, s, rest), [a] + ([b] + more))
    ensures AllBlank([a] + ([b] + more))
    decreases |rest|
  {
    if rest == [] {
      OnlyBlank([a] + ([b] + more));
    } else {
      var l, n := rest[0], NextSeparator(m, rest[1..]);
      CutStep(m, s, l, n);
      var r := First(m, s, rest);
      if Closes(m, s, l) {
        assert Sensible(m, l.t);
        SameTwo(m.stub, Bare(l.t), Kept(m, r.state, rest[1..]), a, b, more);
        assert false;
      } else {
        Empty(Kept(m, r.state, rest[1..]));
        TwoLeftOut(m, r.state, a, b, rest[1..], more);
      }
    }
  }

  /** A line left out comes back as the stub of the fence that closes next. */
  lemma StubComesBack(m: Reader, s: State, a: Line, rest: seq<Line>)
    requires Lawful(m) && CutFence(s) && Same(Kept(m, s, rest), [a] + rest) && !AllBlank([a] + rest)
    ensures rest != [] && First(m, s, rest).out == [a, rest[0]]
  {
    if rest == [] {
      OnlyBlank([a] + rest);
    } else {
      var l, n := rest[0], NextSeparator(m, rest[1..]);
      CutStep(m, s, l, n);
      var r := First(m, s, rest);
      assert rest == [l] + rest[1..];
      if Closes(m, s, l) {
        assert Sensible(m, l.t);
        SameTwo(m.stub, Bare(l.t), Kept(m, r.state, rest[1..]), a, l, rest[1..]);
      } else {
        Empty(Kept(m, r.state, rest[1..]));
        TwoLeftOut(m, r.state, a, l, rest[1..], rest[1..]);
      }
    }
  }

  // ------------------------------------------------------ a blank line left out

  /** Between paragraphs. */
  ghost predicate Clear(s: State) {
    !s.fence && !s.front && s.prev == [] && s.prose == 0 && !s.pruned
  }

  ghost predicate IsComment(m: Reader, l: Line) {
    m.view(l.t).comment && !m.view(l.t).sentinel
  }

  /** Between paragraphs a line is a blank one, a comment, or kept. */
  lemma ClearStep(m: Reader, s: State, l: Line, n: bool)
    requires Lawful(m) && Clear(s)
    ensures var r := Step(m, s, l, n);
      if l.t == [] then
        && Clear(r.state) && r.state.blanks >= 1 && r.state.last.Some? == s.last.Some?
        && (r.out == [] || r.out == [BLANK]) && (s.last.None? || s.blanks >= 1 ==> r.out == [])
      else if IsComment(m, l) then Clear(r.state) && r.out == []
      else |r.out| == 1 && r.out[0].t != [] && !IsComment(m, r.out[0])
  {
    assert Sensible(m, l.t) && Sensible(m, []) && Sensible(m, m.sentinel.t);
  }

  lemma BlankFront(bl: seq<Line>, c: Line, more: seq<Line>)
    requires AllBlank(bl) && c.t != []
    ensures !AllBlank(bl + ([c] + more))
  {
    assert (bl + ([c] + more))[|bl|] == c;
  }

  lemma CommentNotKept(x: Line, k: seq<Line>, bl: seq<Line>, c: Line, more: seq<Line>)
    requires AllBlank(bl) && c.t != [] && x != c && (bl != [] && x.t == [] ==> !Same(k, bl[1..] + ([c] + more)))
    ensures !Same([x] + k, bl + ([c] + more))
  {
    var w := bl + ([c] + more);
    BlankFront(bl, c, more);
    assert bl != [] ==> w[1..] == bl[1..] + ([c] + more);
    if Same([x] + k, w) {
      SameFirst(x, k, w);
    }
  }

  /** A comment left out is never caught up with. */
  lemma {:induction false} CommentGone(m: Reader, s: State, rest: seq<Line>, bl: seq<Line>, c: Line, more: seq<Line>)
    requires Lawful(m) && Clear(s) && AllBlank(bl) && IsComment(m, c) && c.t != []
    ensures !Same(Kept(m, s, rest), bl + ([c] + more))
    decreases |rest|
  {
    if rest == [] {
      BlankFront(bl, c, more);
      BlankDrops(bl + ([c] + more));
    } else {
      var l, tail := rest[0], rest[1..];
      assert rest == [l] + tail;
      ClearStep(m, s, l, NextSeparator(m, tail));
      var r := KeptSplit(m, s, l, tail);
      if r.out == [] {
        CommentGone(m, r.state, tail, bl, c, more);
      } else {
        if bl != [] && l.t == [] {
          CommentGone(m, r.state, tail, bl[1..], c, more);
        }
        assert r.out == [r.out[0]];
        CommentNotKept(r.out[0], Kept(m, r.state, tail), bl, c, more);
      }
    }
  }

  lemma BlankNotFilled(x: Line, k: seq<Line>, bl: seq<Line>, rest: seq<Line>)
    requires x.t != [] && bl != [] && AllBlank(bl)
    ensures !Same([x] + k, bl + rest)
  {
    if Same([x] + k, bl + rest) {
      SameHead(x, k, bl + rest);
    }
  }

  /** What is kept of the first line of several, and of the others. */
  lemma KeptSplit(m: Reader, s: State, l: Line, tail: seq<Line>) returns (r: Turn)
    ensures r == Step(m, s, l, NextSeparator(m, tail)) && Kept(m, s, [l] + tail) == r.out + Kept(m, r.state, tail)
    ensures r.out == [] ==> Kept(m, s, [l] + tail) == Kept(m, r.state, tail)
  {
    KeptOne(m, s, l, tail);
    r := Step(m, s, l, NextSeparator(m, tail));
    if r.out == [] {
      Empty(Kept(m, r.state, tail));
    }
  }

  lemma FilledAfterBlanks(m: Reader, s: State, l: Line, tail: seq<Line>, bl: seq<Line>)
    requires Lawful(m) && Clear(s) && bl != [] && AllBlank(bl) && l.t != []
    ensures !Same(Kept(m, s, [l] + tail), bl + ([l] + tail))
  {
    ClearStep(m, s, l, NextSeparator(m, tail));
    var r := KeptSplit(m, s, l, tail);
    if IsComment(m, l) {
      CommentGone(m, r.state, tail, bl, l, tail);
    } else {
      assert r.out == [r.out[0]];
      BlankNotFilled(r.out[0], Kept(m, r.state, tail), bl, [l] + tail);
    }
  }

  lemma BlankPassed(m: Reader, s: State, l: Line, tail: seq<Line>) returns (t: State)
    requires Lawful(m) && Clear(s) && (s.last.None? || s.blanks >= 1) && l.t == []
    ensures Clear(t) && t.blanks >= 1 && Kept(m, s, [l] + tail) == Kept(m, t, tail)
  {
    ClearStep(m, s, l, NextSeparator(m, tail));
    var r := KeptSplit(m, s, l, tail);
    t := r.state;
  }

  /** Blank lines left out come back only where all lines are blank. */
  lemma {:induction false} BlanksGone(m: Reader, s: State, rest: seq<Line>, bl: seq<Line>)
    requires Lawful(m) && Clear(s) && (s.last.None? || s.blanks >= 1) && bl != [] && AllBlank(bl)
    requires Same(Kept(m, s, rest), bl + rest)
    ensures AllBlank(rest)
    decreases |rest|
  {
    if rest != [] {
      var l, tail := rest[0], rest[1..];
      assert rest == [l] + tail;
      if l.t != [] {
        FilledAfterBlanks(m, s, l, tail, bl);
      }
      var t := BlankPassed(m, s, l, tail);
      Regroup(bl, [l], tail);
      BlanksGone(m, t, tail, bl + [l]);
    }
  }

  // ------------------------------------------------------- a text line left out

  /** Outside fences the line `a` was left out, and nothing was kept since. */
  ghost predicate Owes(m: Reader, s: State, a: Line) {
    && Steady(s) && !s.fence && !s.front && s.started && a.t != []
    && (IsComment(m, a) || (s.pruned && s.blanks == 0 && (m.view(a.t).sentinel || Hidden(m, a.t, s.prose, s.allowed))))
  }

  /** A row kept as a table head although one like it was left out. */
  ghost predicate HeadAgain(m: Reader, a: Line, l: Line, n: bool, r: Turn) {
    n && r.out == [l] && l == a && !m.view(a.t).separator && !r.state.fence && !r.state.front && r.state.started
  }

  /** What a turn can do in such a state. */
  ghost predicate OwesTurn(m: Reader, a: Line, l: Line, n: bool, r: Turn) {
    || (r.out == [] && Owes(m, r.state, a) && !m.view(l.t).underline && !m.view(l.t).separator)
    || (|r.out| == 1 && (r.out[0] != a || HeadAgain(m, a, l, n, r)))
    || (|r.out| == 2 && r.out[0].t != [] && r.out[1] == Bare(l.t) && m.view(l.t).underline)
  }

  lemma OwesOther(m: Reader, s: State, a: Line, l: Line, n: bool)
    requires Lawful(m) && Owes(m, s, a) && !IsText(m, s, l)
    ensures OwesTurn(m, a, l, n, Step(m, s, l, n))
  {
    assert Sensible(m, l.t) && Sensible(m, a.t) && Sensible(m, []);
  }

  lemma OwesMarked(m: Reader, s: State, a: Line, l: Line, n: bool)
    requires Lawful(m) && Owes(m, s, a) && IsText(m, s, l) && (m.view(l.t).sentinel || m.view(l.t).comment || m.view(l.t).heading)
    ensures OwesTurn(m, a, l, n, Step(m, s, l, n))
  {
    assert Sensible(m, l.t) && Sensible(m, a.t) && Sensible(m, m.sentinel.t);
    TextStep(m, s, l, n);
  }

  lemma OwesUnderline(m: Reader, s: State, a: Line, l: Line, n: bool)
    requires Lawful(m) && Owes(m, s, a) && Underlines(m, s, l)
    ensures OwesTurn(m, a, l, n, Step(m, s, l, n))
  {
    assert Sensible(m, l.t) && Sensible(m, a.t);
    UnderlineStep(m, s, l, n);
  }

  lemma OwesRow(m: Reader, s: State, a: Line, l: Line, n: bool)
    requires Lawful(m) && Owes(m, s, a) && IsRow(m, s, l)
    ensures OwesTurn(m, a, l, n, Step(m, s, l, n))
  {
    assert Sensible(m, l.t) && Sensible(m, a.t) && Sensible(m, m.row.t);
    RowStep(m, s, l, n);
  }

  lemma OwesPlain(m: Reader, s: State, a: Line, l: Line, n: bool)
    requires Lawful(m) && Owes(m, s, a) && IsPlain(m, s, l)
    ensures OwesTurn(m, a, l, n, Step(m, s, l, n))
  {
    assert Sensible(m, l.t) && Sensible(m, a.t) && Sensible(m, m.sentinel.t);
    if IsProse(m, s, l) {
      ProseStep(m, s, l, n);
    } else {
      NoteStep(m, s, l, n);
    }
  }

  lemma OwesStep(m: Reader, s: State, a: Line, l: Line, n: bool)
    requires Lawful(m) && Owes(m, s, a)
    ensures OwesTurn(m, a, l, n, Step(m, s, l, n))
  {
    if !IsText(m, s, l) {
      OwesOther(m, s, a, l, n);
    } else if m.view(l.t).sentinel || m.view(l.t).comment || m.view(l.t).heading {
      OwesMarked(m, s, a, l, n);
    } else if Underlines(m, s, l) {
      OwesUnderline(m, s, a, l, n);
    } else if IsRow(m, s, l) {
      OwesRow(m, s, a, l, n);
    } else {
      OwesPlain(m, s, a, l, n);
    }
  }

  lemma SeparatorKept(m: Reader, s: State, ls: seq<Line>)
    requires Lawful(m) && !s.fence && !s.front && NextSeparator(m, ls)
    ensures Kept(m, s, ls) == [ls[0]] + Kept(m, First(m, s, ls).state, ls[1..])
  {
    assert Sensible(m, ls[0].t);
    RowStep(m, s, ls[0], NextSeparator(m, ls[1..]));
  }

  /** Where a table head was kept, a separator follows, and was not left out. */
  lemma HeadThenSeparator(m: Reader, s: State, rest: seq<Line>, b: Line, more: seq<Line>)
    requires Lawful(m) && !s.fence && !s.front && NextSeparator(m, rest) && !m.view(b.t).separator
    ensures !Same(Kept(m, s, rest), [b] + more)
  {
    SeparatorKept(m, s, rest);
    assert Sensible(m, rest[0].t);
    SameCons(rest[0], Kept(m, First(m, s, rest).state, rest[1..]), b, more);
  }

  lemma OneKept(x: Line, k: seq<Line>, a: Line, more: seq<Line>)
    requires a.t != [] && Same([x] + k, [a] + more)
    ensures x == a && Same(k, more)
  {
    SameCons(a, more, x, k);
  }

  /** Two text lines left out do not come back. */
  lemma {:induction false} TwoOwed(m: Reader, s: State, a: Line, b: Line, rest: seq<Line>, more: seq<Line>)
    requires Lawful(m) && Owes(m, s, a) && !m.view(b.t).underline && !m.view(b.t).separator
    ensures !Same(Kept(m, s, rest), [a] + ([b] + more))
    decreases |rest|
  {
    var w := [a] + ([b] + more);
    if rest == [] {
      BlankDrops(w);
      assert w[0] == a;
    } else {
      var l, tail := rest[0], rest[1..];
      var n := NextSeparator(m, tail);
      OwesStep(m, s, a, l, n);
      var r := First(m, s, rest);
      var k := Kept(m, r.state, tail);
      if r.out == [] {
        Empty(k);
        TwoOwed(m, r.state, a, b, tail, more);
      } else {
        OwedMismatch(m, r, a, b, l, n, tail, more);
      }
    }
  }

  lemma OwedMismatch(m: Reader, r: Turn, a: Line, b: Line, l: Line, n: bool, tail: seq<Line>, more: seq<Line>)
    requires Lawful(m) && a.t != [] && OwesTurn(m, a, l, n, r) && r.out != [] && n == NextSeparator(m, tail)
    requires !m.view(b.t).underline && !m.view(b.t).separator
    ensures !Same(r.out + Kept(m, r.state, tail), [a] + ([b] + more))
  {
    var k := Kept(m, r.state, tail);
    if Same(r.out + k, [a] + ([b] + more)) {
      if |r.out| == 1 {
        assert r.out == [r.out[0]];
        OneKept(r.out[0], k, a, [b] + more);
        HeadThenSeparator(m, r.state, tail, b, more);
        assert false;
      } else {
        assert Sensible(m, l.t);
        assert r.out == [r.out[0], r.out[1]];
        SameTwo(r.out[0], r.out[1], k, a, b, more);
        assert false;
      }
    }
  }

  lemma BroughtBack(m: Reader, r: Turn, a: Line, l: Line, n: bool, tail: seq<Line>)
    requires Lawful(m) && a.t != [] && OwesTurn(m, a, l, n, r) && n == NextSeparator(m, tail)
    requires Same(r.out + Kept(m, r.state, tail), [a] + ([l] + tail))
    ensures r.out == [a, l]
  {
    var k := Kept(m, r.state, tail);
    if r.out == [] {
      Empty(k);
      TwoOwed(m, r.state, a, l, tail, tail);
    } else if |r.out| == 1 {
      OwedOnce(m, r, a, l, n, tail);
    } else {
      assert Sensible(m, l.t);
      assert r.out == [r.out[0], r.out[1]];
      SameTwo(r.out[0], r.out[1], k, a, l, tail);
    }
  }

  lemma NextBringsBack(m: Reader, s: State, a: Line, l: Line, tail: seq<Line>)
    requires Lawful(m) && Owes(m, s, a) && Same(Kept(m, s, [l] + tail), [a] + ([l] + tail))
    ensures Step(m, s, l, NextSeparator(m, tail)).out == [a, l]
  {
    var r := KeptSplit(m, s, l, tail);
    OwesStep(m, s, a, l, NextSeparator(m, tail));
    BroughtBack(m, r, a, l, NextSeparator(m, tail), tail);
  }

  /** A text line left out comes back with the underline right below it. */
  lemma UnderlineBringsBack(m: Reader, s: State, a: Line, rest: seq<Line>)
    requires Lawful(m) && Owes(m, s, a) && Same(Kept(m, s, rest), [a] + rest)
    ensures rest != [] && First(m, s, rest).out == [a, rest[0]]
  {
    if rest == [] {
      OnlyBlank([a] + rest);
    } else {
      assert rest == [rest[0]] + rest[1..];
      NextBringsBack(m, s, a, rest[0], rest[1..]);
    }
  }

  lemma OwedOnce(m: Reader, r: Turn, a: Line, l: Line, n: bool, tail: seq<Line>)
    requires Lawful(m) && a.t != [] && OwesTurn(m, a, l, n, r) && |r.out| == 1 && n == NextSeparator(m, tail)
    ensures !Same(r.out + Kept(m, r.state, tail), [a] + ([l] + tail))
  {
    var k := Kept(m, r.state, tail);
    if Same(r.out + k, [a] + ([l] + tail)) {
      assert r.out == [r.out[0]];
      OneKept(r.out[0], k, a, [l] + tail);
      HeadThenSeparator(m, r.state, tail, l, tail);
      assert false;
    }
  }

  // ---------------------------------------------------------------- the theorem

  /** What a turn that keeps nothing leaves behind. */
  ghost predicate LeftOut(m: Reader, l: Line, t: State) {
    CutFence(t) || (l.t == [] && Clear(t) && (t.last.None? || t.blanks >= 1)) || Owes(m, t, l)
  }

  lemma TextLeftOut(m: Reader, s: State, l: Line, n: bool)
    requires Lawful(m) && Steady(s) && IsText(m, s, l) && Step(m, s, l, n).out == []
    ensures Owes(m, Step(m, s, l, n).state, l)
  {
    assert Sensible(m, l.t);
    TextSteady(m, s, l, n);
    TextStep(m, s, l, n);
  }

  lemma StepLeftOut(m: Reader, s: State, l: Line, n: bool)
    requires Lawful(m) && Steady(s) && Step(m, s, l, n).out == []
    ensures LeftOut(m, l, Step(m, s, l, n).state)
  {
    if IsText(m, s, l) {
      TextLeftOut(m, s, l, n);
    } else {
      assert Sensible(m, l.t);
    }
  }

  /** The next turn brings it back. */
  lemma ComesBack(m: Reader, t: State, l: Line, rest: seq<Line>)
    requires Lawful(m) && LeftOut(m, l, t) && Same(Kept(m, t, rest), [l] + rest) && !AllBlank([l] + rest)
    ensures rest != [] && First(m, t, rest).out == [l, rest[0]]
  {
    if CutFence(t) {
      StubComesBack(m, t, l, rest);
    } else if Owes(m, t, l) {
      UnderlineBringsBack(m, t, l, rest);
    } else {
      BlanksGone(m, t, rest, [l]);
      assert false;
    }
  }

  lemma TwoOut(m: Reader, s: State, l: Line, n: bool)
    requires Lawful(m) && |Step(m, s, l, n).out| >= 2
    ensures var r := Step(m, s, l, n);
      if s.fence then Closes(m, s, l) && r.out == [m.stub, Bare(l.t)] else Repushes(m, s, l) && r.out == [Bare(s.prev), Bare(l.t)] && Between(r.state, l.t)
  {
    if IsText(m, s, l) {
      TextStep(m, s, l, n);
    }
  }

  /** A turn that keeps two lines has the first to spare. */
  lemma TwoKept(m: Reader, s: State, l: Line, r: Turn, k: seq<Line>, rest: seq<Line>)
    requires Lawful(m) && |r.out| >= 2 && r == Step(m, s, l, NextSeparator(m, rest)) && k == Kept(m, r.state, rest)
    ensures !Same(r.out + k, [l] + rest)
  {
    TwoOut(m, s, l, NextSeparator(m, rest));
    if Same(r.out + k, [l] + rest) {
      if s.fence {
        Unspare(m.stub, Bare(l.t), k, l, rest);
        assert false;
      } else {
        Unspare(Bare(s.prev), Bare(l.t), k, l, rest);
        OneTooMany(m, r.state, l.t, rest);
        assert false;
      }
    }
  }

  lemma Unspare(x: Line, y: Line, k: seq<Line>, l: Line, rest: seq<Line>)
    requires x.t != [] && Same([x, y] + k, [l] + rest)
    ensures l == x && Same([y] + k, rest)
  {
    assert [x, y] + k == [x] + ([y] + k);
    SameCons(x, [y] + k, l, rest);
  }

  /** A pass gives its lines back exactly when it does so turn by turn. */
  lemma {:induction false} VerbatimIff(m: Reader, s: State, ls: seq<Line>)
    requires Lawful(m) && Steady(s)
    ensures Same(Kept(m, s, ls), ls) <==> Verbatim(m, s, ls)
    decreases |ls|
  {
    BlankDrops(ls);
    BlankDrops(Kept(m, s, ls));
    if AllBlank(ls) {
      BlankKept(m, s, ls);
    } else {
      var l, rest := ls[0], ls[1..];
      var r := First(m, s, ls);
      StepSteady(m, s, l, NextSeparator(m, rest));
      if |r.out| == 1 {
        KeptIff(m, s, ls);
        if r.out == [l] {
          VerbatimIff(m, r.state, rest);
        }
      } else if r.out == [] {
        LeftOutIff(m, s, ls);
        if rest != [] && First(m, r.state, rest).out == [l, rest[0]] {
          StepSteady(m, r.state, rest[0], NextSeparator(m, rest[1..]));
          VerbatimIff(m, First(m, r.state, rest).state, rest[1..]);
          assert rest[1..] == ls[2..];
        }
      } else {
        assert ls == [l] + rest;
        TwoKept(m, s, l, r, Kept(m, r.state, rest), rest);
      }
    }
  }

  lemma KeptIff(m: Reader, s: State, ls: seq<Line>)
    requires !AllBlank(ls) && |First(m, s, ls).out| == 1
    ensures Same(Kept(m, s, ls), ls) <==> First(m, s, ls).out == [ls[0]] && Same(Kept(m, First(m, s, ls).state, ls[1..]), ls[1..])
  {
    var r := First(m, s, ls);
    var k := Kept(m, r.state, ls[1..]);
    assert r.out == [r.out[0]] && ls == [ls[0]] + ls[1..];
    if Same(Kept(m, s, ls), ls) {
      SameFirst(r.out[0], k, ls);
    } else if r.out == [ls[0]] {
      SameCancel([ls[0]], k, ls[1..]);
    }
  }

  lemma TwoBack(m: Reader, t: State, l: Line, rest: seq<Line>)
    requires rest != [] && First(m, t, rest).out == [l, rest[0]]
    ensures Same(Kept(m, t, rest), [l] + rest) <==> Same(Kept(m, First(m, t, rest).state, rest[1..]), rest[1..])
  {
    var k := Kept(m, First(m, t, rest).state, rest[1..]);
    assert [l] + rest == [l, rest[0]] + rest[1..];
    SameCancel([l, rest[0]], k, rest[1..]);
  }

  lemma LeftOutIff(m: Reader, s: State, ls: seq<Line>)
    requires Lawful(m) && Steady(s) && !AllBlank(ls) && First(m, s, ls).out == []
    ensures var t := First(m, s, ls).state; var rest := ls[1..];
      Same(Kept(m, s, ls), ls) <==>
        && rest != [] && First(m, t, rest).out == [ls[0], rest[0]]
        && Same(Kept(m, First(m, t, rest).state, rest[1..]), rest[1..])
  {
    var l, rest := ls[0], ls[1..];
    var t := First(m, s, ls).state;
    assert ls == [l] + rest;
    Empty(Kept(m, t, rest));
    StepLeftOut(m, s, l, NextSeparator(m, rest));
    LeftOutBack(m, t, l, rest);
  }

  lemma LeftOutBack(m: Reader, t: State, l: Line, rest: seq<Line>)
    requires Lawful(m) && LeftOut(m, l, t) && !AllBlank([l] + rest)
    ensures Same(Kept(m, t, rest), [l] + rest) <==>
      && rest != [] && First(m, t, rest).out == [l, rest[0]]
      && Same(Kept(m, First(m, t, rest).state, rest[1..]), rest[1..])
  {
    if Same(Kept(m, t, rest), [l] + rest) {
      ComesBack(m, t, l, rest);
    }
    if rest != [] && First(m, t, rest).out == [l, rest[0]] {
      TwoBack(m, t, l, rest);
    }
  }
}
