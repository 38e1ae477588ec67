/** Which Markdown skeletons a second pass gives back: exactly the ones whose verdict says so. */
module MarkdownVerdict {
  import opened Options
  import opened Collections
  import opened Markdown
  import opened MarkdownPasses
  import opened MarkdownVerbatim

  // ------------------------------------------------- an underline pushed again

  lemma UnderlinePushed(m: Reader, s: State, t: State, lag: bool, l: Line, n: bool, rest: seq<Line>)
    requires Lawful(m) && Rel(m, s, t, lag) && Repushes(m, s, l) && m.view(s.prev).underline
    ensures var o := Step(m, s, l, n).out + rest; !Same(Kept(m, t, o), o)
  {
    var q := s.prev;
    assert Sensible(m, q) && Sensible(m, l.t);
    UnderlineStep(m, s, l, n);
    var below := [Bare(l.t)] + rest;
    assert Step(m, s, l, n).out + rest == [Bare(q)] + below;
    var k := NextSeparator(m, below);
    assert IsText(m, t, Bare(q)) && Underlines(m, t, Bare(q));
    UnderlineStep(m, t, Bare(q), k);
    var w := Step(m, t, Bare(q), k);
    assert w.out == [Bare(q)] + [Bare(q)];
    KeptOne(m, t, Bare(q), below);
    OneTooMany(m, w.state, q, below);
    Regroup([Bare(q)], [Bare(q)], Kept(m, w.state, below));
    SameCancel([Bare(q)], [Bare(q)] + Kept(m, w.state, below), below);
  }

  // ------------------------------------------------- a marker that is missing

  lemma MarkerMissing(m: Reader, s: State, t: State, l: Line, n: bool, rest: seq<Line>)
    requires Lawful(m) && Rel(m, s, t, true) && Diverges(m, s, true, l)
    ensures var o := Step(m, s, l, n).out + rest; !Same(Kept(m, t, o), o)
  {
    var u, extra := LaggingTurn(m, s, t, l, n, rest);
    UnderlineStep(m, s, l, n);
    var o := Step(m, s, l, n).out + rest;
    assert Sensible(m, s.prev);
    var x := extra[0];
    assert extra == [x];
    if Same(Kept(m, t, o), o) {
      SameHead(x, Step(m, s, l, n).out + Kept(m, u, rest), o);
    }
  }

  // -------------------------------------------------------- a fence reopened

  /** The second pass has just opened a fence with `q`. */
  ghost predicate OpenedBy(m: Reader, f: State, q: string) {
    f.fence && f.mark == m.view(q).first && f.length == m.view(q).fence && f.kept == 0 && !f.cut
  }

  predicate ClosesFence(m: Reader, q: string, l: Line) {
    var v := m.view(l.t);
    v.fence > 0 && v.first == m.view(q).first && v.fence >= m.view(q).fence
  }

  /** The first line that closes the fence `q`, or the length. */
  function Closer(m: Reader, q: string, ls: seq<Line>): (j: nat)
    ensures j <= |ls| && (forall i :: 0 <= i < j ==> !ClosesFence(m, q, ls[i])) && (j < |ls| ==> ClosesFence(m, q, ls[j]))
  {
    if ls == [] || ClosesFence(m, q, ls[0]) then 0 else 1 + Closer(m, q, ls[1..])
  }

  /** Where the second pass stands after the line at `j` closed the fence. */
  function Outside(f: State, t: string, j: nat): State {
    f.(fence := false, cut := false, blanks := 0, kept := f.kept + Room(f, j), prev := t, last := Some(t))
  }

  /** How many of `j` lines in the fence are kept. */
  function Room(f: State, j: nat): nat {
    if f.kept >= 2 then 0 else if j <= 2 - f.kept then j else 2 - f.kept
  }

  ghost predicate InFenceOf(m: Reader, f: State, q: string) {
    f.fence && f.mark == m.view(q).first && f.length == m.view(q).fence && f.kept <= 2
  }

  lemma OpenTail(m: Reader, f: State, q: string, ls: seq<Line>)
    requires InFenceOf(m, f, q) && ls != [] && !ClosesFence(m, q, ls[0])
    ensures InFenceOf(m, First(m, f, ls).state, q)
    ensures First(m, f, ls) == if f.kept < 2 then Put(f.(kept := f.kept + 1, prev := ls[0].t), ls[0]) else Skip(f.(cut := true, prev := ls[0].t))
  {
  }

  /** A fence that is never closed keeps two lines. */
  lemma {:induction false} NeverClosed(m: Reader, f: State, q: string, ls: seq<Line>)
    requires InFenceOf(m, f, q) && Closer(m, q, ls) == |ls|
    ensures Kept(m, f, ls) == ls[..Room(f, |ls|)]
    decreases |ls|
  {
    if ls != [] {
      OpenTail(m, f, q, ls);
      NeverClosed(m, First(m, f, ls).state, q, ls[1..]);
      if f.kept < 2 {
        assert [ls[0]] + ls[1..][..Room(f, |ls|) - 1] == ls[..Room(f, |ls|)];
      }
    }
  }

  function Stub(m: Reader, f: State, j: nat): seq<Line> {
    if f.cut || j > Room(f, j) then [m.stub] else []
  }

  /** One that is closed at `j` keeps two lines, a stub for the others, and the closing line. */
  function Folded(m: Reader, f: State, ls: seq<Line>, j: nat): seq<Line>
    requires j < |ls|
  {
    Stub(m, f, j) + ([Bare(ls[j].t)] + Kept(m, Outside(f, ls[j].t, j), ls[j + 1..]))
  }

  lemma ClosedNow(m: Reader, f: State, q: string, ls: seq<Line>)
    requires InFenceOf(m, f, q) && ls != [] && ClosesFence(m, q, ls[0])
    ensures Kept(m, f, ls) == Folded(m, f, ls, 0)
  {
    CloseStep(m, f, ls[0], NextSeparator(m, ls[1..]));
    var o := Outside(f, ls[0].t, 0);
    assert First(m, f, ls).state == o;
    Regroup(Stub(m, f, 0), [Bare(ls[0].t)], Kept(m, o, ls[1..]));
  }

  lemma FoldedTail(m: Reader, f: State, g: State, ls: seq<Line>, j: nat)
    requires 0 < j < |ls| && f.kept <= 2 && (f.cut ==> f.kept == 2)
    requires g == if f.kept < 2 then f.(kept := f.kept + 1, prev := ls[0].t, last := Some(ls[0].t)) else f.(cut := true, prev := ls[0].t)
    ensures Folded(m, g, ls[1..], j - 1) == Folded(m, f, ls, j)
  {
    assert ls[1..][j..] == ls[j + 1..] && ls[1..][j - 1] == ls[j];
    assert Outside(g, ls[j].t, j - 1) == Outside(f, ls[j].t, j);
  }

  lemma TakeMore(ls: seq<Line>, n: nat)
    requires n < |ls|
    ensures [ls[0]] + ls[1..][..n] == ls[..n + 1]
  {
  }

  lemma {:induction false} ClosedAt(m: Reader, f: State, q: string, ls: seq<Line>, j: nat)
    requires InFenceOf(m, f, q) && (f.cut ==> f.kept == 2) && j == Closer(m, q, ls) < |ls|
    ensures Kept(m, f, ls) == ls[..Room(f, j)] + Folded(m, f, ls, j)
    decreases |ls|
  {
    if j == 0 {
      ClosedNow(m, f, q, ls);
      Empty(Folded(m, f, ls, 0));
    } else {
      OpenTail(m, f, q, ls);
      var g := First(m, f, ls).state;
      ClosedAt(m, g, q, ls[1..], j - 1);
      FoldedTail(m, f, g, ls, j);
      ClosedStep(First(m, f, ls).out, ls, Room(g, j - 1), Room(f, j), Folded(m, f, ls, j));
    }
  }

  lemma ClosedStep(out: seq<Line>, ls: seq<Line>, n: nat, k: nat, rest: seq<Line>)
    requires k < |ls| && if n == k then n == 0 && out == [] else k == n + 1 && out == [ls[0]]
    ensures out + (ls[1..][..n] + rest) == ls[..k] + rest
  {
    if n != k {
      TakeMore(ls, n);
      Regroup(out, ls[1..][..n], rest);
    }
  }

  /** A fence that is closed within reach: within two lines, or after two and a stub, by a line
      that is not indented. */
  predicate Reaches(m: Reader, below: seq<Line>, j: nat)
    requires j < |below|
  {
    j <= 3 && below[j] == Bare(below[j].t) && (j == 3 ==> below[2] == m.stub)
  }

  /** When the lines below a reopened fence are given back: it stays open over at most two; or it
      is closed within reach, and every turn from there on keeps its line or brings back the one
      before. */
  predicate GivenBack(m: Reader, f: State, q: string, below: seq<Line>) {
    var j := Closer(m, q, below);
    if j == |below| then |DropBlanks(below)| <= 2
    else Reaches(m, below, j) && Verbatim(m, Outside(f, below[j].t, j), below[j + 1..])
  }

  lemma {:induction false} DropShort(ls: seq<Line>, n: nat)
    requires |DropBlanks(ls)| <= n <= |ls|
    ensures DropBlanks(ls[..n]) == DropBlanks(ls)
    decreases |ls|
  {
    if |ls| == n {
      assert ls[..n] == ls;
    } else {
      assert ls[|ls| - 1].t == [];
      DropsTo(ls);
      DropShort(ls[..|ls| - 1], n);
      assert ls[..|ls| - 1][..n] == ls[..n];
    }
  }

  lemma OpenGivenBack(m: Reader, f: State, q: string, below: seq<Line>)
    requires OpenedBy(m, f, q) && Closer(m, q, below) == |below|
    ensures Same(Kept(m, f, below), below) <==> |DropBlanks(below)| <= 2
  {
    NeverClosed(m, f, q, below);
    if |below| <= 2 {
      assert below[..|below|] == below;
    } else if |DropBlanks(below)| <= 2 {
      DropShort(below, 2);
    }
  }

  lemma SplitAt(ls: seq<Line>, i: nat)
    requires i < |ls|
    ensures ls == ls[..i] + ([ls[i]] + ls[i + 1..])
  {
  }

  lemma SoonClosed(kept: seq<Line>, below: seq<Line>, j: nat, k: seq<Line>)
    requires j < |below| && below[j].t != [] && kept == below[..j] + ([] + ([Bare(below[j].t)] + k))
    ensures Same(kept, below) <==> below[j] == Bare(below[j].t) && Same(k, below[j + 1..])
  {
    var c := below[j];
    Empty([Bare(c.t)] + k);
    SplitAt(below, j);
    SameCancel(below[..j], [Bare(c.t)] + k, [c] + below[j + 1..]);
    SameCons(Bare(c.t), k, c, below[j + 1..]);
  }

  lemma FromAt<T>(ls: seq<T>, i: nat)
    requires i < |ls|
    ensures ls[i..] == [ls[i]] + ls[i + 1..]
  {
  }

  lemma LateClosed(kept: seq<Line>, below: seq<Line>, stub: Line, c: Line, k: seq<Line>)
    requires |below| >= 4 && stub.t != [] && c.t != [] && kept == below[..2] + ([stub] + ([Bare(c.t)] + k))
    ensures Same(kept, below) <==> below[2] == stub && below[3] == Bare(c.t) && Same(k, below[4..])
  {
    SplitAt(below, 2);
    FromAt(below, 3);
    var d, tail := below[3], below[4..];
    SameCancel(below[..2], [stub] + ([Bare(c.t)] + k), [below[2]] + ([d] + tail));
    SameCons(stub, [Bare(c.t)] + k, below[2], [d] + tail);
    SameCons(Bare(c.t), k, d, tail);
  }

  lemma LateBack(m: Reader, q: string, kept: seq<Line>, below: seq<Line>, j: nat, k: seq<Line>)
    requires m.stub.t != [] && 3 <= j == Closer(m, q, below) < |below| && below[j].t != []
    requires kept == below[..2] + ([m.stub] + ([Bare(below[j].t)] + k))
    ensures Same(kept, below) <==> Reaches(m, below, j) && Same(k, below[j + 1..])
  {
    LateClosed(kept, below, m.stub, below[j], k);
    if j > 3 {
      assert !ClosesFence(m, q, below[3]) && ClosesFence(m, q, below[j]);
    }
  }

  lemma SoonBack(m: Reader, f: State, q: string, below: seq<Line>, j: nat, k: seq<Line>)
    requires OpenedBy(m, f, q) && j == Closer(m, q, below) < |below| && j <= 2 && below[j].t != []
    requires k == Kept(m, Outside(f, below[j].t, j), below[j + 1..])
    ensures Same(Kept(m, f, below), below) <==> Reaches(m, below, j) && Same(k, below[j + 1..])
  {
    ClosedAt(m, f, q, below, j);
    assert Folded(m, f, below, j) == [] + ([Bare(below[j].t)] + k);
    SoonClosed(Kept(m, f, below), below, j, k);
  }

  lemma LateSplit(m: Reader, f: State, q: string, below: seq<Line>, j: nat, k: seq<Line>)
    requires OpenedBy(m, f, q) && 3 <= j == Closer(m, q, below) < |below|
    requires k == Kept(m, Outside(f, below[j].t, j), below[j + 1..])
    ensures Kept(m, f, below) == below[..2] + ([m.stub] + ([Bare(below[j].t)] + k))
  {
    ClosedAt(m, f, q, below, j);
    LateFolded(m, f, below, j);
  }

  lemma LateFolded(m: Reader, f: State, below: seq<Line>, j: nat)
    requires f.kept == 0 && 3 <= j < |below|
    ensures Room(f, j) == 2
    ensures Folded(m, f, below, j) == [m.stub] + ([Bare(below[j].t)] + Kept(m, Outside(f, below[j].t, j), below[j + 1..]))
  {
  }

  lemma ClosedGivenBack(m: Reader, f: State, q: string, below: seq<Line>, j: nat, k: seq<Line>)
    requires Lawful(m) && OpenedBy(m, f, q) && j == Closer(m, q, below) < |below|
    requires k == Kept(m, Outside(f, below[j].t, j), below[j + 1..])
    ensures Same(Kept(m, f, below), below) <==> Reaches(m, below, j) && Same(k, below[j + 1..])
  {
    assert Sensible(m, below[j].t);
    if j <= 2 {
      SoonBack(m, f, q, below, j, k);
    } else {
      LateSplit(m, f, q, below, j, k);
      LateBack(m, q, Kept(m, f, below), below, j, k);
    }
  }

  lemma OutsideSteady(f: State, t: string, j: nat)
    requires Steady(f) && t != []
    ensures Steady(Outside(f, t, j))
  {
  }

  lemma ReopenedIff(m: Reader, f: State, q: string, below: seq<Line>)
    requires Lawful(m) && OpenedBy(m, f, q) && Steady(f)
    ensures Same(Kept(m, f, below), below) <==> GivenBack(m, f, q, below)
  {
    var j := Closer(m, q, below);
    if j == |below| {
      OpenGivenBack(m, f, q, below);
    } else {
      var o := Outside(f, below[j].t, j);
      assert Sensible(m, below[j].t);
      OutsideSteady(f, below[j].t, j);
      VerbatimIff(m, o, below[j + 1..]);
      ClosedGivenBack(m, f, q, below, j, Kept(m, o, below[j + 1..]));
    }
  }

  // -------------------------------------------------------------- the verdict

  /** The second pass at the reopened fence. */
  function Reopened(m: Reader, t: State, before: seq<Line>, q: string): State {
    OpenFence(m, ReadOn(m, t, before, false), Bare(q)).state
  }

  /** What the verdict says of a second pass from `t` over the lines `o`. */
  ghost predicate Means(m: Reader, t: State, o: seq<Line>, v: Verdict) {
    match v
    case Agrees => Kept(m, t, o) == o
    case Changes => !Same(Kept(m, t, o), o)
    case Reopens(before, q, below) =>
      && m.view(q).fence > 0 && o == before + ([Bare(q)] + below)
      && Kept(m, t, o) == before + ([Bare(q)] + Kept(m, Reopened(m, t, before, q), below))
  }

  lemma {:induction false} ReadOnConcat(m: Reader, t: State, a: seq<Line>, b: seq<Line>, k: bool)
    ensures ReadOn(m, t, a + b, k) == ReadOn(m, ReadOn(m, t, a, if b != [] then m.view(b[0].t).separator else k), b, k)
    decreases |a|
  {
    if a == [] {
      Empty(b);
    } else {
      var n := if |a + b| > 1 then m.view((a + b)[1].t).separator else k;
      assert (a + b)[1..] == a[1..] + b;
      assert n == if |a| > 1 then m.view(a[1].t).separator else if b != [] then m.view(b[0].t).separator else k;
      ReadOnConcat(m, Step(m, t, a[0], n).state, a[1..], b, k);
    }
  }

  function Behind(out: seq<Line>, v: Verdict): Verdict {
    if v.Reopens? then v.(before := out + v.before) else v
  }

  /** A turn in step leaves the verdict to the rest. */
  lemma MeansBehind(m: Reader, t: State, u: State, out: seq<Line>, rest: seq<Line>, v: Verdict)
    requires Lawful(m) && Means(m, u, rest, v)
    requires Kept(m, t, out + rest) == out + Kept(m, u, rest) && u == ReadOn(m, t, out, NextSeparator(m, rest))
    ensures Means(m, t, out + rest, Behind(out, v))
  {
    match v
    case Agrees =>
    case Changes =>
      SameCancel(out, Kept(m, u, rest), rest);
    case Reopens(before, q, below) =>
      assert Sensible(m, q);
      ReadOnConcat(m, t, out, before, false);
      assert NextSeparator(m, rest) == if before != [] then m.view(before[0].t).separator else false;
      Regroup(out, before, [Bare(q)] + below);
      Regroup(out, before, [Bare(q)] + Kept(m, Reopened(m, u, before, q), below));
  }

  lemma FencePushed(m: Reader, s: State, t: State, lag: bool, l: Line, n: bool, rest: seq<Line>)
    requires Lawful(m) && Rel(m, s, t, lag) && Repushes(m, s, l) && m.view(s.prev).fence > 0
    ensures Means(m, t, Step(m, s, l, n).out + rest, Reopens([], s.prev, [Bare(l.t)] + rest))
  {
    var q, below := s.prev, [Bare(l.t)] + rest;
    assert Sensible(m, q) && Sensible(m, l.t);
    UnderlineStep(m, s, l, n);
    assert Step(m, s, l, n).out + rest == [Bare(q)] + below;
    KeptOne(m, t, Bare(q), below);
    assert Step(m, t, Bare(q), NextSeparator(m, below)) == OpenFence(m, t, Bare(q));
    Empty([Bare(q)] + below);
    Empty([Bare(q)] + Kept(m, Reopened(m, t, [], q), below));
  }

  /** From related states on, the verdict is right. */
  lemma {:induction false} VerdictRight(m: Reader, s: State, t: State, lag: bool, ls: seq<Line>)
    requires Lawful(m) && Rel(m, s, t, lag) && Uncommented(m, s, ls)
    ensures Means(m, t, Kept(m, s, ls), VerdictOf(m, s, lag, ls))
    decreases |ls|
  {
    if ls != [] {
      var l, r, n := ls[0], First(m, s, ls), NextSeparator(m, ls[1..]);
      var rest := Kept(m, r.state, ls[1..]);
      if Repushes(m, s, l) && m.view(s.prev).underline {
        UnderlinePushed(m, s, t, lag, l, n, rest);
      } else if Repushes(m, s, l) && m.view(s.prev).fence > 0 {
        FencePushed(m, s, t, lag, l, n, rest);
      } else if Diverges(m, s, lag, l) {
        MarkerMissing(m, s, t, l, n, rest);
      } else {
        var u := AnyTurn(m, s, t, lag, ls);
        var k := LagAfter(m, s, lag, l, n, NextSeparator(m, rest));
        VerdictRight(m, r.state, u, k, ls[1..]);
        MeansBehind(m, t, u, r.out, rest, VerdictOf(m, r.state, k, ls[1..]));
      }
    }
  }

  /** When pruning again changes nothing: told by the first pass alone, up to a fence that was
      pushed again, and from there turn by turn. */
  predicate Fixed(m: Reader, t: State, v: Verdict) {
    match v
    case Agrees => true
    case Changes => false
    case Reopens(before, q, below) => GivenBack(m, Reopened(m, t, before, q), q, below)
  }

  lemma MeansFixed(m: Reader, t: State, o: seq<Line>, v: Verdict)
    requires Lawful(m) && Means(m, t, o, v) && Steady(t)
    ensures Same(Kept(m, t, o), o) <==> Fixed(m, t, v)
  {
    match v
    case Agrees =>
    case Changes =>
    case Reopens(before, q, below) =>
      var f := Reopened(m, t, before, q);
      SameCancel(before, [Bare(q)] + Kept(m, f, below), [Bare(q)] + below);
      SameCancel([Bare(q)], Kept(m, f, below), below);
      ReadSteady(m, t, before, false);
      ReopenedIff(m, f, q, below);
  }

  /** Without badges and comments, pruning twice is pruning once exactly when the verdict of the
      first pass says so. */
  lemma IdempotentIff(m: Reader, ls: seq<Line>)
    requires Lawful(m) && Uncommented(m, START, ls)
    ensures PruneLines(m, PruneLines(m, ls)) == PruneLines(m, ls) <==> Fixed(m, START, VerdictOf(m, START, false, ls))
  {
    assert Sensible(m, []);
    var o := Kept(m, START, ls);
    VerdictRight(m, START, START, false, ls);
    MeansFixed(m, START, o, VerdictOf(m, START, false, ls));
    DropBefore(m, START, o);
  }

  /** With badges and comments too: a skeleton is a fixed point exactly when a pass over it keeps
      every line, or brings it back in the next turn. */
  lemma AnyIdempotentIff(m: Reader, ls: seq<Line>)
    requires Lawful(m)
    ensures PruneLines(m, PruneLines(m, ls)) == PruneLines(m, ls) <==> Verbatim(m, START, PruneLines(m, ls))
  {
    var p := PruneLines(m, ls);
    VerbatimIff(m, START, p);
    assert DropBlanks(p) == p;
  }
}
