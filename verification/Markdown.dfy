/** The Markdown pruner as a machine over lines that were already looked at. */
module Markdown {
  import opened Options
  import opened Collections

  /** A line without its trailing white space, and without any around it. */
  datatype Line = Line(te: string, t: string)

  /** What the classifiers say about a trimmed line: the length of a fence delimiter and its
      first character, and the tests in the order they are made. */
  datatype View = View(fence: nat, first: char, rule: bool, blank: bool, sentinel: bool, comment: bool, heading: bool,
                       underline: bool, bar: bool, separator: bool, callout: bool, metadata: bool, item: bool)

  /** The classifiers, and the three lines the pruner makes up itself. */
  datatype Reader = Reader(view: string -> View, sentinel: Line, row: Line, stub: Line)

  const BLANK := Line([], [])

  function Bare(t: string): Line {
    Line(t, t)
  }

  /** The variables of the loop; `last` is the trimmed last line kept. */
  datatype State = State(front: bool, started: bool, fence: bool, mark: char, length: nat, kept: nat, cut: bool,
                         blanks: nat, prose: nat, pruned: bool, allowed: bool, prev: string, last: Option<string>)

  const START := State(false, false, false, ' ', 0, 0, false, 0, 0, false, false, [], None)

  datatype Turn = Turn(state: State, out: seq<Line>)

  /** Keeps one line. */
  function Put(s: State, l: Line): Turn {
    Turn(s.(last := Some(l.t)), [l])
  }

  function Skip(s: State): Turn {
    Turn(s, [])
  }

  /** Inside a code fence: two lines are kept, then a stub before the closing fence. */
  function InFence(m: Reader, s: State, l: Line): Turn {
    var v := m.view(l.t);
    if v.fence > 0 && v.first == s.mark && v.fence >= s.length then
      Turn(s.(fence := false, cut := false, blanks := 0, prev := l.t, last := Some(l.t)),
           (if s.cut then [m.stub] else []) + [Bare(l.t)])
    else if s.kept < 2 then Put(s.(kept := s.kept + 1, prev := l.t), l)
    else Skip(s.(cut := true, prev := l.t))
  }

  function OpenFence(m: Reader, s: State, l: Line): Turn {
    var v := m.view(l.t);
    Put(s.(fence := true, mark := v.first, length := v.fence, kept := 0, cut := false, blanks := 0, prev := l.t), l)
  }

  function InFront(m: Reader, s: State, l: Line): Turn {
    if m.view(l.t).rule then Put(s.(front := false, blanks := 0, prev := l.t), Bare(l.t))
    else Put(s.(prev := l.t), l)
  }

  function AtBlank(s: State): Turn {
    var r := s.(blanks := s.blanks + 1, prose := 0, pruned := false, prev := []);
    if r.blanks <= 1 && s.last.Some? then Put(r, BLANK) else Skip(r)
  }

  function AtSentinel(m: Reader, s: State): Turn {
    if s.pruned then Skip(s) else Put(s.(pruned := true), m.sentinel)
  }

  /** A heading by underline; the line before is kept again unless it was the last one kept. */
  function AtUnderline(m: Reader, s: State, l: Line): Turn {
    var r := s.(prose := 0, pruned := false, allowed := m.view(s.prev).metadata, prev := [], last := Some(l.t));
    Turn(r, (if s.last != Some(s.prev) then [Bare(s.prev)] else []) + [Bare(l.t)])
  }

  function AtTable(m: Reader, s: State, l: Line, nextSeparator: bool): Turn {
    var r := s.(prev := l.t);
    if m.view(l.t).separator || nextSeparator then Put(r, l)
    else if s.prose < 1 then Put(r.(prose := s.prose + 1), l)
    else if s.pruned then Skip(r)
    else Put(r.(pruned := true), m.row)
  }

  function AtProse(m: Reader, s: State, l: Line): Turn {
    var r := s.(prev := l.t);
    if s.prose < 2 then Put(r.(prose := s.prose + 1), l)
    else if s.pruned then Skip(r)
    else Put(r.(pruned := true), m.sentinel)
  }

  /** A line that is not blank, outside fences and front matter. */
  function AtText(m: Reader, s: State, l: Line, nextSeparator: bool): Turn {
    var v := m.view(l.t);
    if v.sentinel then AtSentinel(m, s)
    else if v.comment then Skip(s)
    else if v.heading then Put(s.(prose := 0, pruned := false, allowed := v.metadata, prev := l.t), Bare(l.t))
    else if s.prev != [] && v.underline then AtUnderline(m, s, l)
    else if v.bar then AtTable(m, s, l, nextSeparator)
    else if v.callout then Put(s.(prose := 0, pruned := false, prev := l.t), l)
    else if v.metadata then Put(s.(prose := 0, pruned := false, allowed := true, prev := l.t), l)
    else if s.allowed && v.item then Put(s.(prev := l.t), l)
    else AtProse(m, s, l)
  }

  /** One turn of the loop. */
  function Step(m: Reader, s: State, l: Line, nextSeparator: bool): Turn {
    var v := m.view(l.t);
    if s.fence then InFence(m, s, l)
    else if v.fence > 0 then OpenFence(m, s, l)
    else if !s.started && v.rule then Put(s.(front := true, started := true, blanks := 0, prev := l.t), Bare(l.t))
    else if s.front then InFront(m, s, l)
    else if v.blank then AtBlank(s)
    else AtText(m, s.(started := true, blanks := 0), l, nextSeparator)
  }

  function NextSeparator(m: Reader, rest: seq<Line>): bool {
    rest != [] && m.view(rest[0].t).separator
  }

  function First(m: Reader, s: State, ls: seq<Line>): Turn
    requires ls != []
  {
    Step(m, s, ls[0], NextSeparator(m, ls[1..]))
  }

  /** Every line kept, before the trailing blank ones are removed. */
  function Kept(m: Reader, s: State, ls: seq<Line>): seq<Line>
    decreases |ls|
  {
    if ls == [] then [] else First(m, s, ls).out + Kept(m, First(m, s, ls).state, ls[1..])
  }

  function DropBlanks(ls: seq<Line>): (r: seq<Line>)
    ensures r <= ls && (r == [] || r[|r| - 1].t != [])
  {
    if ls != [] && ls[|ls| - 1].t == [] then DropBlanks(ls[..|ls| - 1]) else ls
  }

  function PruneLines(m: Reader, ls: seq<Line>): seq<Line> {
    DropBlanks(Kept(m, START, ls))
  }

  lemma KeptAt(m: Reader, s: State, lines: seq<Line>, i: nat)
    requires i < |lines|
    ensures var turn := Step(m, s, lines[i], i + 1 < |lines| && m.view(lines[i + 1].t).separator);
      Kept(m, s, lines[i..]) == turn.out + Kept(m, turn.state, lines[i + 1..])
  {
    assert lines[i..][1..] == lines[i + 1..];
  }

  /** The loop over the lines of a document. */
  method KeepLoop(m: Reader, lines: seq<Line>) returns (out: seq<Line>)
    ensures out == Kept(m, START, lines)
  {
    out := [];
    var s := START;
    for i := 0 to |lines|
      invariant out + Kept(m, s, lines[i..]) == Kept(m, START, lines)
    {
      KeptAt(m, s, lines, i);
      var turn := Step(m, s, lines[i], i + 1 < |lines| && m.view(lines[i + 1].t).separator);
      Regroup(out, turn.out, Kept(m, turn.state, lines[i + 1..]));
      out, s := out + turn.out, turn.state;
    }
  }

  method PruneLoop(m: Reader, lines: seq<Line>) returns (out: seq<Line>)
    ensures out == PruneLines(m, lines)
  {
    out := KeepLoop(m, lines);
    while out != [] && out[|out| - 1].t == []
      invariant DropBlanks(out) == PruneLines(m, lines)
      decreases |out|
    {
      out := out[..|out| - 1];
    }
  }

  // -------------------------------------------------------------------- laws

  /** What a view is like whatever the text is. */
  ghost predicate Sensible(m: Reader, t: string) {
    var v := m.view(t);
    && (v.blank <==> t == [])
    && (v.separator ==> v.bar && v.fence == 0 && !v.rule && !v.blank && !v.sentinel && !v.comment && !v.heading && !v.underline)
    && (v.fence > 0 || v.rule ==> !v.blank && !v.sentinel && !v.comment)
    && (v.sentinel ==> t == m.sentinel.t)
    && (v.underline ==> v.fence == 0 && !v.blank && !v.sentinel && !v.comment && !v.heading && !v.bar && !v.callout && !v.metadata && !v.item)
  }

  ghost predicate Lawful(m: Reader) {
    var r, s := m.view(m.row.t), m.view(m.sentinel.t);
    && (forall t :: Sensible(m, t))
    && m.sentinel == Bare(m.sentinel.t) && s.sentinel && s.fence == 0 && !s.rule && !s.blank
    && m.row == Bare(m.row.t) && r.bar && r.fence == 0 && !r.rule && !r.blank && !r.sentinel && !r.comment && !r.heading && !r.underline && !r.separator
    && m.view(m.stub.t).fence == 0 && m.stub.t != []
  }
}
