/** The brace-counting skeleton pruners: one machine for the six languages, and its brace
    accounting. */
module Skeleton {
  import opened Text
  import opened Languages
  import opened Signatures

  // ------------------------------------------------------------------ braces

  function Brace(c: char): int {
    if c == '{' then 1 else if c == '}' then -1 else 0
  }

  /** Opening braces minus closing ones. */
  function Net(s: string): int {
    if s == [] then 0 else Brace(s[0]) + Net(s[1..])
  }

  function NetAll(ls: seq<string>): int {
    if ls == [] then 0 else Net(ls[0]) + NetAll(ls[1..])
  }

  lemma {:induction false} NetConcat(a: string, b: string)
    ensures Net(a + b) == Net(a) + Net(b)
  {
    if a == [] {
      assert a + b == b;
    } else {
      assert (a + b)[1..] == a[1..] + b;
      NetConcat(a[1..], b);
    }
  }

  lemma NetSplit(s: string, i: nat)
    requires i <= |s|
    ensures Net(s) == Net(s[..i]) + Net(s[i..])
  {
    assert s == s[..i] + s[i..];
    NetConcat(s[..i], s[i..]);
  }

  lemma {:induction false} NetAllConcat(a: seq<string>, b: seq<string>)
    ensures NetAll(a + b) == NetAll(a) + NetAll(b)
  {
    if a == [] {
      assert a + b == b;
    } else {
      assert (a + b)[1..] == a[1..] + b;
      NetAllConcat(a[1..], b);
    }
  }

  /** White space holds no brace. */
  lemma {:induction false} NetTrimEnd(s: string)
    ensures Net(TrimEnd(s)) == Net(s)
  {
    if s != [] && Whitespace(s[|s| - 1]) {
      NetTrimEnd(s[..|s| - 1]);
      NetSplit(s, |s| - 1);
      assert s[|s| - 1..][1..] == [];
    }
  }

  /** The leading white space. */
  function Indent(line: string): string {
    line[..|line| - |TrimStart(line)|]
  }

  lemma {:induction false} IndentBlank(line: string)
    ensures forall i :: 0 <= i < |Indent(line)| ==> Whitespace(line[i])
  {
    if line != [] && Whitespace(line[0]) {
      IndentBlank(line[1..]);
      assert Indent(line) == [line[0]] + Indent(line[1..]);
      forall i | 0 <= i < |Indent(line)|
        ensures Whitespace(line[i])
      {
        assert i == 0 || line[i] == line[1..][i - 1];
      }
    }
  }

  lemma {:induction false} NetBlank(s: string)
    requires forall i :: 0 <= i < |s| ==> Whitespace(s[i])
    ensures Net(s) == 0
  {
    if s != [] {
      NetBlank(s[1..]);
    }
  }

  lemma {:induction false} NetNone(s: string)
    requires '{' !in s && '}' !in s
    ensures Net(s) == 0
  {
    if s != [] {
      NetNone(s[1..]);
    }
  }

  lemma NetStub(s: string)
    requires IsStub(s)
    ensures Net(s) == 0 && Net(s[1..]) == -1
  {
    NetSplit(s[1..], |s| - 2);
    var middle, last := s[1..][..|s| - 2], s[1..][|s| - 2..];
    NetNone(middle);
    assert last == [s[|s| - 1]] && last[1..] == [];
  }

  /** The first brace, or the length. */
  function FindBrace(s: string): (k: nat)
    ensures k <= |s| && '{' !in s[..k] && (k < |s| ==> s[k] == '{')
  {
    if s == [] || s[0] == '{' then 0
    else
      var k := FindBrace(s[1..]);
      assert s[..k + 1] == [s[0]] + s[1..][..k];
      k + 1
  }

  predicate ArrowAt(s: string, k: nat) {
    k + 1 < |s| && s[k] == '=' && s[k + 1] == '>'
  }

  /** The first `=>`, or the length. */
  function FindArrow(s: string): (k: nat)
    ensures k <= |s| && (k < |s| ==> ArrowAt(s, k)) && forall i :: 0 <= i < k ==> !ArrowAt(s, i)
  {
    if s == [] || ArrowAt(s, 0) then 0
    else
      var k := FindArrow(s[1..]);
      assert forall i :: 0 < i < |s| ==> (ArrowAt(s, i) <==> ArrowAt(s[1..], i - 1));
      k + 1
  }

  // ----------------------------------------------------------------- machine

  datatype State = State(inFn: bool, awaiting: bool, depth: int, fnDepth: int)

  const START := State(false, false, 0, 0)

  /** After a body opened at `b`. */
  function Opened(s: State, line: string, b: nat): State
    requires b < |line|
  {
    var depth := s.depth + 1 + Net(line[b + 1..]);
    State(depth > s.depth, false, depth, s.depth)
  }

  function Next(p: Pruner, s: State, line: string): State
  {
    var b := FindBrace(line);
    if s.inFn then s.(depth := s.depth + Net(line), inFn := s.depth + Net(line) > s.fnDepth)
    else if s.awaiting then (if b < |line| then Opened(s, line, b) else s)
    else
      match p.classify(line)
      case Arrow => s
      case Plain => s.(depth := s.depth + Net(line))
      case Opener =>
        if b < |line| then Opened(s, line, b)
        else if p.waits then s.(awaiting := true, fnDepth := s.depth)
        else s.(inFn := true, fnDepth := s.depth)
  }

  /** The line kept for `line`, if any. */
  function Emit(p: Pruner, s: State, line: string): (out: seq<string>)
    ensures |out| <= 1
    ensures !s.inFn ==> |out| == 1
  {
    var b := FindBrace(line);
    if s.inFn then []
    else if s.awaiting then (if b < |line| then [Indent(line) + p.stub] else [line])
    else
      match p.classify(line)
      case Arrow => if FindArrow(line) < |line| then [TrimEnd(line[..FindArrow(line)]) + p.arrow] else [line]
      case Plain => [line]
      case Opener => if b < |line| then [TrimEnd(line[..b]) + " " + p.stub] else [line]
  }

  function Out(p: Pruner, s: State, ls: seq<string>): seq<string>
    decreases |ls|
  {
    if ls == [] then [] else Emit(p, s, ls[0]) + Out(p, Next(p, s, ls[0]), ls[1..])
  }

  function Final(p: Pruner, s: State, ls: seq<string>): State
    decreases |ls|
  {
    if ls == [] then s else Final(p, Next(p, s, ls[0]), ls[1..])
  }

  function PruneLines(p: Pruner, ls: seq<string>): seq<string>
  {
    Out(p, START, ls)
  }

  method CountBraces(text: string, before: int) returns (depth: int)
    ensures depth == before + Net(text)
  {
    depth := before;
    for i := 0 to |text|
      invariant depth + Net(text[i..]) == before + Net(text)
    {
      assert text[i..][1..] == text[i + 1..];
      if text[i] == '{' {
        depth := depth + 1;
      } else if text[i] == '}' {
        depth := depth - 1;
      }
    }
  }

  /** The part of the loops that opens a body at the brace `b`. */
  method OpenBody(line: string, b: nat, before: int) returns (inFn: bool, depth: int, fnDepth: int)
    requires b < |line|
    ensures State(inFn, false, depth, fnDepth) == Opened(State(false, false, before, fnDepth), line, b)
  {
    depth := before + 1;
    fnDepth := depth - 1;
    depth := CountBraces(line[b + 1..], depth);
    inFn := depth > fnDepth;
  }

  method PruneLine(p: Pruner, inFn: bool, awaiting: bool, depth: int, fnDepth: int, line: string)
    returns (inFn': bool, awaiting': bool, depth': int, fnDepth': int, out: seq<string>)
    ensures State(inFn', awaiting', depth', fnDepth') == Next(p, State(inFn, awaiting, depth, fnDepth), line)
    ensures out == Emit(p, State(inFn, awaiting, depth, fnDepth), line)
  {
    inFn', awaiting', depth', fnDepth', out := inFn, awaiting, depth, fnDepth, [];
    var b := FindBrace(line);
    if inFn {
      depth' := CountBraces(line, depth);
      if depth' <= fnDepth {
        inFn' := false;
      }
      return;
    }
    if awaiting {
      if b < |line| {
        out := [Indent(line) + p.stub];
        inFn', depth', fnDepth' := OpenBody(line, b, depth);
        awaiting' := false;
      } else {
        out := [line];
      }
      return;
    }
    match p.classify(line)
    case Arrow =>
      var a := FindArrow(line);
      out := if a < |line| then [TrimEnd(line[..a]) + p.arrow] else [line];
    case Plain =>
      depth' := CountBraces(line, depth);
      out := [line];
    case Opener =>
      if b < |line| {
        out := [TrimEnd(line[..b]) + " " + p.stub];
        inFn', depth', fnDepth' := OpenBody(line, b, depth);
      } else {
        out := [line];
        fnDepth' := depth;
        if p.waits {
          awaiting' := true;
        } else {
          inFn' := true;
        }
      }
  }

  /** The loop of the pruners, on the lines of the source. */
  method PruneLoop(p: Pruner, lines: seq<string>) returns (out: seq<string>)
    ensures out == PruneLines(p, lines)
  {
    out := [];
    var inFn, awaiting, depth, fnDepth := false, false, 0, 0;
    for i := 0 to |lines|
      invariant out + Out(p, State(inFn, awaiting, depth, fnDepth), lines[i..]) == PruneLines(p, lines)
    {
      var kept;
      assert lines[i..][1..] == lines[i + 1..];
      inFn, awaiting, depth, fnDepth, kept := PruneLine(p, inFn, awaiting, depth, fnDepth, lines[i]);
      out := out + kept;
    }
  }

  method Prune(lang: Language, source: string) returns (skeleton: string)
    requires Braced(lang)
    ensures skeleton == Join(PruneLines(PrunerOf(lang), Lines(source)))
  {
    var out := PruneLoop(PrunerOf(lang), Lines(source));
    skeleton := Join(out);
  }

  // ------------------------------------------------------ accounting of braces

  /** Braces of a body still open. */
  function Open(s: State): int {
    if s.inFn then s.depth - s.fnDepth else 0
  }

  /** What closing a body loses: the closing braces beyond those it opened. */
  function Excess(s: State): int {
    if s.inFn then 0 else s.depth - s.fnDepth
  }

  /** The braces a line loses for good: beyond the end of a body, before an awaited brace,
      or in an expression body. */
  function Lost(p: Pruner, s: State, line: string): int
  {
    var b, n := FindBrace(line), Next(p, s, line);
    if s.inFn then Excess(n)
    else if s.awaiting then (if b < |line| then Net(line[..b]) + Excess(n) else 0)
    else
      match p.classify(line)
      case Arrow => Net(line[FindArrow(line)..])
      case Plain => 0
      case Opener => if b < |line| then Excess(n) else 0
  }

  function LostAll(p: Pruner, s: State, ls: seq<string>): int
    decreases |ls|
  {
    if ls == [] then 0 else Lost(p, s, ls[0]) + LostAll(p, Next(p, s, ls[0]), ls[1..])
  }

  lemma NetOne(s: string)
    ensures NetAll([s]) == Net(s)
  {
    assert [s][1..] == [];
  }

  lemma NetBody(line: string, b: nat)
    requires b < |line| && line[b] == '{'
    ensures Net(line) == Net(line[..b]) + 1 + Net(line[b + 1..])
  {
    NetSplit(line, b);
    assert line[b..][1..] == line[b + 1..];
  }

  lemma NetStubbed(head: string, stub: string)
    requires IsStub(stub)
    ensures NetAll([TrimEnd(head) + " " + stub]) == Net(head)
  {
    NetTrimEnd(head);
    NetStub(stub);
    NetConcat(TrimEnd(head), " ");
    NetConcat(TrimEnd(head) + " ", stub);
    assert " "[1..] == [];
    NetOne(TrimEnd(head) + " " + stub);
  }

  lemma NetArrowed(head: string, stub: string)
    requires '{' !in stub && '}' !in stub
    ensures NetAll([TrimEnd(head) + stub]) == Net(head)
  {
    NetTrimEnd(head);
    NetNone(stub);
    NetConcat(TrimEnd(head), stub);
    NetOne(TrimEnd(head) + stub);
  }

  lemma NetIndented(line: string, stub: string)
    requires IsStub(stub)
    ensures NetAll([Indent(line) + stub]) == 0
  {
    IndentBlank(line);
    NetBlank(Indent(line));
    NetStub(stub);
    NetConcat(Indent(line), stub);
    NetOne(Indent(line) + stub);
  }

  /** Every line's braces are kept, lost, or those of an open body. */
  lemma LineBalance(p: Pruner, s: State, line: string)
    requires Legible(p)
    ensures Net(line) + Open(s) == NetAll(Emit(p, s, line)) + Lost(p, s, line) + Open(Next(p, s, line))
  {
    var b := FindBrace(line);
    NetOne(line);
    if s.inFn {
    } else if b < |line| && (s.awaiting || p.classify(line) == Opener) {
      NetBody(line, b);
      NetStubbed(line[..b], p.stub);
      NetIndented(line, p.stub);
    } else if !s.awaiting && p.classify(line) == Arrow {
      NetSplit(line, FindArrow(line));
      NetArrowed(line[..FindArrow(line)], p.arrow);
    }
  }

  lemma {:induction false} LinesBalance(p: Pruner, s: State, ls: seq<string>)
    requires Legible(p)
    ensures NetAll(ls) + Open(s) == NetAll(Out(p, s, ls)) + LostAll(p, s, ls) + Open(Final(p, s, ls))
    decreases |ls|
  {
    if ls != [] {
      LineBalance(p, s, ls[0]);
      LinesBalance(p, Next(p, s, ls[0]), ls[1..]);
      NetAllConcat(Emit(p, s, ls[0]), Out(p, Next(p, s, ls[0]), ls[1..]));
    }
  }

  lemma {:induction false} NetJoin(ls: seq<string>)
    ensures Net(Join(ls)) == NetAll(ls)
  {
    if |ls| == 1 {
      NetOne(ls[0]);
      assert ls == [ls[0]];
    } else if |ls| > 1 {
      NetJoin(ls[1..]);
      NetConcat(ls[0], "\n");
      NetConcat(ls[0] + "\n", Join(ls[1..]));
      assert Net("\n") == 0 + Net([]);
    }
  }

  lemma {:induction false} NetLines(s: string)
    ensures NetAll(Lines(s)) == Net(s)
    decreases |s|
  {
    var k := LineFeed(s);
    if s == [] {
    } else if k == |s| {
      NetOne(s);
    } else {
      LinesUnfold(s);
      NetLines(s[k + 1..]);
      NetSplit(s, k);
      assert s[k..][1..] == s[k + 1..];
      NetReturn(s[..k]);
      var ls := Lines(s[k + 1..]);
      assert ([StripReturn(s[..k])] + ls)[1..] == ls;
    }
  }

  lemma NetReturn(s: string)
    ensures Net(StripReturn(s)) == Net(s)
  {
    if s != [] && s[|s| - 1] == '\r' {
      NetSplit(s, |s| - 1);
      assert s[|s| - 1..] == "\r" && Net("\r") == 0 + Net([]);
    }
  }

  /** The braces of the source are those of the skeleton, those lost, and those of a body
      that never closes. */
  lemma Accounting(lang: Language, source: string)
    requires Braced(lang)
    ensures var p, ls := PrunerOf(lang), Lines(source);
      Net(source) == Net(Join(PruneLines(p, ls))) + LostAll(p, START, ls) + Open(Final(p, START, ls))
  {
    AllLegible(lang);
    LinesBalance(PrunerOf(lang), START, Lines(source));
    NetLines(source);
    NetJoin(PruneLines(PrunerOf(lang), Lines(source)));
  }

  /** A body closes exactly, the text before an awaited brace and expression bodies are balanced. */
  predicate TidyLine(p: Pruner, s: State, line: string)
  {
    var b, n := FindBrace(line), Next(p, s, line);
    && ((s.inFn || (b < |line| && (s.awaiting || p.classify(line) == Opener))) && !n.inFn ==> n.depth == n.fnDepth)
    && (!s.inFn && s.awaiting && b < |line| ==> '}' !in line[..b])
    && (!s.inFn && !s.awaiting && p.classify(line) == Arrow ==> Net(line[FindArrow(line)..]) == 0)
  }

  predicate Tidy(p: Pruner, s: State, ls: seq<string>)
    decreases |ls|
  {
    if ls == [] then !s.inFn else TidyLine(p, s, ls[0]) && Tidy(p, Next(p, s, ls[0]), ls[1..])
  }

  lemma TidyLoses(p: Pruner, s: State, line: string)
    requires TidyLine(p, s, line)
    ensures Lost(p, s, line) == 0
  {
    var b := FindBrace(line);
    if !s.inFn && s.awaiting && b < |line| {
      NetNone(line[..b]);
    }
  }

  lemma {:induction false} TidyLosesNothing(p: Pruner, s: State, ls: seq<string>)
    requires Tidy(p, s, ls)
    ensures LostAll(p, s, ls) == 0 && Open(Final(p, s, ls)) == 0
    decreases |ls|
  {
    if ls != [] {
      TidyLoses(p, s, ls[0]);
      TidyLosesNothing(p, Next(p, s, ls[0]), ls[1..]);
    }
  }

  /** On tidy sources the skeleton has the net brace count of the source. */
  lemma Conservation(lang: Language, source: string)
    requires Braced(lang) && Tidy(PrunerOf(lang), START, Lines(source))
    ensures Net(Join(PruneLines(PrunerOf(lang), Lines(source)))) == Net(source)
  {
    Accounting(lang, source);
    TidyLosesNothing(PrunerOf(lang), START, Lines(source));
  }
}
