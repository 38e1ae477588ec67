/** The Python pruner: bodies are left out by indentation. */
module PythonSkeleton {
  import opened Collections
  import opened Text

  /** Bytes of leading white space. */
  function IndentOf(line: string): nat {
    ByteLength(line[..|line| - |TrimStart(line)|])
  }

  predicate Def(line: string) {
    StartsWith(Trim(line), "def ") || StartsWith(Trim(line), "async def ")
  }

  function Spaces(n: nat): (s: string)
    ensures |s| == n && forall i :: 0 <= i < n ==> s[i] == ' '
  {
    seq(n, _ => ' ')
  }

  function Ellipsis(indent: nat): string {
    Spaces(indent + 4) + "..."
  }

  datatype State = State(inBody: bool, fnIndent: nat)

  predicate Skips(s: State, line: string) {
    s.inBody && IndentOf(line) > s.fnIndent
  }

  function Next(s: State, line: string): State {
    if Trim(line) == [] || Skips(s, line) then s
    else if Def(line) then State(true, IndentOf(line)) else s.(inBody := false)
  }

  function Emit(s: State, line: string): (out: seq<string>)
    ensures |out| <= 2
  {
    if Trim(line) == [] then [[]]
    else if Skips(s, line) then []
    else if Def(line) then [line, Ellipsis(IndentOf(line))] else [line]
  }

  function Out(s: State, ls: seq<string>): seq<string>
    decreases |ls|
  {
    if ls == [] then [] else Emit(s, ls[0]) + Out(Next(s, ls[0]), ls[1..])
  }

  function PruneLines(ls: seq<string>): seq<string> {
    Out(State(false, 0), ls)
  }

  method PruneLine(inBody: bool, fnIndent: nat, line: string) returns (inBody': bool, fnIndent': nat, out: seq<string>)
    ensures out == Emit(State(inBody, fnIndent), line)
    ensures State(inBody', fnIndent') == Next(State(inBody, fnIndent), line)
  {
    inBody', fnIndent', out := inBody, fnIndent, [];
    if Trim(line) == [] {
      out := [[]];
      return;
    }
    var indent := IndentOf(line);
    if inBody {
      if indent <= fnIndent {
        inBody' := false;
      } else {
        return;
      }
    }
    if Def(line) {
      out := [line, Ellipsis(indent)];
      inBody', fnIndent' := true, indent;
    } else {
      out := [line];
    }
  }

  method PruneLoop(lines: seq<string>) returns (out: seq<string>)
    ensures out == PruneLines(lines)
  {
    out := [];
    var inBody, fnIndent := false, 0;
    for i := 0 to |lines|
      invariant out + Out(State(inBody, fnIndent), lines[i..]) == PruneLines(lines)
    {
      var kept;
      OutStep(State(inBody, fnIndent), lines[i..]);
      assert lines[i..][1..] == lines[i + 1..];
      inBody, fnIndent, kept := PruneLine(inBody, fnIndent, lines[i]);
      Regroup(out, kept, Out(State(inBody, fnIndent), lines[i + 1..]));
      out := out + kept;
    }
  }

  lemma OutStep(s: State, ls: seq<string>)
    requires ls != []
    ensures Out(s, ls) == Emit(s, ls[0]) + Out(Next(s, ls[0]), ls[1..])
  {
  }

  method Prune(source: string) returns (skeleton: string)
    ensures skeleton == Join(PruneLines(Lines(source)))
  {
    var out := PruneLoop(Lines(source));
    skeleton := Join(out);
  }

  // -------------------------------------------------------------- second pass

  lemma {:induction false} SpacesLength(w: string)
    requires forall i :: 0 <= i < |w| ==> w[i] == ' '
    ensures ByteLength(w) == |w|
  {
    if w != [] {
      SpacesLength(w[1..]);
    }
  }

  lemma DotsIndent(w: string, dots: string, o: string)
    requires (forall i :: 0 <= i < |w| ==> w[i] == ' ') && o == w + dots && dots != [] && !Whitespace(dots[0])
    ensures IndentOf(o) == |w|
  {
    TrimStartIs(w, dots);
    SpacesLength(w);
    assert o[..|w|] == w;
  }

  lemma DotsFilled(w: string, dots: string, o: string)
    requires (forall i :: 0 <= i < |w| ==> w[i] == ' ') && o == w + dots
    requires dots != [] && !Whitespace(dots[0]) && !Whitespace(dots[|dots| - 1])
    ensures Trim(o) != []
  {
    TrimStartIs(w, dots);
    assert o[|o| - 1] == dots[|dots| - 1];
    assert TrimEnd(o) == o;
  }

  lemma DotsDeeper(w: string, dots: string, o: string)
    requires (forall i :: 0 <= i < |w| ==> w[i] == ' ') && o == w + dots
    requires dots != [] && !Whitespace(dots[0]) && !Whitespace(dots[|dots| - 1])
    ensures IndentOf(o) == |w| && Trim(o) != []
  {
    DotsIndent(w, dots, o);
    DotsFilled(w, dots, o);
  }

  /** The ellipsis is inside the body it stands for. */
  lemma EllipsisSkipped(s: State, indent: nat)
    requires s == State(true, indent)
    ensures Emit(s, Ellipsis(indent)) == [] && Next(s, Ellipsis(indent)) == s
  {
    DotsDeeper(Spaces(indent + 4), "...", Ellipsis(indent));
  }

  lemma OutUnfold(s: State, o: string, rest: seq<string>)
    ensures Out(s, [o] + rest) == Emit(s, o) + Out(Next(s, o), rest)
  {
    assert ([o] + rest)[1..] == rest;
  }

  lemma BlankAgain(s: State, blank: string)
    requires blank == []
    ensures Emit(s, blank) == [blank] && Next(s, blank) == s
  {
    assert Trim(blank) == [];
  }

  /** What is kept of a line is kept again, and leaves the state the line leaves. */
  lemma KeptAgain(s: State, line: string, rest: seq<string>)
    ensures Out(s, Emit(s, line) + rest) == Emit(s, line) + Out(Next(s, line), rest)
  {
    if Trim(line) == [] {
      BlankAgain(s, []);
      OutUnfold(s, [], rest);
    } else if Skips(s, line) {
      assert [] + rest == rest;
    } else if Def(line) {
      EllipsisSkipped(Next(s, line), IndentOf(line));
      TwoAgain(s, line, Ellipsis(IndentOf(line)), rest);
    } else {
      OutUnfold(s, line, rest);
    }
  }

  lemma SkippedAgain(n: State, dots: string, rest: seq<string>)
    requires Emit(n, dots) == [] && Next(n, dots) == n
    ensures Out(n, [dots] + rest) == Out(n, rest)
  {
    OutUnfold(n, dots, rest);
  }

  lemma TwoAgain(s: State, line: string, dots: string, rest: seq<string>)
    requires Emit(s, line) == [line, dots] && Emit(Next(s, line), dots) == [] && Next(Next(s, line), dots) == Next(s, line)
    ensures Out(s, [line, dots] + rest) == [line, dots] + Out(Next(s, line), rest)
  {
    SkippedAgain(Next(s, line), dots, rest);
    OutUnfold(s, line, [dots] + rest);
    Pair(line, dots, rest);
  }

  lemma Pair<T>(a: T, b: T, rest: seq<T>)
    ensures [a, b] + rest == [a] + ([b] + rest)
  {
  }

  /** The second pass is always in the state of the first. */
  lemma {:induction false} PassesAgree(s: State, ls: seq<string>)
    ensures Out(s, Out(s, ls)) == Out(s, ls)
    decreases |ls|
  {
    if ls != [] {
      OutStep(s, ls);
      PassesAgree(Next(s, ls[0]), ls[1..]);
      KeptAgain(s, ls[0], Out(Next(s, ls[0]), ls[1..]));
    }
  }

  /** Python skeletons are always left alone. */
  lemma Idempotent(ls: seq<string>)
    ensures PruneLines(PruneLines(ls)) == PruneLines(ls)
  {
    PassesAgree(State(false, 0), ls);
  }
}
