/** When a second pass over a skeleton changes nothing. */
module SkeletonPasses {
  import opened Text
  import opened Languages
  import opened Signatures
  import opened Skeleton

  // ------------------------------------------------------- lines already pruned

  lemma {:induction false} FindBraceIs(s: string, k: nat)
    requires k < |s| && s[k] == '{' && '{' !in s[..k]
    ensures FindBrace(s) == k
  {
    if k > 0 {
      assert s[..k][0] == s[0] && s[1..][..k - 1] == s[..k][1..];
      FindBraceIs(s[1..], k - 1);
    }
  }

  lemma TrimEndSpace(h: string)
    ensures TrimEnd(TrimEnd(h) + " ") == TrimEnd(h)
  {
    var r := TrimEnd(h);
    assert (r + " ")[..|r + " "| - 1] == r;
    assert TrimEnd(r) == r;
  }

  /** A pruned signature line has its brace right behind the signature. */
  lemma StubbedBrace(sig: string, stub: string, o: string)
    requires '{' !in sig && IsStub(stub) && o == sig + " " + stub
    ensures FindBrace(o) == |sig| + 1 && o[..|sig| + 1] == sig + " " && o[|sig| + 2..] == stub[1..]
    ensures o[|o| - 1] == '}'
  {
    var head := sig + " ";
    assert o == head + stub && '{' !in head;
    assert o[..|head|] == head && o[|head|] == stub[0];
    FindBraceIs(o, |head|);
    assert o[|head| + 1..] == stub[1..];
  }

  lemma KeepsOpened(p: Pruner, s: State, o: string, b: nat, sig: string)
    requires !s.inFn && !s.awaiting && p.classify(o) != Arrow
    requires b == FindBrace(o) < |o| && TrimEnd(o[..b]) == sig && o == sig + " " + p.stub && Net(o[b + 1..]) == -1
    ensures Emit(p, s, o) == [o] && !Next(p, s, o).inFn && !Next(p, s, o).awaiting
  {
  }

  lemma BracedNoArrow(p: Pruner, o: string)
    requires Legible(p) && o != [] && o[|o| - 1] == '}'
    ensures p.classify(o) != Arrow
  {
    assert EndAgrees(o, p.classify(o));
  }

  lemma KeepsPruned(p: Pruner, s: State, sig: string, o: string, b: nat)
    requires Legible(p) && !s.inFn && !s.awaiting && TrimEnd(sig + " ") == sig && o == sig + " " + p.stub
    requires b == FindBrace(o) < |o| && o[..b] == sig + " " && o[b + 1..] == p.stub[1..] && o[|o| - 1] == '}'
    ensures Emit(p, s, o) == [o] && !Next(p, s, o).inFn && !Next(p, s, o).awaiting
  {
    BracedNoArrow(p, o);
    NetStub(p.stub);
    KeepsOpened(p, s, o, b, sig);
  }

  lemma KeepsStubbed(p: Pruner, s: State, h: string, sig: string, o: string)
    requires Legible(p) && !s.inFn && !s.awaiting && '{' !in h && sig == TrimEnd(h) && o == sig + " " + p.stub
    ensures Emit(p, s, o) == [o] && !Next(p, s, o).inFn && !Next(p, s, o).awaiting
  {
    TrimEndSpace(h);
    NoBraceIn(h, sig);
    StubbedBrace(sig, p.stub, o);
    KeepsPruned(p, s, sig, o, |sig| + 1);
  }

  lemma NoBraceIn(h: string, sig: string)
    requires '{' !in h && sig <= h
    ensures '{' !in sig
  {
    forall i | 0 <= i < |sig|
      ensures sig[i] != '{'
    {
      assert sig[i] == h[i];
    }
  }

  lemma IndentedBrace(line: string, stub: string)
    requires IsStub(stub)
    ensures var w, o := Indent(line), Indent(line) + stub;
      Indent(o) == w && FindBrace(o) == |w| && o[|w| + 1..] == stub[1..]
  {
    var w := Indent(line);
    IndentBlank(line);
    assert forall i :: 0 <= i < |w| ==> w[i] == line[i];
    var o := w + stub;
    TrimStartIs(w, stub);
    assert o[..|w|] == w;
    FindBraceIs(o, |w|);
    assert o[|w| + 1..] == stub[1..];
  }

  lemma KeepsIndented(p: Pruner, s: State, line: string)
    requires Legible(p) && !s.inFn && s.awaiting
    ensures var o := Indent(line) + p.stub; Emit(p, s, o) == [o] && !Next(p, s, o).inFn && !Next(p, s, o).awaiting
  {
    IndentedBrace(line, p.stub);
    NetStub(p.stub);
  }

  /** An expression body replaced once is replaced by itself. */
  lemma ArrowedArrow(line: string, a: nat, sig: string, stub: string, o: string)
    requires a == FindArrow(line) < |line| && IsArrow(stub) && sig <= line[..a] && o == sig + stub
    ensures FindArrow(o) == |sig| + 1 && o[..|sig| + 1] == sig + " "
  {
    assert o[..|sig| + 1] == sig + " ";
    assert ArrowAt(o, |sig| + 1);
    forall i | 0 <= i < |sig| + 1
      ensures !ArrowAt(o, i)
    {
      NoArrowBefore(line, a, sig, stub, i);
    }
    FindArrowIs(o, |sig| + 1);
  }

  lemma NoArrowBefore(line: string, a: nat, sig: string, stub: string, i: nat)
    requires a <= |line| && sig <= line[..a] && i <= |sig| && (i < a ==> !ArrowAt(line, i)) && |stub| > 0 && stub[0] == ' '
    ensures !ArrowAt(sig + stub, i)
  {
    var o := sig + stub;
    if i + 1 < |sig| {
      assert o[i] == sig[i] == line[i] && o[i + 1] == sig[i + 1] == line[i + 1];
    } else if i + 1 == |sig| {
      assert o[i + 1] == ' ';
    } else {
      assert o[i] == ' ';
    }
  }

  lemma FindArrowIs(o: string, k: nat)
    requires ArrowAt(o, k) && forall i :: 0 <= i < k ==> !ArrowAt(o, i)
    ensures FindArrow(o) == k
  {
    var f := FindArrow(o);
    assert f < |o| ==> ArrowAt(o, f);
  }

  lemma KeepsReplaced(p: Pruner, s: State, o: string, a: nat)
    requires !s.inFn && !s.awaiting && p.classify(o) != Opener
    requires a == FindArrow(o) < |o| && TrimEnd(o[..a]) + p.arrow == o
    ensures Emit(p, s, o) == [o] && !Next(p, s, o).inFn && !Next(p, s, o).awaiting
  {
  }

  lemma EndedNoOpener(p: Pruner, sig: string, o: string)
    requires Legible(p) && o == sig + p.arrow
    ensures p.classify(o) != Opener
  {
    assert o[|o| - 1] == p.arrow[|p.arrow| - 1];
    assert EndAgrees(o, p.classify(o));
  }

  lemma KeepsArrowed(p: Pruner, s: State, line: string, a: nat, sig: string, o: string)
    requires Legible(p) && !s.inFn && !s.awaiting
    requires a == FindArrow(line) < |line| && sig == TrimEnd(line[..a]) && o == sig + p.arrow
    ensures Emit(p, s, o) == [o] && !Next(p, s, o).inFn && !Next(p, s, o).awaiting
  {
    ArrowedArrow(line, a, sig, p.arrow, o);
    EndedNoOpener(p, sig, o);
    TrimEndSpace(line[..a]);
    KeepsReplaced(p, s, o, |sig| + 1);
  }

  // ------------------------------------------------------------- the simulation

  /** A signature without its brace, which does not wait for it. */
  predicate Bare(p: Pruner, s: State, line: string) {
    !s.inFn && !s.awaiting && !p.waits && p.classify(line) == Opener && FindBrace(line) == |line|
  }

  /** The second pass stands where the first one does, but never inside a body. */
  ghost predicate Follows(s: State, t: State) {
    !t.inFn && s.awaiting == t.awaiting && (s.inFn ==> !s.awaiting)
  }

  /** A kept line is kept again. */
  lemma KeepsAgain(p: Pruner, s: State, t: State, line: string)
    requires Legible(p) && Follows(s, t) && !s.inFn && !Bare(p, s, line)
    ensures var o := Emit(p, s, line); Emit(p, t, o[0]) == o && Follows(Next(p, s, line), Next(p, t, o[0]))
  {
    var b := FindBrace(line);
    if s.awaiting {
      if b < |line| {
        KeepsIndented(p, t, line);
      }
    } else if p.classify(line) == Opener && b < |line| {
      KeepsStubbed(p, t, line[..b], TrimEnd(line[..b]), Emit(p, s, line)[0]);
    } else if p.classify(line) == Arrow && FindArrow(line) < |line| {
      KeepsArrowed(p, t, line, FindArrow(line), TrimEnd(line[..FindArrow(line)]), Emit(p, s, line)[0]);
    }
  }

  /** A bare signature outside a body, and some line kept after it. */
  predicate SwallowsAgain(p: Pruner, s: State, ls: seq<string>)
    decreases |ls|
  {
    ls != [] &&
    var n := Next(p, s, ls[0]);
    (Bare(p, s, ls[0]) && Out(p, n, ls[1..]) != []) || SwallowsAgain(p, n, ls[1..])
  }

  lemma OutStep(p: Pruner, s: State, ls: seq<string>)
    requires ls != []
    ensures s.inFn ==> Out(p, s, ls) == Out(p, Next(p, s, ls[0]), ls[1..])
    ensures !s.inFn ==> Out(p, s, ls) == [Emit(p, s, ls[0])[0]] + Out(p, Next(p, s, ls[0]), ls[1..])
  {
  }

  lemma OutUnfold(p: Pruner, s: State, o: string, rest: seq<string>)
    ensures Out(p, s, [o] + rest) == Emit(p, s, o) + Out(p, Next(p, s, o), rest)
  {
    assert ([o] + rest)[1..] == rest;
  }

  lemma {:induction false} OutShort(p: Pruner, s: State, ls: seq<string>)
    ensures |Out(p, s, ls)| <= |ls|
    decreases |ls|
  {
    if ls != [] {
      OutShort(p, Next(p, s, ls[0]), ls[1..]);
    }
  }

  lemma {:induction false} PassesAgree(p: Pruner, s: State, t: State, ls: seq<string>)
    requires Legible(p) && Follows(s, t) && !SwallowsAgain(p, s, ls)
    ensures Out(p, t, Out(p, s, ls)) == Out(p, s, ls)
    decreases |ls|
  {
    if ls != [] {
      var n, rest := Next(p, s, ls[0]), Out(p, Next(p, s, ls[0]), ls[1..]);
      OutStep(p, s, ls);
      if s.inFn {
        PassesAgree(p, n, t, ls[1..]);
      } else {
        var o := Emit(p, s, ls[0])[0];
        OutUnfold(p, t, o, rest);
        if Bare(p, s, ls[0]) {
          assert rest == [];
        } else {
          KeepsAgain(p, s, t, ls[0]);
          PassesAgree(p, n, Next(p, t, o), ls[1..]);
        }
      }
    }
  }

  lemma {:induction false} PassesShrink(p: Pruner, s: State, t: State, ls: seq<string>)
    requires Legible(p) && Follows(s, t) && SwallowsAgain(p, s, ls)
    ensures |Out(p, t, Out(p, s, ls))| < |Out(p, s, ls)|
    decreases |ls|
  {
    var n, rest := Next(p, s, ls[0]), Out(p, Next(p, s, ls[0]), ls[1..]);
    OutStep(p, s, ls);
    if s.inFn {
      PassesShrink(p, n, t, ls[1..]);
    } else {
      var o := Emit(p, s, ls[0])[0];
      OutUnfold(p, t, o, rest);
      if Bare(p, s, ls[0]) {
        NothingAfter(p, n, ls[1..]);
        OutStep(p, Next(p, t, o), rest);
        OutShort(p, Next(p, Next(p, t, o), rest[0]), rest[1..]);
      } else {
        KeepsAgain(p, s, t, ls[0]);
        PassesShrink(p, n, Next(p, t, o), ls[1..]);
      }
    }
  }

  /** Where a line is swallowed again, something is kept. */
  lemma {:induction false} NothingAfter(p: Pruner, s: State, ls: seq<string>)
    ensures SwallowsAgain(p, s, ls) ==> Out(p, s, ls) != []
    decreases |ls|
  {
    if ls != [] {
      NothingAfter(p, Next(p, s, ls[0]), ls[1..]);
    }
  }

  /** A second pass changes nothing, unless a bare signature is followed by a kept line; then
      it always loses lines. */
  lemma IdempotentIff(lang: Language, ls: seq<string>)
    requires Braced(lang)
    ensures var p := PrunerOf(lang);
      && (PruneLines(p, PruneLines(p, ls)) == PruneLines(p, ls) <==> !SwallowsAgain(p, START, ls))
      && |PruneLines(p, PruneLines(p, ls))| <= |PruneLines(p, ls)|
  {
    var p := PrunerOf(lang);
    AllLegible(lang);
    if SwallowsAgain(p, START, ls) {
      PassesShrink(p, START, START, ls);
    } else {
      PassesAgree(p, START, START, ls);
    }
  }

  lemma {:induction false} WaitingNeverSwallows(p: Pruner, s: State, ls: seq<string>)
    requires p.waits
    ensures !SwallowsAgain(p, s, ls)
    decreases |ls|
  {
    if ls != [] {
      WaitingNeverSwallows(p, Next(p, s, ls[0]), ls[1..]);
    }
  }

  /** C#, PHP and C++ skeletons are always left alone. */
  lemma IdempotentWaiting(lang: Language, ls: seq<string>)
    requires lang in {CSharp, Php, Cpp}
    ensures var p := PrunerOf(lang); PruneLines(p, PruneLines(p, ls)) == PruneLines(p, ls)
  {
    IdempotentIff(lang, ls);
    WaitingNeverSwallows(PrunerOf(lang), START, ls);
  }

  /** No line anywhere is a signature without its brace. */
  predicate Complete(p: Pruner, ls: seq<string>) {
    forall i :: 0 <= i < |ls| && p.classify(ls[i]) == Opener ==> FindBrace(ls[i]) < |ls[i]|
  }

  lemma {:induction false} CompleteNeverSwallows(p: Pruner, s: State, ls: seq<string>)
    requires Complete(p, ls)
    ensures !SwallowsAgain(p, s, ls)
    decreases |ls|
  {
    if ls != [] {
      CompleteNeverSwallows(p, Next(p, s, ls[0]), ls[1..]);
    }
  }

  /** Rust, TypeScript and Go skeletons are left alone when every signature carries its brace. */
  lemma IdempotentComplete(lang: Language, ls: seq<string>)
    requires Braced(lang) && Complete(PrunerOf(lang), ls)
    ensures var p := PrunerOf(lang); PruneLines(p, PruneLines(p, ls)) == PruneLines(p, ls)
  {
    IdempotentIff(lang, ls);
    CompleteNeverSwallows(PrunerOf(lang), START, ls);
  }

  /** A Go signature line without a brace. */
  ghost predicate GoBare(line: string) {
    && StartsWith(line, "func ") && !Whitespace(line[|line| - 1]) && line[|line| - 1] != ';'
    && forall i :: 0 <= i < |line| ==> line[i] != '{'
  }

  lemma BareGo(line: string)
    requires GoBare(line)
    ensures GoClass(line) == Opener && FindBrace(line) == |line|
  {
    assert line[0] == "func "[0];
    assert TrimEnd(line) == line && TrimStart(line) == line;
    TerminatedIff(line);
    var f := FindBrace(line);
  }

  lemma BlankGo(blank: string)
    requires blank == []
    ensures GoClass(blank) == Plain
  {
    assert Trim(blank) == [];
  }

  /** A Go signature without its brace makes every pass drop the line after it. */
  lemma BareSwallows(line: string, blank: string)
    requires GoBare(line) && blank == []
    ensures var p := PrunerOf(Go);
      PruneLines(p, PruneLines(p, [line, blank, blank])) != PruneLines(p, [line, blank, blank])
  {
    BareGo(line);
    BlankGo(blank);
    Swallows(PrunerOf(Go), line, blank);
    IdempotentIff(Go, [line, blank, blank]);
  }

  lemma BareExample()
    ensures GoBare("func a()")
  {
  }

  /** Another text in the second pass. */
  ghost predicate ChangedLines(lang: Language, ls: seq<string>)
    requires Braced(lang)
  {
    var p := PrunerOf(lang);
    PruneLines(p, PruneLines(p, ls)) != PruneLines(p, ls)
  }

  lemma BareChanges(line: string, blank: string)
    requires GoBare(line) && blank == []
    ensures ChangedLines(Go, [line, blank, blank])
  {
    BareSwallows(line, blank);
  }

  /** The shortest one: a signature and two blank lines. */
  lemma BareGoChanges()
    ensures ChangedLines(Go, ["func a()", "", ""])
  {
    BareExample();
    BareChanges("func a()", "");
  }

  lemma Swallows(p: Pruner, line: string, blank: string)
    requires Bare(p, START, line) && blank == [] && p.classify(blank) == Plain
    ensures SwallowsAgain(p, START, [line, blank, blank])
  {
    var ls := [line, blank, blank];
    var n := Next(p, START, ls[0]);
    assert ls[1..] == [blank, blank] && ls[1..][1..] == [blank];
    var m := Next(p, n, blank);
    assert !m.inFn;
    OutStep(p, n, ls[1..]);
    OutStep(p, m, [blank]);
  }
}
