/** What the Markdown pruner never drops: headings, fences, table heads, callouts, metadata. */
module MarkdownSpine {
  import opened Markdown
  import opened MarkdownPasses
  import opened MarkdownText

  /** `a` can be read off `b` from left to right. */
  ghost predicate Within(a: seq<string>, b: seq<string>)
    decreases |b|
  {
    a == [] || (b != [] && ((a[0] == b[0] && Within(a[1..], b[1..])) || Within(a, b[1..])))
  }

  lemma {:induction false} WithinLonger(a: seq<string>, x: seq<string>, b: seq<string>)
    requires Within(a, b)
    ensures Within(a, x + b)
    decreases |x|
  {
    if x == [] {
      assert x + b == b;
    } else {
      WithinLonger(a, x[1..], b);
      assert (x + b)[1..] == x[1..] + b;
    }
  }

  lemma WithinNext(c: string, a: seq<string>, b: seq<string>)
    requires Within(a, b)
    ensures Within([c] + a, [c] + b)
  {
    assert ([c] + a)[1..] == a && ([c] + b)[1..] == b;
  }

  /** Dropping a last element that is not wanted. */
  lemma {:induction false} WithinShorter(a: seq<string>, b: seq<string>, c: string)
    requires Within(a, b + [c]) && c !in a
    ensures Within(a, b)
    decreases |b|
  {
    if a != [] {
      var all := b + [c];
      assert all[1..] == if b == [] then [] else b[1..] + [c];
      if b != [] {
        if a[0] == all[0] && Within(a[1..], all[1..]) {
          WithinShorter(a[1..], b[1..], c);
        } else {
          WithinShorter(a, b[1..], c);
        }
      }
    }
  }

  function TrimmedOf(ls: seq<Line>): (r: seq<string>)
    ensures |r| == |ls| && forall i :: 0 <= i < |ls| ==> r[i] == ls[i].t
  {
    seq(|ls|, i requires 0 <= i < |ls| => ls[i].t)
  }

  /** A line that carries structure: it opens or closes a fence or front matter, is front
      matter, a heading or its underline, a table separator or head, a callout or metadata. */
  predicate Structural(m: Reader, s: State, l: Line, n: bool) {
    var v := m.view(l.t);
    || (s.fence && v.fence > 0 && v.first == s.mark && v.fence >= s.length)
    || (!s.fence && v.fence > 0)
    || (!s.fence && v.fence == 0 && ((!s.started && v.rule) || s.front) && !v.blank)
    || IsHeading(m, s, l) || Underlines(m, s, l)
    || (IsRow(m, s, l) && (v.separator || n))
    || (IsText(m, s, l) && !v.sentinel && !v.comment && !v.heading && !(s.prev != [] && v.underline) && !v.bar && (v.callout || v.metadata))
  }

  /** The structural lines of a document, in order. */
  function Spine(m: Reader, s: State, ls: seq<Line>): seq<string>
    decreases |ls|
  {
    if ls == [] then []
    else
      var rest := Spine(m, First(m, s, ls).state, ls[1..]);
      if Structural(m, s, ls[0], NextSeparator(m, ls[1..])) then [ls[0].t] + rest else rest
  }

  /** Where a structural line stands in what its turn keeps. */
  lemma StructuralKept(m: Reader, s: State, l: Line, n: bool) returns (before: seq<string>)
    requires Lawful(m) && Structural(m, s, l, n)
    ensures TrimmedOf(Step(m, s, l, n).out) == before + [l.t]
  {
    var out := Step(m, s, l, n).out;
    assert out != [] && out[|out| - 1].t == l.t;
    before := TrimmedOf(out)[..|out| - 1];
  }

  lemma TrimmedConcat(a: seq<Line>, b: seq<Line>)
    ensures TrimmedOf(a + b) == TrimmedOf(a) + TrimmedOf(b)
  {
  }

  lemma {:induction false} SpineKept(m: Reader, s: State, ls: seq<Line>)
    requires Lawful(m)
    ensures Within(Spine(m, s, ls), TrimmedOf(Kept(m, s, ls)))
    decreases |ls|
  {
    if ls != [] {
      var n, r := NextSeparator(m, ls[1..]), First(m, s, ls);
      var spine, kept := Spine(m, r.state, ls[1..]), TrimmedOf(Kept(m, r.state, ls[1..]));
      SpineKept(m, r.state, ls[1..]);
      TrimmedConcat(r.out, Kept(m, r.state, ls[1..]));
      if Structural(m, s, ls[0], n) {
        var before := StructuralKept(m, s, ls[0], n);
        Spliced(ls[0].t, spine, kept, before, TrimmedOf(r.out));
      } else {
        WithinLonger(spine, TrimmedOf(r.out), kept);
      }
    }
  }

  lemma Spliced(c: string, spine: seq<string>, kept: seq<string>, before: seq<string>, out: seq<string>)
    requires Within(spine, kept) && out == before + [c]
    ensures Within([c] + spine, out + kept)
  {
    WithinNext(c, spine, kept);
    WithinLonger([c] + spine, before, [c] + kept);
    assert before + ([c] + kept) == out + kept;
  }

  lemma {:induction false} SpineFilled(m: Reader, s: State, ls: seq<Line>)
    requires Lawful(m)
    ensures [] !in Spine(m, s, ls)
    decreases |ls|
  {
    if ls != [] {
      SpineFilled(m, First(m, s, ls).state, ls[1..]);
      assert Sensible(m, ls[0].t);
    }
  }

  lemma {:induction false} WithinDropped(a: seq<string>, ls: seq<Line>)
    requires Within(a, TrimmedOf(ls)) && [] !in a
    ensures Within(a, TrimmedOf(DropBlanks(ls)))
  {
    if ls != [] && ls[|ls| - 1].t == [] {
      DropsTo(ls);
      Snoc(ls);
      TrimmedConcat(ls[..|ls| - 1], [ls[|ls| - 1]]);
      assert TrimmedOf([ls[|ls| - 1]]) == [[]];
      WithinShorter(a, TrimmedOf(ls[..|ls| - 1]), []);
      WithinDropped(a, ls[..|ls| - 1]);
    } else {
      assert DropBlanks(ls) == ls;
    }
  }

  /** Every structural line of a document is in its skeleton, in the order of the document. */
  lemma StructurePreserved(m: Reader, ls: seq<Line>)
    requires Lawful(m)
    ensures Within(Spine(m, START, ls), TrimmedOf(PruneLines(m, ls)))
  {
    SpineKept(m, START, ls);
    SpineFilled(m, START, ls);
    WithinDropped(Spine(m, START, ls), Kept(m, START, ls));
  }

  /** The same of documents: read off the skeleton, the structural lines are all there, in order. */
  lemma DocumentStructurePreserved(source: string)
    requires BOM !in StripBom(source)
    ensures Within(Spine(READER, START, Document(source)), TrimmedOf(Document(PruneMarkdown(source))))
  {
    ReaderLawful();
    RenderIff(READER, source);
    StructurePreserved(READER, Document(source));
  }
}
