/** Shortening of over-long evidence: the last diagnostic lines, a marker with the
    original length, and a suffix, all cut between characters. */
module Evidence {
  import opened Options
  import opened Text
  import Utf8

  const MAX_STORED: nat := 2051

  // ----------------------------------------------------------------- needles

  const NEEDLES: seq<string> :=
    ["error:", "error[", "warning:", "warning[", "-->", "FAILED", "panicked"]

  ghost predicate ProperNeedle(n: string) {
    3 <= |n| <= 8 && n[0] != 's' && forall i :: 0 <= i < |n| ==> n[i] < '\U{80}'
  }

  lemma ProperNeedles(n: string)
    requires n in NEEDLES
    ensures ProperNeedle(n)
  {
  }

  /** `str::find` */
  function Find(s: string, p: string): (r: Option<nat>)
    ensures r.Some? ==> r.value <= |s| && p <= s[r.value..]
    ensures r.None? <==> !Contains(s, p)
  {
    if p <= s then Some(0)
    else if s == [] then None
    else
      var r := Find(s[1..], p);
      if r.Some? then assert s[1..][r.value..] == s[r.value + 1..]; Some(r.value + 1) else None
  }

  function Least(a: Option<nat>, b: Option<nat>): Option<nat> {
    if a.None? then b else if b.None? || a.value <= b.value then a else b
  }

  /** The least position of any needle. */
  function FirstOf(line: string, needles: seq<string>): Option<nat> {
    if needles == [] then None else Least(Find(line, needles[0]), FirstOf(line, needles[1..]))
  }

  /** `diagnostic_needle_at` */
  function NeedleAt(line: string): Option<nat> {
    FirstOf(line, NEEDLES)
  }

  predicate IsDiagnostic(line: string) {
    NeedleAt(line).Some?
  }

  lemma {:induction false} FirstOfNone(line: string, needles: seq<string>, n: string)
    requires n in needles && Contains(line, n)
    ensures FirstOf(line, needles).Some?
  {
    if n != needles[0] {
      FirstOfNone(line, needles[1..], n);
    }
  }

  /** The position found holds a needle, and no needle is found further left. */
  lemma {:induction false} FirstOfSome(line: string, needles: seq<string>) returns (n: string)
    requires FirstOf(line, needles).Some?
    ensures n in needles && FirstOf(line, needles).value <= |line| && n <= line[FirstOf(line, needles).value..]
  {
    if FirstOf(line, needles) == Find(line, needles[0]) {
      n := needles[0];
    } else {
      n := FirstOfSome(line, needles[1..]);
    }
  }

  lemma {:induction false} FirstOfLeast(line: string, needles: seq<string>, n: string)
    requires n in needles && Find(line, n).Some?
    ensures FirstOf(line, needles).Some? && FirstOf(line, needles).value <= Find(line, n).value
  {
    if n != needles[0] {
      FirstOfLeast(line, needles[1..], n);
    }
  }

  lemma {:induction false} FindLeast(s: string, p: string, i: nat)
    requires i <= |s| && p <= s[i..]
    ensures Find(s, p).Some? && Find(s, p).value <= i
    decreases i
  {
    if i > 0 {
      assert s[1..][i - 1..] == s[i..];
      FindLeast(s[1..], p, i - 1);
    } else {
      assert s[0..] == s;
    }
  }

  /** No needle stands further left than the one found. */
  lemma NeedleLeftmost(line: string, n: string, i: nat)
    requires n in NEEDLES && i <= |line| && n <= line[i..]
    ensures NeedleAt(line).Some? && NeedleAt(line).value <= i
  {
    FindLeast(line, n, i);
    FirstOfLeast(line, NEEDLES, n);
  }

  /** A line with a needle anywhere is diagnostic. */
  lemma HoldsNeedle(s: string, i: nat, n: string)
    requires i <= |s| && n in NEEDLES && n <= s[i..]
    ensures IsDiagnostic(s)
  {
    FoundAt(s, i, n);
    FirstOfNone(s, NEEDLES, n);
  }

  lemma {:induction false} FoundAt(s: string, i: nat, p: string)
    requires i <= |s| && p <= s[i..]
    ensures Contains(s, p)
    decreases i
  {
    if i > 0 {
      assert s[1..][i - 1..] == s[i..];
      FoundAt(s[1..], i - 1, p);
    } else {
      assert s[0..] == s;
    }
  }

  // ----------------------------------------------------------------- cutting

  function PrefixWithin(s: string, max: nat): (r: string)
    ensures r <= s && |r| <= max
  {
    if max >= |s| then s else s[..Utf8.Floor(s, max)]
  }

  /** Where the suffix of at most `max` bytes starts. */
  function SuffixStart(s: string, max: nat): (i: nat)
    ensures i <= |s| && |s| - i <= max && Utf8.Boundary(s, i)
    ensures max <= |s| ==> |s| - max <= i
    ensures i > 0 && |s| - i < max ==> Utf8.Continuation(s[i - 1])
  {
    if max >= |s| then 0
    else
      var b := Utf8.Ceil(s, |s| - max);
      assert b > |s| - max ==> !Utf8.Boundary(s, b - 1);
      b
  }

  function SuffixWithin(s: string, max: nat): (r: string)
    ensures |r| <= max && |r| <= |s|
  {
    s[SuffixStart(s, max)..]
  }

  function Clip(line: string, budget: nat): (r: string)
    ensures |r| <= budget
  {
    if budget == 0 then ""
    else if |line| <= budget then line
    else
      var at := NeedleAt(line);
      if at.None? then ""
      else
        var cut := if at.value <= |line| && |line| - at.value > budget
                   then PrefixWithin(line[at.value..], budget) else SuffixWithin(line, budget);
        if IsDiagnostic(cut) then cut else ""
  }

  lemma {:induction false} AsciiThenBoundary(s: string, i: nat)
    requires Utf8.Valid(s) && i < |s| && s[i] < '\U{80}'
    ensures Utf8.Boundary(s, i + 1)
    decreases |s|
  {
    var n := Utf8.CharLen(s[0]);
    assert n > 1 ==> Utf8.Continuation(s[1]);
    if i >= n {
      AsciiThenBoundary(s[n..], i - n);
    } else {
      assert i == 0 && n == 1;
      assert |s| > 1 ==> s[1..][0] == s[1];
    }
  }

  ghost predicate Leftmost(line: string, at: nat) {
    forall m, i :: m in NEEDLES && 0 <= i <= |line| && m <= line[i..] ==> at <= i
  }

  /** The clip of a long diagnostic line keeps its first needle. */
  lemma ClipKeepsNeedle(line: string, budget: nat) returns (n: string)
    requires Utf8.Valid(line) && IsDiagnostic(line) && 8 <= budget < |line|
    ensures var at := NeedleAt(line).value;
      && n in NEEDLES && at <= |line| && n <= line[at..] && Leftmost(line, at)
      && if |line| - at <= budget
         then Clip(line, budget) == SuffixWithin(line, budget) && SuffixStart(line, budget) <= at
         else Clip(line, budget) == PrefixWithin(line[at..], budget) && n <= Clip(line, budget)
  {
    n := FirstOfSome(line, NEEDLES);
    ProperNeedles(n);
    var at := NeedleAt(line).value;
    assert line[at] == line[at..][0] == n[0];
    assert Utf8.Boundary(line, at);
    forall m, i | m in NEEDLES && 0 <= i <= |line| && m <= line[i..]
      ensures at <= i
    {
      NeedleLeftmost(line, m, i);
    }
    if |line| - at <= budget {
      ClipSuffix(line, budget, at, n);
    } else {
      Utf8.ValidSplit(line, at);
      ClipPrefix(line[at..], budget, n);
    }
  }

  lemma ClipSuffix(line: string, budget: nat, at: nat, n: string)
    requires at <= |line| && n in NEEDLES && n <= line[at..] && Utf8.Boundary(line, at)
    requires |line| - at <= budget < |line|
    ensures SuffixStart(line, budget) <= at && IsDiagnostic(SuffixWithin(line, budget))
  {
    var st := SuffixStart(line, budget);
    assert st <= at;
    assert line[st..][at - st..] == line[at..];
    HoldsNeedle(line[st..], at - st, n);
  }

  lemma ClipPrefix(s: string, budget: nat, n: string)
    requires Utf8.Valid(s) && n in NEEDLES && n <= s && 8 <= budget < |s|
    ensures n <= PrefixWithin(s, budget) && IsDiagnostic(PrefixWithin(s, budget))
  {
    ProperNeedles(n);
    assert s[|n| - 1] == n[|n| - 1];
    AsciiThenBoundary(s, |n| - 1);
    var f := Utf8.Floor(s, budget);
    assert |n| <= f;
    assert s[..f][0..] == s[..f];
    HoldsNeedle(s[..f], 0, n);
  }

  // ----------------------------------------------------------------- section

  /** The lines that hold a needle, in order. */
  function Diagnostics(lines: seq<string>): (r: seq<string>)
    ensures forall i :: 0 <= i < |r| ==> IsDiagnostic(r[i])
    ensures forall i :: 0 <= i < |r| ==> r[i] in lines
  {
    if lines == [] then []
    else
      var n := |lines| - 1;
      Diagnostics(lines[..n]) + (if IsDiagnostic(lines[n]) then [lines[n]] else [])
  }

  /** The least start, walking down from `j`, whose lines still fit when joined. */
  function Fit(lines: seq<string>, budget: nat, j: nat): (k: nat)
    requires j <= |lines|
    ensures k <= j
  {
    if j > 0 && |Join(lines[j - 1..])| <= budget then Fit(lines, budget, j - 1) else j
  }

  function Section(lines: seq<string>, budget: nat): string
    decreases |lines|
  {
    if budget == 0 || lines == [] then ""
    else
      var n := |lines| - 1;
      if |lines[n]| <= budget then Join(lines[Fit(lines, budget, n)..])
      else if Clip(lines[n], budget) != "" then Clip(lines[n], budget)
      else Section(lines[..n], budget)
  }

  lemma {:induction false} FitMeaning(lines: seq<string>, budget: nat, j: nat)
    requires j <= |lines| && |Join(lines[j..])| <= budget
    ensures |Join(lines[Fit(lines, budget, j)..])| <= budget
    ensures Fit(lines, budget, j) > 0 ==> |Join(lines[Fit(lines, budget, j) - 1..])| > budget
    decreases j
  {
    if j > 0 && |Join(lines[j - 1..])| <= budget {
      FitMeaning(lines, budget, j - 1);
    }
  }

  lemma JoinLast(lines: seq<string>)
    requires lines != []
    ensures Join(lines[|lines| - 1..]) == lines[|lines| - 1]
  {
  }

  lemma {:induction false} SectionFits(lines: seq<string>, budget: nat)
    ensures |Section(lines, budget)| <= budget
    decreases |lines|
  {
    if budget > 0 && lines != [] {
      var n := |lines| - 1;
      if |lines[n]| <= budget {
        JoinLast(lines);
        FitMeaning(lines, budget, n);
      } else if Clip(lines[n], budget) == "" {
        SectionFits(lines[..n], budget);
      }
    }
  }

  /** The backward loop over the diagnostic lines. */
  method DiagnosticSection(lines: seq<string>, budget: nat) returns (r: string)
    ensures r == Section(lines, budget)
  {
    if budget == 0 || lines == [] {
      return "";
    }
    var i := |lines|;
    assert lines[..i] == lines;
    while i > 0
      invariant 0 <= i <= |lines|
      invariant Section(lines, budget) == Section(lines[..i], budget)
    {
      var n := i - 1;
      var here := lines[..i];
      assert here[n] == lines[n] && here[..n] == lines[..n];
      if |lines[n]| <= budget {
        r := JoinFitting(here, budget);
        return;
      }
      var clipped := Clip(lines[n], budget);
      if clipped != "" {
        return clipped;
      }
      i := n;
    }
    r := "";
  }

  /** Once the last line is chosen: earlier lines are added while they fit. */
  method JoinFitting(lines: seq<string>, budget: nat) returns (r: string)
    requires lines != [] && |lines[|lines| - 1]| <= budget
    ensures r == Join(lines[Fit(lines, budget, |lines| - 1)..])
  {
    var n := |lines| - 1;
    var chosen := [lines[n]];
    var used := |lines[n]|;
    var i := n;
    assert lines[n..] == [lines[n]];
    while i > 0 && used + 1 + |lines[i - 1]| <= budget
      invariant 0 <= i <= n && chosen == lines[i..] && used == |Join(lines[i..])|
      invariant Fit(lines, budget, n) == Fit(lines, budget, i)
    {
      JoinCons(lines, i);
      chosen := [lines[i - 1]] + chosen;
      used := used + 1 + |lines[i - 1]|;
      i := i - 1;
    }
    if i > 0 {
      JoinCons(lines, i);
    }
    r := Join(chosen);
  }

  lemma JoinCons(lines: seq<string>, i: nat)
    requires 0 < i < |lines|
    ensures lines[i - 1..] == [lines[i - 1]] + lines[i..]
    ensures Join(lines[i - 1..]) == lines[i - 1] + "\n" + Join(lines[i..])
  {
    assert lines[i - 1..][1..] == lines[i..];
  }

  // ------------------------------------------------------------------ marker

  const ELLIPSIS: string := "\U{E2}\U{80}\U{A6}"

  function Digit(d: nat): (c: char)
    requires d < 10
    ensures '0' <= c <= '9'
  {
    '0' + d as char
  }

  function Digits(n: nat): (s: string)
    ensures s != [] && forall i :: 0 <= i < |s| ==> '0' <= s[i] <= '9'
  {
    if n < 10 then [Digit(n)] else Digits(n / 10) + [Digit(n % 10)]
  }

  function MarkerText(n: nat): string {
    "truncated " + Digits(n) + " bytes"
  }

  /** `truncation_marker` */
  function Marker(n: nat): string {
    ELLIPSIS + "[" + MarkerText(n) + "]" + ELLIPSIS
  }

  ghost function Pow10(k: nat): nat {
    if k == 0 then 1 else 10 * Pow10(k - 1)
  }

  lemma {:induction false} DigitsLength(n: nat, k: nat)
    requires k > 0 && n < Pow10(k)
    ensures |Digits(n)| <= k
  {
    if n >= 10 {
      DigitsLength(n / 10, k - 1);
    }
  }

  /** Lengths are machine words. */
  const USIZE: nat := 0x1_0000_0000_0000_0000

  lemma MarkerLength(n: nat)
    requires n < USIZE
    ensures 25 <= |Marker(n)| <= 44
  {
    assert Pow10(4) == 10_000;
    assert Pow10(8) == 100_000_000;
    assert Pow10(12) == 1_000_000_000_000;
    assert Pow10(16) == 10_000_000_000_000_000;
    assert Pow10(20) == 100_000_000_000_000_000_000;
    DigitsLength(n, 20);
  }

  // ------------------------------------------------------------------ shrink

  function Body(text: string): (n: nat) {
    if |Marker(|text|)| >= MAX_STORED then 0 else MAX_STORED - |Marker(|text|)|
  }

  /** The diagnostic lines that are kept. */
  function Diag(text: string): string {
    Section(Diagnostics(Lines(text)), Body(text) / 2)
  }

  function TailBudget(text: string): nat {
    var d := |Diag(text)| + (if Diag(text) != "" then 1 else 0);
    if d <= Body(text) then Body(text) - d else 0
  }

  function Tail(text: string): string {
    SuffixWithin(text, TailBudget(text))
  }

  /** Diagnostic lines on their own line, then the marker, then the tail. */
  function Assemble(diag: string, marker: string, tail: string): string {
    (if diag != "" then diag + "\n" else "") + marker + tail
  }

  /** `shrink_evidence` */
  function Shrink(text: string): string {
    if |Marker(|text|)| >= MAX_STORED then PrefixWithin(Marker(|text|), MAX_STORED)
    else Assemble(Diag(text), Marker(|text|), Tail(text))
  }

  /** The stored text never exceeds the bound, and falls short of it by exactly the bytes
      the tail lost to a character boundary. */
  lemma ShrinkLength(text: string)
    ensures |Shrink(text)| <= MAX_STORED
    ensures |Marker(|text|)| < MAX_STORED ==>
      |Shrink(text)| == MAX_STORED - (TailBudget(text) - |Tail(text)|)
  {
    SectionFits(Diagnostics(Lines(text)), Body(text) / 2);
  }

  method ShrinkEvidence(text: string) returns (stored: string)
    ensures stored == Shrink(text)
  {
    var marker := Marker(|text|);
    if |marker| >= MAX_STORED {
      return PrefixWithin(marker, MAX_STORED);
    }
    var budget := MAX_STORED - |marker|;
    var diag := DiagnosticSection(Diagnostics(Lines(text)), budget / 2);
    assert diag == Diag(text);
    var sep := if diag != "" then 1 else 0;
    var tail := SuffixWithin(text, if |diag| + sep <= budget then budget - (|diag| + sep) else 0);
    assert tail == Tail(text);
    stored := if diag != "" then diag + "\n" else "";
    stored := stored + marker + tail;
  }

  // ------------------------------------------------- what the diagnostics are

  /** The lines kept are a run of last diagnostic lines, or a clip of the last one. */
  ghost predicate KeepsLastDiagnostics(text: string)
    requires Diagnostics(Lines(text)) != []
  {
    var ds, d, b := Diagnostics(Lines(text)), Diag(text), Body(text) / 2;
    var last := ds[|ds| - 1];
    if |last| <= b then
      exists k :: 0 <= k < |ds| && d == Join(ds[k..]) && |d| <= b && (k > 0 ==> |Join(ds[k - 1..])| > b)
    else
      var at := NeedleAt(last);
      && at.Some? && at.value <= |last|
      && (exists n :: n in NEEDLES && n <= last[at.value..] &&
           if |last| - at.value <= b
           then SuffixStart(last, b) <= at.value && d == last[SuffixStart(last, b)..]
           else d <= last[at.value..] && n <= d)
  }

  lemma DiagIsLast(text: string, ds: seq<string>, b: nat)
    requires ds != [] && ds == Diagnostics(Lines(text)) && 8 <= b == Body(text) / 2
    requires Utf8.Valid(ds[|ds| - 1])
    ensures Diagnostics(Lines(text)) != [] && KeepsLastDiagnostics(text)
  {
    var n := |ds| - 1;
    if |ds[n]| <= b {
      JoinLast(ds);
      FitMeaning(ds, b, n);
      var k := Fit(ds, b, n);
      assert Diag(text) == Join(ds[k..]);
    } else {
      var needle := ClipKeepsNeedle(ds[n], b);
      ProperNeedles(needle);
      ClipNotEmpty(ds[n], b, needle);
      assert Diag(text) == Clip(ds[n], b);
    }
  }

  lemma ClipNotEmpty(line: string, b: nat, n: string)
    requires |n| >= 3 && NeedleAt(line).Some? && NeedleAt(line).value <= |line| && n <= line[NeedleAt(line).value..]
    requires var at := NeedleAt(line).value;
      if |line| - at <= b
      then Clip(line, b) == SuffixWithin(line, b) && SuffixStart(line, b) <= at
      else n <= Clip(line, b)
    ensures Clip(line, b) != ""
  {
  }
}
