/** Secret redaction and the length cap, on UTF-8 bytes. */
module Redact {
  import opened Options
  import opened Text
  import opened Scrub
  import opened Evidence
  import Utf8

  const CAP: nat := 2048

  // ---------------------------------------------------------------- cleaning

  /** The five patterns, in order. */
  function Pattern(i: nat): string {
    if i == 0 then "-----BEGIN" else if i == 1 then "sk-" else if i == 2 then "ghp_"
    else if i == 3 then "Bearer " else "api_key="
  }

  function MatcherAt(i: nat): Matcher {
    if i == 1 then SkKey else Literal(Pattern(i))
  }

  function CleanTo(s: string, i: nat): string {
    if i == 0 then s else Replace(MatcherAt(i - 1), false, CleanTo(s, i - 1))
  }

  function Clean(s: string): string {
    CleanTo(s, 5)
  }

  ghost predicate MarkerFree(s: string) {
    !Contains(s, "-----BEGIN") && !Contains(s, "ghp_") && !Contains(s, "Bearer ") && !Contains(s, "api_key=")
  }

  lemma ForeignPattern(i: nat)
    requires i < 5
    ensures Foreign(Pattern(i))
  {
    var p := Pattern(i);
    if i == 0 {
      ContainsMissing("REDACTED", p, 0);
    } else if i == 1 {
      ContainsMissing("REDACTED", p, 0);
    } else if i == 2 {
      ContainsMissing("REDACTED", p, 0);
    } else if i == 3 {
      ContainsMissing("REDACTED", p, 1);
    } else {
      ContainsMissing("REDACTED", p, 0);
    }
  }

  lemma StillAbsent(m: Matcher, s: string, p: string)
    requires Foreign(p) && !Contains(s, p)
    ensures !Contains(Replace(m, false, s), p)
  {
    if Contains(Replace(m, false, s), p) {
      ReplaceAddsNothing(m, false, s, p);
    }
  }

  ghost predicate FreeOf(s: string, i: nat) {
    !Contains(s, Pattern(i))
  }

  /** One step: its own pattern goes, and those already gone stay gone. */
  lemma CleanStep(s: string, i: nat, j: nat)
    requires j <= i < 5 && i != 1 && j != 1
    requires j < i ==> FreeOf(s, j)
    ensures FreeOf(Replace(MatcherAt(i), false, s), j)
  {
    ForeignPattern(j);
    if i == j {
      LiteralGone(Pattern(i), false, s);
    } else {
      StillAbsent(MatcherAt(i), s, Pattern(j));
    }
  }

  lemma {:induction false} CleanGone(s: string, i: nat, j: nat)
    requires j < i <= 5 && j != 1
    ensures FreeOf(CleanTo(s, i), j)
    decreases i
  {
    if j + 1 < i {
      CleanGone(s, i - 1, j);
    }
    if i - 1 == 1 {
      ForeignPattern(j);
      StillAbsent(SkKey, CleanTo(s, i - 1), Pattern(j));
    } else {
      CleanStep(CleanTo(s, i - 1), i - 1, j);
    }
  }

  lemma {:induction false} CleanKeyFree(s: string, i: nat)
    requires 2 <= i <= 5
    ensures !HasKey(false, CleanTo(s, i))
    decreases i
  {
    if i == 2 {
      KeysGone(false, CleanTo(s, 1));
    } else {
      CleanKeyFree(s, i - 1);
      LiteralKeepsKeyFree(Pattern(i - 1), false, CleanTo(s, i - 1));
    }
  }

  /** After cleaning no marker and no key is left, whatever the input. */
  lemma CleanFree(s: string)
    ensures MarkerFree(Clean(s)) && !HasKey(false, Clean(s))
  {
    CleanGone(s, 5, 0);
    CleanGone(s, 5, 2);
    CleanGone(s, 5, 3);
    CleanGone(s, 5, 4);
    CleanKeyFree(s, 5);
  }

  /** On a text without markers only the key replacement does anything. */
  lemma {:induction false} CleanMarkerFree(s: string, i: nat)
    requires MarkerFree(s) && i <= 5
    ensures CleanTo(s, i) == if i < 2 then s else Replace(SkKey, false, s)
  {
    if i > 0 {
      CleanMarkerFree(s, i - 1);
      if i != 2 {
        assert FreeOf(s, i - 1);
        if i > 2 {
          ForeignPattern(i - 1);
          StillAbsent(SkKey, s, Pattern(i - 1));
        }
        LiteralAbsent(Pattern(i - 1), false, CleanTo(s, i - 1));
      }
    }
  }

  lemma CleanFix(s: string)
    requires MarkerFree(s)
    ensures Clean(s) == s <==> !HasKey(false, s)
  {
    CleanMarkerFree(s, 5);
    if HasKey(false, s) {
      KeyPresent(false, s);
    } else {
      KeyAbsent(false, s);
    }
  }

  lemma {:induction false} CleanValid(s: string, i: nat)
    requires i <= 5 && Utf8.Valid(s)
    ensures Utf8.Valid(CleanTo(s, i))
  {
    if i > 0 {
      CleanValid(s, i - 1);
      assert Proper(MatcherAt(i - 1));
      ReplaceValid(MatcherAt(i - 1), false, CleanTo(s, i - 1));
    }
  }

  // ---------------------------------------------------------- the byte loops

  predicate PrevAlphanumeric(s: string, i: nat)
    requires i <= |s|
  {
    i > 0 && Alphanumeric(s[i - 1])
  }

  /** The end of the key that starts at `i`, found by the counting loop. */
  method SkKeyEnd(bytes: string, i: nat) returns (end: Option<nat>)
    requires i <= |bytes|
    ensures var n := MatchLen(SkKey, PrevAlphanumeric(bytes, i), bytes[i..]);
            end == if n > 0 then Some(i + n) else None
  {
    if i + 3 > |bytes| || bytes[i..i + 3] != "sk-" {
      return None;
    }
    assert bytes[i..i + 3] == bytes[i..][..3];
    if i > 0 && Alphanumeric(bytes[i - 1]) {
      return None;
    }
    var e := i + 3;
    var count := 0;
    assert bytes[i..][3..] == bytes[e..];
    while e < |bytes| && Alphanumeric(bytes[e])
      invariant i + 3 <= e <= |bytes| && count == e - (i + 3)
      invariant Run(bytes[i + 3..]) == count + Run(bytes[e..])
    {
      assert bytes[e..][1..] == bytes[e + 1..];
      e := e + 1;
      count := count + 1;
    }
    end := if count >= SK_MIN_KEY_CHARS then Some(e) else None;
  }

  /** What is written and what is still to replace make up the whole replacement. */
  ghost predicate Scanned(whole: string, out: string, prev: bool, rest: string) {
    whole == out + Replace(SkKey, prev, rest)
  }

  lemma ScanPiece(whole: string, out: string, prev: bool, rest: string, piece: string, prev': bool, rest': string)
    requires Scanned(whole, out, prev, rest)
    requires Replace(SkKey, prev, rest) == piece + Replace(SkKey, prev', rest')
    ensures Scanned(whole, out + piece, prev', rest')
  {
    var t := Replace(SkKey, prev', rest');
    assert out + (piece + t) == (out + piece) + t;
  }

  lemma ScanKey(whole: string, out: string, prev: bool, rest: string, n: nat)
    requires Scanned(whole, out, prev, rest) && rest != [] && 0 < n == MatchLen(SkKey, prev, rest)
    ensures Scanned(whole, out + REDACTED, Alphanumeric(rest[n - 1]), rest[n..])
  {
    assert Replace(SkKey, prev, rest) == REDACTED + Replace(SkKey, Alphanumeric(rest[n - 1]), rest[n..]);
    ScanPiece(whole, out, prev, rest, REDACTED, Alphanumeric(rest[n - 1]), rest[n..]);
  }

  lemma ScanChar(whole: string, out: string, prev: bool, rest: string)
    requires Scanned(whole, out, prev, rest) && MatchLen(SkKey, prev, rest) == 0 && Utf8.CharAt(rest)
    ensures var n := Utf8.CharLen(rest[0]);
            Scanned(whole, out + rest[..n], Alphanumeric(rest[n - 1]), rest[n..])
  {
    var n := Utf8.CharLen(rest[0]);
    if n > 1 {
      CopyBytes(SkKey, prev, rest, n);
    } else {
      assert rest[..1] == [rest[0]];
    }
    ScanPiece(whole, out, prev, rest, rest[..n], Alphanumeric(rest[n - 1]), rest[n..]);
  }

  lemma KeyEndValid(prev: bool, s: string, n: nat)
    requires Utf8.Valid(s) && n == MatchLen(SkKey, prev, s)
    ensures Utf8.Valid(s[n..])
  {
    MatchAscii(SkKey, prev, s);
    AsciiFront(s, n);
  }

  ghost predicate ScannedAt(whole: string, out: string, input: string, i: nat) {
    i <= |input| && Utf8.Valid(input[i..]) && Scanned(whole, out, PrevAlphanumeric(input, i), input[i..])
  }

  lemma Reindex(whole: string, out: string, input: string, i: nat, n: nat)
    requires 0 < n && i + n <= |input| && Utf8.Valid(input[i..][n..])
    requires Scanned(whole, out, Alphanumeric(input[i..][n - 1]), input[i..][n..])
    ensures ScannedAt(whole, out, input, i + n)
  {
    assert input[i..][n..] == input[i + n..];
  }

  lemma KeyTurn(whole: string, out: string, input: string, i: nat, n: nat)
    requires ScannedAt(whole, out, input, i) && i < |input|
    requires 0 < n == MatchLen(SkKey, PrevAlphanumeric(input, i), input[i..])
    ensures i + n <= |input| && ScannedAt(whole, out + REDACTED, input, i + n)
  {
    ScanKey(whole, out, PrevAlphanumeric(input, i), input[i..], n);
    KeyEndValid(PrevAlphanumeric(input, i), input[i..], n);
    Reindex(whole, out + REDACTED, input, i, n);
  }

  lemma CharTurn(whole: string, out: string, input: string, i: nat)
    requires ScannedAt(whole, out, input, i) && i < |input|
    requires MatchLen(SkKey, PrevAlphanumeric(input, i), input[i..]) == 0
    ensures var n := Utf8.CharLen(input[i]);
            0 < n && i + n <= |input| && ScannedAt(whole, out + input[i..i + n], input, i + n)
  {
    var n := Utf8.CharLen(input[i]);
    ScanChar(whole, out, PrevAlphanumeric(input, i), input[i..]);
    assert input[i..][..n] == input[i..i + n];
    Reindex(whole, out + input[i..i + n], input, i, n);
  }

  /** What one turn writes: a whole key is replaced, one character is copied. */
  ghost predicate Turned(input: string, i: nat, out: string, next: nat, written: string)
    requires i < |input|
  {
    var n := MatchLen(SkKey, PrevAlphanumeric(input, i), input[i..]);
    if n > 0 then next == i + n && written == out + REDACTED
    else next == i + Utf8.CharLen(input[i]) && next <= |input| && written == out + input[i..next]
  }

  lemma TurnScans(whole: string, out: string, input: string, i: nat, next: nat, written: string)
    requires i < |input| && ScannedAt(whole, out, input, i) && Turned(input, i, out, next, written)
    ensures i < next <= |input| && ScannedAt(whole, written, input, next)
  {
    var n := MatchLen(SkKey, PrevAlphanumeric(input, i), input[i..]);
    if n > 0 {
      KeyTurn(whole, out, input, i, n);
    } else {
      CharTurn(whole, out, input, i);
    }
  }

  /** One turn of the loop: a whole key, or one character. */
  method Turn(input: string, i: nat, out: string) returns (next: nat, written: string)
    requires i < |input| && i + Utf8.CharLen(input[i]) <= |input|
    ensures Turned(input, i, out, next, written)
  {
    var end := SkKeyEnd(input, i);
    if end.Some? {
      next, written := end.value, out + REDACTED;
    } else {
      next := i + Utf8.CharLen(input[i]);
      written := out + input[i..next];
    }
  }

  lemma WholeChar(input: string, i: nat)
    requires i < |input| && Utf8.Valid(input[i..])
    ensures i + Utf8.CharLen(input[i]) <= |input|
  {
  }

  lemma ScanStart(input: string)
    requires Utf8.Valid(input)
    ensures ScannedAt(Replace(SkKey, false, input), "", input, 0)
  {
    assert input[0..] == input;
  }

  lemma ScanEnd(whole: string, out: string, input: string)
    requires ScannedAt(whole, out, input, |input|)
    ensures out == whole
  {
    assert input[|input|..] == [];
  }

  method RedactSkKeys(input: string) returns (out: string)
    requires Utf8.Valid(input)
    ensures out == Replace(SkKey, false, input)
  {
    ghost var whole := Replace(SkKey, false, input);
    ScanStart(input);
    out := "";
    var i := 0;
    while i < |input|
      invariant i <= |input| && ScannedAt(whole, out, input, i)
    {
      WholeChar(input, i);
      var next, written := Turn(input, i, out);
      TurnScans(whole, out, input, i, next, written);
      i, out := next, written;
    }
    ScanEnd(whole, out, input);
  }

  /** `redact` */
  function Redacted(s: string): string {
    if |Clean(s)| > CAP then Shrink(Clean(s)) else Clean(s)
  }

  lemma SkippedPattern(s: string, i: nat)
    requires i < 5 && !Contains(s, Pattern(i))
    ensures Replace(MatcherAt(i), false, s) == s
  {
    if i == 1 {
      if HasKey(false, s) {
        KeyNeedsPrefix(false, s);
      } else {
        KeyAbsent(false, s);
      }
    } else {
      LiteralAbsent(Pattern(i), false, s);
    }
  }

  /** One turn of the pattern loop. */
  method CleanOne(s: string, i: nat) returns (out: string)
    requires i < 5 && Utf8.Valid(s)
    ensures out == Replace(MatcherAt(i), false, s)
  {
    if !Contains(s, Pattern(i)) {
      SkippedPattern(s, i);
      out := s;
    } else if i == 1 {
      out := RedactSkKeys(s);
    } else {
      out := Replace(Literal(Pattern(i)), false, s);
    }
  }

  method Redact(input: string) returns (out: string)
    requires Utf8.Valid(input)
    ensures out == Redacted(input)
  {
    out := input;
    for i := 0 to 5
      invariant out == CleanTo(input, i)
    {
      CleanValid(input, i);
      out := CleanOne(out, i);
    }
    if |out| > CAP {
      out := ShrinkEvidence(out);
    }
  }

  // -------------------------------------------------------- pieces of a text

  lemma LineBoundary(s: string, i: nat)
    requires Utf8.Valid(s) && i <= |s| && (i > 0 ==> s[i - 1] == '\n')
    ensures Utf8.Valid(s[i..])
  {
    if i > 0 {
      AsciiThenBoundary(s, i - 1);
    }
    Utf8.ValidSplit(s, i);
  }

  lemma FrontValid(t: string, n: nat)
    requires Utf8.Valid(t) && n <= |t| && (n < |t| ==> t[n] < '\U{80}')
    ensures Utf8.Valid(t[..n])
  {
    Utf8.ValidSplit(t, n);
  }

  /** Lines of a valid text are valid. */
  lemma LineValid(s: string, line: string)
    requires Utf8.Valid(s) && LineOf(s, line)
    ensures Utf8.Valid(line)
  {
    var i: nat, j: nat :| LineBounds(s, i, j) && line == s[i..j];
    LineBoundary(s, i);
    var t := s[i..];
    assert j < |s| ==> t[j - i] == s[j];
    FrontValid(t, j - i);
    assert t[..j - i] == line;
  }

  lemma LineAbsent(s: string, line: string, p: string)
    requires !Contains(s, p) && LineOf(s, line)
    ensures !Contains(line, p)
  {
    var i: nat, j: nat :| LineBounds(s, i, j) && line == s[i..j];
    if Contains(line, p) {
      ContainsSlice(s, i, j, p);
    }
  }

  lemma LineKeyFree(s: string, line: string)
    requires !HasKey(false, s) && LineOf(s, line)
    ensures !HasKey(false, line)
  {
    var i: nat, j: nat :| LineBounds(s, i, j) && line == s[i..j];
    if i > 0 {
      KeyFreeSuffix(false, s, i);
    } else {
      assert s[0..] == s;
    }
    KeyFreePrefix(false, s[i..], j - i);
    assert s[i..][..j - i] == line;
  }

  /** In a piece of a key-free text only a key at the very front can appear. */
  lemma SliceKeyFront(s: string, i: nat, j: nat)
    requires i <= j <= |s| && !HasKey(false, s)
    ensures HasKey(false, s[i..j]) <==> KeyAt(false, s[i..j])
  {
    var prev := i > 0 && Alphanumeric(s[i - 1]);
    if i > 0 {
      KeyFreeSuffix(false, s, i);
    } else {
      assert s[0..] == s;
    }
    KeyFreePrefix(prev, s[i..], j - i);
    assert s[i..][..j - i] == s[i..j];
    if prev {
      KeyFrontOnly(s[i..j]);
    }
  }

  lemma PieceKeyFront(s: string, r: string)
    requires PieceOf(s, r) && !HasKey(false, s)
    ensures HasKey(false, r) <==> KeyAt(false, r)
  {
    var i: nat, j: nat :| i <= j <= |s| && r == s[i..j];
    SliceKeyFront(s, i, j);
  }

  lemma PieceAbsent(s: string, r: string, p: string)
    requires PieceOf(s, r) && !Contains(s, p)
    ensures !Contains(r, p)
  {
    var i: nat, j: nat :| i <= j <= |s| && r == s[i..j];
    if Contains(r, p) {
      ContainsSlice(s, i, j, p);
    }
  }

  lemma {:induction false} JoinAbsent(ls: seq<string>, p: string)
    requires p != [] && '\n' !in p && forall i :: 0 <= i < |ls| ==> !Contains(ls[i], p)
    ensures !Contains(Join(ls), p)
  {
    if |ls| > 1 {
      JoinAbsent(ls[1..], p);
      ContainsAround(ls[0], '\n', Join(ls[1..]), p);
    } else if ls == [] {
      assert !(p <= []);
    }
  }

  lemma {:induction false} JoinKeyFree(ls: seq<string>)
    requires forall i :: 0 <= i < |ls| ==> !HasKey(false, ls[i])
    ensures !HasKey(false, Join(ls))
  {
    if |ls| > 1 {
      JoinKeyFree(ls[1..]);
      KeyAround(false, ls[0], '\n', Join(ls[1..]));
    }
  }

  lemma {:induction false} JoinValid(ls: seq<string>)
    requires forall i :: 0 <= i < |ls| ==> Utf8.Valid(ls[i])
    ensures Utf8.Valid(Join(ls))
  {
    if |ls| > 1 {
      JoinValid(ls[1..]);
      assert Utf8.Valid("\n") by {
        Utf8.AsciiValid("\n");
      }
      Utf8.ValidConcat(ls[0], "\n");
      Utf8.ValidConcat(ls[0] + "\n", Join(ls[1..]));
    }
  }

  ghost predicate PieceOf(s: string, r: string) {
    exists i: nat, j: nat :: i <= j <= |s| && r == s[i..j]
  }

  lemma PrefixPiece(s: string, i: nat, n: nat)
    requires i <= |s|
    ensures PieceOf(s, PrefixWithin(s[i..], n))
  {
    var r := PrefixWithin(s[i..], n);
    assert i + |r| <= |s| && r == s[i..i + |r|];
  }

  lemma SuffixPiece(s: string, i: nat)
    requires i <= |s|
    ensures PieceOf(s, s[i..])
  {
    assert s[i..] == s[i..|s|];
  }

  /** A clip is a piece of its line. */
  lemma ClipPiece(line: string, b: nat)
    ensures PieceOf(line, Clip(line, b))
  {
    assert "" == line[0..0];
    assert line == line[0..|line|];
    SuffixPiece(line, SuffixStart(line, b));
    var at := NeedleAt(line);
    if at.Some? && at.value <= |line| {
      PrefixPiece(line, at.value, b);
    }
  }

  lemma PrefixValid(s: string, n: nat)
    requires Utf8.Valid(s)
    ensures Utf8.Valid(PrefixWithin(s, n))
  {
    if n < |s| {
      Utf8.ValidSplit(s, Utf8.Floor(s, n));
    }
  }

  lemma ClipValid(line: string, b: nat)
    requires Utf8.Valid(line)
    ensures Utf8.Valid(Clip(line, b))
  {
    if b < |line| && NeedleAt(line).Some? {
      NeedleBoundary(line);
      Utf8.ValidSplit(line, NeedleAt(line).value);
      PrefixValid(line[NeedleAt(line).value..], b);
      Utf8.ValidSplit(line, SuffixStart(line, b));
    }
  }

  lemma NeedleBoundary(line: string)
    requires NeedleAt(line).Some?
    ensures NeedleAt(line).value <= |line| && Utf8.Boundary(line, NeedleAt(line).value)
  {
    var n := FirstOfSome(line, NEEDLES);
    ProperNeedles(n);
    var at := NeedleAt(line).value;
    assert line[at] == line[at..][0] == n[0];
  }

  /** The section is empty, a joined run of lines, or a clip of one line. */
  datatype Shape = Empty | Joined(k: nat, m: nat) | Clipped(k: nat)

  ghost predicate HasShape(r: string, lines: seq<string>, b: nat, shape: Shape) {
    match shape
    case Empty => r == ""
    case Joined(k, m) => k <= m <= |lines| && r == Join(lines[k..m])
    case Clipped(k) => k < |lines| && r == Clip(lines[k], b)
  }

  lemma ShapeExtends(r: string, lines: seq<string>, n: nat, b: nat, shape: Shape)
    requires n <= |lines| && HasShape(r, lines[..n], b, shape)
    ensures HasShape(r, lines, b, shape)
  {
    if shape.Joined? {
      assert lines[..n][shape.k..shape.m] == lines[shape.k..shape.m];
    }
  }

  lemma {:induction false} SectionShape(lines: seq<string>, b: nat) returns (shape: Shape)
    ensures HasShape(Section(lines, b), lines, b, shape)
    decreases |lines|
  {
    if b == 0 || lines == [] {
      shape := Empty;
    } else {
      var n := |lines| - 1;
      if |lines[n]| <= b {
        shape := Joined(Fit(lines, b, n), |lines|);
        assert lines[shape.k..] == lines[shape.k..|lines|];
      } else if Clip(lines[n], b) != "" {
        shape := Clipped(n);
      } else {
        shape := SectionShape(lines[..n], b);
        ShapeExtends(Section(lines[..n], b), lines, n, b, shape);
      }
    }
  }

  /** Every kept line is a line of the text. */
  lemma DiagnosticLines(text: string)
    ensures forall i :: 0 <= i < |Diagnostics(Lines(text))| ==> LineOf(text, Diagnostics(Lines(text))[i])
  {
    var ls, ds := Lines(text), Diagnostics(Lines(text));
    LinesAreSlices(text);
    forall i | 0 <= i < |ds|
      ensures LineOf(text, ds[i])
    {
      assert ds[i] in ls;
      var k :| 0 <= k < |ls| && ls[k] == ds[i];
    }
  }

  // ------------------------------------------------- what survives shortening

  lemma DiagAbsent(text: string, p: string)
    requires p != [] && '\n' !in p && !Contains(text, p)
    ensures !Contains(Diag(text), p)
  {
    var ds, b := Diagnostics(Lines(text)), Body(text) / 2;
    DiagnosticLines(text);
    forall i | 0 <= i < |ds|
      ensures !Contains(ds[i], p)
    {
      LineAbsent(text, ds[i], p);
    }
    var shape := SectionShape(ds, b);
    match shape
    case Empty =>
    case Joined(k, m) => JoinAbsent(ds[k..m], p);
    case Clipped(k) =>
      PieceAbsent(ds[k], Clip(ds[k], b), p) by {
        ClipPiece(ds[k], b);
      }
  }

  lemma DiagKey(text: string)
    requires !HasKey(false, text)
    ensures HasKey(false, Diag(text)) <==> KeyAt(false, Diag(text))
  {
    var ds, b := Diagnostics(Lines(text)), Body(text) / 2;
    DiagnosticLines(text);
    forall i | 0 <= i < |ds|
      ensures !HasKey(false, ds[i])
    {
      LineKeyFree(text, ds[i]);
    }
    var shape := SectionShape(ds, b);
    match shape
    case Empty =>
    case Joined(k, m) => JoinKeyFree(ds[k..m]);
    case Clipped(k) =>
      PieceKeyFront(ds[k], Clip(ds[k], b)) by {
        ClipPiece(ds[k], b);
      }
  }

  lemma DiagValid(text: string)
    requires Utf8.Valid(text)
    ensures Utf8.Valid(Diag(text))
  {
    var ds, b := Diagnostics(Lines(text)), Body(text) / 2;
    DiagnosticLines(text);
    forall i | 0 <= i < |ds|
      ensures Utf8.Valid(ds[i])
    {
      LineValid(text, ds[i]);
    }
    var shape := SectionShape(ds, b);
    match shape
    case Empty =>
    case Joined(k, m) => JoinValid(ds[k..m]);
    case Clipped(k) => ClipValid(ds[k], b);
  }

  /** The marker up to its last byte. */
  ghost function MarkerFront(n: nat): string {
    ELLIPSIS + "[" + MarkerText(n) + "]" + "\U{E2}\U{80}"
  }

  ghost predicate MarkerByte(c: char) {
    c >= '\U{80}' || c == '[' || c == ']' || c == ' ' || '0' <= c <= '9' || 'a' <= c <= 'z'
  }

  lemma MarkerBytes(n: nat)
    ensures Marker(n) == MarkerFront(n) + ['\U{A6}']
    ensures forall i :: 0 <= i < |MarkerFront(n)| ==> MarkerByte(MarkerFront(n)[i])
  {
  }

  lemma NotInMarker(n: nat, c: char)
    requires !MarkerByte(c)
    ensures c !in MarkerFront(n)
  {
    MarkerBytes(n);
  }

  lemma AssembleAbsent(diag: string, n: nat, tail: string, p: string, k: nat)
    requires k < |p| && !MarkerByte(p[k]) && (forall i :: 0 <= i < |p| ==> p[i] != '\n' && p[i] < '\U{80}')
    requires !Contains(diag, p) && !Contains(tail, p)
    ensures !Contains(Assemble(diag, Marker(n), tail), p)
  {
    MarkerBytes(n);
    NotInMarker(n, p[k]);
    ContainsMissing(MarkerFront(n), p, k);
    var rest := MarkerFront(n) + ['\U{A6}'] + tail;
    ContainsAround(MarkerFront(n), '\U{A6}', tail, p);
    ContainsAround(diag, '\n', rest, p);
    AssembleSplit(diag, n, tail);
  }

  lemma AssembleSplit(diag: string, n: nat, tail: string)
    ensures var rest := MarkerFront(n) + ['\U{A6}'] + tail;
            Assemble(diag, Marker(n), tail) == if diag != "" then diag + ['\n'] + rest else rest
  {
    MarkerBytes(n);
  }

  lemma ShrinkAbsent(text: string, p: string, k: nat)
    requires |Marker(|text|)| < MAX_STORED
    requires k < |p| && !MarkerByte(p[k]) && (forall i :: 0 <= i < |p| ==> p[i] != '\n' && p[i] < '\U{80}')
    requires !Contains(text, p)
    ensures !Contains(Shrink(text), p)
  {
    if Contains(Tail(text), p) {
      ContainsSuffix(text, SuffixStart(text, TailBudget(text)), p);
    }
    DiagAbsent(text, p);
    AssembleAbsent(Diag(text), |text|, Tail(text), p, k);
  }

  /** Every marker has a character that the truncation marker lacks. */
  lemma PatternByte(i: nat) returns (k: nat)
    requires i < 5 && i != 1
    ensures k < |Pattern(i)| && !MarkerByte(Pattern(i)[k])
    ensures forall j :: 0 <= j < |Pattern(i)| ==> Pattern(i)[j] != '\n' && Pattern(i)[j] < '\U{80}'
  {
    k := if i == 2 || i == 4 then 3 else 0;
  }

  lemma ShrinkFreeOf(text: string, i: nat)
    requires |text| < USIZE && i < 5 && i != 1 && FreeOf(text, i)
    ensures FreeOf(Shrink(text), i)
  {
    MarkerLength(|text|);
    var k := PatternByte(i);
    ShrinkAbsent(text, Pattern(i), k);
  }

  lemma ShrinkMarkerFree(text: string)
    requires |text| < USIZE && MarkerFree(text)
    ensures MarkerFree(Shrink(text))
  {
    assert FreeOf(text, 0) && FreeOf(text, 2) && FreeOf(text, 3) && FreeOf(text, 4);
    ShrinkFreeOf(text, 0);
    ShrinkFreeOf(text, 2);
    ShrinkFreeOf(text, 3);
    ShrinkFreeOf(text, 4);
  }

  lemma AssembleKey(diag: string, n: nat, tail: string)
    ensures HasKey(false, Assemble(diag, Marker(n), tail)) <==> HasKey(false, diag) || HasKey(false, tail)
  {
    NotInMarker(n, '-');
    KeyNeedsDash(false, MarkerFront(n));
    KeyAround(false, MarkerFront(n), '\U{A6}', tail);
    KeyAround(false, diag, '\n', MarkerFront(n) + ['\U{A6}'] + tail);
    AssembleSplit(diag, n, tail);
  }

  lemma TailKey(text: string)
    requires !HasKey(false, text)
    ensures HasKey(false, Tail(text)) <==> KeyAt(false, Tail(text))
  {
    var i := SuffixStart(text, TailBudget(text));
    SliceKeyFront(text, i, |text|);
    assert text[i..|text|] == Tail(text);
  }

  lemma ShrinkIs(text: string)
    requires |text| < USIZE
    ensures Shrink(text) == Assemble(Diag(text), Marker(|text|), Tail(text))
  {
    MarkerLength(|text|);
  }

  /** Shortening can uncover a key only at the front of the clip or of the tail. */
  lemma ShrinkKey(text: string)
    requires |text| < USIZE && !HasKey(false, text)
    ensures HasKey(false, Shrink(text)) <==> KeyAt(false, Diag(text)) || KeyAt(false, Tail(text))
  {
    ShrinkIs(text);
    TailKey(text);
    DiagKey(text);
    AssembleKeyFront(Diag(text), |text|, Tail(text));
  }

  lemma AssembleKeyFront(diag: string, n: nat, tail: string)
    requires HasKey(false, diag) <==> KeyAt(false, diag)
    requires HasKey(false, tail) <==> KeyAt(false, tail)
    ensures HasKey(false, Assemble(diag, Marker(n), tail)) <==> KeyAt(false, diag) || KeyAt(false, tail)
  {
    AssembleKey(diag, n, tail);
  }

  /** Where the tail lost bytes to a character boundary it starts after a multi-byte
      character, and there no key can be uncovered. */
  lemma LossyTailKeyFree(text: string)
    requires !HasKey(false, text) && |Tail(text)| < TailBudget(text)
    ensures !KeyAt(false, Tail(text))
  {
    var i := SuffixStart(text, TailBudget(text));
    if i > 0 {
      KeyFreeSuffix(false, text, i);
    } else {
      assert text[0..] == text;
    }
  }

  // ---------------------------------------------------------------- theorems

  /** Every stored text is bounded, and is text again. */
  lemma RedactedBounded(s: string)
    requires Utf8.Valid(s) && |Clean(s)| < USIZE
    ensures |Redacted(s)| <= MAX_STORED && Utf8.Valid(Redacted(s))
  {
    CleanValid(s, 5);
    var c := Clean(s);
    if |c| > CAP {
      ShrinkLength(c);
      MarkerLength(|c|);
      ShrinkValid(c);
    }
  }

  lemma ShrinkValid(text: string)
    requires Utf8.Valid(text) && |Marker(|text|)| < MAX_STORED
    ensures Utf8.Valid(Shrink(text))
  {
    DiagValid(text);
    Utf8.ValidSplit(text, SuffixStart(text, TailBudget(text)));
    MarkerValid(|text|);
    AssembleValid(Diag(text), Marker(|text|), Tail(text));
  }

  lemma AssembleValid(diag: string, marker: string, tail: string)
    requires Utf8.Valid(diag) && Utf8.Valid(marker) && Utf8.Valid(tail)
    ensures Utf8.Valid(Assemble(diag, marker, tail))
  {
    Utf8.AsciiValid("\n");
    Utf8.ValidConcat(diag, "\n");
    var head := if diag != "" then diag + "\n" else "";
    Utf8.ValidConcat(head, marker);
    Utf8.ValidConcat(head + marker, tail);
  }

  lemma MarkerValid(n: nat)
    ensures Utf8.Valid(Marker(n))
  {
    EllipsisValid();
    MarkerTextAscii(n);
    BracketedValid(MarkerText(n));
    AroundValid("[" + MarkerText(n) + "]");
    assert Marker(n) == ELLIPSIS + ("[" + MarkerText(n) + "]") + ELLIPSIS;
  }

  lemma MarkerTextAscii(n: nat)
    ensures forall i :: 0 <= i < |MarkerText(n)| ==> MarkerText(n)[i] < '\U{80}'
  {
  }

  lemma BracketedValid(mid: string)
    requires forall i :: 0 <= i < |mid| ==> mid[i] < '\U{80}'
    ensures Utf8.Valid("[" + mid + "]")
  {
    Utf8.AsciiValid("[" + mid + "]");
  }

  lemma AroundValid(mid: string)
    requires Utf8.Valid(mid) && Utf8.Valid(ELLIPSIS)
    ensures Utf8.Valid(ELLIPSIS + mid + ELLIPSIS)
  {
    Utf8.ValidConcat(ELLIPSIS, mid);
    Utf8.ValidConcat(ELLIPSIS + mid, ELLIPSIS);
  }

  lemma EllipsisValid()
    ensures Utf8.Valid(ELLIPSIS)
  {
    assert ELLIPSIS[3..] == [];
  }

  /** No stored text holds a literal marker, shortened or not. */
  lemma RedactedMarkerFree(s: string)
    requires |Clean(s)| < USIZE
    ensures MarkerFree(Redacted(s))
  {
    CleanFree(s);
    if |Clean(s)| > CAP {
      ShrinkMarkerFree(Clean(s));
    }
  }

  lemma WithinCapLosesBytes(text: string)
    requires |text| < USIZE && |Shrink(text)| <= CAP
    ensures |Tail(text)| < TailBudget(text)
  {
    MarkerLength(|text|);
    ShrinkLength(text);
  }

  /** A result within the cap is a fixed point, unless the diagnostics kept start with a key. */
  lemma FixedIffDiag(s: string)
    requires |Clean(s)| < USIZE && |Redacted(s)| <= CAP
    ensures Redacted(Redacted(s)) == Redacted(s) <==>
            |Clean(s)| <= CAP || !KeyAt(false, Diag(Clean(s)))
  {
    var c, r := Clean(s), Redacted(s);
    CleanFree(s);
    RedactedMarkerFree(s);
    CleanFix(r);
    CleanMarkerFree(r, 5);
    KeyReplaceShrinks(false, r);
    if |c| > CAP {
      WithinCapLosesBytes(c);
      LossyTailKeyFree(c);
      ShrinkKey(c);
    }
  }

  /** The last diagnostic line does not fit, is clipped to its end because its needle is there,
      and the clip starts right at `sk-` and forty alphanumeric characters. */
  ghost predicate ClipsToKey(line: string, b: nat) {
    && |line| > b && NeedleAt(line).Some? && |line| - NeedleAt(line).value <= b
    && KeyAt(false, line[SuffixStart(line, b)..])
  }

  lemma KeyAtFront(s: string)
    requires KeyAt(false, s)
    ensures HasKey(false, s) && s[0] == 's'
  {
  }

  /** A clip starts with a key exactly there: at the needle itself none can start. */
  lemma ClipKeyIff(line: string, b: nat)
    requires Utf8.Valid(line) && IsDiagnostic(line) && 8 <= b < |line|
    ensures KeyAt(false, Clip(line, b)) <==> ClipsToKey(line, b)
  {
    var n := ClipKeepsNeedle(line, b);
    ProperNeedles(n);
    if |line| - NeedleAt(line).value > b {
      assert Clip(line, b)[0] == n[0];
      if KeyAt(false, Clip(line, b)) {
        KeyAtFront(Clip(line, b));
      }
    }
  }

  lemma JoinedNoKey(ds: seq<string>, k: nat)
    requires k <= |ds| && forall i :: 0 <= i < |ds| ==> !HasKey(false, ds[i])
    ensures !KeyAt(false, Join(ds[k..]))
  {
    JoinKeyFree(ds[k..]);
    if KeyAt(false, Join(ds[k..])) {
      KeyAtFront(Join(ds[k..]));
    }
  }

  lemma SectionKeyIff(ds: seq<string>, b: nat)
    requires ds != [] && 8 <= b && (forall i :: 0 <= i < |ds| ==> !HasKey(false, ds[i]))
    requires Utf8.Valid(ds[|ds| - 1]) && IsDiagnostic(ds[|ds| - 1])
    ensures KeyAt(false, Section(ds, b)) <==> ClipsToKey(ds[|ds| - 1], b)
  {
    var n := |ds| - 1;
    if |ds[n]| <= b {
      JoinedNoKey(ds, Fit(ds, b, n));
    } else {
      var needle := ClipKeepsNeedle(ds[n], b);
      ProperNeedles(needle);
      ClipNotEmpty(ds[n], b, needle);
      ClipKeyIff(ds[n], b);
    }
  }

  /** The same of a cleaned text, by its last diagnostic line. */
  ghost predicate UncoversKey(c: string) {
    var ds := Diagnostics(Lines(c));
    ds != [] && ClipsToKey(ds[|ds| - 1], Body(c) / 2)
  }

  lemma LinesClean(c: string, ds: seq<string>)
    requires Utf8.Valid(c) && !HasKey(false, c) && forall i :: 0 <= i < |ds| ==> LineOf(c, ds[i])
    ensures forall i :: 0 <= i < |ds| ==> !HasKey(false, ds[i]) && Utf8.Valid(ds[i])
  {
    forall i | 0 <= i < |ds|
      ensures !HasKey(false, ds[i]) && Utf8.Valid(ds[i])
    {
      LineKeyFree(c, ds[i]);
      LineValid(c, ds[i]);
    }
  }

  lemma EnoughBody(c: string)
    requires |c| < USIZE
    ensures Body(c) / 2 >= 8
  {
    MarkerLength(|c|);
  }

  lemma SectionKey(c: string, ds: seq<string>, b: nat)
    requires Utf8.Valid(c) && !HasKey(false, c) && 8 <= b
    requires forall i :: 0 <= i < |ds| ==> LineOf(c, ds[i]) && IsDiagnostic(ds[i])
    ensures KeyAt(false, Section(ds, b)) <==> ds != [] && ClipsToKey(ds[|ds| - 1], b)
  {
    LinesClean(c, ds);
    if ds != [] {
      SectionKeyIff(ds, b);
    }
  }

  lemma DiagKeyIff(c: string, ds: seq<string>, b: nat)
    requires Utf8.Valid(c) && |c| < USIZE && !HasKey(false, c) && ds == Diagnostics(Lines(c)) && b == Body(c) / 2
    ensures KeyAt(false, Section(ds, b)) <==> ds != [] && ClipsToKey(ds[|ds| - 1], b)
  {
    EnoughBody(c);
    DiagnosticLines(c);
    SectionKey(c, ds, b);
  }

  /** A result within the cap is a fixed point, unless the text is over-long and its last
      diagnostic line is clipped right before `sk-` and forty alphanumeric characters. */
  lemma RedactedIdempotentIff(s: string)
    requires Utf8.Valid(s) && |Clean(s)| < USIZE && |Redacted(s)| <= CAP
    ensures Redacted(Redacted(s)) == Redacted(s) <==> |Clean(s)| <= CAP || !UncoversKey(Clean(s))
  {
    CleanFree(s);
    CleanValid(s, 5);
    FixedIffDiag(s);
    DiagKeyIff(Clean(s), Diagnostics(Lines(Clean(s))), Body(Clean(s)) / 2);
  }

  /** Over-long text with a diagnostic line is stored with the last such lines in front. */
  lemma RedactedKeepsDiagnostics(s: string)
    requires Utf8.Valid(s) && CAP < |Clean(s)| < USIZE && Diagnostics(Lines(Clean(s))) != []
    ensures KeepsLastDiagnostics(Clean(s))
    ensures Redacted(s) == Assemble(Diag(Clean(s)), Marker(|Clean(s)|), Tail(Clean(s)))
  {
    var c := Clean(s);
    var ds := Diagnostics(Lines(c));
    MarkerLength(|c|);
    CleanValid(s, 5);
    DiagnosticLines(c);
    LineValid(c, ds[|ds| - 1]);
    DiagIsLast(c, ds, Body(c) / 2);
  }
}
