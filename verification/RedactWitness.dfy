/** A text on which redacting twice is not redacting once, within the cap. */
module RedactWitness {
  import opened Text
  import opened Scrub
  import opened Evidence
  import opened Redact
  import Utf8

  function Repeat(c: char, n: nat): (s: string)
    ensures |s| == n && forall i :: 0 <= i < n ==> s[i] == c
  {
    seq(n, _ => c)
  }

  /** A long diagnostic line in which `sk-` follows a letter. */
  function BadLine(): string {
    "ask-" + Repeat('b', 1002) + "error:"
  }

  /** A four-byte character and letters: the tail falls inside the character. */
  function BadTail(): string {
    "\U{F0}\U{9F}\U{98}\U{80}" + Repeat('c', 1008)
  }

  function BadText(): string {
    Repeat('n', 100) + "\n" + (BadLine() + "\n" + BadTail())
  }

  ghost predicate BadByte(c: char) {
    c >= '\U{80}' || c == 'n' || c == '\n' || c == 'a' || c == 's' || c == 'k' || c == '-' || c == 'b' ||
    c == 'e' || c == 'r' || c == 'o' || c == ':' || c == 'c'
  }

  lemma BadBytes()
    ensures forall i :: 0 <= i < |BadText()| ==> BadByte(BadText()[i])
    ensures |BadText()| == 2126
  {
  }

  lemma BadFree(p: string, i: nat)
    requires i < |p| && !BadByte(p[i])
    ensures !Contains(BadText(), p)
  {
    BadBytes();
    ContainsMissing(BadText(), p, i);
  }

  lemma BadFreeToo()
    ensures !Contains(BadText(), "Bearer ") && !Contains(BadText(), "api_key=")
  {
    BadFree("Bearer ", 0);
    BadFree("api_key=", 1);
  }

  lemma BadMarkerFree()
    ensures MarkerFree(BadText())
  {
    BadFree("-----BEGIN", 5);
    BadFree("ghp_", 0);
    BadFreeToo();
  }

  lemma BadKeyFree()
    ensures !HasKey(false, BadText())
  {
    KeyNeedsDash(false, Repeat('n', 100));
    KeyAround(false, Repeat('n', 100), '\n', BadLine() + "\n" + BadTail());
    KeyNeedsDash(false, BadTail());
    KeyAround(false, BadLine(), '\n', BadTail());
    BadLineKeyFree();
  }

  lemma BadLineKeyFree()
    ensures !HasKey(false, BadLine())
  {
    var l := BadLine();
    var rest := Repeat('b', 1002) + "error:";
    assert l[1..] == "sk-" + rest && l[1..][1..] == "k-" + rest;
    assert ("k-" + rest)[1..] == "-" + rest && ("-" + rest)[1..] == rest;
    KeyNeedsDash(false, rest);
    assert !HasKey(false, "-" + rest);
    assert !HasKey(true, "-" + rest);
    assert !HasKey(true, "k-" + rest);
    assert !HasKey(true, "sk-" + rest);
  }

  lemma {:induction false} LineFeedAt(a: string, b: string)
    requires '\n' !in a
    ensures LineFeed(a + "\n" + b) == |a|
  {
    var s := a + "\n" + b;
    if a != [] {
      assert s[0] == a[0] && s[1..] == a[1..] + "\n" + b;
      LineFeedAt(a[1..], b);
    }
  }

  lemma LinesOne(t: string)
    requires t != [] && '\n' !in t
    ensures Lines(t) == [t]
  {
    assert forall i :: 0 <= i < |t| ==> t[i] != '\n';
    assert LineFeed(t) == |t|;
  }

  lemma LinesCons(a: string, b: string)
    requires '\n' !in a && a != [] && a[|a| - 1] != '\r'
    ensures Lines(a + "\n" + b) == [a] + Lines(b)
  {
    var s := a + "\n" + b;
    LineFeedAt(a, b);
    LinesUnfold(s);
    assert s[..|a|] == a && s[|a| + 1..] == b;
  }

  lemma BadLines()
    ensures Lines(BadText()) == [Repeat('n', 100), BadLine(), BadTail()]
  {
    NoLineFeeds();
    LinesCons(Repeat('n', 100), BadLine() + "\n" + BadTail());
    LinesCons(BadLine(), BadTail());
    LinesOne(BadTail());
  }

  lemma NoLineFeeds()
    ensures '\n' !in Repeat('n', 100) && '\n' !in BadLine() && '\n' !in BadTail()
    ensures BadLine()[|BadLine()| - 1] == ':'
  {
  }

  /** A line whose bytes are all of one foreign kind holds no needle. */
  lemma {:induction false} NoNeedle(line: string, needles: seq<string>)
    requires forall n :: n in needles ==> n != [] && exists i :: 0 <= i < |n| && n[i] !in line
    ensures FirstOf(line, needles).None?
  {
    if needles != [] {
      var n := needles[0];
      assert n in needles;
      var i :| 0 <= i < |n| && n[i] !in line;
      ContainsMissing(line, n, i);
      assert forall m :: m in needles[1..] ==> m in needles;
      NoNeedle(line, needles[1..]);
    }
  }

  lemma QuietLines()
    ensures !IsDiagnostic(Repeat('n', 100)) && !IsDiagnostic(BadTail())
  {
    forall n | n in NEEDLES
      ensures n != [] && (exists i :: 0 <= i < |n| && n[i] !in Repeat('n', 100)) && exists i :: 0 <= i < |n| && n[i] !in BadTail()
    {
      assert n[0] !in Repeat('n', 100);
      assert n[0] !in BadTail();
    }
    NoNeedle(Repeat('n', 100), NEEDLES);
    NoNeedle(BadTail(), NEEDLES);
  }

  lemma MiddleDiagnostic(x: string, y: string, z: string)
    requires !IsDiagnostic(x) && IsDiagnostic(y) && !IsDiagnostic(z)
    ensures Diagnostics([x, y, z]) == [y]
  {
    assert [x, y, z][..2] == [x, y] && [x, y][..1] == [x] && [x][..0] == [];
    assert Diagnostics([x]) == [];
    assert Diagnostics([x, y]) == [y];
  }

  lemma BadDiagnostics()
    ensures Diagnostics(Lines(BadText())) == [BadLine()]
  {
    BadLines();
    QuietLines();
    BadNeedle();
    MiddleDiagnostic(Repeat('n', 100), BadLine(), BadTail());
  }

  lemma BadNeedle()
    ensures IsDiagnostic(BadLine()) && IsDiagnostic(BadLine()[1..])
  {
    var l := BadLine();
    assert "error:" <= l[1006..];
    HoldsNeedle(l, 1006, "error:");
    assert l[1..][1005..] == l[1006..];
    HoldsNeedle(l[1..], 1005, "error:");
  }

  /** A line one byte too long is clipped to all but its first byte. */
  lemma ClipDropsFirst(l: string)
    requires |l| > 1 && Utf8.Boundary(l, 1) && IsDiagnostic(l) && IsDiagnostic(l[1..])
    requires 1 <= NeedleAt(l).value <= |l|
    ensures Clip(l, |l| - 1) == l[1..]
  {
    assert SuffixStart(l, |l| - 1) == 1;
  }

  lemma BadClip()
    ensures Clip(BadLine(), 1011) == BadLine()[1..]
  {
    BadNeedle();
    BadLineShape();
    ClipDropsLetter(BadLine());
  }

  lemma BadLineShape()
    ensures |BadLine()| == 1012 && BadLine()[0] == 'a' && BadLine()[1] == 's'
  {
  }

  lemma ClipDropsLetter(l: string)
    requires |l| > 1 && l[0] == 'a' && l[1] == 's' && IsDiagnostic(l) && IsDiagnostic(l[1..])
    ensures Clip(l, |l| - 1) == l[1..]
  {
    var n := FirstOfSome(l, NEEDLES);
    NeedleNotFirst(l, n, NeedleAt(l).value);
    ClipDropsFirst(l);
  }

  lemma NeedleNotFirst(l: string, n: string, at: nat)
    requires l != [] && l[0] == 'a' && n in NEEDLES && at <= |l| && n <= l[at..]
    ensures at >= 1
  {
    ProperNeedles(n);
    assert n[0] != 'a';
    assert l[0..] == l;
  }

  lemma DiagOne(text: string, line: string, b: nat)
    requires Diagnostics(Lines(text)) == [line] && Body(text) / 2 == b
    requires 0 < b < |line| && Clip(line, b) != ""
    ensures Diag(text) == Clip(line, b)
  {
  }

  lemma BadBody()
    ensures Body(BadText()) == 2023
  {
    BadBytes();
    assert Digits(2) == "2";
    assert Digits(21) == "21";
    assert Digits(212) == "212";
    assert Digits(2126) == "2126";
  }

  lemma BadDiag()
    ensures Diag(BadText()) == BadLine()[1..]
  {
    BadBody();
    BadDiagnostics();
    BadClip();
    DiagOne(BadText(), BadLine(), 1011);
  }

  lemma BadTailCut()
    ensures TailBudget(BadText()) == 1011 && |Tail(BadText())| == 1008
  {
    BadBody();
    BadDiag();
    BadBytes();
    var w := BadText();
    assert w[1115] == '\U{9F}' && w[1116] == '\U{98}' && w[1117] == '\U{80}' && w[1118] == 'c';
    assert Utf8.Ceil(w, 1115) == 1118 by {
      assert !Utf8.Boundary(w, 1115) && !Utf8.Boundary(w, 1116) && !Utf8.Boundary(w, 1117) && Utf8.Boundary(w, 1118);
      assert Utf8.Ceil(w, 1117) == 1118;
      assert Utf8.Ceil(w, 1116) == 1118;
    }
  }

  lemma BadTailValid()
    ensures Utf8.Valid(BadTail())
  {
    var face := "\U{F0}\U{9F}\U{98}\U{80}";
    assert Utf8.CharLen(face[0]) == 4 && face[4..] == [];
    assert Utf8.Valid(face);
    Utf8.AsciiValid(Repeat('c', 1008));
    Utf8.ValidConcat(face, Repeat('c', 1008));
  }

  lemma AsciiLine(line: string, rest: string)
    requires (forall i :: 0 <= i < |line| ==> line[i] < '\U{80}') && Utf8.Valid(rest)
    ensures Utf8.Valid(line + "\n" + rest)
  {
    Utf8.AsciiValid(line + "\n");
    Utf8.ValidConcat(line + "\n", rest);
  }

  lemma BadLineAscii()
    ensures forall i :: 0 <= i < |BadLine()| ==> BadLine()[i] < '\U{80}'
  {
  }

  /** It is text. */
  lemma BadValid()
    ensures Utf8.Valid(BadText())
  {
    BadTailValid();
    BadLineAscii();
    AsciiLine(BadLine(), BadTail());
    AsciiLine(Repeat('n', 100), BadLine() + "\n" + BadTail());
  }

  /** The witness: a text whose stored form is within the cap, and changes when redacted again. */
  lemma RedactedNotIdempotent()
    ensures Utf8.Valid(BadText())
    ensures |Redacted(BadText())| == CAP && Redacted(Redacted(BadText())) != Redacted(BadText())
  {
    var w := BadText();
    BadValid();
    BadMarkerFree();
    BadKeyFree();
    CleanFix(w);
    BadBytes();
    BadTailCut();
    MarkerLength(|w|);
    ShrinkLength(w);
    BadDiag();
    BadDiagKey();
    FixedIffDiag(w);
  }

  lemma BadDiagKey()
    ensures KeyAt(false, BadLine()[1..])
  {
    var d := BadLine()[1..];
    assert d[3..] == Repeat('b', 1002) + "error:";
    LongRun(1002, "error:", 40);
  }

  lemma {:induction false} LongRun(n: nat, rest: string, k: nat)
    requires k <= n
    ensures Run(Repeat('b', n) + rest) >= k
  {
    if k > 0 {
      var s := Repeat('b', n) + rest;
      assert s[1..] == Repeat('b', n - 1) + rest;
      LongRun(n - 1, rest, k - 1);
    }
  }
}
