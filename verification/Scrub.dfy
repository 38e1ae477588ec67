/** Replacement of secrets by `[REDACTED]`, on bytes. */
module Scrub {
  import opened Text
  import Utf8

  const REDACTED: string := "[REDACTED]"

  /** `sk-` plus at least this many alphanumeric characters is a key. */
  const SK_MIN_KEY_CHARS: nat := 40

  function Run(s: string): (n: nat)
    ensures n <= |s| && (n < |s| ==> !Alphanumeric(s[n]))
    ensures forall i :: 0 <= i < n ==> Alphanumeric(s[i])
  {
    if s != [] && Alphanumeric(s[0]) then 1 + Run(s[1..]) else 0
  }

  /** Whether a key starts at the front; `prev` says that an alphanumeric byte precedes. */
  predicate KeyAt(prev: bool, s: string) {
    !prev && "sk-" <= s && Run(s[3..]) >= SK_MIN_KEY_CHARS
  }

  predicate HasKey(prev: bool, s: string)
    decreases |s|
  {
    s != [] && (KeyAt(prev, s) || HasKey(Alphanumeric(s[0]), s[1..]))
  }

  /** What is replaced: a literal marker, or a bounded key. */
  datatype Matcher = Literal(p: string) | SkKey

  ghost predicate Proper(m: Matcher) {
    m.Literal? ==> m.p != [] && (forall i :: 0 <= i < |m.p| ==> m.p[i] < '\U{80}')
  }

  /** Length of the match at the front, zero when there is none. */
  function MatchLen(m: Matcher, prev: bool, s: string): (n: nat)
    ensures n <= |s|
  {
    match m
    case Literal(p) => if p <= s then |p| else 0
    case SkKey => if KeyAt(prev, s) then 3 + Run(s[3..]) else 0
  }

  /** Leftmost, non-overlapping replacement. */
  function Replace(m: Matcher, prev: bool, s: string): string
    decreases |s|
  {
    if s == [] then []
    else
      var n := MatchLen(m, prev, s);
      if n > 0 then REDACTED + Replace(m, Alphanumeric(s[n - 1]), s[n..])
      else [s[0]] + Replace(m, Alphanumeric(s[0]), s[1..])
  }

  // ------------------------------------------------------------- searching

  lemma {:induction false} ContainsSuffix(s: string, i: nat, p: string)
    requires i <= |s| && Contains(s[i..], p)
    ensures Contains(s, p)
    decreases i
  {
    if i > 0 {
      assert s[1..][i - 1..] == s[i..];
      ContainsSuffix(s[1..], i - 1, p);
    } else {
      assert s[0..] == s;
    }
  }

  lemma {:induction false} ContainsPrefix(s: string, i: nat, p: string)
    requires i <= |s| && Contains(s[..i], p)
    ensures Contains(s, p)
    decreases |s|
  {
    if p <= s[..i] {
      assert p <= s;
    } else {
      assert s[..i][1..] == s[1..][..i - 1];
      ContainsPrefix(s[1..], i - 1, p);
    }
  }

  lemma ContainsSlice(s: string, i: nat, j: nat, p: string)
    requires i <= j <= |s| && Contains(s[i..j], p)
    ensures Contains(s, p)
  {
    assert s[i..j] == s[i..][..j - i];
    ContainsPrefix(s[i..], j - i, p);
    ContainsSuffix(s, i, p);
  }

  /** A pattern without `c` cannot straddle a `c`. */
  lemma {:induction false} ContainsAround(a: string, c: char, b: string, p: string)
    requires p != [] && c !in p
    ensures Contains(a + [c] + b, p) <==> Contains(a, p) || Contains(b, p)
    decreases |a|
  {
    var s := a + [c] + b;
    if a == [] {
      assert s[1..] == b;
      assert s[0] == c && p[0] in p;
    } else {
      assert s[1..] == a[1..] + [c] + b;
      ContainsAround(a[1..], c, b, p);
      assert s[|a|] == c;
      assert |a| < |p| ==> p[|a|] in p;
      assert p <= s <==> p <= a;
    }
  }

  /** A pattern with a character that `s` lacks does not occur in `s`. */
  lemma {:induction false} ContainsMissing(s: string, p: string, i: nat)
    requires i < |p| && p[i] !in s
    ensures !Contains(s, p)
  {
    assert i < |s| ==> s[i] in s;
    if s != [] {
      ContainsMissing(s[1..], p, i);
    }
  }

  // ---------------------------------------------------- nothing new appears

  /** Patterns `[REDACTED]` can neither hold nor help to form. */
  ghost predicate Foreign(p: string) {
    p != [] && '[' !in p && ']' !in p && !Contains("REDACTED", p)
  }

  lemma RedactedAround(rest: string, p: string)
    requires Foreign(p)
    ensures Contains(REDACTED + rest, p) <==> Contains(rest, p)
  {
    assert REDACTED + rest == [] + ['['] + ("REDACTED" + [']'] + rest);
    ContainsAround([], '[', "REDACTED" + [']'] + rest, p);
    ContainsAround("REDACTED", ']', rest, p);
  }

  /** What is in front of a replacement was in front before it. */
  lemma {:induction false} ReplacePrefix(m: Matcher, prev: bool, s: string, p: string)
    requires p <= Replace(m, prev, s) && '[' !in p
    ensures p <= s
    decreases |s|
  {
    assert p != [] ==> p[0] in p;
    assert REDACTED[0] == '[';
    if s != [] && p != [] && MatchLen(m, prev, s) == 0 {
      ReplacePrefix(m, Alphanumeric(s[0]), s[1..], p[1..]);
    }
  }

  /** Replacing one secret never makes another appear. */
  lemma {:induction false} ReplaceAddsNothing(m: Matcher, prev: bool, s: string, p: string)
    requires Foreign(p) && Contains(Replace(m, prev, s), p)
    ensures Contains(s, p)
    decreases |s|
  {
    var n := MatchLen(m, prev, s);
    if s != [] {
      if n > 0 {
        var rest := Replace(m, Alphanumeric(s[n - 1]), s[n..]);
        RedactedAround(rest, p);
        ReplaceAddsNothing(m, Alphanumeric(s[n - 1]), s[n..], p);
        ContainsSuffix(s, n, p);
      } else {
        var r := Replace(m, prev, s);
        if p <= r {
          ReplacePrefix(m, prev, s, p);
        } else {
          assert r[1..] == Replace(m, Alphanumeric(s[0]), s[1..]);
          ReplaceAddsNothing(m, Alphanumeric(s[0]), s[1..], p);
        }
      }
    }
  }

  /** A replaced literal is gone. */
  lemma {:induction false} LiteralGone(p: string, prev: bool, s: string)
    requires Foreign(p)
    ensures !Contains(Replace(Literal(p), prev, s), p)
    decreases |s|
  {
    var m := Literal(p);
    var n := MatchLen(m, prev, s);
    if s != [] {
      if n > 0 {
        LiteralGone(p, Alphanumeric(s[n - 1]), s[n..]);
        RedactedAround(Replace(m, Alphanumeric(s[n - 1]), s[n..]), p);
      } else {
        var r := Replace(m, prev, s);
        LiteralGone(p, Alphanumeric(s[0]), s[1..]);
        assert r[1..] == Replace(m, Alphanumeric(s[0]), s[1..]);
        if p <= r {
          ReplacePrefix(m, prev, s, p);
        }
      }
    }
  }

  lemma {:induction false} LiteralAbsent(p: string, prev: bool, s: string)
    requires p != [] && !Contains(s, p)
    ensures Replace(Literal(p), prev, s) == s
    decreases |s|
  {
    if s != [] {
      LiteralAbsent(p, Alphanumeric(s[0]), s[1..]);
    }
  }

  // ------------------------------------------------------------------- keys

  lemma {:induction false} KeyAbsent(prev: bool, s: string)
    requires !HasKey(prev, s)
    ensures Replace(SkKey, prev, s) == s
    decreases |s|
  {
    if s != [] {
      KeyAbsent(Alphanumeric(s[0]), s[1..]);
    }
  }

  lemma {:induction false} KeyPresent(prev: bool, s: string)
    requires HasKey(prev, s)
    ensures Replace(SkKey, prev, s) != s
    decreases |s|
  {
    if KeyAt(prev, s) {
      assert Replace(SkKey, prev, s)[0] == '[';
    } else {
      KeyPresent(Alphanumeric(s[0]), s[1..]);
      assert Replace(SkKey, prev, s)[1..] == Replace(SkKey, Alphanumeric(s[0]), s[1..]);
    }
  }

  /** A key needs its `sk-`. */
  lemma {:induction false} KeyNeedsPrefix(prev: bool, s: string)
    requires HasKey(prev, s)
    ensures Contains(s, "sk-")
    decreases |s|
  {
    if !KeyAt(prev, s) {
      KeyNeedsPrefix(Alphanumeric(s[0]), s[1..]);
    }
  }

  /** Replacing never lengthens an alphanumeric run at the front. */
  lemma {:induction false} RunShrinks(m: Matcher, prev: bool, s: string)
    ensures Run(Replace(m, prev, s)) <= Run(s)
    decreases |s|
  {
    if s != [] {
      var n := MatchLen(m, prev, s);
      if n > 0 {
        assert Replace(m, prev, s)[0] == '[';
      } else {
        RunShrinks(m, Alphanumeric(s[0]), s[1..]);
        assert Replace(m, prev, s)[1..] == Replace(m, Alphanumeric(s[0]), s[1..]);
      }
    }
  }

  /** A key at the front of a replacement was a key before it. */
  lemma KeyAtReplaced(m: Matcher, prev: bool, s: string)
    requires KeyAt(prev, Replace(m, prev, s))
    ensures KeyAt(prev, s)
  {
    var r := Replace(m, prev, s);
    ReplacePrefix(m, prev, s, "sk-");
    ReplaceTail(m, prev, s);
  }

  /** Three copied bytes: the rest of the replacement is a replacement of the rest. */
  lemma ReplaceTail(m: Matcher, prev: bool, s: string)
    requires "sk-" <= Replace(m, prev, s)
    ensures "sk-" <= s && Run(Replace(m, prev, s)[3..]) <= Run(s[3..])
  {
    var r := Replace(m, prev, s);
    ReplacePrefix(m, prev, s, "sk-");
    var r1 := Replace(m, true, s[1..]);
    assert r[0] == 's' && r[1..] == r1 && r1[0] == 'k';
    var r2 := Replace(m, true, s[1..][1..]);
    assert r1[1..] == r2 && r2[0] == '-';
    assert s[1..][1..] == s[2..];
    var r3 := Replace(m, false, s[2..][1..]);
    assert r2[1..] == r3 && s[2..][1..] == s[3..];
    assert r[3..] == r3;
    RunShrinks(m, false, s[3..]);
  }

  lemma {:induction false} RunAround(a: string, c: char, b: string)
    requires !Alphanumeric(c)
    ensures Run(a + [c] + b) == Run(a)
    decreases |a|
  {
    if a != [] {
      assert (a + [c] + b)[1..] == a[1..] + [c] + b;
      RunAround(a[1..], c, b);
    }
  }

  /** A byte that no key can hold separates the keys on its sides. */
  lemma {:induction false} KeyAround(prev: bool, a: string, c: char, b: string)
    requires !Alphanumeric(c) && c != '-'
    ensures HasKey(prev, a + [c] + b) <==> HasKey(prev, a) || HasKey(false, b)
    decreases |a|
  {
    var s := a + [c] + b;
    if a == [] {
      assert s[0] == c && s[1..] == b;
    } else {
      assert s[1..] == a[1..] + [c] + b;
      KeyAround(Alphanumeric(a[0]), a[1..], c, b);
      assert s[|a|] == c;
      assert "sk-" <= s <==> "sk-" <= a;
      if "sk-" <= a {
        assert s[3..] == a[3..] + [c] + b;
        RunAround(a[3..], c, b);
      }
    }
  }

  lemma {:induction false} KeyNeedsDash(prev: bool, s: string)
    requires '-' !in s
    ensures !HasKey(prev, s)
    decreases |s|
  {
    assert |s| > 2 ==> s[2] in s;
    if s != [] {
      KeyNeedsDash(Alphanumeric(s[0]), s[1..]);
    }
  }

  lemma KeyAroundRedacted(prev: bool, rest: string)
    ensures HasKey(prev, REDACTED + rest) <==> HasKey(false, rest)
  {
    assert REDACTED + rest == "[REDACTED" + [']'] + rest;
    KeyAround(prev, "[REDACTED", ']', rest);
    KeyNeedsDash(prev, "[REDACTED");
  }

  /** Away from the front, what precedes a key is part of the string. */
  lemma KeyFrontOnly(s: string)
    requires !HasKey(true, s)
    ensures HasKey(false, s) <==> KeyAt(false, s)
  {
  }

  /** After the end of a key no key can start. */
  lemma KeyEndStays(s: string)
    requires s == [] || !Alphanumeric(s[0])
    ensures !("sk-" <= Replace(SkKey, true, s))
  {
    if s != [] {
      assert Replace(SkKey, true, s)[0] == s[0];
    }
  }

  /** The output of the key replacement has no position that a key could start at. */
  lemma {:induction false} KeysGone(prev: bool, s: string)
    ensures !HasKey(prev, Replace(SkKey, prev, s))
    decreases |s|
  {
    if s != [] {
      var n := MatchLen(SkKey, prev, s);
      var r := Replace(SkKey, prev, s);
      if n > 0 {
        KeysGone(true, s[n..]);
        assert Run(s[3..]) == n - 3 && s[3..][n - 4] == s[n - 1];
        var t := Replace(SkKey, true, s[n..]);
        KeyAroundRedacted(prev, t);
        KeyFrontOnly(t);
        assert n < |s| ==> s[n] == s[3..][n - 3];
        KeyEndStays(s[n..]);
      } else {
        KeysGone(Alphanumeric(s[0]), s[1..]);
        assert r[1..] == Replace(SkKey, Alphanumeric(s[0]), s[1..]);
        if KeyAt(prev, r) {
          KeyAtReplaced(SkKey, prev, s);
        }
      }
    }
  }

  lemma {:induction false} KeyFreeSuffix(prev: bool, s: string, i: nat)
    requires 0 < i <= |s| && !HasKey(prev, s)
    ensures !HasKey(Alphanumeric(s[i - 1]), s[i..])
    decreases |s|
  {
    if i > 1 {
      assert s[1..][i - 1..] == s[i..];
      KeyFreeSuffix(Alphanumeric(s[0]), s[1..], i - 1);
    }
  }

  lemma {:induction false} RunPrefix(s: string, i: nat)
    requires i <= |s|
    ensures Run(s[..i]) <= Run(s)
  {
    if i > 0 && Alphanumeric(s[0]) {
      assert s[..i][1..] == s[1..][..i - 1];
      RunPrefix(s[1..], i - 1);
    }
  }

  lemma {:induction false} KeyFreePrefix(prev: bool, s: string, i: nat)
    requires i <= |s| && !HasKey(prev, s)
    ensures !HasKey(prev, s[..i])
    decreases |s|
  {
    if i > 0 {
      assert s[..i][1..] == s[1..][..i - 1];
      KeyFreePrefix(Alphanumeric(s[0]), s[1..], i - 1);
      if "sk-" <= s[..i] {
        assert s[..i][3..] == s[3..][..i - 3];
        RunPrefix(s[3..], i - 3);
      }
    }
  }

  /** Literals that end in a byte that is not alphanumeric leave a key-free text key-free. */
  lemma {:induction false} LiteralKeepsKeyFree(p: string, prev: bool, s: string)
    requires p != [] && !Alphanumeric(p[|p| - 1]) && !HasKey(prev, s)
    ensures !HasKey(prev, Replace(Literal(p), prev, s))
    decreases |s|
  {
    var m := Literal(p);
    if s != [] {
      var n := MatchLen(m, prev, s);
      var r := Replace(m, prev, s);
      if n > 0 {
        KeyFreeSuffix(prev, s, n);
        LiteralKeepsKeyFree(p, false, s[n..]);
        KeyAroundRedacted(prev, Replace(m, false, s[n..]));
      } else {
        LiteralKeepsKeyFree(p, Alphanumeric(s[0]), s[1..]);
        assert r[1..] == Replace(m, Alphanumeric(s[0]), s[1..]);
        if KeyAt(prev, r) {
          KeyAtReplaced(m, prev, s);
        }
      }
    }
  }

  lemma {:induction false} KeyReplaceShrinks(prev: bool, s: string)
    ensures |Replace(SkKey, prev, s)| <= |s|
    decreases |s|
  {
    if s != [] {
      var n := MatchLen(SkKey, prev, s);
      if n > 0 {
        KeyReplaceShrinks(Alphanumeric(s[n - 1]), s[n..]);
      } else {
        KeyReplaceShrinks(Alphanumeric(s[0]), s[1..]);
      }
    }
  }

  // ------------------------------------------------------------------ UTF-8

  lemma {:induction false} AsciiFront(s: string, n: nat)
    requires Utf8.Valid(s) && n <= |s| && forall i :: 0 <= i < n ==> s[i] < '\U{80}'
    ensures Utf8.Valid(s[n..])
    decreases n
  {
    if n > 0 {
      AsciiFront(s[1..], n - 1);
      assert s[1..][n - 1..] == s[n..];
    } else {
      assert s[0..] == s;
    }
  }

  lemma MatchAscii(m: Matcher, prev: bool, s: string)
    requires Proper(m)
    ensures forall i :: 0 <= i < MatchLen(m, prev, s) ==> s[i] < '\U{80}'
  {
    if m.SkKey? && KeyAt(prev, s) {
      assert s[0] == 's' && s[1] == 'k' && s[2] == '-';
      forall i | 3 <= i < 3 + Run(s[3..])
        ensures s[i] < '\U{80}'
      {
        assert s[i] == s[3..][i - 3];
      }
    }
  }

  lemma CopyByte(m: Matcher, prev: bool, s: string)
    requires Proper(m) && s != [] && s[0] >= '\U{80}'
    ensures Replace(m, prev, s) == [s[0]] + Replace(m, false, s[1..])
  {
    MatchAscii(m, prev, s);
  }

  lemma FrontTwice(s: string, n: nat, r: string)
    requires 1 < n <= |s|
    ensures [s[0]] + (s[1..][..n - 1] + r) == s[..n] + r
  {
    assert [s[0]] + s[1..][..n - 1] == s[..n];
  }

  /** Bytes of a multi-byte character are copied. */
  lemma {:induction false} CopyBytes(m: Matcher, prev: bool, s: string, n: nat)
    requires Proper(m) && 0 < n <= |s| && forall i :: 0 <= i < n ==> s[i] >= '\U{80}'
    ensures Replace(m, prev, s) == s[..n] + Replace(m, false, s[n..])
    decreases n
  {
    CopyByte(m, prev, s);
    if n > 1 {
      CopyBytes(m, false, s[1..], n - 1);
      assert s[1..][n - 1..] == s[n..];
      FrontTwice(s, n, Replace(m, false, s[n..]));
    } else {
      assert s[..1] == [s[0]];
    }
  }

  lemma MatchValid(m: Matcher, prev: bool, s: string, n: nat)
    requires Proper(m) && Utf8.Valid(s) && 0 < n == MatchLen(m, prev, s)
    requires Utf8.Valid(Replace(m, Alphanumeric(s[n - 1]), s[n..]))
    ensures Utf8.Valid(Replace(m, prev, s))
  {
    Utf8.AsciiValid(REDACTED);
    Utf8.ValidConcat(REDACTED, Replace(m, Alphanumeric(s[n - 1]), s[n..]));
  }

  lemma CharValid(s: string, r: string)
    requires s != [] && Utf8.Valid(s) && Utf8.Valid(r)
    ensures Utf8.Valid(s[..Utf8.CharLen(s[0])] + r)
  {
    var k := Utf8.CharLen(s[0]);
    assert Utf8.Valid(s[..k]) by {
      assert s[..k][k..] == [];
    }
    Utf8.ValidConcat(s[..k], r);
  }

  lemma {:induction false} ReplaceValid(m: Matcher, prev: bool, s: string)
    requires Proper(m) && Utf8.Valid(s)
    ensures Utf8.Valid(Replace(m, prev, s))
    decreases |s|
  {
    if s != [] {
      var n := MatchLen(m, prev, s);
      if n > 0 {
        MatchAscii(m, prev, s);
        AsciiFront(s, n);
        ReplaceValid(m, Alphanumeric(s[n - 1]), s[n..]);
        MatchValid(m, prev, s, n);
      } else {
        var k := Utf8.CharLen(s[0]);
        if k == 1 {
          ReplaceValid(m, Alphanumeric(s[0]), s[1..]);
        } else {
          CopyBytes(m, prev, s, k);
          ReplaceValid(m, false, s[k..]);
          CharValid(s, Replace(m, false, s[k..]));
        }
      }
    }
  }
}
