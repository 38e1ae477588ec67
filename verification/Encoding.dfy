/** Injectivity of line-oriented encodings. */
module Encoding {

  /** Every line followed by `c`. */
  function Terminated(ls: seq<string>, c: char): string {
    if ls == [] then [] else ls[0] + [c] + Terminated(ls[1..], c)
  }

  /** Strings separated by `c`. */
  function Separated(ls: seq<string>, c: char): string {
    if ls == [] then [] else if |ls| == 1 then ls[0] else ls[0] + [c] + Separated(ls[1..], c)
  }

  ghost predicate FreeOf(ls: seq<string>, c: char) {
    forall i :: 0 <= i < |ls| ==> c !in ls[i]
  }

  /** The first `c` decides where the first string ends. */
  lemma {:induction false} SameFront(a: string, b: string, x: string, y: string, c: char)
    requires c !in a && c !in b && a + [c] + x == b + [c] + y
    ensures a == b && x == y
    decreases |a|
  {
    var s, t := a + [c] + x, b + [c] + y;
    assert s[0] == (if a == [] then c else a[0]) && t[0] == (if b == [] then c else b[0]);
    if a == [] && b == [] {
      assert s[1..] == x && t[1..] == y;
    } else if a != [] && b != [] {
      assert s[1..] == a[1..] + [c] + x && t[1..] == b[1..] + [c] + y;
      SameFront(a[1..], b[1..], x, y, c);
    }
  }

  lemma {:induction false} TerminatedInjective(ls: seq<string>, ms: seq<string>, c: char)
    requires FreeOf(ls, c) && FreeOf(ms, c) && Terminated(ls, c) == Terminated(ms, c)
    ensures ls == ms
  {
    if ls != [] && ms != [] {
      SameFront(ls[0], ms[0], Terminated(ls[1..], c), Terminated(ms[1..], c), c);
      TerminatedInjective(ls[1..], ms[1..], c);
      assert ls == [ls[0]] + ls[1..] && ms == [ms[0]] + ms[1..];
    }
  }

  lemma {:induction false} SeparatedTerminated(ls: seq<string>, c: char)
    requires ls != []
    ensures Separated(ls, c) + [c] == Terminated(ls, c)
  {
    if |ls| == 1 {
      assert Terminated(ls[1..], c) == [];
    } else {
      SeparatedTerminated(ls[1..], c);
      assert ls[0] + [c] + Separated(ls[1..], c) + [c] == ls[0] + [c] + (Separated(ls[1..], c) + [c]);
    }
  }

  /** Separated strings can be told apart again. */
  lemma SeparatedInjective(ls: seq<string>, ms: seq<string>, c: char)
    requires FreeOf(ls, c) && FreeOf(ms, c) && ls != [] && ms != [] && Separated(ls, c) == Separated(ms, c)
    ensures ls == ms
  {
    SeparatedTerminated(ls, c);
    SeparatedTerminated(ms, c);
    TerminatedInjective(ls, ms, c);
  }

  lemma {:induction false} TerminatedConcat(ls: seq<string>, ms: seq<string>, c: char)
    ensures Terminated(ls + ms, c) == Terminated(ls, c) + Terminated(ms, c)
  {
    if ls == [] {
      assert ls + ms == ms;
    } else {
      assert (ls + ms)[1..] == ls[1..] + ms;
      TerminatedConcat(ls[1..], ms, c);
    }
  }

  function Flatten<T>(bs: seq<seq<T>>): seq<T> {
    if bs == [] then [] else bs[0] + Flatten(bs[1..])
  }

  /** Blocks of one fixed size can be told apart again. */
  lemma {:induction false} FlattenInjective<T>(bs: seq<seq<T>>, cs: seq<seq<T>>, n: nat)
    requires n > 0 && (forall i :: 0 <= i < |bs| ==> |bs[i]| == n) && (forall i :: 0 <= i < |cs| ==> |cs[i]| == n)
    requires Flatten(bs) == Flatten(cs)
    ensures bs == cs
  {
    if bs == [] || cs == [] {
      assert bs != [] ==> |Flatten(bs)| >= n;
      assert cs != [] ==> |Flatten(cs)| >= n;
    } else {
      assert Flatten(bs)[..n] == bs[0] && Flatten(cs)[..n] == cs[0];
      assert Flatten(bs)[n..] == Flatten(bs[1..]) && Flatten(cs)[n..] == Flatten(cs[1..]);
      FlattenInjective(bs[1..], cs[1..], n);
      assert bs == [bs[0]] + bs[1..] && cs == [cs[0]] + cs[1..];
    }
  }

  // --------------------------------------------------- multisets under maps

  function Map<A, B>(f: A -> B, xs: seq<A>): (ys: seq<B>)
    ensures |ys| == |xs| && forall i :: 0 <= i < |xs| ==> ys[i] == f(xs[i])
  {
    seq(|xs|, i requires 0 <= i < |xs| => f(xs[i]))
  }

  /** `f` and `g` identify the same elements among those that satisfy `p`. */
  ghost predicate SameKernel<A(!new), B, C>(p: A -> bool, f: A -> B, g: A -> C) {
    forall x, y :: p(x) && p(y) ==> (f(x) == f(y) <==> g(x) == g(y))
  }

  ghost predicate All<A>(p: A -> bool, xs: seq<A>) {
    forall i :: 0 <= i < |xs| ==> p(xs[i])
  }

  lemma MapFront<A, B>(f: A -> B, xs: seq<A>)
    requires xs != []
    ensures multiset(Map(f, xs)) == multiset{f(xs[0])} + multiset(Map(f, xs[1..]))
  {
    assert Map(f, xs) == [f(xs[0])] + Map(f, xs[1..]);
  }

  lemma MapWithout<A, B>(f: A -> B, xs: seq<A>, i: nat)
    requires i < |xs|
    ensures multiset(Map(f, xs)) == multiset{f(xs[i])} + multiset(Map(f, xs[..i] + xs[i + 1..]))
  {
    var ys := Map(f, xs);
    assert ys == ys[..i] + [ys[i]] + ys[i + 1..];
    assert Map(f, xs[..i] + xs[i + 1..]) == ys[..i] + ys[i + 1..];
  }

  lemma Cancel<B>(b: B, m: multiset<B>, n: multiset<B>)
    requires multiset{b} + m == multiset{b} + n
    ensures m == n
  {
    assert m == (multiset{b} + m) - multiset{b};
    assert n == (multiset{b} + n) - multiset{b};
  }

  /** Two functions that identify the same elements identify the same collections. */
  lemma {:induction false} MapMultisets<A(!new), B, C>(p: A -> bool, f: A -> B, g: A -> C, xs: seq<A>, ys: seq<A>)
    requires SameKernel(p, f, g) && All(p, xs) && All(p, ys) && multiset(Map(f, xs)) == multiset(Map(f, ys))
    ensures multiset(Map(g, xs)) == multiset(Map(g, ys))
  {
    if xs == [] {
      assert |multiset(Map(f, ys))| == |ys|;
    } else {
      MapFront(f, xs);
      MapFront(g, xs);
      assert f(xs[0]) in multiset(Map(f, ys));
      var i :| 0 <= i < |Map(f, ys)| && Map(f, ys)[i] == f(xs[0]);
      assert g(ys[i]) == g(xs[0]);
      MapWithout(f, ys, i);
      MapWithout(g, ys, i);
      Cancel(f(xs[0]), multiset(Map(f, xs[1..])), multiset(Map(f, ys[..i] + ys[i + 1..])));
      MapMultisets(p, f, g, xs[1..], ys[..i] + ys[i + 1..]);
    }
  }

  /** The image of a collection does not depend on its order. */
  lemma {:induction false} MapMultisetsOf<A, B>(f: A -> B, xs: seq<A>, ys: seq<A>)
    requires multiset(xs) == multiset(ys)
    ensures multiset(Map(f, xs)) == multiset(Map(f, ys))
  {
    if xs == [] {
      assert |multiset(ys)| == |ys|;
    } else {
      assert xs == [xs[0]] + xs[1..];
      assert xs[0] in multiset(ys);
      var i :| 0 <= i < |ys| && ys[i] == xs[0];
      MapFront(f, xs);
      MapWithout(f, ys, i);
      assert ys == ys[..i] + [ys[i]] + ys[i + 1..];
      Cancel(xs[0], multiset(xs[1..]), multiset(ys[..i] + ys[i + 1..]));
      MapMultisetsOf(f, xs[1..], ys[..i] + ys[i + 1..]);
    }
  }
}
