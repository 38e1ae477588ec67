/** The Walsh-Hadamard rotation of the signature index, over exact reals.

    `Transform` is the recursive definition; `Butterflies` is the in-place triple loop.
    The transform is linear, its square is multiplication by the length, and it
    multiplies every inner product by the length. */
module Hadamard {
  import opened Collections

  // ---------------------------------------------------------------- algebra

  /** A vector of `2^k` coordinates, split in halves down to its coordinates. */
  datatype Vec = Coord(x: real) | Pair(lo: Vec, hi: Vec)

  ghost predicate Perfect(v: Vec, k: nat) {
    match v
    case Coord(_) => k == 0
    case Pair(lo, hi) => k > 0 && Perfect(lo, k - 1) && Perfect(hi, k - 1)
  }

  ghost function Plus(a: Vec, b: Vec, k: nat): (r: Vec)
    requires Perfect(a, k) && Perfect(b, k)
    ensures Perfect(r, k)
  {
    match a
    case Coord(x) => Coord(x + b.x)
    case Pair(lo, hi) => Pair(Plus(lo, b.lo, k - 1), Plus(hi, b.hi, k - 1))
  }

  ghost function Minus(a: Vec, b: Vec, k: nat): (r: Vec)
    requires Perfect(a, k) && Perfect(b, k)
    ensures Perfect(r, k)
  {
    match a
    case Coord(x) => Coord(x - b.x)
    case Pair(lo, hi) => Pair(Minus(lo, b.lo, k - 1), Minus(hi, b.hi, k - 1))
  }

  ghost function Times(c: real, v: Vec, k: nat): (r: Vec)
    requires Perfect(v, k)
    ensures Perfect(r, k)
  {
    match v
    case Coord(x) => Coord(c * x)
    case Pair(lo, hi) => Pair(Times(c, lo, k - 1), Times(c, hi, k - 1))
  }

  ghost function Inner(a: Vec, b: Vec, k: nat): real
    requires Perfect(a, k) && Perfect(b, k)
  {
    match a
    case Coord(x) => x * b.x
    case Pair(lo, hi) => Inner(lo, b.lo, k - 1) + Inner(hi, b.hi, k - 1)
  }

  /** The recursive transform: the halves are transformed, then added and subtracted. */
  ghost function Transform(v: Vec, k: nat): (r: Vec)
    requires Perfect(v, k)
    ensures Perfect(r, k)
  {
    match v
    case Coord(_) => v
    case Pair(lo, hi) =>
      var u, w := Transform(lo, k - 1), Transform(hi, k - 1);
      Pair(Plus(u, w, k - 1), Minus(u, w, k - 1))
  }

  ghost function Length(k: nat): (n: nat)
    ensures n > 0
  {
    if k == 0 then 1 else 2 * Length(k - 1)
  }

  lemma {:induction false} PlusSwap(a: Vec, b: Vec, c: Vec, d: Vec, k: nat)
    requires Perfect(a, k) && Perfect(b, k) && Perfect(c, k) && Perfect(d, k)
    ensures Plus(Plus(a, b, k), Plus(c, d, k), k) == Plus(Plus(a, c, k), Plus(b, d, k), k)
    ensures Minus(Plus(a, b, k), Plus(c, d, k), k) == Plus(Minus(a, c, k), Minus(b, d, k), k)
    ensures Plus(Minus(a, b, k), Minus(c, d, k), k) == Minus(Plus(a, c, k), Plus(b, d, k), k)
    ensures Minus(Minus(a, b, k), Minus(c, d, k), k) == Minus(Minus(a, c, k), Minus(b, d, k), k)
  {
    if k > 0 {
      PlusSwap(a.lo, b.lo, c.lo, d.lo, k - 1);
      PlusSwap(a.hi, b.hi, c.hi, d.hi, k - 1);
    }
  }

  lemma {:induction false} TransformLinear(a: Vec, b: Vec, k: nat)
    requires Perfect(a, k) && Perfect(b, k)
    ensures Transform(Plus(a, b, k), k) == Plus(Transform(a, k), Transform(b, k), k)
    ensures Transform(Minus(a, b, k), k) == Minus(Transform(a, k), Transform(b, k), k)
  {
    if k > 0 {
      TransformLinear(a.lo, b.lo, k - 1);
      TransformLinear(a.hi, b.hi, k - 1);
      PlusSwap(Transform(a.lo, k - 1), Transform(b.lo, k - 1), Transform(a.hi, k - 1), Transform(b.hi, k - 1), k - 1);
    }
  }

  lemma {:induction false} Doubling(c: real, a: Vec, b: Vec, k: nat)
    requires Perfect(a, k) && Perfect(b, k)
    ensures var p, q := Times(c, a, k), Times(c, b, k);
            && Plus(Plus(p, q, k), Minus(p, q, k), k) == Times(2.0 * c, a, k)
            && Minus(Plus(p, q, k), Minus(p, q, k), k) == Times(2.0 * c, b, k)
  {
    if k > 0 {
      Doubling(c, a.lo, b.lo, k - 1);
      Doubling(c, a.hi, b.hi, k - 1);
    }
  }

  /** Transforming twice multiplies every coordinate by the length. */
  lemma {:induction false} TransformTwice(v: Vec, k: nat)
    requires Perfect(v, k)
    ensures Transform(Transform(v, k), k) == Times(Length(k) as real, v, k)
  {
    if k > 0 {
      TransformTwice(v.lo, k - 1);
      TransformTwice(v.hi, k - 1);
      TransformLinear(Transform(v.lo, k - 1), Transform(v.hi, k - 1), k - 1);
      Doubling(Length(k - 1) as real, v.lo, v.hi, k - 1);
    }
  }

  /** The parallelogram identity behind one butterfly. */
  lemma {:induction false} InnerButterfly(a: Vec, b: Vec, c: Vec, d: Vec, k: nat)
    requires Perfect(a, k) && Perfect(b, k) && Perfect(c, k) && Perfect(d, k)
    ensures Inner(Plus(a, b, k), Plus(c, d, k), k) + Inner(Minus(a, b, k), Minus(c, d, k), k) ==
            2.0 * Inner(a, c, k) + 2.0 * Inner(b, d, k)
  {
    if k > 0 {
      InnerButterfly(a.lo, b.lo, c.lo, d.lo, k - 1);
      InnerButterfly(a.hi, b.hi, c.hi, d.hi, k - 1);
    } else {
      assert (a.x + b.x) * (c.x + d.x) + (a.x - b.x) * (c.x - d.x) == 2.0 * (a.x * c.x) + 2.0 * (b.x * d.x);
    }
  }

  /** The transform multiplies every inner product by the length. */
  lemma {:induction false} TransformInner(a: Vec, b: Vec, k: nat)
    requires Perfect(a, k) && Perfect(b, k)
    ensures Inner(Transform(a, k), Transform(b, k), k) == Length(k) as real * Inner(a, b, k)
  {
    if k > 0 {
      TransformInner(a.lo, b.lo, k - 1);
      TransformInner(a.hi, b.hi, k - 1);
      InnerButterfly(Transform(a.lo, k - 1), Transform(a.hi, k - 1), Transform(b.lo, k - 1), Transform(b.hi, k - 1), k - 1);
      var n, p, q := Length(k - 1) as real, Inner(a.lo, b.lo, k - 1), Inner(a.hi, b.hi, k - 1);
      assert 2.0 * (n * p) + 2.0 * (n * q) == (2.0 * n) * (p + q);
    }
  }

  lemma {:induction false} InnerTimes(c: real, a: Vec, d: real, b: Vec, k: nat)
    requires Perfect(a, k) && Perfect(b, k)
    ensures Inner(Times(c, a, k), Times(d, b, k), k) == (c * d) * Inner(a, b, k)
  {
    if k > 0 {
      InnerTimes(c, a.lo, d, b.lo, k - 1);
      InnerTimes(c, a.hi, d, b.hi, k - 1);
      var e, p, q := c * d, Inner(a.lo, b.lo, k - 1), Inner(a.hi, b.hi, k - 1);
      assert e * p + e * q == e * (p + q);
    }
  }

  lemma {:induction false} TransformTimes(c: real, v: Vec, k: nat)
    requires Perfect(v, k)
    ensures Transform(Times(c, v, k), k) == Times(c, Transform(v, k), k)
  {
    if k > 0 {
      TransformTimes(c, v.lo, k - 1);
      TransformTimes(c, v.hi, k - 1);
      TimesSpread(c, Transform(v.lo, k - 1), Transform(v.hi, k - 1), k - 1);
    }
  }

  lemma {:induction false} TimesSpread(c: real, a: Vec, b: Vec, k: nat)
    requires Perfect(a, k) && Perfect(b, k)
    ensures Plus(Times(c, a, k), Times(c, b, k), k) == Times(c, Plus(a, b, k), k)
    ensures Minus(Times(c, a, k), Times(c, b, k), k) == Times(c, Minus(a, b, k), k)
  {
    if k > 0 {
      TimesSpread(c, a.lo, b.lo, k - 1);
      TimesSpread(c, a.hi, b.hi, k - 1);
    } else {
      assert c * a.x + c * b.x == c * (a.x + b.x) && c * a.x - c * b.x == c * (a.x - b.x);
    }
  }

  lemma {:induction false} TimesTimes(c: real, d: real, v: Vec, k: nat)
    requires Perfect(v, k)
    ensures Times(c, Times(d, v, k), k) == Times(c * d, v, k)
  {
    if k > 0 {
      TimesTimes(c, d, v.lo, k - 1);
      TimesTimes(c, d, v.hi, k - 1);
    } else {
      assert c * (d * v.x) == (c * d) * v.x;
    }
  }

  lemma {:induction false} TimesOne(v: Vec, k: nat)
    requires Perfect(v, k)
    ensures Times(1.0, v, k) == v
  {
    if k > 0 {
      TimesOne(v.lo, k - 1);
      TimesOne(v.hi, k - 1);
    }
  }

  // ------------------------------------------------ vectors and sequences

  ghost function Flat(v: Vec, k: nat): (s: seq<real>)
    requires Perfect(v, k)
    ensures |s| == Length(k)
  {
    match v
    case Coord(x) => [x]
    case Pair(lo, hi) => Flat(lo, k - 1) + Flat(hi, k - 1)
  }

  ghost function Build(s: seq<real>, k: nat): (v: Vec)
    requires |s| == Length(k)
    ensures Perfect(v, k)
  {
    if k == 0 then Coord(s[0])
    else Pair(Build(s[..Length(k - 1)], k - 1), Build(s[Length(k - 1)..], k - 1))
  }

  lemma {:induction false} FlatBuild(s: seq<real>, k: nat)
    requires |s| == Length(k)
    ensures Flat(Build(s, k), k) == s
  {
    if k > 0 {
      FlatBuild(s[..Length(k - 1)], k - 1);
      FlatBuild(s[Length(k - 1)..], k - 1);
    }
  }

  lemma {:induction false} BuildFlat(v: Vec, k: nat)
    requires Perfect(v, k)
    ensures Build(Flat(v, k), k) == v
  {
    if k > 0 {
      BuildFlat(v.lo, k - 1);
      BuildFlat(v.hi, k - 1);
      assert Flat(v, k)[..Length(k - 1)] == Flat(v.lo, k - 1);
      assert Flat(v, k)[Length(k - 1)..] == Flat(v.hi, k - 1);
    }
  }

  lemma {:induction false} FlatPlusMinus(a: Vec, b: Vec, k: nat, i: nat)
    requires Perfect(a, k) && Perfect(b, k) && i < Length(k)
    ensures Flat(Plus(a, b, k), k)[i] == Flat(a, k)[i] + Flat(b, k)[i]
    ensures Flat(Minus(a, b, k), k)[i] == Flat(a, k)[i] - Flat(b, k)[i]
  {
    if k > 0 {
      var h := Length(k - 1);
      if i < h {
        FlatPlusMinus(a.lo, b.lo, k - 1, i);
      } else {
        FlatPlusMinus(a.hi, b.hi, k - 1, i - h);
      }
    }
  }

  lemma {:induction false} FlatTimes(c: real, v: Vec, k: nat, i: nat)
    requires Perfect(v, k) && i < Length(k)
    ensures Flat(Times(c, v, k), k)[i] == c * Flat(v, k)[i]
  {
    if k > 0 {
      var h := Length(k - 1);
      if i < h {
        FlatTimes(c, v.lo, k - 1, i);
      } else {
        FlatTimes(c, v.hi, k - 1, i - h);
      }
    }
  }

  // ------------------------------------------------------------ the loops

  ghost predicate AllPerfect(vs: seq<Vec>, j: nat) {
    forall i :: 0 <= i < |vs| ==> Perfect(vs[i], j)
  }

  /** The vectors of `2^j` coordinates that make up `v`, left to right. */
  ghost function Level(v: Vec, k: nat, j: nat): (vs: seq<Vec>)
    requires Perfect(v, k) && j <= k
    ensures AllPerfect(vs, j)
  {
    if j == k then [v] else Level(v.lo, k - 1, j) + Level(v.hi, k - 1, j)
  }

  ghost function Children(us: seq<Vec>, j: nat): (vs: seq<Vec>)
    requires AllPerfect(us, j + 1)
    ensures AllPerfect(vs, j)
  {
    if us == [] then [] else [us[0].lo, us[0].hi] + Children(us[1..], j)
  }

  lemma {:induction false} ChildrenConcat(us: seq<Vec>, ws: seq<Vec>, j: nat)
    requires AllPerfect(us, j + 1) && AllPerfect(ws, j + 1)
    ensures Children(us + ws, j) == Children(us, j) + Children(ws, j)
  {
    if us == [] {
      assert us + ws == ws;
    } else {
      assert (us + ws)[1..] == us[1..] + ws;
      ChildrenConcat(us[1..], ws, j);
    }
  }

  lemma {:induction false} LevelChildren(v: Vec, k: nat, j: nat)
    requires Perfect(v, k) && j < k
    ensures Level(v, k, j) == Children(Level(v, k, j + 1), j)
  {
    if j + 1 == k {
      assert Level(v, k, j) == [v.lo, v.hi];
      assert Children([v][1..], j) == [];
    } else {
      LevelChildren(v.lo, k - 1, j);
      LevelChildren(v.hi, k - 1, j);
      ChildrenConcat(Level(v.lo, k - 1, j + 1), Level(v.hi, k - 1, j + 1), j);
    }
  }

  /** Every block of `2^j` coordinates transformed on its own: the state between two stages. */
  ghost function Stage(vs: seq<Vec>, j: nat): seq<real>
    requires AllPerfect(vs, j)
  {
    if vs == [] then [] else Flat(Transform(vs[0], j), j) + Stage(vs[1..], j)
  }

  lemma {:induction false} StageConcat(us: seq<Vec>, ws: seq<Vec>, j: nat)
    requires AllPerfect(us, j) && AllPerfect(ws, j)
    ensures Stage(us + ws, j) == Stage(us, j) + Stage(ws, j)
  {
    if us == [] {
      assert us + ws == ws;
    } else {
      assert (us + ws)[1..] == us[1..] + ws;
      StageConcat(us[1..], ws, j);
    }
  }

  lemma {:induction false} FirstStage(v: Vec, k: nat)
    requires Perfect(v, k)
    ensures Stage(Level(v, k, 0), 0) == Flat(v, k)
  {
    if k == 0 {
      assert Stage([v][1..], 0) == [];
    } else {
      FirstStage(v.lo, k - 1);
      FirstStage(v.hi, k - 1);
      StageConcat(Level(v.lo, k - 1, 0), Level(v.hi, k - 1, 0), 0);
    }
  }

  ghost predicate Butterflied(s: seq<real>, t: seq<real>, h: nat) {
    && |s| == |t| == 2 * h
    && (forall i :: 0 <= i < h ==> t[i] == s[i] + s[i + h])
    && (forall i :: h <= i < 2 * h ==> t[i] == s[i - h] - s[i])
  }

  lemma ButterfliedHalves(a: seq<real>, b: seq<real>, p: seq<real>, m: seq<real>, t: seq<real>, h: nat)
    requires |a| == |b| == |p| == |m| == h && Butterflied(a + b, t, h)
    requires forall i :: 0 <= i < h ==> p[i] == a[i] + b[i] && m[i] == a[i] - b[i]
    ensures t == p + m
  {
    forall i | 0 <= i < 2 * h
      ensures t[i] == (p + m)[i]
    {
      if i < h {
        assert t[i] == (a + b)[i] + (a + b)[i + h];
      } else {
        assert t[i] == (a + b)[i - h] - (a + b)[i];
      }
    }
  }

  /** The `2h` coordinates of one block, before and after its butterflies. */
  lemma BlockResult(u: Vec, j: nat, t: seq<real>)
    requires Perfect(u, j + 1)
    requires Butterflied(Flat(Transform(u.lo, j), j) + Flat(Transform(u.hi, j), j), t, Length(j))
    ensures t == Flat(Transform(u, j + 1), j + 1)
  {
    var a, b := Transform(u.lo, j), Transform(u.hi, j);
    var p, m := Flat(Plus(a, b, j), j), Flat(Minus(a, b, j), j);
    forall i | 0 <= i < Length(j)
      ensures p[i] == Flat(a, j)[i] + Flat(b, j)[i] && m[i] == Flat(a, j)[i] - Flat(b, j)[i]
    {
      FlatPlusMinus(a, b, j, i);
    }
    ButterfliedHalves(Flat(a, j), Flat(b, j), p, m, t, Length(j));
  }

  /** `t` is `s` after the butterflies of the block at `i` have run up to `j`. */
  ghost predicate Running(s: seq<real>, t: seq<real>, i: nat, j: nat, h: nat) {
    && |s| == |t| && i <= j <= i + h && i + 2 * h <= |s|
    && (forall k :: 0 <= k < i ==> t[k] == s[k])
    && (forall k :: i <= k < j ==> t[k] == s[k] + s[k + h])
    && (forall k :: j <= k < i + h ==> t[k] == s[k])
    && (forall k :: i + h <= k < j + h ==> t[k] == s[k - h] - s[k])
    && (forall k :: j + h <= k < |s| ==> t[k] == s[k])
  }

  lemma RunningStep(s: seq<real>, t: seq<real>, i: nat, j: nat, h: nat)
    requires Running(s, t, i, j, h) && j < i + h
    ensures Running(s, t[j := t[j] + t[j + h]][j + h := t[j] - t[j + h]], i, j + 1, h)
  {
  }

  lemma BlockDone(s: seq<real>, t: seq<real>, i: nat, h: nat)
    requires Running(s, t, i, i + h, h)
    ensures Butterflied(s[i..i + 2 * h], t[i..i + 2 * h], h)
    ensures t[..i] == s[..i] && t[i + 2 * h..] == s[i + 2 * h..]
  {
    var p, q := s[i..i + 2 * h], t[i..i + 2 * h];
    forall k | 0 <= k < h
      ensures q[k] == p[k] + p[k + h]
    {
      assert t[k + i] == s[k + i] + s[k + i + h];
    }
    forall k | h <= k < 2 * h
      ensures q[k] == p[k - h] - p[k]
    {
      assert t[k + i] == s[k + i - h] - s[k + i];
    }
  }

  /** The innermost loop: the butterflies of one block of `2h` coordinates. */
  method ButterflyBlock(a: array<real>, i: nat, h: nat)
    requires i + 2 * h <= a.Length
    modifies a
    ensures Running(old(a[..]), a[..], i, i + h, h)
  {
    ghost var s := a[..];
    for j := i to i + h
      invariant Running(s, a[..], i, j, h)
    {
      ghost var t := a[..];
      var x := a[j];
      var y := a[j + h];
      a[j] := x + y;
      a[j + h] := x - y;
      RunningStep(s, t, i, j, h);
      assert a[..] == t[j := x + y][j + h := x - y];
    }
  }

  /** Between two blocks of a stage: the blocks before `i` are done, the `us` are left. */
  ghost predicate Pending(full: seq<real>, t: seq<real>, i: nat, us: seq<Vec>, j: nat) {
    && AllPerfect(us, j + 1)
    && i <= |t|
    && t[i..] == Stage(Children(us, j), j)
    && full == t[..i] + Stage(us, j + 1)
  }

  lemma PendingStep(full: seq<real>, s: seq<real>, t: seq<real>, i: nat, us: seq<Vec>, j: nat)
    requires Pending(full, s, i, us, j) && us != []
    requires Running(s, t, i, i + Length(j), Length(j))
    ensures Pending(full, t, i + 2 * Length(j), us[1..], j)
  {
    var n := 2 * Length(j);
    var front := Flat(Transform(us[0].lo, j), j) + Flat(Transform(us[0].hi, j), j);
    StageFront(us, j);
    BlockDone(s, t, i, Length(j));
    assert s[i..i + n] == front by {
      assert s[i..i + n] == s[i..][..n];
    }
    BlockResult(us[0], j, t[i..i + n]);
    Advance(full, s, t, i, n, front, Stage(Children(us[1..], j), j), t[i..i + n], Stage(us[1..], j + 1));
  }

  lemma Advance(full: seq<real>, s: seq<real>, t: seq<real>, i: nat, n: nat,
                front: seq<real>, rest: seq<real>, done: seq<real>, todo: seq<real>)
    requires i + n <= |s| == |t|
    requires s[i..] == front + rest && |front| == n
    requires full == s[..i] + (done + todo) && done == t[i..i + n]
    requires t[..i] == s[..i] && t[i + n..] == s[i + n..]
    ensures t[i + n..] == rest && full == t[..i + n] + todo
  {
    assert s[i + n..] == s[i..][n..];
    assert t[..i + n] == t[..i] + done;
  }

  /** The middle loop: from blocks of `h` transformed to blocks of `2h` transformed. */
  method ButterflyStage(a: array<real>, h: nat, ghost us: seq<Vec>, ghost j: nat)
    requires h == Length(j) && AllPerfect(us, j + 1)
    requires a[..] == Stage(Children(us, j), j)
    modifies a
    ensures a[..] == Stage(us, j + 1)
  {
    var i := 0;
    ghost var full, ws := Stage(us, j + 1), us;
    while i < a.Length
      invariant Pending(full, a[..], i, ws, j)
    {
      ghost var s := a[..];
      PendingFits(full, s, i, ws, j);
      ButterflyBlock(a, i, h);
      PendingStep(full, s, a[..], i, ws, j);
      i := i + 2 * h;
      ws := ws[1..];
    }
    StageEmpty(ws, j);
  }

  lemma PendingFits(full: seq<real>, s: seq<real>, i: nat, us: seq<Vec>, j: nat)
    requires Pending(full, s, i, us, j) && i < |s|
    ensures us != [] && i + 2 * Length(j) <= |s|
  {
    if us != [] {
      StageFront(us, j);
    }
  }

  lemma StageFront(us: seq<Vec>, j: nat)
    requires us != [] && AllPerfect(us, j + 1)
    ensures Stage(Children(us, j), j) ==
            Flat(Transform(us[0].lo, j), j) + Flat(Transform(us[0].hi, j), j) + Stage(Children(us[1..], j), j)
  {
    var vs, rest := Children(us, j), Children(us[1..], j);
    StageUnfold(vs, j);
    assert vs[1..] == [us[0].hi] + rest;
    StageUnfold(vs[1..], j);
    assert vs[1..][1..] == rest;
    Regroup(Flat(Transform(us[0].lo, j), j), Flat(Transform(us[0].hi, j), j), Stage(rest, j));
  }

  lemma StageUnfold(vs: seq<Vec>, j: nat)
    requires vs != [] && AllPerfect(vs, j)
    ensures Stage(vs, j) == Flat(Transform(vs[0], j), j) + Stage(vs[1..], j)
  {
  }

  lemma StageEmpty(us: seq<Vec>, j: nat)
    requires AllPerfect(us, j + 1)
    requires Stage(Children(us, j), j) == []
    ensures us == []
  {
    if us != [] {
      StageFront(us, j);
    }
  }

  /** The doubling loop: on any power-of-two length it computes the recursive transform. */
  method Butterflies(a: array<real>, ghost v: Vec, ghost k: nat)
    requires Perfect(v, k) && a[..] == Flat(v, k)
    modifies a
    ensures a[..] == Flat(Transform(v, k), k)
  {
    var h := 1;
    ghost var j := 0;
    FirstStage(v, k);
    assert a.Length == |a[..]| == Length(k);
    while h < a.Length
      invariant j <= k && h == Length(j)
      invariant a[..] == Stage(Level(v, k, j), j)
    {
      LevelChildren(v, k, j);
      ButterflyStage(a, h, Level(v, k, j + 1), j);
      h := h * 2;
      j := j + 1;
    }
    LengthGrows(j, k);
    assert [v][1..] == [] && Stage([v][1..], k) == [];
  }

  lemma {:induction false} LengthGrows(j: nat, k: nat)
    requires j <= k
    ensures j < k ==> Length(j) < Length(k)
    decreases k
  {
    if j < k {
      LengthGrows(j, k - 1);
    }
  }
}
