/** Quantized signatures: hash embedding, rotation, normalisation, 1-bit and 2-bit
    packing, and the rescaled inner product. Floats are exact reals, and the
    reciprocal square root is a parameter with the property of the real one. */
module Quantizer {
  import opened Hadamard
  import opened Text

  const DIM: nat := 64
  const SIGMA: real := 0.125

  datatype BitWidth = One | Two

  datatype PackedCode = PackedCode(bits: seq<bv8>, scale: real)

  // ------------------------------------------------------------- real sums

  function Product(x: real, y: real): real {
    x * y
  }

  ghost function Dot(s: seq<real>, t: seq<real>): real
    requires |s| == |t|
  {
    if s == [] then 0.0
    else var n := |s| - 1; Dot(s[..n], t[..n]) + Product(s[n], t[n])
  }

  function Abs(x: real): real {
    if x >= 0.0 then x else -x
  }

  ghost function L1(s: seq<real>): real {
    if s == [] then 0.0 else L1(s[..|s| - 1]) + Abs(s[|s| - 1])
  }

  lemma {:induction false} DotConcat(a: seq<real>, b: seq<real>, c: seq<real>, d: seq<real>)
    requires |a| == |c| && |b| == |d|
    ensures Dot(a + b, c + d) == Dot(a, c) + Dot(b, d)
    decreases |b|
  {
    if b == [] {
      assert a + b == a && c + d == c;
    } else {
      var n := |b| - 1;
      DotConcat(a, b[..n], c, d[..n]);
      assert (a + b)[..|a| + n] == a + b[..n] && (c + d)[..|a| + n] == c + d[..n];
    }
  }

  /** The inner product of vectors is the inner product of their coordinates. */
  lemma {:induction false} InnerIsDot(a: Vec, b: Vec, k: nat)
    requires Perfect(a, k) && Perfect(b, k)
    ensures Inner(a, b, k) == Dot(Flat(a, k), Flat(b, k))
  {
    if k == 0 {
      assert Flat(a, k)[..0] == [] && Flat(b, k)[..0] == [];
    } else {
      InnerIsDot(a.lo, b.lo, k - 1);
      InnerIsDot(a.hi, b.hi, k - 1);
      DotConcat(Flat(a.lo, k - 1), Flat(a.hi, k - 1), Flat(b.lo, k - 1), Flat(b.hi, k - 1));
    }
  }

  lemma {:induction false} SquaresNonNegative(s: seq<real>)
    ensures Dot(s, s) >= 0.0
  {
    if s != [] {
      var x := s[|s| - 1];
      SquaresNonNegative(s[..|s| - 1]);
      assert Product(x, x) >= 0.0;
    }
  }

  /** No coordinate squared exceeds the sum of squares. */
  lemma {:induction false} SquareBounded(s: seq<real>, i: nat)
    requires i < |s|
    ensures Product(s[i], s[i]) <= Dot(s, s)
    decreases |s|
  {
    var n := |s| - 1;
    assert Product(s[n], s[n]) >= 0.0;
    if i < n {
      SquareBounded(s[..n], i);
    } else {
      SquaresNonNegative(s[..n]);
    }
  }

  lemma {:induction false} L1Update(s: seq<real>, i: nat, x: real)
    requires i < |s|
    ensures L1(s[i := x]) == L1(s) - Abs(s[i]) + Abs(x)
    decreases |s|
  {
    var n := |s| - 1;
    if i < n {
      assert s[i := x][..n] == s[..n][i := x];
      L1Update(s[..n], i, x);
    } else {
      assert s[i := x][..n] == s[..n];
    }
  }

  // --------------------------------------------------------------- embedding

  predicate TokenChar(c: char) {
    Alphanumeric(c) || c == '_'
  }

  /** The run of token characters at the front of `s`. */
  function RunLength(s: string): (n: nat)
    ensures n <= |s|
  {
    if s != [] && TokenChar(s[0]) then 1 + RunLength(s[1..]) else 0
  }

  /** Maximal runs of token characters, at least two characters long. */
  function Tokenize(s: string): (toks: seq<string>)
    ensures forall t :: t in toks ==> |t| >= 2
    decreases |s|
  {
    if s == [] then []
    else
      var n := RunLength(s);
      if n == 0 then Tokenize(s[1..])
      else (if n >= 2 then [s[..n]] else []) + Tokenize(s[n..])
  }

  function Bucket(h: nat): (d: nat)
    ensures d < DIM
  {
    h % DIM
  }

  function Sign(h: nat): real {
    if h % 2 == 0 then 1.0 else -1.0
  }

  function Zeros(n: nat): (s: seq<real>)
    ensures |s| == n && forall i :: 0 <= i < n ==> s[i] == 0.0
  {
    seq(n, _ => 0.0)
  }

  ghost function Embedding(toks: seq<string>, mix: string -> nat): (v: seq<real>)
    ensures |v| == DIM
  {
    if toks == [] then Zeros(DIM)
    else
      var v := Embedding(toks[..|toks| - 1], mix);
      var h := mix(toks[|toks| - 1]);
      v[Bucket(h) := v[Bucket(h)] + Sign(h)]
  }

  lemma {:induction false} L1Zeros(n: nat)
    ensures L1(Zeros(n)) == 0.0
  {
    if n > 0 {
      assert Zeros(n)[..n - 1] == Zeros(n - 1);
      L1Zeros(n - 1);
    }
  }

  /** The sign every coordinate of an embedding keeps: plus in even buckets, minus in odd. */
  ghost predicate OnSide(x: real, d: nat) {
    if d % 2 == 0 then x >= 0.0 else x <= 0.0
  }

  /** The sign bit is the parity of the bucket, so a hash moves its bucket away from zero. */
  lemma StepAway(x: real, h: nat)
    requires OnSide(x, Bucket(h))
    ensures OnSide(x + Sign(h), Bucket(h))
    ensures Abs(x + Sign(h)) == Abs(x) + 1.0
  {
    assert Bucket(h) % 2 == h % 2;
  }

  lemma {:induction false} EmbeddingSides(toks: seq<string>, mix: string -> nat, d: nat)
    requires d < DIM
    ensures OnSide(Embedding(toks, mix)[d], d)
    decreases |toks|
  {
    if toks != [] {
      var n := |toks| - 1;
      EmbeddingSides(toks[..n], mix, d);
      var v, h := Embedding(toks[..n], mix), mix(toks[n]);
      if d == Bucket(h) {
        StepAway(v[d], h);
      }
    }
  }

  /** Tokens never cancel: the L1 norm of the embedding is the number of tokens. */
  lemma {:induction false} EmbeddingNeverCancels(toks: seq<string>, mix: string -> nat)
    ensures L1(Embedding(toks, mix)) == |toks| as real
    decreases |toks|
  {
    if toks == [] {
      L1Zeros(DIM);
    } else {
      var n := |toks| - 1;
      EmbeddingNeverCancels(toks[..n], mix);
      var v, h := Embedding(toks[..n], mix), mix(toks[n]);
      var d := Bucket(h);
      EmbeddingSides(toks[..n], mix, d);
      StepAway(v[d], h);
      L1Update(v, d, v[d] + Sign(h));
    }
  }

  lemma ProductPositive(x: real, y: real)
    requires x > 0.0 && y > 0.0
    ensures Product(x, y) > 0.0
  {
  }

  lemma ProductNegated(x: real, y: real)
    ensures Product(-x, -y) == Product(x, y)
  {
  }

  lemma SquareOfNonzero(x: real)
    requires x != 0.0
    ensures Product(x, x) > 0.0
  {
    if x > 0.0 {
      ProductPositive(x, x);
    } else {
      ProductPositive(-x, -x);
      ProductNegated(x, x);
    }
  }

  lemma {:induction false} ZeroNormZeroL1(s: seq<real>)
    requires Dot(s, s) <= 0.0
    ensures L1(s) == 0.0
  {
    if s != [] {
      var n := |s| - 1;
      SquareBounded(s, n);
      SquaresNonNegative(s[..n]);
      assert Product(s[n], s[n]) <= 0.0;
      if s[n] != 0.0 {
        SquareOfNonzero(s[n]);
      }
      ZeroNormZeroL1(s[..n]);
    }
  }

  method Embed(toks: seq<string>, mix: string -> nat) returns (v: array<real>)
    ensures fresh(v) && v[..] == Embedding(toks, mix)
  {
    v := new real[DIM](_ => 0.0);
    assert v[..] == Zeros(DIM);
    assert toks[..0] == [];
    for i := 0 to |toks|
      invariant v[..] == Embedding(toks[..i], mix)
    {
      assert toks[..i + 1][..i] == toks[..i];
      ghost var before := v[..];
      var h := mix(toks[i]);
      var d := Bucket(h);
      v[d] := v[d] + Sign(h);
      assert v[..] == before[d := before[d] + Sign(h)];
    }
    assert toks[..|toks|] == toks;
  }

  // ---------------------------------------------------------------- rotation

  ghost function Rotated(s: seq<real>): (r: seq<real>)
    requires |s| == DIM
    ensures |r| == DIM
  {
    LengthDim();
    Flat(Times(SIGMA, Transform(Build(s, 6), 6), 6), 6)
  }

  lemma LengthDim()
    ensures Length(6) == DIM
  {
    assert Length(3) == 8;
  }

  /** The rotation is its own inverse. */
  lemma RotatedTwice(s: seq<real>)
    requires |s| == DIM
    ensures Rotated(Rotated(s)) == s
  {
    LengthDim();
    var v := Build(s, 6);
    var w := Transform(v, 6);
    BuildFlat(Times(SIGMA, w, 6), 6);
    TransformTimes(SIGMA, w, 6);
    TransformTwice(v, 6);
    TimesTimes(SIGMA, DIM as real, v, 6);
    TimesTimes(SIGMA, SIGMA * DIM as real, v, 6);
    assert SIGMA * (SIGMA * DIM as real) == 1.0;
    TimesOne(v, 6);
    FlatBuild(s, 6);
  }

  /** The rotation keeps every inner product. */
  lemma RotatedDot(s: seq<real>, t: seq<real>)
    requires |s| == |t| == DIM
    ensures Dot(Rotated(s), Rotated(t)) == Dot(s, t)
  {
    LengthDim();
    var a, b := Build(s, 6), Build(t, 6);
    var u, w := Transform(a, 6), Transform(b, 6);
    InnerIsDot(Times(SIGMA, u, 6), Times(SIGMA, w, 6), 6);
    InnerTimes(SIGMA, u, SIGMA, w, 6);
    TransformInner(a, b, 6);
    InnerIsDot(a, b, 6);
    FlatBuild(s, 6);
    FlatBuild(t, 6);
    var d := Inner(a, b, 6);
    assert (SIGMA * SIGMA) * (64.0 * d) == d;
  }

  /** `fwht`: the butterflies, then the division by the square root of the dimension. */
  method Fwht(a: array<real>)
    requires a.Length == DIM
    modifies a
    ensures a[..] == Rotated(old(a[..]))
  {
    LengthDim();
    ghost var v := Build(a[..], 6);
    FlatBuild(a[..], 6);
    Butterflies(a, v, 6);
    ghost var w := Transform(v, 6);
    ghost var s := a[..];
    for i := 0 to DIM
      invariant forall j :: 0 <= j < i ==> a[j] == SIGMA * s[j]
      invariant forall j :: i <= j < DIM ==> a[j] == s[j]
    {
      a[i] := a[i] * SIGMA;
    }
    forall i | 0 <= i < DIM
      ensures a[i] == Flat(Times(SIGMA, w, 6), 6)[i]
    {
      FlatTimes(SIGMA, w, 6, i);
    }
  }

  // ------------------------------------------------------------ normalisation

  /** What the code asks of `sqrt().recip()`. */
  ghost predicate ReciprocalRoot(rsqrt: real -> real) {
    forall x: real :: x > 0.0 ==> rsqrt(x) > 0.0 && rsqrt(x) * rsqrt(x) * x == 1.0
  }

  ghost function Scaled(c: real, s: seq<real>): (r: seq<real>)
    ensures |r| == |s|
  {
    if s == [] then [] else Scaled(c, s[..|s| - 1]) + [Product(s[|s| - 1], c)]
  }

  lemma {:induction false} DotScaled(c: real, s: seq<real>)
    ensures Dot(Scaled(c, s), Scaled(c, s)) == c * c * Dot(s, s)
    decreases |s|
  {
    if s != [] {
      var n := |s| - 1;
      DotScaled(c, s[..n]);
      assert Scaled(c, s)[..n] == Scaled(c, s[..n]);
      ScaledTerm(c, s[n], Dot(s[..n], s[..n]));
    }
  }

  lemma ScaledTerm(c: real, x: real, d: real)
    ensures c * c * d + Product(Product(x, c), Product(x, c)) == c * c * (d + Product(x, x))
  {
  }

  ghost function Normalized(s: seq<real>, rsqrt: real -> real): (r: seq<real>)
    ensures |r| == |s|
  {
    if Dot(s, s) > 0.0 then Scaled(rsqrt(Dot(s, s)), s) else s
  }

  method L2Normalize(v: array<real>, rsqrt: real -> real)
    modifies v
    ensures v[..] == Normalized(old(v[..]), rsqrt)
  {
    ghost var s := v[..];
    var ss := 0.0;
    for i := 0 to v.Length
      invariant ss == Dot(s[..i], s[..i])
    {
      assert s[..i + 1][..i] == s[..i];
      ss := ss + Product(v[i], v[i]);
    }
    assert s[..v.Length] == s;
    if ss > 0.0 {
      var inv := rsqrt(ss);
      for i := 0 to v.Length
        invariant v[..i] == Scaled(inv, s[..i]) && v[i..] == s[i..]
      {
        assert s[..i + 1][..i] == s[..i];
        assert v[i] == v[i..][0] == s[i];
        ghost var done, rest := v[..i], v[i + 1..];
        assert rest == v[i..][1..] == s[i + 1..];
        v[i] := Product(v[i], inv);
        assert v[..i + 1] == done + [Product(s[i], inv)];
        assert v[i + 1..] == rest;
      }
      assert v[..v.Length] == v[..];
    }
  }

  ghost function UnitOf(text: string, mix: string -> nat, rsqrt: real -> real): (u: seq<real>)
    ensures |u| == DIM
  {
    Normalized(Rotated(Embedding(Tokenize(text), mix)), rsqrt)
  }

  /** A text with a token rotates to a vector of length one. */
  lemma UnitLength(text: string, mix: string -> nat, rsqrt: real -> real)
    requires Tokenize(text) != [] && ReciprocalRoot(rsqrt)
    ensures Dot(UnitOf(text, mix, rsqrt), UnitOf(text, mix, rsqrt)) == 1.0
  {
    var e := Embedding(Tokenize(text), mix);
    EmbeddingNeverCancels(Tokenize(text), mix);
    if Dot(e, e) <= 0.0 {
      ZeroNormZeroL1(e);
    }
    RotatedDot(e, e);
    DotScaled(rsqrt(Dot(e, e)), Rotated(e));
  }

  /** `rotate_unit` */
  method RotateUnit(text: string, mix: string -> nat, rsqrt: real -> real) returns (u: seq<real>)
    ensures u == UnitOf(text, mix, rsqrt)
  {
    var v := Embed(Tokenize(text), mix);
    assert v.Length == |v[..]| == DIM;
    Fwht(v);
    L2Normalize(v, rsqrt);
    u := v[..];
  }

  // ------------------------------------------------------------ bit packing

  /** Shifts by a count below eight. */
  function Shl(b: bv8, k: nat): bv8
    requires k < 8
  {
    match k
    case 0 => b
    case 1 => b << 1
    case 2 => b << 2
    case 3 => b << 3
    case 4 => b << 4
    case 5 => b << 5
    case 6 => b << 6
    case _ => b << 7
  }

  function Shr(b: bv8, k: nat): bv8
    requires k < 8
  {
    match k
    case 0 => b
    case 1 => b >> 1
    case 2 => b >> 2
    case 3 => b >> 3
    case 4 => b >> 4
    case 5 => b >> 5
    case 6 => b >> 6
    case _ => b >> 7
  }

  lemma OrBit(b: bv8, l: bv8, f: nat, g: nat)
    requires f < 8 && g < 8 && l <= 1
    ensures Shr(b | Shl(l, f), g) & 1 == (if f == g then (Shr(b, g) & 1) | l else Shr(b, g) & 1)
  {
  }

  function ShlField(b: bv8, f: nat): bv8
    requires f < 4
  {
    match f
    case 0 => b
    case 1 => b << 2
    case 2 => b << 4
    case _ => b << 6
  }

  function ShrField(b: bv8, f: nat): bv8
    requires f < 4
  {
    match f
    case 0 => b
    case 1 => b >> 2
    case 2 => b >> 4
    case _ => b >> 6
  }

  lemma OrField(b: bv8, l: bv8, f: nat, g: nat)
    requires f < 4 && g < 4 && l <= 3
    ensures ShrField(b | ShlField(l, f), g) & 3 == (if f == g then (ShrField(b, g) & 3) | l else ShrField(b, g) & 3)
  {
  }

  // ------------------------------------------------------------ quantization

  function Quantize2(z: real): bv8 {
    if z < -0.9816 then 0 else if z < 0.0 then 1 else if z < 0.9816 then 2 else 3
  }

  function LevelOf(w: BitWidth, x: real): (l: bv8)
    ensures l <= (if w.One? then 1 else 3)
  {
    if w.One? then (if x >= 0.0 then 1 else 0) else Quantize2(x / SIGMA)
  }

  function CentroidOf(w: BitWidth, l: bv8): real {
    if w.One? then (if l == 1 then SIGMA else -SIGMA)
    else if l == 0 then -1.510 * SIGMA
    else if l == 1 then -0.4528 * SIGMA
    else if l == 2 then 0.4528 * SIGMA
    else 1.510 * SIGMA
  }

  function PackedBytes(w: BitWidth): nat {
    if w.One? then 8 else 16
  }

  /** The level stored for coordinate `i`. */
  function Unpack(bits: seq<bv8>, w: BitWidth, i: nat): bv8
    requires |bits| == PackedBytes(w) && i < DIM
  {
    if w.One? then Shr(bits[i / 8], i % 8) & 1 else ShrField(bits[i / 4], i % 4) & 3
  }

  ghost function Centroids(bits: seq<bv8>, w: BitWidth): (r: seq<real>)
    requires |bits| == PackedBytes(w)
    ensures |r| == DIM && forall i :: 0 <= i < DIM ==> r[i] == CentroidOf(w, Unpack(bits, w, i))
  {
    seq(DIM, i requires 0 <= i < DIM => CentroidOf(w, Unpack(bits, w, i)))
  }

  /** The vector the levels of `u` stand for. */
  ghost function Reconstructed(u: seq<real>, w: BitWidth): (r: seq<real>)
    ensures |r| == |u| && forall i :: 0 <= i < |u| ==> r[i] == CentroidOf(w, LevelOf(w, u[i]))
  {
    seq(|u|, i requires 0 <= i < |u| => CentroidOf(w, LevelOf(w, u[i])))
  }

  ghost predicate Unpacks(bits: seq<bv8>, u: seq<real>, w: BitWidth)
    requires |u| == DIM
  {
    |bits| == PackedBytes(w) && forall i :: 0 <= i < DIM ==> Unpack(bits, w, i) == LevelOf(w, u[i])
  }

  function ScaleFor(ip: real): real {
    if Abs(ip) > 0.000000000001 then 1.0 / ip else 1.0
  }

  ghost predicate IsCode(code: PackedCode, u: seq<real>, w: BitWidth)
    requires |u| == DIM
  {
    Unpacks(code.bits, u, w) && code.scale == ScaleFor(Dot(u, Reconstructed(u, w)))
  }

  /** Packing up to coordinate `n`: the levels before it are stored, the rest is zero. */
  ghost predicate PackedTo(bits: seq<bv8>, u: seq<real>, w: BitWidth, n: nat)
    requires |u| == DIM && n <= DIM
  {
    && |bits| == PackedBytes(w)
    && (forall i :: 0 <= i < n ==> Unpack(bits, w, i) == LevelOf(w, u[i]))
    && (forall i :: n <= i < DIM ==> Unpack(bits, w, i) == 0)
  }

  function Stored(bits: seq<bv8>, w: BitWidth, i: nat, level: bv8): seq<bv8>
    requires |bits| == PackedBytes(w) && i < DIM
  {
    if w.One? then bits[i / 8 := bits[i / 8] | Shl(level, i % 8)]
    else bits[i / 4 := bits[i / 4] | ShlField(level, i % 4)]
  }

  lemma StoredReads(bits: seq<bv8>, w: BitWidth, n: nat, level: bv8, i: nat)
    requires |bits| == PackedBytes(w) && n < DIM && i < DIM
    requires level <= (if w.One? then 1 else 3) && Unpack(bits, w, n) == 0
    ensures Unpack(Stored(bits, w, n, level), w, i) == if i == n then level else Unpack(bits, w, i)
  {
    assert 0 | level == level;
    if w.One? {
      OrBit(bits[n / 8], level, n % 8, i % 8);
    } else {
      OrField(bits[n / 4], level, n % 4, i % 4);
    }
  }

  lemma PackStep(bits: seq<bv8>, u: seq<real>, w: BitWidth, n: nat)
    requires |u| == DIM && n < DIM && PackedTo(bits, u, w, n)
    ensures PackedTo(Stored(bits, w, n, LevelOf(w, u[n])), u, w, n + 1)
  {
    forall i | 0 <= i < DIM
      ensures Unpack(Stored(bits, w, n, LevelOf(w, u[n])), w, i) == if i == n then LevelOf(w, u[n]) else Unpack(bits, w, i)
    {
      StoredReads(bits, w, n, LevelOf(w, u[n]), i);
    }
  }

  lemma ZeroBytes(bits: seq<bv8>, u: seq<real>, w: BitWidth)
    requires |u| == DIM && |bits| == PackedBytes(w) && forall i :: 0 <= i < |bits| ==> bits[i] == 0
    ensures PackedTo(bits, u, w, 0)
  {
    forall i | 0 <= i < DIM
      ensures Unpack(bits, w, i) == 0
    {
      ZeroShifts(i % 8, i % 4);
    }
  }

  lemma ZeroShifts(f: nat, g: nat)
    requires f < 8 && g < 4
    ensures Shr(0, f) == 0 && ShrField(0, g) == 0
  {
  }

  method Store(bits: array<bv8>, w: BitWidth, i: nat, level: bv8)
    requires bits.Length == PackedBytes(w) && i < DIM
    modifies bits
    ensures bits[..] == Stored(old(bits[..]), w, i, level)
  {
    if w.One? {
      bits[i / 8] := bits[i / 8] | Shl(level, i % 8);
    } else {
      bits[i / 4] := bits[i / 4] | ShlField(level, i % 4);
    }
  }

  /** The packing loop: levels into bytes, centroids into the reconstruction. */
  method Pack(u: array<real>, w: BitWidth) returns (bits: array<bv8>, rec: array<real>)
    requires u.Length == DIM
    ensures Unpacks(bits[..], u[..], w) && rec[..] == Reconstructed(u[..], w)
  {
    bits := new bv8[PackedBytes(w)](_ => 0);
    rec := new real[DIM](_ => 0.0);
    ghost var s, r := u[..], Reconstructed(u[..], w);
    ZeroBytes(bits[..], s, w);
    for i := 0 to DIM
      invariant u[..] == s && bits.Length == PackedBytes(w)
      invariant PackedTo(bits[..], s, w, i)
      invariant forall j :: 0 <= j < i ==> rec[j] == r[j]
    {
      PackStep(bits[..], s, w, i);
      var level := LevelOf(w, u[i]);
      Store(bits, w, i, level);
      rec[i] := CentroidOf(w, level);
    }
    assert rec[..] == r;
  }

  method InnerProduct(x: array<real>, y: array<real>) returns (ip: real)
    requires x.Length == y.Length
    ensures ip == Dot(x[..], y[..])
  {
    ip := 0.0;
    for i := 0 to x.Length
      invariant ip == Dot(x[..i], y[..i])
    {
      assert x[..i + 1][..i] == x[..i] && y[..i + 1][..i] == y[..i];
      ip := ip + Product(x[i], y[i]);
    }
    assert x[..x.Length] == x[..] && y[..y.Length] == y[..];
  }

  method Quantize(u: array<real>, w: BitWidth) returns (code: PackedCode)
    requires u.Length == DIM
    ensures IsCode(code, u[..], w)
  {
    var bits, rec := Pack(u, w);
    assert rec.Length == |rec[..]| == DIM;
    var ip := InnerProduct(u, rec);
    code := PackedCode(bits[..], ScaleFor(ip));
  }

  method ScoreQuery(query: seq<real>, code: PackedCode, w: BitWidth) returns (score: real)
    requires |query| == DIM && |code.bits| == PackedBytes(w)
    ensures score == Dot(query, Centroids(code.bits, w)) * code.scale
  {
    ghost var c := Centroids(code.bits, w);
    var ip := 0.0;
    for i := 0 to DIM
      invariant ip == Dot(query[..i], c[..i])
    {
      assert query[..i + 1][..i] == query[..i] && c[..i + 1][..i] == c[..i];
      ip := ip + Product(query[i], CentroidOf(w, Unpack(code.bits, w, i)));
    }
    assert query[..DIM] == query && c[..DIM] == c;
    score := ip * code.scale;
  }

  // ----------------------------------------------------------- a self query

  /** The centroid lies on the coordinate's own side, at least 0.4528 sigma out. */
  lemma CentroidAligned(w: BitWidth, x: real)
    ensures Product(x, CentroidOf(w, LevelOf(w, x))) >= 0.4528 * SIGMA * Abs(x)
    ensures w.One? ==> Product(x, CentroidOf(w, LevelOf(w, x))) == SIGMA * Abs(x)
  {
    var c := CentroidOf(w, LevelOf(w, x));
    if x >= 0.0 {
      assert c >= 0.4528 * SIGMA;
      assert x * c >= x * (0.4528 * SIGMA);
    } else {
      assert c <= -0.4528 * SIGMA;
      assert (-x) * (-c) >= (-x) * (0.4528 * SIGMA);
      assert x * c == (-x) * (-c);
    }
  }

  lemma {:induction false} ReconstructionAligned(u: seq<real>, w: BitWidth)
    ensures Dot(u, Reconstructed(u, w)) >= 0.4528 * SIGMA * L1(u)
    ensures w.One? ==> Dot(u, Reconstructed(u, w)) == SIGMA * L1(u)
    decreases |u|
  {
    if u != [] {
      var n := |u| - 1;
      ReconstructionAligned(u[..n], w);
      assert Reconstructed(u, w)[..n] == Reconstructed(u[..n], w);
      CentroidAligned(w, u[n]);
    }
  }

  lemma SquareBounds(x: real)
    ensures Product(x, x) <= 1.0 ==> Product(x, x) <= Abs(x)
    ensures Abs(x) <= 4.0 * Product(x, x) + 0.0625
  {
    var a := Abs(x);
    assert Product(x, x) == a * a;
    assert (2.0 * a - 0.25) * (2.0 * a - 0.25) >= 0.0;
    assert (2.0 * a - 0.25) * (2.0 * a - 0.25) == 4.0 * (a * a) - a + 0.0625;
    if a > 1.0 {
      assert a * a > 1.0 * a;
    } else {
      assert a * a <= a * 1.0;
    }
  }

  lemma {:induction false} L1Bounds(s: seq<real>, b: real)
    requires Dot(s, s) <= b <= 1.0
    ensures Dot(s, s) <= L1(s) <= 4.0 * Dot(s, s) + 0.0625 * |s| as real
    decreases |s|
  {
    if s != [] {
      var n := |s| - 1;
      SquareBounded(s, n);
      SquareBounds(s[n]);
      assert Product(s[n], s[n]) >= 0.0;
      L1Bounds(s[..n], b);
    }
  }

  /** A unit vector scored against its own code gives exactly one, in both widths; the
      fallback scale is never used; and the 1-bit scale lies between 1 and 8. */
  lemma UnitScoresOne(u: seq<real>, w: BitWidth, code: PackedCode)
    requires |u| == DIM && Dot(u, u) == 1.0 && IsCode(code, u, w)
    ensures Dot(u, Centroids(code.bits, w)) * code.scale == 1.0
    ensures Dot(u, Reconstructed(u, w)) >= 0.4528 / 8.0
    ensures w.One? ==> 1.0 <= code.scale <= 8.0
  {
    assert Centroids(code.bits, w) == Reconstructed(u, w);
    ReconstructionAligned(u, w);
    L1Bounds(u, 1.0);
    var ip := Dot(u, Reconstructed(u, w));
    assert ip >= 0.4528 / 8.0;
    Reciprocal(ip);
  }

  lemma Reciprocal(ip: real)
    requires ip > 0.0
    ensures ip * (1.0 / ip) == 1.0
    ensures 0.125 <= ip <= 1.0 ==> 1.0 <= 1.0 / ip <= 8.0
  {
  }

  /** `encode` */
  method Encode(text: string, mix: string -> nat, rsqrt: real -> real, w: BitWidth) returns (code: PackedCode)
    ensures IsCode(code, UnitOf(text, mix, rsqrt), w)
  {
    var v := Embed(Tokenize(text), mix);
    assert v.Length == |v[..]| == DIM;
    Fwht(v);
    L2Normalize(v, rsqrt);
    code := Quantize(v, w);
  }

  /** Every text with a token scores exactly one against itself, whatever the hash. */
  method SelfScore(text: string, mix: string -> nat, rsqrt: real -> real, w: BitWidth) returns (score: real)
    requires ReciprocalRoot(rsqrt)
    ensures Tokenize(text) != [] ==> score == 1.0
    ensures Tokenize(text) == [] ==> score == 0.0
  {
    var q := RotateUnit(text, mix, rsqrt);
    var code := Encode(text, mix, rsqrt, w);
    score := ScoreQuery(q, code, w);
    if Tokenize(text) != [] {
      UnitLength(text, mix, rsqrt);
      UnitScoresOne(q, w, code);
    } else {
      NoTokens(text, mix, rsqrt);
      DotZeros(q, Centroids(code.bits, w));
    }
  }

  lemma {:induction false} DotZeros(s: seq<real>, t: seq<real>)
    requires |s| == |t| && forall i :: 0 <= i < |s| ==> s[i] == 0.0
    ensures Dot(s, t) == 0.0
    decreases |s|
  {
    if s != [] {
      var n := |s| - 1;
      DotZeros(s[..n], t[..n]);
    }
  }

  lemma NoTokens(text: string, mix: string -> nat, rsqrt: real -> real)
    requires Tokenize(text) == []
    ensures forall i :: 0 <= i < DIM ==> UnitOf(text, mix, rsqrt)[i] == 0.0
  {
    var z := Zeros(DIM);
    var r := Rotated(z);
    DotZeros(z, z);
    RotatedDot(z, z);
    forall i | 0 <= i < DIM
      ensures r[i] == 0.0
    {
      SquareBounded(r, i);
      if r[i] != 0.0 {
        SquareOfNonzero(r[i]);
      }
    }
  }
}
