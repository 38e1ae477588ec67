/** The online signature index: entries appended, all of them scored for a query. */
module SignatureIndex {
  import opened Options
  import opened Ranking
  import Q = Quantizer
  import Text

  /** A declaration found in a skeleton. */
  datatype Declaration = Declaration(name: string, text: string)

  /** What is indexed: the text is embedded, the name is compared exactly. */
  datatype Source = Source(path: string, name: string, text: string)

  datatype Entry = Entry(path: string, name: string, code: Q.PackedCode)

  /** Trimmed query that is exactly one token. */
  function SingleIdentifier(query: string): (name: Option<string>)
    ensures name.Some? ==> |name.value| >= 2 && name.value == Text.Trim(query)
  {
    var trimmed := Text.Trim(query);
    var toks := Q.Tokenize(trimmed);
    if |toks| == 1 && toks[0] == trimmed then Some(trimmed) else None
  }

  function SourcesOf(path: string, skeleton: string, decls: seq<Declaration>): seq<Source> {
    if decls == [] then [Source(path, path, path + "\n" + skeleton)]
    else [Source(path, decls[0].name, decls[0].text)] + SourcesOf(path, skeleton, decls[1..])
  }

  /** The hash and the root the whole index is built with. */
  datatype Params = Params(mix: string -> nat, rsqrt: real -> real, width: Q.BitWidth)

  ghost predicate Encodes(e: Entry, s: Source, ps: Params) {
    e.path == s.path && e.name == s.name && Q.IsCode(e.code, Q.UnitOf(s.text, ps.mix, ps.rsqrt), ps.width)
  }

  ghost predicate AllEncode(entries: seq<Entry>, srcs: seq<Source>, ps: Params) {
    |entries| == |srcs| && forall i :: 0 <= i < |entries| ==> Encodes(entries[i], srcs[i], ps)
  }

  ghost predicate Packed(e: Entry, w: Q.BitWidth) {
    |e.code.bits| == Q.PackedBytes(w)
  }

  /** The quantized inner product of the rotated query with an entry. */
  ghost function ScoreOf(e: Entry, q: seq<real>, w: Q.BitWidth): real
    requires |q| == Q.DIM && Packed(e, w)
  {
    Q.Dot(q, Q.Centroids(e.code.bits, w)) * e.code.scale
  }

  /** Every entry in turn, scored. */
  ghost function ScoreList(entries: seq<Entry>, q: seq<real>, w: Q.BitWidth): (es: seq<Scored>)
    requires |q| == Q.DIM && forall i :: 0 <= i < |entries| ==> Packed(entries[i], w)
    ensures |es| == |entries|
    ensures forall i :: 0 <= i < |es| ==> es[i].path == entries[i].path && es[i].name == entries[i].name
    decreases |entries|
  {
    if entries == [] then []
    else
      var n := |entries| - 1;
      ScoreList(entries[..n], q, w) + [Scored(entries[n].path, entries[n].name, ScoreOf(entries[n], q, w))]
  }

  class Index {
    const ps: Params
    var entries: seq<Entry>
    ghost var sources: seq<Source>

    ghost predicate Valid()
      reads this
    {
      AllEncode(entries, sources, ps)
    }

    constructor (ps: Params)
      ensures this.ps == ps && Valid() && sources == []
    {
      this.ps := ps;
      entries, sources := [], [];
    }

    /** Adding never rewrites an entry that is already there. */
    method AddSignature(s: Source)
      requires Valid()
      modifies this
      ensures Valid() && sources == old(sources) + [s]
      ensures |entries| == |old(entries)| + 1 && entries[..|old(entries)|] == old(entries)
    {
      var code := Q.Encode(s.text, ps.mix, ps.rsqrt, ps.width);
      entries := entries + [Entry(s.path, s.name, code)];
      sources := sources + [s];
    }

    method AddSkeleton(path: string, skeleton: string, decls: seq<Declaration>)
      requires Valid()
      modifies this
      ensures Valid() && sources == old(sources) + SourcesOf(path, skeleton, decls)
      ensures |entries| >= |old(entries)| && entries[..|old(entries)|] == old(entries)
    {
      var i := 0;
      while i < |decls|
        invariant i <= |decls| && Valid()
        invariant old(sources) + SourcesOf(path, skeleton, decls) == sources + SourcesOf(path, skeleton, decls[i..])
        invariant |entries| >= |old(entries)| && entries[..|old(entries)|] == old(entries)
      {
        assert decls[i..][1..] == decls[i + 1..];
        AddSignature(Source(path, decls[i].name, decls[i].text));
        i := i + 1;
      }
      AddSignature(Source(path, path, path + "\n" + skeleton));
    }

    /** The scoring pass `search` and `rank_files` share. */
    method Scores(query: string) returns (es: seq<Scored>)
      requires Valid()
      ensures forall i :: 0 <= i < |entries| ==> Packed(entries[i], ps.width)
      ensures es == ScoreList(entries, Q.UnitOf(query, ps.mix, ps.rsqrt), ps.width)
    {
      var q := Q.RotateUnit(query, ps.mix, ps.rsqrt);
      forall i | 0 <= i < |entries|
        ensures Packed(entries[i], ps.width)
      {
        assert Encodes(entries[i], sources[i], ps);
      }
      es := ScoreAll(q, entries, ps.width);
    }
  }

  method ScoreAll(q: seq<real>, entries: seq<Entry>, w: Q.BitWidth) returns (es: seq<Scored>)
    requires |q| == Q.DIM && forall i :: 0 <= i < |entries| ==> Packed(entries[i], w)
    ensures es == ScoreList(entries, q, w)
  {
    es := [];
    for i := 0 to |entries|
      invariant es == ScoreList(entries[..i], q, w)
    {
      var score := ScoreEntry(q, entries[i], w);
      assert entries[..i + 1][..i] == entries[..i];
      es := es + [Scored(entries[i].path, entries[i].name, score)];
    }
    assert entries[..|entries|] == entries;
  }

  method ScoreEntry(q: seq<real>, e: Entry, w: Q.BitWidth) returns (score: real)
    requires |q| == Q.DIM && Packed(e, w)
    ensures score == ScoreOf(e, q, w)
  {
    score := Q.ScoreQuery(q, e.code, w);
  }

  /** The last body given for each path. */
  function Bodies(sk: seq<(string, string)>): map<string, string> {
    if sk == [] then map[]
    else Bodies(sk[..|sk| - 1])[sk[|sk| - 1].0 := sk[|sk| - 1].1]
  }

  ghost function AllSources(sk: seq<(string, string)>, extract: (string, string) -> seq<Declaration>): seq<Source> {
    if sk == [] then []
    else
      var (p, b) := sk[|sk| - 1];
      AllSources(sk[..|sk| - 1], extract) + SourcesOf(p, b, extract(p, b))
  }

  method BuildIndex(sk: seq<(string, string)>, extract: (string, string) -> seq<Declaration>, ps: Params)
    returns (index: Index)
    ensures fresh(index) && index.Valid() && index.ps == ps && index.sources == AllSources(sk, extract)
  {
    index := new Index(ps);
    for i := 0 to |sk|
      invariant fresh(index) && index.Valid() && index.ps == ps && index.sources == AllSources(sk[..i], extract)
    {
      var (p, b) := sk[i];
      index.AddSkeleton(p, b, extract(p, b));
      assert sk[..i + 1][..i] == sk[..i];
    }
    assert sk[..|sk|] == sk;
  }

  lemma {:induction false} SourcePaths(path: string, skeleton: string, decls: seq<Declaration>)
    ensures SourcesOf(path, skeleton, decls) != []
    ensures forall s :: s in SourcesOf(path, skeleton, decls) ==> s.path == path
  {
    if decls != [] {
      SourcePaths(path, skeleton, decls[1..]);
    }
  }

  lemma {:induction false} AllSourcePaths(sk: seq<(string, string)>, extract: (string, string) -> seq<Declaration>, p: string)
    ensures (exists s :: s in AllSources(sk, extract) && s.path == p) <==> p in Bodies(sk)
    decreases |sk|
  {
    if sk != [] {
      var n := |sk| - 1;
      var (q, b) := sk[n];
      AllSourcePaths(sk[..n], extract, p);
      SourcePaths(q, b, extract(q, b));
      var rest := SourcesOf(q, b, extract(q, b));
      assert rest[0] in rest;
      assert AllSources(sk, extract) == AllSources(sk[..n], extract) + rest;
      assert rest[0] in AllSources(sk, extract);
      if p in Bodies(sk[..n]) {
        var s :| s in AllSources(sk[..n], extract) && s.path == p;
        assert s in AllSources(sk, extract);
      }
    }
  }
}
