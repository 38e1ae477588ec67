/** In which order a selection is: pins, then the ranking, unless everything fits without pins. */
module SelectionOrder {
  import opened Options
  import opened Sorting
  import opened Picking
  import opened SignatureIndex
  import opened ContextSelection
  import R = Ranking
  import Q = Quantizer
  import Text

  // ----------------------------------------------------------- only one ranking

  lemma SameCentroids(a: seq<bv8>, b: seq<bv8>, u: seq<real>, w: Q.BitWidth)
    requires |u| == Q.DIM && Q.Unpacks(a, u, w) && Q.Unpacks(b, u, w)
    ensures Q.Centroids(a, w) == Q.Centroids(b, w)
  {
    forall i | 0 <= i < Q.DIM
      ensures Q.Centroids(a, w)[i] == Q.Centroids(b, w)[i]
    {
      assert Q.Unpack(a, w, i) == Q.Unpack(b, w, i);
    }
  }

  lemma SameScore(a: Entry, b: Entry, s: Source, ps: Params, q: seq<real>)
    requires Encodes(a, s, ps) && Encodes(b, s, ps) && |q| == Q.DIM
    ensures Packed(a, ps.width) && Packed(b, ps.width) && ScoreOf(a, q, ps.width) == ScoreOf(b, q, ps.width)
  {
    SameCentroids(a.code.bits, b.code.bits, Q.UnitOf(s.text, ps.mix, ps.rsqrt), ps.width);
  }

  /** Two encodings of the same sources have the same scores. */
  lemma {:induction false} SameScores(a: seq<Entry>, b: seq<Entry>, srcs: seq<Source>, ps: Params, q: seq<real>)
    requires AllEncode(a, srcs, ps) && AllEncode(b, srcs, ps) && |q| == Q.DIM
    requires (forall i :: 0 <= i < |a| ==> Packed(a[i], ps.width)) && forall i :: 0 <= i < |b| ==> Packed(b[i], ps.width)
    ensures ScoreList(a, q, ps.width) == ScoreList(b, q, ps.width)
    decreases |a|
  {
    if a != [] {
      var n := |a| - 1;
      assert Encodes(a[n], srcs[n], ps) && Encodes(b[n], srcs[n], ps);
      SameScore(a[n], b[n], srcs[n], ps, q);
      EncodeFront(a, srcs, ps, n);
      EncodeFront(b, srcs, ps, n);
      SameScores(a[..n], b[..n], srcs[..n], ps, q);
      ScoreLast(a, q, ps.width);
      ScoreLast(b, q, ps.width);
    }
  }

  lemma EncodeFront(a: seq<Entry>, srcs: seq<Source>, ps: Params, n: nat)
    requires AllEncode(a, srcs, ps) && n <= |a|
    ensures AllEncode(a[..n], srcs[..n], ps)
  {
  }

  lemma ScoreLast(a: seq<Entry>, q: seq<real>, w: Q.BitWidth)
    requires a != [] && |q| == Q.DIM && forall i :: 0 <= i < |a| ==> Packed(a[i], w)
    ensures var n := |a| - 1; ScoreList(a, q, w) == ScoreList(a[..n], q, w) + [R.Scored(a[n].path, a[n].name, ScoreOf(a[n], q, w))]
  {
  }

  lemma ScoresUnique(es: seq<R.Scored>, fs: seq<R.Scored>, query: string, sk: seq<(string, string)>,
                     extract: (string, string) -> seq<Declaration>, mix: string -> nat, rsqrt: real -> real)
    requires IndexScores(es, query, sk, extract, mix, rsqrt) && IndexScores(fs, query, sk, extract, mix, rsqrt)
    ensures es == fs
  {
    var ps, srcs, q := Params(mix, rsqrt, Q.Two), AllSources(sk, extract), Q.UnitOf(query, mix, rsqrt);
    var a: seq<Entry> :| AllEncode(a, srcs, ps) && (forall i :: 0 <= i < |a| ==> Packed(a[i], Q.Two)) && es == ScoreList(a, q, Q.Two);
    var b: seq<Entry> :| AllEncode(b, srcs, ps) && (forall i :: 0 <= i < |b| ==> Packed(b[i], Q.Two)) && fs == ScoreList(b, q, Q.Two);
    SameScores(a, b, srcs, ps, q);
  }

  /** A query has one ranking of the skeletons. */
  lemma RankedUnique(f: seq<R.File>, g: seq<R.File>, query: string, sk: seq<(string, string)>,
                     extract: (string, string) -> seq<Declaration>, mix: string -> nat, rsqrt: real -> real)
    requires RankedFor(f, query, sk, extract, mix, rsqrt) && RankedFor(g, query, sk, extract, mix, rsqrt)
    ensures f == g
  {
    var name := SingleIdentifier(query);
    var es :| IndexScores(es, query, sk, extract, mix, rsqrt) && R.IsRanking(f, es, name);
    var fs :| IndexScores(fs, query, sk, extract, mix, rsqrt) && R.IsRanking(g, fs, name);
    ScoresUnique(es, fs, query, sk, extract, mix, rsqrt);
    R.RankingUnique(f, g, es, name);
  }

  lemma StrTies(a: seq<string>)
    ensures TiesAreEqual(a, StrLe)
  {
    forall x, y | x in a && y in a && StrLe(x, y) && StrLe(y, x)
      ensures x == y
    {
      StrTotal(x, y);
    }
  }

  lemma PinsUnique(a: seq<string>, b: seq<string>, keys: set<string>, prefixes: seq<string>)
    requires PinsOf(a, keys, prefixes) && PinsOf(b, keys, prefixes)
    ensures a == b
  {
    StrTies(a);
    SameMembersUnique(a, b, StrLe);
  }

  // -------------------------------------------------------------- path order

  function KeysOf(sel: seq<(string, string)>): (ps: seq<string>)
    ensures |ps| == |sel| && forall i :: 0 <= i < |sel| ==> ps[i] == sel[i].0
  {
    seq(|sel|, i requires 0 <= i < |sel| => sel[i].0)
  }

  lemma {:induction false} FreshAll(ps: seq<string>)
    ensures Fresh(ps, {}) == ps
    decreases |ps|
  {
    if ps != [] {
      FreshAll(ps[..|ps| - 1]);
    }
  }

  lemma BodyOf(sk: seq<(string, string)>, x: (string, string))
    requires DistinctKeys(sk) && x in sk && x.0 in Bodies(sk)
    ensures Bodies(sk)[x.0] == x.1
  {
    BodiesEntries(sk, x.0);
    SameKeySameEntry(sk, x, (x.0, Bodies(sk)[x.0]));
  }

  /** Entries of the input are their paths with their bodies. */
  lemma AttachIff(sel: seq<(string, string)>, sk: seq<(string, string)>, ranking: seq<string>)
    requires DistinctKeys(sk) && (forall i :: 0 <= i < |sel| ==> sel[i] in sk) && Known(ranking, Bodies(sk))
    ensures sel == Attach(ranking, Bodies(sk)) <==> KeysOf(sel) == ranking
  {
    var at := Attach(ranking, Bodies(sk));
    forall i | 0 <= i < |ranking|
      ensures at[i] == (ranking[i], Bodies(sk)[ranking[i]])
    {
      AttachAt(ranking, Bodies(sk), i);
    }
    if KeysOf(sel) == ranking {
      forall i | 0 <= i < |sel|
        ensures sel[i] == at[i]
      {
        assert KeysOf(sel)[i] == ranking[i];
        BodyOf(sk, sel[i]);
      }
    }
  }

  lemma ListsKnown(ranking: seq<string>, bodies: map<string, string>)
    requires forall p :: p in ranking <==> p in bodies.Keys
    ensures Known(ranking, bodies)
  {
    forall i | 0 <= i < |ranking|
      ensures ranking[i] in bodies
    {
      assert ranking[i] in ranking;
    }
  }

  lemma CutAll(ranking: seq<string>, budget: nat)
    requires |ranking| <= budget
    ensures Cut([] + Fresh(ranking, SetOf([])), budget) == ranking
  {
    assert SetOf<string>([]) == {};
    FreshAll(ranking);
    assert [] + ranking == ranking;
  }

  /** Without pins and with room for all, ranking order is kept exactly if it is path order. */
  lemma EarlyIff(sk: seq<(string, string)>, budget: nat, ranking: seq<string>)
    requires DistinctKeys(sk) && |sk| <= budget && Distinct(ranking) && forall p :: p in ranking <==> p in Bodies(sk).Keys
    ensures Selection(Sort(sk, PathLe), Bodies(sk), budget, [], ranking) <==> KeysOf(Sort(sk, PathLe)) == ranking
  {
    BodiesSize(sk);
    DistinctSize(ranking, Bodies(sk).Keys);
    CutAll(ranking, budget);
    ListsKnown(ranking, Bodies(sk));
    SortedEntries(sk);
    AttachIff(Sort(sk, PathLe), sk, ranking);
  }

  lemma NoPins(pins: seq<string>, sk: seq<(string, string)>, prefixes: seq<string>)
    requires PinsOf(pins, Bodies(sk).Keys, prefixes) && (prefixes == [] || sk == [])
    ensures pins == []
  {
    DistinctSize(pins, {});
  }

  /** Pins that fill the budget leave nothing to the ranking. */
  lemma PinsFill(sel: seq<(string, string)>, bodies: map<string, string>, budget: nat, pins: seq<string>, r: seq<string>, s: seq<string>)
    requires budget <= |pins| && Selection(sel, bodies, budget, pins, r)
    ensures Selection(sel, bodies, budget, pins, s)
  {
    assert Cut(pins + Fresh(r, SetOf(pins)), budget) == pins[..budget];
    assert Cut(pins + Fresh(s, SetOf(pins)), budget) == pins[..budget];
  }

  lemma EmptySelection(sk: seq<(string, string)>, budget: nat, pins: seq<string>, ranking: seq<string>)
    requires budget == 0 || (sk == [] && pins == [] && ranking == [])
    ensures Selection([], Bodies(sk), budget, pins, ranking)
  {
    var ps := Cut(pins + Fresh(ranking, SetOf(pins)), budget);
    assert ps == [];
  }

  lemma NothingRanked(ranking: seq<string>, sk: seq<(string, string)>)
    requires sk == [] && Distinct(ranking) && forall p :: p in ranking <==> p in Bodies(sk).Keys
    ensures ranking == []
  {
    DistinctSize(ranking, {});
  }

  /** A selection is the pins, then the files in ranking order, if and only if pins are given, or
      not everything fits, or path order is ranking order. */
  lemma RankingOrderIff(sel: seq<(string, string)>, query: string, sk: seq<(string, string)>, prefixes: seq<string>, budget: nat,
                        extract: (string, string) -> seq<Declaration>, mix: string -> nat, rsqrt: real -> real,
                        pins: seq<string>, full: seq<R.File>, myPins: seq<string>, myFull: seq<R.File>)
    requires DistinctKeys(sk) && IsSelection(sel, query, sk, prefixes, budget, extract, mix, rsqrt, myPins, myFull)
    requires PinsOf(pins, Bodies(sk).Keys, prefixes) && RankedFor(full, query, sk, extract, mix, rsqrt)
    ensures Selection(sel, Bodies(sk), budget, pins, FilePaths(full)) <==>
      prefixes != [] || |sk| > budget || KeysOf(Sort(sk, PathLe)) == FilePaths(full)
  {
    var ranking := FilePaths(full);
    RankedPaths(full, query, sk, extract, mix, rsqrt);
    if sk == [] {
      NoPins(pins, sk, prefixes);
      NothingRanked(ranking, sk);
      EmptySelection(sk, budget, pins, ranking);
      assert KeysOf(Sort(sk, PathLe)) == [];
    } else if budget == 0 {
      EmptySelection(sk, budget, pins, ranking);
    } else if |sk| <= budget && prefixes == [] {
      NoPins(pins, sk, prefixes);
      EarlyIff(sk, budget, ranking);
    } else {
      PinsUnique(pins, myPins, Bodies(sk).Keys, prefixes);
      if |pins| < budget {
        RankedUnique(full, myFull, query, sk, extract, mix, rsqrt);
      } else {
        PinsFill(sel, Bodies(sk), budget, pins, FilePaths(myFull), ranking);
      }
    }
  }

  /** With pins, or with more files than the budget, it always is. */
  lemma RankingOrder(sel: seq<(string, string)>, query: string, sk: seq<(string, string)>, prefixes: seq<string>, budget: nat,
                     extract: (string, string) -> seq<Declaration>, mix: string -> nat, rsqrt: real -> real,
                     pins: seq<string>, full: seq<R.File>, myPins: seq<string>, myFull: seq<R.File>)
    requires DistinctKeys(sk) && IsSelection(sel, query, sk, prefixes, budget, extract, mix, rsqrt, myPins, myFull)
    requires PinsOf(pins, Bodies(sk).Keys, prefixes) && RankedFor(full, query, sk, extract, mix, rsqrt)
    requires prefixes != [] || |sk| > budget
    ensures Selection(sel, Bodies(sk), budget, pins, FilePaths(full))
  {
    RankingOrderIff(sel, query, sk, prefixes, budget, extract, mix, rsqrt, pins, full, myPins, myFull);
  }

  // ------------------------------------------------------------------ a witness

  /** Two empty files. */
  const TWO: seq<(string, string)> := [("aa", ""), ("bb", "")]

  function NoDeclarations(path: string, body: string): seq<Declaration> {
    []
  }

  lemma TwoSources()
    ensures var srcs := AllSources(TWO, NoDeclarations);
      |srcs| == 2 && srcs[0].path == srcs[0].name == "aa" && srcs[1].path == srcs[1].name == "bb"
  {
    assert TWO[..1] == [("aa", "")] && TWO[..1][..0] == [];
    assert AllSources(TWO[..1], NoDeclarations) == AllSources([], NoDeclarations) + SourcesOf("aa", "", []);
    assert AllSources(TWO, NoDeclarations) == AllSources(TWO[..1], NoDeclarations) + SourcesOf("bb", "", []);
  }

  /** A query that names the second of two files. */
  lemma RankedByName(full: seq<R.File>, es: seq<R.Scored>, a: string, b: string)
    requires R.IsRanking(full, es, Some(b)) && a != b && |es| == 2
    requires es[0].path == es[0].name == a && es[1].path == es[1].name == b
    ensures FilePaths(full) == [b, a]
  {
    assert R.PathsOf(es) == {a, b};
    RankingPaths(full, es, Some(b));
    DistinctSize(FilePaths(full), {a, b});
    var i :| 0 <= i < |full| && full[i].path == a;
    var j :| 0 <= j < |full| && full[j].path == b;
    assert full[i] in full && full[j] in full;
    ExactIsBetter(full[i], full[j], es, a, b);
    assert j < i;
  }

  lemma ExactIsBetter(x: R.File, y: R.File, es: seq<R.Scored>, a: string, b: string)
    requires R.IsFile(x, es, Some(b)) && R.IsFile(y, es, Some(b)) && x.path == a && y.path == b && a != b && |es| == 2
    requires es[0].path == es[0].name == a && es[1].path == es[1].name == b
    ensures y.exact && !x.exact && !R.FileLe(x, y)
  {
    assert R.Exact(es[1], Some(b));
  }

  lemma OneName()
    ensures SingleIdentifier("bb") == Some("bb")
  {
    var s := "bb";
    assert Q.RunLength(s[2..]) == 0 && Q.RunLength(s[1..]) == 1 && Q.RunLength(s) == 2;
    assert s[..2] == s && s[2..] == [];
    assert Q.Tokenize(s) == [s] + Q.Tokenize([]);
    assert Text.Trim(s) == s;
  }

  lemma NamesOfScores(es: seq<R.Scored>, query: string, sk: seq<(string, string)>,
                      extract: (string, string) -> seq<Declaration>, mix: string -> nat, rsqrt: real -> real)
    requires IndexScores(es, query, sk, extract, mix, rsqrt)
    ensures var srcs := AllSources(sk, extract);
      |es| == |srcs| && forall i :: 0 <= i < |es| ==> es[i].path == srcs[i].path && es[i].name == srcs[i].name
  {
    var srcs, ps := AllSources(sk, extract), Params(mix, rsqrt, Q.Two);
    var entries: seq<Entry> :|
      && AllEncode(entries, srcs, ps) && (forall i :: 0 <= i < |entries| ==> Packed(entries[i], Q.Two))
      && es == ScoreList(entries, Q.UnitOf(query, mix, rsqrt), Q.Two);
    forall i | 0 <= i < |es|
      ensures es[i].path == srcs[i].path && es[i].name == srcs[i].name
    {
      assert Encodes(entries[i], srcs[i], ps);
    }
  }

  lemma TwoSorted()
    ensures Sort(TWO, PathLe) == TWO
  {
    var tail := TWO[1..];
    assert tail == [("bb", "")] && tail[1..] == [];
    assert Sort(tail, PathLe) == [("bb", "")];
    assert PathLe(("aa", ""), ("bb", ""));
  }

  /** The query `bb` ranks the file of that name first, but the selection starts with `aa`. */
  lemma RankingIgnored(sel: seq<(string, string)>, full: seq<R.File>, mix: string -> nat, rsqrt: real -> real,
                       pins: seq<string>, myFull: seq<R.File>)
    requires RankedFor(full, "bb", TWO, NoDeclarations, mix, rsqrt)
    requires IsSelection(sel, "bb", TWO, [], 2, NoDeclarations, mix, rsqrt, pins, myFull)
    ensures FilePaths(full) == ["bb", "aa"] && sel == [("aa", ""), ("bb", "")]
  {
    OneName();
    var es :| IndexScores(es, "bb", TWO, NoDeclarations, mix, rsqrt) && R.IsRanking(full, es, SingleIdentifier("bb"));
    TwoSources();
    NamesOfScores(es, "bb", TWO, NoDeclarations, mix, rsqrt);
    RankedByName(full, es, "aa", "bb");
    TwoSorted();
  }
}
