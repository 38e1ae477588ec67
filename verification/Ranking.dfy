/** Ranking of scored signatures: `search` and `rank_files`. */
module Ranking {
  import opened Options
  import opened Collections
  import opened Sorting

  /** An index entry with its score for the query at hand. */
  datatype Scored = Scored(path: string, name: string, score: real)

  /** `name` is the single-identifier query, when the query is one. */
  predicate Exact(e: Scored, name: Option<string>) {
    name.Some? && e.name == name.value
  }

  // ------------------------------------------------------------------ search

  datatype Hit = Hit(exact: bool, score: real, index: nat)

  function HitOf(es: seq<Scored>, name: Option<string>, i: nat): Hit
    requires i < |es|
  {
    Hit(Exact(es[i], name), es[i].score, i)
  }

  /** The comparator of the stable sort: exact names first, then the score. */
  predicate HitLe(a: Hit, b: Hit) {
    if a.exact != b.exact then a.exact else a.score >= b.score
  }

  /** The order the caller sees: ties keep the order of insertion. */
  ghost predicate Outranks(a: Hit, b: Hit) {
    HitLe(a, b) && (HitLe(b, a) ==> a.index < b.index)
  }

  ghost predicate Outranked(s: seq<Hit>) {
    forall i, j :: 0 <= i < j < |s| ==> Outranks(s[i], s[j])
  }

  lemma {:induction false} InsertHit(x: Hit, s: seq<Hit>)
    requires Outranked(s) && forall y :: y in s ==> x.index < y.index
    ensures Outranked(Insert(x, s, HitLe))
  {
    if s != [] && !HitLe(x, s[0]) {
      InsertHit(x, s[1..]);
      var t := Insert(x, s[1..], HitLe);
      forall j | 0 <= j < |t|
        ensures Outranks(s[0], t[j])
      {
        InsertKeeps(x, s[1..], HitLe);
        assert t[j] in multiset(t);
        assert t[j] == x || t[j] in s[1..];
      }
    } else if s != [] {
      forall j | 0 <= j < |s|
        ensures Outranks(x, s[j])
      {
        assert s[j] in s;
        assert j == 0 || Outranks(s[0], s[j]);
      }
    }
  }

  /** A stable sort of hits in insertion order leaves ties in insertion order. */
  lemma {:induction false} StableHits(s: seq<Hit>)
    requires forall i, j :: 0 <= i < j < |s| ==> s[i].index < s[j].index
    ensures Outranked(Sort(s, HitLe))
  {
    if s != [] {
      StableHits(s[1..]);
      forall y | y in Sort(s[1..], HitLe)
        ensures s[0].index < y.index
      {
        SortMembers(s[1..], HitLe, y);
      }
      InsertHit(s[0], Sort(s[1..], HitLe));
    }
  }

  /** `r` is the best `k` hits: in order, truly scored, and nothing omitted outranks one. */
  ghost predicate TopHits(r: seq<Hit>, es: seq<Scored>, name: Option<string>, k: nat) {
    && |r| == Min(k, |es|)
    && Outranked(r)
    && (forall i :: 0 <= i < |r| ==> r[i].index < |es| && r[i] == HitOf(es, name, r[i].index))
    && (forall j :: 0 <= j < |es| ==>
          HitOf(es, name, j) in r || forall i :: 0 <= i < |r| ==> Outranks(r[i], HitOf(es, name, j)))
  }

  method Search(es: seq<Scored>, name: Option<string>, k: nat) returns (r: seq<Hit>)
    ensures TopHits(r, es, name, k)
  {
    var scored: seq<Hit> := [];
    for i := 0 to |es|
      invariant |scored| == i && forall j :: 0 <= j < i ==> scored[j] == HitOf(es, name, j)
    {
      scored := scored + [HitOf(es, name, i)];
    }
    var sorted := Sort(scored, HitLe);
    StableHits(scored);
    r := sorted[..Min(k, |sorted|)];
    forall i | 0 <= i < |r|
      ensures r[i].index < |es| && r[i] == HitOf(es, name, r[i].index)
    {
      SortMembers(scored, HitLe, sorted[i]);
    }
    forall j | 0 <= j < |es|
      ensures HitOf(es, name, j) in r || forall i :: 0 <= i < |r| ==> Outranks(r[i], HitOf(es, name, j))
    {
      SortMembers(scored, HitLe, scored[j]);
      var p :| 0 <= p < |sorted| && sorted[p] == scored[j];
      if p < |r| {
        assert r[p] == HitOf(es, name, j);
      }
    }
  }

  // -------------------------------------------------------------- rank files

  datatype File = File(path: string, score: real, exact: bool)

  predicate FileLe(a: File, b: File) {
    if a.exact != b.exact then a.exact
    else if a.score != b.score then a.score > b.score
    else StrLe(a.path, b.path)
  }

  lemma FilePreorder()
    ensures Preorder(FileLe)
    ensures forall x, y :: FileLe(x, y) && FileLe(y, x) ==> x == y
  {
    forall x, y
      ensures FileLe(x, y) || FileLe(y, x)
      ensures FileLe(x, y) && FileLe(y, x) ==> x == y
    {
      StrTotal(x.path, y.path);
    }
    forall x, y, z | FileLe(x, y) && FileLe(y, z)
      ensures FileLe(x, z)
    {
      if StrLe(x.path, y.path) && StrLe(y.path, z.path) {
        StrTransitive(x.path, y.path, z.path);
      }
    }
  }

  /** `f` carries the best score of its path and whether an entry of it has the exact name. */
  ghost predicate IsFile(f: File, es: seq<Scored>, name: Option<string>) {
    && (exists i :: 0 <= i < |es| && es[i].path == f.path && es[i].score == f.score)
    && (forall i :: 0 <= i < |es| && es[i].path == f.path ==> es[i].score <= f.score)
    && (f.exact <==> exists i :: 0 <= i < |es| && es[i].path == f.path && Exact(es[i], name))
  }

  ghost function PathsOf(es: seq<Scored>): set<string> {
    set i | 0 <= i < |es| :: es[i].path
  }

  ghost predicate DistinctPaths(fs: seq<File>) {
    forall i, j :: 0 <= i < j < |fs| ==> fs[i].path != fs[j].path
  }

  /** The complete ranking: one file per path, best first. */
  ghost predicate IsRanking(fs: seq<File>, es: seq<Scored>, name: Option<string>) {
    && Sorted(fs, FileLe) && DistinctPaths(fs)
    && (forall f :: f in fs ==> IsFile(f, es, name))
    && (forall p :: p in PathsOf(es) ==> exists i :: 0 <= i < |fs| && fs[i].path == p)
  }

  lemma RankingMember(fs: seq<File>, gs: seq<File>, es: seq<Scored>, name: Option<string>, f: File)
    requires IsRanking(fs, es, name) && IsRanking(gs, es, name) && f in fs
    ensures f in gs
  {
    assert f.path in PathsOf(es);
    var i :| 0 <= i < |gs| && gs[i].path == f.path;
    assert gs[i] in gs;
    assert gs[i] == f;
  }

  /** There is one ranking, so no iteration order of the map can show in the result. */
  lemma RankingUnique(fs: seq<File>, gs: seq<File>, es: seq<Scored>, name: Option<string>)
    requires IsRanking(fs, es, name) && IsRanking(gs, es, name)
    ensures fs == gs
  {
    forall f
      ensures f in fs <==> f in gs
    {
      if f in fs { RankingMember(fs, gs, es, name, f); }
      if f in gs { RankingMember(gs, fs, es, name, f); }
    }
    FilePreorder();
    SameMembersUnique(fs, gs, FileLe);
  }

  /** The best file of every path seen so far. */
  ghost predicate BestOf(best: map<string, File>, es: seq<Scored>, name: Option<string>) {
    && best.Keys == PathsOf(es)
    && forall p :: p in best ==> best[p].path == p && IsFile(best[p], es, name)
  }

  /** `and_modify` / `or_insert` on the entry's path. */
  function Merged(best: map<string, File>, e: Scored, name: Option<string>): File {
    if e.path in best then
      var f := best[e.path];
      File(e.path, if e.score > f.score then e.score else f.score, f.exact || Exact(e, name))
    else File(e.path, e.score, Exact(e, name))
  }

  /** The loop over entries: best score and exact flag per path. */
  method BestPerPath(es: seq<Scored>, name: Option<string>) returns (best: map<string, File>)
    ensures BestOf(best, es, name)
  {
    best := map[];
    for i := 0 to |es|
      invariant BestOf(best, es[..i], name)
    {
      BestSnoc(best, es[..i], es[i], name);
      assert es[..i + 1] == es[..i] + [es[i]];
      best := best[es[i].path := Merged(best, es[i], name)];
    }
    assert es[..|es|] == es;
  }

  lemma BestSnoc(best: map<string, File>, es: seq<Scored>, e: Scored, name: Option<string>)
    requires BestOf(best, es, name)
    ensures BestOf(best[e.path := Merged(best, e, name)], es + [e], name)
  {
    PathsSnoc(es, e);
    forall p | p in best && p != e.path
      ensures IsFile(best[p], es + [e], name)
    {
      OtherFile(best[p], es, e, name);
    }
    MergedFile(best, es, e, name);
  }

  lemma PathsSnoc(es: seq<Scored>, e: Scored)
    ensures PathsOf(es + [e]) == PathsOf(es) + {e.path}
  {
    var t := es + [e];
    assert t[|es|] == e;
    forall p | p in PathsOf(es)
      ensures p in PathsOf(t)
    {
      var i :| 0 <= i < |es| && es[i].path == p;
      assert t[i].path == p;
    }
  }

  lemma OtherFile(f: File, es: seq<Scored>, e: Scored, name: Option<string>)
    requires IsFile(f, es, name) && f.path != e.path
    ensures IsFile(f, es + [e], name)
  {
    var t := es + [e];
    assert t[|es|] == e;
    assert forall i :: 0 <= i < |es| ==> t[i] == es[i];
  }

  lemma MergedFile(best: map<string, File>, es: seq<Scored>, e: Scored, name: Option<string>)
    requires BestOf(best, es, name)
    ensures IsFile(Merged(best, e, name), es + [e], name)
  {
    var t := es + [e];
    assert t[|es|] == e;
    assert forall i :: 0 <= i < |es| ==> t[i] == es[i];
    assert forall i :: 0 <= i < |es| ==> es[i].path in PathsOf(es);
  }

  /** Emptying the map in whatever order its hashes give. */
  method Drain(best: map<string, File>) returns (fs: seq<File>)
    requires forall p :: p in best ==> best[p].path == p
    ensures DistinctPaths(fs) && |fs| == |best|
    ensures forall f :: f in fs <==> f.path in best && best[f.path] == f
  {
    fs := [];
    var rest := best.Keys;
    while rest != {}
      invariant rest <= best.Keys && DistinctPaths(fs)
      invariant |fs| + |rest| == |best.Keys|
      invariant forall f :: f in fs <==> f.path in best.Keys - rest && best[f.path] == f
      decreases rest
    {
      var p :| p in rest;
      forall f | f in fs
        ensures f.path != p
      {
      }
      fs := fs + [best[p]];
      rest := rest - {p};
    }
  }

  /** `rank_files`: the first `k` of the one complete ranking. */
  method RankFiles(es: seq<Scored>, name: Option<string>, k: nat) returns (r: seq<File>, ghost full: seq<File>)
    ensures IsRanking(full, es, name) && |full| == |PathsOf(es)|
    ensures r == full[..Min(k, |full|)]
  {
    var best := BestPerPath(es, name);
    var fs := Drain(best);
    var sorted := Sort(fs, FileLe);
    full := sorted;
    r := sorted[..Min(k, |sorted|)];
    SortedFiles(fs);
    forall f
      ensures f in full <==> f in fs
    {
      SortMembers(fs, FileLe, f);
    }
    forall p | p in PathsOf(es)
      ensures exists i :: 0 <= i < |full| && full[i].path == p
    {
      assert best[p] in full;
    }
  }

  lemma SortedFiles(fs: seq<File>)
    requires DistinctPaths(fs)
    ensures Sorted(Sort(fs, FileLe), FileLe) && DistinctPaths(Sort(fs, FileLe))
  {
    FilePreorder();
    SortSorted(fs, FileLe);
    SortDistinct(fs, FileLe);
    var s := Sort(fs, FileLe);
    forall i, j | 0 <= i < j < |s|
      ensures s[i].path != s[j].path
    {
      SortMembers(fs, FileLe, s[i]);
      SortMembers(fs, FileLe, s[j]);
      var a :| 0 <= a < |fs| && fs[a] == s[i];
      var b :| 0 <= b < |fs| && fs[b] == s[j];
      assert a != b;
    }
  }
}
