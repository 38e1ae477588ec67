/** `select_context`: the skeletons that go into a prompt. */
module ContextSelection {
  import opened Options
  import opened Collections
  import opened Sorting
  import opened Picking
  import opened SignatureIndex
  import R = Ranking
  import Q = Quantizer
  import Text

  function Slashes(s: string): (r: string)
    ensures |r| == |s|
  {
    seq(|s|, i requires 0 <= i < |s| => if s[i] == '\\' then '/' else s[i])
  }

  predicate PathPinned(path: string, prefixes: seq<string>) {
    exists i :: 0 <= i < |prefixes| &&
      var rule := Slashes(prefixes[i]);
      if Text.EndsWith(rule, "/") then Text.StartsWith(Slashes(path), rule) else Slashes(path) == rule
  }

  function FilePaths(fs: seq<R.File>): (ps: seq<string>)
    ensures |ps| == |fs| && forall i :: 0 <= i < |fs| ==> ps[i] == fs[i].path
  {
    seq(|fs|, i requires 0 <= i < |fs| => fs[i].path)
  }

  /** `es` are the entries of an index of the skeletons, scored for the query. */
  ghost predicate IndexScores(es: seq<R.Scored>, query: string, sk: seq<(string, string)>,
                              extract: (string, string) -> seq<Declaration>, mix: string -> nat, rsqrt: real -> real) {
    exists entries: seq<Entry> ::
      && AllEncode(entries, AllSources(sk, extract), Params(mix, rsqrt, Q.Two))
      && (forall i :: 0 <= i < |entries| ==> Packed(entries[i], Q.Two))
      && es == ScoreList(entries, Q.UnitOf(query, mix, rsqrt), Q.Two)
  }

  /** `full` is the complete ranking of the skeletons for the query. */
  ghost predicate RankedFor(full: seq<R.File>, query: string, sk: seq<(string, string)>,
                            extract: (string, string) -> seq<Declaration>, mix: string -> nat, rsqrt: real -> real) {
    exists es :: IndexScores(es, query, sk, extract, mix, rsqrt) && R.IsRanking(full, es, SingleIdentifier(query))
  }

  lemma EntryPaths(entries: seq<Entry>, srcs: seq<Source>, ps: Params)
    requires AllEncode(entries, srcs, ps)
    ensures forall i :: 0 <= i < |entries| ==> entries[i].path == srcs[i].path
  {
    forall i | 0 <= i < |entries|
      ensures entries[i].path == srcs[i].path
    {
      assert Encodes(entries[i], srcs[i], ps);
    }
  }

  /** The indexed paths are exactly the paths of the skeletons. */
  lemma IndexedPaths(es: seq<R.Scored>, sk: seq<(string, string)>, extract: (string, string) -> seq<Declaration>)
    requires |es| == |AllSources(sk, extract)|
    requires forall i :: 0 <= i < |es| ==> es[i].path == AllSources(sk, extract)[i].path
    ensures R.PathsOf(es) == Bodies(sk).Keys
  {
    var srcs := AllSources(sk, extract);
    forall p
      ensures p in R.PathsOf(es) <==> p in Bodies(sk)
    {
      AllSourcePaths(sk, extract, p);
      if p in R.PathsOf(es) {
        var i :| 0 <= i < |es| && es[i].path == p;
        assert srcs[i] in srcs;
      }
      if p in Bodies(sk) {
        var s :| s in srcs && s.path == p;
        var i :| 0 <= i < |srcs| && srcs[i] == s;
        assert es[i].path == p;
      }
    }
  }

  /** A ranking lists every indexed path once. */
  lemma RankingPaths(full: seq<R.File>, es: seq<R.Scored>, name: Option<string>)
    requires R.IsRanking(full, es, name)
    ensures Distinct(FilePaths(full)) && forall p :: p in FilePaths(full) <==> p in R.PathsOf(es)
  {
    forall p
      ensures p in FilePaths(full) <==> p in R.PathsOf(es)
    {
      if p in FilePaths(full) {
        var i :| 0 <= i < |full| && full[i].path == p;
        assert R.IsFile(full[i], es, name);
      }
    }
  }

  /** Building the index of every skeleton and scoring it. */
  method ScoreSkeletons(query: string, sk: seq<(string, string)>,
                        extract: (string, string) -> seq<Declaration>, mix: string -> nat, rsqrt: real -> real)
    returns (es: seq<R.Scored>)
    ensures IndexScores(es, query, sk, extract, mix, rsqrt)
    ensures R.PathsOf(es) == Bodies(sk).Keys
  {
    var ps := Params(mix, rsqrt, Q.Two);
    var index := BuildIndex(sk, extract, ps);
    es := index.Scores(query);
    EntryPaths(index.entries, AllSources(sk, extract), ps);
    IndexedPaths(es, sk, extract);
  }

  /** Every key, once. */
  ghost predicate Lists(ranking: seq<string>, keys: set<string>) {
    Distinct(ranking) && forall p :: p in ranking <==> p in keys
  }

  method RankSkeletons(query: string, sk: seq<(string, string)>, k: nat,
                       extract: (string, string) -> seq<Declaration>, mix: string -> nat, rsqrt: real -> real)
    returns (ranked: seq<string>, ghost full: seq<R.File>)
    ensures RankedFor(full, query, sk, extract, mix, rsqrt)
    ensures ranked == Cut(FilePaths(full), k) && Lists(FilePaths(full), Bodies(sk).Keys)
  {
    var scored := ScoreSkeletons(query, sk, extract, mix, rsqrt);
    var files;
    files, full := R.RankFiles(scored, SingleIdentifier(query), k);
    RankingPaths(full, scored, SingleIdentifier(query));
    ranked := FilePaths(files);
    CutPaths(full, k);
  }

  lemma CutPaths(full: seq<R.File>, k: nat)
    ensures FilePaths(full[..Min(k, |full|)]) == Cut(FilePaths(full), k)
  {
  }

  /** The pinned paths, in path order. */
  ghost predicate PinsOf(pins: seq<string>, keys: set<string>, prefixes: seq<string>) {
    && Sorted(pins, StrLe) && Distinct(pins)
    && forall p :: p in pins <==> p in keys && PathPinned(p, prefixes)
  }

  /** Collecting in map order, then sorting. */
  method SortedPins(keys: set<string>, prefixes: seq<string>) returns (pins: seq<string>)
    ensures PinsOf(pins, keys, prefixes)
  {
    var found: seq<string> := [];
    var rest := keys;
    while rest != {}
      invariant rest <= keys && Distinct(found)
      invariant forall p :: p in found <==> p in keys - rest && PathPinned(p, prefixes)
      decreases rest
    {
      var p :| p in rest;
      if PathPinned(p, prefixes) {
        found := found + [p];
      }
      rest := rest - {p};
    }
    pins := Sort(found, StrLe);
    StrPreorder();
    SortSorted(found, StrLe);
    SortDistinct(found, StrLe);
    forall p
      ensures p in pins <==> p in found
    {
      SortMembers(found, StrLe, p);
    }
  }

  predicate PathLe(a: (string, string), b: (string, string)) {
    StrLe(a.0, b.0)
  }

  ghost predicate DistinctKeys(sk: seq<(string, string)>) {
    forall i, j :: 0 <= i < j < |sk| ==> sk[i].0 != sk[j].0
  }

  lemma {:induction false} BodiesSize(sk: seq<(string, string)>)
    requires DistinctKeys(sk)
    ensures |Bodies(sk)| == |sk|
    ensures forall p :: p in Bodies(sk) ==> exists i :: 0 <= i < |sk| && sk[i].0 == p
    decreases |sk|
  {
    if sk != [] {
      var n := |sk| - 1;
      BodiesSize(sk[..n]);
      assert forall i :: 0 <= i < n ==> sk[..n][i] == sk[i];
      assert Bodies(sk).Keys == Bodies(sk[..n]).Keys + {sk[n].0};
      assert |Bodies(sk)| == |Bodies(sk).Keys| && |Bodies(sk[..n])| == |Bodies(sk[..n]).Keys|;
    }
  }

  /** What a selection is: pins in path order, then the best unpinned files in ranking
      order, cut to the budget, each with its body. */
  ghost predicate Selection(sel: seq<(string, string)>, bodies: map<string, string>, budget: nat,
                            pins: seq<string>, ranking: seq<string>) {
    var ps := Cut(pins + Fresh(ranking, SetOf(pins)), budget);
    Known(ps, bodies) && sel == Attach(ps, bodies)
  }

  lemma PinsKnown(pins: seq<string>, bodies: map<string, string>, prefixes: seq<string>)
    requires PinsOf(pins, bodies.Keys, prefixes)
    ensures Known(pins, bodies)
    ensures prefixes == [] ==> pins == []
  {
    forall i | 0 <= i < |pins|
      ensures pins[i] in bodies && prefixes != []
    {
      assert pins[i] in pins;
    }
    if pins != [] {
      assert pins[0] in bodies;
    }
  }

  lemma RankingKnown(ranking: seq<string>, bodies: map<string, string>, k: nat)
    requires forall p :: p in ranking <==> p in bodies.Keys
    ensures Known(Cut(ranking, k), bodies)
  {
    forall i | 0 <= i < |Cut(ranking, k)|
      ensures Cut(ranking, k)[i] in bodies
    {
      assert ranking[i] in ranking;
    }
  }

  lemma PinsAreKeys(pins: seq<string>, bodies: map<string, string>)
    requires Known(pins, bodies)
    ensures forall p :: p in pins ==> p in bodies.Keys
  {
  }

  /** From the pins to the whole selection. */
  method Complete(pins: seq<string>, used: set<string>, ranked: seq<string>, budget: nat,
                  bodies: map<string, string>, ghost ranking: seq<string>)
    returns (sel: seq<(string, string)>)
    requires Distinct(pins) && Known(pins, bodies) && Lists(ranking, bodies.Keys)
    requires |pins| < budget && used == SetOf(pins) && |used| == |pins|
    requires ranked == Cut(ranking, budget)
    ensures Selection(sel, bodies, budget, pins, ranking)
    ensures |sel| == Min(budget, |bodies|)
  {
    RankingKnown(ranking, bodies, budget);
    ghost var ps;
    sel, ps := FillFromRanking(pins, ranked, used, bodies, budget);
    assert ps == Cut(pins + Fresh(ranking, used), budget) by {
      EnoughRanked(pins, ranking, used, budget, budget);
    }
    assert |ps| == Min(budget, |bodies.Keys|) by {
      PinsAreKeys(pins, bodies);
      EveryItemOnce(pins, ranking, bodies.Keys);
    }
  }

  /** The first phase: pinned paths up to the budget. */
  method SelectPins(bodies: map<string, string>, prefixes: seq<string>, budget: nat)
    returns (sel: seq<(string, string)>, used: set<string>, pins: seq<string>)
    ensures PinsOf(pins, bodies.Keys, prefixes) && Distinct(pins) && Known(pins, bodies)
    ensures prefixes == [] ==> pins == []
    ensures Selection(sel, bodies, budget, pins, []) && |sel| == Min(budget, |pins|)
    ensures |pins| < budget ==> used == SetOf(pins) && |used| == |pins|
  {
    pins := SortedPins(bodies.Keys, prefixes);
    PinsKnown(pins, bodies, prefixes);
    sel, used := TakePins(pins, bodies, budget);
    assert pins + Fresh([], SetOf(pins)) == pins;
  }

  /** Pins in path order, then the ranking of all skeletons, cut to the budget. */
  ghost predicate Selected(sel: seq<(string, string)>, query: string, sk: seq<(string, string)>, prefixes: seq<string>, budget: nat,
                           extract: (string, string) -> seq<Declaration>, mix: string -> nat, rsqrt: real -> real,
                           pins: seq<string>, full: seq<R.File>) {
    && PinsOf(pins, Bodies(sk).Keys, prefixes)
    && Selection(sel, Bodies(sk), budget, pins, FilePaths(full))
    && if |pins| < budget
       then RankedFor(full, query, sk, extract, mix, rsqrt) && |sel| == Min(budget, |Bodies(sk)|)
       else |sel| == budget
  }

  /** What `select_context` returns. */
  ghost predicate IsSelection(sel: seq<(string, string)>, query: string, sk: seq<(string, string)>, prefixes: seq<string>, budget: nat,
                              extract: (string, string) -> seq<Declaration>, mix: string -> nat, rsqrt: real -> real,
                              pins: seq<string>, full: seq<R.File>) {
    if sk == [] || budget == 0 then sel == []
    // few enough files and no pins: everything, in path order
    else if |sk| <= budget && prefixes == [] then sel == Sort(sk, PathLe)
    else Selected(sel, query, sk, prefixes, budget, extract, mix, rsqrt, pins, full)
  }

  /** `select_context` */
  method SelectContext(query: string, sk: seq<(string, string)>, prefixes: seq<string>, budget: nat,
                       extract: (string, string) -> seq<Declaration>, mix: string -> nat, rsqrt: real -> real)
    returns (sel: seq<(string, string)>, ghost pins: seq<string>, ghost full: seq<R.File>)
    ensures IsSelection(sel, query, sk, prefixes, budget, extract, mix, rsqrt, pins, full)
    ensures DistinctKeys(sk) ==> DistinctEntries(sel, sk, Min(budget, |sk|))
  {
    sel, pins, full := SelectEntries(query, sk, prefixes, budget, extract, mix, rsqrt);
    if DistinctKeys(sk) {
      SelectionDistinct(sel, query, sk, prefixes, budget, extract, mix, rsqrt, pins, full);
    }
  }

  method SelectEntries(query: string, sk: seq<(string, string)>, prefixes: seq<string>, budget: nat,
                       extract: (string, string) -> seq<Declaration>, mix: string -> nat, rsqrt: real -> real)
    returns (sel: seq<(string, string)>, ghost pins: seq<string>, ghost full: seq<R.File>)
    ensures IsSelection(sel, query, sk, prefixes, budget, extract, mix, rsqrt, pins, full)
  {
    pins, full, sel := [], [], [];
    if sk == [] || budget == 0 {
      return;
    }
    var bodies := Bodies(sk);
    var used, found;
    sel, used, found := SelectPins(bodies, prefixes, budget);
    pins := found;
    if |sel| >= budget {
      assert FilePaths(full) == [];
      return;
    }
    if |sk| <= budget && prefixes == [] {
      sel := Sort(sk, PathLe);
      return;
    }
    assert budget - |sel| + |used| == budget;
    sel, full := SelectRanked(query, sk, budget, extract, mix, rsqrt, found, used, bodies);
  }

  /** The second phase: the ranking of all skeletons, for what the pins leave of the budget. */
  method SelectRanked(query: string, sk: seq<(string, string)>, budget: nat,
                      extract: (string, string) -> seq<Declaration>, mix: string -> nat, rsqrt: real -> real,
                      pins: seq<string>, used: set<string>, bodies: map<string, string>)
    returns (sel: seq<(string, string)>, ghost full: seq<R.File>)
    requires bodies == Bodies(sk) && Distinct(pins) && Known(pins, bodies)
    requires |pins| < budget && used == SetOf(pins) && |used| == |pins|
    ensures Selection(sel, bodies, budget, pins, FilePaths(full)) && |sel| == Min(budget, |bodies|)
    ensures RankedFor(full, query, sk, extract, mix, rsqrt)
  {
    var ranked;
    ranked, full := RankSkeletons(query, sk, budget - |pins| + |used|, extract, mix, rsqrt);
    ghost var ranking := FilePaths(full);
    sel := Complete(pins, used, ranked, budget, bodies, ranking);
  }

  // ------------------------------------------------------- entries of the input

  /** Exactly `n` entries of the input, no path twice. */
  ghost predicate DistinctEntries(sel: seq<(string, string)>, sk: seq<(string, string)>, n: nat) {
    |sel| == n && DistinctKeys(sel) && forall i :: 0 <= i < |sel| ==> sel[i] in sk
  }

  lemma {:induction false} BodiesEntries(sk: seq<(string, string)>, p: string)
    requires p in Bodies(sk)
    ensures (p, Bodies(sk)[p]) in sk
    decreases |sk|
  {
    var n := |sk| - 1;
    assert sk == sk[..n] + [sk[n]];
    if p != sk[n].0 {
      BodiesEntries(sk[..n], p);
    }
  }

  lemma SameKeySameEntry(sk: seq<(string, string)>, x: (string, string), y: (string, string))
    requires DistinctKeys(sk) && x in sk && y in sk && x.0 == y.0
    ensures x == y
  {
    var i :| 0 <= i < |sk| && sk[i] == x;
    var j :| 0 <= j < |sk| && sk[j] == y;
    assert !(i < j) && !(j < i);
  }

  /** Everything, sorted by path. */
  lemma SortedEntries(sk: seq<(string, string)>)
    requires DistinctKeys(sk)
    ensures DistinctEntries(Sort(sk, PathLe), sk, |sk|)
  {
    var sel := Sort(sk, PathLe);
    SortDistinct(sk, PathLe);
    forall i | 0 <= i < |sel|
      ensures sel[i] in sk
    {
      SortMembers(sk, PathLe, sel[i]);
    }
    forall i, j | 0 <= i < j < |sel|
      ensures sel[i].0 != sel[j].0
    {
      if sel[i].0 == sel[j].0 {
        SameKeySameEntry(sk, sel[i], sel[j]);
      }
    }
  }

  lemma {:induction false} AttachAt(ps: seq<string>, bodies: map<string, string>, i: nat)
    requires Known(ps, bodies) && i < |ps|
    ensures Attach(ps, bodies)[i] == (ps[i], bodies[ps[i]])
    decreases |ps|
  {
    if i < |ps| - 1 {
      AttachAt(ps[..|ps| - 1], bodies, i);
    }
  }

  /** Distinct paths with their bodies are distinct entries. */
  lemma AttachedEntries(ps: seq<string>, sk: seq<(string, string)>)
    requires Distinct(ps) && Known(ps, Bodies(sk))
    ensures DistinctEntries(Attach(ps, Bodies(sk)), sk, |ps|)
  {
    var sel := Attach(ps, Bodies(sk));
    forall i | 0 <= i < |sel|
      ensures sel[i].0 == ps[i] && sel[i] in sk
    {
      AttachAt(ps, Bodies(sk), i);
      BodiesEntries(sk, ps[i]);
    }
  }

  /** A ranking lists the path of every skeleton once. */
  lemma RankedPaths(full: seq<R.File>, query: string, sk: seq<(string, string)>,
                    extract: (string, string) -> seq<Declaration>, mix: string -> nat, rsqrt: real -> real)
    requires RankedFor(full, query, sk, extract, mix, rsqrt)
    ensures Distinct(FilePaths(full)) && forall p :: p in FilePaths(full) <==> p in Bodies(sk).Keys
  {
    var es :| IndexScores(es, query, sk, extract, mix, rsqrt) && R.IsRanking(full, es, SingleIdentifier(query));
    ScoredPaths(es, query, sk, extract, mix, rsqrt);
    RankingPaths(full, es, SingleIdentifier(query));
  }

  lemma ScoredPaths(es: seq<R.Scored>, query: string, sk: seq<(string, string)>,
                    extract: (string, string) -> seq<Declaration>, mix: string -> nat, rsqrt: real -> real)
    requires IndexScores(es, query, sk, extract, mix, rsqrt)
    ensures R.PathsOf(es) == Bodies(sk).Keys
  {
    var entries: seq<Entry> :|
      && AllEncode(entries, AllSources(sk, extract), Params(mix, rsqrt, Q.Two))
      && (forall i :: 0 <= i < |entries| ==> Packed(entries[i], Q.Two))
      && es == ScoreList(entries, Q.UnitOf(query, mix, rsqrt), Q.Two);
    EntryPaths(entries, AllSources(sk, extract), Params(mix, rsqrt, Q.Two));
    IndexedPaths(es, sk, extract);
  }

  lemma PinsFit(pins: seq<string>, keys: set<string>)
    requires Distinct(pins) && forall p :: p in pins ==> p in keys
    ensures |pins| <= |keys|
  {
    DistinctSize(pins, SetOf(pins));
    SubsetSize(SetOf(pins), keys);
  }

  /** With room for more than the pins. */
  lemma RankedDistinct(pins: seq<string>, ranking: seq<string>, keys: set<string>, budget: nat)
    requires Distinct(pins) && Distinct(ranking) && (forall p :: p in pins ==> p in keys) && forall p :: p in ranking <==> p in keys
    ensures Distinct(Cut(pins + Fresh(ranking, SetOf(pins)), budget))
  {
    EveryItemOnce(pins, ranking, keys);
  }

  lemma PinnedDistinct(pins: seq<string>, rest: seq<string>, budget: nat)
    requires Distinct(pins) && budget <= |pins|
    ensures Distinct(Cut(pins + rest, budget)) && |Cut(pins + rest, budget)| == budget
  {
  }

  /** With distinct paths, a selection is `min(budget, n)` distinct entries of the input. */
  lemma SelectionDistinct(sel: seq<(string, string)>, query: string, sk: seq<(string, string)>, prefixes: seq<string>, budget: nat,
                          extract: (string, string) -> seq<Declaration>, mix: string -> nat, rsqrt: real -> real,
                          pins: seq<string>, full: seq<R.File>)
    requires DistinctKeys(sk) && IsSelection(sel, query, sk, prefixes, budget, extract, mix, rsqrt, pins, full)
    ensures DistinctEntries(sel, sk, Min(budget, |sk|))
  {
    if sk != [] && budget != 0 {
      if |sk| <= budget && prefixes == [] {
        SortedEntries(sk);
      } else {
        BodiesSize(sk);
        var keys := Bodies(sk).Keys;
        assert |keys| == |sk|;
        PinsFit(pins, keys);
        if |pins| < budget {
          RankedPaths(full, query, sk, extract, mix, rsqrt);
          RankedDistinct(pins, FilePaths(full), keys, budget);
        } else {
          PinnedDistinct(pins, Fresh(FilePaths(full), SetOf(pins)), budget);
        }
        AttachedEntries(Cut(pins + Fresh(FilePaths(full), SetOf(pins)), budget), sk);
      }
    }
  }
}
