/** The bounded memory of committed transitions against the unbounded history. Strings are
    their UTF-8 bytes; durations are whole seconds. */
module Telemetry {
  import opened Options
  import opened Collections

  const MAX_TEXT := 256
  const MAX_SEEN := 128

  datatype Key = Key(graph: string, task: nat, generation: Option<string>)

  datatype Seen = Seen(key: Key, state: string, at: string)

  datatype Event =
    | Observed(key: Key, from: string, to: string, now: string)
    | Cleared(graph: string)

  // -------------------------------------------------------------- timestamps

  predicate Digits(s: string) {
    s != [] && forall i :: 0 <= i < |s| ==> '0' <= s[i] <= '9'
  }

  function Decimal(s: string): nat
    requires forall i :: 0 <= i < |s| ==> '0' <= s[i] <= '9'
  {
    if s == [] then 0 else 10 * Decimal(s[..|s| - 1]) + (s[|s| - 1] as int - '0' as int)
  }

  /** The language's parser of a 64-bit unsigned number: an optional plus, then digits. */
  function ParseU64(s: string): (r: Option<nat>)
    ensures r.Some? ==> r.value < 0x1_0000_0000_0000_0000
  {
    var t := if s != [] && s[0] == '+' then s[1..] else s;
    if Digits(t) && Decimal(t) < 0x1_0000_0000_0000_0000 then Some(Decimal(t)) else None
  }

  predicate Storable(now: string) {
    |now| <= 20 && ParseU64(now).Some? && ParseU64(now).value > 0
  }

  predicate Overlong(k: Key) {
    |k.graph| > MAX_TEXT || (k.generation.Some? && |k.generation.value| > MAX_TEXT)
  }

  /** `dwell_seconds` */
  function DwellSeconds(previous: Option<Seen>, from: string, now: string): Option<nat> {
    if previous.None? || previous.value.state != from then None
    else
      var start, end := ParseU64(previous.value.at), ParseU64(now);
      if start.None? || end.None? || start.value == 0 || end.value < start.value then None
      else Some(end.value - start.value)
  }

  // ------------------------------------------------------------------- truth

  /** The last committed observation of `k`, read off the whole history: none if it was
      never observed, if its graph was cleared since, or if its timestamp was not valid. */
  ghost function Truth(h: seq<Event>, k: Key): Option<Seen> {
    if h == [] then None
    else
      var e, rest := h[|h| - 1], h[..|h| - 1];
      match e
      case Cleared(g) => if g == k.graph then None else Truth(rest, k)
      case Observed(key, _, to, now) =>
        if key != k || Overlong(k) then Truth(rest, k)
        else if Storable(now) then Some(Seen(k, to, now)) else None
  }

  /** The other keys validly observed since the last valid observation of `k`. */
  ghost function Since(h: seq<Event>, k: Key): set<Key> {
    if h == [] then {}
    else
      var e, rest := h[|h| - 1], h[..|h| - 1];
      if !Recorded(e) then Since(rest, k) else if e.key == k then {} else Since(rest, k) + {e.key}
  }

  predicate Recorded(e: Event) {
    e.Observed? && !Overlong(e.key) && Storable(e.now)
  }

  ghost function TrueDwell(h: seq<Event>, k: Key, from: string, now: string): Option<nat> {
    if Overlong(k) then None else DwellSeconds(Truth(h, k), from, now)
  }

  // ----------------------------------------------------------------- memory

  function Find(q: seq<Seen>, k: Key): (r: Option<Seen>)
    ensures r.Some? ==> r.value.key == k && r.value in q
    ensures r.None? ==> forall i :: 0 <= i < |q| ==> q[i].key != k
  {
    if q == [] then None else if q[0].key == k then Some(q[0]) else Find(q[1..], k)
  }

  /** Removes the first entry of `k`. */
  function Remove(q: seq<Seen>, k: Key): (r: seq<Seen>)
    ensures |q| - 1 <= |r| <= |q|
  {
    if q == [] then [] else if q[0].key == k then q[1..] else [q[0]] + Remove(q[1..], k)
  }

  /** Keeps the entries of other graphs, in order. */
  function Retain(q: seq<Seen>, g: string): (r: seq<Seen>)
    ensures |r| <= |q|
  {
    if q == [] then [] else if q[0].key.graph != g then [q[0]] + Retain(q[1..], g) else Retain(q[1..], g)
  }

  function Pushed(q: seq<Seen>, e: Event, cap: bool): seq<Seen>
    requires e.Observed?
  {
    if !Storable(e.now) then q
    else (if cap && |q| == MAX_SEEN then q[1..] else q) + [Seen(e.key, e.to, e.now)]
  }

  /** One call on the memory, with or without its bound. */
  function Step(q: seq<Seen>, e: Event, cap: bool): seq<Seen> {
    match e
    case Cleared(g) => Retain(q, g)
    case Observed(k, _, _, _) => if Overlong(k) then q else Pushed(Remove(q, k), e, cap)
  }

  ghost function Memory(h: seq<Event>, cap: bool): seq<Seen> {
    if h == [] then [] else Step(Memory(h[..|h| - 1], cap), h[|h| - 1], cap)
  }

  ghost predicate Unique(q: seq<Seen>) {
    forall i, j :: 0 <= i < j < |q| ==> q[i].key != q[j].key
  }

  // ------------------------------------------------------ lists with unique keys

  ghost predicate Absent(q: seq<Seen>, k: Key) {
    forall i :: 0 <= i < |q| ==> q[i].key != k
  }

  lemma {:induction false} RemoveAbsent(q: seq<Seen>, k: Key)
    requires Absent(q, k)
    ensures Remove(q, k) == q
  {
    if q != [] {
      RemoveAbsent(q[1..], k);
    }
  }

  lemma {:induction false} RemoveConcat(p: seq<Seen>, q: seq<Seen>, k: Key)
    ensures Remove(p + q, k) == if Absent(p, k) then p + Remove(q, k) else Remove(p, k) + q
  {
    if p == [] {
      assert p + q == q;
    } else {
      assert (p + q)[1..] == p[1..] + q;
      RemoveConcat(p[1..], q, k);
      assert Absent(p, k) <==> p[0].key != k && Absent(p[1..], k);
    }
  }

  lemma {:induction false} RetainConcat(p: seq<Seen>, q: seq<Seen>, g: string)
    ensures Retain(p + q, g) == Retain(p, g) + Retain(q, g)
  {
    if p == [] {
      assert p + q == q;
    } else {
      assert (p + q)[1..] == p[1..] + q;
      RetainConcat(p[1..], q, g);
    }
  }

  /** What is left comes from the list, in its order. */
  ghost predicate Sub(r: seq<Seen>, q: seq<Seen>, at: seq<nat>) {
    && |at| == |r| && (forall i :: 0 <= i < |r| ==> at[i] < |q| && r[i] == q[at[i]])
    && forall i, j :: 0 <= i < j < |r| ==> at[i] < at[j]
  }

  function Shifted(at: seq<nat>): (r: seq<nat>)
    ensures |r| == |at| && forall i :: 0 <= i < |at| ==> r[i] == at[i] + 1
  {
    seq(|at|, i requires 0 <= i < |at| => at[i] + 1)
  }

  lemma SubSkip(r: seq<Seen>, q: seq<Seen>, at: seq<nat>)
    requires q != [] && Sub(r, q[1..], at)
    ensures Sub(r, q, Shifted(at))
  {
  }

  lemma SubKeep(r: seq<Seen>, q: seq<Seen>, at: seq<nat>)
    requires q != [] && Sub(r, q[1..], at)
    ensures Sub([q[0]] + r, q, [0] + Shifted(at))
  {
  }

  lemma SubAll(q: seq<Seen>)
    ensures Sub(q, q, seq(|q|, i requires 0 <= i < |q| => i))
  {
  }

  lemma {:induction false} RemoveSub(q: seq<Seen>, k: Key) returns (at: seq<nat>)
    ensures Sub(Remove(q, k), q, at)
    ensures Unique(q) ==> Absent(Remove(q, k), k)
  {
    if q == [] {
      at := [];
    } else if q[0].key == k {
      SubAll(q[1..]);
      at := Shifted(seq(|q[1..]|, i requires 0 <= i < |q[1..]| => i));
      SubSkip(q[1..], q, seq(|q[1..]|, i requires 0 <= i < |q[1..]| => i));
    } else {
      var rest := RemoveSub(q[1..], k);
      SubKeep(Remove(q[1..], k), q, rest);
      at := [0] + Shifted(rest);
    }
  }

  lemma {:induction false} RetainSub(q: seq<Seen>, g: string) returns (at: seq<nat>)
    ensures Sub(Retain(q, g), q, at)
    ensures forall i :: 0 <= i < |Retain(q, g)| ==> Retain(q, g)[i].key.graph != g
  {
    if q == [] {
      at := [];
    } else {
      var rest := RetainSub(q[1..], g);
      if q[0].key.graph != g {
        SubKeep(Retain(q[1..], g), q, rest);
        at := [0] + Shifted(rest);
      } else {
        SubSkip(Retain(q[1..], g), q, rest);
        at := Shifted(rest);
      }
    }
  }

  lemma SubUnique(r: seq<Seen>, q: seq<Seen>, at: seq<nat>)
    requires Sub(r, q, at) && Unique(q)
    ensures Unique(r)
  {
  }

  // ----------------------------------------------------- the unbounded memory

  lemma {:induction false} FindRemove(q: seq<Seen>, k: Key, other: Key)
    requires other != k
    ensures Find(Remove(q, k), other) == Find(q, other)
  {
    if q != [] && q[0].key != k {
      FindRemove(q[1..], k, other);
      assert ([q[0]] + Remove(q[1..], k))[1..] == Remove(q[1..], k);
    }
  }

  lemma {:induction false} FindRetain(q: seq<Seen>, g: string, k: Key)
    ensures Find(Retain(q, g), k) == if k.graph == g then None else Find(q, k)
  {
    if q != [] {
      FindRetain(q[1..], g, k);
      assert ([q[0]] + Retain(q[1..], g))[1..] == Retain(q[1..], g);
    }
  }

  lemma {:induction false} FindSnoc(q: seq<Seen>, s: Seen, k: Key)
    ensures Find(q + [s], k) == if Find(q, k).Some? then Find(q, k) else if s.key == k then Some(s) else None
  {
    if q == [] {
      assert q + [s] == [s];
    } else {
      assert (q + [s])[1..] == q[1..] + [s];
      FindSnoc(q[1..], s, k);
    }
  }

  lemma AbsentFind(q: seq<Seen>, k: Key)
    ensures Find(q, k).None? <==> Absent(q, k)
  {
  }

  lemma UniqueSnoc(q: seq<Seen>, s: Seen)
    requires Unique(q) && Absent(q, s.key)
    ensures Unique(q + [s])
  {
  }

  lemma StepUnique(q: seq<Seen>, e: Event, cap: bool)
    requires Unique(q)
    ensures Unique(Step(q, e, cap))
  {
    match e
    case Cleared(g) =>
      var at := RetainSub(q, g);
      SubUnique(Retain(q, g), q, at);
    case Observed(k, _, to, now) =>
      var r := Remove(q, k);
      var at := RemoveSub(q, k);
      SubUnique(r, q, at);
      UniqueSnoc(r, Seen(k, to, now));
      if |r| > 0 {
        UniqueSnoc(r[1..], Seen(k, to, now));
      }
  }

  lemma {:induction false} MemoryUnique(h: seq<Event>, cap: bool)
    ensures Unique(Memory(h, cap))
  {
    if h != [] {
      MemoryUnique(h[..|h| - 1], cap);
      StepUnique(Memory(h[..|h| - 1], cap), h[|h| - 1], cap);
    }
  }

  lemma StepFind(q: seq<Seen>, e: Event, k: Key)
    requires Unique(q) && e.Observed? && !Overlong(e.key)
    ensures Find(Step(q, e, false), k) ==
      if e.key != k then Find(q, k) else if Storable(e.now) then Some(Seen(k, e.to, e.now)) else None
  {
    var r := Remove(q, e.key);
    var at := RemoveSub(q, e.key);
    AbsentFind(r, e.key);
    if e.key != k {
      FindRemove(q, e.key, k);
    }
    FindSnoc(r, Seen(e.key, e.to, e.now), k);
  }

  /** The unbounded memory holds the truth about every key. */
  lemma {:induction false} MemoryTruth(h: seq<Event>, k: Key)
    ensures Find(Memory(h, false), k) == Truth(h, k)
  {
    if h != [] {
      var e, rest := h[|h| - 1], h[..|h| - 1];
      MemoryTruth(rest, k);
      MemoryUnique(rest, false);
      if e.Cleared? {
        FindRetain(Memory(rest, false), e.graph, k);
      } else if !Overlong(e.key) {
        StepFind(Memory(rest, false), e, k);
      }
    }
  }

  // ------------------------------------------------------ bounded and unbounded

  /** Entries are kept in the order of their last valid observation. */
  ghost predicate Ordered(h: seq<Event>, q: seq<Seen>) {
    forall i, j :: 0 <= i < j < |q| ==> q[j].key in Since(h, q[i].key)
  }

  /** Every entry has at least `MAX_SEEN` other keys observed after it. */
  ghost predicate Buried(h: seq<Event>, p: seq<Seen>) {
    forall i :: 0 <= i < |p| ==> |Since(h, p[i].key)| >= MAX_SEEN
  }

  lemma SinceStep(h: seq<Event>, e: Event, k: Key)
    ensures Since(h + [e], k) ==
      if !Recorded(e) then Since(h, k) else if e.key == k then {} else Since(h, k) + {e.key}
  {
    assert (h + [e])[..|h|] == h;
  }

  lemma SinceGrows(h: seq<Event>, e: Event, k: Key)
    requires !Recorded(e) || e.key != k
    ensures Since(h, k) <= Since(h + [e], k) && |Since(h, k)| <= |Since(h + [e], k)|
  {
    SinceStep(h, e, k);
    SubsetSize(Since(h, k), Since(h + [e], k));
  }

  /** Entries not touched by `e` stay in order and stay buried. */
  lemma KeptOrdered(h: seq<Event>, e: Event, q: seq<Seen>, r: seq<Seen>, at: seq<nat>)
    requires Ordered(h, q) && Sub(r, q, at) && (Recorded(e) ==> Absent(r, e.key))
    ensures Ordered(h + [e], r)
  {
    forall i, j | 0 <= i < j < |r|
      ensures r[j].key in Since(h + [e], r[i].key)
    {
      assert q[at[j]].key in Since(h, q[at[i]].key);
      SinceGrows(h, e, r[i].key);
    }
  }

  lemma KeptBuried(h: seq<Event>, e: Event, p: seq<Seen>, r: seq<Seen>, at: seq<nat>)
    requires Buried(h, p) && Sub(r, p, at) && (Recorded(e) ==> Absent(r, e.key))
    ensures Buried(h + [e], r)
  {
    forall i | 0 <= i < |r|
      ensures |Since(h + [e], r[i].key)| >= MAX_SEEN
    {
      assert p[at[i]] == r[i];
      SinceGrows(h, e, r[i].key);
    }
  }

  lemma SnocOrdered(h: seq<Event>, e: Event, r: seq<Seen>)
    requires Recorded(e) && Ordered(h + [e], r) && Absent(r, e.key)
    ensures Ordered(h + [e], r + [Seen(e.key, e.to, e.now)])
  {
    forall i | 0 <= i < |r|
      ensures e.key in Since(h + [e], r[i].key)
    {
      SinceStep(h, e, r[i].key);
    }
  }

  ghost function KeysOf(q: seq<Seen>): set<Key> {
    set i | 0 <= i < |q| :: q[i].key
  }

  lemma {:induction false} KeysCount(q: seq<Seen>)
    requires Unique(q)
    ensures |KeysOf(q)| == |q|
  {
    if q != [] {
      KeysCount(q[1..]);
      forall k
        ensures k in KeysOf(q) <==> k in {q[0].key} + KeysOf(q[1..])
      {
        if k in KeysOf(q) {
          var i :| 0 <= i < |q| && q[i].key == k;
          assert i == 0 || q[1..][i - 1].key == k;
        }
        if k in KeysOf(q[1..]) {
          var i :| 0 <= i < |q[1..]| && q[1..][i].key == k;
          assert q[i + 1].key == k;
        }
      }
      assert KeysOf(q) == {q[0].key} + KeysOf(q[1..]);
      assert q[0].key !in KeysOf(q[1..]);
    }
  }

  /** The head of a list in order has all the others observed after it. */
  lemma HeadBuried(h: seq<Event>, q: seq<Seen>)
    requires q != [] && Unique(q) && Ordered(h, q)
    ensures |Since(h, q[0].key)| >= |q| - 1
  {
    KeysCount(q[1..]);
    forall k | k in KeysOf(q[1..])
      ensures k in Since(h, q[0].key)
    {
      var i :| 0 <= i < |q[1..]| && q[1..][i].key == k;
      assert q[i + 1].key == k;
    }
    SubsetSize(KeysOf(q[1..]), Since(h, q[0].key));
  }

  /** The bounded memory is the newest part of the unbounded one, and what it lost is buried. */
  ghost predicate Split(h: seq<Event>, p: seq<Seen>) {
    Memory(h, false) == p + Memory(h, true) && |Memory(h, true)| <= MAX_SEEN && Buried(h, p)
  }

  lemma {:induction false} MemoryOrdered(h: seq<Event>)
    ensures Ordered(h, Memory(h, false))
  {
    if h != [] {
      var e, rest := h[|h| - 1], h[..|h| - 1];
      assert h == rest + [e];
      var q := Memory(rest, false);
      MemoryOrdered(rest);
      MemoryUnique(rest, false);
      if e.Cleared? {
        var at := RetainSub(q, e.graph);
        KeptOrdered(rest, e, q, Retain(q, e.graph), at);
      } else if Overlong(e.key) {
        SubAll(q);
        KeptOrdered(rest, e, q, q, seq(|q|, i requires 0 <= i < |q| => i));
      } else {
        var at := RemoveSub(q, e.key);
        KeptOrdered(rest, e, q, Remove(q, e.key), at);
        if Storable(e.now) {
          SnocOrdered(rest, e, Remove(q, e.key));
        }
      }
    }
  }

  lemma SplitClear(h: seq<Event>, e: Event, p: seq<Seen>) returns (r: seq<Seen>)
    requires e.Cleared? && Split(h, p)
    ensures Split(h + [e], r)
  {
    assert (h + [e])[..|h|] == h;
    RetainConcat(p, Memory(h, true), e.graph);
    var at := RetainSub(p, e.graph);
    r := Retain(p, e.graph);
    KeptBuried(h, e, p, r, at);
  }

  lemma SplitIgnored(h: seq<Event>, e: Event, p: seq<Seen>)
    requires e.Observed? && Overlong(e.key) && Split(h, p)
    ensures Split(h + [e], p)
  {
    assert (h + [e])[..|h|] == h;
    SubAll(p);
    KeptBuried(h, e, p, p, seq(|p|, i requires 0 <= i < |p| => i));
  }

  lemma FrontUnique(p: seq<Seen>, q: seq<Seen>, k: Key)
    requires Unique(p + q)
    ensures Unique(p) && (!Absent(p, k) ==> Absent(q, k))
  {
    forall i, j | 0 <= i < j < |p|
      ensures p[i].key != p[j].key
    {
      assert (p + q)[i] == p[i] && (p + q)[j] == p[j];
    }
    if !Absent(p, k) {
      var i :| 0 <= i < |p| && p[i].key == k;
      assert (p + q)[i] == p[i];
      forall j | 0 <= j < |q|
        ensures q[j].key != k
      {
        assert (p + q)[|p| + j] == q[j];
      }
    }
  }

  /** After the removal the two memories still differ by a buried part only. */
  lemma SplitRemove(h: seq<Event>, e: Event, p: seq<Seen>) returns (r: seq<Seen>)
    requires e.Observed? && Split(h, p) && Unique(p + Memory(h, true))
    ensures Remove(Memory(h, false), e.key) == r + Remove(Memory(h, true), e.key)
    ensures Buried(h + [e], r)
  {
    var q := Memory(h, true);
    RemoveConcat(p, q, e.key);
    var at := RemoveSub(p, e.key);
    if Absent(p, e.key) {
      r := p;
      SubAll(p);
      KeptBuried(h, e, p, p, seq(|p|, i requires 0 <= i < |p| => i));
    } else {
      FrontUnique(p, q, e.key);
      RemoveAbsent(q, e.key);
      r := Remove(p, e.key);
      KeptBuried(h, e, p, r, at);
    }
  }

  lemma SplitObserved(h: seq<Event>, e: Event, p: seq<Seen>) returns (r: seq<Seen>)
    requires e.Observed? && !Overlong(e.key) && Split(h, p)
    ensures Split(h + [e], r)
  {
    assert (h + [e])[..|h|] == h;
    MemoryUnique(h, false);
    MemoryUnique(h + [e], false);
    MemoryOrdered(h + [e]);
    var q := Remove(Memory(h, true), e.key);
    var s := [Seen(e.key, e.to, e.now)];
    r := SplitRemove(h, e, p);
    if Storable(e.now) && |q| == MAX_SEEN {
      EvictHead(h + [e], r, q, s);
      r := r + [q[0]];
    } else if Storable(e.now) {
      assert (r + q) + s == r + (q + s);
    }
  }

  /** The entry pushed out at the full bound is buried by those that stay. */
  lemma EvictHead(h: seq<Event>, r: seq<Seen>, q: seq<Seen>, s: seq<Seen>)
    requires |q| == MAX_SEEN && |s| == 1 && Memory(h, false) == (r + q) + s && Unique(Memory(h, false)) && Ordered(h, Memory(h, false))
    requires Buried(h, r)
    ensures (r + q) + s == (r + [q[0]]) + (q[1..] + s) && Buried(h, r + [q[0]])
  {
    var l := Memory(h, false);
    assert l == r + (q + s);
    SuffixKeeps(h, r, q + s);
    HeadBuried(h, q + s);
    assert (q + s)[0] == q[0];
    assert q == [q[0]] + q[1..];
  }

  lemma SuffixKeeps(h: seq<Event>, r: seq<Seen>, t: seq<Seen>)
    requires Unique(r + t) && Ordered(h, r + t)
    ensures Unique(t) && Ordered(h, t)
  {
    forall i, j | 0 <= i < j < |t|
      ensures t[i].key != t[j].key && t[j].key in Since(h, t[i].key)
    {
      assert (r + t)[|r| + i] == t[i] && (r + t)[|r| + j] == t[j];
    }
  }

  lemma {:induction false} SplitExists(h: seq<Event>) returns (p: seq<Seen>)
    ensures Split(h, p)
  {
    if h == [] {
      p := [];
    } else {
      var e, rest := h[|h| - 1], h[..|h| - 1];
      assert h == rest + [e];
      p := SplitExists(rest);
      if e.Cleared? {
        p := SplitClear(rest, e, p);
      } else if Overlong(e.key) {
        SplitIgnored(rest, e, p);
      } else {
        p := SplitObserved(rest, e, p);
      }
    }
  }

  // ------------------------------------------------------------ what is promised

  lemma InConcat(p: seq<Seen>, q: seq<Seen>, m: nat)
    requires m < |p + q|
    ensures m < |p| ==> (p + q)[m] == p[m]
    ensures m >= |p| ==> (p + q)[m] == q[m - |p|]
  {
  }

  lemma FindConcat(p: seq<Seen>, q: seq<Seen>, k: Key)
    requires Unique(p + q)
    ensures Find(q, k).Some? ==> Find(p + q, k) == Find(q, k)
    ensures Find(q, k).None? && Find(p + q, k).Some? ==> !Absent(p, k)
  {
    var l := p + q;
    if Find(q, k).Some? {
      var j :| 0 <= j < |q| && q[j] == Find(q, k).value;
      assert l[|p| + j].key == k;
      FindUnique(l, k, |p| + j);
    } else if Find(l, k).Some? {
      var m :| 0 <= m < |l| && l[m] == Find(l, k).value;
      InConcat(p, q, m);
    }
  }

  lemma FindUnique(l: seq<Seen>, k: Key, i: nat)
    requires Unique(l) && i < |l| && l[i].key == k
    ensures Find(l, k) == Some(l[i])
  {
    assert Find(l, k).Some?;
    var m :| 0 <= m < |l| && l[m] == Find(l, k).value;
    assert m == i;
  }

  /** For every history the memory has at most 128 entries under unique keys, each of them
      the truth about its key; and a key whose truth is lost has 128 others after it. */
  lemma MemoryBounded(h: seq<Event>, k: Key)
    ensures |Memory(h, true)| <= MAX_SEEN && Unique(Memory(h, true))
    ensures Find(Memory(h, true), k).Some? ==> Find(Memory(h, true), k) == Truth(h, k)
    ensures Find(Memory(h, true), k).None? && Truth(h, k).Some? ==> |Since(h, k)| >= MAX_SEEN
  {
    var p := SplitExists(h);
    MemoryUnique(h, true);
    MemoryUnique(h, false);
    MemoryTruth(h, k);
    FindConcat(p, Memory(h, true), k);
    if !Absent(p, k) {
      var i :| 0 <= i < |p| && p[i].key == k;
    }
  }

  /** A reported dwell is the true one; and it is reported whenever fewer than 128 other keys
      were observed since. */
  lemma DwellTrue(h: seq<Event>, k: Key, from: string, now: string)
    ensures var d := if Overlong(k) then None else DwellSeconds(Find(Memory(h, true), k), from, now);
            && (d.Some? ==> d == TrueDwell(h, k, from, now))
            && (|Since(h, k)| < MAX_SEEN ==> d == TrueDwell(h, k, from, now))
  {
    MemoryBounded(h, k);
  }

  /** The memory of one store. */
  class Transitions {
    var deque: seq<Seen>
    ghost var history: seq<Event>

    ghost predicate Valid()
      reads this
    {
      deque == Memory(history, true)
    }

    constructor ()
      ensures Valid() && history == []
    {
      deque := [];
      history := [];
    }

    method ClearGraph(graph: string)
      requires Valid()
      modifies this
      ensures Valid() && history == old(history) + [Cleared(graph)]
    {
      assert (history + [Cleared(graph)])[..|history|] == history;
      deque := Retain(deque, graph);
      history := history + [Cleared(graph)];
    }

    method Observe(graph: string, task: nat, generation: Option<string>, from: string, to: string, now: string)
      returns (dwell: Option<nat>)
      requires Valid()
      modifies this
      ensures Valid() && history == old(history) + [Observed(Key(graph, task, generation), from, to, now)]
      ensures |deque| <= MAX_SEEN && Unique(deque)
      ensures var k := Key(graph, task, generation);
              && (dwell.Some? ==> dwell == TrueDwell(old(history), k, from, now))
              && (|Since(old(history), k)| < MAX_SEEN ==> dwell == TrueDwell(old(history), k, from, now))
    {
      var k := Key(graph, task, generation);
      ghost var e := Observed(k, from, to, now);
      assert (history + [e])[..|history|] == history;
      DwellTrue(history, k, from, now);
      MemoryBounded(history + [e], k);
      history := history + [e];
      if |graph| > MAX_TEXT || (generation.Some? && |generation.value| > MAX_TEXT) {
        return None;
      }
      var previous := Find(deque, k);
      deque := Remove(deque, k);
      dwell := DwellSeconds(previous, from, now);
      if |now| <= 20 && ParseU64(now).Some? && ParseU64(now).value > 0 {
        if |deque| == MAX_SEEN {
          deque := deque[1..];
        }
        deque := deque + [Seen(k, to, now)];
      }
    }
  }
}
