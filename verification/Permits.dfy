/** Shared permit tokens: reference counts kept by cloning and dropping, and the process-wide
    counter that the last drop of a token gives back. */
module Permits {
  import opened Collections

  const CAPTURE_SLOTS := 16

  type Token = nat

  datatype Slot = Slot(harness: nat, key: nat)

  datatype Side = Stdout | Stderr

  /** What can hold a reference to a token. */
  datatype Holder = ByThread(thread: nat) | BySlot(slot: Slot) | ByCapture(token: Token) | ByReader(source: Token, side: Side)

  /** Every live reference, the count of each token ever made, and the counter. */
  datatype Arcs = Arcs(refs: map<Holder, Token>, count: map<Token, nat>, captures: nat)

  ghost function HoldersOf(refs: map<Holder, Token>, t: Token): set<Holder> {
    set h | h in refs && refs[h] == t
  }

  /** Tokens with a reference left. */
  function Held(a: Arcs): set<Token> {
    set t | t in a.count && a.count[t] > 0
  }

  /** Counts are true, and the counter is the number of tokens with a reference left. */
  ghost predicate Sound(a: Arcs) {
    && (forall h :: h in a.refs ==> a.refs[h] in a.count)
    && (forall t :: t in a.count ==> a.count[t] == |HoldersOf(a.refs, t)|)
    && a.captures == |Held(a)| <= CAPTURE_SLOTS
  }

  /** `CapturePermit::reserve`, when a slot is left. */
  function Reserve(a: Arcs, t: Token, h: Holder): Arcs {
    Arcs(a.refs[h := t], a.count[t := 1], a.captures + 1)
  }

  function Clone(a: Arcs, from: Holder, to: Holder): Arcs
    requires from in a.refs && a.refs[from] in a.count
  {
    var t := a.refs[from];
    Arcs(a.refs[to := t], a.count[t := a.count[t] + 1], a.captures)
  }

  /** Dropping a reference; the last one runs the permit's destructor. */
  function Drop(a: Arcs, h: Holder): Arcs
    requires Sound(a) && h in a.refs
  {
    CountPositive(a, h);
    var t := a.refs[h];
    var n := a.count[t] - 1;
    Arcs(a.refs - {h}, a.count[t := n], if n == 0 then LastDrop(a) else a.captures)
  }

  function LastDrop(a: Arcs): nat {
    if a.captures > 0 then a.captures - 1 else 0
  }

  lemma CountPositive(a: Arcs, h: Holder)
    requires Sound(a) && h in a.refs
    ensures a.count[a.refs[h]] > 0
  {
    assert h in HoldersOf(a.refs, a.refs[h]);
  }

  // ------------------------------------------------------------- preservation

  lemma HoldersAdd(refs: map<Holder, Token>, h: Holder, t: Token, u: Token)
    requires h !in refs
    ensures HoldersOf(refs[h := t], u) == if u == t then HoldersOf(refs, u) + {h} else HoldersOf(refs, u)
    ensures |HoldersOf(refs[h := t], u)| == |HoldersOf(refs, u)| + if u == t then 1 else 0
  {
  }

  lemma HoldersRemove(refs: map<Holder, Token>, h: Holder, u: Token)
    requires h in refs
    ensures HoldersOf(refs - {h}, u) == HoldersOf(refs, u) - {h}
    ensures |HoldersOf(refs - {h}, u)| == |HoldersOf(refs, u)| - if refs[h] == u then 1 else 0
  {
    assert refs[h] == u <==> h in HoldersOf(refs, u);
  }

  lemma ReserveSound(a: Arcs, t: Token, h: Holder)
    requires Sound(a) && h !in a.refs && t !in a.count && a.captures < CAPTURE_SLOTS
    ensures Sound(Reserve(a, t, h))
  {
    var b := Reserve(a, t, h);
    forall u | u in b.count
      ensures b.count[u] == |HoldersOf(b.refs, u)|
    {
      HoldersAdd(a.refs, h, t, u);
      if u == t {
        assert HoldersOf(a.refs, t) == {};
      }
    }
    assert Held(b) == Held(a) + {t};
  }

  lemma CloneSound(a: Arcs, from: Holder, to: Holder)
    requires Sound(a) && from in a.refs && to !in a.refs
    ensures Sound(Clone(a, from, to))
  {
    var t, b := a.refs[from], Clone(a, from, to);
    forall u | u in b.count
      ensures b.count[u] == |HoldersOf(b.refs, u)|
    {
      HoldersAdd(a.refs, to, t, u);
    }
    CountPositive(a, from);
    assert Held(b) == Held(a);
  }

  lemma DropSound(a: Arcs, h: Holder)
    requires Sound(a) && h in a.refs
    ensures Sound(Drop(a, h))
  {
    var t, b := a.refs[h], Drop(a, h);
    CountPositive(a, h);
    forall u | u in b.count
      ensures b.count[u] == |HoldersOf(b.refs, u)|
    {
      HoldersRemove(a.refs, h, u);
    }
    if b.count[t] == 0 {
      assert Held(b) == Held(a) - {t};
      assert t in Held(a);
    } else {
      assert Held(b) == Held(a);
    }
  }

  // ---------------------------------------------------------------- meanings

  /** The tokens counted are exactly those some holder refers to. */
  lemma HeldIsReferred(a: Arcs, t: Token)
    requires Sound(a)
    ensures t in Held(a) <==> t in a.refs.Values
  {
    if t in Held(a) {
      var h :| h in HoldersOf(a.refs, t);
    }
    if t in a.refs.Values {
      var h :| h in a.refs && a.refs[h] == t;
      CountPositive(a, h);
    }
  }

  /** The reader threads that still run. */
  ghost function Readers(a: Arcs): set<Holder> {
    set h | h in a.refs && h.ByReader?
  }

  ghost predicate ReadersKnown(a: Arcs) {
    forall h :: h in Readers(a) ==> a.refs[h] == h.source
  }

  ghost function OneSide(ts: set<Token>, side: Side): set<Holder> {
    set t | t in ts :: ByReader(t, side)
  }

  lemma {:induction false} SideCount(ts: set<Token>, side: Side)
    ensures |OneSide(ts, side)| == |ts|
  {
    if ts == {} {
      assert OneSide(ts, side) == {};
    } else {
      var t :| t in ts;
      SideCount(ts - {t}, side);
      assert OneSide(ts, side) == OneSide(ts - {t}, side) + {ByReader(t, side)};
    }
  }

  /** At most two readers for every permit. */
  lemma ReadersBounded(a: Arcs)
    requires Sound(a) && ReadersKnown(a)
    ensures |Readers(a)| <= 2 * a.captures <= 2 * CAPTURE_SLOTS
  {
    var outs, errs := OneSide(Held(a), Stdout), OneSide(Held(a), Stderr);
    forall h | h in Readers(a)
      ensures h in outs + errs
    {
      CountPositive(a, h);
      assert h.side == Stdout || h.side == Stderr;
    }
    SubsetSize(Readers(a), outs + errs);
    SideCount(Held(a), Stdout);
    SideCount(Held(a), Stderr);
    UnionSize(outs, errs);
  }

  lemma UnionSize<T>(a: set<T>, b: set<T>)
    ensures |a + b| <= |a| + |b|
  {
    assert |a + b| == |a| + |b| - |a * b|;
  }
}
