/** The attempt registry of the CLI harnesses as atomic steps between lock acquisitions. */
module Harness {
  import opened Options
  import opened Permits

  /** A spawned attempt: the token of its capture, whether cancellation was tried, its child
      while it is owned, and whether the exit status is known. */
  datatype Running = Running(token: Token, cancelled: bool, child: Option<nat>, status: bool)

  /** A registry slot: the token that reserves it, and the attempt unless it is out. */
  datatype SlotState = SlotState(permit: Token, running: Option<Running>)

  /** Where a thread stands between two lock acquisitions. */
  datatype Local =
    | Reserved(slot: Slot, permit: Token)
    | Launching(slot: Slot, permit: Token)
    | Failed(slot: Slot, permit: Token)
    | Launched(slot: Slot, permit: Token, entry: Running)
    | InFlight(slot: Slot, permit: Token, entry: Running)
    | Operated(slot: Slot, permit: Token, entry: Running)
    | Leaving(entry: Running, delivers: bool)
    | Probing(permit: Token)
    | ProbeFailed(permit: Token)

  datatype Place = AtThread(thread: nat) | AtSlot(slot: Slot)

  /** The state of the process. `places` says where each spawned attempt is until it is
      released; `applied` and `delivered` count cancellation effects and final results. */
  datatype World = World(arcs: Arcs, registry: map<Slot, SlotState>, locals: map<nat, Local>, next: Token,
                         places: map<Token, Place>, applied: multiset<Token>, delivered: multiset<Token>)

  predicate HasPermit(l: Local) {
    l.Reserved? || l.Launching? || l.Failed? || l.Launched? || l.InFlight? || l.Operated? || l.Probing? || l.ProbeFailed?
  }

  predicate HasEntry(l: Local) {
    l.Launched? || l.InFlight? || l.Operated? || l.Leaving?
  }

  predicate HasSlot(l: Local) {
    l.Reserved? || l.Launching? || l.Failed? || l.Launched? || l.InFlight? || l.Operated?
  }

  /** A reservation whose attempt was not spawned yet. */
  predicate Pending(l: Local) {
    l.Reserved? || l.Launching? || l.Probing?
  }

  predicate Occupied(w: World, s: Slot) {
    s in w.registry && w.registry[s].running.Some?
  }

  // --------------------------------------------------------------- invariants

  ghost predicate ThreadRefs(w: World) {
    && (forall th :: ByThread(th) in w.arcs.refs <==> th in w.locals && HasPermit(w.locals[th]))
    && (forall th :: th in w.locals && HasPermit(w.locals[th]) ==> w.arcs.refs[ByThread(th)] == w.locals[th].permit)
  }

  ghost predicate SlotRefs(w: World) {
    && (forall s :: BySlot(s) in w.arcs.refs <==> s in w.registry)
    && (forall s :: s in w.registry ==> w.arcs.refs[BySlot(s)] == w.registry[s].permit)
  }

  ghost predicate CaptureRefs(w: World) {
    && (forall t :: ByCapture(t) in w.arcs.refs <==> t in w.places)
    && (forall t :: t in w.places ==> w.arcs.refs[ByCapture(t)] == t)
  }

  /** Every attempt not yet released is where `places` says, and nowhere else. */
  ghost predicate OnePlace(w: World) {
    && (forall t :: t in w.places ==>
          match w.places[t]
          case AtSlot(s) => Occupied(w, s) && w.registry[s].running.value.token == t
          case AtThread(th) => th in w.locals && HasEntry(w.locals[th]) && w.locals[th].entry.token == t)
    && (forall s :: Occupied(w, s) ==>
          w.registry[s].running.value.token in w.places && w.places[w.registry[s].running.value.token] == AtSlot(s))
    && (forall th :: th in w.locals && HasEntry(w.locals[th]) ==>
          w.locals[th].entry.token in w.places && w.places[w.locals[th].entry.token] == AtThread(th))
  }

  /** An attempt carries the token that reserved its slot. */
  ghost predicate OwnTokens(w: World) {
    && (forall s :: Occupied(w, s) ==> w.registry[s].running.value.token == w.registry[s].permit)
    && (forall th :: th in w.locals && HasEntry(w.locals[th]) && HasPermit(w.locals[th]) ==>
          w.locals[th].entry.token == w.locals[th].permit)
  }

  ghost predicate KnownTokens(w: World) {
    forall t :: t in w.arcs.count ==> t < w.next
  }

  /** No two threads own one token; a token not launched yet has no attempt and no reader. */
  ghost predicate Owners(w: World) {
    && (forall a, b :: a in w.locals && b in w.locals && HasPermit(w.locals[a]) && HasPermit(w.locals[b]) && a != b ==>
          w.locals[a].permit != w.locals[b].permit)
    && (forall th :: th in w.locals && HasPermit(w.locals[th]) && !HasEntry(w.locals[th]) ==> w.locals[th].permit !in w.places)
    && (forall th, side :: th in w.locals && Pending(w.locals[th]) ==> ByReader(w.locals[th].permit, side) !in w.arcs.refs)
  }

  /** At most one cancellation effect and one final result for each token; none before its
      attempt exists, no final result while it does, no effect before cancellation is tried. */
  ghost predicate Once(w: World) {
    && (forall t: Token :: w.applied[t] <= 1 && w.delivered[t] <= 1)
    && (forall t: Token :: t >= w.next ==> w.applied[t] == 0 && w.delivered[t] == 0)
    && (forall t :: t in w.places ==> w.delivered[t] == 0)
    && (forall th :: th in w.locals && HasPermit(w.locals[th]) && !HasEntry(w.locals[th]) ==>
          w.applied[w.locals[th].permit] == 0 && w.delivered[w.locals[th].permit] == 0)
    && (forall s :: Occupied(w, s) && !w.registry[s].running.value.cancelled ==> w.applied[w.registry[s].running.value.token] == 0)
    && (forall th :: th in w.locals && HasEntry(w.locals[th]) && !w.locals[th].entry.cancelled ==>
          w.applied[w.locals[th].entry.token] == 0)
  }

  ghost predicate Inv(w: World) {
    && Sound(w.arcs) && ReadersKnown(w.arcs)
    && ThreadRefs(w) && SlotRefs(w) && CaptureRefs(w)
    && OnePlace(w) && OwnTokens(w) && KnownTokens(w) && Owners(w) && Once(w)
  }

  const INIT := World(Arcs(map[], map[], 0), map[], map[], 0, map[], multiset{}, multiset{})

  lemma InitInv()
    ensures Inv(INIT)
  {
    assert Held(INIT.arcs) == {};
  }

  // ------------------------------------------------------------------- frames

  /** A reference that did not change. */
  ghost predicate SameRef(a: Arcs, b: Arcs, h: Holder) {
    (h in a.refs <==> h in b.refs) && (h in a.refs ==> a.refs[h] == b.refs[h])
  }

  ghost predicate SameThread(v: World, w: World, th: nat) {
    (th in v.locals <==> th in w.locals) && (th in v.locals ==> v.locals[th] == w.locals[th]) && SameRef(v.arcs, w.arcs, ByThread(th))
  }

  ghost predicate SameSlot(v: World, w: World, s: Slot) {
    (s in v.registry <==> s in w.registry) && (s in v.registry ==> v.registry[s] == w.registry[s]) && SameRef(v.arcs, w.arcs, BySlot(s))
  }

  ghost predicate SameToken(v: World, w: World, t: Token) {
    && (t in v.places <==> t in w.places) && (t in v.places ==> v.places[t] == w.places[t])
    && SameRef(v.arcs, w.arcs, ByCapture(t)) && SameRef(v.arcs, w.arcs, ByReader(t, Stdout)) && SameRef(v.arcs, w.arcs, ByReader(t, Stderr))
    && v.applied[t] == w.applied[t] && v.delivered[t] == w.delivered[t]
  }

  /** Only the threads `ths`, the slots `ss` and the token `t` changed. */
  ghost predicate Changes(v: World, w: World, ths: set<nat>, ss: set<Slot>, t: Token) {
    && (forall th :: th !in ths ==> SameThread(v, w, th))
    && (forall s :: s !in ss ==> SameSlot(v, w, s))
    && (forall u :: u != t ==> SameToken(v, w, u))
    && v.next <= w.next
  }

  /** The changed threads and slots hold no other attempt than that of `t`, and hold it if anyone does. */
  ghost predicate Holds(w: World, ths: set<nat>, ss: set<Slot>, t: Token) {
    && (t in w.places ==> match w.places[t] case AtThread(th) => th in ths case AtSlot(s) => s in ss)
    && (forall th :: th in ths && th in w.locals && HasEntry(w.locals[th]) ==> w.locals[th].entry.token == t)
    && (forall s :: s in ss && Occupied(w, s) ==> w.registry[s].running.value.token == t)
  }

  ghost predicate ThreadsOk(w: World, ths: set<nat>, t: Token) {
    forall th :: th in ths ==>
      && (ByThread(th) in w.arcs.refs <==> th in w.locals && HasPermit(w.locals[th]))
      && (th in w.locals && HasPermit(w.locals[th]) ==> w.arcs.refs[ByThread(th)] == w.locals[th].permit)
      && (th in w.locals && HasEntry(w.locals[th]) ==>
            && w.locals[th].entry.token == t && t in w.places && w.places[t] == AtThread(th)
            && (HasPermit(w.locals[th]) ==> w.locals[th].permit == t) && (!w.locals[th].entry.cancelled ==> w.applied[t] == 0))
      && (th in w.locals && HasPermit(w.locals[th]) && !HasEntry(w.locals[th]) ==>
            w.locals[th].permit !in w.places && w.applied[w.locals[th].permit] == 0 && w.delivered[w.locals[th].permit] == 0)
      && (th in w.locals && Pending(w.locals[th]) ==>
            ByReader(w.locals[th].permit, Stdout) !in w.arcs.refs && ByReader(w.locals[th].permit, Stderr) !in w.arcs.refs)
  }

  /** The changed threads own tokens that nobody else owns. */
  ghost predicate Apart(w: World, ths: set<nat>) {
    forall th, a :: th in ths && th in w.locals && HasPermit(w.locals[th]) && a in w.locals && a != th && HasPermit(w.locals[a]) ==>
      w.locals[a].permit != w.locals[th].permit
  }

  ghost predicate SlotsOk(w: World, ss: set<Slot>, t: Token) {
    forall s :: s in ss ==>
      && (BySlot(s) in w.arcs.refs <==> s in w.registry)
      && (s in w.registry ==> w.arcs.refs[BySlot(s)] == w.registry[s].permit)
      && (Occupied(w, s) ==>
            && w.registry[s].running.value.token == t && t in w.places && w.places[t] == AtSlot(s)
            && w.registry[s].permit == t && (!w.registry[s].running.value.cancelled ==> w.applied[t] == 0))
  }

  /** Some changed thread owned `t` without an attempt. */
  ghost predicate Owned(v: World, ths: set<nat>, t: Token) {
    exists th :: th in ths && th in v.locals && HasPermit(v.locals[th]) && v.locals[th].permit == t
  }

  ghost predicate TokenOk(v: World, w: World, ths: set<nat>, ss: set<Slot>, t: Token) {
    && (ByCapture(t) in w.arcs.refs <==> t in w.places) && (t in w.places ==> w.arcs.refs[ByCapture(t)] == t)
    && (forall side :: ByReader(t, side) in w.arcs.refs ==> w.arcs.refs[ByReader(t, side)] == t)
    && (t in w.places ==>
          match w.places[t]
          case AtSlot(s) => s in ss && Occupied(w, s)
          case AtThread(th) => th in ths && th in w.locals && HasEntry(w.locals[th]))
    && (t in w.places && t !in v.places ==> Owned(v, ths, t))
    && (forall side :: ByReader(t, side) in w.arcs.refs && ByReader(t, side) !in v.arcs.refs ==> Owned(v, ths, t))
    && w.applied[t] <= 1 && w.delivered[t] <= 1 && (t in w.places ==> w.delivered[t] == 0)
    && (w.applied[t] != v.applied[t] || w.delivered[t] != v.delivered[t] ==> t in v.places)
  }

  ghost predicate Step(v: World, w: World, ths: set<nat>, ss: set<Slot>, t: Token) {
    && Changes(v, w, ths, ss, t) && Holds(v, ths, ss, t) && ThreadsOk(w, ths, t) && Apart(w, ths) && SlotsOk(w, ss, t)
    && TokenOk(v, w, ths, ss, t) && Sound(w.arcs) && KnownTokens(w)
  }

  ghost predicate Inside(h: Holder, ths: set<nat>, ss: set<Slot>, t: Token) {
    match h
    case ByThread(th) => th in ths
    case BySlot(s) => s in ss
    case ByCapture(u) => u == t
    case ByReader(u, _) => u == t
  }

  lemma SameRefOutside(a: Arcs, b: Arcs, hs: set<Holder>, h: Holder)
    requires a.refs - hs == b.refs - hs && h !in hs
    ensures SameRef(a, b, h)
  {
    assert h in a.refs <==> h in a.refs - hs;
    assert h in b.refs <==> h in b.refs - hs;
  }

  /** Maps that agree outside the changed keys. */
  lemma ChangesBy(v: World, w: World, ths: set<nat>, ss: set<Slot>, t: Token, hs: set<Holder>)
    requires v.locals - ths == w.locals - ths && v.registry - ss == w.registry - ss && v.places - {t} == w.places - {t}
    requires v.arcs.refs - hs == w.arcs.refs - hs && (forall h :: h in hs ==> Inside(h, ths, ss, t))
    requires forall u: Token :: u != t ==> v.applied[u] == w.applied[u] && v.delivered[u] == w.delivered[u]
    requires v.next <= w.next
    ensures Changes(v, w, ths, ss, t)
  {
    forall th | th !in ths
      ensures SameThread(v, w, th)
    {
      assert th in v.locals <==> th in v.locals - ths;
      assert th in w.locals <==> th in w.locals - ths;
      SameRefOutside(v.arcs, w.arcs, hs, ByThread(th));
    }
    forall s | s !in ss
      ensures SameSlot(v, w, s)
    {
      assert s in v.registry <==> s in v.registry - ss;
      assert s in w.registry <==> s in w.registry - ss;
      SameRefOutside(v.arcs, w.arcs, hs, BySlot(s));
    }
    forall u | u != t
      ensures SameToken(v, w, u)
    {
      assert u in v.places <==> u in v.places - {t};
      assert u in w.places <==> u in w.places - {t};
      SameRefOutside(v.arcs, w.arcs, hs, ByCapture(u));
      SameRefOutside(v.arcs, w.arcs, hs, ByReader(u, Stdout));
      SameRefOutside(v.arcs, w.arcs, hs, ByReader(u, Stderr));
    }
  }

  lemma FrameRefs(v: World, w: World, ths: set<nat>, ss: set<Slot>, t: Token)
    requires Inv(v) && Step(v, w, ths, ss, t)
    ensures ThreadRefs(w) && SlotRefs(w)
  {
    forall th
      ensures ByThread(th) in w.arcs.refs <==> th in w.locals && HasPermit(w.locals[th])
      ensures th in w.locals && HasPermit(w.locals[th]) ==> w.arcs.refs[ByThread(th)] == w.locals[th].permit
    {
      assert th !in ths ==> SameThread(v, w, th);
    }
    forall s
      ensures BySlot(s) in w.arcs.refs <==> s in w.registry
      ensures s in w.registry ==> w.arcs.refs[BySlot(s)] == w.registry[s].permit
    {
      assert s !in ss ==> SameSlot(v, w, s);
    }
  }

  lemma FrameTokens(v: World, w: World, ths: set<nat>, ss: set<Slot>, t: Token)
    requires Inv(v) && Step(v, w, ths, ss, t)
    ensures CaptureRefs(w) && ReadersKnown(w.arcs)
  {
    forall u
      ensures ByCapture(u) in w.arcs.refs <==> u in w.places
      ensures u in w.places ==> w.arcs.refs[ByCapture(u)] == u
    {
      assert u != t ==> SameToken(v, w, u);
    }
    forall h | h in Readers(w.arcs)
      ensures w.arcs.refs[h] == h.source
    {
      if h.source != t {
        assert SameToken(v, w, h.source);
        assert h.side == Stdout || h.side == Stderr;
        assert h in Readers(v.arcs);
      } else {
        assert h == ByReader(t, h.side);
      }
    }
  }

  lemma FramePlaces(v: World, w: World, ths: set<nat>, ss: set<Slot>, t: Token)
    requires Inv(v) && Step(v, w, ths, ss, t)
    ensures forall u :: u in w.places ==>
          match w.places[u]
          case AtSlot(s) => Occupied(w, s) && w.registry[s].running.value.token == u
          case AtThread(th) => th in w.locals && HasEntry(w.locals[th]) && w.locals[th].entry.token == u
  {
    forall u | u in w.places
      ensures match w.places[u]
          case AtSlot(s) => Occupied(w, s) && w.registry[s].running.value.token == u
          case AtThread(th) => th in w.locals && HasEntry(w.locals[th]) && w.locals[th].entry.token == u
    {
      if u != t {
        assert SameToken(v, w, u);
        match v.places[u]
        case AtSlot(s) => assert s !in ss; assert SameSlot(v, w, s);
        case AtThread(th) => assert th !in ths; assert SameThread(v, w, th);
      }
    }
  }

  lemma FrameOccupants(v: World, w: World, ths: set<nat>, ss: set<Slot>, t: Token)
    requires Inv(v) && Step(v, w, ths, ss, t)
    ensures forall s :: Occupied(w, s) ==>
      && w.registry[s].running.value.token in w.places && w.places[w.registry[s].running.value.token] == AtSlot(s)
      && w.registry[s].running.value.token == w.registry[s].permit
  {
    forall s | Occupied(w, s)
      ensures w.registry[s].running.value.token in w.places && w.places[w.registry[s].running.value.token] == AtSlot(s)
      ensures w.registry[s].running.value.token == w.registry[s].permit
    {
      if s !in ss {
        assert SameSlot(v, w, s);
        var u := v.registry[s].running.value.token;
        assert Occupied(v, s);
        assert u != t;
        assert SameToken(v, w, u);
      }
    }
  }

  lemma FrameEntries(v: World, w: World, ths: set<nat>, ss: set<Slot>, t: Token)
    requires Inv(v) && Step(v, w, ths, ss, t)
    ensures forall th :: th in w.locals && HasEntry(w.locals[th]) ==>
      && w.locals[th].entry.token in w.places && w.places[w.locals[th].entry.token] == AtThread(th)
      && (HasPermit(w.locals[th]) ==> w.locals[th].entry.token == w.locals[th].permit)
  {
    forall th | th in w.locals && HasEntry(w.locals[th])
      ensures w.locals[th].entry.token in w.places && w.places[w.locals[th].entry.token] == AtThread(th)
      ensures HasPermit(w.locals[th]) ==> w.locals[th].entry.token == w.locals[th].permit
    {
      if th !in ths {
        assert SameThread(v, w, th);
        var u := v.locals[th].entry.token;
        assert u != t;
        assert SameToken(v, w, u);
      }
    }
  }

  /** A thread that did not change and has no attempt does not own a token that got one. */
  lemma OtherOwner(v: World, ths: set<nat>, t: Token, th: nat)
    requires Inv(v) && Owned(v, ths, t) && th !in ths && th in v.locals && HasPermit(v.locals[th])
    ensures v.locals[th].permit != t
  {
  }

  lemma FrameWaiting(v: World, w: World, ths: set<nat>, ss: set<Slot>, t: Token, th: nat)
    requires Inv(v) && Step(v, w, ths, ss, t) && th !in ths && th in w.locals && HasPermit(w.locals[th]) && !HasEntry(w.locals[th])
    ensures w.locals[th].permit !in w.places
    ensures w.applied[w.locals[th].permit] == 0 && w.delivered[w.locals[th].permit] == 0
    ensures Pending(w.locals[th]) ==> forall side :: ByReader(w.locals[th].permit, side) !in w.arcs.refs
  {
    assert SameThread(v, w, th);
    var u := v.locals[th].permit;
    if u != t {
      assert SameToken(v, w, u);
      forall side
        ensures ByReader(u, side) in w.arcs.refs <==> ByReader(u, side) in v.arcs.refs
      {
        assert side == Stdout || side == Stderr;
      }
    } else if Owned(v, ths, t) {
      OtherOwner(v, ths, t, th);
    }
  }

  lemma FrameDistinct(v: World, w: World, ths: set<nat>, ss: set<Slot>, t: Token, a: nat, b: nat)
    requires Inv(v) && Step(v, w, ths, ss, t)
    requires a in w.locals && b in w.locals && HasPermit(w.locals[a]) && HasPermit(w.locals[b]) && a != b
    ensures w.locals[a].permit != w.locals[b].permit
  {
    if a !in ths && b !in ths {
      assert SameThread(v, w, a) && SameThread(v, w, b);
    }
  }

  lemma FramePending(v: World, w: World, ths: set<nat>, ss: set<Slot>, t: Token, th: nat)
    requires Inv(v) && Step(v, w, ths, ss, t) && th in w.locals && HasPermit(w.locals[th]) && !HasEntry(w.locals[th])
    ensures w.locals[th].permit !in w.places
    ensures Pending(w.locals[th]) ==> forall side :: ByReader(w.locals[th].permit, side) !in w.arcs.refs
  {
    if th !in ths {
      FrameWaiting(v, w, ths, ss, t, th);
    } else if Pending(w.locals[th]) {
      forall side
        ensures ByReader(w.locals[th].permit, side) !in w.arcs.refs
      {
        assert side == Stdout || side == Stderr;
      }
    }
  }

  lemma FrameNoAttempt(v: World, w: World, ths: set<nat>, ss: set<Slot>, t: Token)
    requires Inv(v) && Step(v, w, ths, ss, t)
    ensures forall th :: th in w.locals && HasPermit(w.locals[th]) && !HasEntry(w.locals[th]) ==> w.locals[th].permit !in w.places
  {
    forall th | th in w.locals && HasPermit(w.locals[th]) && !HasEntry(w.locals[th])
      ensures w.locals[th].permit !in w.places
    {
      FramePending(v, w, ths, ss, t, th);
    }
  }

  lemma FrameNoReader(v: World, w: World, ths: set<nat>, ss: set<Slot>, t: Token)
    requires Inv(v) && Step(v, w, ths, ss, t)
    ensures forall th, side :: th in w.locals && Pending(w.locals[th]) ==> ByReader(w.locals[th].permit, side) !in w.arcs.refs
  {
    forall th, side | th in w.locals && Pending(w.locals[th])
      ensures ByReader(w.locals[th].permit, side) !in w.arcs.refs
    {
      FramePending(v, w, ths, ss, t, th);
    }
  }

  lemma FrameOwners(v: World, w: World, ths: set<nat>, ss: set<Slot>, t: Token)
    requires Inv(v) && Step(v, w, ths, ss, t)
    ensures Owners(w)
  {
    FrameNoAttempt(v, w, ths, ss, t);
    FrameNoReader(v, w, ths, ss, t);
    forall a, b | a in w.locals && b in w.locals && HasPermit(w.locals[a]) && HasPermit(w.locals[b]) && a != b
      ensures w.locals[a].permit != w.locals[b].permit
    {
      FrameDistinct(v, w, ths, ss, t, a, b);
    }
  }

  lemma FrameCounts(v: World, w: World, ths: set<nat>, ss: set<Slot>, t: Token)
    requires Inv(v) && Step(v, w, ths, ss, t)
    ensures forall u: Token :: w.applied[u] <= 1 && w.delivered[u] <= 1
    ensures forall u: Token :: u >= w.next ==> w.applied[u] == 0 && w.delivered[u] == 0
    ensures forall u :: u in w.places ==> w.delivered[u] == 0
  {
    forall u: Token
      ensures w.applied[u] <= 1 && w.delivered[u] <= 1
      ensures u >= w.next ==> w.applied[u] == 0 && w.delivered[u] == 0
      ensures u in w.places ==> w.delivered[u] == 0
    {
      if u != t {
        assert SameToken(v, w, u);
      } else if t in v.places {
        assert v.arcs.refs[ByCapture(t)] == t;
      }
    }
  }

  lemma FrameUncancelled(v: World, w: World, ths: set<nat>, ss: set<Slot>, t: Token)
    requires Inv(v) && Step(v, w, ths, ss, t)
    ensures forall s :: Occupied(w, s) && !w.registry[s].running.value.cancelled ==> w.applied[w.registry[s].running.value.token] == 0
    ensures forall th :: th in w.locals && HasEntry(w.locals[th]) && !w.locals[th].entry.cancelled ==>
          w.applied[w.locals[th].entry.token] == 0
  {
    forall s | Occupied(w, s) && !w.registry[s].running.value.cancelled
      ensures w.applied[w.registry[s].running.value.token] == 0
    {
      if s !in ss {
        assert SameSlot(v, w, s);
        assert Occupied(v, s);
        var u := v.registry[s].running.value.token;
        assert u != t;
        assert SameToken(v, w, u);
      }
    }
    forall th | th in w.locals && HasEntry(w.locals[th]) && !w.locals[th].entry.cancelled
      ensures w.applied[w.locals[th].entry.token] == 0
    {
      if th !in ths {
        assert SameThread(v, w, th);
        var u := v.locals[th].entry.token;
        assert u != t;
        assert SameToken(v, w, u);
      }
    }
  }

  lemma FrameOnce(v: World, w: World, ths: set<nat>, ss: set<Slot>, t: Token)
    requires Inv(v) && Step(v, w, ths, ss, t)
    ensures Once(w)
  {
    FrameCounts(v, w, ths, ss, t);
    FrameUncancelled(v, w, ths, ss, t);
    forall th | th in w.locals && HasPermit(w.locals[th]) && !HasEntry(w.locals[th])
      ensures w.applied[w.locals[th].permit] == 0 && w.delivered[w.locals[th].permit] == 0
    {
      if th !in ths {
        FrameWaiting(v, w, ths, ss, t, th);
      }
    }
  }

  /** What did not change stays as it should be. */
  lemma FrameInv(v: World, w: World, ths: set<nat>, ss: set<Slot>, t: Token)
    requires Inv(v) && Step(v, w, ths, ss, t)
    ensures Inv(w)
  {
    FrameRefs(v, w, ths, ss, t);
    FrameTokens(v, w, ths, ss, t);
    FramePlaces(v, w, ths, ss, t);
    FrameOccupants(v, w, ths, ss, t);
    FrameEntries(v, w, ths, ss, t);
    FrameOwners(v, w, ths, ss, t);
    FrameOnce(v, w, ths, ss, t);
  }
}
