/** What every interleaving of the harness operations promises. */
module HarnessSafety {
  import opened Options
  import opened Permits
  import opened Harness
  import opened Moves
  import opened Attempts

  // ------------------------------------------------------------------ permits

  /** Someone still refers to the token: a slot, a thread, an attempt or a running reader. */
  ghost predicate InUse(w: World, t: Token) {
    || (exists s :: s in w.registry && w.registry[s].permit == t)
    || (exists th :: th in w.locals && HasPermit(w.locals[th]) && w.locals[th].permit == t)
    || t in w.places
    || (exists side :: ByReader(t, side) in w.arcs.refs)
  }

  lemma ReferredInUse(w: World, h: Holder)
    requires Inv(w) && h in w.arcs.refs
    ensures InUse(w, w.arcs.refs[h])
  {
    match h
    case ByThread(th) =>
    case BySlot(s) =>
    case ByCapture(u) =>
    case ByReader(u, side) => assert h in Readers(w.arcs);
  }

  lemma UsedReferred(w: World, t: Token)
    requires Inv(w) && InUse(w, t)
    ensures t in w.arcs.refs.Values
  {
    if s :| s in w.registry && w.registry[s].permit == t {
      assert BySlot(s) in w.arcs.refs;
    } else if th :| th in w.locals && HasPermit(w.locals[th]) && w.locals[th].permit == t {
      assert ByThread(th) in w.arcs.refs;
    } else if t in w.places {
      assert ByCapture(t) in w.arcs.refs;
    } else {
      var side :| ByReader(t, side) in w.arcs.refs;
      assert ByReader(t, side) in Readers(w.arcs);
    }
  }

  /** The counter is the number of tokens in use, and never passes the bound; at most two
      readers run for each. */
  lemma PermitsExact(events: seq<Event>)
    ensures var w := Run(events);
      && w.arcs.captures == |Held(w.arcs)| <= 16 && |Readers(w.arcs)| <= 32
      && forall t :: t in Held(w.arcs) <==> InUse(w, t)
  {
    var w := Run(events);
    ReadersBounded(w.arcs);
    forall t
      ensures t in Held(w.arcs) <==> InUse(w, t)
    {
      HeldIsReferred(w.arcs, t);
      if t in w.arcs.refs.Values {
        var h :| h in w.arcs.refs && w.arcs.refs[h] == t;
        ReferredInUse(w, h);
      }
      if InUse(w, t) {
        UsedReferred(w, t);
      }
    }
  }

  // ------------------------------------------------------------------- places

  /** The attempt of `t` is at the place `p`. */
  predicate IsAt(w: World, t: Token, p: Place) {
    match p
    case AtSlot(s) => Occupied(w, s) && w.registry[s].running.value.token == t
    case AtThread(th) => th in w.locals && HasEntry(w.locals[th]) && w.locals[th].entry.token == t
  }

  /** A spawned attempt that was not released is in exactly one place, and a released one in none. */
  lemma ExactlyOnePlace(events: seq<Event>, t: Token)
    ensures var w := Run(events);
      && (t in w.places <==> exists p :: IsAt(w, t, p))
      && (forall p, q :: IsAt(w, t, p) && IsAt(w, t, q) ==> p == q)
  {
    var w := Run(events);
    if t in w.places {
      PlaceTrue(w, t);
    }
    forall p | IsAt(w, t, p)
      ensures t in w.places && w.places[t] == p
    {
      PlaceOnly(w, t, p);
    }
  }

  lemma PlaceTrue(w: World, t: Token)
    requires Inv(w) && t in w.places
    ensures IsAt(w, t, w.places[t])
  {
  }

  lemma PlaceOnly(w: World, t: Token, p: Place)
    requires Inv(w) && IsAt(w, t, p)
    ensures t in w.places && w.places[t] == p
  {
  }

  /** A cancellation effect is applied at most once for an attempt, and a reservation has at
      most one final result, after which its attempt is released. */
  lemma AtMostOnce(events: seq<Event>, t: Token)
    ensures var w := Run(events);
      && w.applied[t] <= 1 && w.delivered[t] <= 1 && (w.delivered[t] == 1 ==> t !in w.places)
  {
    assert Once(Run(events));
  }

  // -------------------------------------------------------- released for good

  lemma BothReadersGone(w: World, th: nat, how: Launching, t: Token)
    requires Inv(w) && th in w.locals && (w.locals[th].Launching? || w.locals[th].Probing?) && Gone(w, t)
    ensures Gone(BothReaders(w, th, how), t)
  {
    ProceedInv(w, th);
    ProceedGone(w, th, t);
    var v := Proceed(w, th);
    ReaderGone(v, th, Stdout, how.stdout, t);
    ReaderGone(Reader(v, th, Stdout, how.stdout), th, Stderr, how.stderr, t);
  }

  lemma LaunchGone(w: World, th: nat, how: Launching, t: Token)
    requires Inv(w) && Gone(w, t)
    ensures Gone(Launch(w, th, how), t)
  {
    if th in w.locals && (w.locals[th].Launching? || w.locals[th].Probing?) {
      BothReadersGone(w, th, how, t);
      var b := BothReaders(w, th, how);
      if Complete(how) {
        SpawnInv(b, th, how.pid);
        SpawnGone(b, th, how.pid, t);
        if w.locals[th].Probing? {
          DropPermitGone(Spawn(b, th, how.pid), th, t);
        }
      }
    }
  }

  lemma ReaderGone(w: World, th: nat, side: Side, starts: bool, t: Token)
    requires Inv(w) && CanStartReader(w, th, side) && Gone(w, t)
    ensures Gone(Reader(w, th, side, starts), t)
  {
    if starts {
      StartReaderGone(w, th, side, t);
    }
  }

  lemma SettleGone(w: World, th: nat, t: Token)
    requires Inv(w) && th in w.locals && HasEntry(w.locals[th]) && HasSlot(w.locals[th]) && Gone(w, t)
    ensures Gone(Settle(w, th), t)
  {
    var l := w.locals[th];
    DropPermitInv(w, th);
    DropPermitGone(w, th, t);
    var v := DropPermit(w, th);
    if StillOwns(v, l.slot, l.permit) {
      PutInGone(v, th, l.slot, t);
    } else {
      ReleaseGone(v, th, t);
    }
  }

  lemma AbortGone(w: World, th: nat, t: Token)
    requires Inv(w) && th in w.locals && w.locals[th].Failed? && Gone(w, t)
    ensures Gone(Abort(w, th), t)
  {
    var l := w.locals[th];
    if StillOwns(w, l.slot, l.permit) {
      ClearSlotInv(w, l.slot);
      ClearSlotGone(w, l.slot, t);
      EndThreadGone(ClearSlot(w, l.slot), th, t);
    } else {
      EndThreadGone(w, th, t);
    }
  }

  lemma TakeGone(w: World, th: nat, slot: Slot, pid: Option<nat>, t: Token)
    requires Inv(w) && Gone(w, t)
    ensures Gone(Take(w, th, slot, pid), t)
  {
    if th !in w.locals && Occupied(w, slot) && w.registry[slot].running.value.child == pid {
      var status := w.registry[slot].running.value.status;
      TakeOutInv(w, th, slot, status, false);
      TakeOutGone(w, th, slot, status, false, t);
      RetainGone(TakeOut(w, th, slot, status, false), th, slot, t);
    }
  }

  lemma EvictGone(w: World, th: nat, slot: Slot, status: bool, delivers: bool, t: Token)
    requires Inv(w) && th !in w.locals && Occupied(w, slot) && Gone(w, t)
    ensures Gone(Evict(w, th, slot, status, delivers), t)
  {
    TakeOutInv(w, th, slot, status, delivers);
    TakeOutGone(w, th, slot, status, delivers, t);
    ClearSlotGone(TakeOut(w, th, slot, status, delivers), slot, t);
  }

  lemma CancelGone(w: World, th: nat, slot: Slot, t: Token)
    requires Inv(w) && Gone(w, t)
    ensures Gone(Cancel(w, th, slot), t)
  {
    if th !in w.locals && slot in w.registry {
      if Occupied(w, slot) {
        EvictGone(w, th, slot, w.registry[slot].running.value.status, false, t);
      } else {
        ClearSlotGone(w, slot, t);
      }
    }
  }

  lemma TryCollectGone(w: World, th: nat, slot: Slot, seen: Seen, t: Token)
    requires Inv(w) && Gone(w, t)
    ensures Gone(TryCollect(w, th, slot, seen), t)
  {
    if th !in w.locals && Occupied(w, slot) {
      var e := w.registry[slot].running.value;
      if Ends(e, seen) {
        EvictGone(w, th, slot, StatusSeen(e, seen), true, t);
      } else {
        SeeStatusGone(w, slot, StatusSeen(e, seen), t);
      }
    }
  }

  lemma LeaveGone(w: World, th: nat, t: Token)
    requires Inv(w) && Gone(w, t)
    ensures Gone(Leave(w, th), t)
  {
    if CanRelease(w, th) {
      ReleaseGone(w, th, t);
    }
  }

  lemma ConcludeGone(w: World, th: nat, t: Token)
    requires Inv(w) && Gone(w, t)
    ensures Gone(Conclude(w, th), t)
  {
    if th in w.locals {
      if w.locals[th].Launched? || w.locals[th].Operated? {
        SettleGone(w, th, t);
      } else if w.locals[th].Failed? {
        AbortGone(w, th, t);
      } else if w.locals[th].ProbeFailed? {
        EndThreadGone(w, th, t);
      }
    }
  }

  lemma InsertGone(w: World, th: nat, t: Token)
    requires Inv(w) && Gone(w, t)
    ensures Gone(Insert(w, th), t)
  {
    if th in w.locals && w.locals[th].Reserved? {
      if w.locals[th].slot in w.registry {
        EndThreadGone(w, th, t);
      } else {
        FillSlotGone(w, th, t);
      }
    }
  }

  lemma DropSlotGone(w: World, th: nat, slot: Slot, t: Token)
    requires Inv(w) && Gone(w, t)
    ensures Gone(DropSlot(w, th, slot), t)
  {
    CancelGone(w, th, slot, t);
    LeaveGone(Cancel(w, th, slot), th, t);
  }

  /** The steps of an invocation. */
  lemma InvokeGone(w: World, e: Event, t: Token)
    requires Inv(w) && Gone(w, t) && Invokes(e)
    ensures Gone(DoInvoke(w, e), t)
  {
    match e
    case OnReserve(th, slot) => if CanBegin(w, th) { BeginGone(w, th, slot, t); }
    case OnInsert(th) => InsertGone(w, th, t);
    case OnLaunch(th, how) => LaunchGone(w, th, how, t);
    case OnConclude(th) => ConcludeGone(w, th, t);
  }

  lemma OperateOwnedGone(w: World, th: nat, r: Reaping, t: Token)
    requires Inv(w) && Gone(w, t)
    ensures Gone(CancelOwned(w, th, r), t)
  {
    if CanOperate(w, th) {
      OperateGone(w, th, r, t);
    }
  }

  lemma ReaderDoneGone(w: World, u: Token, side: Side, t: Token)
    requires Inv(w) && Gone(w, t)
    ensures Gone(ReaderDone(w, u, side), t)
  {
    if CanEndReader(w, u, side) {
      EndReaderGone(w, u, side, t);
    }
  }

  /** The operations on a registered attempt. */
  lemma ManageGone(w: World, e: Event, t: Token)
    requires Inv(w) && Gone(w, t) && Manages(e)
    ensures Gone(DoManage(w, e), t)
  {
    match e
    case OnTake(th, slot, pid) => TakeGone(w, th, slot, pid, t);
    case OnCancelOwned(th, r) => OperateOwnedGone(w, th, r, t);
    case OnCancel(th, slot) => CancelGone(w, th, slot, t);
    case OnTryCollect(th, slot, seen) => TryCollectGone(w, th, slot, seen, t);
  }

  /** The steps that let go. */
  lemma RestGone(w: World, e: Event, t: Token)
    requires Inv(w) && Gone(w, t) && !Invokes(e) && !Manages(e)
    ensures Gone(DoRest(w, e), t)
  {
    match e
    case OnLeave(th) => LeaveGone(w, th, t);
    case OnReaderDone(u, side) => ReaderDoneGone(w, u, side, t);
    case OnDropSlot(th, slot) => DropSlotGone(w, th, slot, t);
  }

  lemma StepGone(w: World, e: Event, t: Token)
    requires Inv(w) && Gone(w, t)
    ensures Gone(Do(w, e), t)
  {
    if Invokes(e) {
      InvokeGone(w, e, t);
    } else if Manages(e) {
      ManageGone(w, e, t);
    } else {
      RestGone(w, e, t);
    }
  }

  /** Once its attempt is released and nobody owns the token, no later step brings it back. */
  lemma {:induction false} ReleasedForever(w: World, more: seq<Event>, t: Token)
    requires Inv(w) && Gone(w, t)
    ensures Gone(From(w, more), t)
    decreases |more|
  {
    if more != [] {
      StepGone(w, more[0], t);
      ReleasedForever(Do(w, more[0]), more[1..], t);
    }
  }

  /** Where an attempt was dropped for good, its token is gone. */
  lemma LeaveMakesGone(w: World, th: nat)
    requires Inv(w) && th in w.locals && w.locals[th].Leaving?
    ensures Gone(Leave(w, th), w.locals[th].entry.token)
  {
    LeavingOwner(w, th);
    var t := w.locals[th].entry.token;
    assert w.arcs.refs[ByCapture(t)] == t;
  }

  /** An attempt that left is released once: in every continuation it is nowhere, no owner has
      its token, and its final result is not given a second time. */
  lemma LeftForGood(events: seq<Event>, th: nat, more: seq<Event>)
    requires th in Run(events).locals && Run(events).locals[th].Leaving?
    ensures var w := Run(events); var t, v := w.locals[th].entry.token, From(Leave(w, th), more);
      && t !in v.places && (forall p :: !IsAt(v, t, p)) && v.applied[t] <= 1 && v.delivered[t] <= 1
      && forall a :: a in v.locals && HasPermit(v.locals[a]) ==> v.locals[a].permit != t
  {
    var w := Run(events);
    var t := w.locals[th].entry.token;
    LeaveMakesGone(w, th);
    ReleasedForever(Leave(w, th), more, t);
    GoneNowhere(From(Leave(w, th), more), t);
  }

  lemma GoneNowhere(v: World, t: Token)
    requires Inv(v) && Gone(v, t)
    ensures (forall p :: !IsAt(v, t, p)) && v.applied[t] <= 1 && v.delivered[t] <= 1
  {
    forall p
      ensures !IsAt(v, t, p)
    {
    }
  }
}
