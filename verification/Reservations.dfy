/** What becomes of a reservation over a whole run: lost once, it is lost for good; and while
    nobody removes its slot, no other owner can. */
module Reservations {
  import opened Options
  import opened Permits
  import opened Harness
  import opened Moves
  import opened Attempts

  type Slots = map<Slot, SlotState>

  type Locals = map<nat, Local>

  // ------------------------------------------------------------ at most one slot

  /** No two slots have one token, none has the token of a reservation not inserted yet, and an
      owner's token is in no slot but its own. */
  ghost predicate OneClaim(reg: Slots, loc: Locals) {
    && (forall a, b :: a in reg && b in reg && a != b ==> reg[a].permit != reg[b].permit)
    && (forall s, th :: s in reg && th in loc && HasSlot(loc[th]) && reg[s].permit == loc[th].permit ==>
          s == loc[th].slot && !loc[th].Reserved?)
  }

  /** The token was given away, but is in no slot and waits for none. */
  ghost predicate Unclaimed(reg: Slots, loc: Locals, t: Token) {
    && (forall s :: s in reg ==> reg[s].permit != t)
    && (forall th :: th in loc && loc[th].Reserved? ==> loc[th].permit != t)
  }

  /** A thread that claims nothing new. */
  ghost predicate Follows(reg: Slots, loc: Locals, th: nat, l: Local) {
    && !l.Reserved?
    && (HasSlot(l) ==> || (th in loc && HasSlot(loc[th]) && !loc[th].Reserved? && loc[th].slot == l.slot && loc[th].permit == l.permit)
                       || (l.slot in reg && reg[l.slot].permit == l.permit))
  }

  lemma ThreadFollows(reg: Slots, loc: Locals, th: nat, l: Local, t: Token)
    requires OneClaim(reg, loc) && Follows(reg, loc, th, l)
    ensures OneClaim(reg, loc[th := l]) && (Unclaimed(reg, loc, t) ==> Unclaimed(reg, loc[th := l], t))
  {
  }

  lemma ThreadEnds(reg: Slots, loc: Locals, th: nat, t: Token)
    requires OneClaim(reg, loc)
    ensures OneClaim(reg, loc - {th}) && (Unclaimed(reg, loc, t) ==> Unclaimed(reg, loc - {th}, t))
  {
  }

  lemma SlotChanges(reg: Slots, loc: Locals, s: Slot, x: SlotState, t: Token)
    requires OneClaim(reg, loc) && s in reg && reg[s].permit == x.permit
    ensures OneClaim(reg[s := x], loc) && (Unclaimed(reg, loc, t) ==> Unclaimed(reg[s := x], loc, t))
  {
  }

  lemma SlotGoes(reg: Slots, loc: Locals, s: Slot, t: Token)
    requires OneClaim(reg, loc)
    ensures OneClaim(reg - {s}, loc) && (Unclaimed(reg, loc, t) ==> Unclaimed(reg - {s}, loc, t))
    ensures s in reg ==> Unclaimed(reg - {s}, loc, reg[s].permit)
  {
    if s in reg {
      forall th | th in loc && loc[th].Reserved?
        ensures loc[th].permit != reg[s].permit
      {
        assert HasSlot(loc[th]);
      }
    }
  }

  lemma SlotFills(reg: Slots, loc: Locals, th: nat, t: Token)
    requires OneClaim(reg, loc) && th in loc && loc[th].Reserved? && loc[th].slot !in reg
    requires forall a :: a in loc && a != th && HasSlot(loc[a]) ==> loc[a].permit != loc[th].permit
    ensures var l := loc[th]; var r, c := reg[l.slot := SlotState(l.permit, None)], loc[th := Launching(l.slot, l.permit)];
      OneClaim(r, c) && (Unclaimed(reg, loc, t) ==> Unclaimed(r, c, t))
  {
    var l := loc[th];
    assert HasSlot(l);
    var r, c := reg[l.slot := SlotState(l.permit, None)], loc[th := Launching(l.slot, l.permit)];
    forall a, b | a in r && b in r && a != b
      ensures r[a].permit != r[b].permit
    {
      assert a != l.slot ==> a in reg;
      assert b != l.slot ==> b in reg;
    }
  }

  lemma ThreadReserves(reg: Slots, loc: Locals, th: nat, l: Local, t: Token)
    requires OneClaim(reg, loc) && HasPermit(l) && !HasEntry(l) && forall s :: s in reg ==> reg[s].permit != l.permit
    ensures OneClaim(reg, loc[th := l]) && (l.permit != t && Unclaimed(reg, loc, t) ==> Unclaimed(reg, loc[th := l], t))
  {
  }

  // -------------------------------------------------------------- event by event

  /** The reservation of `t` was removed or replaced, or the attempt is over. */
  ghost predicate Lost(w: World, t: Token) {
    t < w.next && Unclaimed(w.registry, w.locals, t)
  }

  /** What every step keeps. */
  ghost predicate Tidies(w: World, r: World, t: Token) {
    OneClaim(r.registry, r.locals) && (Lost(w, t) ==> Lost(r, t))
  }

  lemma KnownSlot(w: World, s: Slot)
    requires Inv(w) && s in w.registry
    ensures w.registry[s].permit < w.next
  {
    assert w.arcs.refs[BySlot(s)] == w.registry[s].permit;
    assert w.arcs.refs[BySlot(s)] in w.arcs.count;
  }

  lemma KnownSlots(w: World)
    requires Inv(w)
    ensures forall s :: s in w.registry ==> w.registry[s].permit < w.next
  {
    forall s | s in w.registry
      ensures w.registry[s].permit < w.next
    {
      KnownSlot(w, s);
    }
  }

  lemma ReserveTidies(w: World, th: nat, slot: Option<Slot>, t: Token)
    requires Inv(w) && OneClaim(w.registry, w.locals)
    ensures Tidies(w, Attempts.Reserve(w, th, slot), t)
  {
    KnownSlots(w);
    ThreadReserves(w.registry, w.locals, th, if slot.Some? then Reserved(slot.value, w.next) else Probing(w.next), t);
  }

  lemma OtherPermits(w: World, th: nat)
    requires Inv(w) && th in w.locals && HasPermit(w.locals[th])
    ensures forall a :: a in w.locals && a != th && HasSlot(w.locals[a]) ==> w.locals[a].permit != w.locals[th].permit
  {
    forall a | a in w.locals && a != th && HasSlot(w.locals[a])
      ensures w.locals[a].permit != w.locals[th].permit
    {
      assert HasPermit(w.locals[a]);
    }
  }

  lemma InsertTidies(w: World, th: nat, t: Token)
    requires Inv(w) && OneClaim(w.registry, w.locals)
    ensures Tidies(w, Insert(w, th), t)
  {
    if th in w.locals && w.locals[th].Reserved? {
      if w.locals[th].slot in w.registry {
        ThreadEnds(w.registry, w.locals, th, t);
      } else {
        OtherPermits(w, th);
        SlotFills(w.registry, w.locals, th, t);
      }
    }
  }

  lemma LaunchedTidies(w: World, th: nat, how: Launching, r: World, t: Token)
    requires OneClaim(w.registry, w.locals) && th in w.locals && (w.locals[th].Launching? || w.locals[th].Probing?)
    requires LaunchedAs(w, th, how, r)
    ensures Tidies(w, r, t)
  {
    ThreadFollows(w.registry, w.locals, th, r.locals[th], t);
  }

  lemma LaunchTidies(w: World, th: nat, how: Launching, t: Token)
    requires Inv(w) && OneClaim(w.registry, w.locals)
    ensures Tidies(w, Launch(w, th, how), t)
  {
    if th in w.locals && (w.locals[th].Launching? || w.locals[th].Probing?) {
      LaunchEffect(w, th, how);
      LaunchedTidies(w, th, how, Launch(w, th, how), t);
    }
  }

  lemma SettleTidies(w: World, th: nat, t: Token)
    requires Inv(w) && OneClaim(w.registry, w.locals) && th in w.locals && HasEntry(w.locals[th]) && HasSlot(w.locals[th])
    ensures Tidies(w, Settle(w, th), t)
  {
    var l := w.locals[th];
    SettleEffect(w, th);
    ThreadEnds(w.registry, w.locals, th, t);
    if StillOwns(w, l.slot, l.permit) {
      SlotChanges(w.registry, w.locals - {th}, l.slot, SlotState(l.permit, Some(l.entry)), t);
    }
  }

  lemma AbortTidies(w: World, th: nat, t: Token)
    requires Inv(w) && OneClaim(w.registry, w.locals) && th in w.locals && w.locals[th].Failed?
    ensures Tidies(w, Abort(w, th), t)
  {
    ThreadEnds(w.registry, w.locals, th, t);
    SlotGoes(w.registry, w.locals - {th}, w.locals[th].slot, t);
  }

  lemma ConcludeTidies(w: World, th: nat, t: Token)
    requires Inv(w) && OneClaim(w.registry, w.locals)
    ensures Tidies(w, Conclude(w, th), t)
  {
    if th in w.locals {
      if w.locals[th].Launched? || w.locals[th].Operated? {
        SettleTidies(w, th, t);
      } else if w.locals[th].Failed? {
        AbortTidies(w, th, t);
      } else if w.locals[th].ProbeFailed? {
        ThreadEnds(w.registry, w.locals, th, t);
      }
    }
  }

  lemma TakeTidies(w: World, th: nat, slot: Slot, pid: Option<nat>, t: Token)
    requires Inv(w) && OneClaim(w.registry, w.locals)
    ensures Tidies(w, Take(w, th, slot, pid), t)
  {
    if th !in w.locals && Occupied(w, slot) && w.registry[slot].running.value.child == pid {
      var u := w.registry[slot].permit;
      ThreadFollows(w.registry, w.locals, th, InFlight(slot, u, w.registry[slot].running.value), t);
      SlotChanges(w.registry, w.locals[th := InFlight(slot, u, w.registry[slot].running.value)], slot, SlotState(u, None), t);
    }
  }

  lemma OperateTidies(w: World, th: nat, r: Reaping, t: Token)
    requires Inv(w) && OneClaim(w.registry, w.locals)
    ensures Tidies(w, CancelOwned(w, th, r), t)
  {
    if CanOperate(w, th) {
      var l := w.locals[th];
      ThreadFollows(w.registry, w.locals, th, Operated(l.slot, l.permit, Cancelled(l.entry, r)), t);
    }
  }

  lemma EvictTidies(w: World, th: nat, slot: Slot, e: Running, delivers: bool, t: Token)
    requires OneClaim(w.registry, w.locals)
    ensures var loc := w.locals[th := Leaving(e, delivers)];
      OneClaim(w.registry - {slot}, loc) && (Unclaimed(w.registry, w.locals, t) ==> Unclaimed(w.registry - {slot}, loc, t))
    ensures slot in w.registry ==> Unclaimed(w.registry - {slot}, w.locals[th := Leaving(e, delivers)], w.registry[slot].permit)
  {
    ThreadFollows(w.registry, w.locals, th, Leaving(e, delivers), t);
    SlotGoes(w.registry, w.locals[th := Leaving(e, delivers)], slot, t);
  }

  lemma CancelTidies(w: World, th: nat, slot: Slot, t: Token)
    requires Inv(w) && OneClaim(w.registry, w.locals)
    ensures Tidies(w, Cancel(w, th, slot), t)
    ensures th !in w.locals && slot in w.registry ==>
      Unclaimed(Cancel(w, th, slot).registry, Cancel(w, th, slot).locals, w.registry[slot].permit)
  {
    if th !in w.locals && slot in w.registry {
      if Occupied(w, slot) {
        EvictTidies(w, th, slot, w.registry[slot].running.value, false, t);
      } else {
        SlotGoes(w.registry, w.locals, slot, t);
      }
    }
  }

  lemma TryCollectTidies(w: World, th: nat, slot: Slot, seen: Seen, t: Token)
    requires Inv(w) && OneClaim(w.registry, w.locals)
    ensures Tidies(w, TryCollect(w, th, slot, seen), t)
  {
    if th !in w.locals && Occupied(w, slot) {
      var e := w.registry[slot].running.value;
      var x := e.(status := StatusSeen(e, seen));
      if Ends(e, seen) {
        EvictTidies(w, th, slot, x, true, t);
      } else {
        SlotChanges(w.registry, w.locals, slot, SlotState(e.token, Some(x)), t);
      }
    }
  }

  lemma LeaveTidies(w: World, th: nat, t: Token)
    requires Inv(w) && OneClaim(w.registry, w.locals)
    ensures Tidies(w, Leave(w, th), t)
  {
    ThreadEnds(w.registry, w.locals, th, t);
  }

  lemma DropSlotTidies(w: World, th: nat, slot: Slot, t: Token)
    requires Inv(w) && OneClaim(w.registry, w.locals)
    ensures Tidies(w, DropSlot(w, th, slot), t)
  {
    CancelTidies(w, th, slot, t);
    LeaveTidies(Cancel(w, th, slot), th, t);
  }

  /** The steps of an invocation. */
  lemma InvokeTidies(w: World, e: Event, t: Token)
    requires Inv(w) && OneClaim(w.registry, w.locals) && Invokes(e)
    ensures Tidies(w, DoInvoke(w, e), t)
  {
    match e
    case OnReserve(th, slot) => ReserveTidies(w, th, slot, t);
    case OnInsert(th) => InsertTidies(w, th, t);
    case OnLaunch(th, how) => LaunchTidies(w, th, how, t);
    case OnConclude(th) => ConcludeTidies(w, th, t);
  }

  /** The operations on a registered attempt. */
  lemma ManageTidies(w: World, e: Event, t: Token)
    requires Inv(w) && OneClaim(w.registry, w.locals) && Manages(e)
    ensures Tidies(w, DoManage(w, e), t)
  {
    match e
    case OnTake(th, slot, pid) => TakeTidies(w, th, slot, pid, t);
    case OnCancelOwned(th, r) => OperateTidies(w, th, r, t);
    case OnCancel(th, slot) => CancelTidies(w, th, slot, t);
    case OnTryCollect(th, slot, seen) => TryCollectTidies(w, th, slot, seen, t);
  }

  /** The steps that let go. */
  lemma RestTidies(w: World, e: Event, t: Token)
    requires Inv(w) && OneClaim(w.registry, w.locals) && !Invokes(e) && !Manages(e)
    ensures Tidies(w, DoRest(w, e), t)
  {
    match e
    case OnLeave(th) => LeaveTidies(w, th, t);
    case OnReaderDone(u, side) =>
    case OnDropSlot(th, slot) => DropSlotTidies(w, th, slot, t);
  }

  lemma StepTidies(w: World, e: Event, t: Token)
    requires Inv(w) && OneClaim(w.registry, w.locals)
    ensures Tidies(w, Do(w, e), t)
  {
    if Invokes(e) {
      InvokeTidies(w, e, t);
    } else if Manages(e) {
      ManageTidies(w, e, t);
    } else {
      RestTidies(w, e, t);
    }
  }

  // ------------------------------------------------------------------- whole runs

  lemma {:induction false} ClaimedOnce(w: World, more: seq<Event>)
    requires Inv(w) && OneClaim(w.registry, w.locals)
    ensures OneClaim(From(w, more).registry, From(w, more).locals)
    decreases |more|
  {
    if more != [] {
      StepTidies(w, more[0], 0);
      ClaimedOnce(Do(w, more[0]), more[1..]);
    }
  }

  /** After every run, no token is in two slots. */
  lemma RunClaims(events: seq<Event>)
    ensures OneClaim(Run(events).registry, Run(events).locals)
  {
    InitInv();
    ClaimedOnce(INIT, events);
  }

  /** Lost once is lost for good, whatever the other threads do. */
  lemma {:induction false} LostForever(w: World, more: seq<Event>, t: Token)
    requires Inv(w) && OneClaim(w.registry, w.locals) && Lost(w, t)
    ensures Lost(From(w, more), t)
    decreases |more|
  {
    if more != [] {
      StepTidies(w, more[0], t);
      LostForever(Do(w, more[0]), more[1..], t);
    }
  }

  /** The attempt of a lost token is in no slot: with its owner, or released. */
  lemma LostNowhere(w: World, t: Token)
    requires Inv(w) && Lost(w, t)
    ensures forall s :: s in w.registry ==> w.registry[s].permit != t && !StillOwns(w, s, t)
    ensures t in w.places ==> w.places[t].AtThread?
  {
  }

  /** A reservation that is cancelled never comes back: after any run, and in every continuation
      of it, its attempt is in no slot, even where an owner had it in hand. */
  lemma CancelledNeverReturns(events: seq<Event>, th: nat, slot: Slot, more: seq<Event>)
    requires th !in Run(events).locals && slot in Run(events).registry
    ensures var w := Run(events); var t, v := w.registry[slot].permit, From(Cancel(w, th, slot), more);
      && Lost(v, t) && (forall s :: s in v.registry ==> v.registry[s].permit != t) && (t in v.places ==> v.places[t].AtThread?)
  {
    var w := Run(events);
    var t := w.registry[slot].permit;
    RunClaims(events);
    KnownSlot(w, slot);
    CancelTidies(w, th, slot, t);
    LostForever(Cancel(w, th, slot), more, t);
    LostNowhere(From(Cancel(w, th, slot), more), t);
  }

  /** An owner has its slot or has lost it for good; there is nothing in between. */
  lemma OwnsOrLost(events: seq<Event>, th: nat)
    requires var w := Run(events); th in w.locals && HasSlot(w.locals[th]) && !w.locals[th].Reserved?
    ensures var w := Run(events); var l := w.locals[th];
      StillOwns(w, l.slot, l.permit) <==> !Lost(w, l.permit)
  {
    var w := Run(events);
    RunClaims(events);
    OwnerOrLost(w, th);
  }

  lemma OwnerOrLost(w: World, th: nat)
    requires Inv(w) && OneClaim(w.registry, w.locals) && th in w.locals && HasSlot(w.locals[th]) && !w.locals[th].Reserved?
    ensures StillOwns(w, w.locals[th].slot, w.locals[th].permit) <==> !Lost(w, w.locals[th].permit)
  {
    var l := w.locals[th];
    assert HasPermit(l);
    assert w.arcs.refs[ByThread(th)] == l.permit;
    assert l.permit in w.arcs.count;
    if !Lost(w, l.permit) {
      NotReserved(w, th);
      var s :| s in w.registry && w.registry[s].permit == l.permit;
      OutOfSlot(w, th);
    }
  }

  lemma NotReserved(w: World, th: nat)
    requires Inv(w) && th in w.locals && HasPermit(w.locals[th]) && !w.locals[th].Reserved?
    ensures forall a :: a in w.locals && w.locals[a].Reserved? ==> w.locals[a].permit != w.locals[th].permit
  {
    forall a | a in w.locals && w.locals[a].Reserved?
      ensures w.locals[a].permit != w.locals[th].permit
    {
      assert HasPermit(w.locals[a]);
    }
  }

  /** While an owner works, its slot is empty. */
  lemma OutOfSlot(w: World, th: nat)
    requires Inv(w) && th in w.locals && HasPermit(w.locals[th])
    ensures forall s :: Occupied(w, s) ==> w.registry[s].permit != w.locals[th].permit
  {
    forall s | Occupied(w, s)
      ensures w.registry[s].permit != w.locals[th].permit
    {
      var t := w.registry[s].running.value.token;
      assert t == w.registry[s].permit && t in w.places && w.places[t] == AtSlot(s);
    }
  }

  /** What an owner does when it is done, told by the history: with a lost reservation it leaves
      the registry alone and its attempt is released, otherwise the attempt is back as it was. */
  ghost predicate Concluded(w: World, l: Local, lost: bool, r: World)
    requires HasSlot(l) && HasPermit(l) && HasEntry(l)
  {
    if lost then r.registry == w.registry && l.permit !in r.places
    else
      && r.registry == w.registry[l.slot := SlotState(l.permit, Some(l.entry))]
      && l.permit in r.places && r.places[l.permit] == AtSlot(l.slot)
  }

  lemma SettleConcludes(w: World, th: nat)
    requires Inv(w) && th in w.locals && (w.locals[th].Launched? || w.locals[th].Operated?)
    ensures Concluded(w, w.locals[th], !StillOwns(w, w.locals[th].slot, w.locals[th].permit), Settle(w, th))
  {
    SettleEffect(w, th);
  }

  lemma OwnerConcludes(events: seq<Event>, th: nat)
    requires var w := Run(events); th in w.locals && (w.locals[th].Launched? || w.locals[th].Operated?)
    ensures var w := Run(events); Concluded(w, w.locals[th], Lost(w, w.locals[th].permit), Conclude(w, th))
  {
    OwnsOrLost(events, th);
    SettleConcludes(Run(events), th);
  }

  // ------------------------------------------------------- undisturbed by others

  /** The slot is reserved by `t`, whose attempt exists and is not on its way out. */
  ghost predicate Stays(w: World, s: Slot, t: Token) {
    && s in w.registry && w.registry[s].permit == t && t in w.places
    && (forall th :: th in w.locals && w.locals[th].Leaving? ==> w.locals[th].entry.token != t)
  }

  /** The calls that may remove this slot. */
  predicate Removes(e: Event, s: Slot) {
    match e
    case OnCancel(_, slot) => slot == s
    case OnTryCollect(_, slot, _) => slot == s
    case OnDropSlot(_, slot) => slot == s
    case _ => false
  }

  lemma NoAttemptYet(w: World, th: nat)
    requires Inv(w) && th in w.locals && HasPermit(w.locals[th]) && !HasEntry(w.locals[th])
    ensures w.locals[th].permit !in w.places
  {
  }

  lemma LaunchStays(w: World, th: nat, how: Launching, s: Slot, t: Token)
    requires Inv(w) && Stays(w, s, t) && th in w.locals && (w.locals[th].Launching? || w.locals[th].Probing?)
    ensures Stays(Launch(w, th, how), s, t)
  {
    NoAttemptYet(w, th);
    LaunchEffect(w, th, how);
    LaunchedStays(w, th, how, Launch(w, th, how), s, t);
  }

  lemma LaunchedStays(w: World, th: nat, how: Launching, r: World, s: Slot, t: Token)
    requires Stays(w, s, t) && th in w.locals && (w.locals[th].Launching? || w.locals[th].Probing?)
    requires LaunchedAs(w, th, how, r) && w.locals[th].permit !in w.places
    ensures Stays(r, s, t)
  {
  }

  lemma SettleStays(w: World, th: nat, s: Slot, t: Token)
    requires Inv(w) && OneClaim(w.registry, w.locals) && Stays(w, s, t) && th in w.locals && HasEntry(w.locals[th]) && HasSlot(w.locals[th])
    ensures Stays(Settle(w, th), s, t)
  {
    var l := w.locals[th];
    SettleEffect(w, th);
    OutOfSlot(w, th);
    assert !StillOwns(w, l.slot, l.permit) ==> l.permit != t;
    SettledStays(w, th, Settle(w, th), s, t);
  }

  lemma SettledStays(w: World, th: nat, r: World, s: Slot, t: Token)
    requires Stays(w, s, t) && th in w.locals && HasEntry(w.locals[th]) && HasSlot(w.locals[th])
    requires var l := w.locals[th]; var owns := StillOwns(w, l.slot, l.permit);
      && Settled(w, th, owns, r) && (!owns ==> l.permit != t)
      && r.registry == if owns then w.registry[l.slot := SlotState(l.permit, Some(l.entry))] else w.registry
    ensures Stays(r, s, t)
  {
  }

  lemma AbortStays(w: World, th: nat, s: Slot, t: Token)
    requires Inv(w) && Stays(w, s, t) && th in w.locals && w.locals[th].Failed?
    ensures Stays(Abort(w, th), s, t)
  {
    NoAttemptYet(w, th);
    AbortedStays(w, th, Abort(w, th), s, t);
  }

  lemma AbortedStays(w: World, th: nat, r: World, s: Slot, t: Token)
    requires Stays(w, s, t) && th in w.locals && w.locals[th].Failed? && w.locals[th].permit !in w.places
    requires var l := w.locals[th];
      && r.locals == w.locals - {th} && r.places == w.places
      && r.registry == if StillOwns(w, l.slot, l.permit) then w.registry - {l.slot} else w.registry
    ensures Stays(r, s, t)
  {
  }

  lemma ConcludeStays(w: World, th: nat, s: Slot, t: Token)
    requires Inv(w) && OneClaim(w.registry, w.locals) && Stays(w, s, t)
    ensures Stays(Conclude(w, th), s, t)
  {
    if th in w.locals {
      if w.locals[th].Launched? || w.locals[th].Operated? {
        SettleStays(w, th, s, t);
      } else if w.locals[th].Failed? {
        AbortStays(w, th, s, t);
      }
    }
  }

  lemma TakenKeeps(w: World, th: nat, slot: Slot, r: World, s: Slot, t: Token)
    requires Stays(w, s, t) && th !in w.locals && Occupied(w, slot) && Taken(w, th, slot, r)
    ensures Stays(r, s, t)
  {
  }

  lemma TakeStays(w: World, th: nat, slot: Slot, pid: Option<nat>, s: Slot, t: Token)
    requires Inv(w) && Stays(w, s, t)
    ensures Stays(Take(w, th, slot, pid), s, t)
  {
    if th !in w.locals && Occupied(w, slot) && w.registry[slot].running.value.child == pid {
      TakenKeeps(w, th, slot, Take(w, th, slot, pid), s, t);
    }
  }

  /** An attempt leaves another slot. */
  lemma EvictStays(w: World, r: World, th: nat, slot: Slot, e: Running, delivers: bool, s: Slot, t: Token)
    requires Stays(w, s, t) && slot != s && slot in w.registry && e.token == w.registry[slot].permit != t
    requires r.registry == w.registry - {slot} && r.locals == w.locals[th := Leaving(e, delivers)] && r.places == w.places[e.token := AtThread(th)]
    ensures Stays(r, s, t)
  {
  }

  lemma ClearStays(w: World, r: World, slot: Slot, s: Slot, t: Token)
    requires Stays(w, s, t) && slot != s && r.registry == w.registry - {slot} && r.locals == w.locals && r.places == w.places
    ensures Stays(r, s, t)
  {
  }

  lemma TokenInSlot(w: World, slot: Slot, s: Slot)
    requires Inv(w) && OneClaim(w.registry, w.locals) && Occupied(w, slot) && s in w.registry && slot != s
    ensures w.registry[slot].running.value.token == w.registry[slot].permit != w.registry[s].permit
  {
  }

  lemma CancelStays(w: World, th: nat, slot: Slot, s: Slot, t: Token)
    requires Inv(w) && OneClaim(w.registry, w.locals) && Stays(w, s, t) && slot != s
    ensures Stays(Cancel(w, th, slot), s, t)
  {
    var r := Cancel(w, th, slot);
    if th !in w.locals && slot in w.registry {
      if Occupied(w, slot) {
        TokenInSlot(w, slot, s);
        EvictStays(w, r, th, slot, w.registry[slot].running.value, false, s, t);
      } else {
        ClearStays(w, r, slot, s, t);
      }
    }
  }

  lemma TryCollectStays(w: World, th: nat, slot: Slot, seen: Seen, s: Slot, t: Token)
    requires Inv(w) && OneClaim(w.registry, w.locals) && Stays(w, s, t) && slot != s
    ensures Stays(TryCollect(w, th, slot, seen), s, t)
  {
    if th !in w.locals && Occupied(w, slot) {
      var e := w.registry[slot].running.value;
      TokenInSlot(w, slot, s);
      if Ends(e, seen) {
        EvictStays(w, TryCollect(w, th, slot, seen), th, slot, e.(status := StatusSeen(e, seen)), true, s, t);
      }
    }
  }

  lemma LeaveStays(w: World, th: nat, s: Slot, t: Token)
    requires Inv(w) && Stays(w, s, t)
    ensures Stays(Leave(w, th), s, t)
  {
  }

  lemma DropSlotStays(w: World, th: nat, slot: Slot, s: Slot, t: Token)
    requires Inv(w) && OneClaim(w.registry, w.locals) && Stays(w, s, t) && slot != s
    ensures Stays(DropSlot(w, th, slot), s, t)
  {
    var v := Cancel(w, th, slot);
    CancelStays(w, th, slot, s, t);
    LeaveStays(v, th, s, t);
    assert DropSlot(w, th, slot) == w || DropSlot(w, th, slot) == v || DropSlot(w, th, slot) == Leave(v, th);
  }

  lemma ReserveStays(w: World, th: nat, slot: Option<Slot>, s: Slot, t: Token)
    requires Inv(w) && Stays(w, s, t)
    ensures Stays(Attempts.Reserve(w, th, slot), s, t)
  {
  }

  lemma InsertStays(w: World, th: nat, s: Slot, t: Token)
    requires Inv(w) && Stays(w, s, t)
    ensures Stays(Insert(w, th), s, t)
  {
    if th in w.locals && w.locals[th].Reserved? {
      if w.locals[th].slot in w.registry {
        EndStays(w, Insert(w, th), th, s, t);
      } else {
        FillStays(w, Insert(w, th), th, s, t);
      }
    }
  }

  lemma EndStays(w: World, r: World, th: nat, s: Slot, t: Token)
    requires Stays(w, s, t) && r.registry == w.registry && r.places == w.places && r.locals == w.locals - {th}
    ensures Stays(r, s, t)
  {
  }

  lemma FillStays(w: World, r: World, th: nat, s: Slot, t: Token)
    requires Stays(w, s, t) && th in w.locals && w.locals[th].Reserved? && w.locals[th].slot !in w.registry && r.places == w.places
    requires var l := w.locals[th];
      r.registry == w.registry[l.slot := SlotState(l.permit, None)] && r.locals == w.locals[th := Launching(l.slot, l.permit)]
    ensures Stays(r, s, t)
  {
  }

  lemma OperateStays(w: World, th: nat, r: Reaping, s: Slot, t: Token)
    requires Inv(w) && Stays(w, s, t)
    ensures Stays(CancelOwned(w, th, r), s, t)
  {
  }

  lemma InvokeStays(w: World, e: Event, s: Slot, t: Token)
    requires Inv(w) && OneClaim(w.registry, w.locals) && Stays(w, s, t) && Invokes(e)
    ensures Stays(DoInvoke(w, e), s, t)
  {
    match e
    case OnReserve(th, slot) => ReserveStays(w, th, slot, s, t);
    case OnInsert(th) => InsertStays(w, th, s, t);
    case OnLaunch(th, how) =>
      if th in w.locals && (w.locals[th].Launching? || w.locals[th].Probing?) {
        LaunchStays(w, th, how, s, t);
      }
    case OnConclude(th) => ConcludeStays(w, th, s, t);
  }

  lemma ManageStays(w: World, e: Event, s: Slot, t: Token)
    requires Inv(w) && OneClaim(w.registry, w.locals) && Stays(w, s, t) && Manages(e) && !Removes(e, s)
    ensures Stays(DoManage(w, e), s, t)
  {
    match e
    case OnTake(th, slot, pid) => TakeStays(w, th, slot, pid, s, t);
    case OnCancelOwned(th, r) => OperateStays(w, th, r, s, t);
    case OnCancel(th, slot) => CancelStays(w, th, slot, s, t);
    case OnTryCollect(th, slot, seen) => TryCollectStays(w, th, slot, seen, s, t);
  }

  lemma RestStays(w: World, e: Event, s: Slot, t: Token)
    requires Inv(w) && OneClaim(w.registry, w.locals) && Stays(w, s, t) && !Invokes(e) && !Manages(e) && !Removes(e, s)
    ensures Stays(DoRest(w, e), s, t)
  {
    match e
    case OnLeave(th) => LeaveStays(w, th, s, t);
    case OnReaderDone(u, side) =>
    case OnDropSlot(th, slot) => DropSlotStays(w, th, slot, s, t);
  }

  lemma StepStays(w: World, e: Event, s: Slot, t: Token)
    requires Inv(w) && OneClaim(w.registry, w.locals) && Stays(w, s, t) && !Removes(e, s)
    ensures Stays(Do(w, e), s, t)
  {
    if Invokes(e) {
      InvokeStays(w, e, s, t);
    } else if Manages(e) {
      ManageStays(w, e, s, t);
    } else {
      RestStays(w, e, s, t);
    }
  }

  lemma StepStaysTidy(w: World, e: Event, s: Slot, t: Token)
    requires Inv(w) && OneClaim(w.registry, w.locals) && Stays(w, s, t) && !Removes(e, s)
    ensures Stays(Do(w, e), s, t) && OneClaim(Do(w, e).registry, Do(w, e).locals)
  {
    StepStays(w, e, s, t);
    StepTidies(w, e, t);
  }

  /** While no call removes its slot, a reservation with an attempt stays, whoever concludes,
      launches, takes, fails or collects elsewhere. */
  lemma {:induction false} ReservationStays(w: World, more: seq<Event>, s: Slot, t: Token)
    requires Inv(w) && OneClaim(w.registry, w.locals) && Stays(w, s, t)
    requires forall i :: 0 <= i < |more| ==> !Removes(more[i], s)
    ensures Stays(From(w, more), s, t)
    decreases |more|
  {
    if more != [] {
      StepStaysTidy(w, more[0], s, t);
      ReservationStays(Do(w, more[0]), more[1..], s, t);
    }
  }

  /** So an attempt taken for cancellation is put back, unless its slot was removed meanwhile. */
  lemma TakenIsPutBack(events: seq<Event>, th: nat, slot: Slot, pid: Option<nat>, more: seq<Event>)
    requires var w := Run(events); th !in w.locals && Occupied(w, slot) && w.registry[slot].running.value.child == pid
    requires forall i :: 0 <= i < |more| ==> !Removes(more[i], slot)
    ensures var w := Run(events); var t, v := w.registry[slot].permit, From(Take(w, th, slot, pid), more);
      && slot in v.registry && v.registry[slot].permit == t && !Lost(v, t) && t in v.places
      && (v.places[t] == AtSlot(slot) || exists a :: v.places[t] == AtThread(a) && a in v.locals && HasSlot(v.locals[a]) && StillOwns(v, slot, t))
  {
    var w := Run(events);
    var t := w.registry[slot].permit;
    RunClaims(events);
    TakeTidies(w, th, slot, pid, t);
    TakenStays(w, th, slot, Take(w, th, slot, pid));
    ReservationStays(Take(w, th, slot, pid), more, slot, t);
    var v := From(Take(w, th, slot, pid), more);
    ClaimedOnce(Take(w, th, slot, pid), more);
    StaysPlaced(v, slot, t);
  }

  lemma TakenStays(w: World, th: nat, slot: Slot, r: World)
    requires Inv(w) && th !in w.locals && Occupied(w, slot) && Taken(w, th, slot, r)
    ensures Stays(r, slot, w.registry[slot].permit)
  {
    var t := w.registry[slot].permit;
    assert w.places[t] == AtSlot(slot);
  }

  lemma StaysPlaced(v: World, slot: Slot, t: Token)
    requires Inv(v) && OneClaim(v.registry, v.locals) && Stays(v, slot, t)
    ensures v.places[t] == AtSlot(slot) || exists a :: v.places[t] == AtThread(a) && a in v.locals && HasSlot(v.locals[a]) && StillOwns(v, slot, t)
  {
    match v.places[t]
    case AtSlot(s) => assert Occupied(v, s) && v.registry[s].permit == t;
    case AtThread(a) =>
      assert a in v.locals && HasEntry(v.locals[a]) && v.locals[a].entry.token == t;
      assert HasPermit(v.locals[a]) && v.locals[a].permit == t;
      OutOfSlot(v, a);
  }
}
