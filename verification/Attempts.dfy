/** The harness operations, lock by lock, and what holds in every interleaving of them. */
module Attempts {
  import opened Options
  import opened Permits
  import opened Harness
  import opened Moves

  // ------------------------------------------------------------------ invoke

  /** `CapturePermit::reserve`: refused at the bound. */
  function Reserve(w: World, th: nat, slot: Option<Slot>): (r: World)
    requires Inv(w)
    ensures Inv(r) && r.registry == w.registry && r.places == w.places
    ensures if th !in w.locals && |Held(w.arcs)| < 16
      then r.next == w.next + 1 && r.locals == w.locals[th := if slot.Some? then Reserved(slot.value, w.next) else Probing(w.next)]
      else r == w
  {
    if CanBegin(w, th) then
      BeginInv(w, th, slot);
      Begin(w, th, slot)
    else w
  }

  /** The first lock of `invoke`: an occupied key ends the invocation. */
  function Insert(w: World, th: nat): (r: World)
    requires Inv(w)
    ensures Inv(r) && r.next == w.next && r.places == w.places
    ensures if th !in w.locals || !w.locals[th].Reserved? then r == w
      else var l := w.locals[th];
        if l.slot in w.registry then r.registry == w.registry && r.locals == w.locals - {th}
        else r.registry == w.registry[l.slot := SlotState(l.permit, None)] && r.locals == w.locals[th := Launching(l.slot, l.permit)]
  {
    if th !in w.locals || !w.locals[th].Reserved? then w
    else if w.locals[th].slot in w.registry then
      EndThreadInv(w, th);
      EndThread(w, th)
    else
      FillSlotInv(w, th);
      FillSlot(w, th)
  }

  /** What the launch meets: which readers start, and whether the prompt is written. */
  datatype Launching = LaunchOf(stdout: bool, stderr: bool, prompted: bool, pid: nat)

  predicate Complete(how: Launching) {
    how.stdout && how.stderr && how.prompted
  }

  function Reader(w: World, th: nat, side: Side, starts: bool): (r: World)
    requires Inv(w) && CanStartReader(w, th, side)
    ensures Inv(r) && r == (if starts then StartReader(w, th, side) else w)
  {
    if starts then
      StartReaderInv(w, th, side);
      StartReader(w, th, side)
    else w
  }

  function BothReaders(w: World, th: nat, how: Launching): (r: World)
    requires Inv(w) && th in w.locals && (w.locals[th].Launching? || w.locals[th].Probing?)
    ensures Inv(r) && r.registry == w.registry && r.next == w.next && r.places == w.places
    ensures r.locals == w.locals[th := if w.locals[th].Launching? then Failed(w.locals[th].slot, w.locals[th].permit)
                                       else ProbeFailed(w.locals[th].permit)]
    ensures ByReader(w.locals[th].permit, Stdout) in r.arcs.refs <==> how.stdout
    ensures ByReader(w.locals[th].permit, Stderr) in r.arcs.refs <==> how.stderr
  {
    ProceedInv(w, th);
    var v := Proceed(w, th);
    assert CanStartReader(v, th, Stdout);
    var o := Reader(v, th, Stdout, how.stdout);
    assert CanStartReader(o, th, Stderr);
    Reader(o, th, Stderr, how.stderr)
  }

  /** The unlocked part of `invoke`, and of a probe, whose permit moves into the capture. */
  function Launch(w: World, th: nat, how: Launching): (r: World)
    requires Inv(w)
    ensures Inv(r)
  {
    if th !in w.locals || !(w.locals[th].Launching? || w.locals[th].Probing?) then w
    else
      var v := BothReaders(w, th, how);
      if !Complete(how) then v
      else
        SpawnInv(v, th, how.pid);
        var s := Spawn(v, th, how.pid);
        if w.locals[th].Probing? then
          DropPermitInv(s, th);
          DropPermit(s, th)
        else s
  }

  /** The readers that started hold a reference each; only a complete launch makes an attempt,
      and nothing else changes. */
  ghost predicate LaunchedAs(w: World, th: nat, how: Launching, r: World)
    requires th in w.locals && (w.locals[th].Launching? || w.locals[th].Probing?)
  {
    var l := w.locals[th];
    var e := Running(l.permit, false, Some(how.pid), false);
    && r.registry == w.registry && r.next == w.next
    && (ByReader(l.permit, Stdout) in r.arcs.refs <==> how.stdout) && (ByReader(l.permit, Stderr) in r.arcs.refs <==> how.stderr)
    && r.places == (if Complete(how) then w.places[l.permit := AtThread(th)] else w.places)
    && r.locals == w.locals[th := if !Complete(how) then (if l.Launching? then Failed(l.slot, l.permit) else ProbeFailed(l.permit))
                                  else if l.Launching? then Launched(l.slot, l.permit, e) else Leaving(e, false)]
  }

  ghost predicate Started(w: World, th: nat, how: Launching, v: World)
    requires th in w.locals && (w.locals[th].Launching? || w.locals[th].Probing?)
  {
    var l := w.locals[th];
    && v.registry == w.registry && v.next == w.next && v.places == w.places
    && (ByReader(l.permit, Stdout) in v.arcs.refs <==> how.stdout) && (ByReader(l.permit, Stderr) in v.arcs.refs <==> how.stderr)
    && v.locals == w.locals[th := if l.Launching? then Failed(l.slot, l.permit) else ProbeFailed(l.permit)]
  }

  lemma SpawnedAs(w: World, th: nat, how: Launching, v: World)
    requires th in w.locals && w.locals[th].Launching? && Started(w, th, how, v) && Complete(how)
    requires Sound(v.arcs) && ByThread(th) in v.arcs.refs
    ensures LaunchedAs(w, th, how, Spawn(v, th, how.pid))
  {
  }

  lemma ProbedAs(w: World, th: nat, how: Launching, v: World, s: World)
    requires th in w.locals && w.locals[th].Probing? && Started(w, th, how, v) && Complete(how)
    requires Sound(v.arcs) && ByThread(th) in v.arcs.refs && s == Spawn(v, th, how.pid) && Sound(s.arcs) && ByThread(th) in s.arcs.refs
    ensures LaunchedAs(w, th, how, DropPermit(s, th))
  {
  }

  lemma LaunchEffect(w: World, th: nat, how: Launching)
    requires Inv(w) && th in w.locals && (w.locals[th].Launching? || w.locals[th].Probing?)
    ensures LaunchedAs(w, th, how, Launch(w, th, how))
  {
    var v := BothReaders(w, th, how);
    assert Started(w, th, how, v);
    if Complete(how) {
      SpawnInv(v, th, how.pid);
      if w.locals[th].Probing? {
        ProbedAs(w, th, how, v, Spawn(v, th, how.pid));
      } else {
        SpawnedAs(w, th, how, v);
      }
    }
  }

  function Settle(w: World, th: nat): (r: World)
    requires Inv(w) && th in w.locals && HasEntry(w.locals[th]) && HasSlot(w.locals[th])
    ensures Inv(r)
    ensures var l := w.locals[th];
      if StillOwns(w, l.slot, l.permit) then r.registry == w.registry[l.slot := SlotState(l.permit, Some(l.entry))]
      else r.registry == w.registry && l.permit !in r.places
  {
    var l := w.locals[th];
    DropPermitInv(w, th);
    var v := DropPermit(w, th);
    if StillOwns(v, l.slot, l.permit) then
      PutInInv(v, th, l.slot);
      PutIn(v, th, l.slot)
    else
      ReleaseInv(v, th);
      Release(v, th)
  }

  /** The owner ends, and no other attempt moves. */
  ghost predicate Settled(w: World, th: nat, owns: bool, r: World)
    requires th in w.locals && HasSlot(w.locals[th]) && HasPermit(w.locals[th])
  {
    var l := w.locals[th];
    && r.locals == w.locals - {th} && r.next == w.next
    && r.places == if owns then w.places[l.permit := AtSlot(l.slot)] else w.places - {l.permit}
  }

  lemma PutBack(w: World, th: nat, v: World)
    requires th in w.locals && HasEntry(w.locals[th]) && HasSlot(w.locals[th]) && w.locals[th].entry.token == w.locals[th].permit
    requires Sound(w.arcs) && ByThread(th) in w.arcs.refs && v == DropPermit(w, th) && CanPutIn(v, th, w.locals[th].slot)
    ensures Settled(w, th, true, PutIn(v, th, w.locals[th].slot))
  {
  }

  lemma GivenUp(w: World, th: nat, v: World)
    requires th in w.locals && HasEntry(w.locals[th]) && HasSlot(w.locals[th]) && w.locals[th].entry.token == w.locals[th].permit
    requires Sound(w.arcs) && ByThread(th) in w.arcs.refs && v == DropPermit(w, th)
    requires Sound(v.arcs) && ByCapture(w.locals[th].permit) in v.arcs.refs && CanRelease(v, th)
    ensures Settled(w, th, false, Release(v, th))
  {
  }

  lemma SettleEffect(w: World, th: nat)
    requires Inv(w) && th in w.locals && HasEntry(w.locals[th]) && HasSlot(w.locals[th])
    ensures Settled(w, th, StillOwns(w, w.locals[th].slot, w.locals[th].permit), Settle(w, th))
  {
    var l := w.locals[th];
    DropPermitInv(w, th);
    var v := DropPermit(w, th);
    if StillOwns(v, l.slot, l.permit) {
      PutBack(w, th, v);
    } else {
      GivenUp(w, th, v);
    }
  }

  function Abort(w: World, th: nat): (r: World)
    requires Inv(w) && th in w.locals && w.locals[th].Failed?
    ensures Inv(r) && r.locals == w.locals - {th} && r.next == w.next && r.places == w.places
    ensures var l := w.locals[th];
      r.registry == if StillOwns(w, l.slot, l.permit) then w.registry - {l.slot} else w.registry
  {
    var l := w.locals[th];
    if StillOwns(w, l.slot, l.permit) then
      ClearSlotInv(w, l.slot);
      var v := ClearSlot(w, l.slot);
      EndThreadInv(v, th);
      EndThread(v, th)
    else
      EndThreadInv(w, th);
      EndThread(w, th)
  }

  /** The second lock of `invoke` and of `with_retained_attempt`: the attempt goes into the
      slot only while its own token reserves it, and a failed launch removes only its own slot. */
  function Conclude(w: World, th: nat): (r: World)
    requires Inv(w)
    ensures Inv(r)
  {
    if th !in w.locals then w
    else if w.locals[th].Launched? || w.locals[th].Operated? then Settle(w, th)
    else if w.locals[th].Failed? then Abort(w, th)
    else if w.locals[th].ProbeFailed? then
      EndThreadInv(w, th);
      EndThread(w, th)
    else w
  }

  // ------------------------------------------------------------- cancel_owned

  /** The attempt is out of its slot, which its token still reserves, and the thread holds one
      more reference to that token. */
  ghost predicate Taken(w: World, th: nat, slot: Slot, r: World)
    requires Occupied(w, slot)
  {
    var t := w.registry[slot].permit;
    && r.registry == w.registry[slot := SlotState(t, None)] && r.places == w.places[t := AtThread(th)] && r.next == w.next
    && r.locals == w.locals[th := InFlight(slot, t, w.registry[slot].running.value)] && r.arcs.refs == w.arcs.refs[ByThread(th) := t]
  }

  lemma TakenOut(w: World, th: nat, slot: Slot, v: World)
    requires CanTakeOut(w, th, slot) && w.registry[slot].running.value.token == w.registry[slot].permit
    requires v == TakeOut(w, th, slot, w.registry[slot].running.value.status, false)
    requires Sound(v.arcs) && BySlot(slot) in v.arcs.refs && v.arcs.refs[BySlot(slot)] == w.registry[slot].permit
    ensures CanRetain(v, th, slot) && Taken(w, th, slot, Retain(v, th, slot))
  {
  }

  function TakeNow(w: World, th: nat, slot: Slot): (r: World)
    requires Inv(w) && th !in w.locals && Occupied(w, slot)
    ensures Inv(r) && Taken(w, th, slot, r)
  {
    var status := w.registry[slot].running.value.status;
    TakeOutInv(w, th, slot, status, false);
    var v := TakeOut(w, th, slot, status, false);
    TakenOut(w, th, slot, v);
    RetainInv(v, th, slot);
    Retain(v, th, slot)
  }

  /** The first lock of `with_retained_attempt`, for a handle that matches. */
  function Take(w: World, th: nat, slot: Slot, pid: Option<nat>): (r: World)
    requires Inv(w)
    ensures Inv(r)
    ensures if th in w.locals || !Occupied(w, slot) || w.registry[slot].running.value.child != pid then r == w
            else Taken(w, th, slot, r)
  {
    if th in w.locals || !Occupied(w, slot) || w.registry[slot].running.value.child != pid then w else TakeNow(w, th, slot)
  }

  /** The operation of `cancel_owned`, unlocked. */
  function CancelOwned(w: World, th: nat, r: Reaping): (u: World)
    requires Inv(w)
    ensures Inv(u) && u.registry == w.registry && u.places == w.places && u.next == w.next
    ensures if th !in w.locals || !w.locals[th].InFlight? then u == w
      else var l := w.locals[th];
        && u.locals == w.locals[th := Operated(l.slot, l.permit, Cancelled(l.entry, r))]
        && u.applied[l.permit] == w.applied[l.permit] + (if Signals(l.entry, r) then 1 else 0)
        && (w.applied[l.permit] > 0 ==> u.applied[l.permit] == w.applied[l.permit])
  {
    if CanOperate(w, th) then
      OperateInv(w, th, r);
      Operate(w, th, r)
    else w
  }

  // ------------------------------------------------------ cancel, try_collect

  /** The slot is gone, and its attempt on its way out. */
  ghost predicate Evicted(w: World, th: nat, slot: Slot, status: bool, delivers: bool, r: World)
    requires Occupied(w, slot)
  {
    var e := w.registry[slot].running.value;
    && r.registry == w.registry - {slot} && r.next == w.next
    && r.locals == w.locals[th := Leaving(e.(status := status), delivers)] && r.places == w.places[e.token := AtThread(th)]
  }

  lemma EvictMoves(w: World, th: nat, slot: Slot, status: bool, delivers: bool, v: World)
    requires CanTakeOut(w, th, slot) && w.registry[slot].running.value.token == w.registry[slot].permit
    requires v == TakeOut(w, th, slot, status, delivers) && Sound(v.arcs) && BySlot(slot) in v.arcs.refs
    ensures CanClearSlot(v, slot) && Evicted(w, th, slot, status, delivers, ClearSlot(v, slot))
  {
  }

  function Evict(w: World, th: nat, slot: Slot, status: bool, delivers: bool): (r: World)
    requires Inv(w) && th !in w.locals && Occupied(w, slot)
    ensures Inv(r) && Evicted(w, th, slot, status, delivers, r)
  {
    TakeOutInv(w, th, slot, status, delivers);
    var v := TakeOut(w, th, slot, status, delivers);
    ClearSlotInv(v, slot);
    EvictMoves(w, th, slot, status, delivers, v);
    ClearSlot(v, slot)
  }

  /** `cancel`: the slot is removed; an attempt in it is killed on the way out. */
  function Cancel(w: World, th: nat, slot: Slot): (r: World)
    requires Inv(w)
    ensures Inv(r) && r.next == w.next
    ensures if th in w.locals || slot !in w.registry then r == w
      else
        && r.registry == w.registry - {slot}
        && r.locals == (if Occupied(w, slot) then w.locals[th := Leaving(w.registry[slot].running.value, false)] else w.locals)
        && r.places == (if Occupied(w, slot) then w.places[w.registry[slot].permit := AtThread(th)] else w.places)
  {
    if th in w.locals || slot !in w.registry then w
    else if Occupied(w, slot) then Evict(w, th, slot, w.registry[slot].running.value.status, false)
    else
      ClearSlotInv(w, slot);
      ClearSlot(w, slot)
  }

  datatype Wait = Exited | StillRuns | WaitFailed

  /** What `try_collect` sees under the lock. */
  datatype Seen = Seen(failed: bool, wait: Wait, finished: bool, elapsed: bool)

  /** Whether the child is polled at all. */
  predicate Polls(e: Running, seen: Seen) {
    !seen.failed && !e.status && e.child.Some?
  }

  function StatusSeen(e: Running, seen: Seen): bool {
    e.status || (Polls(e, seen) && seen.wait == Exited)
  }

  /** Whether the attempt leaves with its final result. */
  predicate Ends(e: Running, seen: Seen) {
    seen.failed || (Polls(e, seen) && seen.wait == WaitFailed) || (StatusSeen(e, seen) && seen.finished) || seen.elapsed
  }

  /** `try_collect`, one lock. */
  function TryCollect(w: World, th: nat, slot: Slot, seen: Seen): (r: World)
    requires Inv(w)
    ensures Inv(r) && r.next == w.next
    ensures if th in w.locals || !Occupied(w, slot) then r == w
      else var e := w.registry[slot].running.value; var x := e.(status := StatusSeen(e, seen));
        if Ends(e, seen)
        then r.registry == w.registry - {slot} && r.locals == w.locals[th := Leaving(x, true)] && r.places == w.places[e.token := AtThread(th)]
        else r.registry == w.registry[slot := SlotState(e.token, Some(x))] && r.locals == w.locals && r.places == w.places
  {
    if th in w.locals || !Occupied(w, slot) then w
    else
      var e := w.registry[slot].running.value;
      if Ends(e, seen) then Evict(w, th, slot, StatusSeen(e, seen), true)
      else
        SeeStatusInv(w, slot, StatusSeen(e, seen));
        SeeStatus(w, slot, StatusSeen(e, seen))
  }

  /** The attempt that left the registry is dropped after the lock. */
  function Leave(w: World, th: nat): (r: World)
    requires Inv(w)
    ensures Inv(r) && r.registry == w.registry && r.next == w.next
    ensures if th !in w.locals || !w.locals[th].Leaving? then r == w
      else var l := w.locals[th];
        && r.locals == w.locals - {th} && r.places == w.places - {l.entry.token}
        && r.delivered[l.entry.token] == w.delivered[l.entry.token] + (if l.delivers then 1 else 0)
  {
    if CanRelease(w, th) then
      ReleaseInv(w, th);
      Release(w, th)
    else w
  }

  function ReaderDone(w: World, t: Token, side: Side): (r: World)
    requires Inv(w)
    ensures Inv(r) && r.registry == w.registry && r.locals == w.locals && r.places == w.places && r.next == w.next
  {
    if CanEndReader(w, t, side) then
      EndReaderInv(w, t, side);
      EndReader(w, t, side)
    else w
  }

  /** A slot of a harness that is dropped, which nobody works on any more. */
  function DropSlot(w: World, th: nat, slot: Slot): (r: World)
    requires Inv(w)
    ensures Inv(r)
  {
    if exists a :: a in w.locals && HasSlot(w.locals[a]) && w.locals[a].slot.harness == slot.harness then w
    else if th in w.locals || slot !in w.registry then w
    else if Occupied(w, slot) then Leave(Cancel(w, th, slot), th)
    else Cancel(w, th, slot)
  }

  // --------------------------------------------------------------------- runs

  datatype Event =
    | OnReserve(th: nat, for_: Option<Slot>)
    | OnInsert(th: nat)
    | OnLaunch(th: nat, how: Launching)
    | OnConclude(th: nat)
    | OnTake(th: nat, slot: Slot, pid: Option<nat>)
    | OnCancelOwned(th: nat, reaping: Reaping)
    | OnCancel(th: nat, slot: Slot)
    | OnTryCollect(th: nat, slot: Slot, seen: Seen)
    | OnLeave(th: nat)
    | OnReaderDone(token: Token, side: Side)
    | OnDropSlot(th: nat, slot: Slot)

  /** The steps of an invocation or a probe. */
  predicate Invokes(e: Event) {
    e.OnReserve? || e.OnInsert? || e.OnLaunch? || e.OnConclude?
  }

  function DoInvoke(w: World, e: Event): (r: World)
    requires Inv(w) && Invokes(e)
    ensures Inv(r)
  {
    match e
    case OnReserve(th, slot) => Reserve(w, th, slot)
    case OnInsert(th) => Insert(w, th)
    case OnLaunch(th, how) => Launch(w, th, how)
    case OnConclude(th) => Conclude(w, th)
  }

  /** The operations on a registered attempt. */
  predicate Manages(e: Event) {
    e.OnTake? || e.OnCancelOwned? || e.OnCancel? || e.OnTryCollect?
  }

  function DoManage(w: World, e: Event): (r: World)
    requires Inv(w) && Manages(e)
    ensures Inv(r)
  {
    match e
    case OnTake(th, slot, pid) => Take(w, th, slot, pid)
    case OnCancelOwned(th, r) => CancelOwned(w, th, r)
    case OnCancel(th, slot) => Cancel(w, th, slot)
    case OnTryCollect(th, slot, seen) => TryCollect(w, th, slot, seen)
  }

  /** The steps that let go. */
  function DoRest(w: World, e: Event): (r: World)
    requires Inv(w) && !Invokes(e) && !Manages(e)
    ensures Inv(r)
  {
    match e
    case OnLeave(th) => Leave(w, th)
    case OnReaderDone(t, side) => ReaderDone(w, t, side)
    case OnDropSlot(th, slot) => DropSlot(w, th, slot)
  }

  function Do(w: World, e: Event): (r: World)
    requires Inv(w)
    ensures Inv(r)
  {
    if Invokes(e) then DoInvoke(w, e) else if Manages(e) then DoManage(w, e) else DoRest(w, e)
  }

  /** The state after any interleaving of the steps of any number of threads. */
  function From(w: World, events: seq<Event>): (r: World)
    requires Inv(w)
    ensures Inv(r)
    decreases |events|
  {
    if events == [] then w else From(Do(w, events[0]), events[1..])
  }

  function Run(events: seq<Event>): (w: World)
    ensures Inv(w)
  {
    InitInv();
    From(INIT, events)
  }
}
