/** The moves of attempts and permits that the harness operations are made of. */
module Moves {
  import opened Options
  import opened Permits
  import opened Harness

  /** The slot of a probe, which is never registered. */
  const NOWHERE := Slot(0, 0)

  /** The slot is still reserved by this token and its attempt is out. */
  predicate StillOwns(w: World, slot: Slot, t: Token) {
    slot in w.registry && w.registry[slot].running.None? && w.registry[slot].permit == t
  }

  /** A token never reserved is nowhere. */
  lemma FreshToken(w: World)
    requires Inv(w)
    ensures w.next !in w.places && w.next !in w.arcs.count
    ensures ByReader(w.next, Stdout) !in w.arcs.refs && ByReader(w.next, Stderr) !in w.arcs.refs
    ensures forall th :: th in w.locals && HasPermit(w.locals[th]) ==> w.locals[th].permit != w.next
  {
    forall h | h in w.arcs.refs
      ensures w.arcs.refs[h] != w.next
    {
      assert w.arcs.refs[h] in w.arcs.count;
    }
    FreshReader(w, Stdout);
    FreshReader(w, Stderr);
  }

  lemma FreshReader(w: World, side: Side)
    requires Inv(w)
    ensures ByReader(w.next, side) !in w.arcs.refs
  {
    var h := ByReader(w.next, side);
    assert h in w.arcs.refs ==> h in Readers(w.arcs);
  }

  /** No thread owns the token of an attempt that is leaving. */
  lemma LeavingOwner(w: World, th: nat)
    requires Inv(w) && th in w.locals && w.locals[th].Leaving?
    ensures forall a :: a in w.locals && HasPermit(w.locals[a]) ==> w.locals[a].permit != w.locals[th].entry.token
  {
    forall a | a in w.locals && HasPermit(w.locals[a])
      ensures w.locals[a].permit != w.locals[th].entry.token
    {
      var t := w.locals[th].entry.token;
      assert t in w.places && w.places[t] == AtThread(th);
    }
  }

  ghost function ThreadOf(w: World, t: Token): set<nat> {
    if t in w.places && w.places[t].AtThread? then {w.places[t].thread} else {}
  }

  ghost function SlotOf(w: World, t: Token): set<Slot> {
    if t in w.places && w.places[t].AtSlot? then {w.places[t].slot} else {}
  }

  /** A token whose attempt was released, or never will be: nobody can launch it any more. */
  ghost predicate Gone(w: World, t: Token) {
    t < w.next && t !in w.places && forall th :: th in w.locals && HasPermit(w.locals[th]) ==> w.locals[th].permit != t
  }

  /** What `cancel_owned` sees: the platform, and whether the child was reaped. */
  datatype Reaping = Reaping(posix: bool, reaped: bool)

  /** Whether it signals the process tree. */
  predicate Signals(e: Running, r: Reaping) {
    !e.cancelled && e.child.Some? && (r.posix ==> !e.status)
  }

  /** The attempt after it. */
  function Cancelled(e: Running, r: Reaping): Running {
    if e.cancelled then e
    else if e.child.None? then e.(cancelled := true)
    else
      var status := e.status || r.reaped;
      e.(cancelled := true, status := status, child := if r.posix && status then None else e.child)
  }

  // ----------------------------------------------------------------- Begin

  predicate CanBegin(w: World, th: nat) {
    th !in w.locals && w.arcs.captures < CAPTURE_SLOTS
  }

  /** `CapturePermit::reserve`, for an invocation or for a probe. */
  function Begin(w: World, th: nat, slot: Option<Slot>): World
    requires CanBegin(w, th)
  {
    w.(arcs := Reserve(w.arcs, w.next, ByThread(th)), next := w.next + 1,
       locals := w.locals[th := if slot.Some? then Reserved(slot.value, w.next) else Probing(w.next)])
  }

  lemma BeginChanges(w: World, th: nat, slot: Option<Slot>)
    requires CanBegin(w, th)
    ensures Changes(w, Begin(w, th, slot), {th}, {}, w.next)
  {
    ChangesBy(w, Begin(w, th, slot), {th}, {}, w.next, {ByThread(th)});
  }

  lemma BeginThreads(w: World, th: nat, slot: Option<Slot>)
    requires Inv(w) && CanBegin(w, th)
    ensures ThreadsOk(Begin(w, th, slot), {th}, w.next)
  {
    FreshToken(w);
  }

  lemma BeginRest(w: World, th: nat, slot: Option<Slot>)
    requires Inv(w) && CanBegin(w, th)
    ensures Holds(w, {th}, {}, w.next) && Apart(Begin(w, th, slot), {th}) && SlotsOk(Begin(w, th, slot), {}, w.next)
    ensures TokenOk(w, Begin(w, th, slot), {th}, {}, w.next) && KnownTokens(Begin(w, th, slot))
  {
    FreshToken(w);
  }

  lemma BeginGone(w: World, th: nat, slot: Option<Slot>, gone: Token)
    requires Inv(w) && CanBegin(w, th) && Gone(w, gone)
    ensures Gone(Begin(w, th, slot), gone)
  {
  }

  lemma BeginInv(w: World, th: nat, slot: Option<Slot>)
    requires Inv(w) && CanBegin(w, th)
    ensures Inv(Begin(w, th, slot))
  {
    FreshToken(w);
    ReserveSound(w.arcs, w.next, ByThread(th));
    BeginChanges(w, th, slot);
    BeginThreads(w, th, slot);
    BeginRest(w, th, slot);
    FrameInv(w, Begin(w, th, slot), {th}, {}, w.next);
  }

  // ------------------------------------------------------------- EndThread

  predicate CanEndThread(w: World, th: nat) {
    th in w.locals && HasPermit(w.locals[th]) && !HasEntry(w.locals[th])
  }

  /** A thread that has no attempt drops its permit and returns. */
  function EndThread(w: World, th: nat): World
    requires Sound(w.arcs) && th in w.locals && ByThread(th) in w.arcs.refs && CanEndThread(w, th)
  {
    w.(arcs := Drop(w.arcs, ByThread(th)), locals := w.locals - {th})
  }

  lemma EndThreadChanges(w: World, th: nat)
    requires Sound(w.arcs) && th in w.locals && ByThread(th) in w.arcs.refs && CanEndThread(w, th)
    ensures Changes(w, EndThread(w, th), {th}, {}, w.locals[th].permit)
  {
    ChangesBy(w, EndThread(w, th), {th}, {}, w.locals[th].permit, {ByThread(th)});
  }

  lemma EndThreadFits(w: World, th: nat)
    requires Inv(w) && CanEndThread(w, th)
    ensures ThreadsOk(EndThread(w, th), {th}, w.locals[th].permit)
    ensures Holds(w, {th}, {}, w.locals[th].permit) && Apart(EndThread(w, th), {th}) && SlotsOk(EndThread(w, th), {}, w.locals[th].permit)
    ensures TokenOk(w, EndThread(w, th), {th}, {}, w.locals[th].permit) && KnownTokens(EndThread(w, th))
  {
  }

  lemma EndThreadGone(w: World, th: nat, gone: Token)
    requires Inv(w) && CanEndThread(w, th) && Gone(w, gone)
    ensures Gone(EndThread(w, th), gone)
  {
  }

  lemma EndThreadInv(w: World, th: nat)
    requires Inv(w) && CanEndThread(w, th)
    ensures Inv(EndThread(w, th))
  {
    DropSound(w.arcs, ByThread(th));
    EndThreadChanges(w, th);
    EndThreadFits(w, th);
    FrameInv(w, EndThread(w, th), {th}, {}, w.locals[th].permit);
  }

  // -------------------------------------------------------------- FillSlot

  predicate CanFillSlot(w: World, th: nat) {
    th in w.locals && w.locals[th].Reserved? && w.locals[th].slot !in w.registry
  }

  /** The vacant entry of the registry is reserved with a clone of the permit. */
  function FillSlot(w: World, th: nat): World
    requires Sound(w.arcs) && th in w.locals && ByThread(th) in w.arcs.refs && CanFillSlot(w, th)
  {
    w.(arcs := Clone(w.arcs, ByThread(th), BySlot(w.locals[th].slot)),
       registry := w.registry[w.locals[th].slot := SlotState(w.locals[th].permit, None)],
       locals := w.locals[th := Launching(w.locals[th].slot, w.locals[th].permit)])
  }

  lemma FillSlotChanges(w: World, th: nat)
    requires Sound(w.arcs) && th in w.locals && ByThread(th) in w.arcs.refs && CanFillSlot(w, th)
    ensures Changes(w, FillSlot(w, th), {th}, {w.locals[th].slot}, w.locals[th].permit)
  {
    ChangesBy(w, FillSlot(w, th), {th}, {w.locals[th].slot}, w.locals[th].permit, {BySlot(w.locals[th].slot)});
  }

  lemma FillSlotHolds(w: World, th: nat)
    requires Inv(w) && CanFillSlot(w, th)
    ensures Holds(w, {th}, {w.locals[th].slot}, w.locals[th].permit) && Apart(FillSlot(w, th), {th})
  {
  }

  lemma FillSlotThreads(w: World, th: nat)
    requires Inv(w) && CanFillSlot(w, th)
    ensures ThreadsOk(FillSlot(w, th), {th}, w.locals[th].permit)
  {
  }

  lemma FillSlotRest(w: World, th: nat)
    requires Inv(w) && CanFillSlot(w, th)
    ensures SlotsOk(FillSlot(w, th), {w.locals[th].slot}, w.locals[th].permit)
    ensures TokenOk(w, FillSlot(w, th), {th}, {w.locals[th].slot}, w.locals[th].permit) && KnownTokens(FillSlot(w, th))
  {
  }

  lemma FillSlotGone(w: World, th: nat, gone: Token)
    requires Inv(w) && CanFillSlot(w, th) && Gone(w, gone)
    ensures Gone(FillSlot(w, th), gone)
  {
  }

  lemma FillSlotInv(w: World, th: nat)
    requires Inv(w) && CanFillSlot(w, th)
    ensures Inv(FillSlot(w, th))
  {
    CloneSound(w.arcs, ByThread(th), BySlot(w.locals[th].slot));
    FillSlotChanges(w, th);
    FillSlotHolds(w, th);
    FillSlotThreads(w, th);
    FillSlotRest(w, th);
    FrameInv(w, FillSlot(w, th), {th}, {w.locals[th].slot}, w.locals[th].permit);
  }

  // --------------------------------------------------------------- Proceed

  predicate CanProceed(w: World, th: nat) {
    th in w.locals && (w.locals[th].Launching? || w.locals[th].Probing?)
  }

  /** The child is to be started; until its attempt exists the launch counts as failed. */
  function Proceed(w: World, th: nat): World
    requires CanProceed(w, th)
  {
    w.(locals := w.locals[th := if w.locals[th].Launching? then Failed(w.locals[th].slot, w.locals[th].permit)
                                else ProbeFailed(w.locals[th].permit)])
  }

  lemma ProceedChanges(w: World, th: nat)
    requires CanProceed(w, th)
    ensures Changes(w, Proceed(w, th), {th}, {}, w.locals[th].permit)
  {
    ChangesBy(w, Proceed(w, th), {th}, {}, w.locals[th].permit, {});
  }

  lemma ProceedThreads(w: World, th: nat)
    requires Inv(w) && CanProceed(w, th)
    ensures ThreadsOk(Proceed(w, th), {th}, w.locals[th].permit)
  {
  }

  lemma ProceedRest(w: World, th: nat)
    requires Inv(w) && CanProceed(w, th)
    ensures Holds(w, {th}, {}, w.locals[th].permit) && Apart(Proceed(w, th), {th}) && SlotsOk(Proceed(w, th), {}, w.locals[th].permit)
    ensures TokenOk(w, Proceed(w, th), {th}, {}, w.locals[th].permit) && KnownTokens(Proceed(w, th))
  {
  }

  lemma ProceedGone(w: World, th: nat, gone: Token)
    requires Inv(w) && CanProceed(w, th) && Gone(w, gone)
    ensures Gone(Proceed(w, th), gone)
  {
  }

  lemma ProceedInv(w: World, th: nat)
    requires Inv(w) && CanProceed(w, th)
    ensures Inv(Proceed(w, th))
  {
    ProceedChanges(w, th);
    ProceedThreads(w, th);
    ProceedRest(w, th);
    FrameInv(w, Proceed(w, th), {th}, {}, w.locals[th].permit);
  }

  // ----------------------------------------------------------- StartReader

  predicate CanStartReader(w: World, th: nat, side: Side) {
    th in w.locals && (w.locals[th].Failed? || w.locals[th].ProbeFailed?) && ByReader(w.locals[th].permit, side) !in w.arcs.refs
  }

  /** `capture_reader`: a reader that starts holds a clone of the permit. */
  function StartReader(w: World, th: nat, side: Side): World
    requires Sound(w.arcs) && th in w.locals && ByThread(th) in w.arcs.refs && CanStartReader(w, th, side)
  {
    w.(arcs := Clone(w.arcs, ByThread(th), ByReader(w.locals[th].permit, side)))
  }

  lemma StartReaderChanges(w: World, th: nat, side: Side)
    requires Sound(w.arcs) && th in w.locals && ByThread(th) in w.arcs.refs && CanStartReader(w, th, side)
    ensures Changes(w, StartReader(w, th, side), {th}, {}, w.locals[th].permit)
  {
    ChangesBy(w, StartReader(w, th, side), {th}, {}, w.locals[th].permit, {ByReader(w.locals[th].permit, side)});
  }

  lemma StartReaderThreads(w: World, th: nat, side: Side)
    requires Inv(w) && CanStartReader(w, th, side)
    ensures ThreadsOk(StartReader(w, th, side), {th}, w.locals[th].permit)
  {
  }

  lemma StartReaderRest(w: World, th: nat, side: Side)
    requires Inv(w) && CanStartReader(w, th, side)
    ensures Holds(w, {th}, {}, w.locals[th].permit) && Apart(StartReader(w, th, side), {th}) && SlotsOk(StartReader(w, th, side), {}, w.locals[th].permit)
    ensures TokenOk(w, StartReader(w, th, side), {th}, {}, w.locals[th].permit) && KnownTokens(StartReader(w, th, side))
  {
  }

  lemma StartReaderGone(w: World, th: nat, side: Side, gone: Token)
    requires Inv(w) && CanStartReader(w, th, side) && Gone(w, gone)
    ensures Gone(StartReader(w, th, side), gone)
  {
  }

  lemma StartReaderInv(w: World, th: nat, side: Side)
    requires Inv(w) && CanStartReader(w, th, side)
    ensures Inv(StartReader(w, th, side))
  {
    CloneSound(w.arcs, ByThread(th), ByReader(w.locals[th].permit, side));
    StartReaderChanges(w, th, side);
    StartReaderThreads(w, th, side);
    StartReaderRest(w, th, side);
    FrameInv(w, StartReader(w, th, side), {th}, {}, w.locals[th].permit);
  }

  // ----------------------------------------------------------------- Spawn

  predicate CanSpawn(w: World, th: nat) {
    th in w.locals && (w.locals[th].Failed? || w.locals[th].ProbeFailed?)
  }

  /** Both readers run and the prompt is written: the attempt exists, its capture holds a clone. */
  function Spawn(w: World, th: nat, pid: nat): World
    requires Sound(w.arcs) && th in w.locals && ByThread(th) in w.arcs.refs && CanSpawn(w, th)
  {
    w.(arcs := Clone(w.arcs, ByThread(th), ByCapture(w.locals[th].permit)),
       locals := w.locals[th := Launched(if w.locals[th].Failed? then w.locals[th].slot else NOWHERE, w.locals[th].permit,
                                         Running(w.locals[th].permit, false, Some(pid), false))],
       places := w.places[w.locals[th].permit := AtThread(th)])
  }

  lemma SpawnChanges(w: World, th: nat, pid: nat)
    requires Sound(w.arcs) && th in w.locals && ByThread(th) in w.arcs.refs && CanSpawn(w, th)
    ensures Changes(w, Spawn(w, th, pid), {th}, {}, w.locals[th].permit)
  {
    ChangesBy(w, Spawn(w, th, pid), {th}, {}, w.locals[th].permit, {ByCapture(w.locals[th].permit)});
  }

  lemma SpawnThreads(w: World, th: nat, pid: nat)
    requires Inv(w) && CanSpawn(w, th)
    ensures ThreadsOk(Spawn(w, th, pid), {th}, w.locals[th].permit)
  {
  }

  lemma SpawnRest(w: World, th: nat, pid: nat)
    requires Inv(w) && CanSpawn(w, th)
    ensures Holds(w, {th}, {}, w.locals[th].permit) && Apart(Spawn(w, th, pid), {th}) && SlotsOk(Spawn(w, th, pid), {}, w.locals[th].permit)
    ensures TokenOk(w, Spawn(w, th, pid), {th}, {}, w.locals[th].permit) && KnownTokens(Spawn(w, th, pid))
  {
  }

  lemma SpawnGone(w: World, th: nat, pid: nat, gone: Token)
    requires Inv(w) && CanSpawn(w, th) && Gone(w, gone)
    ensures Gone(Spawn(w, th, pid), gone)
  {
  }

  lemma SpawnInv(w: World, th: nat, pid: nat)
    requires Inv(w) && CanSpawn(w, th)
    ensures Inv(Spawn(w, th, pid))
  {
    CloneSound(w.arcs, ByThread(th), ByCapture(w.locals[th].permit));
    SpawnChanges(w, th, pid);
    SpawnThreads(w, th, pid);
    SpawnRest(w, th, pid);
    FrameInv(w, Spawn(w, th, pid), {th}, {}, w.locals[th].permit);
  }

  // ------------------------------------------------------------ DropPermit

  predicate CanDropPermit(w: World, th: nat) {
    th in w.locals && HasPermit(w.locals[th]) && HasEntry(w.locals[th])
  }

  /** The thread keeps its attempt but not its permit. */
  function DropPermit(w: World, th: nat): World
    requires Sound(w.arcs) && th in w.locals && ByThread(th) in w.arcs.refs && CanDropPermit(w, th)
  {
    w.(arcs := Drop(w.arcs, ByThread(th)), locals := w.locals[th := Leaving(w.locals[th].entry, false)])
  }

  lemma DropPermitChanges(w: World, th: nat)
    requires Sound(w.arcs) && th in w.locals && ByThread(th) in w.arcs.refs && CanDropPermit(w, th)
    ensures Changes(w, DropPermit(w, th), {th}, {}, w.locals[th].permit)
  {
    ChangesBy(w, DropPermit(w, th), {th}, {}, w.locals[th].permit, {ByThread(th)});
  }

  lemma DropPermitHolds(w: World, th: nat)
    requires Inv(w) && CanDropPermit(w, th)
    ensures Holds(w, {th}, {}, w.locals[th].permit) && Apart(DropPermit(w, th), {th})
  {
  }

  lemma DropPermitThreads(w: World, th: nat)
    requires Inv(w) && CanDropPermit(w, th)
    ensures ThreadsOk(DropPermit(w, th), {th}, w.locals[th].permit)
  {
  }

  lemma DropPermitRest(w: World, th: nat)
    requires Inv(w) && CanDropPermit(w, th)
    ensures SlotsOk(DropPermit(w, th), {}, w.locals[th].permit)
    ensures TokenOk(w, DropPermit(w, th), {th}, {}, w.locals[th].permit) && KnownTokens(DropPermit(w, th))
  {
  }

  lemma DropPermitGone(w: World, th: nat, gone: Token)
    requires Inv(w) && CanDropPermit(w, th) && Gone(w, gone)
    ensures Gone(DropPermit(w, th), gone)
  {
  }

  lemma DropPermitInv(w: World, th: nat)
    requires Inv(w) && CanDropPermit(w, th)
    ensures Inv(DropPermit(w, th))
  {
    DropSound(w.arcs, ByThread(th));
    DropPermitChanges(w, th);
    DropPermitHolds(w, th);
    DropPermitThreads(w, th);
    DropPermitRest(w, th);
    FrameInv(w, DropPermit(w, th), {th}, {}, w.locals[th].permit);
  }

  // ----------------------------------------------------------------- PutIn

  predicate CanPutIn(w: World, th: nat, slot: Slot) {
    th in w.locals && w.locals[th].Leaving? && StillOwns(w, slot, w.locals[th].entry.token)
  }

  /** The attempt goes from the thread into the slot its token reserves. */
  function PutIn(w: World, th: nat, slot: Slot): World
    requires CanPutIn(w, th, slot)
  {
    w.(registry := w.registry[slot := SlotState(w.locals[th].entry.token, Some(w.locals[th].entry))],
       locals := w.locals - {th}, places := w.places[w.locals[th].entry.token := AtSlot(slot)])
  }

  lemma PutInChanges(w: World, th: nat, slot: Slot)
    requires CanPutIn(w, th, slot)
    ensures Changes(w, PutIn(w, th, slot), {th}, {slot}, w.locals[th].entry.token)
  {
    ChangesBy(w, PutIn(w, th, slot), {th}, {slot}, w.locals[th].entry.token, {});
  }

  lemma PutInThreads(w: World, th: nat, slot: Slot)
    requires Inv(w) && CanPutIn(w, th, slot)
    ensures ThreadsOk(PutIn(w, th, slot), {th}, w.locals[th].entry.token)
  {
  }

  lemma PutInRest(w: World, th: nat, slot: Slot)
    requires Inv(w) && CanPutIn(w, th, slot)
    ensures Holds(w, {th}, {slot}, w.locals[th].entry.token) && Apart(PutIn(w, th, slot), {th}) && SlotsOk(PutIn(w, th, slot), {slot}, w.locals[th].entry.token)
    ensures TokenOk(w, PutIn(w, th, slot), {th}, {slot}, w.locals[th].entry.token) && KnownTokens(PutIn(w, th, slot))
  {
  }

  lemma PutInGone(w: World, th: nat, slot: Slot, gone: Token)
    requires Inv(w) && CanPutIn(w, th, slot) && Gone(w, gone)
    ensures Gone(PutIn(w, th, slot), gone)
  {
  }

  lemma PutInInv(w: World, th: nat, slot: Slot)
    requires Inv(w) && CanPutIn(w, th, slot)
    ensures Inv(PutIn(w, th, slot))
  {
    PutInChanges(w, th, slot);
    PutInThreads(w, th, slot);
    PutInRest(w, th, slot);
    FrameInv(w, PutIn(w, th, slot), {th}, {slot}, w.locals[th].entry.token);
  }

  // --------------------------------------------------------------- TakeOut

  predicate CanTakeOut(w: World, th: nat, slot: Slot) {
    th !in w.locals && Occupied(w, slot)
  }

  /** The attempt goes from its slot to the thread; its exit status may have been seen. */
  function TakeOut(w: World, th: nat, slot: Slot, status: bool, delivers: bool): World
    requires CanTakeOut(w, th, slot)
  {
    w.(registry := w.registry[slot := w.registry[slot].(running := None)],
       locals := w.locals[th := Leaving(w.registry[slot].running.value.(status := status), delivers)],
       places := w.places[w.registry[slot].permit := AtThread(th)])
  }

  lemma TakeOutChanges(w: World, th: nat, slot: Slot, status: bool, delivers: bool)
    requires CanTakeOut(w, th, slot)
    ensures Changes(w, TakeOut(w, th, slot, status, delivers), {th}, {slot}, w.registry[slot].permit)
  {
    ChangesBy(w, TakeOut(w, th, slot, status, delivers), {th}, {slot}, w.registry[slot].permit, {});
  }

  lemma TakeOutHolds(w: World, th: nat, slot: Slot, status: bool, delivers: bool)
    requires Inv(w) && CanTakeOut(w, th, slot)
    ensures Holds(w, {th}, {slot}, w.registry[slot].permit) && Apart(TakeOut(w, th, slot, status, delivers), {th})
  {
  }

  lemma TakeOutThreads(w: World, th: nat, slot: Slot, status: bool, delivers: bool)
    requires Inv(w) && CanTakeOut(w, th, slot)
    ensures ThreadsOk(TakeOut(w, th, slot, status, delivers), {th}, w.registry[slot].permit)
  {
  }

  lemma TakeOutRest(w: World, th: nat, slot: Slot, status: bool, delivers: bool)
    requires Inv(w) && CanTakeOut(w, th, slot)
    ensures SlotsOk(TakeOut(w, th, slot, status, delivers), {slot}, w.registry[slot].permit)
    ensures TokenOk(w, TakeOut(w, th, slot, status, delivers), {th}, {slot}, w.registry[slot].permit) && KnownTokens(TakeOut(w, th, slot, status, delivers))
  {
  }

  lemma TakeOutGone(w: World, th: nat, slot: Slot, status: bool, delivers: bool, gone: Token)
    requires Inv(w) && CanTakeOut(w, th, slot) && Gone(w, gone)
    ensures Gone(TakeOut(w, th, slot, status, delivers), gone)
  {
  }

  lemma TakeOutInv(w: World, th: nat, slot: Slot, status: bool, delivers: bool)
    requires Inv(w) && CanTakeOut(w, th, slot)
    ensures Inv(TakeOut(w, th, slot, status, delivers))
  {
    TakeOutChanges(w, th, slot, status, delivers);
    TakeOutHolds(w, th, slot, status, delivers);
    TakeOutThreads(w, th, slot, status, delivers);
    TakeOutRest(w, th, slot, status, delivers);
    FrameInv(w, TakeOut(w, th, slot, status, delivers), {th}, {slot}, w.registry[slot].permit);
  }

  // ---------------------------------------------------------------- Retain

  predicate CanRetain(w: World, th: nat, slot: Slot) {
    th in w.locals && w.locals[th].Leaving? && StillOwns(w, slot, w.locals[th].entry.token)
  }

  /** The thread clones the token that still reserves the slot. */
  function Retain(w: World, th: nat, slot: Slot): World
    requires Sound(w.arcs) && BySlot(slot) in w.arcs.refs && CanRetain(w, th, slot)
  {
    w.(arcs := Clone(w.arcs, BySlot(slot), ByThread(th)),
       locals := w.locals[th := InFlight(slot, w.locals[th].entry.token, w.locals[th].entry)])
  }

  lemma RetainChanges(w: World, th: nat, slot: Slot)
    requires Sound(w.arcs) && BySlot(slot) in w.arcs.refs && CanRetain(w, th, slot)
    ensures Changes(w, Retain(w, th, slot), {th}, {}, w.locals[th].entry.token)
  {
    ChangesBy(w, Retain(w, th, slot), {th}, {}, w.locals[th].entry.token, {ByThread(th)});
  }

  lemma RetainFits(w: World, th: nat, slot: Slot)
    requires Inv(w) && CanRetain(w, th, slot)
    ensures ThreadsOk(Retain(w, th, slot), {th}, w.locals[th].entry.token)
    ensures Holds(w, {th}, {}, w.locals[th].entry.token) && Apart(Retain(w, th, slot), {th}) && SlotsOk(Retain(w, th, slot), {}, w.locals[th].entry.token)
    ensures TokenOk(w, Retain(w, th, slot), {th}, {}, w.locals[th].entry.token) && KnownTokens(Retain(w, th, slot))
  {
    LeavingOwner(w, th);
  }

  lemma RetainGone(w: World, th: nat, slot: Slot, gone: Token)
    requires Inv(w) && CanRetain(w, th, slot) && Gone(w, gone)
    ensures Gone(Retain(w, th, slot), gone)
  {
  }

  lemma RetainInv(w: World, th: nat, slot: Slot)
    requires Inv(w) && CanRetain(w, th, slot)
    ensures Inv(Retain(w, th, slot))
  {
    CloneSound(w.arcs, BySlot(slot), ByThread(th));
    RetainChanges(w, th, slot);
    RetainFits(w, th, slot);
    FrameInv(w, Retain(w, th, slot), {th}, {}, w.locals[th].entry.token);
  }

  // --------------------------------------------------------------- Operate

  predicate CanOperate(w: World, th: nat) {
    th in w.locals && w.locals[th].InFlight?
  }

  /** `cancel_owned` on the attempt that was taken out. */
  function Operate(w: World, th: nat, r: Reaping): World
    requires CanOperate(w, th)
  {
    w.(locals := w.locals[th := Operated(w.locals[th].slot, w.locals[th].permit, Cancelled(w.locals[th].entry, r))],
       applied := if Signals(w.locals[th].entry, r) then w.applied + multiset{w.locals[th].permit} else w.applied)
  }

  lemma OperateChanges(w: World, th: nat, r: Reaping)
    requires CanOperate(w, th)
    ensures Changes(w, Operate(w, th, r), {th}, {}, w.locals[th].permit)
  {
    ChangesBy(w, Operate(w, th, r), {th}, {}, w.locals[th].permit, {});
  }

  lemma OperateThreads(w: World, th: nat, r: Reaping)
    requires Inv(w) && CanOperate(w, th)
    ensures ThreadsOk(Operate(w, th, r), {th}, w.locals[th].permit)
  {
  }

  lemma OperateRest(w: World, th: nat, r: Reaping)
    requires Inv(w) && CanOperate(w, th)
    ensures Holds(w, {th}, {}, w.locals[th].permit) && Apart(Operate(w, th, r), {th}) && SlotsOk(Operate(w, th, r), {}, w.locals[th].permit)
    ensures TokenOk(w, Operate(w, th, r), {th}, {}, w.locals[th].permit) && KnownTokens(Operate(w, th, r))
  {
  }

  lemma OperateGone(w: World, th: nat, r: Reaping, gone: Token)
    requires Inv(w) && CanOperate(w, th) && Gone(w, gone)
    ensures Gone(Operate(w, th, r), gone)
  {
  }

  lemma OperateInv(w: World, th: nat, r: Reaping)
    requires Inv(w) && CanOperate(w, th)
    ensures Inv(Operate(w, th, r))
  {
    OperateChanges(w, th, r);
    OperateThreads(w, th, r);
    OperateRest(w, th, r);
    FrameInv(w, Operate(w, th, r), {th}, {}, w.locals[th].permit);
  }

  // ------------------------------------------------------------- SeeStatus

  predicate CanSeeStatus(w: World, slot: Slot) {
    Occupied(w, slot)
  }

  /** The exit status of an attempt in its slot is noted. */
  function SeeStatus(w: World, slot: Slot, status: bool): World
    requires CanSeeStatus(w, slot)
  {
    w.(registry := w.registry[slot := w.registry[slot].(running := Some(w.registry[slot].running.value.(status := status)))])
  }

  lemma SeeStatusChanges(w: World, slot: Slot, status: bool)
    requires CanSeeStatus(w, slot)
    ensures Changes(w, SeeStatus(w, slot, status), {}, {slot}, w.registry[slot].permit)
  {
    ChangesBy(w, SeeStatus(w, slot, status), {}, {slot}, w.registry[slot].permit, {});
  }

  lemma SeeStatusFits(w: World, slot: Slot, status: bool)
    requires Inv(w) && CanSeeStatus(w, slot)
    ensures ThreadsOk(SeeStatus(w, slot, status), {}, w.registry[slot].permit)
    ensures Holds(w, {}, {slot}, w.registry[slot].permit) && Apart(SeeStatus(w, slot, status), {})
    ensures SlotsOk(SeeStatus(w, slot, status), {slot}, w.registry[slot].permit)
    ensures TokenOk(w, SeeStatus(w, slot, status), {}, {slot}, w.registry[slot].permit) && KnownTokens(SeeStatus(w, slot, status))
  {
  }

  lemma SeeStatusGone(w: World, slot: Slot, status: bool, gone: Token)
    requires Inv(w) && CanSeeStatus(w, slot) && Gone(w, gone)
    ensures Gone(SeeStatus(w, slot, status), gone)
  {
  }

  lemma SeeStatusInv(w: World, slot: Slot, status: bool)
    requires Inv(w) && CanSeeStatus(w, slot)
    ensures Inv(SeeStatus(w, slot, status))
  {
    SeeStatusChanges(w, slot, status);
    SeeStatusFits(w, slot, status);
    FrameInv(w, SeeStatus(w, slot, status), {}, {slot}, w.registry[slot].permit);
  }

  // ------------------------------------------------------------- ClearSlot

  predicate CanClearSlot(w: World, slot: Slot) {
    slot in w.registry && w.registry[slot].running.None?
  }

  /** A slot whose attempt is out is removed, and its permit dropped. */
  function ClearSlot(w: World, slot: Slot): World
    requires Sound(w.arcs) && BySlot(slot) in w.arcs.refs && CanClearSlot(w, slot)
  {
    w.(arcs := Drop(w.arcs, BySlot(slot)), registry := w.registry - {slot})
  }

  lemma ClearSlotChanges(w: World, slot: Slot)
    requires Sound(w.arcs) && BySlot(slot) in w.arcs.refs && CanClearSlot(w, slot)
    ensures Changes(w, ClearSlot(w, slot), {}, {slot}, w.next)
  {
    ChangesBy(w, ClearSlot(w, slot), {}, {slot}, w.next, {BySlot(slot)});
  }

  lemma ClearSlotFits(w: World, slot: Slot)
    requires Inv(w) && CanClearSlot(w, slot)
    ensures ThreadsOk(ClearSlot(w, slot), {}, w.next)
    ensures Holds(w, {}, {slot}, w.next) && Apart(ClearSlot(w, slot), {}) && SlotsOk(ClearSlot(w, slot), {slot}, w.next)
    ensures TokenOk(w, ClearSlot(w, slot), {}, {slot}, w.next) && KnownTokens(ClearSlot(w, slot))
  {
    FreshToken(w);
  }

  lemma ClearSlotGone(w: World, slot: Slot, gone: Token)
    requires Inv(w) && CanClearSlot(w, slot) && Gone(w, gone)
    ensures Gone(ClearSlot(w, slot), gone)
  {
  }

  lemma ClearSlotInv(w: World, slot: Slot)
    requires Inv(w) && CanClearSlot(w, slot)
    ensures Inv(ClearSlot(w, slot))
  {
    DropSound(w.arcs, BySlot(slot));
    ClearSlotChanges(w, slot);
    ClearSlotFits(w, slot);
    FrameInv(w, ClearSlot(w, slot), {}, {slot}, w.next);
  }

  // --------------------------------------------------------------- Release

  predicate CanRelease(w: World, th: nat) {
    th in w.locals && w.locals[th].Leaving?
  }

  /** The attempt is dropped; a collected one has its final result. */
  function Release(w: World, th: nat): World
    requires Sound(w.arcs) && th in w.locals && HasEntry(w.locals[th]) && ByCapture(w.locals[th].entry.token) in w.arcs.refs && CanRelease(w, th)
  {
    w.(arcs := Drop(w.arcs, ByCapture(w.locals[th].entry.token)), locals := w.locals - {th},
       places := w.places - {w.locals[th].entry.token},
       delivered := if w.locals[th].delivers then w.delivered + multiset{w.locals[th].entry.token} else w.delivered)
  }

  lemma ReleaseChanges(w: World, th: nat)
    requires Sound(w.arcs) && th in w.locals && HasEntry(w.locals[th]) && ByCapture(w.locals[th].entry.token) in w.arcs.refs && CanRelease(w, th)
    ensures Changes(w, Release(w, th), {th}, {}, w.locals[th].entry.token)
  {
    ChangesBy(w, Release(w, th), {th}, {}, w.locals[th].entry.token, {ByCapture(w.locals[th].entry.token)});
  }

  lemma ReleaseFits(w: World, th: nat)
    requires Inv(w) && CanRelease(w, th)
    ensures ThreadsOk(Release(w, th), {th}, w.locals[th].entry.token)
    ensures Holds(w, {th}, {}, w.locals[th].entry.token) && Apart(Release(w, th), {th}) && SlotsOk(Release(w, th), {}, w.locals[th].entry.token)
    ensures TokenOk(w, Release(w, th), {th}, {}, w.locals[th].entry.token) && KnownTokens(Release(w, th))
  {
    assert ByThread(th) !in w.arcs.refs;
  }

  lemma ReleaseGone(w: World, th: nat, gone: Token)
    requires Inv(w) && CanRelease(w, th) && Gone(w, gone)
    ensures Gone(Release(w, th), gone)
  {
  }

  lemma ReleaseInv(w: World, th: nat)
    requires Inv(w) && CanRelease(w, th)
    ensures Inv(Release(w, th))
  {
    DropSound(w.arcs, ByCapture(w.locals[th].entry.token));
    ReleaseChanges(w, th);
    ReleaseFits(w, th);
    FrameInv(w, Release(w, th), {th}, {}, w.locals[th].entry.token);
  }

  // ------------------------------------------------------------- EndReader

  predicate CanEndReader(w: World, t: Token, side: Side) {
    ByReader(t, side) in w.arcs.refs
  }

  /** A reader thread ends and drops its permit. */
  function EndReader(w: World, t: Token, side: Side): World
    requires Sound(w.arcs) && CanEndReader(w, t, side)
  {
    w.(arcs := Drop(w.arcs, ByReader(t, side)))
  }

  lemma EndReaderChanges(w: World, t: Token, side: Side)
    requires Sound(w.arcs) && CanEndReader(w, t, side)
    ensures Changes(w, EndReader(w, t, side), ThreadOf(w, t), SlotOf(w, t), t)
  {
    ChangesBy(w, EndReader(w, t, side), ThreadOf(w, t), SlotOf(w, t), t, {ByReader(t, side)});
  }

  lemma EndReaderHolds(w: World, t: Token, side: Side)
    requires Inv(w) && CanEndReader(w, t, side)
    ensures Holds(w, ThreadOf(w, t), SlotOf(w, t), t) && Apart(EndReader(w, t, side), ThreadOf(w, t))
  {
  }

  lemma EndReaderThreads(w: World, t: Token, side: Side)
    requires Inv(w) && CanEndReader(w, t, side)
    ensures ThreadsOk(EndReader(w, t, side), ThreadOf(w, t), t)
  {
  }

  lemma EndReaderRest(w: World, t: Token, side: Side)
    requires Inv(w) && CanEndReader(w, t, side)
    ensures SlotsOk(EndReader(w, t, side), SlotOf(w, t), t)
    ensures TokenOk(w, EndReader(w, t, side), ThreadOf(w, t), SlotOf(w, t), t) && KnownTokens(EndReader(w, t, side))
  {
  }

  lemma EndReaderGone(w: World, t: Token, side: Side, gone: Token)
    requires Inv(w) && CanEndReader(w, t, side) && Gone(w, gone)
    ensures Gone(EndReader(w, t, side), gone)
  {
  }

  lemma EndReaderInv(w: World, t: Token, side: Side)
    requires Inv(w) && CanEndReader(w, t, side)
    ensures Inv(EndReader(w, t, side))
  {
    DropSound(w.arcs, ByReader(t, side));
    EndReaderChanges(w, t, side);
    EndReaderHolds(w, t, side);
    EndReaderThreads(w, t, side);
    EndReaderRest(w, t, side);
    FrameInv(w, EndReader(w, t, side), ThreadOf(w, t), SlotOf(w, t), t);
  }
}
