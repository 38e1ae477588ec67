/** Registering and bootstrapping the roots of a repository, with a crash possible at any step.
    The registry file is locked, so one lease at a time writes it; directories may be changed by
    others at any time. */
module Workspace {
  import opened Options

  type Path = seq<string>
  type Identity = nat

  /** What is found at a path: a directory, or something that is refused. */
  datatype Entry = Dir(identity: Identity) | NotDir

  datatype Root = Root(path: Path, identity: Identity)

  /** A root about to be created: the pinned parent and the components below it. */
  datatype Intent = Intent(parent: Path, parentIdentity: Identity, child: seq<string>)

  datatype Manifest = Manifest(roots: map<string, Root>, pending: map<string, Intent>)

  /** The registry file: readable, being rewritten, or torn by a crash in between. */
  datatype Disk = Whole(manifest: Manifest) | Writing(before: Manifest, after: Manifest) | Torn

  /** Where the current call stands. */
  datatype Stage =
    | Idle
    | Probing(alias: string, path: Path)
    | Intending(alias: string, intent: Intent)
    | SavingIntent(alias: string, intent: Intent)
    | Creating(alias: string, intent: Intent, made: nat, checked: bool)
    | Registering(alias: string, path: Path, built: bool)
    | SavingRoot(alias: string)

  /** A directory made by a call. */
  datatype Made = Made(call: nat, alias: string, path: Path)

  datatype World = World(disk: Disk, fs: map<Path, Entry>, lease: Option<Manifest>, stage: Stage, call: nat, log: set<Made>)

  const EMPTY := Manifest(map[], map[])

  function Initial(fs: map<Path, Entry>): World {
    World(Whole(EMPTY), fs, None, Idle, 0, {})
  }

  // -------------------------------------------------------------------- steps

  /** What a write that does not finish leaves behind. */
  datatype Leftover = Before | After | Broken

  function Leaves(d: Disk, l: Leftover): Disk {
    if !d.Writing? then d
    else match l case Before => Whole(d.before) case After => Whole(d.after) case Broken => Torn
  }

  datatype Step =
    | Acquire
    | DropLease
    | Crash(leaves: Leftover)
    | Others(fs: map<Path, Entry>)
    | CallRegister(alias: string, path: Path)
    | CallBootstrap(alias: string, path: Path)
    | Probe(depth: nat)
    | Decide
    | SaveDone
    | SaveFails(left: Leftover)
    | Recheck
    | MakeDir(identity: Identity)
    | Register
    | Refuse

  /** `validate`: the file still says what the lease remembers. */
  predicate Validates(w: World) {
    w.lease.Some? && w.disk == Whole(w.lease.value)
  }

  predicate IsDir(fs: map<Path, Entry>, p: Path) {
    p in fs && fs[p].Dir?
  }

  predicate AllDirs(fs: map<Path, Entry>, p: Path) {
    forall i :: 0 <= i <= |p| ==> IsDir(fs, p[..i])
  }

  function Target(i: Intent): Path {
    i.parent + i.child
  }

  /** The first `k` components below the parent. */
  function Partial(i: Intent, k: nat): Path
    requires k <= |i.child|
  {
    i.parent + i.child[..k]
  }

  function StartRegister(w: World, alias: string, path: Path): World {
    if w.lease.None? || !w.stage.Idle? then w
    else
      var v, m := w.(call := w.call + 1), w.lease.value;
      if (alias in m.pending && alias !in m.roots) || !Validates(w) then v else v.(stage := Registering(alias, path, false))
  }

  function StartBootstrap(w: World, alias: string, path: Path): World {
    if w.lease.None? || !w.stage.Idle? then w
    else
      var v, m := w.(call := w.call + 1), w.lease.value;
      if !Validates(w) then v
      else if alias in m.roots then v.(stage := Registering(alias, path, false))
      else v.(stage := Probing(alias, path))
  }

  /** The nearest ancestor that exists, and its identity. */
  function DoProbe(w: World, depth: nat): World {
    if !w.stage.Probing? then w
    else
      var p := w.stage.path;
      if depth < |p| && IsDir(w.fs, p[..depth]) then
        w.(stage := Intending(w.stage.alias, Intent(p[..depth], w.fs[p[..depth]].identity, p[depth..])))
      else w.(stage := Idle)
  }

  /** The intent is compared with the stored one, or written. */
  function DoDecide(w: World): World {
    if !w.stage.Intending? || w.lease.None? then w
    else
      var a, i, m := w.stage.alias, w.stage.intent, w.lease.value;
      if a in m.pending then w.(stage := if m.pending[a] == i && i.child != [] then Creating(a, i, 0, false) else Idle)
      else if Target(i) in w.fs || i.child == [] then w.(stage := Idle)
      else w.(disk := Writing(m, m.(pending := m.pending[a := i])), stage := SavingIntent(a, i))
  }

  function DoSave(w: World): World {
    if !w.disk.Writing? then w
    else
      var v := w.(disk := Whole(w.disk.after), lease := Some(w.disk.after));
      if w.stage.SavingIntent? then v.(stage := Creating(w.stage.alias, w.stage.intent, 0, false)) else v.(stage := Idle)
  }

  /** Before each effect: the pinned parent and every component so far. */
  function DoRecheck(w: World): World {
    if !w.stage.Creating? || w.stage.made > |w.stage.intent.child| then w
    else
      var i := w.stage.intent;
      if i.parent in w.fs && w.fs[i.parent] == Dir(i.parentIdentity) && AllDirs(w.fs, Partial(i, w.stage.made))
      then w.(stage := w.stage.(checked := true)) else w.(stage := Idle)
  }

  /** `create_dir`, which fails on anything that exists. */
  function DoMakeDir(w: World, identity: Identity): World {
    if !w.stage.Creating? || !w.stage.checked || w.stage.made >= |w.stage.intent.child| then w
    else
      var a, i, k := w.stage.alias, w.stage.intent, w.stage.made + 1;
      var p := Partial(i, k);
      if p in w.fs || !IsDir(w.fs, Partial(i, k - 1)) then w.(stage := Idle)
      else w.(fs := w.fs[p := Dir(identity)], log := w.log + {Made(w.call, a, p)},
              stage := if k < |i.child| then Creating(a, i, k, false) else Registering(a, Target(i), true))
  }

  /** `register_created_root`. */
  function DoRegister(w: World): World {
    if !w.stage.Registering? || w.lease.None? then w
    else
      var a, p, m := w.stage.alias, w.stage.path, w.lease.value;
      if !Validates(w) || !AllDirs(w.fs, p) || !IsDir(w.fs, p) || a in m.roots then w.(stage := Idle)
      else w.(disk := Writing(m, m.(roots := m.roots[a := Root(p, w.fs[p].identity)])), stage := SavingRoot(a))
  }

  predicate Saving(w: World) {
    w.stage.SavingIntent? || w.stage.SavingRoot?
  }

  function Do(w: World, s: Step): World {
    match s
    case Acquire => if w.lease.None? && w.stage.Idle? && w.disk.Whole? then w.(lease := Some(w.disk.manifest)) else w
    case DropLease => if w.stage.Idle? then w.(lease := None) else w
    case Crash(l) => w.(disk := Leaves(w.disk, l), lease := None, stage := Idle)
    case Others(fs) => w.(fs := fs)
    case CallRegister(a, p) => StartRegister(w, a, p)
    case CallBootstrap(a, p) => StartBootstrap(w, a, p)
    case Probe(d) => DoProbe(w, d)
    case Decide => DoDecide(w)
    case SaveDone => DoSave(w)
    case SaveFails(l) => if Saving(w) then w.(disk := Leaves(w.disk, l), stage := Idle) else w
    case Recheck => DoRecheck(w)
    case MakeDir(id) => DoMakeDir(w, id)
    case Register => DoRegister(w)
    case Refuse => if Saving(w) then w else w.(stage := Idle)
  }

  // --------------------------------------------------------------- invariants

  /** One call made every component below the parent. */
  ghost predicate BuiltBy(log: set<Made>, call: nat, alias: string, i: Intent, k: nat)
    requires k <= |i.child|
  {
    forall j :: 0 < j <= k ==> Made(call, alias, Partial(i, j)) in log
  }

  ghost predicate Built(log: set<Made>, alias: string, i: Intent) {
    exists call :: BuiltBy(log, call, alias, i, |i.child|)
  }

  /** No partial tree is adopted: a root with an intent was built by one call. */
  ghost predicate Honest(m: Manifest, log: set<Made>) {
    forall a :: a in m.roots && a in m.pending ==> Built(log, a, m.pending[a])
  }

  /** The intent of a directory that was made. */
  ghost predicate Intended(m: Manifest, e: Made) {
    e.alias in m.pending && exists k :: 0 < k <= |m.pending[e.alias].child| && e.path == Partial(m.pending[e.alias], k)
  }

  /** Every directory ever made has its intent in the manifest. */
  ghost predicate AllIntended(m: Manifest, log: set<Made>) {
    forall e :: e in log ==> Intended(m, e)
  }

  ghost predicate Good(m: Manifest, log: set<Made>) {
    Honest(m, log) && AllIntended(m, log)
  }

  ghost predicate DiskGood(w: World) {
    match w.disk
    case Whole(m) => Good(m, w.log)
    case Writing(m, n) => Good(m, w.log) && Good(n, w.log) && Extends(m, n)
    case Torn => true
  }

  /** Roots and intents are kept, with their identities. */
  ghost predicate Extends(m: Manifest, n: Manifest) {
    && (forall a :: a in m.roots ==> a in n.roots && n.roots[a] == m.roots[a])
    && (forall a :: a in m.pending ==> a in n.pending && n.pending[a] == m.pending[a])
  }

  ghost predicate StageGood(w: World) {
    match w.stage
    case Idle => !w.disk.Writing?
    case Probing(a, _) => Validates(w) && a !in w.lease.value.roots
    case Intending(a, _) => Validates(w) && a !in w.lease.value.roots
    case SavingIntent(a, i) =>
      && w.lease.Some? && a !in w.lease.value.roots && a !in w.lease.value.pending && i.child != []
      && w.disk == Writing(w.lease.value, w.lease.value.(pending := w.lease.value.pending[a := i]))
    case Creating(a, i, k, _) =>
      && Validates(w) && a !in w.lease.value.roots && a in w.lease.value.pending && w.lease.value.pending[a] == i
      && k < |i.child| && BuiltBy(w.log, w.call, a, i, k)
    case Registering(a, p, built) =>
      && Validates(w)
      && (built ==> a in w.lease.value.pending && BuiltBy(w.log, w.call, a, w.lease.value.pending[a], |w.lease.value.pending[a].child|))
      && (!built ==> a in w.lease.value.roots || a !in w.lease.value.pending)
    case SavingRoot(_) => w.disk.Writing? && w.lease == Some(w.disk.before)
  }

  ghost predicate Inv(w: World) {
    DiskGood(w) && StageGood(w)
  }

  lemma InitialInv(fs: map<Path, Entry>)
    ensures Inv(Initial(fs))
  {
  }

  lemma BuiltGrows(log: set<Made>, more: set<Made>, call: nat, a: string, i: Intent, k: nat)
    requires k <= |i.child| && BuiltBy(log, call, a, i, k) && log <= more
    ensures BuiltBy(more, call, a, i, k)
  {
  }

  lemma HonestGrows(m: Manifest, log: set<Made>, more: set<Made>)
    requires Honest(m, log) && log <= more
    ensures Honest(m, more)
  {
    forall a | a in m.roots && a in m.pending
      ensures Built(more, a, m.pending[a])
    {
      var call :| BuiltBy(log, call, a, m.pending[a], |m.pending[a].child|);
      BuiltGrows(log, more, call, a, m.pending[a], |m.pending[a].child|);
    }
  }

  /** Writing an intent for a new alias. */
  lemma IntentGood(m: Manifest, log: set<Made>, a: string, i: Intent)
    requires Good(m, log) && a !in m.pending && a !in m.roots
    ensures var n := m.(pending := m.pending[a := i]); Good(n, log) && Extends(m, n)
  {
    var n := m.(pending := m.pending[a := i]);
    forall e | e in log
      ensures Intended(n, e)
    {
      assert Intended(m, e);
    }
  }

  /** Writing a root for a new alias, built by this call if it has an intent. */
  lemma RootGood(m: Manifest, log: set<Made>, a: string, r: Root, call: nat)
    requires Good(m, log) && a !in m.roots
    requires a in m.pending ==> BuiltBy(log, call, a, m.pending[a], |m.pending[a].child|)
    ensures var n := m.(roots := m.roots[a := r]); Good(n, log) && Extends(m, n)
  {
    var n := m.(roots := m.roots[a := r]);
    forall e | e in log
      ensures Intended(n, e)
    {
      assert Intended(m, e);
    }
  }

  lemma MadeGood(m: Manifest, log: set<Made>, call: nat, a: string, k: nat)
    requires Good(m, log) && a in m.pending && 0 < k <= |m.pending[a].child|
    ensures Good(m, log + {Made(call, a, Partial(m.pending[a], k))})
  {
    HonestGrows(m, log, log + {Made(call, a, Partial(m.pending[a], k))});
  }

  lemma DecideInv(w: World)
    requires Inv(w)
    ensures Inv(DoDecide(w))
  {
    if w.stage.Intending? && w.lease.Some? {
      var a, i, m := w.stage.alias, w.stage.intent, w.lease.value;
      if a !in m.pending {
        IntentGood(m, w.log, a, i);
      }
    }
  }

  lemma MakeDirInv(w: World, id: Identity)
    requires Inv(w)
    ensures Inv(DoMakeDir(w, id))
  {
    if w.stage.Creating? && w.stage.made < |w.stage.intent.child| {
      var a, i, k := w.stage.alias, w.stage.intent, w.stage.made + 1;
      var more := w.log + {Made(w.call, a, Partial(i, k))};
      MadeGood(w.lease.value, w.log, w.call, a, k);
      BuiltGrows(w.log, more, w.call, a, i, k - 1);
      assert BuiltBy(more, w.call, a, i, k);
    }
  }

  lemma RegisterInv(w: World)
    requires Inv(w)
    ensures Inv(DoRegister(w))
  {
    if w.stage.Registering? && w.lease.Some? {
      var a, p, m := w.stage.alias, w.stage.path, w.lease.value;
      if Validates(w) && IsDir(w.fs, p) && a !in m.roots {
        RootGood(m, w.log, a, Root(p, w.fs[p].identity), w.call);
      }
    }
  }

  lemma StepInv(w: World, s: Step)
    requires Inv(w)
    ensures Inv(Do(w, s))
  {
    match s
    case Decide => DecideInv(w);
    case MakeDir(id) => MakeDirInv(w, id);
    case Register => RegisterInv(w);
    case _ =>
  }

  // --------------------------------------------------------------------- runs

  ghost function From(w: World, steps: seq<Step>): (r: World)
    requires Inv(w)
    ensures Inv(r)
    decreases |steps|
  {
    if steps == [] then w
    else
      StepInv(w, steps[0]);
      From(Do(w, steps[0]), steps[1..])
  }

  ghost function Run(fs: map<Path, Entry>, steps: seq<Step>): (r: World)
    ensures Inv(r)
  {
    InitialInv(fs);
    From(Initial(fs), steps)
  }

  // ------------------------------------------------------------ what is promised

  /** A directory is made only where nothing is, after its intent is durable. */
  lemma IntentFirst(w: World, s: Step, e: Made)
    requires Inv(w) && e !in w.log && e in Do(w, s).log
    ensures w.disk.Whole? && Intended(w.disk.manifest, e)
    ensures e.path !in w.fs && Do(w, s).fs.Keys == w.fs.Keys + {e.path}
  {
    var i, k := w.stage.intent, w.stage.made + 1;
    assert e == Made(w.call, w.stage.alias, Partial(i, k));
  }

  /** What is certain to be read back, and what may be. */
  function Least(d: Disk): Option<Manifest> {
    match d case Whole(m) => Some(m) case Writing(m, _) => Some(m) case Torn => None
  }

  function Most(d: Disk): Option<Manifest> {
    match d case Whole(m) => Some(m) case Writing(_, n) => Some(n) case Torn => None
  }

  /** In every run, whatever the registry can be read back as holds the intent of every
      directory a bootstrap ever made, and holds no root with an intent that one call did
      not build completely. */
  lemma AlwaysHonest(fs: map<Path, Entry>, steps: seq<Step>)
    ensures var w := Run(fs, steps);
      && (Least(w.disk).Some? ==> Good(Least(w.disk).value, w.log))
      && (Most(w.disk).Some? ==> Good(Most(w.disk).value, w.log))
  {
    assert Inv(Run(fs, steps));
  }

  lemma ExtendsTransitive(a: Manifest, b: Manifest, c: Manifest)
    requires Extends(a, b) && Extends(b, c)
    ensures Extends(a, c)
  {
  }

  lemma StepGrows(w: World, s: Step)
    requires Inv(w)
    ensures w.disk.Torn? ==> Do(w, s).disk.Torn?
    ensures Least(w.disk).Some? && Least(Do(w, s).disk).Some? ==> Extends(Least(w.disk).value, Least(Do(w, s).disk).value)
  {
  }

  /** Over every run, crashes included, roots and intents only grow and keep their identity. */
  lemma {:induction false} RunGrows(w: World, steps: seq<Step>)
    requires Inv(w)
    ensures w.disk.Torn? ==> From(w, steps).disk.Torn?
    ensures Least(w.disk).Some? && Least(From(w, steps).disk).Some? ==>
      Extends(Least(w.disk).value, Least(From(w, steps).disk).value)
    decreases |steps|
  {
    if steps != [] {
      StepInv(w, steps[0]);
      StepGrows(w, steps[0]);
      var v := Do(w, steps[0]);
      RunGrows(v, steps[1..]);
      if Least(w.disk).Some? && Least(From(v, steps[1..]).disk).Some? {
        ExtendsTransitive(Least(w.disk).value, Least(v.disk).value, Least(From(v, steps[1..]).disk).value);
      }
    }
  }

  /** An alias with an intent gets its root only from the call that built all of it. */
  lemma OnlyTheBuilderRegisters(w: World, s: Step, a: string)
    requires Inv(w) && Most(w.disk).Some? && Most(Do(w, s).disk).Some?
    requires a in Most(w.disk).value.pending && a !in Most(w.disk).value.roots && a in Most(Do(w, s).disk).value.roots
    ensures s.Register? && w.stage.Registering? && w.stage.built && w.stage.alias == a
    ensures BuiltBy(w.log, w.call, a, Most(w.disk).value.pending[a], |Most(w.disk).value.pending[a].child|)
  {
  }

  // --------------------------------------------------------- a torn registry

  /** A write of the registry is broken off in the middle. */
  predicate Tears(w: World, s: Step) {
    w.disk.Writing? && (s == Crash(Broken) || (s == SaveFails(Broken) && Saving(w)))
  }

  /** Some write of the run was. */
  ghost predicate TearsIn(w: World, steps: seq<Step>)
    requires Inv(w)
    decreases |steps|
  {
    steps != [] && (Tears(w, steps[0]) || (StepInv(w, steps[0]); TearsIn(Do(w, steps[0]), steps[1..])))
  }

  lemma StepTears(w: World, s: Step)
    requires Inv(w)
    ensures Do(w, s).disk.Torn? <==> w.disk.Torn? || Tears(w, s)
  {
  }

  /** Over every run, the registry stays readable if and only if no write of it was broken off. */
  lemma {:induction false} TornIff(w: World, steps: seq<Step>)
    requires Inv(w)
    ensures From(w, steps).disk.Torn? <==> w.disk.Torn? || TearsIn(w, steps)
    decreases |steps|
  {
    if steps != [] {
      StepInv(w, steps[0]);
      StepTears(w, steps[0]);
      TornIff(Do(w, steps[0]), steps[1..]);
    }
  }

  /** Registering one root, and losing it with the write of the next one. */
  function Losing(alias: string, next: string, path: Path): seq<Step> {
    [Acquire, CallRegister(alias, path), Register, SaveDone] + [CallRegister(next, path), Register, Crash(Broken)]
  }

  lemma FromConcat(w: World, a: seq<Step>, b: seq<Step>)
    requires Inv(w)
    ensures From(w, a + b) == From(From(w, a), b)
    decreases |a|
  {
    if a == [] {
      assert a + b == b;
    } else {
      StepInv(w, a[0]);
      assert (a + b)[1..] == a[1..] + b;
      FromConcat(Do(w, a[0]), a[1..], b);
    }
  }

  lemma FromOne(w: World, s: Step, rest: seq<Step>)
    requires Inv(w)
    ensures Inv(Do(w, s)) && From(w, [s] + rest) == From(Do(w, s), rest)
  {
    StepInv(w, s);
    assert ([s] + rest)[1..] == rest;
  }

  lemma FirstRoot(fs: map<Path, Entry>, alias: string, path: Path)
    requires AllDirs(fs, path) && IsDir(fs, path)
    ensures var m := EMPTY.(roots := map[alias := Root(path, fs[path].identity)]);
      Run(fs, [Acquire, CallRegister(alias, path), Register, SaveDone]) == World(Whole(m), fs, Some(m), Idle, 1, {})
  {
    var w := Initial(fs);
    InitialInv(fs);
    FromOne(w, Acquire, [CallRegister(alias, path), Register, SaveDone]);
    var x := Do(w, Acquire);
    FromOne(x, CallRegister(alias, path), [Register, SaveDone]);
    var y := Do(x, CallRegister(alias, path));
    FromOne(y, Register, [SaveDone]);
    var z := Do(y, Register);
    FromOne(z, SaveDone, []);
  }

  /** The registry is rewritten in place, so a crash while another root is written loses the
      roots that were registered before. */
  lemma RootsLost(fs: map<Path, Entry>, alias: string, next: string, path: Path)
    requires AllDirs(fs, path) && IsDir(fs, path) && alias != next
    ensures var before := Run(fs, [Acquire, CallRegister(alias, path), Register, SaveDone]);
      before.disk.Whole? && alias in before.disk.manifest.roots && Run(fs, Losing(alias, next, path)).disk == Torn
  {
    var w := Run(fs, [Acquire, CallRegister(alias, path), Register, SaveDone]);
    InitialInv(fs);
    FirstRoot(fs, alias, path);
    FromConcat(Initial(fs), [Acquire, CallRegister(alias, path), Register, SaveDone], [CallRegister(next, path), Register, Crash(Broken)]);
    FromOne(w, CallRegister(next, path), [Register, Crash(Broken)]);
    var x := Do(w, CallRegister(next, path));
    FromOne(x, Register, [Crash(Broken)]);
    FromOne(Do(x, Register), Crash(Broken), []);
  }
}
