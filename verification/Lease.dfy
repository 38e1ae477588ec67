/** The lease's own calls, run without a crash: their loops and writes are runs of the steps of
    `Workspace`, so everything proved of all runs holds of them. */
module Lease {
  import opened Options
  import opened Workspace
  import opened RelativePaths

  lemma {:induction false} FromSnoc(w: World, steps: seq<Step>, s: Step)
    requires Inv(w)
    ensures From(w, steps + [s]) == Do(From(w, steps), s)
    decreases |steps|
  {
    StepInv(From(w, steps), s);
    if steps == [] {
      assert steps + [s] == [s] && [s][1..] == [];
    } else {
      StepInv(w, steps[0]);
      FromSnoc(Do(w, steps[0]), steps[1..], s);
      assert (steps + [s])[1..] == steps[1..] + [s];
    }
  }

  /** `now` is reached from `start` by `steps`. */
  ghost predicate Reached(start: World, steps: seq<Step>, now: World) {
    Inv(start) && Inv(now) && now == From(start, steps)
  }

  lemma Extend(start: World, steps: seq<Step>, now: World, s: Step)
    requires Reached(start, steps, now)
    ensures Reached(start, steps + [s], Do(now, s))
  {
    StepInv(now, s);
    FromSnoc(start, steps, s);
  }

  lemma Begin(start: World)
    requires Inv(start)
    ensures Reached(start, [], start)
  {
  }

  /** A step the call makes itself, undisturbed: nothing foreign, no crash, no failed write. */
  predicate Own(s: Step) {
    s.CallRegister? || s.CallBootstrap? || s.Probe? || s.Decide? || s.SaveDone? || s.Recheck? || s.MakeDir? || s.Register? || s.Refuse?
  }

  ghost predicate AllOwn(steps: seq<Step>) {
    forall i :: 0 <= i < |steps| ==> Own(steps[i])
  }

  lemma OwnMore(steps: seq<Step>, s: Step)
    requires AllOwn(steps) && Own(s)
    ensures AllOwn(steps + [s])
  {
  }

  // -------------------------------------------------------------- directories

  /** How much of the path exists, looking from its end. */
  ghost function Nearest(fs: map<Path, Entry>, path: Path): (d: nat)
    ensures d <= |path| && (d == 0 || path[..d] in fs) && forall i :: d < i <= |path| ==> path[..i] !in fs
  {
    if path == [] || path in fs then
      assert path[..|path|] == path;
      |path|
    else
      var front := path[..|path| - 1];
      assert forall i :: 0 <= i <= |front| ==> front[..i] == path[..i];
      assert path[..|path|] == path;
      Nearest(fs, front)
  }

  /** The loop that looks for the nearest ancestor that exists. */
  method NearestAncestor(fs: map<Path, Entry>, path: Path) returns (depth: nat)
    ensures depth == Nearest(fs, path)
  {
    depth := |path|;
    while depth > 0 && path[..depth] !in fs
      invariant depth <= |path| && forall i :: depth < i <= |path| ==> path[..i] !in fs
    {
      depth := depth - 1;
    }
  }

  /** The intent a call computes for a path. */
  ghost function IntentFor(fs: map<Path, Entry>, path: Path): Intent
    requires IsDir(fs, path[..Nearest(fs, path)])
  {
    var d := Nearest(fs, path);
    Intent(path[..d], fs[path[..d]].identity, path[d..])
  }

  lemma TargetIs(fs: map<Path, Entry>, path: Path)
    requires IsDir(fs, path[..Nearest(fs, path)])
    ensures Target(IntentFor(fs, path)) == path
    ensures forall k :: 0 <= k <= |path| - Nearest(fs, path) ==> Partial(IntentFor(fs, path), k) == path[..Nearest(fs, path) + k]
  {
    var d := Nearest(fs, path);
    assert path[..d] + path[d..] == path;
    forall k | 0 <= k <= |path| - d
      ensures Partial(IntentFor(fs, path), k) == path[..d + k]
    {
      assert path[..d] + path[d..][..k] == path[..d + k];
    }
  }

  /** The directories after the first `k` missing components were made. */
  ghost function Grown(fs: map<Path, Entry>, i: Intent, k: nat, identify: Path -> Identity): map<Path, Entry>
    requires k <= |i.child|
  {
    if k == 0 then fs else Grown(fs, i, k - 1, identify)[Partial(i, k) := Dir(identify(Partial(i, k)))]
  }

  /** Exactly the components are new, everything else is as it was. */
  ghost predicate GrownBy(fs: map<Path, Entry>, now: map<Path, Entry>, i: Intent, k: nat, identify: Path -> Identity)
    requires k <= |i.child|
  {
    && (forall j :: 0 < j <= k ==> Partial(i, j) in now && now[Partial(i, j)] == Dir(identify(Partial(i, j))))
    && (forall p :: p in fs && (forall j :: 0 < j <= k ==> p != Partial(i, j)) ==> p in now && now[p] == fs[p])
    && (forall p :: p in now && p !in fs ==> exists j :: 0 < j <= k && p == Partial(i, j))
  }

  lemma PartialsDiffer(i: Intent, j: nat, k: nat)
    requires j < k <= |i.child|
    ensures Partial(i, j) != Partial(i, k)
  {
    assert |Partial(i, j)| < |Partial(i, k)|;
  }

  lemma OneMore(fs: map<Path, Entry>, now: map<Path, Entry>, i: Intent, k: nat, identify: Path -> Identity)
    requires 0 < k <= |i.child| && GrownBy(fs, now, i, k - 1, identify)
    ensures GrownBy(fs, now[Partial(i, k) := Dir(identify(Partial(i, k)))], i, k, identify)
  {
    var q := Partial(i, k);
    var more := now[q := Dir(identify(q))];
    forall j | 0 < j <= k
      ensures Partial(i, j) in more && more[Partial(i, j)] == Dir(identify(Partial(i, j)))
    {
      if j < k {
        PartialsDiffer(i, j, k);
      }
    }
    forall p | p in fs && forall j :: 0 < j <= k ==> p != Partial(i, j)
      ensures p in more && more[p] == fs[p]
    {
      assert p != q;
    }
    forall p | p in more && p !in fs
      ensures exists j :: 0 < j <= k && p == Partial(i, j)
    {
      if p != q {
        assert p in now;
        var j :| 0 < j <= k - 1 && p == Partial(i, j);
      }
    }
  }

  lemma {:induction false} GrownIs(fs: map<Path, Entry>, i: Intent, k: nat, identify: Path -> Identity)
    requires k <= |i.child|
    ensures GrownBy(fs, Grown(fs, i, k, identify), i, k, identify)
  {
    if k > 0 {
      GrownIs(fs, i, k - 1, identify);
      OneMore(fs, Grown(fs, i, k - 1, identify), i, k, identify);
    }
  }

  /** Every component of the parent is a directory, with the pinned identity, and nothing is below. */
  ghost predicate Ready(fs: map<Path, Entry>, i: Intent) {
    && AllDirs(fs, i.parent) && i.parent in fs && fs[i.parent] == Dir(i.parentIdentity)
    && forall j :: 0 < j <= |i.child| ==> Partial(i, j) !in fs
  }

  lemma PartialPrefix(i: Intent, k: nat, n: nat)
    requires k <= |i.child| && n <= |i.parent| + k
    ensures Partial(i, k)[..n] == if n <= |i.parent| then i.parent[..n] else Partial(i, n - |i.parent|)
  {
    var p := Partial(i, k);
    if n > |i.parent| {
      assert p[..n] == i.parent + i.child[..n - |i.parent|];
    } else {
      assert p[..n] == i.parent[..n];
    }
  }

  /** From a ready tree, the components made so far are directories, and the next is missing. */
  lemma GrownReady(fs: map<Path, Entry>, i: Intent, k: nat, identify: Path -> Identity)
    requires Ready(fs, i) && k <= |i.child|
    ensures var now := Grown(fs, i, k, identify);
      && AllDirs(now, Partial(i, k)) && IsDir(now, Partial(i, k)) && i.parent in now && now[i.parent] == Dir(i.parentIdentity)
      && forall j :: k < j <= |i.child| ==> Partial(i, j) !in now
  {
    var now := Grown(fs, i, k, identify);
    GrownIs(fs, i, k, identify);
    forall n | 0 <= n <= |Partial(i, k)|
      ensures IsDir(now, Partial(i, k)[..n])
    {
      PartialPrefix(i, k, n);
      if n <= |i.parent| {
        KeptBelow(i, i.parent[..n], k);
        assert IsDir(fs, i.parent[..n]);
      }
    }
    KeptBelow(i, i.parent, k);
    assert Partial(i, k)[..|Partial(i, k)|] == Partial(i, k);
    forall j | k < j <= |i.child|
      ensures Partial(i, j) !in now
    {
      if Partial(i, j) in now {
        var n :| 0 < n <= k && Partial(i, j) == Partial(i, n);
        PartialsDiffer(i, n, j);
        assert false;
      }
    }
  }

  lemma KeptBelow(i: Intent, p: Path, k: nat)
    requires k <= |i.child| && |p| <= |i.parent|
    ensures forall j :: 0 < j <= k ==> p != Partial(i, j)
  {
    forall j | 0 < j <= k
      ensures p != Partial(i, j)
    {
      assert |Partial(i, j)| > |p|;
    }
  }

  // ------------------------------------------------------------------ the calls

  /** Registering a path under a known alias: the identity there is the stored one, and the path
      it was stored with still has it. */
  predicate Confirms(m: Manifest, fs: map<Path, Entry>, alias: string, path: Path)
    requires alias in m.roots
  {
    var r := m.roots[alias];
    IsDir(fs, path) && fs[path].identity == r.identity && IsDir(fs, r.path) && fs[r.path].identity == r.identity
  }

  /** When a registration succeeds. */
  predicate Registers(m: Manifest, fs: map<Path, Entry>, alias: string, path: Path) {
    AllDirs(fs, path) && IsDir(fs, path) && (alias in m.roots ==> Confirms(m, fs, alias, path))
  }

  /** When a bootstrap of a new alias succeeds: nothing is at the path, the missing part is a
      legal relative path below directories, and a stored intent is the one computed now. */
  ghost predicate Boots(m: Manifest, fs: map<Path, Entry>, alias: string, path: Path) {
    var d := Nearest(fs, path);
    d < |path| && AllDirs(fs, path[..d]) && IsDir(fs, path[..d]) && Legal(path[d..]) && (alias in m.pending ==> m.pending[alias] == IntentFor(fs, path))
  }

  /** The directories gained exactly the missing part of the path. */
  ghost predicate GainedPath(fs: map<Path, Entry>, now: map<Path, Entry>, path: Path, identify: Path -> Identity) {
    && (forall p :: p in fs ==> p in now && now[p] == fs[p])
    && (forall j :: Nearest(fs, path) < j <= |path| ==> path[..j] in now && now[path[..j]] == Dir(identify(path[..j])))
    && (forall p :: p in now && p !in fs ==> exists j :: Nearest(fs, path) < j <= |path| && p == path[..j])
  }

  lemma BootsReady(m: Manifest, fs: map<Path, Entry>, alias: string, path: Path)
    requires Boots(m, fs, alias, path)
    ensures Ready(fs, IntentFor(fs, path)) && Target(IntentFor(fs, path)) == path && path !in fs
  {
    TargetIs(fs, path);
    assert path[..|path|] == path;
  }

  lemma GainedIs(fs: map<Path, Entry>, path: Path, identify: Path -> Identity)
    requires IsDir(fs, path[..Nearest(fs, path)])
    ensures var i := IntentFor(fs, path); GainedPath(fs, Grown(fs, i, |i.child|, identify), path, identify)
  {
    var i, d := IntentFor(fs, path), Nearest(fs, path);
    var n := |i.child|;
    var now := Grown(fs, i, n, identify);
    TargetIs(fs, path);
    GrownIs(fs, i, n, identify);
    forall j | d < j <= |path|
      ensures path[..j] in now && now[path[..j]] == Dir(identify(path[..j]))
    {
      assert Partial(i, j - d) == path[..j];
    }
    forall p | p in now && p !in fs
      ensures exists j :: d < j <= |path| && p == path[..j]
    {
      var k :| 0 < k <= n && p == Partial(i, k);
      assert p == path[..d + k];
    }
    forall p | p in fs
      ensures p in now && now[p] == fs[p]
    {
      forall k | 0 < k <= n
        ensures p != Partial(i, k)
      {
        assert Partial(i, k) == path[..d + k];
      }
    }
  }

  /** A stored intent whose first component exists is never the one computed now. */
  lemma PartialTreeRefused(m: Manifest, fs: map<Path, Entry>, alias: string, path: Path)
    requires alias in m.pending && m.pending[alias].child != [] && Partial(m.pending[alias], 1) in fs
    ensures !Boots(m, fs, alias, path)
  {
    if Boots(m, fs, alias, path) {
      BootsReady(m, fs, alias, path);
    }
  }

  /** When the component after the first `k` can be made. */
  predicate Makes(fs: map<Path, Entry>, i: Intent, k: nat)
    requires k < |i.child|
  {
    && i.parent in fs && fs[i.parent] == Dir(i.parentIdentity) && AllDirs(fs, Partial(i, k)) && IsDir(fs, Partial(i, k))
    && Partial(i, k + 1) !in fs
  }

  class RepositoryLease {
    var disk: Disk
    var fs: map<Path, Entry>
    var manifest: Manifest
    ghost var call: nat
    ghost var log: set<Made>

    /** The lease as a state of the step machine. */
    ghost function At(stage: Stage): World
      reads this
    {
      World(disk, fs, Some(manifest), stage, call, log)
    }

    /** `register_created_root`, after the call reached this point. */
    method RegisterCreated(alias: string, path: Path, ghost built: bool, ghost start: World, ghost before: seq<Step>)
      returns (ok: bool, ghost steps: seq<Step>)
      requires Reached(start, before, At(Registering(alias, path, built))) && AllOwn(before)
      modifies this
      ensures Reached(start, steps, At(Idle)) && AllOwn(steps) && fs == old(fs) && log == old(log)
      ensures ok <==> old(disk) == Whole(old(manifest)) && Registers(old(manifest), fs, alias, path)
      ensures if ok && alias !in old(manifest.roots)
        then disk == Whole(manifest) && manifest == old(manifest).(roots := old(manifest.roots)[alias := Root(path, fs[path].identity)])
        else disk == old(disk) && manifest == old(manifest)
    {
      steps := before + [Register];
      OwnMore(before, Register);
      Extend(start, before, At(Registering(alias, path, built)), Register);
      if disk != Whole(manifest) || !AllDirs(fs, path) || !IsDir(fs, path) {
        return false, steps;
      }
      if alias in manifest.roots {
        return Confirms(manifest, fs, alias, path), steps;
      }
      var updated := manifest.(roots := manifest.roots[alias := Root(path, fs[path].identity)]);
      disk := Writing(manifest, updated);
      ghost var writing := At(SavingRoot(alias));
      Extend(start, steps, writing, SaveDone);
      OwnMore(steps, SaveDone);
      steps := steps + [SaveDone];
      disk, manifest := Whole(updated), updated;
      ok := true;
    }

    /** One component: the pinned parent and all above are rechecked, then it is made. */
    method MakeComponent(alias: string, intent: Intent, k: nat, id: Identity, ghost start: World, ghost before: seq<Step>)
      returns (made: bool, ghost steps: seq<Step>)
      requires k < |intent.child| && Reached(start, before, At(Creating(alias, intent, k, false))) && AllOwn(before)
      modifies this`fs, this`log
      ensures made <==> Makes(old(fs), intent, k)
      ensures fs == if made then old(fs)[Partial(intent, k + 1) := Dir(id)] else old(fs)
      ensures AllOwn(steps) && Reached(start, steps, At(
                if !made then Idle else if k + 1 < |intent.child| then Creating(alias, intent, k + 1, false)
                else Registering(alias, Target(intent), true)))
    {
      Extend(start, before, At(Creating(alias, intent, k, false)), Recheck);
      OwnMore(before, Recheck);
      steps := before + [Recheck];
      if !(intent.parent in fs && fs[intent.parent] == Dir(intent.parentIdentity) && AllDirs(fs, Partial(intent, k))) {
        return false, steps;
      }
      var p := Partial(intent, k + 1);
      Extend(start, steps, At(Creating(alias, intent, k, true)), MakeDir(id));
      OwnMore(steps, MakeDir(id));
      steps := steps + [MakeDir(id)];
      if p in fs || !IsDir(fs, Partial(intent, k)) {
        return false, steps;
      }
      fs := fs[p := Dir(id)];
      log := log + {Made(call, alias, p)};
      made := true;
    }

    /** The loop that makes the missing components. */
    method MakeComponents(alias: string, intent: Intent, identify: Path -> Identity, ghost start: World, ghost before: seq<Step>)
      returns (made: bool, ghost count: nat, ghost steps: seq<Step>)
      requires Reached(start, before, At(Creating(alias, intent, 0, false))) && AllOwn(before)
      modifies this`fs, this`log
      ensures count <= |intent.child| && fs == Grown(old(fs), intent, count, identify) && AllOwn(steps)
      ensures made ==> count == |intent.child| && Reached(start, steps, At(Registering(alias, Target(intent), true)))
      ensures !made ==> count < |intent.child| && Reached(start, steps, At(Idle)) && !Makes(fs, intent, count)
      ensures Ready(old(fs), intent) ==> made
    {
      var k := 0;
      steps := before;
      while true
        invariant k < |intent.child| && Reached(start, steps, At(Creating(alias, intent, k, false))) && AllOwn(steps)
        invariant fs == Grown(old(fs), intent, k, identify)
        decreases |intent.child| - k
      {
        if Ready(old(fs), intent) {
          GrownReady(old(fs), intent, k, identify);
        }
        made, steps := MakeComponent(alias, intent, k, identify(Partial(intent, k + 1)), start, steps);
        if !made {
          return false, k, steps;
        }
        k := k + 1;
        if k == |intent.child| {
          return true, k, steps;
        }
      }
    }

    /** The intent is compared with the stored one, or written before any effect. */
    method SettleIntent(alias: string, intent: Intent, ghost start: World, ghost before: seq<Step>)
      returns (settled: bool, ghost steps: seq<Step>)
      requires Reached(start, before, At(Intending(alias, intent))) && intent.child != [] && AllOwn(before)
      modifies this`disk, this`manifest
      ensures AllOwn(steps)
      ensures settled <==> if alias in old(manifest.pending) then old(manifest.pending)[alias] == intent else Target(intent) !in fs
      ensures settled ==> Reached(start, steps, At(Creating(alias, intent, 0, false)))
      ensures settled ==> disk == Whole(manifest) && manifest == old(manifest).(pending := old(manifest.pending)[alias := intent])
      ensures !settled ==> Reached(start, steps, At(Idle)) && disk == old(disk) && manifest == old(manifest)
    {
      Extend(start, before, At(Intending(alias, intent)), Decide);
      OwnMore(before, Decide);
      steps := before + [Decide];
      if alias in manifest.pending {
        assert manifest.pending[alias] == intent ==> manifest.pending == manifest.pending[alias := intent];
        return manifest.pending[alias] == intent, steps;
      }
      if Target(intent) in fs {
        return false, steps;
      }
      var updated := manifest.(pending := manifest.pending[alias := intent]);
      disk := Writing(manifest, updated);
      Extend(start, steps, At(SavingIntent(alias, intent)), SaveDone);
      OwnMore(steps, SaveDone);
      steps := steps + [SaveDone];
      disk, manifest := Whole(updated), updated;
      settled := true;
    }

    /** What a bootstrap of a new alias does after its intent is settled. */
    method BuildRoot(alias: string, intent: Intent, identify: Path -> Identity, ghost start: World, ghost before: seq<Step>)
      returns (ok: bool, ghost steps: seq<Step>)
      requires Reached(start, before, At(Creating(alias, intent, 0, false))) && AllOwn(before)
      requires Ready(fs, intent)
      modifies this
      ensures Reached(start, steps, At(Idle)) && AllOwn(steps) && ok
      ensures fs == Grown(old(fs), intent, |intent.child|, identify) && disk == Whole(manifest)
      ensures manifest == old(manifest).(roots := old(manifest.roots)[alias := Root(Target(intent), identify(Target(intent)))])
    {
      ghost var n := |intent.child|;
      GrownReady(fs, intent, n, identify);
      GrownIs(fs, intent, n, identify);
      assert intent.child[..n] == intent.child;
      assert Partial(intent, n) == Target(intent);
      ghost var count;
      ok, count, steps := MakeComponents(alias, intent, identify, start, before);
      ok, steps := RegisterCreated(alias, Target(intent), true, start, steps);
    }

    /** `bootstrap_root`, run alone: all or nothing. */
    method BootstrapRoot(alias: string, path: Path, identify: Path -> Identity) returns (ok: bool, ghost steps: seq<Step>)
      requires Inv(At(Idle))
      modifies this
      ensures Reached(old(At(Idle)), steps, At(Idle)) && AllOwn(steps)
      ensures ok <==> old(disk) == Whole(old(manifest)) && (if alias in old(manifest.roots) then Registers(old(manifest), old(fs), alias, path)
                                                             else Boots(old(manifest), old(fs), alias, path))
      ensures !ok || alias in old(manifest.roots) ==> fs == old(fs) && disk == old(disk) && manifest == old(manifest)
      ensures ok && alias !in old(manifest.roots) ==>
        && GainedPath(old(fs), fs, path, identify) && disk == Whole(manifest)
        && manifest.roots == old(manifest.roots)[alias := Root(path, identify(path))]
        && manifest.pending == old(manifest.pending)[alias := IntentFor(old(fs), path)]
      ensures alias in old(manifest.pending) && alias !in old(manifest.roots) && old(manifest.pending)[alias].child != [] ==>
        Partial(old(manifest.pending)[alias], 1) in old(fs) ==> !ok
    {
      ghost var start := At(Idle);
      if alias in manifest.pending && manifest.pending[alias].child != [] && Partial(manifest.pending[alias], 1) in fs {
        PartialTreeRefused(manifest, fs, alias, path);
      }
      Begin(start);
      Extend(start, [], start, CallBootstrap(alias, path));
      steps := [] + [CallBootstrap(alias, path)];
      call := call + 1;
      if disk != Whole(manifest) {
        return false, steps;
      }
      if alias in manifest.roots {
        ok, steps := RegisterCreated(alias, path, false, start, steps);
        return;
      }
      ok, steps := BootstrapNew(alias, path, identify, start, steps);
    }

    /** The part for a new alias. */
    method BootstrapNew(alias: string, path: Path, identify: Path -> Identity, ghost start: World, ghost before: seq<Step>)
      returns (ok: bool, ghost steps: seq<Step>)
      requires Reached(start, before, At(Probing(alias, path))) && AllOwn(before)
      modifies this
      ensures Reached(start, steps, At(Idle)) && AllOwn(steps) && (ok <==> Boots(old(manifest), old(fs), alias, path))
      ensures !ok ==> fs == old(fs) && disk == old(disk) && manifest == old(manifest)
      ensures ok ==>
        && GainedPath(old(fs), fs, path, identify) && disk == Whole(manifest)
        && manifest.roots == old(manifest.roots)[alias := Root(path, identify(path))]
        && manifest.pending == old(manifest.pending)[alias := IntentFor(old(fs), path)]
    {
      var depth := NearestAncestor(fs, path);
      Extend(start, before, At(Probing(alias, path)), Probe(depth));
      OwnMore(before, Probe(depth));
      steps := before + [Probe(depth)];
      if depth == |path| || !IsDir(fs, path[..depth]) {
        return false, steps;
      }
      var intent := Intent(path[..depth], fs[path[..depth]].identity, path[depth..]);
      if !AllDirs(fs, path[..depth]) || !Legal(path[depth..]) {
        Extend(start, steps, At(Intending(alias, intent)), Refuse);
        OwnMore(steps, Refuse);
        return false, steps + [Refuse];
      }
      assert path[..|path|] == path;
      TargetIs(fs, path);
      GainedIs(fs, path, identify);
      ok, steps := SettleIntent(alias, intent, start, steps);
      if !ok {
        return false, steps;
      }
      BootsReady(old(manifest), fs, alias, path);
      ok, steps := BuildRoot(alias, intent, identify, start, steps);
    }

    /** `register_root` */
    method RegisterRoot(alias: string, path: Path) returns (ok: bool, ghost steps: seq<Step>)
      requires Inv(At(Idle))
      modifies this
      ensures Reached(old(At(Idle)), steps, At(Idle)) && AllOwn(steps) && fs == old(fs)
      ensures ok <==> && old(disk) == Whole(old(manifest)) && Registers(old(manifest), fs, alias, path)
                      && (alias in old(manifest.pending) ==> alias in old(manifest.roots))
      ensures if ok && alias !in old(manifest.roots)
        then disk == Whole(manifest) && manifest == old(manifest).(roots := old(manifest.roots)[alias := Root(path, fs[path].identity)])
        else disk == old(disk) && manifest == old(manifest)
    {
      ghost var start := At(Idle);
      Begin(start);
      Extend(start, [], start, CallRegister(alias, path));
      steps := [] + [CallRegister(alias, path)];
      call := call + 1;
      if (alias in manifest.pending && alias !in manifest.roots) || disk != Whole(manifest) {
        return false, steps;
      }
      ok, steps := RegisterCreated(alias, path, false, start, steps);
    }
  }
}
