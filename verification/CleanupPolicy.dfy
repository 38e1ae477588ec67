/** The cleanup verdict: which reasons block a candidate, and what a bound digest proves. */
module CleanupPolicy {
  import opened Options
  import opened Sorting
  import opened Encoding
  import opened Cleanup

  datatype Reason =
    | ActiveProcess | AmbiguousOwnership | DirtyTracked | DirtyUntracked | MissingDependency
    | MissingRecoveryObject | StaleFacts | UniqueCommit | UnknownIgnored | UnsafePath
  {
    function AsStr(): string {
      match this
      case ActiveProcess => "active-process"
      case AmbiguousOwnership => "ambiguous-ownership"
      case DirtyTracked => "dirty-tracked"
      case DirtyUntracked => "dirty-untracked"
      case MissingDependency => "missing-dependency"
      case MissingRecoveryObject => "missing-recovery-object"
      case StaleFacts => "stale-facts"
      case UniqueCommit => "unique-commit"
      case UnknownIgnored => "unknown-ignored"
      case UnsafePath => "unsafe-path"
    }
  }

  datatype Eligibility = Blocked | Eligible

  datatype CandidatePreview = CandidatePreview(lifecycle: Option<LifecycleId>, source: EntrySource, location: Option<Location>,
                                               ownership: OwnershipCode, status: Eligibility, reasons: seq<Reason>)

  datatype Preview = Preview(apply: bool, digest: string, candidates: seq<CandidatePreview>)

  predicate Has(e: Entry, b: BlockerCode) {
    b in e.blockers
  }

  predicate UnsafeAt(c: Candidate) {
    var e := c.inventory;
    || c.reparse || c.symlink || c.escape || c.outside || e.withheld || e.class_ == Inaccessible
    || Has(e, ReparseBlocked) || Has(e, ExternalPathWithheld) || Has(e, PathInaccessible)
  }

  predicate Ambiguous(e: Entry) {
    || e.ownership != LedgerOwned || Has(e, UnknownOwnership) || Has(e, LegacyOwnershipUnresolved)
    || Has(e, IdentityConflict) || Has(e, RepositoryUnbound)
  }

  predicate DependencyGone(c: Candidate) {
    c.missingDependency || c.inventory.class_ == Missing || Has(c.inventory, PathMissing)
  }

  /** What the safety bits and the inventory say about one reason. */
  predicate Applies(c: Candidate, stale: bool, r: Reason) {
    match r
    case ActiveProcess => c.activeProcess || Has(c.inventory, DriverActive)
    case AmbiguousOwnership => Ambiguous(c.inventory)
    case DirtyTracked => c.dirtyTracked
    case DirtyUntracked => c.dirtyUntracked
    case MissingDependency => DependencyGone(c)
    case MissingRecoveryObject => c.missingRecovery
    case StaleFacts => stale
    case UniqueCommit => c.commitUnproven || (c.commit.Some? && !c.commitReachable)
    case UnknownIgnored => c.unknownIgnored
    case UnsafePath => UnsafeAt(c)
  }

  predicate ReasonLe(a: Reason, b: Reason) {
    StrLe(a.AsStr(), b.AsStr())
  }

  /** The reasons that apply, each once, in the order of their codes. */
  ghost predicate AreReasons(c: Candidate, stale: bool, rs: seq<Reason>) {
    Sorted(rs, ReasonLe) && Distinct(rs) && forall r :: r in rs <==> Applies(c, stale, r)
  }

  function Push(rs: seq<Reason>, wanted: bool, r: Reason): (out: seq<Reason>)
    requires Distinct(rs)
    ensures Distinct(out)
    ensures forall x :: x in out <==> x in rs || (wanted && x == r)
  {
    if wanted && r !in rs then rs + [r] else rs
  }

  function Dedup(rs: seq<Reason>): seq<Reason> {
    if |rs| < 2 then rs else if rs[0] == rs[1] then Dedup(rs[1..]) else [rs[0]] + Dedup(rs[1..])
  }

  lemma {:induction false} DedupDistinct(rs: seq<Reason>)
    requires Distinct(rs)
    ensures Dedup(rs) == rs
  {
    if |rs| >= 2 {
      DedupDistinct(rs[1..]);
      assert rs == [rs[0]] + rs[1..];
    }
  }

  lemma ReasonCodes(a: Reason, b: Reason)
    ensures a.AsStr() == b.AsStr() ==> a == b
  {
    assert Tag(a.AsStr()) == Tag(b.AsStr()) ==> a == b;
  }

  lemma ReasonOrder()
    ensures Preorder(ReasonLe)
    ensures forall a: Reason, b: Reason :: ReasonLe(a, b) && ReasonLe(b, a) ==> a == b
  {
    StrPreorder();
    forall a: Reason, b: Reason | ReasonLe(a, b) && ReasonLe(b, a)
      ensures a == b
    {
      StrTotal(a.AsStr(), b.AsStr());
      ReasonCodes(a, b);
    }
  }

  /** The order in which the reasons are looked at. */
  function Turn(r: Reason): nat {
    match r
    case DirtyTracked => 0
    case DirtyUntracked => 1
    case UnknownIgnored => 2
    case UniqueCommit => 3
    case ActiveProcess => 4
    case UnsafePath => 5
    case AmbiguousOwnership => 6
    case MissingDependency => 7
    case MissingRecoveryObject => 8
    case StaleFacts => 9
  }

  ghost predicate FoundUpTo(c: Candidate, stale: bool, rs: seq<Reason>, k: nat) {
    Distinct(rs) && forall r :: r in rs <==> Applies(c, stale, r) && Turn(r) < k
  }

  method PushIf(c: Candidate, stale: bool, rs: seq<Reason>, wanted: bool, r: Reason) returns (out: seq<Reason>)
    requires FoundUpTo(c, stale, rs, Turn(r)) && (wanted <==> Applies(c, stale, r))
    ensures FoundUpTo(c, stale, out, Turn(r) + 1)
  {
    out := Push(rs, wanted, r);
  }

  method FoundEarly(c: Candidate, stale: bool) returns (rs: seq<Reason>)
    ensures FoundUpTo(c, stale, rs, 5)
  {
    rs := PushIf(c, stale, [], c.dirtyTracked, DirtyTracked);
    rs := PushIf(c, stale, rs, c.dirtyUntracked, DirtyUntracked);
    rs := PushIf(c, stale, rs, c.unknownIgnored, UnknownIgnored);
    rs := PushIf(c, stale, rs, c.commitUnproven || (c.commit.Some? && !c.commitReachable), UniqueCommit);
    rs := PushIf(c, stale, rs, c.activeProcess || Has(c.inventory, DriverActive), ActiveProcess);
  }

  method FoundReasons(c: Candidate, stale: bool) returns (rs: seq<Reason>)
    ensures FoundUpTo(c, stale, rs, 10)
  {
    rs := FoundEarly(c, stale);
    rs := PushIf(c, stale, rs, UnsafeAt(c), UnsafePath);
    rs := PushIf(c, stale, rs, Ambiguous(c.inventory), AmbiguousOwnership);
    rs := PushIf(c, stale, rs, DependencyGone(c), MissingDependency);
    rs := PushIf(c, stale, rs, c.missingRecovery, MissingRecoveryObject);
    rs := PushIf(c, stale, rs, stale, StaleFacts);
  }

  method ReasonsFor(c: Candidate, stale: bool) returns (rs: seq<Reason>)
    ensures AreReasons(c, stale, rs)
  {
    rs := FoundReasons(c, stale);
    assert forall r :: Turn(r) < 10;
    rs := SortReasons(c, stale, rs);
  }

  method SortReasons(c: Candidate, stale: bool, rs: seq<Reason>) returns (sorted: seq<Reason>)
    requires Distinct(rs) && forall r :: r in rs <==> Applies(c, stale, r)
    ensures AreReasons(c, stale, sorted)
  {
    sorted := Sort(rs, ReasonLe);
    ReasonOrder();
    SortSorted(rs, ReasonLe);
    SortDistinct(rs, ReasonLe);
    forall r
      ensures r in sorted <==> r in rs
    {
      SortMembers(rs, ReasonLe, r);
    }
    DedupDistinct(sorted);
    sorted := Dedup(sorted);
  }

  /** The contract of `ReasonsFor` leaves no choice. */
  lemma ReasonsUnique(c: Candidate, d: Candidate, stale: bool, rs: seq<Reason>, ts: seq<Reason>)
    requires AreReasons(c, stale, rs) && AreReasons(d, stale, ts)
    requires forall r :: Applies(c, stale, r) <==> Applies(d, stale, r)
    ensures rs == ts
  {
    ReasonOrder();
    SameMembersUnique(rs, ts, ReasonLe);
  }

  // ----------------------------------------------------------------- verdict

  predicate BlockLe(a: Candidate, b: Candidate) {
    StrLe(Block(a), Block(b))
  }

  function Ranked(cs: seq<Candidate>): (rs: seq<Candidate>)
    ensures |rs| == |cs|
  {
    Sort(cs, BlockLe)
  }

  ghost predicate IsPreview(c: Candidate, stale: bool, p: CandidatePreview) {
    var e := c.inventory;
    && p.lifecycle == e.lifecycle && p.source == e.source && p.location == e.location && p.ownership == e.ownership
    && (p.status == Eligible <==> p.reasons == []) && AreReasons(c, stale, p.reasons)
  }

  /** The preview of `f` against the digest `bound`. */
  ghost predicate IsVerdict(hash: string -> string, f: Facts, bound: Option<string>, p: Preview) {
    var digest := hash(Material(f));
    && !p.apply && p.digest == digest && |p.candidates| == |f.candidates|
    && forall i :: 0 <= i < |p.candidates| ==>
         IsPreview(Ranked(f.candidates)[i], bound.Some? && bound.value != digest, p.candidates[i])
  }

  method PreviewOf(c: Candidate, stale: bool) returns (p: CandidatePreview)
    ensures IsPreview(c, stale, p)
  {
    var rs := ReasonsFor(c, stale);
    var e := c.inventory;
    p := CandidatePreview(e.lifecycle, e.source, e.location, e.ownership, if rs == [] then Eligible else Blocked, rs);
  }

  method Previews(ranked: seq<Candidate>, stale: bool) returns (ps: seq<CandidatePreview>)
    ensures |ps| == |ranked| && forall i :: 0 <= i < |ps| ==> IsPreview(ranked[i], stale, ps[i])
  {
    ps := [];
    for i := 0 to |ranked|
      invariant |ps| == i
      invariant forall k :: 0 <= k < i ==> IsPreview(ranked[k], stale, ps[k])
    {
      var one := PreviewOf(ranked[i], stale);
      ps := ps + [one];
    }
  }

  lemma TerminatedSnoc(bs: seq<string>, i: nat)
    requires i < |bs|
    ensures Terminated(bs[..i + 1], '\n') == Terminated(bs[..i], '\n') + bs[i] + ['\n']
  {
    assert bs[..i + 1] == bs[..i] + [bs[i]];
    TerminatedConcat(bs[..i], [bs[i]], '\n');
    assert Terminated([bs[i]], '\n') == bs[i] + ['\n'] + Terminated([], '\n');
  }

  /** The text of `digest_of`, appended to block by block. */
  method DigestText(f: Facts) returns (text: string)
    ensures text == Material(f)
  {
    text := Terminated(Header(f), '\n');
    var blocks := Sort(Map(Block, f.candidates), StrLe);
    for i := 0 to |blocks|
      invariant text == Terminated(Header(f), '\n') + Terminated(blocks[..i], '\n')
    {
      TerminatedSnoc(blocks, i);
      text := text + blocks[i] + ['\n'];
    }
    assert blocks[..|blocks|] == blocks;
  }

  method Judge(hash: string -> string, f: Facts, bound: Option<string>) returns (p: Preview)
    ensures IsVerdict(hash, f, bound, p)
  {
    var text := DigestText(f);
    var digest := hash(text);
    var ps := Previews(Ranked(f.candidates), bound.Some? && bound.value != digest);
    p := Preview(false, digest, ps);
  }

  // ------------------------------------------------- what a bound digest proves

  ghost predicate Collision(hash: string -> string, a: string, b: string) {
    a != b && hash(a) == hash(b)
  }

  lemma StaleIff(hash: string -> string, f: Facts, bound: string, p: Preview, i: nat)
    requires IsVerdict(hash, f, Some(bound), p) && i < |p.candidates|
    ensures StaleFacts in p.candidates[i].reasons <==> bound != hash(Material(f))
    ensures StaleFacts in p.candidates[i].reasons ==> p.candidates[i].status == Blocked
  {
    assert IsPreview(Ranked(f.candidates)[i], bound != hash(Material(f)), p.candidates[i]);
    assert Applies(Ranked(f.candidates)[i], bound != hash(Material(f)), StaleFacts) <==> bound != hash(Material(f));
  }

  /** A candidate judged eligible under the digest issued for `f` means that the facts are
      still those of `f`, or that the hash collides on these two texts. */
  lemma EligibleMeansUnchanged(hash: string -> string, f: Facts, g: Facts, p: Preview, i: nat)
    requires IsVerdict(hash, g, Some(hash(Material(f))), p)
    requires i < |p.candidates| && p.candidates[i].status == Eligible
    ensures CanonFactsOf(f) == CanonFactsOf(g) || Collision(hash, Material(f), Material(g))
  {
    StaleIff(hash, g, hash(Material(f)), p, i);
    MaterialIff(f, g);
  }

  /** Any change blocks every candidate as stale, and nothing else does. */
  lemma ChangeBlocksAll(hash: string -> string, f: Facts, g: Facts, p: Preview)
    requires IsVerdict(hash, g, Some(hash(Material(f))), p) && !Collision(hash, Material(f), Material(g))
    ensures forall i :: 0 <= i < |p.candidates| ==>
      (StaleFacts in p.candidates[i].reasons <==> CanonFactsOf(f) != CanonFactsOf(g))
    ensures CanonFactsOf(f) != CanonFactsOf(g) ==>
      forall i :: 0 <= i < |p.candidates| ==> p.candidates[i].status == Blocked
  {
    MaterialIff(f, g);
    forall i | 0 <= i < |p.candidates|
      ensures StaleFacts in p.candidates[i].reasons <==> CanonFactsOf(f) != CanonFactsOf(g)
      ensures CanonFactsOf(f) != CanonFactsOf(g) ==> p.candidates[i].status == Blocked
    {
      StaleIff(hash, g, hash(Material(f)), p, i);
    }
  }

  // ------------------------------------------- the verdict reads the facts alone

  lemma {:induction false} InsertBlocks(x: Candidate, s: seq<Candidate>)
    ensures Map(Block, Insert(x, s, BlockLe)) == Insert(Block(x), Map(Block, s), StrLe)
  {
    if s == [] || BlockLe(x, s[0]) {
      assert Map(Block, [x] + s) == [Block(x)] + Map(Block, s);
    } else {
      InsertBlocks(x, s[1..]);
      assert Map(Block, s)[1..] == Map(Block, s[1..]);
      MapCons(s[0], Insert(x, s[1..], BlockLe));
    }
  }

  lemma MapCons(x: Candidate, s: seq<Candidate>)
    ensures Map(Block, [x] + s) == [Block(x)] + Map(Block, s)
  {
  }

  lemma {:induction false} RankedBlocks(cs: seq<Candidate>)
    ensures Map(Block, Ranked(cs)) == Sort(Map(Block, cs), StrLe)
  {
    if cs != [] {
      RankedBlocks(cs[1..]);
      InsertBlocks(cs[0], Ranked(cs[1..]));
      assert Map(Block, cs)[1..] == Map(Block, cs[1..]);
    }
  }

  lemma HasCanon(d: Entry, e: Entry, b: BlockerCode)
    requires multiset(d.blockers) == multiset(e.blockers)
    ensures Has(d, b) <==> Has(e, b)
  {
    assert b in multiset(d.blockers) <==> b in multiset(e.blockers);
  }

  lemma DirtBits(c: Candidate, d: Candidate)
    requires Dirt(c) == Dirt(d)
    ensures c.dirtyTracked == d.dirtyTracked && c.dirtyUntracked == d.dirtyUntracked && c.unknownIgnored == d.unknownIgnored
  {
    var a, b := Dirt(c), Dirt(d);
    assert a[0] == b[0] && a[1] == b[1] && a[2] == b[2];
  }

  lemma HazardBits(c: Candidate, d: Candidate)
    requires Hazards(c) == Hazards(d)
    ensures c.commitReachable == d.commitReachable && c.commitUnproven == d.commitUnproven && c.activeProcess == d.activeProcess
    ensures c.reparse == d.reparse && c.symlink == d.symlink && c.escape == d.escape && c.outside == d.outside
    ensures c.missingDependency == d.missingDependency && c.missingRecovery == d.missingRecovery
  {
    var x, y := Hazards(c), Hazards(d);
    assert x[0] == y[0] && x[1] == y[1] && x[2] == y[2] && x[3] == y[3] && x[4] == y[4] && x[5] == y[5] && x[6] == y[6];
    assert x[7] == y[7] && x[8] == y[8];
  }

  lemma AppliesCanon(c: Candidate, d: Candidate, stale: bool, r: Reason)
    requires CanonOf(c) == CanonOf(d)
    ensures Applies(c, stale, r) <==> Applies(d, stale, r)
  {
    DirtBits(c, d);
    HazardBits(c, d);
    forall b: BlockerCode
      ensures Has(c.inventory, b) <==> Has(d.inventory, b)
    {
      HasCanon(c.inventory, d.inventory, b);
    }
  }

  /** Facts with one digest material get the same reasons and verdicts, place by place. */
  lemma VerdictsAgree(hash: string -> string, f: Facts, g: Facts, bound: Option<string>, p: Preview, q: Preview)
    requires IsVerdict(hash, f, bound, p) && IsVerdict(hash, g, bound, q) && CanonFactsOf(f) == CanonFactsOf(g)
    ensures p.digest == q.digest && |p.candidates| == |q.candidates|
    ensures forall i :: 0 <= i < |p.candidates| ==>
      p.candidates[i].reasons == q.candidates[i].reasons && p.candidates[i].status == q.candidates[i].status
  {
    MaterialIff(f, g);
    MaterialInjective(f, g);
    RankedBlocks(f.candidates);
    RankedBlocks(g.candidates);
    assert |p.candidates| == |Map(Block, Ranked(f.candidates))| == |q.candidates|;
    forall i | 0 <= i < |p.candidates|
      ensures p.candidates[i].reasons == q.candidates[i].reasons && p.candidates[i].status == q.candidates[i].status
    {
      var c, d := Ranked(f.candidates)[i], Ranked(g.candidates)[i];
      assert Map(Block, Ranked(f.candidates))[i] == Map(Block, Ranked(g.candidates))[i];
      BlockIff(c, d);
      SamePlace(hash(Material(f)), c, d, bound, p.candidates[i], q.candidates[i]);
    }
  }

  lemma SamePlace(digest: string, c: Candidate, d: Candidate, bound: Option<string>, p: CandidatePreview, q: CandidatePreview)
    requires CanonOf(c) == CanonOf(d)
    requires IsPreview(c, bound.Some? && bound.value != digest, p) && IsPreview(d, bound.Some? && bound.value != digest, q)
    ensures p.reasons == q.reasons && p.status == q.status
  {
    var stale := bound.Some? && bound.value != digest;
    forall r
      ensures Applies(c, stale, r) <==> Applies(d, stale, r)
    {
      AppliesCanon(c, d, stale, r);
    }
    ReasonsUnique(c, d, stale, p.reasons, q.reasons);
  }
}
