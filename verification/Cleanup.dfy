/** The cleanup preview: its reasons, the digest material, and what a bound digest proves. */
module Cleanup {
  import opened Options
  import opened Sorting
  import opened Encoding
  import opened Text

  // ------------------------------------------------------------- identifiers

  predicate IdChar(c: char) {
    Alphanumeric(c) || c == '-' || c == '_'
  }

  predicate AllIdChars(s: string) {
    forall i :: 0 <= i < |s| ==> IdChar(s[i])
  }

  /** A lone hyphen is a legal lifecycle id, graph id and root alias. */
  type LifecycleId = s: string | s != [] && |s| <= 128 && AllIdChars(s) witness "a"

  type GraphId = s: string | s != [] && (forall i :: 0 <= i < |s| ==> IdChar(s[i]) || s[i] == '.') witness "a"

  type RootAlias = s: string |
    s != [] && |s| <= 64 && (forall i :: 0 <= i < |s| ==> 'a' <= s[i] <= 'z' || '0' <= s[i] <= '9' || s[i] == '-') witness "a"

  predicate Hex(c: char) {
    '0' <= c <= '9' || 'a' <= c <= 'f'
  }

  predicate IsObjectId(s: string) {
    (|s| == 40 || |s| == 64) && forall i :: 0 <= i < |s| ==> Hex(s[i])
  }

  type ObjectId = s: string | IsObjectId(s) witness seq(40, _ => '0')

  type GitRef = s: string |
    s != [] && |s| <= 256 && (forall i :: 0 <= i < |s| ==> IdChar(s[i]) || s[i] == '.' || s[i] == '/') witness "a"

  /** Of the path grammar only this matters here: no control characters, never empty. */
  type RelativePath = s: string | s != [] && (forall i :: 0 <= i < |s| ==> s[i] >= ' ') witness "a"

  // ------------------------------------------------------------------- codes

  datatype InventoryClass = Active | Inaccessible | Legacy | Missing | Unknown {
    function AsStr(): string {
      match this
      case Active => "active"
      case Inaccessible => "inaccessible"
      case Legacy => "legacy"
      case Missing => "missing"
      case Unknown => "unknown"
    }
  }

  datatype OwnershipCode = ConfiguredRoot | GitRegistered | LedgerOwned | LegacyUnbound | Unresolved {
    function AsStr(): string {
      match this
      case ConfiguredRoot => "configured-root"
      case GitRegistered => "git-registered"
      case LedgerOwned => "ledger-owned"
      case LegacyUnbound => "legacy-unbound"
      case Unresolved => "unresolved"
    }
  }

  datatype BlockerCode =
    | AdoptionPreviewOnly | DriverActive | ExternalPathWithheld | FenceInaccessible | FenceMissing
    | GitUnavailable | IdentityConflict | InventoryTruncated | LedgerInaccessible | LedgerMissing
    | LegacyOwnershipUnresolved | PathInaccessible | PathMissing | ReparseBlocked | RepositoryUnbound
    | SchemaUpgradeRequired | UnknownOwnership
  {
    function AsStr(): string {
      match this
      case AdoptionPreviewOnly => "adoption-preview-only"
      case DriverActive => "driver-active"
      case ExternalPathWithheld => "external-path-withheld"
      case FenceInaccessible => "fence-inaccessible"
      case FenceMissing => "fence-missing"
      case GitUnavailable => "git-unavailable"
      case IdentityConflict => "identity-conflict"
      case InventoryTruncated => "inventory-truncated"
      case LedgerInaccessible => "ledger-inaccessible"
      case LedgerMissing => "ledger-missing"
      case LegacyOwnershipUnresolved => "legacy-ownership-unresolved"
      case PathInaccessible => "path-inaccessible"
      case PathMissing => "path-missing"
      case ReparseBlocked => "reparse-blocked"
      case RepositoryUnbound => "repository-unbound"
      case SchemaUpgradeRequired => "schema-upgrade-required"
      case UnknownOwnership => "unknown-ownership"
    }
  }

  datatype EntrySource =
    | Artifact | ConfiguredEntry | Driver | Generation | GitWorktree | LegacyAttempt | LegacyRun | Provisional
  {
    function AsStr(): string {
      match this
      case Artifact => "artifact"
      case ConfiguredEntry => "configured-entry"
      case Driver => "driver"
      case Generation => "generation"
      case GitWorktree => "git-worktree"
      case LegacyAttempt => "legacy-attempt"
      case LegacyRun => "legacy-run"
      case Provisional => "provisional"
    }
  }

  datatype LocationScope = AtConfiguredRoot | LedgerRoot | Repository {
    function AsStr(): string {
      match this
      case AtConfiguredRoot => "configured-root"
      case LedgerRoot => "ledger-root"
      case Repository => "repository"
    }
  }

  datatype LandingStrategy = FastForward | Merge | Rewrite {
    function AsStr(): string {
      match this
      case FastForward => "fast-forward"
      case Merge => "merge"
      case Rewrite => "rewrite"
    }
  }

  /** Lower-case letters and hyphens. */
  predicate Kebab(s: string) {
    forall i :: 0 <= i < |s| ==> 'a' <= s[i] <= 'z' || s[i] == '-'
  }

  /** No separator of the encoding. */
  ghost predicate Plain(s: string) {
    '\n' !in s && ',' !in s && '|' !in s
  }

  /** Length and first letter tell the codes of one kind apart. */
  function Tag(s: string): (int, char) {
    if s == [] then (0, ' ') else (|s|, s[0])
  }

  lemma ClassPlain(a: InventoryClass)
    ensures Plain(a.AsStr()) && a.AsStr() != [] && a.AsStr() != "-"
  {
    assert Kebab(a.AsStr());
  }

  lemma ClassCodes(a: InventoryClass, b: InventoryClass)
    ensures a.AsStr() == b.AsStr() ==> a == b
  {
    assert Tag(a.AsStr()) == Tag(b.AsStr()) ==> a == b;
  }

  lemma OwnershipPlain(a: OwnershipCode)
    ensures Plain(a.AsStr()) && a.AsStr() != [] && a.AsStr() != "-"
  {
    assert Kebab(a.AsStr());
  }

  lemma OwnershipCodes(a: OwnershipCode, b: OwnershipCode)
    ensures a.AsStr() == b.AsStr() ==> a == b
  {
    assert Tag(a.AsStr()) == Tag(b.AsStr()) ==> a == b;
  }

  lemma SourcePlain(a: EntrySource)
    ensures Plain(a.AsStr()) && a.AsStr() != [] && a.AsStr() != "-"
  {
    assert Kebab(a.AsStr());
  }

  lemma SourceCodes(a: EntrySource, b: EntrySource)
    ensures a.AsStr() == b.AsStr() ==> a == b
  {
    assert Tag(a.AsStr()) == Tag(b.AsStr()) ==> a == b;
  }

  lemma ScopePlain(a: LocationScope)
    ensures Plain(a.AsStr()) && a.AsStr() != [] && a.AsStr() != "-"
  {
    assert Kebab(a.AsStr());
  }

  lemma ScopeCodes(a: LocationScope, b: LocationScope)
    ensures a.AsStr() == b.AsStr() ==> a == b
  {
    assert Tag(a.AsStr()) == Tag(b.AsStr()) ==> a == b;
  }

  lemma StrategyPlain(a: LandingStrategy)
    ensures Plain(a.AsStr()) && a.AsStr() != [] && a.AsStr() != "-"
  {
    assert Kebab(a.AsStr());
  }

  lemma StrategyCodes(a: LandingStrategy, b: LandingStrategy)
    ensures a.AsStr() == b.AsStr() ==> a == b
  {
    assert Tag(a.AsStr()) == Tag(b.AsStr()) ==> a == b;
  }

  ghost predicate EarlyBlocker(a: BlockerCode) {
    a.AdoptionPreviewOnly? || a.DriverActive? || a.ExternalPathWithheld? || a.FenceInaccessible? || a.FenceMissing?
  }

  ghost predicate MiddleBlocker(a: BlockerCode) {
    a.GitUnavailable? || a.IdentityConflict? || a.InventoryTruncated? || a.LedgerInaccessible? || a.LedgerMissing?
  }

  lemma EarlyKebab(a: BlockerCode)
    requires EarlyBlocker(a)
    ensures Kebab(a.AsStr())
  {
  }

  lemma MiddleKebab(a: BlockerCode)
    requires MiddleBlocker(a)
    ensures Kebab(a.AsStr())
  {
  }

  ghost predicate LateBlocker(a: BlockerCode) {
    a.LegacyOwnershipUnresolved? || a.PathInaccessible? || a.PathMissing? || a.ReparseBlocked?
  }

  lemma LateKebab(a: BlockerCode)
    requires LateBlocker(a)
    ensures Kebab(a.AsStr())
  {
  }

  lemma LastKebab(a: BlockerCode)
    requires !EarlyBlocker(a) && !MiddleBlocker(a) && !LateBlocker(a)
    ensures Kebab(a.AsStr())
  {
  }

  lemma KebabPlain(s: string)
    requires Kebab(s)
    ensures Plain(s)
  {
  }

  lemma BlockerPlain(a: BlockerCode)
    ensures Plain(a.AsStr()) && a.AsStr() != []
  {
    if EarlyBlocker(a) {
      EarlyKebab(a);
    } else if MiddleBlocker(a) {
      MiddleKebab(a);
    } else if LateBlocker(a) {
      LateKebab(a);
    } else {
      LastKebab(a);
    }
    KebabPlain(a.AsStr());
  }

  lemma EarlyCodes(a: BlockerCode, b: BlockerCode)
    requires EarlyBlocker(a)
    ensures Tag(a.AsStr()) == Tag(b.AsStr()) ==> a == b
  {
  }

  lemma MiddleCodes(a: BlockerCode, b: BlockerCode)
    requires MiddleBlocker(a)
    ensures Tag(a.AsStr()) == Tag(b.AsStr()) ==> a == b
  {
  }

  lemma LateCodes(a: BlockerCode, b: BlockerCode)
    requires !EarlyBlocker(a) && !MiddleBlocker(a)
    ensures Tag(a.AsStr()) == Tag(b.AsStr()) ==> a == b
  {
  }

  lemma BlockerCodes(a: BlockerCode, b: BlockerCode)
    ensures a.AsStr() == b.AsStr() ==> a == b
  {
    if EarlyBlocker(a) {
      EarlyCodes(a, b);
    } else if MiddleBlocker(a) {
      MiddleCodes(a, b);
    } else {
      LateCodes(a, b);
    }
  }

  // ------------------------------------------------------------------- facts

  datatype Location = Location(scope: LocationScope, alias: Option<RootAlias>, path: RelativePath)

  datatype Entry = Entry(class_: InventoryClass, ownership: OwnershipCode, blockers: seq<BlockerCode>, source: EntrySource,
                         graph: Option<GraphId>, lifecycle: Option<LifecycleId>, location: Option<Location>, withheld: bool)

  datatype Receipt = Receipt(strategy: LandingStrategy, accepted: ObjectId, ref: GitRef,
                             destination: Option<ObjectId>, tree: Option<ObjectId>, recovery: seq<ObjectId>)

  datatype Candidate = Candidate(inventory: Entry, dirtyTracked: bool, dirtyUntracked: bool, unknownIgnored: bool,
                                 commit: Option<ObjectId>, commitReachable: bool, commitUnproven: bool, activeProcess: bool,
                                 reparse: bool, symlink: bool, escape: bool, outside: bool,
                                 missingDependency: bool, missingRecovery: bool, receipt: Option<Receipt>)

  datatype Facts = Facts(repository: LifecycleId, retainedRef: GitRef, retainedCommit: Option<ObjectId>, candidates: seq<Candidate>)

  // ---------------------------------------------------------------- encoding

  function Token(o: Option<string>): string {
    if o.Some? then o.value else "-"
  }

  function Bit(b: bool): string {
    if b then "1" else "0"
  }

  function BlockerStr(b: BlockerCode): string {
    b.AsStr()
  }

  function BlockersToken(bs: seq<BlockerCode>): string {
    Separated(Sort(Map(BlockerStr, bs), StrLe), ',')
  }

  function ReceiptParts(r: Receipt): seq<string> {
    [r.strategy.AsStr(), r.accepted, r.ref, Token(r.destination), Token(r.tree), Separated(Sort<string>(r.recovery, StrLe), ',')]
  }

  function ReceiptToken(r: Option<Receipt>): string {
    if r.None? then "-" else Separated(ReceiptParts(r.value), '|')
  }

  function LocationTokens(l: Option<Location>): seq<string> {
    if l.None? then ["-", "-", "-"] else [l.value.scope.AsStr(), Token(l.value.alias), l.value.path]
  }

  const KEYS: seq<string> :=
    ["id", "source", "graph", "scope", "alias", "path", "class", "ownership", "withheld", "blockers",
     "dirty-tracked", "dirty-untracked", "unknown-ignored", "commit", "reachable", "unproven", "active",
     "reparse", "symlink", "escape", "outside", "missing-dependency", "missing-recovery", "receipt"]

  function BitTokens(bs: seq<bool>): seq<string> {
    Map(Bit, bs)
  }

  function IdTokens(e: Entry): seq<string> {
    [Token(e.lifecycle), e.source.AsStr(), Token(e.graph)]
  }

  function StandingTokens(e: Entry): seq<string> {
    [e.class_.AsStr(), e.ownership.AsStr(), Bit(e.withheld), BlockersToken(e.blockers)]
  }

  function Dirt(c: Candidate): seq<bool> {
    [c.dirtyTracked, c.dirtyUntracked, c.unknownIgnored]
  }

  function Hazards(c: Candidate): seq<bool> {
    [c.commitReachable, c.commitUnproven, c.activeProcess, c.reparse, c.symlink, c.escape, c.outside,
     c.missingDependency, c.missingRecovery]
  }

  /** The 24 values of a candidate block, in the order of the keys. */
  function Fields(c: Candidate): (f: seq<string>)
    ensures |f| == 24
  {
    var e := c.inventory;
    IdTokens(e) + (LocationTokens(e.location) + (StandingTokens(e) + (BitTokens(Dirt(c)) + ([Token(c.commit)] +
    (BitTokens(Hazards(c)) + [ReceiptToken(c.receipt)])))))
  }

  function Keyed(fs: seq<string>): (ls: seq<string>)
    requires |fs| == 24
    ensures |ls| == 24 && forall i :: 0 <= i < 24 ==> ls[i] == KEYS[i] + "=" + fs[i]
  {
    seq(24, i requires 0 <= i < 24 => KEYS[i] + "=" + fs[i])
  }

  /** `candidate_block` */
  function Block(c: Candidate): string {
    Separated(Keyed(Fields(c)), '\n')
  }

  function Header(f: Facts): seq<string> {
    ["cleanup-preview-v1", "repository=" + f.repository, "retained-ref=" + f.retainedRef,
     "retained-commit=" + Token(f.retainedCommit)]
  }

  /** The text the digest is taken of. */
  function Material(f: Facts): string {
    Terminated(Header(f), '\n') + Terminated(Sort(Map(Block, f.candidates), StrLe), '\n')
  }

  // --------------------------------------------------------- canonical facts

  datatype CanonLocation = CanonLocation(scope: LocationScope, alias: string, path: string)

  datatype CanonReceipt = CanonReceipt(strategy: LandingStrategy, accepted: string, ref: string,
                                       destination: Option<string>, tree: Option<string>, recovery: multiset<string>)

  /** A candidate without what the encoding forgets: the order of blockers and recovery
      objects, and whether a `-` id, graph or alias was given or absent. */
  datatype Canon = Canon(id: string, source: EntrySource, graph: string, location: Option<CanonLocation>,
                         class_: InventoryClass, ownership: OwnershipCode, withheld: bool, blockers: multiset<BlockerCode>,
                         dirt: seq<bool>, commit: Option<string>, hazards: seq<bool>, receipt: Option<CanonReceipt>)

  ghost function CanonLoc(l: Option<Location>): Option<CanonLocation> {
    if l.None? then None else Some(CanonLocation(l.value.scope, Token(l.value.alias), l.value.path))
  }

  ghost function CanonRec(r: Option<Receipt>): Option<CanonReceipt> {
    if r.None? then None
    else Some(CanonReceipt(r.value.strategy, r.value.accepted, r.value.ref, r.value.destination, r.value.tree,
                           multiset(r.value.recovery)))
  }

  ghost function CanonOf(c: Candidate): Canon {
    var e := c.inventory;
    Canon(Token(e.lifecycle), e.source, Token(e.graph), CanonLoc(e.location), e.class_, e.ownership, e.withheld,
          multiset(e.blockers), Dirt(c), c.commit, Hazards(c), CanonRec(c.receipt))
  }

  datatype CanonFacts = CanonFacts(repository: string, retainedRef: string, retainedCommit: Option<string>,
                                   candidates: multiset<Canon>)

  ghost function CanonFactsOf(f: Facts): CanonFacts {
    CanonFacts(f.repository, f.retainedRef, f.retainedCommit, multiset(Map(CanonOf, f.candidates)))
  }

  // -------------------------------------------------------- the pieces apart

  lemma ObjectTokens(a: Option<ObjectId>, b: Option<ObjectId>)
    ensures Token(a) == Token(b) <==> a == b
    ensures Plain(Token(a))
  {
  }

  lemma {:induction false} SortFree(ss: seq<string>, c: char)
    requires FreeOf(ss, c)
    ensures FreeOf(Sort(ss, StrLe), c)
  {
    var t := Sort(ss, StrLe);
    forall i | 0 <= i < |t|
      ensures c !in t[i]
    {
      SortMembers(ss, StrLe, t[i]);
      var k :| 0 <= k < |ss| && ss[k] == t[i];
    }
  }

  /** A list of non-empty strings can be read back from its sorted, separated form, but
      for the order. */
  lemma SortedListIff(ss: seq<string>, tt: seq<string>, c: char)
    requires FreeOf(ss, c) && FreeOf(tt, c)
    requires (forall i :: 0 <= i < |ss| ==> ss[i] != []) && (forall i :: 0 <= i < |tt| ==> tt[i] != [])
    ensures Separated(Sort(ss, StrLe), c) == Separated(Sort(tt, StrLe), c) <==> multiset(ss) == multiset(tt)
  {
    SortStringsIff(ss, tt);
    if Separated(Sort(ss, StrLe), c) == Separated(Sort(tt, StrLe), c) {
      SortFree(ss, c);
      SortFree(tt, c);
      SeparatedNonempty(ss, c);
      SeparatedNonempty(tt, c);
      if ss != [] && tt != [] {
        SeparatedInjective(Sort(ss, StrLe), Sort(tt, StrLe), c);
      }
    }
  }

  lemma SeparatedNonempty(ss: seq<string>, c: char)
    requires forall i :: 0 <= i < |ss| ==> ss[i] != []
    ensures Separated(Sort(ss, StrLe), c) == [] <==> ss == []
  {
    if ss != [] {
      var t := Sort(ss, StrLe);
      SortMembers(ss, StrLe, t[0]);
    }
  }

  lemma BlockerKernel()
    ensures SameKernel((b: BlockerCode) => true, BlockerStr, (b: BlockerCode) => b)
  {
    forall a: BlockerCode, b: BlockerCode
      ensures BlockerStr(a) == BlockerStr(b) <==> a == b
    {
      BlockerCodes(a, b);
    }
  }

  lemma BlockersIff(bs: seq<BlockerCode>, cs: seq<BlockerCode>)
    ensures BlockersToken(bs) == BlockersToken(cs) <==> multiset(bs) == multiset(cs)
  {
    BlockerStrings(bs);
    BlockerStrings(cs);
    SortedListIff(Map(BlockerStr, bs), Map(BlockerStr, cs), ',');
    var id := (b: BlockerCode) => b;
    var every := (b: BlockerCode) => true;
    BlockerKernel();
    assert Map(id, bs) == bs && Map(id, cs) == cs;
    if multiset(Map(BlockerStr, bs)) == multiset(Map(BlockerStr, cs)) {
      MapMultisets(every, BlockerStr, id, bs, cs);
    }
    if multiset(bs) == multiset(cs) {
      MapMultisets(every, id, BlockerStr, bs, cs);
    }
  }

  lemma BlockerStrings(bs: seq<BlockerCode>)
    ensures FreeOf(Map(BlockerStr, bs), ',') && FreeOf(Map(BlockerStr, bs), '\n')
    ensures forall i :: 0 <= i < |bs| ==> Map(BlockerStr, bs)[i] != []
  {
    forall i | 0 <= i < |bs|
      ensures Plain(Map(BlockerStr, bs)[i]) && Map(BlockerStr, bs)[i] != []
    {
      BlockerPlain(bs[i]);
    }
  }

  lemma {:induction false} SeparatedFree(ls: seq<string>, sep: char, c: char)
    requires FreeOf(ls, c) && c != sep
    ensures c !in Separated(ls, sep)
  {
    if |ls| > 1 {
      SeparatedFree(ls[1..], sep, c);
    }
  }

  lemma ObjectsFree(os: seq<ObjectId>)
    ensures FreeOf(os, ',') && FreeOf(os, '|') && FreeOf(os, '\n')
    ensures forall i :: 0 <= i < |os| ==> os[i] != []
  {
    forall i | 0 <= i < |os|
      ensures Plain(os[i]) && os[i] != []
    {
      var o: ObjectId := os[i];
    }
  }

  lemma ObjectsTokenFree(os: seq<ObjectId>, c: char)
    requires c == '|' || c == '\n'
    ensures c !in Separated(Sort<string>(os, StrLe), ',')
  {
    ObjectsFree(os);
    SortFree(os, c);
    SeparatedFree(Sort<string>(os, StrLe), ',', c);
  }

  lemma ReceiptPartsFree(r: Receipt)
    ensures FreeOf(ReceiptParts(r), '|') && FreeOf(ReceiptParts(r), '\n')
  {
    StrategyPlain(r.strategy);
    ObjectTokens(r.destination, r.destination);
    ObjectTokens(r.tree, r.tree);
    ObjectTokens(Some(r.accepted), None);
    ObjectsTokenFree(r.recovery, '|');
    ObjectsTokenFree(r.recovery, '\n');
  }

  lemma ReceiptLong(r: Receipt)
    ensures |Separated(ReceiptParts(r), '|')| > 1
  {
    var p := ReceiptParts(r);
    assert |p[1]| >= 40;
    assert Separated(p, '|') == p[0] + ['|'] + Separated(p[1..], '|');
    assert Separated(p[1..], '|') == p[1] + ['|'] + Separated(p[1..][1..], '|');
  }

  lemma ReceiptIff(a: Option<Receipt>, b: Option<Receipt>)
    ensures ReceiptToken(a) == ReceiptToken(b) <==> CanonRec(a) == CanonRec(b)
  {
    if a.Some? {
      ReceiptLong(a.value);
    }
    if b.Some? {
      ReceiptLong(b.value);
    }
    if a.Some? && b.Some? {
      ReceiptsIff(a.value, b.value);
    }
  }

  lemma ReceiptsIff(a: Receipt, b: Receipt)
    ensures Separated(ReceiptParts(a), '|') == Separated(ReceiptParts(b), '|') <==> CanonRec(Some(a)) == CanonRec(Some(b))
  {
    ReceiptPartsIff(a, b);
    if Separated(ReceiptParts(a), '|') == Separated(ReceiptParts(b), '|') {
      ReceiptPartsFree(a);
      ReceiptPartsFree(b);
      SeparatedInjective(ReceiptParts(a), ReceiptParts(b), '|');
    }
  }

  lemma ReceiptPartsIff(a: Receipt, b: Receipt)
    ensures ReceiptParts(a) == ReceiptParts(b) <==> CanonRec(Some(a)) == CanonRec(Some(b))
  {
    StrategyCodes(a.strategy, b.strategy);
    ObjectTokens(a.destination, b.destination);
    ObjectTokens(a.tree, b.tree);
    ObjectsFree(a.recovery);
    ObjectsFree(b.recovery);
    SortedListIff(a.recovery, b.recovery, ',');
    var p, q := ReceiptParts(a), ReceiptParts(b);
    assert p == q <==> p[0] == q[0] && p[1] == q[1] && p[2] == q[2] && p[3] == q[3] && p[4] == q[4] && p[5] == q[5];
  }

  lemma LocationIff(a: Option<Location>, b: Option<Location>)
    ensures LocationTokens(a) == LocationTokens(b) <==> CanonLoc(a) == CanonLoc(b)
  {
    var p, q := LocationTokens(a), LocationTokens(b);
    assert p == q <==> p[0] == q[0] && p[1] == q[1] && p[2] == q[2];
    if a.Some? {
      ScopePlain(a.value.scope);
    }
    if b.Some? {
      ScopePlain(b.value.scope);
    }
    if a.Some? && b.Some? {
      ScopeCodes(a.value.scope, b.value.scope);
    }
  }

  lemma BitIff(a: bool, b: bool)
    ensures Bit(a) == Bit(b) <==> a == b
  {
  }

  lemma BitsIff(a: seq<bool>, b: seq<bool>)
    requires |a| == |b|
    ensures BitTokens(a) == BitTokens(b) <==> a == b
  {
    forall i | 0 <= i < |a|
      ensures BitTokens(a)[i] == BitTokens(b)[i] <==> a[i] == b[i]
    {
      BitIff(a[i], b[i]);
    }
    assert a == b <==> forall i :: 0 <= i < |a| ==> a[i] == b[i];
    assert BitTokens(a) == BitTokens(b) <==> forall i :: 0 <= i < |a| ==> BitTokens(a)[i] == BitTokens(b)[i];
  }

  lemma ConcatIff(a: seq<string>, b: seq<string>, x: seq<string>, y: seq<string>)
    requires |a| == |b|
    ensures a + x == b + y <==> a == b && x == y
  {
    assert (a + x)[..|a|] == a && (a + x)[|a|..] == x;
    assert (b + y)[..|b|] == b && (b + y)[|b|..] == y;
  }

  lemma SingleIff(a: string, b: string)
    ensures [a] == [b] <==> a == b
  {
    assert [a][0] == a && [b][0] == b;
  }

  lemma IdTokensIff(a: Entry, b: Entry)
    ensures IdTokens(a) == IdTokens(b) <==>
      Token(a.lifecycle) == Token(b.lifecycle) && a.source == b.source && Token(a.graph) == Token(b.graph)
  {
    var p, q := IdTokens(a), IdTokens(b);
    SourceCodes(a.source, b.source);
    assert p == q <==> p[0] == q[0] && p[1] == q[1] && p[2] == q[2];
  }

  lemma StandingTokensIff(a: Entry, b: Entry)
    ensures StandingTokens(a) == StandingTokens(b) <==>
      a.class_ == b.class_ && a.ownership == b.ownership && a.withheld == b.withheld && multiset(a.blockers) == multiset(b.blockers)
  {
    var p, q := StandingTokens(a), StandingTokens(b);
    ClassCodes(a.class_, b.class_);
    OwnershipCodes(a.ownership, b.ownership);
    BitIff(a.withheld, b.withheld);
    BlockersIff(a.blockers, b.blockers);
    assert p == q <==> p[0] == q[0] && p[1] == q[1] && p[2] == q[2] && p[3] == q[3];
  }

  ghost predicate SameTail(a: Candidate, b: Candidate) {
    Dirt(a) == Dirt(b) && a.commit == b.commit && Hazards(a) == Hazards(b) && CanonRec(a.receipt) == CanonRec(b.receipt)
  }

  lemma TailIff(a: Candidate, b: Candidate)
    ensures BitTokens(Dirt(a)) + ([Token(a.commit)] + (BitTokens(Hazards(a)) + [ReceiptToken(a.receipt)])) ==
            BitTokens(Dirt(b)) + ([Token(b.commit)] + (BitTokens(Hazards(b)) + [ReceiptToken(b.receipt)]))
            <==> SameTail(a, b)
  {
    var r, t := [ReceiptToken(a.receipt)], [ReceiptToken(b.receipt)];
    var h, k := BitTokens(Hazards(a)), BitTokens(Hazards(b));
    var c, d := [Token(a.commit)], [Token(b.commit)];
    ReceiptIff(a.receipt, b.receipt);
    SingleIff(ReceiptToken(a.receipt), ReceiptToken(b.receipt));
    ObjectTokens(a.commit, b.commit);
    SingleIff(Token(a.commit), Token(b.commit));
    BitsIff(Hazards(a), Hazards(b));
    BitsIff(Dirt(a), Dirt(b));
    ConcatIff(h, k, r, t);
    ConcatIff(c, d, h + r, k + t);
    ConcatIff(BitTokens(Dirt(a)), BitTokens(Dirt(b)), c + (h + r), d + (k + t));
  }

  /** The values of a block are the canonical candidate, no more and no less. */
  lemma FieldsIff(a: Candidate, b: Candidate)
    ensures Fields(a) == Fields(b) <==> CanonOf(a) == CanonOf(b)
  {
    var d, e := a.inventory, b.inventory;
    var x := BitTokens(Dirt(a)) + ([Token(a.commit)] + (BitTokens(Hazards(a)) + [ReceiptToken(a.receipt)]));
    var y := BitTokens(Dirt(b)) + ([Token(b.commit)] + (BitTokens(Hazards(b)) + [ReceiptToken(b.receipt)]));
    TailIff(a, b);
    IdTokensIff(d, e);
    LocationIff(d.location, e.location);
    StandingTokensIff(d, e);
    EntryPartsIff(d, e, x, y);
  }

  lemma EntryPartsIff(d: Entry, e: Entry, x: seq<string>, y: seq<string>)
    ensures IdTokens(d) + (LocationTokens(d.location) + (StandingTokens(d) + x)) ==
            IdTokens(e) + (LocationTokens(e.location) + (StandingTokens(e) + y)) <==>
      IdTokens(d) == IdTokens(e) && LocationTokens(d.location) == LocationTokens(e.location) &&
      StandingTokens(d) == StandingTokens(e) && x == y
  {
    ConcatIff(StandingTokens(d), StandingTokens(e), x, y);
    ConcatIff(LocationTokens(d.location), LocationTokens(e.location), StandingTokens(d) + x, StandingTokens(e) + y);
    ConcatIff(IdTokens(d), IdTokens(e), LocationTokens(d.location) + (StandingTokens(d) + x),
              LocationTokens(e.location) + (StandingTokens(e) + y));
  }

  lemma KeysFree(i: nat)
    requires i < 24
    ensures '\n' !in KEYS[i]
  {
  }

  lemma TokenFree(e: Entry)
    ensures '\n' !in Token(e.lifecycle) && '\n' !in Token(e.graph)
    ensures forall i :: 0 <= i < 3 ==> '\n' !in LocationTokens(e.location)[i]
  {
    if e.location.Some? {
      ScopePlain(e.location.value.scope);
      var p: RelativePath := e.location.value.path;
    }
  }

  lemma BlockersTokenFree(bs: seq<BlockerCode>)
    ensures '\n' !in BlockersToken(bs)
  {
    BlockerStrings(bs);
    SortFree(Map(BlockerStr, bs), '\n');
    SeparatedFree(Sort(Map(BlockerStr, bs), StrLe), ',', '\n');
  }

  lemma ReceiptTokenFree(r: Option<Receipt>)
    ensures '\n' !in ReceiptToken(r)
  {
    if r.Some? {
      ReceiptPartsFree(r.value);
      SeparatedFree(ReceiptParts(r.value), '|', '\n');
    }
  }

  lemma FreeConcat(a: seq<string>, b: seq<string>, c: char)
    requires FreeOf(a, c) && FreeOf(b, c)
    ensures FreeOf(a + b, c)
  {
  }

  lemma BitsFree(bs: seq<bool>)
    ensures FreeOf(BitTokens(bs), '\n')
  {
    forall i | 0 <= i < |bs|
      ensures '\n' !in BitTokens(bs)[i]
    {
      assert Bit(bs[i]) == (if bs[i] then "1" else "0");
    }
  }

  lemma EntryFree(e: Entry)
    ensures FreeOf(IdTokens(e), '\n') && FreeOf(LocationTokens(e.location), '\n') && FreeOf(StandingTokens(e), '\n')
  {
    TokenFree(e);
    SourcePlain(e.source);
    ClassPlain(e.class_);
    OwnershipPlain(e.ownership);
    BlockersTokenFree(e.blockers);
  }

  lemma FieldsFree(c: Candidate)
    ensures FreeOf(Fields(c), '\n')
  {
    EntryFree(c.inventory);
    BitsFree(Dirt(c));
    BitsFree(Hazards(c));
    ObjectTokens(c.commit, c.commit);
    ReceiptTokenFree(c.receipt);
    var e, h, d := c.inventory, BitTokens(Hazards(c)), BitTokens(Dirt(c));
    var x, t := [ReceiptToken(c.receipt)], [Token(c.commit)];
    FreeConcat(h, x, '\n');
    FreeConcat(t, h + x, '\n');
    FreeConcat(d, t + (h + x), '\n');
    FreeConcat(StandingTokens(e), d + (t + (h + x)), '\n');
    FreeConcat(LocationTokens(e.location), StandingTokens(e) + (d + (t + (h + x))), '\n');
    FreeConcat(IdTokens(e), LocationTokens(e.location) + (StandingTokens(e) + (d + (t + (h + x)))), '\n');
  }

  lemma KeyedFree(fs: seq<string>)
    requires |fs| == 24 && FreeOf(fs, '\n')
    ensures FreeOf(Keyed(fs), '\n')
  {
    forall i | 0 <= i < 24
      ensures '\n' !in Keyed(fs)[i]
    {
      KeysFree(i);
    }
  }

  lemma SamePrefix(p: string, a: string, b: string)
    requires p + a == p + b
    ensures a == b
  {
    assert a == (p + a)[|p|..] && b == (p + b)[|p|..];
  }

  lemma KeyedInjective(fs: seq<string>, gs: seq<string>)
    requires |fs| == |gs| == 24 && Keyed(fs) == Keyed(gs)
    ensures fs == gs
  {
    forall i | 0 <= i < 24
      ensures fs[i] == gs[i]
    {
      assert Keyed(fs)[i] == Keyed(gs)[i];
      SamePrefix(KEYS[i] + "=", fs[i], gs[i]);
    }
  }

  lemma BlockIff(a: Candidate, b: Candidate)
    ensures Block(a) == Block(b) <==> CanonOf(a) == CanonOf(b)
  {
    FieldsIff(a, b);
    if Block(a) == Block(b) {
      FieldsFree(a);
      FieldsFree(b);
      KeyedFree(Fields(a));
      KeyedFree(Fields(b));
      SeparatedInjective(Keyed(Fields(a)), Keyed(Fields(b)), '\n');
      KeyedInjective(Fields(a), Fields(b));
    }
  }

  predicate Every(c: Candidate) {
    true
  }

  lemma BlockKernel()
    ensures SameKernel(Every, Block, CanonOf) && SameKernel(Every, CanonOf, Block)
  {
    forall a: Candidate, b: Candidate
      ensures Block(a) == Block(b) <==> CanonOf(a) == CanonOf(b)
    {
      BlockIff(a, b);
    }
  }

  // ---------------------------------------------------------------- material

  /** `ls` are the 24 lines of the block text `s`. */
  ghost predicate BlockLines(s: string, ls: seq<string>) {
    |ls| == 24 && FreeOf(ls, '\n') && s == Separated(ls, '\n')
  }

  ghost predicate AllBlocks(ss: seq<string>, lss: seq<seq<string>>) {
    |ss| == |lss| && forall i :: 0 <= i < |ss| ==> BlockLines(ss[i], lss[i])
  }

  lemma BlockHasLines(c: Candidate)
    ensures BlockLines(Block(c), Keyed(Fields(c)))
  {
    FieldsFree(c);
    KeyedFree(Fields(c));
  }

  ghost predicate IsBlock(s: string) {
    exists c :: Block(c) == s
  }

  lemma {:induction false} BlocksHaveLines(ss: seq<string>) returns (lss: seq<seq<string>>)
    requires forall i :: 0 <= i < |ss| ==> IsBlock(ss[i])
    ensures AllBlocks(ss, lss)
  {
    if ss == [] {
      lss := [];
    } else {
      assert IsBlock(ss[0]);
      var c :| Block(c) == ss[0];
      BlockHasLines(c);
      var rest := BlocksHaveLines(ss[1..]);
      lss := [Keyed(Fields(c))] + rest;
    }
  }

  lemma {:induction false} BlocksAreLines(ss: seq<string>, lss: seq<seq<string>>)
    requires AllBlocks(ss, lss)
    ensures Terminated(ss, '\n') == Terminated(Flatten(lss), '\n') && FreeOf(Flatten(lss), '\n')
    decreases |ss|
  {
    if ss != [] {
      BlocksAreLines(ss[1..], lss[1..]);
      SeparatedTerminated(lss[0], '\n');
      TerminatedConcat(lss[0], Flatten(lss[1..]), '\n');
      assert BlockLines(ss[0], lss[0]);
    }
  }

  lemma SortedBlocks(cs: seq<Candidate>)
    ensures forall i :: 0 <= i < |cs| ==> IsBlock(Sort(Map(Block, cs), StrLe)[i])
  {
    var t := Sort(Map(Block, cs), StrLe);
    forall i | 0 <= i < |cs|
      ensures IsBlock(t[i])
    {
      SortMembers(Map(Block, cs), StrLe, t[i]);
      var k :| 0 <= k < |cs| && Map(Block, cs)[k] == t[i];
      assert Block(cs[k]) == t[i];
    }
  }

  lemma HeaderFree(f: Facts)
    ensures FreeOf(Header(f), '\n')
  {
    var r: GitRef, i: LifecycleId := f.retainedRef, f.repository;
    ObjectTokens(f.retainedCommit, f.retainedCommit);
  }

  lemma HeaderIff(f: Facts, g: Facts)
    ensures Header(f) == Header(g) <==>
      f.repository == g.repository && f.retainedRef == g.retainedRef && f.retainedCommit == g.retainedCommit
  {
    ObjectTokens(f.retainedCommit, g.retainedCommit);
    if Header(f) == Header(g) {
      assert Header(f)[1] == Header(g)[1] && Header(f)[2] == Header(g)[2] && Header(f)[3] == Header(g)[3];
      SamePrefix("repository=", f.repository, g.repository);
      SamePrefix("retained-ref=", f.retainedRef, g.retainedRef);
      SamePrefix("retained-commit=", Token(f.retainedCommit), Token(g.retainedCommit));
    }
  }

  lemma LinesApart(h: seq<string>, k: seq<string>, x: seq<string>, y: seq<string>)
    requires |h| == |k| && FreeOf(h, '\n') && FreeOf(k, '\n') && FreeOf(x, '\n') && FreeOf(y, '\n')
    requires Terminated(h, '\n') + Terminated(x, '\n') == Terminated(k, '\n') + Terminated(y, '\n')
    ensures h == k && x == y
  {
    TerminatedConcat(h, x, '\n');
    TerminatedConcat(k, y, '\n');
    FreeConcat(h, x, '\n');
    FreeConcat(k, y, '\n');
    TerminatedInjective(h + x, k + y, '\n');
    ConcatIff(h, k, x, y);
  }

  /** Header and blocks of equal material are equal. */
  lemma MaterialParts(h: seq<string>, k: seq<string>, ss: seq<string>, tt: seq<string>, ls: seq<seq<string>>, ms: seq<seq<string>>)
    requires |h| == |k| && FreeOf(h, '\n') && FreeOf(k, '\n') && AllBlocks(ss, ls) && AllBlocks(tt, ms)
    requires Terminated(h, '\n') + Terminated(ss, '\n') == Terminated(k, '\n') + Terminated(tt, '\n')
    ensures h == k && ls == ms
  {
    BlocksAreLines(ss, ls);
    BlocksAreLines(tt, ms);
    LinesApart(h, k, Flatten(ls), Flatten(ms));
    BlockSizes(ss, ls);
    BlockSizes(tt, ms);
    FlattenInjective(ls, ms, 24);
  }

  lemma BlockSizes(ss: seq<string>, ls: seq<seq<string>>)
    requires AllBlocks(ss, ls)
    ensures forall i :: 0 <= i < |ls| ==> |ls[i]| == 24
  {
    forall i | 0 <= i < |ls|
      ensures |ls[i]| == 24
    {
      assert BlockLines(ss[i], ls[i]);
    }
  }

  /** The digest material is equal exactly when the facts are equal up to the order of
      candidates, blockers and recovery objects and up to a `-` id standing for none. */
  lemma MaterialIff(f: Facts, g: Facts)
    ensures Material(f) == Material(g) <==> CanonFactsOf(f) == CanonFactsOf(g)
  {
    BlockKernel();
    HeaderIff(f, g);
    SortStringsIff(Map(Block, f.candidates), Map(Block, g.candidates));
    if CanonFactsOf(f) == CanonFactsOf(g) {
      MapMultisets(Every, CanonOf, Block, f.candidates, g.candidates);
    }
    if Material(f) == Material(g) {
      MaterialInjective(f, g);
      MapMultisets(Every, Block, CanonOf, f.candidates, g.candidates);
    }
  }

  lemma MaterialInjective(f: Facts, g: Facts)
    requires Material(f) == Material(g)
    ensures Header(f) == Header(g)
    ensures Sort(Map(Block, f.candidates), StrLe) == Sort(Map(Block, g.candidates), StrLe)
  {
    var ss, tt := Sort(Map(Block, f.candidates), StrLe), Sort(Map(Block, g.candidates), StrLe);
    HeaderFree(f);
    HeaderFree(g);
    SortedBlocks(f.candidates);
    SortedBlocks(g.candidates);
    var ls := BlocksHaveLines(ss);
    var ms := BlocksHaveLines(tt);
    MaterialParts(Header(f), Header(g), ss, tt, ls, ms);
    forall i | 0 <= i < |ss|
      ensures ss[i] == tt[i]
    {
      assert BlockLines(ss[i], ls[i]) && BlockLines(tt[i], ms[i]);
    }
  }

  // ------------------------------------------- where the encoding is injective

  predicate Hyphen(o: Option<string>) {
    o == Some("-")
  }

  /** No id, graph or alias of the candidate is a lone hyphen. */
  predicate NoHyphen(c: Candidate) {
    var e := c.inventory;
    !Hyphen(e.lifecycle) && !Hyphen(e.graph) && (e.location.Some? ==> !Hyphen(e.location.value.alias))
  }

  function AliasOf(l: Option<Location>): Option<Option<string>> {
    if l.None? then None else Some(l.value.alias)
  }

  /** A candidate up to the order of its blockers and recovery objects, and no more. */
  datatype Exact = Exact(canon: Canon, id: Option<string>, graph: Option<string>, alias: Option<Option<string>>)

  ghost function ExactOf(c: Candidate): Exact {
    var e := c.inventory;
    Exact(CanonOf(c), e.lifecycle, e.graph, AliasOf(e.location))
  }

  ghost predicate SameUpToOrder(f: Facts, g: Facts) {
    && f.repository == g.repository && f.retainedRef == g.retainedRef && f.retainedCommit == g.retainedCommit
    && multiset(Map(ExactOf, f.candidates)) == multiset(Map(ExactOf, g.candidates))
  }

  lemma TokenExact(a: Option<string>, b: Option<string>)
    requires !Hyphen(a) && !Hyphen(b) && Token(a) == Token(b)
    ensures a == b
  {
  }

  lemma ExactIff(a: Candidate, b: Candidate)
    requires NoHyphen(a) && NoHyphen(b)
    ensures CanonOf(a) == CanonOf(b) <==> ExactOf(a) == ExactOf(b)
  {
    var d, e := a.inventory, b.inventory;
    if CanonOf(a) == CanonOf(b) {
      TokenExact(d.lifecycle, e.lifecycle);
      TokenExact(d.graph, e.graph);
      if d.location.Some? && e.location.Some? {
        TokenExact(d.location.value.alias, e.location.value.alias);
      }
    }
  }

  /** Without lone hyphens the material is injective up to the order of candidates, blockers
      and recovery objects. */
  lemma MaterialExact(f: Facts, g: Facts)
    requires All(NoHyphen, f.candidates) && All(NoHyphen, g.candidates)
    ensures Material(f) == Material(g) <==> SameUpToOrder(f, g)
  {
    MaterialIff(f, g);
    forall a: Candidate, b: Candidate | NoHyphen(a) && NoHyphen(b)
      ensures CanonOf(a) == CanonOf(b) <==> ExactOf(a) == ExactOf(b)
    {
      ExactIff(a, b);
    }
    if multiset(Map(CanonOf, f.candidates)) == multiset(Map(CanonOf, g.candidates)) {
      MapMultisets(NoHyphen, CanonOf, ExactOf, f.candidates, g.candidates);
    }
    if multiset(Map(ExactOf, f.candidates)) == multiset(Map(ExactOf, g.candidates)) {
      MapMultisets(NoHyphen, ExactOf, CanonOf, f.candidates, g.candidates);
    }
  }

  function WithLifecycle(c: Candidate, id: Option<LifecycleId>): Candidate {
    c.(inventory := c.inventory.(lifecycle := id))
  }

  lemma HyphenBlock(c: Candidate, d: Candidate)
    requires c.inventory.lifecycle.None? && d == WithLifecycle(c, Some("-"))
    ensures Block(c) == Block(d) && ExactOf(c) != ExactOf(d)
  {
    HyphenCanon(c, d);
    BlockIff(c, d);
    assert ExactOf(c).id != ExactOf(d).id;
  }

  lemma HyphenCanon(c: Candidate, d: Candidate)
    requires c.inventory.lifecycle.None? && d == WithLifecycle(c, Some("-"))
    ensures CanonOf(c) == CanonOf(d)
  {
    SameTokens(c.inventory.lifecycle, d.inventory.lifecycle);
    SameButId(c, d);
  }

  lemma SameTokens(a: Option<string>, b: Option<string>)
    requires a.None? && Hyphen(b)
    ensures Token(a) == Token(b)
  {
  }

  lemma SameButId(c: Candidate, d: Candidate)
    requires d == WithLifecycle(c, d.inventory.lifecycle) && Token(c.inventory.lifecycle) == Token(d.inventory.lifecycle)
    ensures CanonOf(c) == CanonOf(d)
  {
  }

  lemma MapAt<A, B>(f: A -> B, xs: seq<A>, i: nat, x: A)
    requires i < |xs|
    ensures Map(f, xs[i := x]) == Map(f, xs)[i := f(x)]
  {
  }

  /** With one it is not: an absent lifecycle id and the id `-` are encoded alike. */
  lemma HyphenHidesAbsence(f: Facts, i: nat)
    requires i < |f.candidates| && f.candidates[i].inventory.lifecycle.None?
    ensures var g := f.(candidates := f.candidates[i := WithLifecycle(f.candidates[i], Some("-"))]);
            !SameUpToOrder(f, g) && Material(f) == Material(g)
  {
    var cs, d := f.candidates, WithLifecycle(f.candidates[i], Some("-"));
    HyphenBlock(cs[i], d);
    MapAt(Block, cs, i, d);
    MapAt(ExactOf, cs, i, d);
    assert Map(Block, cs)[i := Block(d)] == Map(Block, cs);
    MapUpdate(Map(ExactOf, cs), i, ExactOf(d));
  }

  lemma MapUpdate<T>(x: seq<T>, i: nat, d: T)
    requires i < |x| && x[i] != d
    ensures multiset(x[i := d]) != multiset(x)
  {
    assert multiset(x[i := d])[d] == multiset(x)[d] + 1;
  }

  /** The digest does not see the order of the candidates. */
  lemma MaterialPermutes(f: Facts, g: Facts)
    requires f.(candidates := []) == g.(candidates := []) && multiset(f.candidates) == multiset(g.candidates)
    ensures Material(f) == Material(g)
  {
    MapMultisetsOf(Block, f.candidates, g.candidates);
    SortStringsIff(Map(Block, f.candidates), Map(Block, g.candidates));
  }
}
