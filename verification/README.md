# Meshloop: verified cores

Meshloop drives coding agents over a repository. This project models the parts of it that
carry algorithms or protocols and proves what they promise:

- the **quantized signature index**: hash embedding, in-place Walsh-Hadamard rotation, one- and
  two-bit codes, file ranking and budgeted context selection (`Hadamard`, `Quantizer`,
  `SignatureIndex`, `Ranking`, `Picking`, `ContextSelection`, `SelectionOrder`);
- **evidence redaction**: secret removal and the shortening that keeps diagnostics (`Scrub`,
  `Evidence`, `Redact`, `RedactWitness`, `Utf8`);
- the **cleanup preview**: the digest material and what a bound digest proves (`Encoding`,
  `Cleanup`, `CleanupPolicy`);
- the **transition memory** of telemetry against the unbounded history (`Telemetry`);
- the **attempt registry and capture permits** of the CLI harnesses, as atomic steps between lock
  acquisitions under any interleaving (`Permits`, `Harness`, `Moves`, `Attempts`, `HarnessSafety`,
  `Reservations`, `Capture`);
- the **crash-safe bootstrap** of repository roots (`Workspace`, `RelativePaths`, `Lease`);
- the **skeleton pruners**, their cache, and the **Markdown pruner** (`Signatures`, `Skeleton`,
  `SkeletonPasses`, `PythonSkeleton`, `SkeletonCache`, `Extraction`, `Markdown`,
  `MarkdownPasses`, `MarkdownVerbatim`, `MarkdownVerdict`, `MarkdownText`, `MarkdownSimple`,
  `MarkdownSpine`, `MarkdownWitness`, `MarkdownDocuments`);
- the **bounded source walk** (`Languages`, `Walk`).

`Options`, `Collections`, `Sorting` and `Text` hold what they share. `dafny verify dfyconfig.toml` checks
everything.

## What the proofs found

Some promises do not hold of the code as it stands. For each there is a lemma that shows the
failure and one that says exactly when the promise holds.

- *Redaction twice.* A stored text of at most 2048 bytes can change when it is redacted again:
  clipping a diagnostic line can put a key at the front that was glued to a letter before.
- *Digest binding.* A lone hyphen is a legal lifecycle id, graph id and root alias, and the digest
  writes `-` for an absent one, so two different sets of facts can share their material.
- *Context selection.* Without pins and with a budget for every file the selection is in path
  order, not in ranking order (`SelectionOrder`).
- *Markdown twice.* Even without badges and comments a second pass can change a document. What
  decides is the first line that is pushed again out of turn. If it is an underline, pushed again
  because a sentinel stands below it, or a pruned line below a marker row that ended up on top of
  a table separator, the document changes. If it is a fence delimiter, the second pass takes it
  for an opening one: the document is given back if the fence then stays open over at most two
  lines, and changes if it stays open over more; if a later delimiter closes it, code below has
  become text and text code, and it depends on every turn from there on. The documentation
  promises idempotence without these conditions; the model follows the code. `MarkdownDocuments`
  has a document for every case, a reopened fence both open and closed, and both ways.
- *A durable registry.* The registry of roots is rewritten in place, so a crash in the middle of a
  write can lose roots that were registered long before.
- *Rust, TypeScript and Go skeletons twice.* A signature line without its brace swallows the next
  kept line on every pass.

## How it is modelled

- Real arithmetic stands for `f32`; the reciprocal square root and the token hash are parameters.
  Everything about the index holds for every hash.
- Hash functions (`fnv1a64`, `sha256`) are parameters; results about digests name the collision
  they would need.
- Redaction works on bytes, written as characters below 256, with an explicit UTF-8 predicate.
  The pruners work on Unicode characters; where the code uses byte lengths, the model adds up the
  UTF-8 widths.
- Harness: one step is what a thread does between two lock acquisitions, or unlocked in between.
  Tokens carry explicit reference counts that each clone and drop changes; the counter is changed
  only by a reservation and by the last drop. What the operating system answers (spawning, exit
  status, reader results, timeouts) is an argument of the step.
- Workspace: a step is one effect or one group of checks. A crash is possible before every step and
  inside every write of the registry, which then holds the old text, the new one, or neither.
  Anyone may change the directories at any time.
- A directory tree is a finite map; the order in which it is read is an argument of the walk.

## Model

| member | source | states |
|---|---|---|
| `Hadamard.Butterflies` | crates/meshloop-context/src/quant.rs:367-380 | the in-place doubling loops compute the recursive Hadamard transform, for every power-of-two length |
| `Hadamard.ButterflyStage` | crates/meshloop-context/src/quant.rs:370-378 | one stage turns blocks of `h` transformed coordinates into blocks of `2h` |
| `Hadamard.ButterflyBlock` | crates/meshloop-context/src/quant.rs:371-376 | one block: sums in the first half, differences in the second, everything else untouched |
| `Hadamard.TransformTwice` | crates/meshloop-context/src/quant.rs:520-533 | the recursive transform applied twice multiplies every coordinate by the length |
| `Hadamard.TransformInner` | crates/meshloop-context/src/quant.rs:367-386 | the transform multiplies every inner product by the length |
| `Quantizer.Fwht` | crates/meshloop-context/src/quant.rs:367-386 | the whole in-place transform is the normalised rotation of the array it is given |
| `Quantizer.RotatedTwice` | crates/meshloop-context/src/quant.rs:520-533 | the rotation is its own inverse |
| `Quantizer.RotatedDot` | crates/meshloop-context/src/quant.rs:367-386 | the rotation keeps every inner product, hence every norm |
| `Quantizer.EmbeddingNeverCancels` | crates/meshloop-context/src/quant.rs:338-347 | for every hash the L1 norm of the embedding is the number of tokens: the sign bit is the parity of the bucket, so tokens never cancel |
| `Quantizer.Embed` | crates/meshloop-context/src/quant.rs:338-347 | the accumulation loop gives the embedding of the tokens |
| `Quantizer.L2Normalize` | crates/meshloop-context/src/quant.rs:388-400 | division by the norm, or the vector itself when it is zero |
| `Quantizer.UnitLength` | crates/meshloop-context/src/quant.rs:402-406 | a text with at least one token rotates to a vector of length one |
| `Quantizer.RotateUnit` | crates/meshloop-context/src/quant.rs:402-406 | the method computes that vector |
| `Quantizer.StoredReads` | crates/meshloop-context/src/quant.rs:408-437 | a level or-ed into its byte is read back, and no other coordinate changes, in both widths |
| `Quantizer.Pack` | crates/meshloop-context/src/quant.rs:408-430 | unpacking the packed bytes gives back the level of every coordinate |
| `Quantizer.Quantize` | crates/meshloop-context/src/quant.rs:408-437 | the code unpacks to the levels and its scale is the reciprocal of the inner product with the reconstruction |
| `Quantizer.ScoreQuery` | crates/meshloop-context/src/quant.rs:451-470 | the score is the rescaled inner product of the query with the unpacked centroids |
| `Quantizer.UnitScoresOne` | crates/meshloop-context/src/quant.rs:408-470 | a unit vector scores exactly 1 against its own code in both widths; the inner product is at least 0.4528/8, so the fallback scale is never taken, and the one-bit scale lies in [1, 8] |
| `Quantizer.SelfScore` | crates/meshloop-context/src/quant.rs:320-347 | end to end: every text with a token scores exactly 1 against itself, every text without one scores 0, whatever the hash |
| `SignatureIndex.Index.AddSignature` | crates/meshloop-context/src/quant.rs:112-120 | one entry is appended; no code already there is rewritten |
| `SignatureIndex.Index.AddSkeleton` | crates/meshloop-context/src/quant.rs:122-138 | every declaration and the file itself are appended, in order |
| `SignatureIndex.Index.Scores` | crates/meshloop-context/src/quant.rs:156-196 | every entry is scored with the rotated query, in insertion order |
| `Ranking.StableHits` | crates/meshloop-context/src/quant.rs:156-196 | sorting by the comparator leaves hits in the order (exact name, score, insertion) |
| `Ranking.Search` | crates/meshloop-context/src/quant.rs:156-196 | the result is in that order, carries true scores, and no omitted entry outranks a returned one |
| `Ranking.RankFiles` | crates/meshloop-context/src/quant.rs:197-240 | the first `k` of a complete ranking: best score and exact flag of each path, sorted by (exact name, score, path) |
| `Ranking.RankingUnique` | crates/meshloop-context/src/quant.rs:197-240 | there is only one such ranking, so no iteration order of the hash map shows in the result |
| `Ranking.BestPerPath` | crates/meshloop-context/src/quant.rs:203-217 | the map holds the best score and exact flag of every path seen |
| `Picking.EnoughRanked` | crates/meshloop-context/src/quant.rs:286-301 | asking the ranking for `remaining + used` files loses nothing: the cut selection equals the one from the full ranking |
| `Picking.EveryItemOnce` | crates/meshloop-context/src/quant.rs:245-302 | pinned files and fresh ranked files together are all files, each once |
| `ContextSelection.SelectContext` | crates/meshloop-context/src/quant.rs:245-302 | pinned paths in path order, then exactly the best unpinned files in full ranking order, cut to the budget; without pins and with room for everything, all files in path order; with distinct paths, exactly `min(budget, n)` entries of the input, no path twice |
| `ContextSelection.SelectionDistinct` | crates/meshloop-context/src/quant.rs:245-302 | every selection from distinct paths has `min(budget, n)` entries, all of them entries of the input, with distinct paths |
| `SelectionOrder.RankingOrderIff` | crates/meshloop-context/src/quant.rs:245-302 | a selection is the pins, then the files in ranking order, if and only if pins are given, or not every file fits, or path order is ranking order |
| `SelectionOrder.RankingOrder` | crates/meshloop-context/src/quant.rs:245-302 | with pins, or with more files than the budget, a selection always is the pins, then the files in ranking order |
| `SelectionOrder.RankingIgnored` | crates/meshloop-context/src/quant.rs:280-284 | a query that names the second of two files, with room for both and no pins: the ranking starts with that file, the selection with the other, for every hash |
| `SelectionOrder.RankedUnique` | crates/meshloop-context/src/quant.rs:197-240 | a query has only one ranking of the skeletons, whatever codes the packing may choose |
| `Scrub.ReplaceAddsNothing` | crates/meshloop-adapters/src/redact.rs:20-38 | replacing one secret never makes a pattern appear that was not there |
| `Scrub.LiteralGone` | crates/meshloop-adapters/src/redact.rs:20-38 | after its replacement a literal marker does not occur |
| `Scrub.KeysGone` | crates/meshloop-adapters/src/redact.rs:40-75 | after the key replacement no position starts a key, so it is a fixed point |
| `Scrub.LiteralKeepsKeyFree` | crates/meshloop-adapters/src/redact.rs:20-38 | the literal replacements do not bring keys back |
| `Redact.SkKeyEnd` | crates/meshloop-adapters/src/redact.rs:60-75 | the counting loop finds the end of the maximal key, or none |
| `Redact.RedactSkKeys` | crates/meshloop-adapters/src/redact.rs:40-58 | the byte loop is the leftmost, non-overlapping key replacement |
| `Redact.Redact` | crates/meshloop-adapters/src/redact.rs:20-38 | the pattern loop and the shortening, as one function of the input |
| `Redact.CleanFree` | crates/meshloop-adapters/src/redact.rs:20-38 | before shortening no literal marker and no key is left, whatever the input |
| `Redact.RedactedMarkerFree` | crates/meshloop-adapters/src/redact.rs:20-38 | no output holds any of the four literal markers, shortened or not |
| `Redact.RedactedBounded` | crates/meshloop-adapters/src/redact.rs:79-104 | every output has at most 2051 bytes and is valid UTF-8 again, so every cut is on a character boundary |
| `Redact.RedactedIdempotentIff` | crates/meshloop-adapters/src/redact.rs:20-38 | an output of at most 2048 bytes is a fixed point if and only if the cleaned text was not over-long, or its last diagnostic line fits, or has its needle further from the end than the clip is long, or the clip does not start right at a key |
| `Redact.ClipKeyIff` | crates/meshloop-adapters/src/redact.rs:151-171 | a clip starts with a key exactly when it is the end of the line and starts there: at a needle none can start |
| `RedactWitness.RedactedNotIdempotent` | crates/meshloop-adapters/src/redact.rs:151-171 | a concrete text, valid UTF-8, whose stored form has exactly 2048 bytes and changes when redacted again |
| `Redact.RedactedKeepsDiagnostics` | crates/meshloop-adapters/src/redact.rs:79-188 | an over-long text with a diagnostic line is stored with the longest fitting run of its last diagnostic lines in front, or with a clip of the last one that still holds its first needle |
| `Evidence.ClipKeepsNeedle` | crates/meshloop-adapters/src/redact.rs:151-171 | the clip of a long diagnostic line contains the leftmost needle of the line |
| `Evidence.DiagnosticSection` | crates/meshloop-adapters/src/redact.rs:123-149 | the backward loop keeps the longest run of last lines that fits, in original order |
| `Evidence.ShrinkLength` | crates/meshloop-adapters/src/redact.rs:79-104 | the shortened text is within the bound and falls short of it only by bytes lost to character boundaries |
| `Evidence.ShrinkEvidence` | crates/meshloop-adapters/src/redact.rs:79-104 | the method computes diagnostics, marker and tail |
| `Cleanup.BlockIff` | crates/meshloop-domain/src/cleanup.rs:241-283 | two candidate blocks are equal exactly when the candidates agree up to the order of blockers and recovery objects and up to a `-` id standing for none |
| `Cleanup.ReceiptIff` | crates/meshloop-domain/src/cleanup.rs:284-303 | the same for receipts |
| `Cleanup.MaterialIff` | crates/meshloop-domain/src/cleanup.rs:221-240 | the digest material is equal exactly when the facts agree up to these and the order of candidates |
| `Cleanup.MaterialExact` | crates/meshloop-domain/src/cleanup.rs:221-283 | without lone-hyphen ids the material is injective up to the order of candidates, blockers and recovery objects |
| `Cleanup.HyphenHidesAbsence` | crates/meshloop-domain/src/cleanup.rs:305-311 | with one it is not: replacing an absent lifecycle id by `-` changes the facts and not the material |
| `Cleanup.MaterialPermutes` | crates/meshloop-domain/src/cleanup.rs:221-240 | the material does not depend on the order of the candidates |
| `CleanupPolicy.ReasonsFor` | crates/meshloop-domain/src/cleanup.rs:144-179 | exactly the reasons that apply, each once, sorted by their codes |
| `CleanupPolicy.ReasonsUnique` | crates/meshloop-domain/src/cleanup.rs:144-179 | that contract leaves only one list |
| `CleanupPolicy.DigestText` | crates/meshloop-domain/src/cleanup.rs:221-240 | the block loop builds the material |
| `CleanupPolicy.Judge` | crates/meshloop-domain/src/cleanup.rs:111-142 | one verdict per candidate in block order; eligible exactly without reasons; stale exactly when the bound digest differs |
| `CleanupPolicy.EligibleMeansUnchanged` | crates/meshloop-domain/src/cleanup.rs:111-142 | a candidate eligible under the digest of earlier facts means that the facts are unchanged, or that the hash collides on the two texts |
| `CleanupPolicy.ChangeBlocksAll` | crates/meshloop-domain/src/cleanup.rs:111-142 | without a collision, every candidate is blocked as stale exactly when the facts changed |
| `CleanupPolicy.VerdictsAgree` | crates/meshloop-domain/src/cleanup.rs:111-179 | facts with one material get the same reasons and verdicts, place by place |
| `Telemetry.Transitions.Observe` | crates/meshloop-adapters/src/telemetry.rs:284-322 | keeps the memory equal to the bounded replay of the history; a reported dwell is the one the full history gives, and it is reported whenever fewer than 128 other keys came since |
| `Telemetry.Transitions.ClearGraph` | crates/meshloop-adapters/src/telemetry.rs:281-283 | forgets the graph and nothing else |
| `Telemetry.MemoryTruth` | crates/meshloop-adapters/src/telemetry.rs:280-323 | without its bound the memory says of every key what the whole history says |
| `Telemetry.MemoryBounded` | crates/meshloop-adapters/src/telemetry.rs:271-323 | for every history: at most 128 entries, unique keys, every entry true, and a lost key has at least 128 distinct other keys validly observed after it |
| `Telemetry.DwellTrue` | crates/meshloop-adapters/src/telemetry.rs:347-358 | the dwell computed from the memory is the true gap to the preceding observation of that key, or none |
| `Permits.DropSound` | crates/meshloop-adapters/src/harness.rs:165-169 | dropping a reference keeps every count true and gives the counter back exactly with the last one |
| `Permits.ReadersBounded` | crates/meshloop-adapters/src/harness.rs:143-169 | at most two readers run for every permit |
| `Harness.FrameInv` | crates/meshloop-adapters/src/harness.rs:288-347 | a change to some threads, slots and one token that is right for them keeps the invariant of everything |
| `Attempts.Reserve` | crates/meshloop-adapters/src/harness.rs:152-164 | below 16 tokens in use the thread gets a new one, at the bound nothing changes |
| `Attempts.Insert` | crates/meshloop-adapters/src/harness.rs:490-502 | the first lock of an invocation puts the token into a vacant key, or ends the thread at an occupied one |
| `Attempts.LaunchEffect` | crates/meshloop-adapters/src/harness.rs:503-538 | exactly the readers that start hold references; only a complete launch makes an attempt, of this token, with its thread; the registry is untouched |
| `Attempts.Settle` | crates/meshloop-adapters/src/harness.rs:562-578 | the attempt enters the slot only while its own token reserves it, and is released otherwise |
| `Attempts.SettleEffect` | crates/meshloop-adapters/src/harness.rs:562-578 | the owner ends and no other attempt moves |
| `Attempts.Abort` | crates/meshloop-adapters/src/harness.rs:541-549 | a failed launch removes its own reservation only |
| `Attempts.Take` | crates/meshloop-adapters/src/harness.rs:309-330 | for a matching handle the attempt is with the thread, its token still reserves the slot, and the thread holds one more reference to it; otherwise nothing changes |
| `Attempts.CancelOwned` | crates/meshloop-adapters/src/harness.rs:355-391 | the attempt is marked cancelled; one effect is counted exactly when it signals, and none after an earlier one |
| `Attempts.Cancel` | crates/meshloop-adapters/src/harness.rs:606-625 | the slot is gone, an attempt in it is on its way out with the thread, and every other slot is as it was |
| `Attempts.TryCollect` | crates/meshloop-adapters/src/harness.rs:627-706 | the attempt leaves with its final result exactly on failure, exit with finished readers, or timeout; otherwise only its exit status is noted |
| `Attempts.Run` | crates/meshloop-adapters/src/harness.rs:309-706 | the invariant holds after every interleaving of the steps of any number of threads and harnesses |
| `HarnessSafety.PermitsExact` | crates/meshloop-adapters/src/harness.rs:143-169 | after every run the counter equals the number of tokens some slot, thread, attempt or reader refers to, is at most 16, and at most 32 readers run |
| `HarnessSafety.ExactlyOnePlace` | crates/meshloop-adapters/src/harness.rs:309-347 | after every run a spawned attempt that was not released is in exactly one place |
| `HarnessSafety.AtMostOnce` | crates/meshloop-adapters/src/harness.rs:355-391 | after every run each token has at most one cancellation effect and at most one final result, and none while its attempt is still held |
| `Reservations.LostForever` | crates/meshloop-adapters/src/harness.rs:309-347 | a token whose reservation was removed or replaced is in no slot after any further steps of any threads |
| `Reservations.CancelledNeverReturns` | crates/meshloop-adapters/src/harness.rs:606-625 | after any run, a cancelled reservation is lost: in every continuation its attempt is in no slot, even where an owner had it in hand |
| `Reservations.ReservationStays` | crates/meshloop-adapters/src/harness.rs:331-347 | while no call removes its slot, a reservation with an attempt stays through every continuation, whoever concludes, fails, takes or collects elsewhere |
| `Reservations.TakenIsPutBack` | crates/meshloop-adapters/src/harness.rs:309-347 | an attempt taken for cancellation is, in every continuation that does not remove its slot, back in that slot or with an owner that still has it |
| `Reservations.OwnsOrLost` | crates/meshloop-adapters/src/harness.rs:331-347 | after every run an owner has its slot, empty and reserved by its token, or has lost it for good |
| `Reservations.OwnerConcludes` | crates/meshloop-adapters/src/harness.rs:331-347 | after every run an owner that concludes puts its attempt back as it is, unless its reservation was lost: then the registry stays and the attempt is released |
| `Reservations.RunClaims` | crates/meshloop-adapters/src/harness.rs:288-347 | after every run no token is in two slots, and an owner's token is in no slot but its own |
| `HarnessSafety.ReleasedForever` | crates/meshloop-adapters/src/harness.rs:309-706 | once released and without an owner, no later step brings an attempt back |
| `HarnessSafety.LeftForGood` | crates/meshloop-adapters/src/harness.rs:606-706 | an attempt that left the registry is, once dropped, nowhere in every continuation, has no owner, and no second effect or result |
| `Capture.ReadStream` | crates/meshloop-adapters/src/harness.rs:204-235 | the reader stops at the first read that is not more bytes within 4 MiB, reports what that read decides, and never buffers more |
| `Capture.ReportUnique` | crates/meshloop-adapters/src/harness.rs:204-235 | the reads leave no choice of where it stops and what it reports |
| `Workspace.StepInv` | crates/meshloop-adapters/src/workspace.rs:301-344 | every step of the root calls, crashes and foreign changes included, keeps the invariant |
| `Workspace.IntentFirst` | crates/meshloop-adapters/src/workspace.rs:568-599 | a directory is made only where nothing is, and only after its intent is durable |
| `Workspace.AlwaysHonest` | crates/meshloop-adapters/src/workspace.rs:528-602 | in every run the registry, as it can be read back, holds the intent of every directory ever made, and no root with an intent that one call did not build completely |
| `Workspace.RunGrows` | crates/meshloop-adapters/src/workspace.rs:256-272 | over every run, crashes included, what can be read back of roots and intents only grows and keeps its identity, and a torn registry stays torn |
| `Workspace.TornIff` | crates/meshloop-adapters/src/workspace.rs:256-265 | over every run the registry stays readable if and only if no write of it was broken off in the middle, by a crash or a failure |
| `Workspace.RootsLost` | crates/meshloop-adapters/src/workspace.rs:256-265 | a concrete run: one root is registered and durable, a crash while the next one is written leaves a registry that cannot be read |
| `Workspace.OnlyTheBuilderRegisters` | crates/meshloop-adapters/src/workspace.rs:301-344 | an alias with an intent gets its root only from the bootstrap call that made every missing component |
| `Lease.PartialTreeRefused` | crates/meshloop-adapters/src/workspace.rs:568-579 | with a stored intent whose first component already exists no bootstrap of that alias can succeed |
| `Lease.NearestAncestor` | crates/meshloop-adapters/src/workspace.rs:536-553 | the loop finds the deepest prefix of the path that exists |
| `Lease.RepositoryLease.BootstrapRoot` | crates/meshloop-adapters/src/workspace.rs:528-602 | run alone, the call is a run of its own steps of the machine; it succeeds exactly for a known alias that is confirmed, or when nothing is at the path, the missing part is a legal relative path below directories, and a stored intent is the computed one; then the directories gained exactly the missing part of the path, and the root has its path and identity; otherwise nothing changed |
| `Lease.RepositoryLease.BootstrapNew` | crates/meshloop-adapters/src/workspace.rs:536-602 | the same for a new alias, with its intent stored |
| `Lease.RepositoryLease.RegisterRoot` | crates/meshloop-adapters/src/workspace.rs:301-312 | succeeds exactly when the registry validates, the path is all directories, and the alias is new without an intent or confirmed; a new alias gets its root, everything else stays |
| `Lease.RepositoryLease.RegisterCreated` | crates/meshloop-adapters/src/workspace.rs:313-344 | a new alias gets the identity found at the path; a known one changes nothing, and succeeds exactly when that identity is the stored one and the stored path still has it |
| `Lease.RepositoryLease.MakeComponents` | crates/meshloop-adapters/src/workspace.rs:584-599 | the loop makes the missing components one by one, stops at the first that its rechecks refuse, and makes all of them below a ready parent |
| `Lease.RepositoryLease.MakeComponent` | crates/meshloop-adapters/src/workspace.rs:585-598 | one component is made exactly when the pinned parent has its identity, all above are directories, and nothing is there |
| `Lease.RepositoryLease.SettleIntent` | crates/meshloop-adapters/src/workspace.rs:563-580 | a stored intent must be the computed one; without one the target must be missing, and the intent is durable before any effect |
| `Skeleton.CountBraces` | crates/meshloop-context/src/skeleton.rs:108-114 | the character loop adds the net brace count of the text |
| `Skeleton.PruneLine` | crates/meshloop-context/src/skeleton.rs:105-161 | one turn of the brace pruners, on their four variables |
| `Skeleton.PruneLoop` | crates/meshloop-context/src/skeleton.rs:97-163 | the loop over the lines |
| `Skeleton.Accounting` | crates/meshloop-context/src/skeleton.rs:97-236 | for the six brace languages the net braces of the source are those of the skeleton, plus those lost, plus those of a body that never closes |
| `Skeleton.Conservation` | crates/meshloop-context/src/skeleton.rs:283-696 | if bodies close exactly and the text before an awaited brace and expression bodies are balanced, the skeleton has the net brace count of the source |
| `SkeletonPasses.IdempotentIff` | crates/meshloop-context/src/skeleton.rs:97-163 | a second pass over the lines changes nothing if and only if no bare signature outside a body is followed by a kept line; otherwise lines are lost |
| `SkeletonPasses.IdempotentWaiting` | crates/meshloop-context/src/skeleton.rs:348-696 | C#, PHP and C++ skeletons are always fixed points |
| `SkeletonPasses.IdempotentComplete` | crates/meshloop-context/src/skeleton.rs:169-236 | Rust, TypeScript and Go skeletons are when every signature line carries its brace |
| `SkeletonPasses.BareSwallows` | crates/meshloop-context/src/skeleton.rs:283-342 | a Go signature without its brace makes the second pass drop a line |
| `SkeletonPasses.BareGoChanges` | crates/meshloop-context/src/skeleton.rs:283-342 | a concrete one: `func a()` and two blank lines |
| `PythonSkeleton.PruneLoop` | crates/meshloop-context/src/skeleton.rs:242-277 | the indentation loop |
| `PythonSkeleton.Idempotent` | crates/meshloop-context/src/skeleton.rs:242-277 | Python skeletons are always fixed points |
| `Extraction.EstimateTokens` | crates/meshloop-context/src/skeleton.rs:59-61 | bytes divided by four, rounded up |
| `Extraction.Extract` | crates/meshloop-context/src/skeleton.rs:64-91 | the extractor over all languages, with its line and token counts |
| `Extraction.CachedExtraction` | crates/meshloop-context/src/skeleton_cache.rs:37-76 | the cache in front of this extractor is invisible exactly when no two sources are confused |
| `SkeletonCache.Cache.GetOrExtract` | crates/meshloop-context/src/skeleton_cache.rs:37-76 | the answer of the replayed cache; the fresh extraction unless an earlier call is confused with this one; hits, misses and stale hits add up to the calls |
| `SkeletonCache.TransparentIff` | crates/meshloop-context/src/skeleton_cache.rs:37-76 | over all runs the cache is invisible if and only if no two sources of a language share hash, byte length and first 64 characters but not the extraction |
| `SkeletonCache.ReplyFresh` | crates/meshloop-context/src/skeleton_cache.rs:45-62 | per run: without such an earlier call the answer is the fresh extraction |
| `SkeletonCache.ShortNeverConfused` | crates/meshloop-context/src/skeleton_cache.rs:45-62 | sources of at most 64 characters are never confused |
| `SkeletonCache.CountsAddUp` | crates/meshloop-context/src/skeleton_cache.rs:24-29 | every call is counted exactly once |
| `Markdown.PruneLoop` | crates/meshloop-context/src/doc_skeleton.rs:121-330 | the loop over the lines and the removal of trailing blanks |
| `MarkdownText.Prune` | crates/meshloop-context/src/doc_skeleton.rs:98-330 | from document to document |
| `MarkdownText.ReaderLawful` | crates/meshloop-context/src/doc_skeleton.rs:48-91 | what the line classifiers exclude: a separator is no fence, rule, comment, heading or underline; the markers are read back as such |
| `MarkdownVerdict.VerdictRight` | crates/meshloop-context/src/doc_skeleton.rs:121-318 | from related states the second pass, followed line by line, does what the verdict of the first says: it gives everything back, or not, or reopens a fence at the line named |
| `MarkdownVerdict.ReopenedIff` | crates/meshloop-context/src/doc_skeleton.rs:136-170 | under a reopened fence the lines are given back exactly when it stays open over at most two, or is closed by an unindented delimiter within two lines, or after two lines and one stub, and every turn below keeps its line or brings back the one before |
| `MarkdownVerbatim.VerbatimIff` | crates/meshloop-context/src/doc_skeleton.rs:121-318 | from every state a pass comes to: it gives its lines back if and only if, turn by turn, only blank lines are left, or the line is kept as it is, or it is left out and the next turn brings both back; comments and badges included |
| `MarkdownVerdict.UnderlinePushed` | crates/meshloop-context/src/doc_skeleton.rs:232-243 | an underline pushed again is never caught up with: the second pass always differs |
| `MarkdownVerdict.IdempotentIff` | crates/meshloop-context/src/doc_skeleton.rs:456-476 | on every line sequence without badges and comments a second pass changes nothing if and only if the verdict of the first says so |
| `MarkdownText.PruneMarkdownIdempotentIff` | crates/meshloop-context/src/doc_skeleton.rs:98-330 | the same for whole documents, those with a fence or underline pushed again included |
| `MarkdownText.AnyDocumentIdempotentIff` | crates/meshloop-context/src/doc_skeleton.rs:98-330 | with badges and comments too: the skeleton is a fixed point if and only if every turn of a pass over it keeps its line or brings back the one before |
| `MarkdownSimple.SimpleDocumentFixed` | crates/meshloop-context/src/doc_skeleton.rs:98-330 | a document without underlines, badges and comments outside fences and front matter is a fixed point; fences and front matter are followed by a scanner of their own |
| `MarkdownSimple.TameDocumentFixed` | crates/meshloop-context/src/doc_skeleton.rs:98-330 | badges and comments do no harm after the first text where they follow a line that is not blank and no table separator is right below, or follow a blank one and no blank line is right below; without underlines such a document is a fixed point |
| `MarkdownSpine.DocumentStructurePreserved` | crates/meshloop-context/src/doc_skeleton.rs:1-11 | every heading, underline, fence delimiter, front matter line, table head and separator, callout and metadata line of a document can be read off its skeleton, in the order of the document |
| `MarkdownSpine.StructurePreserved` | crates/meshloop-context/src/doc_skeleton.rs:1-11 | the same of lines, for every reader |
| `MarkdownDocuments.BadgeDocument` | crates/meshloop-context/src/doc_skeleton.rs:195-218 | `p`, a blank, a badge, a blank, `q`: pruning again gives another text |
| `MarkdownDocuments.TableDocument` | crates/meshloop-context/src/doc_skeleton.rs:233-273 | two lines of prose, a table row, a line, a separator, a line and its underline: a document without comments that pruning again changes |
| `MarkdownDocuments.UnderlineDocument` | crates/meshloop-context/src/doc_skeleton.rs:209-243 | `===`, the sentinel, `===`: the underline is pushed again in every pass |
| `MarkdownDocuments.FenceDocuments` | crates/meshloop-context/src/doc_skeleton.rs:232-243 | a closing fence pushed again below the sentinel: with an underline alone under it the document is a fixed point, with two more lines it is not |
| `MarkdownDocuments.ClosedFenceDocuments` | crates/meshloop-context/src/doc_skeleton.rs:136-170 | the same with a delimiter below that closes the reopened fence: with nothing under it a fixed point, with two lines under it not |
| `Walk.WalkSources` | crates/meshloop-cli/src/context_tools.rs:110-149 | for every order in which directories are read: the recursive pre-order cut to 20,000 files, and `truncated` exactly when it is longer |
| `Walk.Scan` | crates/meshloop-cli/src/context_tools.rs:123-144 | one directory: files until the bound, folders collected |
| `Walk.InPreorder` | crates/meshloop-cli/src/context_tools.rs:108-149 | a file is listed exactly when it is reached through readable folders that are not skipped and has a known language |
| `Walk.PreorderDistinct` | crates/meshloop-cli/src/context_tools.rs:110-149 | no file is listed twice |

## Left out

- Rounding, NaN and infinities of `f32`, and the implementation of the square root.
- SignatureIndex.Index.AddSkeleton: the declarations of a skeleton are an argument; `extract_signatures` and the kind of a signature are not modelled.
- Attempts.Do: the harness operations are functions from state to state rather than methods on shared objects, so that steps of several threads can interleave; mutex poisoning, process handles and signals are not modelled.
- Attempts.LaunchEffect: the launch of child, readers and prompt is one step; `session_live`, `probe` results and argument rendering are not modelled.
- Workspace.Do: acquisition of the lease checks only that the registry is readable, and paths are taken to be canonical.
- Lease.RepositoryLease.BootstrapRoot: the method runs alone; crashes, write failures and foreign changes in the middle of a call are steps of `Workspace` only, so that its all-or-nothing effect is that of an undisturbed call.
- Workspace.StepInv: size limits of the registry appear only as a refusal that may happen at any time.
- Redact.RedactedIdempotentIff: says nothing about outputs of 2049 to 2051 bytes, which are shortened again.
- Redact.RedactedBounded: requires the cleaned text to be shorter than 2^64 bytes, as every machine string is.
- SkeletonPasses.IdempotentIff: is about line sequences; on text, joining drops the line feed after a trailing blank line, so a skeleton that ends in one loses it in the next pass.
- MarkdownText.PruneMarkdownIdempotentIff: documents with badges or comments other than the sentinel are outside its premise; `MarkdownDocuments.BadgeDocument` shows one that changes, and `MarkdownText.AnyDocumentIdempotentIff` decides them by their skeleton.
- MarkdownSpine.DocumentStructurePreserved: which lines carry structure is decided by the state of the pruner (inside a fence, in front matter), and documents with a byte order mark inside them are outside its premise.
- Skeleton.PruneLoop: brace depths are unbounded integers; the code uses 32-bit ones.
- Walk.WalkSources: directory entries that cannot be read are taken to be absent, and names are valid Unicode.
- Telemetry.Transitions.Observe: durations stay whole seconds instead of becoming `f64`.
- Cleanup.MaterialIff: of the relative path grammar only "not empty, no control characters" is used.
- The engine (run loop, recovery, router, task graph, convergence), the SQLite store, git and delivery wrappers, the CLI, bundling, MCP and telemetry export: wrappers, plumbing or code without an algorithm of its own.
