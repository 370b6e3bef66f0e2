# Threshold: a verified model of the grant authority and its neighbours

Threshold is a local node that hands a robot or a person a scoped view of a dwelling's
*housefile* under a *grant*, and records every disclosure. This project models its three
hard parts in Dafny 4.11 and proves what they promise.

**The crash-recoverable grant authority.** Grant state lives in two files: a private
envelope, replaced atomically, and an append-only JSONL ledger. Any number of authority
instances share them through one advisory lock, each with a cache that may be stale. A
transition prepares its receipt line against an exact ledger checkpoint, saves a pending
envelope, appends the receipt (the commit point) and saves a final envelope that witnesses
the receipt; reloading aborts, rolls forward or finalizes whatever a crash left.

* `Bytes`, `Text`, `Outcomes`, `Json`, `Entries`: byte strings, canonical JSON, entries.
* `Ledger`, `LedgerRead`: the ledger file and the bounded scans over it.
* `House`, `Grants`: the housefile, grants, decisions and the grant manager.
* `Order`, `Records`, `StoreSize`: sorted ids, and the stored records with the byte size of
  their encoding, proved against the encoding itself.
* `AtomicLog`: the one-step machine everything is compared with, and what its logs say.
* `Envelopes`: what may be stored, why it can be trusted, and the envelope file. `StopRoom`:
  the room an emergency stop needs there.
* `Protocol`: the step machine of both files and the lock. Each durable action may succeed,
  fail with the old state, fail with the new state or (for an append) tear; a crash may
  come between any two steps, inside recovery too. The refinement proof is here.
* `Recovery`: convergence, exactly when recovery can complete, and a run after which it
  cannot.
* `Directory`: the two files as objects, with a ghost trace that ties each call to one step
  of the machine. `Authority`: the class that runs the protocol over them.
* `Interlock`, `Node`: the stop interlock and the serving process built on the authority.

**Housefile materialization.** `Revision`, `HousefileStore`, `Geometry`, `Materialize`: the
revision counter, the replace that restores exact old bytes, the geometry builder and
parser, and the compare-and-swap that joins them.

**Three smaller cores.** `ScopedView` (the view against the command gate), `Decision` (the
write-once owner decision under racing writers), `Jpeg` (the marker walk, after ITU-T T.81
sections B.1.1 and B.2.2).

How the world is modelled:

* SHA-256 is a free constructor, so equal digests mean equal inputs; the snapshot digest is
  one over the snapshot. Canonical JSON is written out and proved uniquely readable. Parsers
  are parameters assumed only to read back what the encoder writes.
* Times are integers and unparsable times are values; the texts of a grant's times count only
  for the size of its record, and an entry's timestamp is any nonempty text. Printable text means text without control characters.
* A file is its bytes and a verified path always opens unless a fault says otherwise. A
  crash leaves what a failure at the same point leaves and frees the lock; it does not undo
  completed system calls.
* Faults, clock readings, transaction ids and random ids are parameters of the calls. A call
  of the authority starts when it gets the lock, so it requires the lock to be free.

Where the code does not do all that a reader might expect, the model keeps the code and
states the exact condition:

* A receipt that is torn when its pending envelope is already saved is neither present nor
  absent to `inspect_prepared`, which does not repair the tail. Every later reload raises and
  nothing changes any more, although the notes on recovery in `docs/SPEC-NODE.md` speak only of a
  receipt that is present or absent. `Recovery.TornRun` is such a run,
  `Recovery.RecoverableExactly` the condition as far as the files go, and
  `Authority.GrantAuthority.Reload` the condition with the housefile's bindings.
* The manager lets a grant without a credential through its checks, and says nothing about
  its status; the authority then refuses the first and the envelope validation anything not
  active. `Grants.CheckedIsBound` and `Authority.DecodedOpOk` say so.
* A demo seed that the manager refuses raises a validation error that `_exclusive` does not
  convert, so the empty state stays installed and ready. `Authority.GrantAuthority.Bootstrap`
  says exactly when: some seed fails the issue checks against those before it.
* A transition is refused when its pending envelope, which holds two snapshots, is beyond the
  4 MiB of the envelope file. Nothing keeps an issue from taking the room that the next stop needs.
  `Authority.GrantAuthority.SuspendAll` has the exact condition, `RoomToStop` one that lasts
  until a grant is added, and `Authority.StopNeeds` what no stop can do without.
* An exception that `trip` does not catch leaves the latch set under the report of the
  cycle before. If that one succeeded, the latch can be left with nothing recorded in this
  cycle: `Nodes.Node.StaleReport` does it, and `Nodes.Node.Trip` says exactly when.
* The owner-decision writer repeats two removals by name after an error, although such a
  removal may have taken effect. Two successes are one writer's exactly when taking an
  artifact back is honest; other writers' staging files are safe exactly when removing the
  staging file is; and a success keeps its bytes at the path, and other writers' artifacts
  are safe, exactly when both are. The `Exactly` lemmas of `Decisions` say so for each
  choice of permitted errors. In `Decisions.LateUnstageSwapsDecision` one writer reports
  success while the decision on record is that of another, which reports a failure.
* If the swap of the housefile reports an error after taking effect, the new bytes are live
  under `housefile_commit_failed`. After every other failure but a failed rollback the old
  bytes are. `HousefileStores.HousefileStore.ReplaceExistingLocked` says so in both directions.

`dafny verify dfyconfig.toml` checks the whole project.

## Model

| member | source | states |
|---|---|---|
| Json.DumpUnique | src/threshold/grants/store.py:504-514 | canonical JSON is uniquely readable: two encodings that begin the same text encode the same value, whatever follows |
| Entries.LineInjective | src/threshold/core/ledger.py:385-398 | one line, one entry, so a receipt digest pins the whole receipt |
| Entries.TransactionMeans | src/threshold/grants/store.py:34-35 | a transaction id is `tx-` and 32 lower-case hexadecimal digits |
| Json.CanonicalLineShape | src/threshold/core/ledger.py:385-398 | the only newline of an encoded entry is its last byte, and it has no return character |
| Ledger.RepairBoundaryIs | src/threshold/core/ledger.py:594-612 | the bounded backward scan finds the end of the last complete line exactly when the torn tail is at most one entry long |
| Ledger.JsonlLedger.Repair | src/threshold/core/ledger.py:594-612 | success leaves the longest newline-terminated prefix; without faults it succeeds exactly within the bound |
| Ledger.JsonlLedger.WriteAll | src/threshold/core/ledger.py:656-662 | under short writes the file grows by a prefix of the line, by all of it exactly on success |
| Ledger.JsonlLedger.Append | src/threshold/core/ledger.py:89-123 | success puts the whole line after the complete lines; failure leaves a prefix of it or nothing; complete lines stay; without faults a valid entry is written |
| Ledger.JsonlLedger.Prepare | src/threshold/core/ledger.py:125-131 | the prepared receipt is bound to the repaired end of the file, and nothing else changes |
| Ledger.JsonlLedger.AppendPrepared | src/threshold/core/ledger.py:162-196 | a valid receipt is written only onto the exact tail it was prepared against |
| Ledger.InspectAfter | src/threshold/core/ledger.py:198-237 | after a prefix of the receipt is written, inspection says absent, present or ambiguous exactly for none, all or part of it |
| Ledger.VerifyWitnessComplete | src/threshold/core/ledger.py:239-288 | every line a witness vouches for is accepted by the bounded scan |
| Ledger.VerifyWitnessSound | src/threshold/core/ledger.py:239-288 | whatever the scan accepts is a whole line at that offset with that stamp and digest |
| Ledger.WitnessStable | src/threshold/core/ledger.py:239-288 | a verified witness stays verified across any change that keeps the complete lines |
| Recovery.WitnessForever | src/threshold/core/ledger.py:162-196 | in every run a witness that verifies once verifies at every later state, through appends, tears, rollbacks and repairs |
| Recovery.AppendedForever | src/threshold/grants/authority.py:378-387 | a receipt once written whole verifies at every later state of the run under the witness that its pending envelope fixes |
| Ledger.TornAppendIsRepairable | src/threshold/core/ledger.py:101-123 | what a torn append leaves is always within the repair bound, and repairing it gives the lines before |
| LedgerRead.TailWindowIs | src/threshold/core/ledger.py:635-653 | the fixed window read from the end holds exactly the longest run of complete lines that fits the read limit |
| LedgerRead.LongestFitMeans | src/threshold/core/ledger.py:635-653 | that run is a suffix, fits, and no longer suffix does |
| LedgerRead.Read | src/threshold/core/ledger.py:330-382 | on files without return characters, as every reachable ledger is, the bounded read is the newest-first list of the last valid entries of that run; of a file of written entries and a torn tail it returns, newest first, the last ones of the longest suffix that fits the window |
| LedgerRead.NewestOfAll | src/threshold/core/ledger.py:330-382 | when everything fits the window these are the last entries written, newest first |
| Envelopes.RecordsToGrants | src/threshold/grants/store.py:582-606 | a record list loads exactly when it is bounded, every record is well formed and no id or credential repeats; the snapshot holds exactly the records |
| Envelopes.RecordMeans | src/threshold/grants/store.py:919-990 | a record is accepted exactly when its id, name, scopes, zones, times and digest have the stated form, character by character |
| Envelopes.PendingSound | src/threshold/grants/store.py:645-752 | an envelope that decodes against the prior clean digest differs from its base by exactly one permitted transition, with exactly the statuses it replaced, and carries the stamped receipt of that transition over short printable texts |
| Envelopes.PendingComplete | src/threshold/grants/authority.py:341-376 | the pending envelope that a commit builds decodes exactly when its receipt has short printable texts and its encoding fits the file |
| Envelopes.FinalClean | src/threshold/grants/authority.py:417-431 | the final envelope of a decodable pending one is a verified clean state |
| Envelopes.WitnessSound | src/threshold/grants/store.py:609-642 | a decodable envelope has a ledger witness exactly after its first transition, and that witness is of its own revision |
| StoreSize.StoreBytesIs | src/threshold/grants/store.py:451-500 | the bytes counted for an envelope are the length of its canonical JSON line, for any 64-digit printing of its digests |
| Records.SettlingShrinks | src/threshold/grants/store.py:451-500 | finishing or aborting a pending transition never makes the encoded envelope longer, so what could be begun can be finished |
| StopRoom.StopDecodes | src/threshold/grants/authority.py:186-207 | over a snapshot with room to stop the pending envelope of a stop decodes |
| StopRoom.TransitionDecodes | src/threshold/grants/authority.py:341-376 | with room for it the pending envelope of any transition over short printable texts decodes |
| StopRoom.FewGrantsFit | src/threshold/grants/store.py:451-500 | up to 36 grants, however long their texts, leave room for every transition among them |
| StopRoom.RoomStays | src/threshold/grants/authority.py:121-140 | no revocation, expiry or stop takes the room to stop away |
| Envelopes.GrantMetadataStore.SaveState | src/threshold/grants/store.py:256-307 | all of the new envelope or all of the old one is live; an undecodable or oversized one is never saved and an undecodable old one never overwritten; without faults a decodable one is saved |
| AtomicLog.ActiveMeans | src/threshold/grants/authority.py:97-140 | an active grant was introduced exactly once, was never ended, and no stop came since |
| AtomicLog.ReplayTightens | src/threshold/grants/authority.py:121-140 | along any legal log a grant changes only in status, and only towards revocation |
| AtomicLog.LegalReadsJustified | src/threshold/api/server.py:691-741 | in every legal log each READ has the one item that introduced its grant before it, no end of the grant before it and no stop in between |
| AtomicLog.EntryBytesInjective | src/threshold/core/ledger.py:385-398 | the bytes of a ledger determine its entries |
| Protocol.StepSimulates | src/threshold/grants/authority.py:325-431 | each step of the two-file protocol, failing or not, is one step of the atomic log or none |
| Protocol.RunRefines | src/threshold/grants/authority.py:325-431 | beside every run with any instances, faults and crashes goes a run of the one-step log machine from the empty log, committing at the receipt's last byte |
| Protocol.LeaseIsReplay | src/threshold/grants/authority.py:233-253 | whenever a reload succeeds, the installed grants and revision are the replay of exactly the receipts in the ledger |
| Protocol.LedgerReads | src/threshold/core/ledger.py:101-123 | every reachable ledger is whole entries and at most one torn tail |
| Protocol.NoReturns | src/threshold/core/ledger.py:385-398 | no reachable ledger holds a return character |
| Protocol.AuditedReads | src/threshold/api/server.py:691-741 | in any ledger any run can produce, behind each READ is the one item that introduced its grant, no end of that grant precedes it and no ESTOP lies between; the lines alone show as much, but for which grants a PROVISION provided |
| Protocol.ReceiptNumbering | src/threshold/grants/authority.py:341-384 | receipts carry revisions 1 to k in order; k is the stored revision when clean, and it or one more while a transition is pending |
| Protocol.EffectiveTightens | src/threshold/grants/authority.py:366-384 | every step, failure, abort and roll-forward keeps effective grants or tightens their status |
| Recovery.RunTightens | src/threshold/grants/authority.py:389-415 | the same over any stretch of any run |
| Protocol.EffectiveIntroduced | src/threshold/grants/authority.py:366-384 | an effective grant already has, in the ledger, the receipt of its own issue or of the seeding that provided it: a pending issue or seed is not usable |
| Recovery.RecoverySettles | src/threshold/grants/authority.py:389-415 | wherever recovery completes, after any number of crashed attempts, it installs the log with what was owed paid or dropped |
| Recovery.RecoveryConverges | src/threshold/grants/authority.py:389-415 | any two completed recoveries from one reachable state give the same grants, revision, ledger and envelope |
| Recovery.RecoverableExactly | src/threshold/core/ledger.py:198-237 | from any pending state of any run, as far as the files go, recovery can complete if and only if the receipt is not torn |
| Recovery.TornForever | src/threshold/core/ledger.py:216-225 | with a torn receipt under a pending envelope no step ever changes a file or installs a state again |
| Recovery.TornArises | src/threshold/core/ledger.py:101-123 | from any lease and any transition it allows, two steps with one fault lead to a torn receipt |
| Recovery.TornRun | src/threshold/core/ledger.py:101-123 | a concrete run that ends in a torn receipt: the first stop of a fresh directory |
| Authority.VerifyCleanIs | src/threshold/grants/authority.py:433-453 | the clean-state check passes exactly when the snapshot matches its witness, the ledger vouches for it and the housefile grants its zones |
| Authority.VerifyPendingBaseIs | src/threshold/grants/authority.py:455-476 | the same for the base of a pending transition |
| Authority.DecodedOpOk | src/threshold/grants/store.py:801-862 | a startable transition whose pending envelope decodes is one the atomic machine allows: an issue adds an active grant, a seeding starts from nothing |
| Authority.RevokeAccepts | src/threshold/grants/authority.py:121-140 | nothing but the room, the clock and the counters stands in the way of revoking an active or suspended grant |
| Authority.IssueAccepts | src/threshold/grants/authority.py:97-119 | the same for issuing a well-formed active grant that passes the checks |
| Authority.ExpiryAccepts | src/threshold/grants/authority.py:273-288 | the same for recording a boundary that has passed |
| Authority.SeedsAccept | src/threshold/grants/authority.py:255-271 | the same for seeding well-formed active grants that pass the checks one after the other |
| Authority.GrantAuthority.Commit | src/threshold/grants/authority.py:325-387 | returning means exactly one new receipt and the transition installed; raising means none or exactly that receipt once recovery has settled, and nothing cached; without faults it returns exactly when the transition is acceptable, size limits included |
| Authority.GrantAuthority.Recover | src/threshold/grants/authority.py:389-415 | success installs the settled log; failure changes nothing that is owed; without faults it succeeds exactly when the receipt is not torn |
| Authority.GrantAuthority.Bootstrap | src/threshold/grants/authority.py:255-271 | a fresh demo directory gets one PROVISION receipt holding exactly the seeds, or stays fresh; it is refused exactly when a seed fails the checks against those before it, with the first such error and the empty state installed |
| Authority.GrantAuthority.SeedTarget | src/threshold/grants/authority.py:255-262 | the seeds pass exactly when each passes against those before it; otherwise the error is the first refusal |
| Authority.GrantAuthority.Reload | src/threshold/grants/authority.py:233-253 | what is on disk wins: the installed state is the settled log, or the seeding of a fresh directory; a reload that gets through had a directory without a torn receipt whose bindings the housefile grants, and without faults such a directory loads |
| Authority.GrantAuthority.EnsureReady | src/threshold/grants/authority.py:91-95 | readiness means the cache is the replay of the settled log; a refused seed leaves the empty cache ready, and any other failure leaves nothing cached |
| Authority.GrantAuthority.Issue | src/threshold/grants/authority.py:97-119 | issued, conflicting, rejected and unavailable each exactly by the checks on the reloaded grants; only issuing adds a receipt; without faults a well-formed active grant that passes the checks and finds room is issued |
| Authority.GrantAuthority.Revoke | src/threshold/grants/authority.py:121-140 | an active or suspended grant is revoked by one receipt, an ended one and an unknown one are told apart and left alone; without faults and with room a live grant is always revoked |
| Authority.GrantAuthority.SuspendAll | src/threshold/grants/authority.py:186-207 | one ESTOP receipt, no grant left active, and the count of those that were; without faults it is recorded exactly when it is acceptable, and always with room to stop |
| Authority.StopNeeds | src/threshold/grants/store.py:492-497 | no stop is acceptable over a snapshot that, once suspended, does not fit the envelope file twice |
| Authority.GrantAuthority.DecideLocked | src/threshold/grants/authority.py:273-288 | the decision is about the grant before the call, and a boundary that has passed is recorded before it is reported; without faults and with room that never fails |
| Authority.GrantAuthority.Authorize | src/threshold/grants/authority.py:155-184 | the lock is kept exactly for the holder of the grant's own credential, with the decision made and any expiry recorded; without faults and with room the holder gets the decision and anyone else is turned away |
| Authority.GrantAuthority.ExpireDue | src/threshold/grants/authority.py:290-323 | the due grants are expired in the order of their ids, each by one receipt of its own, and no other grant changes; a failure names the one it stopped at and why it may stop |
| Authority.DueListMeans | src/threshold/grants/authority.py:290-323 | the ids taken are those of exactly the due grants, each once, in code-point order |
| Authority.GrantAuthority.Snapshot | src/threshold/grants/authority.py:209-215 | the grants shown are the reloaded ones with exactly the due ones expired, each with one receipt; without faults and with room that lasts they are shown |
| Grants.IssuedInterval | src/threshold/grants/manager.py:77-152 | an issued grant left active is usable in exactly one half-open interval with a point at or after its issue, and due from the interval's end on |
| Grants.AllowedExactly | src/threshold/grants/manager.py:118-152 | any grant, issued or only loaded, is usable exactly when active, readable and within its times, and is never usable when due |
| Grants.ReasonMeans | src/threshold/grants/manager.py:118-152 | a decision names its reason: the status, the expiry, the window or that all is well |
| Grants.DueStays | src/threshold/grants/manager.py:118-152 | a grant once due stays due |
| Grants.CheckedIsBound | src/threshold/grants/manager.py:77-105 | what the issue checks admit is bound to grantable zones exactly when it has a credential, and shares that credential with no other grant |
| Grants.CheckedExactly | src/threshold/grants/manager.py:77-105 | the issue checks pass exactly for a new grant with scopes, grantable zones and readable times that leave something to use |
| Grants.RefusalMeans | src/threshold/grants/manager.py:77-105 | a refused issue names something that is wrong with it |
| Interlocks.SimulatedLatchedInterlock.Trip | src/threshold/hardware/estop.py:154-246 | a new cycle latches first, makes at most one durable call and one attempt per adapter and reports their counts; a repeated trip calls nothing and repeats the report |
| Interlocks.SimulatedLatchedInterlock.HaltAll | src/threshold/hardware/estop.py:198-207 | each adapter is tried once whatever the others do, and completions are counted |
| Interlocks.CycleKeeps | src/threshold/hardware/estop.py:154-246 | over any history no call is repeated without a new latch in between |
| Interlocks.SimulatedLatchedInterlock.Rearm | src/threshold/hardware/estop.py:248-254 | only the latch clears |
| Nodes.StoppedEffective | src/threshold/api/server.py:806-837 | a log whose settled replay has no active grant shows none in the effective grants on disk either |
| Nodes.Node.StoppedMeans | src/threshold/api/server.py:806-837 | latched with a recorded suspension in this cycle means that no effective grant is active |
| Nodes.Node.Trip | src/threshold/api/server.py:787-798 | the invariant of the process holds and one ESTOP receipt goes with a recorded stop; a new cycle ends stopped or stuck exactly unless an uncaught exception left an older success standing, a stuck one stays stuck, and a recordable stop is recorded |
| Nodes.Node.Rearm | src/threshold/api/server.py:801-837 | refused exactly while latched without a last report of a recorded suspension; otherwise the latch clears and no grant changes |
| Nodes.Node.StaleReport | src/threshold/api/server.py:806-837 | after a recorded cycle, one cut short before its durable call is left with nothing recorded in it; after an unrecorded one the latch stays |
| Nodes.Node.IssueGrant | src/threshold/api/server.py:1054-1111 | refused exactly while latched; every other answer is the one the checks on the reloaded grants and the first free candidate give, a grant going out only with its receipt in the ledger; without faults a welcome grant is issued |
| Nodes.Node.RevokeGrant | src/threshold/api/server.py:1114-1130 | a revocation keeps a stop in force and leaves its receipt; an ended and an unknown grant are told apart and nothing is written for them; without faults and with room a live grant is revoked |
| Nodes.Node.OwnerGrants | src/threshold/api/server.py:481-488 | the owner sees the grants with the due ones expired, and a stop stays in force; without faults and with room that lasts the grants are shown |
| Nodes.Node.UsableGrant | src/threshold/api/server.py:691-741 | use needs the holder's own credential, an allowing decision and an armed latch; a refusal leaves exactly one DENY line and says why; without faults each of these is the answer when it is due |
| Nodes.DenialTextTells | src/threshold/api/server.py:691-741 | the detail of a refusal tells which refusal it was |
| Nodes.Node.Housefile | src/threshold/api/server.py:863-886 | the view is handed out only after its READ line is the last in the ledger, and is the scoped view of the active grant; without faults the holder of a usable grant gets it |
| Nodes.Node.Command | src/threshold/api/server.py:889-992 | nothing is relayed; once the grant is found usable the answer is allowed exactly outside quiet hours, without parameters, for a capability and a zone that the view gives, and each other answer exactly by the first check that fails; one DENY line is left, its tier telling whether it was allowed; without faults a usable grant gets an answer |
| Nodes.EvaluationLineTells | src/threshold/api/server.py:889-992 | each answer leaves a line of its own |
| ScopedViews.Noninterference | src/threshold/housefile/scoped_view.py:7-60 | housefiles that agree on what the scopes and zones of a grant let it learn give the same view |
| ScopedViews.SectionsByScope | src/threshold/housefile/scoped_view.py:18-60 | an active grant gets each section exactly under its scope, and in it exactly the facts about its zones; no-go zones show their place, other zones only that they exist |
| ScopedViews.InactiveSection | src/threshold/housefile/scoped_view.py:8-10 | exactly a grant that is not active gets no more than the schema and its status |
| ScopedViews.ViewReveals | src/threshold/housefile/scoped_view.py:28-43 | for a layout reader equal views mean the same granted zones and the same zone facts, place by place |
| ScopedViews.ViewDetermines | src/threshold/housefile/scoped_view.py:7-60 | for every grant two views are equal if and only if the housefiles agree, scope by scope: layout and quirks, systems, inventory, and the warnings of granted zones |
| ScopedViews.SafetyDisclosed | src/threshold/housefile/scoped_view.py:54-57 | whatever its scopes, an active grant is warned of exactly the safety flags of items in its zones |
| ScopedViews.GateMatchesView | src/threshold/api/server.py:935-976 | for every active grant the command gate admits a verb and zone exactly when the view lists the capability and the zone is granted; a view with zones shows exactly the granted ones |
| Decisions.OneWinnerEver | src/threshold/capture/vision_proposals.py:611-663 | two successes anywhere in a run are the same writer's, even where removing a staging file reports late errors |
| Decisions.OneWinnerExactly | src/threshold/capture/vision_proposals.py:626-650 | under any choice of permitted late errors, two successes are always one writer's if and only if taking an artifact back has none |
| Decisions.WinnerStays | src/threshold/capture/vision_proposals.py:955-979 | where both removals are honest a decision's bytes stay at the decision path from its success on |
| Decisions.WinnersKeptExactly | src/threshold/capture/vision_proposals.py:626-662 | every success has its own bytes at the path if and only if neither removal reports late errors |
| Decisions.OthersUntouched | src/threshold/capture/vision_proposals.py:611-663 | where removing staging files is honest no step of a writer removes or rewrites another writer's staging file, and where taking artifacts back is too, no other writer's artifact |
| Decisions.StagingSparedExactly | src/threshold/capture/vision_proposals.py:626-662 | other writers' staging files are safe if and only if removing a staging file reports no late errors |
| Decisions.ArtifactsSparedExactly | src/threshold/capture/vision_proposals.py:626-662 | other writers' artifacts are safe if and only if neither removal reports late errors |
| Decisions.LoneWriterSucceeds | src/threshold/capture/vision_proposals.py:611-663 | a writer alone and without faults gets its bytes in place |
| Decisions.LateUndoLosesDecision | src/threshold/capture/vision_proposals.py:631-650 | one late error in taking an artifact back lets a recorded decision of another writer be deleted |
| Decisions.LateUndoTwoWinners | src/threshold/capture/vision_proposals.py:631-650 | and after that a second writer succeeds too |
| Decisions.LateUnstageRemovesStaging | src/threshold/capture/vision_proposals.py:626-662 | one late error in removing a staging file lets another writer's be deleted |
| Decisions.LateUnstageSwapsDecision | src/threshold/capture/vision_proposals.py:619-662 | after the same error a writer succeeds with the file of another at the path, which then holds the other's decision |
| Decisions.LateUnstageRemovesArtifact | src/threshold/capture/vision_proposals.py:626-662 | or it fails and removes the other's file from the path |
| Revisions.Next | src/threshold/housefile/materialize.py:197-212 | the carry loop is the successor in bijective base 26, and only ZZZZZZZZ has none |
| Revisions.ValueInjective | src/threshold/housefile/materialize.py:197-212 | no two revisions stand for the same number |
| Revisions.LastIsLargest | src/threshold/housefile/materialize.py:210-211 | no revision is beyond ZZZZZZZZ |
| HousefileStores.HousefileStore.ReplaceExistingLocked | src/threshold/housefile/store.py:286-341 | returning means the new bytes; after a failure but a failed rollback the exact old bytes are live if and only if the swap was not reached or reported no late error; with a late error the new bytes are live under a commit failure; without faults it returns |
| HousefileStores.HousefileStore.PutBack | src/threshold/housefile/store.py:316-332 | the handler's success means the remembered bytes are live, from the kept copy or a fresh one |
| HousefileStores.HousefileStore.NewPrivateFile | src/threshold/housefile/store.py:197-220 | a staged file has all of the data or the call fails, and no other staged file changes |
| Geometry.ValidateDocument | src/threshold/capture/geometry.py:249-322 | a parsed value is accepted exactly when it is the document of some valid rooms, and gives those rooms |
| Geometry.ParseGeometry | src/threshold/capture/geometry.py:325-343 | bytes and digest are accepted exactly when some bindings build that artifact, which is returned |
| Geometry.BuildableFits | src/threshold/capture/geometry.py:195-230 | every artifact the builder can make is within the parser's 128 KiB |
| Geometry.BuiltFromBindings | src/threshold/capture/geometry.py:195-230 | the rooms of the parser are exactly those the builder makes of their own bindings |
| Geometry.ArtifactInjective | src/threshold/capture/geometry.py:180-192 | the canonical bytes fix the artifact |
| Geometry.RectanglesDisjoint | src/threshold/capture/geometry.py:150-156 | no two rooms overlap |
| Geometry.OrderRecovered | src/threshold/capture/geometry.py:150-156 | the rectangle gives the room order back |
| Geometry.ZoneIdRuns | src/threshold/capture/geometry.py:138-143 | a zone id is accepted exactly by the machine that reads runs of letters and digits between single hyphens |
| Geometry.NameMeans | src/threshold/capture/geometry.py:129-135 | a suggested name is accepted exactly when short, printable and stripped |
| Materialization.CheckReview | src/threshold/housefile/materialize.py:112-194 | a review passes exactly when it is declared, bounded, in order, well formed and free of repeated ids and digests |
| Materialization.ChoiceMeans | src/threshold/housefile/materialize.py:148-188 | a reviewed zone is accepted exactly when its order, id, digest and name have the stated form, character by character |
| Materialization.CheckDocumentSemantics | src/threshold/housefile/materialize.py:233-259 | a document passes exactly when ids are unique in every collection and every item lies in a listed zone |
| Materialization.Materializer.Accept | src/threshold/housefile/materialize.py:269-330 | a review is accepted exactly with the geometry bytes under its digest whose rooms it names one by one |
| Materialization.Materializer.Materialize | src/threshold/housefile/materialize.py:331-379 | success consumes the reviewed revision and stores its successor: the systems, inventory, quirks and all the rest as they were, each zone with the name and access the owner gave and the rectangle of its room, and the review on record; a failure but a failed rollback leaves the file, unless a late swap error left that same update; an applicable call without faults succeeds |
| Materialization.Materializer.NeverTwice | src/threshold/housefile/materialize.py:335-362 | over any history of calls no expected revision is consumed twice and no stored revision recurs |
| Jpeg.JpegDimensions | src/threshold/capture/vision_intake.py:620-663 | on any bytes the walk ends, and answers exactly with the size in the first frame header after skippable pieces, if there is one |
| Jpeg.WalkExplained | src/threshold/capture/vision_intake.py:633-660 | every answer comes from pieces and a frame header that are really in the file |
| Jpeg.PrintedSize | src/threshold/capture/vision_intake.py:620-663 | the walk inverts a printer of such headers, whatever follows them |

## Left out

- Power loss that undoes completed system calls, and repair by hand of a stuck directory: a crash is a process crash.
- POSIX detail: ownership, modes, links, descriptors and directory creation; the advisory lock is an atomic acquire and release.
- Text formats: JSON and timestamp parsing, time zones, JSON Schema, and the order of fields in error messages.
- JSON values other than naturals, strings, booleans, null, arrays and objects: the geometry parser rejects them like any other wrong value.
- Observers, the event bus, display transients, receipt rendering and elapsed time: they change no durable state.
- The HTTP layer: routing, owner authentication, request validation before the grant lock, and the node clock check.
- Quiet hours: their outcome is a parameter of the command evaluation.
- Interference inside one call of `Authority`: calls run whole under the lock there, and the interleavings, crashes between steps included, are the subject of `Protocol`.
- Envelopes.GrantMetadataStore.SaveState: leftover temporary files are not modelled, since every temporary name is new.
- Interlocks.SimulatedLatchedInterlock.Trip: an uncaught exception comes just before or just after the durable call, not between two adapters.
- Materialization.Materializer.Materialize: waiting for the lock is not modelled, so a history of concurrent callers is the sequence in which they get it.
- `GrantManager.revoke` and `suspend_all`, the legacy grants-only store interface, and `decision` outside `authorized`: they would only add easy members.
- Everything under `console/` and `reference/`, the vision provider, media tools and adapters.
