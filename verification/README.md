# Nexolab deployment and telemetry protocols in Dafny

A Dafny model of the protocol, registry and deployment-safety code of the Nexolab
platform, with proofs of what those programs promise. Each module follows one script or
contract; every external service is a transition that may fail, and where the outside
world may change between two calls, it does.

- `ObjectMigration`, `MigrationGuarantees`: copying a source store into a half-filled
  target while the source keeps changing. The source is a timeline, and every request is
  answered from a later instant than the one before, so a statement over all timelines is
  a statement over every interleaving. A listing is a loop over pages, each a request of
  its own, with the heads of one page before the next page. The target has no other
  writer, but any call on it may fail before or after taking effect, and an upload may
  store anything. Services may be reliable, so that no call fails, and a target honest, so
  that it stores what it is sent; what then must succeed is proved as well.
- `CanonicalLock`: any number of processes take an existing lock file through open,
  fstat, flock and lstat while the environment rebinds the path and reuses inode numbers.
- `EdgeQueue`, `EdgeSnapshot`: capture and guarded restore of the edge database on a disk
  that records every state it goes through, and the AUTOINCREMENT queue that the guard
  protects. The Device Agent that drives the queue is not part of this model; it is
  assumed to follow SQLite's documented AUTOINCREMENT rule.
- `CadenceRegistry`: the lock-protected registry with optimistic revisions, as a program
  and as a machine of interleaved clients.
- `Uuid`, `DurableReceipt`, `ReceiptReasons`, `Outbox`: the pure verdict that allows the deletion of an
  outbox row, and a driver that does exactly what the contract's docstring demands of its
  caller. The repository does not wire the contract up, so the driver is the docstring's
  reading and not code of the repository.
- `FrontendHandoff`: the saga of the paired front ends, for any list of profiles.
- `ImpactClassifier`, `ClassifierTables`: changed paths to verification plans, and the
  verification tables in use.
- `HealthGate`: the polling loop with its deadline. A script says how long every step of
  the world takes and what it answers; a statement over all scripts is a statement over
  every behaviour of Docker, the health endpoint and the clock.
- `ReleaseOwner`: validate a whole release tree, then re-own it.
- `AcceptanceEvidence`: counter deltas over capture windows and the evidence file.
- `Wrappers`, `SetSums`: shared helpers.

Findings, where the code does not meet a natural reading of its promise, each with the
exact condition under which it does:

- `_interval` lets NaN through, because both comparisons with it are false. A request keeps
  the stored intervals in range exactly when for no key its last item naming the key gives
  NaN (`CadenceRegistry.RangeIsKeptExactly`), and a history exactly when no key was last
  written with NaN (`CadenceRegistry.HistoryIsInRangeExactly`). `NaNIsAccepted` is a request
  that does not.
- Acquiring the canonical lock does not exclude by itself. While one process holds it, a
  second one acquires exactly when the path names another file that is acceptable and
  unlocked (`CanonicalLock.SecondHolderExactly`); replacing the lock file brings that about
  (`CanonicalLock.ReplacedPathHasTwoHolders`). Only one of the two can pass the later check.
- An accepted cadence writer is answered with its own revision plus the number of changes
  accepted between its commit and its answer, so with its own exactly when there is none
  (`CadenceRegistry.AnswerCountsLaterCommits`; `FirstWriterSeesTheSecond` is a case).
- The class list of the impact classifier, unlike its plan, is the union over two parts of a
  change exactly when both leave by the same exit and, past the exits, a path is unknown, two
  classes meet within one part, or both parts have the same classes
  (`ImpactClassifier.ClassesJoinExactly`; `ClassifierTables.StateAndReadmeDoNotJoin` is a case).
- The restore guard counts rows and compares the mark, but does not look at contents. An
  accepted restore brings back the very same rows exactly when every row's last update, if
  it has one, gave it the contents it had (`EdgeQueue.AcceptedRestoreKeepsRows`);
  `EdgeQueue.UpdatePassesUnseen` is the family of cases.
- Only the link counts of files are checked before a release is re-owned. An inode that has
  a name outside the release changes hands exactly when it is a symbolic link of the
  accepted release (`ReleaseOwner.OutsideChangesExactly`).
- The health request is not bounded by the deadline. A healthy wait is over by the deadline
  exactly when its last health request was, a failed one exactly when the Docker call that
  failed, if one did, was over by then, and a timed-out one is never early
  (`HealthGate.World.WaitForDeploymentHealth`). `HealthGate.HealthyButLate` succeeds late.

## Model

| member | source | states |
|---|---|---|
| `ObjectMigration.CopyAndVerify` | scripts/deploy-object-storage-migration.py:144-214 | a verified report means, for every interleaving of source changes, also between the pages of a listing: the target has exactly the inventory's buckets and keys, each object has the recorded digest, size and metadata, the source showed the same during the copy and again after all copying, and the second inventory, put together after all copying, equals the first; at every exit no target key was removed, only inventoried keys were written, and every upload sent the bytes and metadata of an object that the source had under that name at an instant of the run; a bucket of the target that the source lacks stops the run before any write; a dry run writes nothing; under a write freeze and an isolated target only failing calls or a target that stores something else can stop it, so with services that do neither the run is verified |
| `ObjectMigration.EveryObjectIsSeenTwice` | scripts/deploy-object-storage-migration.py:202-204 | every object of a verified run was at the source before the last copy and after it with the same size, entity tag, date and metadata |
| `ObjectMigration.TakeInventory` | scripts/deploy-object-storage-migration.py:84-122 | the bucket set and each entry were answers of the source at instants of the walk, and each key set was put together from pages, every one answering at its own instant for the keys after the page before; under a freeze only a failing request stops it, so none with a reliable source |
| `ObjectMigration.InventoryBucket` | scripts/deploy-object-storage-migration.py:108-120 | the loop over pages with the heads of a page before the next page yields exactly the keys that the pages showed, each with an entry that the source had at some instant |
| `ObjectMigration.EveryKeyHasAnInstant` | scripts/deploy-object-storage-migration.py:109-111 | every key is in the inventory if and only if the bucket had it at one instant of the walk |
| `ObjectMigration.PageComesFirst` | scripts/deploy-object-storage-migration.py:109 | a page is the first keys after the last one seen: whatever it leaves out comes after all of it |
| `ObjectMigration.FrozenKeySet` | scripts/deploy-object-storage-migration.py:109-111 | under a write freeze all pages together are the bucket's key set |
| `ObjectMigration.Drain` | scripts/deploy-object-storage-migration.py:160-171 | reading a body in chunks of any size yields the whole body, its hash and its size, unless a read fails |
| `ObjectMigration.DigestSource` | scripts/deploy-object-storage-migration.py:125-141 | the digest and size belong to the object that the source held with the expected entity tag, size and metadata at that instant; if it holds that object, only a failing request refuses it |
| `ObjectMigration.CopyObject` | scripts/deploy-object-storage-migration.py:158-194 | one object: the target shows the source's bytes and metadata afterwards; at most one upload, only if the target did not already show them, and it sends exactly the bytes and the metadata that the source had at the instant of the read; if the object is still the inventoried one, no call fails and the target stores what it is sent, it succeeds |
| `ObjectMigration.CopyBucket` | scripts/deploy-object-storage-migration.py:154-201 | one bucket: on success its target keys are exactly the inventoried ones and every object is copied; on failure the target still only gained or kept objects |
| `ObjectMigration.VerifySource` | scripts/deploy-object-storage-migration.py:205-207 | success means that every recorded digest and size was shown again by the source after the copying |
| `ObjectMigration.CountInventory` | scripts/deploy-object-storage-migration.py:148-151 | the nested dry-run sums equal the number of distinct objects and the sum of their sizes |
| `ObjectMigration.FrozenInventory` | scripts/deploy-object-storage-migration.py:84-122 | an inventory taken under a write freeze is the description of the frozen store |
| `ObjectMigration.RunSoFarGrows` | scripts/deploy-object-storage-migration.py:176-190 | one more upload keeps the invariant of a run: nothing removed, each upload distinct, inventoried and worth it |
| `ObjectMigration.DistinctItemsAddUp` | scripts/deploy-object-storage-migration.py:194-214 | distinct manifest items count the inventoried objects and their bytes sum to the inventory's |
| `MigrationGuarantees.FrozenRunMirrors` | scripts/deploy-object-storage-migration.py:144-214 | under a write freeze a verified run leaves a target with exactly the source's names, metadata, digests and sizes |
| `MigrationGuarantees.MirrorHasContents` | scripts/deploy-object-storage-migration.py:178-192 | without digest collisions such a mirror holds the source's bytes |
| `MigrationGuarantees.EqualObjectIsNotUploadedAgain` | scripts/deploy-object-storage-migration.py:176-190 | an object already equal in bytes and metadata is neither uploaded nor touched |
| `MigrationGuarantees.RunIsAttempt` | scripts/deploy-object-storage-migration.py:144-214 | what every exit of a run over a frozen source guarantees about the target before and after |
| `MigrationGuarantees.RestartsLoseNothing` | scripts/deploy-object-storage-migration.py:152-201 | over any number of cut-off runs the target stays isolated and loses no key |
| `MigrationGuarantees.RestartsConverge` | scripts/deploy-object-storage-migration.py:144-214 | any number of cut-off runs followed by a verified one ends in the contents of one uninterrupted run |
| `MigrationGuarantees.ManifestMatchesDryRun` | scripts/deploy-object-storage-migration.py:148-151 | a verified manifest counts the buckets, objects and bytes that a dry run over the same inventory reports |
| `MigrationGuarantees.ValidateEntries` | scripts/deploy-object-storage-migration.py:240-255 | the loop accepts exactly the manifests with distinct pairs, known buckets, string keys, valid digests and sizes, and the right total |
| `MigrationGuarantees.Sha256Exactly` | scripts/deploy-object-storage-migration.py:251 | the digest pattern is 64 of the sixteen lowercase hexadecimal digits |
| `MigrationGuarantees.ManifestIsSound` | scripts/deploy-object-storage-migration.py:211-214 | every manifest of a verified run passes that loop |
| `CanonicalLock.RunKeepsInv` | scripts/deploy-partial-continuation-1327.py:85-104 | over every interleaving: a process has a description exactly past open, its facts are about that file, and every flock belongs to an open description of that file |
| `CanonicalLock.HoldersHoldDifferentFiles` | scripts/deploy-partial-continuation-1327.py:94-101 | two processes past flock never hold the same inode |
| `CanonicalLock.NamedFileHasOneHolder` | scripts/deploy-partial-continuation-1327.py:85-104 | at most one successful acquirer holds the inode that the path names |
| `CanonicalLock.VerifiesExactly` | scripts/deploy-partial-continuation-1327.py:107-109 | judged in one state, a holder's check passes exactly when the path names its inode and owner, group, mode and size are those recorded |
| `CanonicalLock.IdentityIsAllFive` | scripts/deploy-partial-continuation-1327.py:80-82 | two recorded identities are equal exactly for the same inode number, owner, group, mode and size |
| `CanonicalLock.Kernel.VerifyLockedInode` | scripts/deploy-partial-continuation-1327.py:107-109 | with interference before each of the two reads the check passes exactly when fstat matched and, at the instant of lstat, the whole check would |
| `CanonicalLock.VerifiedHolderIsUnique` | scripts/deploy-partial-continuation-1327.py:107-109 | two different holders never both pass the check in one state |
| `CanonicalLock.UndisturbedPathHasOneHolder` | scripts/deploy-partial-continuation-1327.py:85-104 | while nobody rebinds the path there is one holder at most, checked or not |
| `CanonicalLock.AcquiresExactly` | scripts/deploy-partial-continuation-1327.py:85-101 | alone, in any reachable state, an idle process acquires if and only if the parent is a directory of root's that is sticky or not writable for others, and the path names an unlocked empty regular file with one link, mode 0600 and an owner that is root or the given one |
| `CanonicalLock.SecondHolderExactly` | scripts/deploy-partial-continuation-1327.py:85-101 | after any run in which a process holds the lock, a second one acquires if and only if such a file is there and it is another file than the holder's, and the first keeps holding |
| `CanonicalLock.LoneAcquisitionSucceeds` | scripts/deploy-partial-continuation-1327.py:85-101 | such an acquisition records the file's facts, takes its lock and changes nothing else |
| `CanonicalLock.ReplacedPathHasTwoHolders` | scripts/deploy-partial-continuation-1327.py:85-109 | unlinking and recreating the file is such a case: a second process acquires while the first still holds, and the check then fails for the first and passes for the second |
| `CanonicalLock.Kernel.AcquireExistingLock` | scripts/deploy-partial-continuation-1327.py:85-104 | with interference before every call: success holds the flock of the file the path named at lstat, and at fstat that file was an empty regular one with one link and the demanded owner and mode, whose facts are returned; every error names what was wrong in the state of the call that failed and leaves neither descriptor nor flock; without interference it succeeds exactly when the lock can be acquired |
| `CanonicalLock.OthersKeepProcess` | scripts/deploy-partial-continuation-1327.py:92-104 | no step of others changes a process's phase, description or what kind of file it has open |
| `EdgeQueue.HistoryMovesUp` | scripts/deploy-edge-sqlite-snapshot.py:65-69 | over every insert, update and delete history the high-water mark only rises, and no id at or below the old mark appears |
| `EdgeQueue.GuardIsExact` | scripts/deploy-edge-sqlite-snapshot.py:243-254 | after any history, equal count and mark hold if and only if the set of queued ids and the mark are the snapshot's |
| `EdgeQueue.AcceptedRestoreKeepsRows` | scripts/deploy-edge-sqlite-snapshot.py:243-254 | the guard does not look at contents: an accepted state has the snapshot's very rows if and only if the last update of every row, if it has one, gave it the contents it had |
| `EdgeQueue.UpdatePassesUnseen` | scripts/deploy-edge-sqlite-snapshot.py:243-254 | one update of any queued row is accepted by the guard although the rows differ |
| `EdgeQueue.NeitherHalfSuffices` | scripts/deploy-edge-sqlite-snapshot.py:243-254 | for every queued row there is a history that passes the count alone and one that passes the mark alone, each with other rows |
| `EdgeSnapshot.AtomicJson` | scripts/deploy-edge-sqlite-snapshot.py:102-114 | at every instant the file is absent or the whole document; success leaves no temporary file, and a disk without faults succeeds |
| `EdgeSnapshot.Capture` | scripts/deploy-edge-sqlite-snapshot.py:117-182 | refuses if and only if the source is no file, the three paths are not distinct, a target exists or an identity is malformed, and then changes nothing; at every crash point a metadata file is complete and describes the snapshot beside it; a failure leaves neither file unless removing them failed; success publishes a true description; on a disk without faults it succeeds exactly for a sound database with a sound, readable backup, and the snapshot is that backup |
| `EdgeSnapshot.Restore` | scripts/deploy-edge-sqlite-snapshot.py:204-315 | refuses exactly when the state is not restorable and then changes nothing; otherwise at every crash point the destination is its old self or accepted content, and success means accepted content; on a disk without faults it succeeds with the snapshot's bytes |
| `EdgeSnapshot.RestorableExactly` | scripts/deploy-edge-sqlite-snapshot.py:185-256 | a state is restorable if and only if the snapshot is sound and readable, the metadata is the one document that belongs to the snapshot and the request, with some immutable image id, and the stopped database has no sidecars and the snapshot's count, mark and streams |
| `EdgeSnapshot.CapturedIsRestorable` | scripts/deploy-edge-sqlite-snapshot.py:117-254 | what a capture published is restorable if and only if the stopped database is there without sidecars and its queue and streams stand where they stood |
| `EdgeSnapshot.AcceptedIsSnapshot` | scripts/deploy-edge-sqlite-snapshot.py:280-299 | accepted content equals the snapshot byte for byte unless the digest collides |
| `EdgeSnapshot.RestoreLosesNoRow` | scripts/deploy-edge-sqlite-snapshot.py:243-254 | after any queue history a restore that is not refused finds exactly the snapshot's rows waiting |
| `EdgeSnapshot.CaptureUseRestore` | scripts/deploy-edge-sqlite-snapshot.py:117-315 | on one disk, a capture, any use of the live database and a restore: refused exactly when count, mark or streams of the stopped database moved, or it is gone or has sidecars; on success the database is the snapshot with the four recorded values, byte for byte unless the digest collides, and the queued ids are those of the snapshot; without faults the snapshot is the backup of the database and a restore that is not refused succeeds |
| `CadenceRegistry.Server.PutCadence` | scripts/acquisition-invariant-fixture.py:221-291 | one atomic decision on the old registry: accepted if and only if the request lists a batch that is in order, and then every key holds the number in the last item naming it, nothing if that item gives null, and what it held before if no item names it; anything else changes nothing, and is a conflict exactly when a sound request names another revision |
| `CadenceRegistry.StoredIsAsked` | scripts/acquisition-invariant-fixture.py:240-283 | after an accepted request a family or device holds the number that the last listed item naming it gives, an integer as it is and a float as it is, no override if it gives null, and what it held before if no item names it |
| `CadenceRegistry.StatusExactly` | scripts/acquisition-invariant-fixture.py:221-291 | conflict exactly for a sound request with another revision; the connection is dropped exactly when an addressed request has a field that cannot be iterated over before any other fault |
| `CadenceRegistry.Server.StoreUpdates` | scripts/acquisition-invariant-fixture.py:277-286 | the two loops apply the batch in order and raise revision and mutation counter by one |
| `CadenceRegistry.FamiliesTakeLastWrite` | scripts/acquisition-invariant-fixture.py:277-278 | a default after a batch is the batch's last write to that family, or what it was |
| `CadenceRegistry.DevicesTakeLastWrite` | scripts/acquisition-invariant-fixture.py:279-283 | an override after a batch is the last write to that device, absent if that was a removal |
| `CadenceRegistry.AcceptsExactly` | scripts/acquisition-invariant-fixture.py:225-275 | a batch is accepted if and only if it names the current revision, gives a reason, has an item, and every item by itself names a known family or device with a removable or storable interval |
| `CadenceRegistry.OkExactly` | scripts/acquisition-invariant-fixture.py:240-262 | an item is in order exactly for the two families or the two devices by name and an interval above 10 and up to 3600 or NaN, or null for a device |
| `CadenceRegistry.BlankIsStrippedEmpty` | scripts/acquisition-invariant-fixture.py:229-230 | a reason is blank exactly when stripping it leaves nothing |
| `CadenceRegistry.AcceptedBatchIsGood` | scripts/acquisition-invariant-fixture.py:167-174 | an accepted batch is not empty, names only known families and devices, and its finite intervals lie above 10 and up to 3600 |
| `CadenceRegistry.RangeIsKeptExactly` | scripts/acquisition-invariant-fixture.py:167-174 | an accepted request keeps all stored intervals in (10, 3600] if and only if for every key its last item naming the key does not give NaN |
| `CadenceRegistry.HistoryIsInRangeExactly` | scripts/acquisition-invariant-fixture.py:167-174 | over every interleaving the stored intervals are in (10, 3600] if and only if no key was last written with NaN |
| `CadenceRegistry.NaNIsAccepted` | scripts/acquisition-invariant-fixture.py:167-174 | a concrete request that the initial registry accepts and that leaves the range |
| `CadenceRegistry.HistoryKeepsInv` | scripts/acquisition-invariant-fixture.py:221-291 | over every interleaving of requests: key sets, interval bounds, growing revisions, counters, accepted revisions and consistent answers |
| `CadenceRegistry.StoredFamilyIsLatest` | scripts/acquisition-invariant-fixture.py:277-278 | over every interleaving a family holds the number in the latest accepted item naming it, or the initial one |
| `CadenceRegistry.StoredDeviceIsLatest` | scripts/acquisition-invariant-fixture.py:279-283 | over every interleaving a device's override is what the latest accepted item naming it gives, or the initial one |
| `CadenceRegistry.CountersAddUp` | scripts/acquisition-invariant-fixture.py:211-219 | revision is 7 plus the accepted changes; the mutation counter is those plus the other PUTs |
| `CadenceRegistry.WritersNeverShareARevision` | scripts/acquisition-invariant-fixture.py:232-238 | no two accepted writers expected the same revision |
| `CadenceRegistry.RejectedChangesNothing` | scripts/acquisition-invariant-fixture.py:287-289 | a request that is not accepted leaves registry and history of acceptances as they were |
| `CadenceRegistry.IntervalsStayGood` | scripts/acquisition-invariant-fixture.py:99-124 | in every reachable state the stored intervals are NaN or in (10, 3600], for exactly the two families and at most the two devices |
| `CadenceRegistry.AnswersAreConsistent` | scripts/acquisition-invariant-fixture.py:106-124 | every read is answered, and every 200 answer is one registry of the history, no older than the commit it answers |
| `CadenceRegistry.AnswersShowLatest` | scripts/acquisition-invariant-fixture.py:99-124 | over every interleaving each answer shows for both devices the number in the latest accepted item naming the device, or, if that removed the override or none was ever there, the number in the latest item naming its family |
| `CadenceRegistry.AnswerCountsLaterCommits` | scripts/acquisition-invariant-fixture.py:284-291 | for every history, an accepted writer's answer shows its own revision plus the number of changes accepted between its commit and its answer, so its own if and only if there is none |
| `CadenceRegistry.FirstWriterSeesTheSecond` | scripts/acquisition-invariant-fixture.py:284-291 | from the start, two accepted writers: the first commits revision 8 and is answered with 9 |
| `Uuid.CanonicalExactly` | contracts/durable_receipt_v1.py:38-47 | a string is accepted if and only if it is the lowercase 8-4-4-4-12 form that the printer emits for some 128-bit value (section 4 of RFC 9562) |
| `Uuid.CanonicalIsPattern` | contracts/durable_receipt_v1.py:38-47 | a string is accepted if and only if it has 36 characters, dashes in the four places of 8-4-4-4-12 and lowercase hexadecimal digits elsewhere |
| `Uuid.ParseOfPrint` | contracts/durable_receipt_v1.py:42-45 | parsing what the printer emits gives the value back |
| `Uuid.EqualTextIsEqualNumber` | contracts/durable_receipt_v1.py:38-47 | accepted ids are equal as text exactly when equal as numbers |
| `Uuid.AcceptedIdNamesOneNumber` | contracts/durable_receipt_v1.py:38-47 | an accepted id is the printed form of exactly one 128-bit value, the one it parses to |
| `DurableReceipt.RejectDuplicates` | contracts/durable_receipt_v1.py:29-35 | the loop yields the object of the pairs, or nothing once a key repeats |
| `DurableReceipt.CollectExactly` | contracts/durable_receipt_v1.py:29-35 | pairs are read exactly when their keys differ, and then the object is the set of the pairs |
| `DurableReceipt.PruneExactly` | contracts/durable_receipt_v1.py:71-143 | deletion is allowed if and only if the call is sane and authenticated and the receipt is a fresh matching final one with an unused id for the oldest pending event |
| `DurableReceipt.InformsExactly` | contracts/durable_receipt_v1.py:71-139 | the verdict is informational if and only if it is a fresh matching spool receipt with an unused id, whatever the order of the outbox |
| `DurableReceipt.OutOfOrderExactly` | contracts/durable_receipt_v1.py:140-142 | a receipt is refused as out of order if and only if it would allow the deletion but for an older pending event |
| `DurableReceipt.OrderOfPairsIsIrrelevant` | contracts/durable_receipt_v1.py:92-111 | the whole verdict, reason included, is unchanged by any permutation of the pairs |
| `DurableReceipt.RepeatedKeyIsRefused` | contracts/durable_receipt_v1.py:29-35 | a repeated key is always refused, also with equal values |
| `ReceiptReasons.ReasonExactly` | contracts/durable_receipt_v1.py:74-143 | a receipt is refused for a reason if and only if the first of the twenty-four checks that fails has that reason, and for none unless one fails; the checks are stated on the topic's segments and on the pairs as they came |
| `ReceiptReasons.TopicExactly` | contracts/durable_receipt_v1.py:84-90 | the topic is the expected one if and only if its parts between slashes are nexolab, v1, the organization, the node and receipts |
| `ReceiptReasons.TopicNamesItsNode` | contracts/durable_receipt_v1.py:84-90 | calls that pass the checks with the same topic expect the same node of the same organization |
| `ReceiptReasons.NodeTextExactly` | contracts/durable_receipt_v1.py:20 | a node id is 1 to 128 letters, digits, underscores, dots and dashes that begin with a letter or digit |
| `Outbox.DeliverDoesOneOfThree` | contracts/durable_receipt_v1.py:65-69 | a delivery changes nothing, or notes an informational receipt, or deletes the head under its own unused final receipt |
| `Outbox.DeletedIsPrefix` | contracts/durable_receipt_v1.py:140-142 | over every run with any order, duplication and junk the deleted events are a prefix in sequence order of what was stored, and the rest is pending |
| `Outbox.DeletionsAreAuthorised` | contracts/durable_receipt_v1.py:96-137 | every deletion rests on a matching final receipt inside the freshness window, and no receipt id authorises two |
| `Outbox.AdmittedIsKept` | contracts/durable_receipt_v1.py:65-69 | an event stored with a fresh id and the next sequence number is, after any further traffic, pending or deleted under its own fresh final receipt |
| `Outbox.OnlyFinalDeletes` | contracts/durable_receipt_v1.py:137-139 | deliveries that are not final receipts never delete, however many |
| `Outbox.ReplayAfterDeletionIsIgnored` | contracts/durable_receipt_v1.py:65-69 | a receipt for a deleted event changes nothing in any later state |
| `Outbox.OutOfOrderConsumesNothing` | contracts/durable_receipt_v1.py:140-142 | a ready receipt that comes before its turn is refused as out of order and stays unused |
| `Outbox.ReadyHeadIsPruned` | contracts/durable_receipt_v1.py:71-143 | the head's ready receipt deletes it, whichever other ids were seen |
| `Outbox.RoundShrinks` | contracts/durable_receipt_v1.py:101-102 | a sequence of deliveries that still contains the head's unused receipt makes the outbox strictly shorter |
| `Outbox.RoundsDrain` | contracts/durable_receipt_v1.py:137-143 | as many rounds as there are pending events empty the outbox, each round delivering all ready receipts in any order, repeated and mixed with other traffic that does not use their ids |
| `FrontendHandoff.Host.Switch` | scripts/deploy-complete-partial-frontends.py:319-331 | from any state of a unit success means the wanted release is installed, loaded and answering; other units are at most reloaded; it fails only if a command does |
| `FrontendHandoff.Host.Forward` | scripts/deploy-complete-partial-frontends.py:75-84 | which steps were tried and which failed; profiles count as touched before their activation is tried; publishing begins only with every candidate settled |
| `FrontendHandoff.Host.Rollback` | scripts/deploy-complete-partial-frontends.py:88-97 | every touched profile is tried once in reverse order whatever fails; no failure means all originals settled and the gateway up; a profile whose restore did not fail is settled; if no command fails there is no failure, provided that the gateway was up or its profile is restored |
| `FrontendHandoff.Host.Handoff` | scripts/deploy-complete-partial-frontends.py:75-102 | for any profile list and any failing steps exactly one of four endings: done with all new, verified and published; publication uncertain with all new and nothing undone; rolled back to all original with the first error passed on; or rollback unverified after every restore was tried, the only one with a mixed pair. Published if and only if one of the first two. An existing marker stops it before anything is touched. With the gateway up, no marker and the identity profile among them: done if no command fails, and unverified only after at least two commands failed |
| `FrontendHandoff.TouchedAreRestoredOnce` | scripts/deploy-complete-partial-frontends.py:89-93 | in the attempts of a rollback each touched profile occurs exactly once, later activated first, and no other |
| `FrontendHandoff.MarkFailureRestoresNothing` | scripts/deploy-complete-partial-frontends.py:79-98 | a failed start marker restores nothing but the pair is still verified |
| `FrontendHandoff.FailuresAreTheFailed` | scripts/deploy-complete-partial-frontends.py:88-99 | the recorded failures are the names of exactly the attempts that failed |
| `ImpactClassifier.VerificationForPaths` | scripts/classify-ci-impact.py:381-473 | nothing for state-only; otherwise each of the eight workflows is required if and only if its own table matches a file, three of them also when failing closed, the list is in the fixed order, and the dashboard runs in full for a shared file or two domains, focused on its selection for one |
| `ImpactClassifier.PlanFitsExactly` | scripts/classify-ci-impact.py:381-473 | these conditions hold of exactly one plan, the computed one |
| `ImpactClassifier.Classify` | scripts/classify-ci-impact.py:476-685 | early exits and the loop over files compute the classification of the set of files: state-only, docs-only, full quality and fail-closed flags, the unknown files and the plan each say what they should about the files |
| `ImpactClassifier.ExitsDoNotShow` | scripts/classify-ci-impact.py:490-528 | for every non-empty change the plan is that of its files under its fail-closed flag, whichever exit was taken |
| `ImpactClassifier.ModeJoins` | scripts/classify-ci-impact.py:409-424 | the dashboard mode of a union is the join: none is neutral, equal focus stays, anything else is full |
| `ImpactClassifier.ClassificationJoins` | scripts/classify-ci-impact.py:476-685 | for non-empty parts the plan of the union is the join of the plans, with flags by or and workflows by union in fixed order, and fail_closed and needs_full_quality join by or |
| `ImpactClassifier.MoreFilesNeverLessVerification` | scripts/classify-ci-impact.py:476-685 | adding files never lightens plan or flags |
| `ImpactClassifier.UnknownPathFailsClosed` | scripts/classify-ci-impact.py:659-685 | one unknown path forces fail-closed, full quality and the broadest dashboard, bundle and refrigeration checks |
| `ImpactClassifier.PlanIsJoinOfFiles` | scripts/classify-ci-impact.py:476-685 | the plan of a change is the join of its files' plans, taken off in any order |
| `ImpactClassifier.ClassesExactly` | scripts/classify-ci-impact.py:530-679 | past the early exits a change has exactly the classes that rules give its files, and crosses surfaces exactly when a path is unknown, two classes meet or none applies |
| `ImpactClassifier.ClassesJoinExactly` | scripts/classify-ci-impact.py:476-685 | for any two parts, empty ones included, the classes of the whole are those of the parts if and only if both leave by the same exit and, past the exits, a path is unknown, two classes meet within one part, or both parts have the same classes |
| `ImpactClassifier.ClassesDoNotJoin` | scripts/classify-ci-impact.py:665-679 | the family of cases with different exits: a state file and a document together are classed as crossing surfaces though neither is alone |
| `ClassifierTables.StateAndReadmeDoNotJoin` | scripts/classify-ci-impact.py:17-24 | a case with the tables in use: the classes of a canonical state file and the README are not those of the two together |
| `ClassifierTables.ActualTablesAreWellFormed` | scripts/classify-ci-impact.py:17-246 | with the tables in use no verification pattern covers a state file, and the domains' selections differ |
| `ClassifierTables.RegistryNeedsEdgeImageOnly` | scripts/classify-ci-impact.py:440-445 | with the tables in use a change of the device registry alone requires the edge image workflow and nothing else |
| `ClassifierTables.RunnerNeedsScale` | scripts/classify-ci-impact.py:446 | a change of the scale acceptance runner requires its workflow and no edge image |
| `ClassifierTables.GatewayNeedsThree` | scripts/classify-ci-impact.py:427-439 | any path below the Telegram gateway's directory, whatever else is changed, requires the gateway, supply chain and offline bundle workflows |
| `ClassifierTables.PrefixExactly` | scripts/classify-ci-impact.py:347-348 | a pattern that ends in two stars matches exactly the paths that begin with what is before them |
| `ClassifierTables.ActualClassificationJoins` | scripts/classify-ci-impact.py:381-685 | the join holds for the tables in use without further premises |
| `HealthGate.AcceptsExactlyOperational` | scripts/device-agent-deployment-health-gate.py:89-111 | a payload is accepted if and only if status is ok, MQTT connected, workers healthy, and expected and active workers are the same non-negative integer |
| `HealthGate.HealthyMeansOneGoodRound` | scripts/device-agent-deployment-health-gate.py:140-173 | a healthy outcome rests on one round with the expected sole container running, healthy and operational, after rounds that all saw it running and starting or healthy |
| `HealthGate.ConvergedExactly` | scripts/device-agent-deployment-health-gate.py:140-168 | exactly which rounds end the wait with success |
| `HealthGate.RetryExactly` | scripts/device-agent-deployment-health-gate.py:140-173 | exactly which rounds are retried: starting, or healthy but not operational |
| `HealthGate.FatalExactly` | scripts/device-agent-deployment-health-gate.py:140-173 | a round ends the wait with a failure exactly when it came across that failure after passing everything before it |
| `HealthGate.LastErrorExactly` | scripts/device-agent-deployment-health-gate.py:125-137 | the error that a timeout reports is that of the latest round that has one |
| `HealthGate.ReplacedContainerIsFatal` | scripts/device-agent-deployment-health-gate.py:143-148 | any answer but the expected sole container ends the wait at once |
| `HealthGate.World.Poll` | scripts/device-agent-deployment-health-gate.py:140-173 | one round: every Docker call gets a positive timeout that ends at the deadline, and the result is what the round's answers mean |
| `HealthGate.World.WaitForDeploymentHealth` | scripts/device-agent-deployment-health-gate.py:114-176 | terminates after at most ceil(timeout/poll) rounds, with one sleep between two rounds; every sleep is positive, no longer than the poll interval and the time left, and equal to one of the two; every Docker call gets a positive limit that ends at the deadline and, if it answers, is over by then; the outcome is explained by the rounds, fail-fast by the last one; a timeout reports the last operational error and comes no earlier than the deadline; any other outcome comes by the deadline if and only if the request or failed call that decided it was over by then |
| `HealthGate.CalmDeploymentConverges` | scripts/device-agent-deployment-health-gate.py:139-176 | if nothing disturbs the deployment and from the n-th step on all is well, and n and thirteen more steps with a sleep after each fit into the timeout, the wait ends healthy, and within that time |
| `HealthGate.World.RoundAndSleep` | scripts/device-agent-deployment-health-gate.py:139-176 | one round and its sleep: either it decides the outcome or the loop goes on after one sleep of the smaller of poll interval and time left, with one more interval slept or the time up |
| `HealthGate.HealthyButLate` | scripts/device-agent-deployment-health-gate.py:161-168 | a world in which the wait succeeds 1.4 seconds after its deadline, because the last health request outlasts it |
| `HealthGate.RoundsFitTheTime` | scripts/device-agent-deployment-health-gate.py:128-176 | a round that begins after k intervals and before the time is up is at most the ceil(timeout/poll)-th |
| `ReleaseOwner.PathsExactly` | scripts/deploy-privileged-service-owner.py:87-89 | the walk lists exactly the nodes of the release under their paths |
| `ReleaseOwner.PathsAncestorsFirst` | scripts/deploy-privileged-service-owner.py:87-89 | in the walk's list no node precedes one of its ancestors |
| `ReleaseOwner.DescendantsFirst` | scripts/deploy-privileged-service-owner.py:102-103 | in the order of re-owning every node comes before each of its ancestors |
| `ReleaseOwner.AcceptedExactly` | scripts/deploy-privileged-service-owner.py:92-101 | a tree is accepted exactly when it has no special file, every link resolves inside the release and every file has one link |
| `ReleaseOwner.RefusalExactly` | scripts/deploy-privileged-service-owner.py:92-101 | a tree is refused for the reason of its first bad node, and that is a link that resolves outside, a special file, or a file that another entry of the release or one outside leads to |
| `ReleaseOwner.AcceptedStaysInside` | scripts/deploy-privileged-service-owner.py:92-101 | no file or directory of an accepted tree is reachable from outside |
| `ReleaseOwner.OutsideChangesExactly` | scripts/deploy-privileged-service-owner.py:92-103 | an inode with a name outside changes hands exactly when it is a symbolic link of an accepted release |
| `ReleaseOwner.ReownedExactly` | scripts/deploy-privileged-service-owner.py:102-103 | re-owning a list gives its inodes the new owner and leaves every other inode's owner alone |
| `ReleaseOwner.EveryNodeIsReowned` | scripts/deploy-privileged-service-owner.py:87-103 | re-owning the whole list reaches every node that a path names |
| `ReleaseOwner.Volume.OwnNewRelease` | scripts/deploy-privileged-service-owner.py:77-108 | refuses, with the first reason that applies and without a change, if and only if target or stamp is malformed, the release is not one of the attempt's two directories or no directory, an ancestor is a link, or some listed node is unsafe; success re-owns the whole list in reverse; a failure on the way has re-owned a prefix of that order; without failing commands what is not refused succeeds; nothing with a name outside changes owner but symbolic links of the release |
| `AcceptanceEvidence.OutcomeDeltaAddsUp` | scripts/acquisition_hardware_acceptance.py:161-169 | per-outcome deltas sum to the growth of the outcome total, also where outcomes appear |
| `AcceptanceEvidence.OutcomeDeltaExactly` | scripts/acquisition_hardware_acceptance.py:147-169 | a delta is refused exactly when some outcome lost count, be it by disappearing |
| `AcceptanceEvidence.PhasesSumDeltas` | scripts/acquisition_hardware_acceptance.py:147-169 | what the phases of a file and its discovery total report are the deltas of the counters over the capture windows |
| `AcceptanceEvidence.EvidenceIsWithinGrowth` | scripts/acquisition_hardware_acceptance.py:353-376 | for captures that read growing counters in order, the phases' requests and outcomes and the file's discovery total sum to at most the counters' growth over the whole run of captures |
| `AcceptanceEvidence.AbuttingEvidenceIsTheGrowth` | scripts/acquisition_hardware_acceptance.py:353-376 | when the windows abut, they sum to exactly that growth |
| `AcceptanceEvidence.ValidateEvidence` | scripts/acquisition_hardware_acceptance.py:379-416 | exactly the errors that apply, and none exactly for evidence with the schema and classification of hardware evidence, at least one phase, sound phases, unique names, no configuration change and no write attempt, and, where completeness is required, every default phase |
| `AcceptanceEvidence.CountedNames` | scripts/acquisition_hardware_acceptance.py:409-410 | comparing the counts of names and distinct names finds exactly the repeated ones |
| `AcceptanceEvidence.AppendedDescribes` | scripts/acquisition_hardware_acceptance.py:353-376 | if evidence with one more phase is valid, the capture saw no configuration change and the totals are still those of the captures |
| `AcceptanceEvidence.EvidenceFile.CapturePhase` | scripts/acquisition_hardware_acceptance.py:419-495 | every whole file holds valid evidence of exactly the written captures, its discovery total being their sum; a written file has the asked source commit, and its new phase the rounded window, the growth of the requests and of every outcome, the memory and the disk that were measured; a capture that fails before the write leaves the file as it was; written if and only if, failing calls aside, the window is positive, the source commits agree, the name is new, no counter fell, the configuration counter stood still, memory is not negative and disk space is left |

## Left out

- Compatibility runtime authority (`scripts/compatibility_runtime_authority.py`): a publish and validate round trip over records, which would add branch-by-branch equalities only.
- Artifact inventory, launcher and environment preparation of `scripts/deploy-partial-continuation-1327.py`: straight validation.
- Operating system, Docker, systemd, Git, HTTP, S3 and SQLite themselves: abstract steps with their documented effect and a failure outcome. JSON, timestamp and pattern engines and SHA-256 are parameters or functions; collision freedom is a premise where it is needed.
- Migration: a listing of the target is one request, as nothing else writes there; a walk that a growing source never lets end is not described, and one that ends may have any number of pages; ownership, privacy, encryption, tag and configuration checks are steps that may fail; the checkpoint file and its atomic write are not modelled; the manifest's bucket list is a set; of `validate_proof` only the loop over the manifest is modelled.
- Lock: inherited and duplicated descriptors, hard links made by others except through the link count, and signals other than as a closing descriptor.
- Snapshot: temporary names are assumed to differ from the named files, a rename is durable once it returns, and power loss does not reorder writes; a database image is bytes with functions for its quick check and its metadata.
- Queue: that only the Device Agent writes it, by the AUTOINCREMENT rule, is an assumption.
- Cadence: integers too large for a float, which drop the connection instead of being out of range, `updated_at`, the capacity and metrics payloads, and losing the connection while answering.
- Receipts: expectations that are not strings or integers, and keys repeated in nested objects, which the decoder reports as malformed here.
- Outbox: how the driver stores rows and its ledger, and eviction from the ledger.
- Handoff: candidates on their trial ports, the content of the published evidence, the audit files, and units that die by themselves between two steps.
- Classifier: class rules are a parameter; the classes, files and unknown files are sets, so their sorted presentation is not modelled; path normalisation is assumed done.
- Health gate: the per-operation time limit of the health request, which bounds no duration, and the texts of the errors.
- Release: the walk of a directory is a function; and races with another writer of the tree.
- Evidence: readings are natural numbers and windows are real; processor, memory, disk and latency figures are inputs; the node name, fields of the wrong type, and files that another program began.
