# Verified model of cnpg_backup

cnpg_backup is a CloudNativePG plugin that captures PostgreSQL backups, archives WAL, expires old
backups and drives recoveries. Its parts are built to fail closed: when something cannot be established
they stop instead of guessing. This project models those parts in Dafny and proves what each of them
promises, for every input, every interleaving and every crash point.

Check it with `dafny verify dfyconfig.toml`.

| file | what it models |
|---|---|
| `RecoveryTermination.dfy` | one pass over Jobs and Pods that certifies that a recovery has ended |
| `RecoveryProtocol.dfy`, `RecoverySafety.dfy`, `RecoveryProgress.dfy`, `RecoveryWitness.dfy` | manager processes that share one durable recovery record by compare-and-swap, the watch, and the release of the source; what every run keeps and what it gets done |
| `WalNames.dfy`, `RecoveryWal.dfy` | WAL file names, the recovery plan, and the answer PostgreSQL gets for each segment it asks for |
| `ArchiveScan.dfy`, `CaptureInventory.dfy` | admission of tar members, of a whole capture against its manifest, and of the tablespace map |
| `Workspace.dfy` | lock, owner record and scratch tree of the native workspace, with crashes |
| `StrictJson.dfy` | the duplicate-key and depth scan of configuration documents |
| `BackupObserver.dfy` | the Backup failure observer, its queue and its metric series |
| `PodLists.dfy`, `Placement.dfy`, `PlacementSafety.dfy`, `PlacementContents.dfy` | the Pod rewrite that places the sidecar: what it keeps and what it puts in |
| `Retention.dfy`, `RetentionWal.dfy` | the retention planner |
| `RecoveryTarget.dfy`, `Capacity.dfy`, `CaptureClock.dfy` | recovery target fields, space reservations, capture clocks |
| `Basics.dfy` | shared vocabulary |

Code that changes things in place is modelled by classes and by methods with loops, each tied to a
specification function or stated outright; decisions and arithmetic are functions. The recovery and
workspace protocols span processes, crashes and a network, so they are state machines whose steps are the
source's actions between two external effects; their results hold for every run.

Promises that the code does not keep on all inputs are stated with the exact condition, and with an input
or a run that breaks them:

- The certified Pod set equals the watched Pod set if and only if the paged listing repeats no Pod UID
  (`RecoveryTermination.CertifiedSetIsWatchedSet`, `RecoveryTermination.RepeatedListingCertifiesTooMuch`,
  and as a whole run `RecoveryWitness.ReleaseIsReachable`).
- Placing a placed Pod again succeeds if and only if no ordinary container is called
  `cnpg-backup-socket-init` (`PlacementSafety.PlacedTwice`, `PlacementSafety.ImpostorRefusedSecondTime`).
- A Pod can lose the workspace to a Pod with a shorter name if and only if its UID has a line end after its
  first character, because a torn record can then be another Pod's whole record; the code does not exclude
  that, Kubernetes UIDs do (`Workspace.PodsThatLoseTheWorkspace`, `Workspace.CutIsAnotherRecord`).
- A failure report carries the type of the failure it reports if and only if the UID was not deleted and seen
  again while the worker ran, or failed under the same type before (`BackupObserver.ReportedUnderFirstType`,
  `BackupObserver.TypeCanBeStale`).
- The free-space check can be trusted for a requirement if and only if rounding it up to the block size does
  not wrap to nothing (`Capacity.TrustworthyBlockSizes`).

Where the comments and the code differ the model follows the code. One difference is visible: an active
recovery record may be rewritten as active with a later warning time, which the description of its states
does not mention.

## Model

| member | source | states |
|---|---|---|
| `RecoveryTermination.VisitAll` | internal/cnpgi/recovery_operation.go:438-464 | the paged listing returns exactly the concatenation of all pages up to the one without a cursor, or nothing |
| `RecoveryTermination.AcceptedListingIsWhole` | internal/cnpgi/recovery_operation.go:438-464 | an accepted listing is a whole chain of pages, within the page budget, whatever the server answers |
| `RecoveryTermination.WholeListingIsAccepted` | internal/cnpgi/recovery_operation.go:438-464 | and every whole chain within the budget, without empty or repeating pages before the last, is accepted as its items in order |
| `RecoveryTermination.TerminatedPod` | internal/cnpgi/recovery_operation.go:465-509 | true exactly when the Pod is in a terminal phase and every declared container of each kind has one terminated status |
| `RecoveryTermination.AllEndedIsExact` | internal/cnpgi/recovery_operation.go:465-509 | the count-and-lookup test holds if and only if the statuses name exactly the declared containers, each once, all with a reliable end |
| `RecoveryTermination.TerminationPass` | internal/cnpgi/recovery_operation.go:355-435 | the loops over Jobs and Pods give the verdict of the declarative assessment; it refuses exactly on a fault of the listings and waits exactly while the Job, its completion or the watch is pending |
| `RecoveryTermination.VerdictMeans` | internal/cnpgi/recovery_operation.go:355-435 | said of the listings alone: an undecodable, second, foreign, deleted or failed Job, watched Pods without a Job, an unsettled complete Job, a faulty Pod or differing counts refuse; a missing or unfinished Job or a Pod ahead of the watch waits; all else is certified |
| `RecoveryTermination.CertificateFacts` | internal/cnpgi/recovery_operation.go:355-435 | a certificate names the one settled Job of the Cluster, every listed Pod is its own, ended and at the watched version, with one success and as many failures as the Job counts |
| `RecoveryTermination.CertifiedSetIsWatchedSet` | internal/cnpgi/recovery_operation.go:260-275 | the certified UIDs are exactly the watched UIDs if and only if the listing repeats none (pigeonhole) |
| `RecoveryTermination.RepeatedListingCertifiesTooMuch` | internal/cnpgi/recovery_operation.go:355-435 | a listing that repeats a Pod certifies although a watched Pod was never checked |
| `RecoverySafety.RunKeeps` | internal/cnpgi/recovery_operation.go:87-350 | every reachable state of every interleaving satisfies the protocol invariant |
| `RecoverySafety.ReleaseOnlyAfterCertifiedCompletion` | internal/cnpgi/recovery_operation.go:319-350 | the source lifetime is released only while the durable record is completed, by the process that created it, from a certificate |
| `RecoverySafety.CertificateMeans` | internal/cnpgi/recovery_operation.go:244-311 | such a certificate rests on one unbroken watch prefix and covers exactly the Pods it reported, each terminal at its last reported version |
| `RecoverySafety.SingleObserver` | internal/cnpgi/recovery_operation.go:87-168 | over all processes and all time at most one observer is started, by the creator of the record |
| `RecoverySafety.MissingMonitorMeansNoObserver` | internal/cnpgi/recovery_operation.go:126-168 | an own active record without a monitor entry means no observer ever ran |
| `RecoverySafety.RecordOnlyMovesForward` | internal/cnpgi/recovery_operation.go:65-78 | the record only moves active to active (a warning at least five minutes after the last), uncertain or completed, and completed to released; identity never changes; a foreign process can only make it uncertain |
| `RecoverySafety.WritesTakeEffectOnce` | internal/cnpgi/recovery_operation.go:65-78 | a write whose reply is lost took effect at exactly the version after its base, or not at all |
| `RecoverySafety.CompletedIsCertified` | internal/cnpgi/recovery_operation.go:289-317 | a completed durable record is backed by a certificate of its own process |
| `RecoverySafety.ReconcileKeeps` | internal/cnpgi/recovery_reconcile.go:49-98 | a reconcile pass of any process, at any time, keeps the invariant |
| `RecoveryProgress.OrphanIsClosed` | internal/cnpgi/recovery_reconcile.go:70-82 | from every reachable state one reconcile pass by another process sends exactly one write, whose delivery makes an active record uncertain and changes nothing else |
| `RecoveryProgress.CompletionIsResumed` | internal/cnpgi/recovery_reconcile.go:83-98 | from every reachable state a completed unreleased record is resumed: release is called for it under that record, then it is marked released, and nothing else changes |
| `RecoveryProgress.ReconcileLeavesAlone` | internal/cnpgi/recovery_reconcile.go:66-86 | a reconcile pass leaves alone the record of another Cluster, its own active one, an uncertain one and a released one |
| `RecoveryProgress.AnsweredForItsOwn` | internal/cnpgi/recovery_operation.go:87-168 | in every run a call is answered, or an observer started, only while the durable record has the placement and targets of the call and was created by this process |
| `RecoveryProgress.MismatchIsRefused` | internal/cnpgi/recovery_operation.go:103-109 | a call that finds another operation or a closed one changes nothing |
| `RecoveryProgress.ForeignCallCloses` | internal/cnpgi/recovery_operation.go:110-114 | a call that finds the active record of another process makes it uncertain and adopts nothing |
| `RecoveryProgress.OwnCallObserves` | internal/cnpgi/recovery_operation.go:126-168 | a call that finds its own active record starts an observer exactly when it has no monitor for it and fewer than 16 in all |
| `RecoveryProgress.WatchDecides` | internal/cnpgi/recovery_operation.go:242-280 | the watch is lost exactly by a broken stream, a removed, nameless or unversioned Pod of the operation or one Pod too many; any other event is followed |
| `RecoveryProgress.CheckDecides` | internal/cnpgi/recovery_operation.go:280-291 | a check gives up exactly on a fault, goes on watching unchanged while something is pending, and otherwise certifies |
| `RecoveryProgress.AbandonedIsClosed` | internal/cnpgi/recovery_operation.go:218-243 | from every reachable state an observer that gives up can make the record uncertain if it is still active, and then it is durably closed |
| `RecoveryProgress.MonitorAfterLeave` | internal/cnpgi/recovery_operation.go:205-214 | an observer that leaves a closed record frees its monitor, any other leaves it marked done |
| `RecoveryWitness.ReleaseIsReachable` | internal/cnpgi/recovery_operation.go:202-350 | a release does happen in some run, so the safety results are not vacuous; with a repeated listing it happens without one watched Pod |
| `WalNames.PowerOfTwoTest` | internal/postgres/preflight.go:266-269 | only powers of two pass the bit test on a segment size |
| `WalNames.PowersPassTest` | internal/postgres/preflight.go:266-269 | and every power of two passes it |
| `WalNames.DivisionIsNative` | internal/postgres/archive.go:274-282 | quotient and remainder of the model are integer division on unsigned values |
| `WalNames.FieldsFit` | internal/postgres/archive.go:274-282 | log and segment number of any 64-bit LSN fit eight hex digits, so padding never goes negative |
| `WalNames.PrintedName` | internal/postgres/archive.go:274-282 | the printed name is the three fields in fixed-width upper-case hex |
| `WalNames.NameRoundTrip` | internal/cnpgi/recovery_wal.go:168-187 | decoding a printed name by shift, OR and multiply gives the timeline and the segment's start |
| `WalNames.DecodeRoundTrip` | internal/cnpgi/recovery_wal.go:168-187 | printing what a valid name decodes to gives that name back |
| `WalNames.NamesIdentifySegments` | internal/postgres/archive.go:274-282 | two LSNs have the same name if and only if they share timeline and segment |
| `WalNames.NameOrderIsSegmentOrder` | internal/postgres/archive.go:274-282 | within a timeline byte order of names is order of segments |
| `RecoveryWal.ValidatePath` | internal/repository/plan.go:170-194 | the timeline-path loop accepts exactly well-shaped paths and finds the backup's timeline |
| `RecoveryWal.WalkRequired` | internal/repository/plan.go:204-222 | the loop over required WAL computes where the chain of ranges ends, or refuses it |
| `RecoveryWal.ValidatePlan` | internal/repository/plan.go:143-230 | the target, path and required-WAL part of validation: accepted exactly when the path is well shaped, the backup stops early enough for its timeline and the target, and the required ranges chain from the backup to the target timeline |
| `RecoveryWal.PlanBackupIsBefore` | internal/repository/plan.go:231-276 | the backup of a valid plan is the one asked for, stopped before the target time or LSN, and ended before every later fork of the path |
| `RecoveryWal.FrontierOnTarget` | internal/repository/plan.go:204-230 | unless the target is immediate and nothing is required, the frontier of a valid plan lies on the target timeline |
| `RecoveryWal.Eligible` | internal/repository/plan.go:231-276 | a backup is eligible exactly when it stops before its timeline is left and before the target, and an LSN target lies on the last timeline of the path |
| `RecoveryWal.RequiredHasNoGap` | internal/repository/plan.go:204-222 | between the end of the bundle and the frontier every position is in a required range of the timeline the path has there |
| `RecoveryWal.IntersectsIsOverlap` | internal/repository/coverage.go:12-50 | the interval test means that some position lies in both |
| `RecoveryWal.VerifyLocalBundle` | internal/cnpgi/recovery_wal.go:132-167 | the chunked read computes the verdict, which is "verified" exactly for a regular unchanged file with the recorded size and hash |
| `RecoveryWal.VerifiedIsGenuine` | internal/cnpgi/recovery_wal.go:132-167 | the verdict used for every request of a replay is "verified" if and only if the file is genuine, for any hash function |
| `RecoveryWal.ExitOneMeans` | internal/cnpgi/wal_fetch.go:49-64 | exit 1 and exit 0 characterised over every answer of archive, gate and local file |
| `RecoveryWal.EndMeans` | internal/cnpgi/recovery_wal.go:105-131 | whatever the name, exit 1 means a genuine bundle file, a segment of the target timeline at or past the frontier, or a history file of timeline 1 or of a timeline not on the path |
| `RecoveryWal.SegmentExit` | internal/cnpgi/recovery_wal.go:105-131 | for a segment exit 1 is given exactly on a clean miss when no required position is in it and it is bundled with a genuine copy, or unbundled on the target timeline at or past the frontier |
| `RecoveryWal.HistoryExit` | internal/repository/coverage.go:20-27 | for a history file exit 1 is given exactly on a clean miss when its timeline is the first or not on the path |
| `RecoveryWal.OtherNamesNeverEnd` | internal/repository/coverage.go:12-32 | any other name, and any name under an invalid plan, never exits 1 |
| `RecoveryWal.BundledSegmentIsUsed` | internal/cnpgi/recovery_wal.go:116-126 | a segment wholly inside the bundle with a genuine copy is served from it on a clean miss |
| `RecoveryWal.RestoredNames` | internal/repository/plan.go:27-51 | exit 0 is given exactly for the four forms of WAL names, in a healthy admitted session whose archive has the file |
| `RecoveryWal.ServedMeans` | internal/cnpgi/recovery_wal.go:105-131 | where a segment was served from, and from the archive alone if it overlaps a required range |
| `RecoveryWal.ReplayEndsOnlyPastFrontier` | internal/cnpgi/recovery_wal.go:88-131 | in any sequence of requests "end of archive" is said only on the target timeline at or after the frontier; every segment before came from the archive or from a bundle file of the recorded size and hash, and from the archive alone where a required range overlaps |
| `RecoveryWal.RequiredWasServed` | internal/cnpgi/recovery_wal.go:88-131 | when a replay along the plan's timelines is told the archive ends, every required position was served before, from the archive, on its own timeline |
| `RecoveryWal.TargetWasRequested` | internal/cnpgi/recovery_wal.go:88-131 | a replay along the plan's timelines cannot pass an LSN target without a request for it on the target timeline |
| `RecoveryWal.ReplayCanEnd` | internal/cnpgi/recovery_wal.go:105-131 | for every segment size and hash a replay that follows a plan with required ranges on two timelines ends so, after archived segments on both |
| `ArchiveScan.AncestorStep` | internal/postgres/archive.go:40-50 | the proper ancestors of a native path are its directory and that directory's ancestors |
| `ArchiveScan.NativePathMeans` | internal/postgres/archive.go:40-50 | the admitted paths are exactly those whose walk from a root, component by component, never leaves it and arrives where the path says |
| `ArchiveScan.AdmittedStaysInside` | internal/postgres/archive.go:40-50 | an admitted path is relative and walks down only, from wherever it starts |
| `ArchiveScan.ComponentsJoin` | internal/postgres/archive.go:40-50 | the components are what lies between the slashes of a path |
| `ArchiveScan.EntryNames` | internal/postgres/archive.go:198-207 | files keep their names, directories lose a final slash, and two built-in directories their leading dot |
| `ArchiveScan.HasFileAncestor` | internal/postgres/archive.go:177-259 | the upward walk finds a regular-file ancestor exactly when there is one |
| `ArchiveScan.ScanArchive` | internal/postgres/archive.go:177-259 | accepted exactly when names are valid and distinct, no file is an ancestor of an entry, sizes and counts are within limits, only zeros follow the end, and headers, contents, paddings, terminator and tail together stay within the byte limit; then each file is visited once |
| `ArchiveScan.AdmissibleMeans` | internal/postgres/archive.go:207-259 | member by member: admissible exactly when each header passes, no two share a name, none lies below a file, and number and total size are within bounds |
| `ArchiveScan.VisitedExactlyOnce` | internal/postgres/archive.go:177-259 | a file is visited if and only if it is a regular member, and no path twice |
| `ArchiveScan.AdmissionIgnoresOrder` | internal/postgres/archive.go:177-259 | permuting the members changes neither the verdict on them nor on the byte limit |
| `CaptureInventory.CollectInventory` | internal/postgres/capture.go:367-445 | the archive loop accepts exactly admissible archives whose paths never collide, and tabulates their files |
| `CaptureInventory.AdmitCapture` | internal/postgres/capture.go:367-445 | the archives and manifest part of verification: passed exactly when all archives are admissible and agree with the manifest |
| `CaptureInventory.AdmittedCaptureIsManifested` | internal/postgres/capture.go:430-445 | then paths are globally unique, the manifest lists only present files, and all but the two sanctioned files are listed, with equal sizes |
| `CaptureInventory.MemberIsManifested` | internal/postgres/capture.go:404-445 | every regular member of a data archive is in the manifest under its cluster-wide path, tablespace prefix included, with its size; metadata files are at most 64 KiB |
| `CaptureInventory.ManifestIsMembers` | internal/postgres/capture.go:430-445 | and every manifest entry is such a member |
| `CaptureInventory.ManifestDecides` | internal/postgres/capture.go:430-445 | admissible archives are admitted exactly when members and manifest list each other with equal sizes, but for the two sanctioned files |
| `CaptureInventory.ArchivesAreClean` | internal/postgres/capture.go:367-429 | every archive of an admitted capture ends properly, with zeros only behind its end |
| `CaptureInventory.BootstrapWalIsWhole` | internal/postgres/capture.go:380-403 | the WAL archive holds only whole segments under WAL names and empty archive-status marks; sizes and entry counts stay within the limits |
| `CaptureInventory.WalFileMeans` | internal/postgres/capture.go:393-402 | exactly which files pass in the WAL archive |
| `CaptureInventory.EveryFileCounts` | internal/postgres/capture.go:367-445 | every regular file of every data archive is in that inventory under its cluster-wide path |
| `CaptureInventory.ValidateTablespaceMap` | internal/postgres/capture.go:627-645 | the loops accept exactly the maps the line rules accept; with distinct OIDs, exactly the permutations of the expected lines |
| `CaptureInventory.MapIsPermutation` | internal/postgres/capture.go:627-645 | line rules and permutation are the same, given distinct OIDs |
| `Workspace.RunKeeps` | internal/postgres/workspace.go:36-117 | every state reachable with crashes at any step satisfies the workspace invariant |
| `Workspace.RemovalIsExclusive` | internal/postgres/workspace.go:60-105 | any part of the tree is removed only under an exclusive lock, with no inheritor of another lock alive, with this Pod's owner record in place, and only from a private tree that is not older than the record |
| `Workspace.ReadyHasFreshTree` | internal/postgres/workspace.go:96-117 | whoever has acquired the workspace holds the lock and has a whole private tree made under its Pod's record |
| `Workspace.OpenTreeRefused` | internal/postgres/workspace.go:96-100 | a tree that is not private is refused and left alone |
| `Workspace.OwnerCanAcquire` | internal/postgres/workspace.go:36-117 | with the lock free, its record in place and no tree or a private one, a Pod can always acquire again |
| `Workspace.FirstCanAcquire` | internal/postgres/workspace.go:36-117 | with the lock free and neither record nor tree, any Pod can acquire |
| `Workspace.SurvivorExcludes` | internal/postgres/command.go:43-71 | while any process that inherited an acquired descriptor lives, every other acquirer is refused |
| `Workspace.LegacyUntouched` | internal/postgres/workspace.go:65-70 | a tree that was there before any owner record is never changed again |
| `Workspace.TornRefusedForever` | internal/postgres/workspace.go:71-94 | once the bytes of the owner record begin with no Pod's whole record, no acquirer ever owns the workspace again |
| `Workspace.NobodysRecordMeans` | internal/postgres/workspace.go:71-94 | exactly which bytes begin with no Pod's whole record |
| `Workspace.OtherRecordsCanBeOwned` | internal/postgres/workspace.go:71-94 | any other record that is not yet synced is one host crash away from a new owner |
| `Workspace.NeverChangesPod` | internal/postgres/workspace.go:36-117 | whatever crashes, two Pods that ever owned the workspace are the same, unless the longer name has a line end after its first character |
| `Workspace.CutIsAnotherRecord` | internal/postgres/workspace.go:75-94 | exactly which Pod names can be cut into another Pod's record |
| `Workspace.PodsThatLoseTheWorkspace` | internal/postgres/workspace.go:36-117 | some run lets this Pod and a Pod with a shorter name own the workspace if and only if this Pod's name has a line end after its first character |
| `StrictJson.Decoder.ScanValue` | internal/configuration/repository.go:207-238 | the recursive closure over the mutable decoder is the scan of the remaining tokens |
| `StrictJson.ScanOfTree` | internal/configuration/repository.go:207-238 | the tokens of a value are accepted exactly when no object in it repeats a key and nothing lies below level 32, and exactly they are consumed |
| `StrictJson.ScanFindsTree` | internal/configuration/repository.go:207-238 | whatever the scan consumes is the token sequence of some value |
| `StrictJson.AcceptedDocuments` | internal/configuration/repository.go:201-244 | the accepted documents are exactly single values without repeated keys, at most 32 levels deep |
| `StrictJson.StrictPass` | internal/configuration/repository.go:201-244 | the pass over a fresh decoder decides exactly that |
| `BackupObserver.Observer.Observe` | internal/cnpgi/backup_observer.go:70-91 | the first failure fixes the object and, if it is news, makes it pending and queued |
| `BackupObserver.Observer.Claim` | internal/cnpgi/backup_observer.go:165-173 | only the caller that clears the pending flag reports |
| `BackupObserver.Metrics.Failure` | internal/cnpgi/backup_metrics.go:65-76 | counts the failure and warns exactly when none or an old enough warning precedes it |
| `BackupObserver.Metrics.Configure` | internal/cnpgi/backup_metrics.go:39-48 | sets the two maximum ages and leaves counters and warnings alone |
| `BackupObserver.RunKeeps` | internal/cnpgi/backup_observer.go:70-180 | in every interleaving each pending failure is queued or with exactly one worker |
| `BackupObserver.AtMostOneFailure` | internal/cnpgi/backup_observer.go:149-180 | between two reports of one UID there is a deletion of it |
| `BackupObserver.OnlyOwnBackupsReported` | internal/cnpgi/backup_observer.go:149-180 | only failed full or differential Backups of this plugin are reported, under that type |
| `BackupObserver.InitialFailureSilent` | internal/cnpgi/backup_observer.go:70-91 | a Backup that had failed in the initial list is never reported while it lives |
| `BackupObserver.FailureOwedOrReported` | internal/cnpgi/backup_observer.go:134-180 | any other first failure is reported or still owed, never lost, until deletion |
| `BackupObserver.ReportedUnderFirstType` | internal/cnpgi/backup_observer.go:149-180 | a report carries the type of the first failure its worker began with, and it is the type of the current life's first failure if and only if the object was not deleted in between or both types are equal |
| `BackupObserver.TypeCanBeStale` | internal/cnpgi/backup_observer.go:149-180 | a run in which deletion during the report makes that the previous life's type |
| `BackupObserver.CounterIsTally` | internal/cnpgi/backup_metrics.go:65-76 | a series counts exactly the reports under its labels since it was last pruned |
| `BackupObserver.WarningsApart` | internal/cnpgi/backup_metrics.go:65-76 | warnings under one label set are at least five minutes apart while the series lives |
| `BackupObserver.WarnsWhenDue` | internal/cnpgi/backup_metrics.go:65-76 | a report warns if and only if none under its labels warned in the five minutes before, while the series lives |
| `PodLists.PutVolumesLoop` | internal/cnpgi/placement.go:316-326 | the volume loop fails exactly on a name taken by someone else, and otherwise upserts every owned volume |
| `PodLists.PutMountsLoop` | internal/cnpgi/placement.go:327-350 | the mount calls fail exactly on a name or path taken by another mount, and otherwise upsert every owned mount |
| `PodLists.PutVolumesFrame` | internal/cnpgi/placement.go:316-326 | names stay unique, other volumes keep content and order |
| `PodLists.PutMountsTwice` | internal/cnpgi/placement.go:327-343 | adding the mounts again is admitted and changes nothing |
| `Placement.CheckUniqueNames` | internal/cnpgi/collisions.go:9-33 | accepts exactly unique volume names, container names over both lists, and mount paths per container |
| `Placement.FindTargetsLoop` | internal/cnpgi/placement.go:168-205 | the mount loop finds the data mounts, the PVCs to guard and the missing targets, or refuses |
| `Placement.UnwrapWrapped` | internal/cnpgi/placement.go:122-125 | the recovery guard's wrapping of a command line is undone exactly |
| `Placement.Template.Inject` | internal/cnpgi/placement.go:99-391 | the in-place edit succeeds exactly on placeable Pods and yields the specified Pod |
| `PlacementContents.PlacedContents` | internal/cnpgi/placement.go:206-391 | a placed recovery container runs its own command line behind the guard and knows its Pod UID, any other keeps its own; every owned volume, main mount and annotation is there with its content; the preparer runs before the sidecar, whose mode and mounts are those of the main container |
| `PlacementContents.PlacedOnlyIf` | internal/cnpgi/placement.go:99-160 | a Pod is placed only in its own PID namespace, under the Cluster's user and group, for one of the manager's four commands, a recovery Job only for a restore, and with every target mounted |
| `PlacementContents.ReplacesOnlyOwn` | internal/cnpgi/placement.go:156-159 | without this Cluster's mark nothing that bears an owned name is replaced: such a Pod is not placed |
| `PlacementContents.MainIndexMeans` | internal/cnpgi/placement.go:109-117 | the main container is the first with one of the four names, or the only one |
| `PlacementContents.TargetsFound` | internal/cnpgi/placement.go:168-205 | the mount loop finds all targets exactly when each is mounted whole and writable from a claim, and nothing else lies in the database area |
| `PlacementContents.AdmittedMounts` | internal/cnpgi/placement.go:168-205 | the data mounts given to the sidecar are one per target, by name and path |
| `PlacementContents.GuardPairs` | internal/cnpgi/placement.go:186-202 | in a recovery each data mount is guarded under the UID of its claim |
| `PlacementContents.GuardIsSound` | internal/cnpgi/placement.go:202-214 | in a placed recovery the guarded claims are distinct, known and include the data directory |
| `PlacementContents.TargetPaths` | internal/cnpgi/placement.go:160-167 | the targets are the data directory, the WAL volume if any, and each tablespace, at their paths |
| `PlacementContents.TablespaceVolumeMeans` | internal/cnpgi/cluster.go:143-148 | the volume name of a tablespace, letter by letter |
| `PlacementContents.WrappableMeans` | internal/recoveryguard/config.go:139-172 | the guard admits exactly the restore command, the WAL option exactly if there is a WAL volume, and at most one of each logging flag in order |
| `PlacementContents.RecoveryIsPlaced` | internal/cnpgi/placement.go:99-391 | a recovery Pod that is placed, behind the guard |
| `PlacementSafety.ForeignListsKept` | internal/cnpgi/placement.go:316-391 | volumes and init containers of others keep content and order |
| `PlacementSafety.ForeignContainersKept` | internal/cnpgi/placement.go:327-391 | other containers are untouched; the main container keeps its user and group, its own command line, environment and foreign mounts, in order |
| `PlacementSafety.PlacedTwice` | internal/cnpgi/placement.go:99-391 | placing the result again changes nothing, and is accepted exactly when no ordinary container has the preparer's name |
| `PlacementSafety.ImpostorRefusedSecondTime` | internal/cnpgi/placement.go:366-382 | a Pod that is placed once and refused the second time |
| `Retention.KeepOnPath` | internal/retention/planner.go:138-157 | the loop over ranked candidates keeps exactly the window, its anchor, the minimum roots, the newest and, if the window is short, the oldest |
| `Retention.KeepAll` | internal/retention/planner.go:128-163 | over all paths, with the parents of what is kept |
| `Retention.KeptMeans` | internal/retention/planner.go:128-163 | a backup is kept if and only if it, or a differential of it, is inside the window, the newest by its start, among the minimum newest full roots, the newest, or the oldest of a path shorter than the window, on some path it serves |
| `Retention.ReachableIsServes` | internal/retention/planner.go:114-121 | the next-fork test holds exactly when the backup lies on a timeline of the path and ended before every later fork |
| `Retention.ShortenedMeans` | internal/retention/planner.go:154-157 | the window is reported shortened exactly when some path has backups, all younger than the window |
| `Retention.WindowPreserved` | internal/retention/planner.go:128-157 | for every path and every instant of the window the newest backup completed by then is kept |
| `Retention.LatestKept` | internal/retention/planner.go:153-153 | the newest backup of every path is kept |
| `Retention.ParentsKept` | internal/retention/planner.go:159-163 | a kept differential keeps its full |
| `Retention.MinimumRootsKept` | internal/retention/planner.go:139-152 | a full root is dropped only if at least the minimum number of newer full roots that serve the path are kept |
| `Retention.FullsExpireLast` | internal/retention/planner.go:164-175 | a full expires only after all its differentials |
| `Retention.ExpiryOrder` | internal/retention/planner.go:169-175 | differentials expire before fulls, each by ascending ID |
| `RetentionWal.WalkSegments` | internal/retention/planner.go:215-221 | the segment loop accepts exactly when every position of the stretch is in a live segment, without 64-bit wrap-around |
| `RetentionWal.CoverPath` | internal/retention/planner.go:198-231 | the path loop accepts exactly covered paths and lowers the floor to what the backup needs |
| `RetentionWal.ReplayHasNoGap` | internal/retention/planner.go:198-231 | a covered backup replays without a gap on every timeline from its own on |
| `RetentionWal.CoveredIsReplays` | internal/retention/planner.go:198-231 | the walk with its range bound accepts exactly the backups whose recovery along the path reads live segments only |
| `RetentionWal.PlanWal` | internal/retention/planner.go:190-239 | a floor is given exactly when every retained backup is covered on every path it serves and one of them needs the current timeline; it is the least segment any of them needs there, or the hint's if lower |
| `RetentionWal.TrimIsSafe` | internal/retention/run.go:186-196 | retiring any of the current-timeline segments that start below the floor, or all of them, leaves every retained backup replayable on the surviving segments |
| `RetentionWal.KeptStaysRestorable` | internal/retention/run.go:186-196 | every kept backup stays restorable on every path it serves after any such batch |
| `RetentionWal.FindCurrent` | internal/retention/planner.go:78-95 | the current timeline is the only leaf; competing leaves are refused |
| `RetentionWal.Plan` | internal/retention/planner.go:50-240 | a decision exists exactly for valid inventories with one leaf, full coverage and a need of the current timeline; it keeps, expires and trims as specified |
| `RetentionWal.AcceptableMeans` | internal/retention/planner.go:50-240 | a plan is accepted exactly when the inventory is consistent, everything to be kept replays on every path it serves, and something kept reads the only leaf timeline |
| `RetentionWal.FloorBelowNeeds` | internal/retention/planner.go:222-238 | the floor is at or below the redo position of every kept backup of the current timeline, the fork every other one enters it at, and the hint |
| `RetentionWal.FloorIsJustified` | internal/retention/planner.go:222-238 | and its segment holds one of these positions |
| `RetentionWal.WindowStaysRestorable` | internal/retention/property_test.go:90-143 | after the expiries of an accepted plan and any batch of its retirements, recovery to every instant of the window on every path still has its backup, that backup's full, and every position it reads in a surviving segment |
| `RetentionWal.PlanAccepts` | internal/retention/planner.go:50-240 | for every segment size some inventory meets the condition that Plan decides, with a floor above its first segment, which alone can be retired |
| `RecoveryTarget.ReadTarget` | internal/cnpgi/recovery_plan.go:78-134 | whatever order the map is iterated in, verdict and target are those the fields determine, with at most one stopping point |
| `RecoveryTarget.StepMeans` | internal/cnpgi/recovery_plan.go:80-122 | one loop turn succeeds exactly when the fields so far are acceptable together |
| `RecoveryTarget.ValidMeans` | internal/repository/plan.go:109-142 | which kinds may be exclusive, which need a backup, and which values they take |
| `RecoveryTarget.CanonicalMeans` | internal/cnpgi/recovery_plan.go:94-103 | the accepted timelines are the decimal numbers from 1 below 2^32 in their one spelling |
| `Capacity.AcceptedFits` | internal/configuration/capacity.go:75-83 | an accepted filesystem has the bytes free and is not larger than declared, unless rounding wrapped |
| `Capacity.FittingIsAccepted` | internal/configuration/capacity.go:75-83 | every filesystem that has the bytes free and is not larger than declared is accepted, whatever its block size |
| `Capacity.TrustworthyBlockSizes` | internal/configuration/capacity.go:75-83 | exactly which block sizes can be trusted for a requirement |
| `Capacity.RealBlockSizes` | internal/configuration/capacity.go:75-83 | every block size that leaves room for 8 TiB below 2^63 is trustworthy |
| `Capacity.FiniteMount` | internal/configuration/capacity.go:60-73 | accepts exactly a path mounted once, by a dedicated writable ext4 or xfs |
| `Capacity.FiniteMeans` | internal/configuration/capacity.go:60-73 | said of the mount table: the one mount of the path, whole, writable, ext4 or xfs, and on a real device |
| `Capacity.CheckCapacity` | internal/configuration/capacity.go:87-135 | accepts exactly when each budget is met and all devices differ |
| `Capacity.AcceptedBudgetsFit` | internal/configuration/capacity.go:87-135 | every accepted budget has its bytes free, and any two are on distinct devices |
| `Capacity.ReservationCovers` | internal/postgres/capture.go:104-109 | the int64 sum never wraps and holds archives, their spool, WAL, entries, the readback spool and six WAL spools at once, with a gibibyte and a tenth of the native peak to spare |
| `CaptureClock.LabelGivesStart` | internal/postgres/label_time.go:17-62 | for any rendering of instants, an accepted label time is the true start, and it is accepted exactly when no other second reads the same |
| `CaptureClock.SearchIsBounded` | internal/postgres/label_time.go:38-48 | at most 21,601 candidates |
| `CaptureClock.ReferenceStaysSummarized` | internal/postgres/differential.go:22-31 | an eligible reference stays in the WAL-summary window with more than a day to spare until the capture times out |
| `CaptureClock.ShorterKeepIsNotEnough` | internal/postgres/preflight.go:76-86 | the longest rejected summary keep time does not leave the spare day |

## Left out

- RecoveryWal.ValidatePlan: schema, identity, hold and operation IDs and the integrity of the backup chain (plan.go:144-169) are not included; texts of times and LSNs are already numbers.
- CaptureInventory.AdmitCapture: the label, label-time, control and tablespace-map gates (capture.go:446-485) are not included; label time and tablespace map are modelled on their own.
- Serving, certificates, S3 transport, Kubernetes clients, gRPC and metrics text: plumbing over libraries.
- Repository gate, catalog, publication and garbage-collection I/O: only the retention decision is modelled, not the deletion protocol that carries it out.
- The recovery and workspace protocols are state machines over values, not classes: what two goroutines of one process do between two external effects is one step, as the source's mutexes make it.
- Monitors of other Clusters appear in the recovery protocol only through the bound of 16 monitors; one run follows one operation record.
- Pods both created and deleted beyond the processed watch prefix, deletion of the operation ConfigMap while its Cluster lives, and reuse of Kubernetes UIDs are environment assumptions.
- The released source hold may be established again by a stale caller; release safety is proved, not absence of the hold, and no liveness.
- Tar, gzip, SHA-256, JSON lexing, UTF-8 checking, byte limits of documents and SQL are outside: members, token streams and verdicts are inputs. The second, typed JSON decoding pass is not modelled.
- The loss of directory entries in a host crash is not modelled in the workspace: a crash truncates unsynced record bytes, and entries once created stay. Foreign trees appear only while nobody holds the lock.
- The kill-and-wait loop and the bounded output of native commands are not modelled; any process may exit at any time instead.
- Projection contents, probes and resource fields of placed containers are opaque values; the order of guard targets inside the projection is not modelled.
- Retention reasons are not modelled, only which backups are kept; the inventory checks of the planner are stated as predicates, not by their loops.
- Well-formedness of target times, LSNs, names, transaction IDs and backup IDs is given as sets of texts.
- The keys of a recovery target are an enumeration in place of their names.
- Budget rewriting for WAL operations, label parsing beyond the start time, and the manifest scanner are left out: they would add only easy members.
