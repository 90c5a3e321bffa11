# The workspace control plane, as one state machine

A workspace is a row in the database, a container, a volume under `/home`, and archive
objects in a bucket. Four kinds of process change them with no lock in common: a controller
that plans from the row, executes against Docker and S3, and saves with a compare-and-set; an
observer that lists the world and later writes what it saw; a garbage collector that lists,
then reads, then deletes; and the API with the TTL runner. This project models them as one
interleaved state machine, one external effect at a time, and proves what survives: which
stored facts can be stale and how, that nothing is deleted before it is safe elsewhere, that a
home comes back byte for byte, that the system converges and in how many rounds. Beside it
stand the small machines the control plane leans on: circuit breaker and retry, activity
buffer, log limiter, SSE deduplication, leader election.

## How it is laid out

| file | what it models |
|---|---|
| `domain.dfy`, `planner.dfy`, `controller.dfy` | the row, `judge`/`plan`, which rows are loaded and what a save writes |
| `archive.dfy`, `actuator.dfy` | the storage job and `_execute`, effect by effect, cut off anywhere |
| `system.dfy` | one workspace with every process around it: 30 kinds of step |
| `safety.dfy`, `staleness.dfy`, `contents.dfy`, `punctual.dfy` | invariants of all runs, the theorems read off them, and for each hypothesis the proof that it forbids a step exactly where it does harm |
| `history.dfy` | what the columns of a row say about the run that led to it |
| `convergence.dfy` | rounds of observing and reconciling |
| `protocol.dfy` | any number of controllers with snapshots of any age on one row |
| `naming.dfy`, `world.dfy` | names as strings, the shared world, and why workspaces do not meet in it |
| `workspace_controller.dfy`, `observer.dfy`, `gc.dfy`, `ttl.dfy` | the processes as objects with methods, over the whole table and the whole world |
| `life.dfy`, `mishaps.dfy`, `keyless_archive.dfy` | a whole cycle in which nothing goes wrong, and what becomes of it if one hypothesis is broken, or none |
| `breaker.dfy`, `retry.dfy`, `activity.dfy`, `ratelimit.dfy`, `sse.dfy`, `leader.dfy` | the machines beside it |

`system.dfy` follows one workspace. That is enough because container names, volume names and
archive keys keep workspaces apart (`naming.dfy`), so a batch of workspaces whose effects
interleave in any way leaves each one as if it had run alone (`world.dfy`), and the methods of
`workspace_controller.dfy`, `observer.dfy` and `gc.dfy`, which work on string-named things and
whole tables, do to each workspace what the steps of `system.dfy` do to it
(`ExecutingIsAttempt`, `TryingIsARun`, `ObservationIsAStep`, `OrphansAgree`).

In `system.dfy` an archive key is identified by the op id it is built from; zstd and sha256 are
an injective encoding and an injective checksum; creating what exists and deleting what does
not succeed; a volume is not removed while a container, a storage job's too, refers to it; and
a container that mounts a missing volume brings it, empty, as Docker does for the names under
`Binds` (`src/codehub/infra/docker.py:46`).

## Hypotheses, and what goes wrong without them

Each hypothesis is a guard on single steps, with a proof that, from a state in which the
invariant holds, a step keeps it if and only if the guard does. A run named beside a guard
breaks that guard and no other. `life.dfy` is a run that keeps them all, through one whole cycle.

- Safety asks one thing of the collector (`Safety.GcTimely`): that it does not read the
  protected paths inside the first tick of an operation with an archive of it already listed
  (`GcTimelyIsExact`, `GcInsideFirstTick`). What is uploaded before a volume goes, and what the
  collector spares, needs nothing else, whatever HEAD requests answer (`ArchiveBeforeDelete`,
  `GcSafety`).
- That the archive under a key also verifies asks (`Safety.SealKeeps`) that a job that packs
  again over a whole archive, a HEAD request on it having failed, does not die between its two
  uploads over a marker of another packing (`SealKeepsIsExact`, `TornPairLosesHome`). A dying
  first tick may: its op id is forgotten with it.
- Staleness (`Staleness.Orderly`): an archive job that is entered again brings the volume back,
  empty, to remove it again. Once the end of the operation is stored or being listed, such a
  re-entry must not be given up half-way, and once it is stored no listing may catch the volume
  (`TidyIsExact`, `GivenUpJobLeavesEmptyVolume`, `CaughtVolumeIsStale`). Every other re-entry,
  and every other listing, is safe. Stored conditions are then those of the world whenever no
  operation is under way and none has timed out, no tick died and no container ended by itself
  since the last undisturbed observation.
- Contents (`Contents.Careful`), exact as a whole (`CarefulIsExact`): in addition, a missing
  volume is mounted only where nothing was in it or by a job that finds its archive there
  (`EmptyMountLosesHome`); what a job packs is the home, not what a failing tar got of it nor
  the empty volume of a job entered again (`FailedHeadLosesHome`); a user does not write between
  packing and removal; a first restore, for which no marker is stored yet, is not cut short
  before the home is there, since it completes on the volume alone
  (`src/codehub/control/coordinator/wc_planner.py:207`, `CutRestoreLosesHome`); ARCHIVING and
  RESTORING time out only with the volume whole or gone (`TimedOutJobLosesHome`); and no
  observation that has missed the archive but not the removal of the volume is stored after
  archiving has timed out (`MissedArchiveLosesHome`). Dying ticks and deletions that bypass the
  API are ruled out outright.
- In runs without timeouts most of this holds by itself: nothing need be asked of mounts, of
  users, or of the order in which an observation makes its three lists
  (`PunctualRunsAreCareful`).
- Convergence: wherever a careful run leaves a live workspace with no tick on it, rounds of
  observing and reconciling bring it to its desired state for good if and only if
  `Convergence.CanConverge` holds there (`CarefulConvergesIff`): the row is not in the blind spot
  of `_load_for_reconcile`, which careful runs do get into (`DriftedIsReachable`); a restore
  without a key runs out of time some day; and if all there is is an archive that no key names,
  which careful runs do leave (`UnkeyedIsReachable`), either nothing else is wanted, or a
  PROVISIONING or STARTING under way brings a volume in time. In how many rounds is said for
  healthy rows, which are all but those archives without a key (`ReachableIsStartable`): idle
  ones in exactly the counted rounds (`ConvergesFromIdle`), those with an operation under way
  within two rounds and twice the graph distance (`ConvergesFromOperation`).
- Throughout, a storage job's container is gone when its attempt has ended. The code removes it
  then but swallows an error (`src/codehub/adapters/job/docker.py:110-117`), and a dying process
  does not get to it; the volume cannot be removed while that container is left
  (`src/codehub/infra/docker.py:457-458`).

## Where the code and its documentation part

The model follows the code.

- `docs/spec/00-contracts.md:174` and `docs/spec/00-contracts.md:247` have the archive key saved in the database
  before the volume is deleted. The code assigns it to the action before and saves it after
  (`src/codehub/control/coordinator/wc.py:311-314`, `366-380`), so a tick that dies between loses it, and the
  theorem says that the controller, not the row, holds the key.
- `docs/spec/00-contracts.md:161` and `162` ask for an archive key when ARCHIVING completes and for a marker
  equal to the key when RESTORING does. The code looks at neither key nor, without a marker, at
  the marker (`src/codehub/control/coordinator/wc_planner.py:196-219`).
- `phase_changed_at` is the start of the transaction that saves
  (`src/codehub/control/coordinator/wc.py:451-455`), not the moment the phase changes. The transaction begins with
  the first statement on the connection since its last commit; a tick that saves nothing does
  not commit, so it may begin many ticks before the one that saves (`StampCanPredateLoad`), and
  after the first save of a tick it begins anew. `PhaseHistory` says exactly what the stamp is
  then worth.
- The compare-and-set compares the operation column only, not the op id
  (`CasKeepsOperationIff`).

## Model

| member | source | states |
|---|---|---|
| Planner.JudgeExactly | src/codehub/control/coordinator/wc_judge.py:45-99 | each phase has its own condition on the observed resources and the deletion mark, and these exclude each other; unhealthy means a container without a volume |
| Planner.PlanExactly | src/codehub/control/coordinator/wc_planner.py:76-193 | when a plan completes, times out, reports a torn workspace, continues unchanged, starts under a new op id, or leaves an idle row idle, each as an if and only if |
| Planner.CompletesExactly | src/codehub/control/coordinator/wc_planner.py:196-219 | for each operation, the observed flags, marker and key with which a plan completes it, as an if and only if |
| Planner.PlansByTable | src/codehub/control/coordinator/wc_planner.py:100-139 | an idle row starts exactly what the documented table has for its judged phase and desired state, deletes whenever that is desired, and else stays idle with the judged error |
| Planner.UnmarkedDeletionNeverRests | src/codehub/control/coordinator/wc_judge.py:80-83 | an idle row with desired DELETED and no deletion mark is always planned a deletion again |
| Controller.LeftAloneIff | src/codehub/control/coordinator/wc.py:405-423 | no tick takes up a row if and only if it is marked as deleted, or idle and says ARCHIVED, STANDBY or DELETED as desired |
| Archive.MetaVouchesIff | containers/storage-job/archive.sh:23-43 | one job run keeps the marker truthful if and only if it does not pack something else over a whole archive, its HEAD having failed, and die between the uploads |
| Archive.ExitCodeIff | containers/storage-job/archive.sh:23-43 | the job exits with 0 if and only if it got through both uploads or found the pair whole; then the pair is this run's, or as it was; otherwise the marker is as it was |
| Archive.CrashOnly | containers/storage-job/archive.sh:23-43 | over any sequence of job runs under one key, each cut off anywhere and with any answers to its HEAD requests, the marker vouches for the tar beside it at every moment, if and only if no run is of that kind |
| Archive.ExitZeroCommits | containers/storage-job/archive.sh:23-43 | over any sequence of runs of which none is of that kind, one that exits with 0 leaves an archive that verifies |
| Archive.PresentIff | containers/storage-job/archive.sh:39-43 | both objects are there if and only if some run got as far as both uploads, and never the marker alone |
| Archive.HonestHeads | containers/storage-job/archive.sh:23-28 | as long as HEAD answers, the pair is that of the first run that got as far as both uploads |
| Archive.FullRunCommits | containers/storage-job/archive.sh:23-43 | one run that is not cut off commits whatever came before, and as long as HEAD answers later runs change nothing, whatever they would pack |
| Archive.ArchiveObjects.RunJob | containers/storage-job/archive.sh:23-43 | the job, statement by statement, with a failing HEAD, a failing tar and any cut, leaves the two objects and the exit code that `JobRun` says |
| Safety.SecureRun | src/codehub/control/coordinator/wc.py:283-380 | under the condition on the collector alone: a stored key names two objects, a key in hand means both were uploaded under it, and no orphan is in use |
| Safety.SafeRun | src/codehub/control/coordinator/wc.py:283-380 | in sound runs, in which HEAD requests may fail too, markers under the archive key and the current and last op id vouch for their tars but between two uploads |
| Safety.ArchiveBeforeDelete | src/codehub/control/coordinator/wc.py:307-314 | a live workspace loses its volume only to a deletion, or once tar and marker were uploaded under this operation's key and the action holds that key, whatever was aborted, retried or crashed before and whatever HEAD requests answered |
| Safety.KeysNameWholeArchives | containers/storage-job/archive.sh:23-43 | in sound runs the stored key names an archive that verifies, but between two uploads of a job packing it again, and so does the operation's own key at the moment it removes the volume |
| Safety.RowFirst | src/codehub/services/workspace_service.py:47-67 | before a workspace has a row nothing in the world bears its names |
| Safety.DeletedForEver | src/codehub/services/workspace_service.py:179-202 | a deletion mark stays as it is in every run, and no controller loads the row again |
| Safety.GcSafety | src/codehub/control/coordinator/scheduler_gc.py:46-130 | the collector never removes container, volume, the archive under the key, or the archive being made, of a workspace that is live at that moment, whatever HEAD requests answer; the stored key always names two objects |
| Safety.GcTimelyIsExact | src/codehub/control/coordinator/scheduler_gc.py:148-170 | reading the protected paths keeps the invariant if and only if no operation with a listed archive still has its op id uncommitted |
| Safety.SealKeepsIsExact | containers/storage-job/archive.sh:24-43 | an attempt or a tick that dies keeps the markers truthful if and only if it is not between its uploads over a marker of another packing, or is a first tick |
| Staleness.StaleObservationSafety | src/codehub/control/coordinator/observer.py:127-177 | with no operation under way, and none timed out nor a container ended by itself since the last quiet observation, the stored container and volume flags and the container and volume parts of a listing in flight equal the world |
| Staleness.StaleOnlyAlongTheOperation | src/codehub/control/coordinator/wc_planner.py:196-219 | during any operation but ARCHIVING each stored or listed flag is the present one or the one from before it, never anything older; STARTING always finds its volume |
| Staleness.ArchivingEndsTruly | src/codehub/control/coordinator/wc_planner.py:212-213 | during ARCHIVING, between ticks, conditions that read as its end are true and no listing contradicts them; a volume that is gone is in this operation's archive, so a job entered again packs nothing |
| Staleness.TidyIsExact | src/codehub/control/coordinator/wc.py:307-314 | giving up a re-entered archive job, or listing its volume, keeps staleness under control if and only if the end of the operation is not yet stored or being listed |
| Staleness.PunctualNeverTainted | src/codehub/control/coordinator/wc_planner.py:153-193 | runs without timeouts, dying ticks and containers that end by themselves always satisfy the premise of the staleness theorem |
| History.StoredWasListed | src/codehub/control/coordinator/observer.py:86-102 | in every run, stored conditions are null or each section is what its list call found in the world, all three within one observation |
| History.CompletionWasSeen | src/codehub/control/coordinator/wc_planner.py:196-219 | in every run, a tick completes an operation only after an observation has seen its end in the world, an archive for CREATE_EMPTY_ARCHIVE, the volume gone and an archive for ARCHIVING, and so on; only STOPPING and DELETING also end on a row never observed |
| History.StartIsTheSave | src/codehub/control/coordinator/wc.py:339-350 | while an operation is under way, its start time is the moment of the save that began it, and op id and operation have been the same since |
| History.TimedOutIff | src/codehub/control/coordinator/wc_planner.py:180-186 | a tick that does not find the end of an operation gives it up if and only if the save that began it is longer ago than the timeout |
| History.OpIdOutlives | src/codehub/control/coordinator/wc.py:343-346 | the op id stays, through completion and timeout, until a save begins the next operation |
| History.OnlySavesWrite | src/codehub/control/coordinator/wc.py:425-476 | phase, operation and error reason are always those of the last save, whatever other writers do |
| History.ErrorCountIs | src/codehub/control/coordinator/wc.py:352-358 | the error count is the number of saves with an error since the last one that completed an operation |
| History.DeletedIsDesired | src/codehub/services/workspace_service.py:197-199 | a row marked as deleted has desired state DELETED, in every run |
| History.StoppedBeforeRemoved | src/codehub/adapters/instance/docker.py:118-124 | the controller never removes a container that runs |
| Contents.KeptRun | src/codehub/control/coordinator/wc.py:283-327 | the contents invariant holds in every state of every careful run |
| Contents.CarefulIsExact | src/codehub/control/coordinator/wc.py:283-327 | for every kind of step but dying ticks and unmarked deletions: from a state in which the home is kept it is kept if and only if the step is careful |
| Contents.HomeSurvives | src/codehub/control/coordinator/wc.py:296-314 | in every state of a careful run a live workspace's last written home is on the volume or whole under the archive key; outside restoring and archiving a volume that is there holds it |
| Contents.CyclesPreserveContents | src/codehub/control/coordinator/wc_planner.py:135-139 | any number of archive and restore cycles, with failures and timeouts, bring back the same volume contents |
| Contents.NobodyWritesWhileArchiving | src/codehub/control/coordinator/wc_planner.py:243-282 | while archiving, unless tainted, no container runs, so the hypothesis about user writes is met by itself |
| PunctualRuns.PunctualRunsAreCareful | src/codehub/control/coordinator/observer.py:86-102 | in a run without timeouts the clauses about mounts, users, timeouts and observations hold by themselves, in whatever order the lists are made and however late they are stored |
| Life.ReachArchived | src/codehub/control/coordinator/wc_planner.py:243-282 | a run from creation to archive that keeps every hypothesis of every theorem |
| Life.ReachRestored | src/codehub/control/coordinator/wc_planner.py:243-282 | it goes on through the restore: a whole cycle, after which a volume made anew holds what the user wrote |
| Mishaps.EmptyMountLosesHome | src/codehub/adapters/job/docker.py:80 | archiving ends unobserved and times out, the stale volume flag starts another one, and its job archives the empty volume Docker brings for it: the home is lost |
| Mishaps.DriftedIsReachable | src/codehub/control/coordinator/wc.py:405-423 | a careful run to a healthy idle row that says STANDBY, as desired, with the volume gone |
| Mishaps.GivenUpJobLeavesEmptyVolume | src/codehub/adapters/job/docker.py:80 | without any timeout: a re-entered archive job is given up after its end was stored, archiving ends with an empty volume in place of the home, and the stored conditions do not show it |
| Mishaps.TimedOutJobLosesHome | src/codehub/control/coordinator/wc_planner.py:180-186 | a re-entered archive job is given up unseen and archiving times out with its empty volume there, which the next archiving packs under a key of its own |
| Mishaps.CaughtVolumeIsStale | src/codehub/control/coordinator/observer.py:86-102 | without any timeout: a listing catches the volume a re-entered job has brought, and is in flight when archiving ends with the volume gone |
| Mishaps.MissedArchiveLosesHome | src/codehub/control/coordinator/observer.py:86-102 | an observation lists archives before one is made and volumes after the volume is gone, is stored after a timeout, and an empty archive takes the place of the home's |
| Mishaps.FailedHeadLosesHome | containers/storage-job/archive.sh:24-25 | without any timeout: a HEAD request fails in a re-entered job, which packs the empty volume over the archive of the home |
| Mishaps.TornPairLosesHome | containers/storage-job/archive.sh:23-43 | without any timeout: a job packs again after a failed HEAD and dies between the uploads, the next entry takes the pair for whole and removes the volume, and no restore will accept it |
| Mishaps.CutRestoreLosesHome | src/codehub/control/coordinator/wc_planner.py:203-207 | without any timeout: a first restore is given up with the volume made and nothing in it, an observation completes it, and the workspace is as desired on an empty volume |
| Mishaps.GcInsideFirstTick | src/codehub/control/coordinator/scheduler_gc.py:46-66 | without any timeout: list and read of the collector fall inside a first tick and the live row ends up naming an archive that was collected |
| KeylessArchive.UnkeyedIsReachable | src/codehub/control/coordinator/wc_planner.py:212-216 | a careful run that ends with an archive no key names |
| Convergence.ConvergesFromIdle | src/codehub/control/coordinator/wc_planner.py:76-139 | from an idle healthy row the desired phase and world are reached after exactly twice the graph distance in rounds, not earlier, and kept for ever |
| Convergence.ConvergesIffNotDrifted | src/codehub/control/coordinator/wc.py:405-423 | an idle healthy row converges if and only if it does not already claim a resting phase its world is not in |
| Convergence.DriftedNeverMoves | src/codehub/control/coordinator/wc.py:405-423 | such a row is never loaded again and nothing ever changes |
| Convergence.OperationFinishesIff | src/codehub/control/coordinator/wc_planner.py:153-193 | an operation under way is over, and the row level with its world, within two rounds, if and only if its end is there to be seen, or there is time and something to execute, or it is out of time in a world as desired |
| Convergence.ConvergesFromOperation | src/codehub/control/coordinator/wc_planner.py:76-193 | from an operation under way the row is idle within two rounds, settled exactly the counted rounds later, which is at most two plus twice the graph distance, and stays so |
| Convergence.KeylessRestoreIdles | src/codehub/control/coordinator/wc.py:299-302 | the one operation excepted, a restore without a key, changes nothing until it is out of time |
| Convergence.UnkeyedNeverConverges | src/codehub/control/coordinator/wc.py:299-302 | if all there is is an archive without a key, something else is wanted, and no PROVISIONING or STARTING is under way, the workspace never gets anywhere |
| Convergence.ConvergesIff | src/codehub/control/coordinator/wc_planner.py:76-193 | from any intact row, idle or not, keyless or not: settled from some round on if and only if it is not in the blind spot, no restore without a key idles in it for ever, and an archive without a key is all that is wanted or an operation brings a volume in time |
| Convergence.CarefulConvergesIff | src/codehub/control/coordinator/wc.py:94-163 | the same for every live state of a careful run that has no tick on it, with any uuids not yet drawn |
| Convergence.ReachableIsStartable | src/codehub/control/coordinator/wc.py:283-380 | a live state of a careful run is, but between two uploads, one that rounds may start from, and healthy if and only if it is not an archive without a key |
| Convergence.ReconcileIsATick | src/codehub/control/coordinator/wc.py:128-163 | the reconcile of a round is load, acts and save of the interleaved system |
| Convergence.UncutArchiving | src/codehub/control/coordinator/wc.py:307-314 | an uninterrupted archiving attempt ends with the volume gone and what was on it committed, or with the archive this operation had already committed |
| Protocol.NonPreemptive | src/codehub/control/coordinator/wc.py:335-350 | under any number of controllers with stale snapshots the operation column moves only from none, to none or not at all; an operation always has a start time and an op id, none never has a start time |
| Protocol.FirstStarterWins | src/codehub/control/coordinator/wc.py:466-476 | a start succeeds exactly if no operation is under way, and a loser changes nothing |
| Protocol.OneWinner | src/codehub/control/coordinator/wc.py:466-476 | between two successful starts the column has been an operation and back at none |
| Protocol.CasKeepsOperationIff | src/codehub/control/coordinator/wc.py:346-350 | a continued operation keeps its op id and start time if and only if the snapshot had them, which comparing the operation alone does not ensure |
| Naming.ArchiveKeyRoundTrip | src/codehub/adapters/storage/s3.py:125-138 | a built key reads back as its workspace if and only if the id has no slash |
| Naming.ContainerNameRoundTrip | src/codehub/adapters/instance/docker.py:34-49 | a listed container name reads back as its workspace |
| Naming.VolumeNameRoundTrip | src/codehub/adapters/storage/s3.py:78-95 | a volume name reads back as its workspace |
| Naming.ArchiveKeysInjective | src/codehub/adapters/storage/s3.py:228 | archive keys are injective in workspace and op id |
| Naming.NamesInjective | src/codehub/adapters/storage/s3.py:78-79 | container and volume names are injective in the workspace |
| Naming.SqlPathIsArchiveKey | src/codehub/control/coordinator/scheduler_gc.py:159-162 | the path the collector's SQL builds is the key that `archive` builds |
| Naming.Newest | src/codehub/adapters/storage/s3.py:152-157 | picks the earliest listed of the objects of greatest modification time |
| Naming.GroupByWorkspace | src/codehub/adapters/storage/s3.py:116-139 | groups exactly the archive objects, each under its workspace, in listing order |
| Naming.ListArchives | src/codehub/adapters/storage/s3.py:108-170 | exactly one entry, naming the earliest listed of the newest, for each workspace with an archive, and none else |
| WorldModel.WriteBackReadsBack | src/codehub/adapters/storage/s3.py:78-79 | what is written under a workspace's names is what is read back |
| WorldModel.WriteBackSparesOthers | src/codehub/adapters/storage/s3.py:78-79 | and no other workspace reads anything different |
| WorldModel.TurnIsLocal | src/codehub/control/coordinator/wc.py:128-134 | one effect in the shared world is one move of its own workspace and nothing to any other |
| WorldModel.BatchIndependence | src/codehub/control/coordinator/wc.py:128-134 | however the executions of a batch interleave, each workspace ends as if alone, and others are untouched |
| WorldModel.InterleavingsAgree | src/codehub/control/coordinator/wc.py:128-134 | two interleavings with the same moves per workspace give the same result |
| WorkspaceControllerModel.ExecutingIsAttempt | src/codehub/control/coordinator/wc.py:283-327 | for every operation and every cut-off point, the closed form the methods meet is the effect-by-effect attempt |
| WorkspaceControllerModel.TryingIsARun | src/codehub/core/retryable.py:206-256 | entering again after each failure is a run of acts, aborts and re-entries of the interleaved system |
| WorkspaceControllerModel.AnyOrderIsThisOrder | src/codehub/control/coordinator/wc.py:128-134 | every interleaving of a batch leaves the resources and actions that the sequential loop leaves |
| WorkspaceControllerModel.Host.CreateVolume | src/codehub/adapters/storage/s3.py:203-206 | creates an empty volume if there is none; an existing one keeps its contents |
| WorkspaceControllerModel.Host.RemoveVolume | src/codehub/infra/docker.py:446-464 | refused exactly while a container refers to the volume, else the volume is gone |
| WorkspaceControllerModel.Host.DeleteContainer | src/codehub/adapters/instance/docker.py:118-124 | stop then remove, cut off anywhere, missing containers tolerated, other workspaces untouched |
| WorkspaceControllerModel.Host.ArchiveVolume | src/codehub/adapters/storage/s3.py:208-262 | brings the volume if it is missing, skips what is complete unless HEAD fails, else packs what it finds or as much as tar gets to, tar before marker, cut off anywhere |
| WorkspaceControllerModel.ArchivingJobIsArchiveSh | src/codehub/adapters/storage/s3.py:208-262 | `archive` returns if and only if its job exits with 0, does to the two objects what archive.sh does, and changes nothing else but for the volume it mounts |
| WorkspaceControllerModel.Host.RestoreVolume | src/codehub/adapters/storage/s3.py:264-319 | makes the volume, accepts only a committed archive, then syncs it wholly or partly |
| WorkspaceControllerModel.Host.FetchVerified | containers/storage-job/restore.sh:19-39 | yields the packed home exactly if tar and marker are there and agree |
| WorkspaceControllerModel.Host.StartContainer | src/codehub/adapters/instance/docker.py:64-116 | starts the container there is, else creates one, with its volume if that is missing, and starts it |
| WorkspaceControllerModel.Host.Execute | src/codehub/control/coordinator/wc.py:283-327 | resources, action and outcome of one entry, for each operation and cut-off point; no other workspace is touched |
| WorkspaceControllerModel.Host.ExecuteOne | src/codehub/control/coordinator/wc.py:237-281 | nothing if no execution is needed, else entries until one returns, the action keeping what earlier entries noted |
| WorkspaceControllerModel.Host.LoadForReconcile | src/codehub/control/coordinator/wc.py:405-423 | exactly the rows that meet the load condition, each once |
| WorkspaceControllerModel.Host.CasUpdate | src/codehub/control/coordinator/wc.py:329-476 | writes the new row if the operation column is the one loaded, else nothing |
| WorkspaceControllerModel.SavingIff | src/codehub/control/coordinator/wc.py:136-154 | a save that fails, or finds another operation than was loaded, changes nothing; any other stores the action and leaves the columns of others alone |
| WorkspaceControllerModel.Host.ExecuteAll | src/codehub/control/coordinator/wc.py:128-134 | each loaded workspace gets its own result, no other is touched |
| WorkspaceControllerModel.Host.PersistAll | src/codehub/control/coordinator/wc.py:136-154 | each save goes through or fails by itself; a failed one changes no other row |
| WorkspaceControllerModel.Host.Reconcile | src/codehub/control/coordinator/wc.py:94-163 | after a tick, with other writers in between, every row and every workspace's resources are given by that workspace's own row, resources and fate |
| ObserverModel.ContainerOwnerIs | src/codehub/adapters/instance/docker.py:37-49 | a listed container is read as a workspace's if and only if it bears that workspace's name |
| ObserverModel.VolumeOwnerIs | src/codehub/adapters/storage/s3.py:81-95 | a volume is read as a workspace's if and only if it is its home volume or is called just like it without the suffix |
| ObserverModel.ArchiveOwnerIs | src/codehub/adapters/storage/s3.py:123-138 | a bucket key is read as a workspace's if and only if it is one of its archive keys |
| ObserverModel.ContainerIsFaithful | src/codehub/control/coordinator/observer.py:86-102 | the container section written for a workspace is the one of the listed world |
| ObserverModel.VolumeIsFaithful | src/codehub/control/coordinator/observer.py:86-102 | the volume section is faithful if and only if the home is there or no volume bears the bare name |
| ObserverModel.ArchiveIsFaithful | src/codehub/adapters/storage/s3.py:108-170 | the archive section is set exactly if some tar of the workspace is there |
| ObserverModel.ObservationIsAStep | src/codehub/control/coordinator/observer.py:239-277 | the row written for a workspace is the one the interleaved system's write makes |
| ObserverModel.Observer.ObserveAll | src/codehub/control/coordinator/observer.py:86-102 | an observation exists exactly if all three list calls returned; later entries replace earlier ones |
| ObserverModel.Observer.BulkUpdateConditions | src/codehub/control/coordinator/observer.py:239-277 | every loaded id gets its three sections, null where nothing was seen, and no other row or column changes |
| ObserverModel.Observer.Reconcile | src/codehub/control/coordinator/observer.py:127-177 | all or nothing: one failed list writes nothing, else exactly the rows live at the load are overwritten, and containers that disappeared are those seen last time, gone now and still wanted |
| CollectorModel.PathsAreProtected | src/codehub/control/coordinator/scheduler_gc.py:148-170 | over the whole table a workspace's key is protected if and only if its own live row names it by archive key or op id |
| CollectorModel.OrphansAgree | src/codehub/control/coordinator/scheduler_gc.py:46-57 | listed less protected is, per workspace, what the interleaved system makes orphans |
| CollectorModel.Collector.DeleteArchives | src/codehub/control/coordinator/scheduler_gc.py:172-191 | removes the orphans whose removal succeeds, no other object, and counts those reported |
| CollectorModel.Collector.CleanupOrphanArchives | src/codehub/control/coordinator/scheduler_gc.py:46-74 | what goes is exactly what was in the bucket at the listing, starts with the deployment's prefix, ends as a tar, and is named by no live row of the later read, as far as its removal succeeds; every other object, and everything after a failed listing, stays |
| CollectorModel.CleansPerWorkspace | src/codehub/control/coordinator/scheduler_gc.py:46-57 | of each workspace, tar and marker go exactly if the tar was listed, its own row does not protect it, and the removal succeeds |
| CollectorModel.Collector.CleanupOrphanResources | src/codehub/control/coordinator/scheduler_gc.py:76-133 | containers, then volumes, of exactly the listed ids without a live row; each removal may fail by itself |
| CollectorModel.OnlyTheDeadAreCollected | src/codehub/control/coordinator/scheduler_gc.py:90-91 | a workspace live at the read keeps everything; of another nothing is left once both removals succeed |
| TtlModel.TtlRunner.Check | src/codehub/control/coordinator/scheduler_ttl.py:115-180 | to STANDBY go exactly the live, idle, RUNNING rows whose last access is more than the TTL ago, to ARCHIVED exactly the live, idle STANDBY rows whose phase changed more than the other TTL ago; nothing but their desired state changes |
| TtlModel.PhaseHistory | src/codehub/control/coordinator/wc.py:451-455 | in a run the stored phase is as old as its stamp, up to a lag, if and only if no save that changes the phase commits a transaction open for longer than that |
| TtlModel.ArchiveTtlHistory | src/codehub/control/coordinator/scheduler_ttl.py:148-166 | the archive TTL fires only for a row whose stored phase was STANDBY throughout the preceding TTL, but for the first lag of it |
| TtlModel.ArchiveTtlFires | src/codehub/control/coordinator/scheduler_ttl.py:148-166 | and it fires for every live, idle row whose stored phase has been STANDBY for longer than the TTL |
| TtlModel.StampCanLag | src/codehub/control/coordinator/wc.py:451-455 | a reachable save that stores a new phase a minute after its stamp |
| TtlModel.StampCanPredateLoad | src/codehub/control/coordinator/wc.py:128-134 | a reachable save whose stamp is ten minutes older than the load of its tick, left by a tick that saved nothing |
| BreakerModel.CircuitBreaker.Admit | src/codehub/core/circuit_breaker.py:111-125 | lets a call through exactly if the circuit is not open after the timeout check |
| BreakerModel.CircuitBreaker.OnFailure | src/codehub/core/circuit_breaker.py:186-210 | counts, stamps, and opens from half open or at the threshold |
| BreakerModel.CircuitBreaker.OnSuccess | src/codehub/core/circuit_breaker.py:165-184 | resets when closed, closes at the success threshold when half open, ignores a late success when open |
| BreakerModel.BreakerExplained | src/codehub/core/circuit_breaker.py:111-210 | for every log of overlapping calls: closed means failures since the last success are counted and below the threshold; half open means a probe was let through and since then nothing failed and too little succeeded; open means a failure time is recorded |
| BreakerModel.TransitionsExactly | src/codehub/core/circuit_breaker.py:150-210 | each transition as an if and only if on the log: closed to open at the failure that makes the threshold in a row, open to half open at a request after the timeout, half open to open at any failure, half open to closed at the success that makes the threshold since the probe |
| BreakerModel.OpenUntilTimeout | src/codehub/core/circuit_breaker.py:150-163 | an open circuit lets a call through if and only if the timeout has passed since the last counted failure (and its time is not 0) |
| BreakerModel.ClosingTakesSuccesses | src/codehub/core/circuit_breaker.py:165-184 | an opened circuit closes only by as many successes after its probe as the threshold asks, with no failure between |
| BreakerModel.OnlyCountedMatters | src/codehub/core/circuit_breaker.py:130-148 | permanent errors and cancelled calls leave the breaker as if they had never been |
| RetryModel.WithRetry | src/codehub/core/retryable.py:171-261 | the loop, on the breaker object, makes the calls, sleeps and ending that the recursive account gives; it returns if and only if its last call did, and raises what that call raised if and only if it is permanent or was the last attempt |
| RetryModel.EndIff | src/codehub/core/retryable.py:206-256 | attempt k is made if and only if it and all before it were let through and all before it raised what is tried again; how the run ends, the breaker and the clock it leaves and what it has slept are read off its last call |
| RetryModel.SleepBetween | src/codehub/core/retryable.py:236-256 | what is slept is between half and one and a half times the backoffs, one after each failure that was tried again |
| RetryModel.BackoffsAre | src/codehub/core/retryable.py:236 | backoffs double until the cap, and are the cap from then on |
| RetryModel.SleepBound | src/codehub/core/retryable.py:236-256 | total sleep is at most 1.5 times the smaller of base times (2^R - 1) and R times the cap |
| RetryModel.CallBound | src/codehub/core/retryable.py:206-256 | from closed with f failures at most min(R + 1, threshold - f) calls, and exactly as many if all of them fail and count |
| RetryModel.OneProbe | src/codehub/core/circuit_breaker.py:150-163 | from an open or half-open circuit at most one call, and one exactly if it is let through |
| ActivityModel.ActivityStore.Update | src/codehub/infra/redis_kv.py:39-51 | ZADD GT: the pointwise maximum, new members added |
| ActivityModel.ActivityBuffer.Record | src/codehub/app/proxy/activity.py:30-36 | drops what comes less than the throttle after the buffered time |
| ActivityModel.ActivityBuffer.Flush | src/codehub/app/proxy/activity.py:38-57 | swap, send, and on an error merge back over what was recorded meanwhile; the store may have been reached all the same |
| ActivityModel.FlushIsARun | src/codehub/app/proxy/activity.py:38-57 | a flush is a run of the interleaved steps: swap, records, then a landing or a failure |
| ActivityModel.MarkIsGreatestAccepted | src/codehub/app/proxy/activity.py:30-57 | over any interleaving of any number of buffers, the greatest time anywhere is the greatest time ever accepted: nothing lost, nothing made up |
| ActivityModel.MarkNeverFalls | src/codehub/infra/redis_kv.py:39-51 | the high-water mark never decreases |
| ActivityModel.MarkKeepsUp | src/codehub/app/proxy/activity.py:30-36 | after every call, throttled or not, the mark is less than the throttle behind it |
| ActivityModel.AcceptedApart | src/codehub/app/proxy/activity.py:30-36 | between two flushes of a process the times it accepts for a workspace are at least the throttle apart |
| ActivityModel.ActivitySync.SyncToDb | src/codehub/control/coordinator/scheduler_ttl.py:78-113 | overwrites the column with what was scanned, and removes from the store what has a row, whatever has landed there since |
| ActivityModel.SyncKeepsIff | src/codehub/control/coordinator/scheduler_ttl.py:78-113 | a sync makes up no access, and keeps the latest one if and only if none later has landed since the scan and the column has no later one already |
| ActivityModel.SyncSparesOthers | src/codehub/control/coordinator/scheduler_ttl.py:78-113 | workspaces without a row, or not in the store at the scan, are as they were |
| RateLimitModel.RateLimitFilter.Filter | src/codehub/app/logging.py:62-88 | errors pass and leave no trace; any other record changes its own key only |
| RateLimitModel.KeptIsRecentHistory | src/codehub/app/logging.py:69-72 | on a clock that does not run back the kept list is exactly the passed records of the last minute |
| RateLimitModel.KeptIsBounded | src/codehub/app/logging.py:74-88 | at most rate + 1 are kept, at most rate without a warning |
| RateLimitModel.AtMostRatePlusOne | src/codehub/app/logging.py:62-88 | in no minute, wherever it starts, do more than rate + 1 records of a key pass |
| RateLimitModel.HeldBackIff | src/codehub/app/logging.py:74-81 | a record is held back if and only if its key was warned about and the full history of the last minute has reached the rate |
| RateLimitModel.RecentIsTail | src/codehub/app/logging.py:69-72 | of sorted times exactly those less than sixty seconds old are recent |
| RateLimitModel.WarnedIff | src/codehub/app/logging.py:74-85 | a key counts as warned about if and only if some record found the last minute full and none since has found it less than half full |
| SseModel.Connection.ProcessPayload | src/codehub/app/api/v1/events.py:58-96 | sends a document unless it repeats the view, and keeps the cache equal to the view |
| SseModel.Connection.Stream | src/codehub/app/api/v1/events.py:58-96 | what goes out is defined by the received history alone, and cache, view of what was sent and view of what was received are equal |
| SseModel.RepeatsIff | src/codehub/app/api/v1/events.py:74-92 | what is left out is exactly what neither deletes nor changes the view |
| SseModel.ViewIsLast | src/codehub/app/api/v1/events.py:74-96 | a view shows of each workspace the fields of the last document about it, unless that deleted it |
| SseModel.DedupIsInvisible | src/codehub/app/api/v1/events.py:78-96 | folding what was sent gives the same view as folding everything received |
| SseModel.NothingRepeats | src/codehub/app/api/v1/events.py:90-92 | nothing sent repeats the view of what was sent before it |
| SseModel.DeletionsAllSent | src/codehub/app/api/v1/events.py:74-76 | every deletion goes out, in order |
| LeaderModel.LeaderElection.Acquire | src/codehub/infra/pg_leader.py:64-112 | no query for a leader; else the lock and the flag, for every way the query can end |
| LeaderModel.LeaderElection.Verify | src/codehub/infra/pg_leader.py:156-209 | true exactly if it believed to lead, was answered, and its session holds the lock; otherwise it stops believing |
| LeaderModel.LeaderElection.GiveUp | src/codehub/infra/pg_leader.py:114-150 | takes back one grant if the query is run, and stops believing in any case |
| LeaderModel.LeaderElection.ExecuteReconcile | src/codehub/control/coordinator/base.py:211-224 | a reconcile starts only with the lock held by its session |
| LeaderModel.NoTwoLeaders | src/codehub/control/coordinator/base.py:211-224 | between reconciles started by two electors the first has released the lock or lost its connection |
| LeaderModel.Failover | src/codehub/infra/pg_leader.py:64-112 | a lock, however often granted, goes to the next elector that asks once its holder has lost its connection, and not before |
| LeaderModel.CleanIff | src/codehub/infra/pg_leader.py:64-112 | one grant, to an elector that knows it, is kept by a step if and only if no unanswered query leaves a session holding the lock unawares |
| LeaderModel.OneReleaseFrees | src/codehub/infra/pg_leader.py:114-150 | with every query answered the lock is never granted twice and one release frees it |
| LeaderModel.OneReleaseIsNotEnough | src/codehub/infra/pg_leader.py:156-209 | a verification that times out, then an acquisition: one release leaves the lock held and nobody can lead |

## Left out

- Contents.CyclesPreserveContents: only for careful runs; every clause of that is needed (`CarefulIsExact`), but which dying ticks spare the contents is not characterised, as the invariant no longer says of a tick that ends an operation what that operation left behind (for archives it is: `SealKeepsIsExact`).
- Convergence.ConvergesFromIdle: faithful observations and uninterrupted ticks alternate; what interruptions do is the subject of the safety theorems.
- Convergence.ReconcileIsATick: an attempt that fails inside a round is not covered, as rounds are uninterrupted.
- RateLimitModel.RateLimitFilter.Filter: the rate is not negative, as a rate per minute is not.
- Naming.ContainerNameRoundTrip: ids and the prefix have no slash, as Docker names have none.
- Desired DELETED without `deleted_at`: the planner never judges such a row deleted, so it is in the runs of the safety theorems but in no convergence claim.
- What Docker copies from an image into a fresh volume: EMPTY_HOME stands for whatever that is. Sockets, which the archive job excludes, are not part of a home.
- Images, ports, networks and every other detail of a container than being there and running.
- `with_retry` without a circuit breaker, as no caller in the control plane uses it that way; `classify_error` is any map to its three answers.
- The sleeping, throttling and wake-up side of the coordinators' loop; `PsycopgLeaderElection`, which repeats the SQLAlchemy one.
- A connection lost between the answer to a verification and the start of the reconcile.
- Redis publish/subscribe, the event listener, HTTP routes, the proxy, sessions, logging formats and metrics.
- The limit on running workspaces, which is not an invariant.
