/** One workspace in the running control plane: its row, its resources, the controller's
    tick on it, the observer's listing in flight, the garbage collector's view, and the
    user. Every step below may be interleaved with every other. */
module System {
  import opened Domain
  import opened Archive
  import opened Planner
  import opened Actuator
  import opened Controller

  datatype Thread = Resting | Busy(tick: Tick)

  /** An observation under way. Each section is None until its own list call has returned.
      `quiet` remembers that no operation has been under way, and no container has ended by itself,
      since it began. */
  datatype Listing =
    | NoListing
    | Listing(container: Option<Option<bool>>, volume: Option<Option<bool>>, archive: Option<Option<bool>>, quiet: bool)

  /** What the garbage collector has listed, and what it has decided to remove. */
  datatype Gc = Gc(
    keys: set<OpId>,
    orphans: set<OpId>,
    sawContainer: bool,
    sawVolume: bool,
    orphanContainer: bool,
    orphanVolume: bool
  )

  datatype Direction = Up | Down

  /** `began` is when the controller's open database transaction began. The last four fields
      are history: uuids drawn so far, what the user last had under /home, which way the last
      operation on the volume goes, and whether an operation has timed out, a tick has died or a
      container has ended by itself since the last quiet observation. */
  datatype Sys = Sys(
    row: Option<Row>,
    res: Resources,
    wc: Thread,
    obs: Listing,
    gc: Gc,
    now: int,
    began: Option<int>,
    used: set<OpId>,
    home: Home,
    volumeDir: Direction,
    tainted: bool
  )

  const INIT := Sys(None, NO_RESOURCES, Resting, NoListing, Gc({}, {}, false, false, false, false),
                    0, None, {}, EMPTY_HOME, Up, false)

  datatype Step =
    | Elapse(seconds: nat)
    | ApiCreate
    | ApiDelete
    | SetDesired(desired: Desired)          // API and TTL runner
    | UserWrite(home: Home)
    | ContainerExit                         // the process in it ends by itself
    | ObserveBegin
    | ListContainer
    | ListVolume
    | ListArchive
    | ObserveWrite
    | ObserveSkip
    | Load(uuid: OpId, timeout: int)
    | Act(choice: Choice)
    | Abandon
    | Retry
    | GiveUp
    | Save(stamp: int, uuid: OpId)
    | Crash
    | Statement                             // on the controller's connection, for no row of ours
    | Commit                                // of another row's save, or a rollback
    | GcListKeys
    | GcReadKeys
    | GcDropTar(op: OpId)
    | GcDropMeta(op: OpId)
    | GcListContainer
    | GcListVolume
    | GcReadIds
    | GcDropContainer
    | GcDropVolume

  function NewRow(now: int): Row {
    Row(Phase.Pending, NoOperation, None, None, Desired.Running, None, NO_CONDITIONS, None, None, Some(now), None, None, 0)
  }

  /** `_get_protected_paths`: the archive key and the key under the current op id of a live row. */
  function Protected(row: Option<Row>): set<OpId> {
    if !Live(row) then {}
    else
      (if row.value.archiveKey.Some? then {row.value.archiveKey.value} else {})
      + (if row.value.opId.Some? then {row.value.opId.value} else {})
  }

  function ContainerSection(res: Resources): Option<bool> {
    res.container
  }

  function VolumeSection(res: Resources): Option<bool> {
    if res.volume.Some? then Some(true) else None
  }

  /** An archive is seen as soon as its tar is there, with or without the marker. */
  function ArchiveSection(res: Resources): Option<bool> {
    if res.tars.Keys != {} then Some(true) else None
  }

  predicate NewOpId(s: Sys, uuid: OpId) {
    uuid != "" && uuid !in s.used
  }

  /** What now() reads in the controller's next statement: the start of its transaction. */
  function TransactionStart(s: Sys): int {
    if s.began.Some? then s.began.value else s.now
  }

  /** A storage job's container refers to its volume. */
  predicate JobHolds(wc: Thread) {
    wc.Busy? && (wc.tick.pc.Head? || wc.tick.pc.Sync?
                 || (wc.tick.action.operation == Archiving && (wc.tick.pc.PutTar? || wc.tick.pc.PutMeta?)))
  }

  predicate Enabled(s: Sys, step: Step) {
    match step
    case Elapse(_) => true
    case ApiCreate => s.row.None?
    case ApiDelete => Live(s.row)
    case SetDesired(_) => Live(s.row)
    case UserWrite(_) => IsRunning(s.res) && s.res.volume.Some?
    case ContainerExit => IsRunning(s.res)
    case ObserveBegin => Live(s.row) && s.obs.NoListing?
    case ListContainer => s.obs.Listing? && s.obs.container.None?
    case ListVolume => s.obs.Listing? && s.obs.volume.None?
    case ListArchive => s.obs.Listing? && s.obs.archive.None?
    case ObserveWrite =>
      s.row.Some? && s.obs.Listing? && s.obs.container.Some? && s.obs.volume.Some? && s.obs.archive.Some?
    case ObserveSkip => s.obs.Listing?
    case Load(uuid, _) => s.wc.Resting? && s.row.Some? && Loaded(s.row.value) && NewOpId(s, uuid)
    case Act(choice) => s.wc.Busy? && !s.wc.tick.pc.Finished? && !s.wc.tick.pc.Failed? && ValidChoice(s.res, s.wc.tick, choice)
    case Abandon => s.wc.Busy? && !s.wc.tick.pc.Finished? && !s.wc.tick.pc.Failed?
    case Retry => s.wc.Busy? && s.wc.tick.pc.Failed?
    case GiveUp => s.wc.Busy? && s.wc.tick.pc.Failed?
    case Save(stamp, uuid) =>
      s.row.Some? && s.wc.Busy? && s.wc.tick.pc.Finished? && NewOpId(s, uuid) && stamp == TransactionStart(s)
    case Crash => s.wc.Busy?
    case Statement => true
    case Commit => true
    case GcListKeys => true
    case GcReadKeys => true
    case GcDropTar(op) => op in s.gc.orphans
    case GcDropMeta(op) => op in s.gc.orphans
    case GcListContainer => true
    case GcListVolume => true
    case GcReadIds => true
    case GcDropContainer => s.gc.orphanContainer
    case GcDropVolume => s.gc.orphanVolume && s.res.container.None? && !JobHolds(s.wc)
  }

  function TurnTo(operation: Operation, dir: Direction): Direction {
    match operation
    case Provisioning => Up
    case Restoring => Up
    case Archiving => Down
    case Deleting => Down
    case _ => dir
  }

  function DoLoad(s: Sys, uuid: OpId, timeout: int): Sys
    requires s.row.Some?
  {
    LoadWith(s, uuid, Plan(s.row.value, timeout, s.now, uuid))
  }

  function LoadWith(s: Sys, uuid: OpId, action: PlanAction): Sys
    requires s.row.Some?
  {
    var row := s.row.value;
    s.(wc := Busy(StartTick(row, action, uuid)),
       began := Some(TransactionStart(s)),
       used := s.used + {uuid},
       volumeDir := if row.operation == NoOperation then TurnTo(action.operation, s.volumeDir) else s.volumeDir,
       tainted := s.tainted || (row.operation != NoOperation && action.operation == NoOperation && !action.complete),
       obs := if s.obs.Listing? && action.operation != NoOperation then s.obs.(quiet := false) else s.obs)
  }

  function DoAct(s: Sys, choice: Choice): Sys
    requires s.wc.Busy?
  {
    var (res, tick) := Effect(s.res, s.wc.tick, choice);
    s.(res := res, wc := Busy(tick))
  }

  function DoSave(s: Sys, stamp: int, uuid: OpId): Sys
    requires s.row.Some? && s.wc.Busy?
  {
    var (row, _) := Persist(s.row.value, s.wc.tick.snap, s.wc.tick.action, s.now, stamp, uuid);
    s.(row := Some(row), wc := Resting, began := None, used := s.used + {uuid})
  }

  function DoObserveWrite(s: Sys): Sys
    requires Enabled(s, ObserveWrite)
  {
    var seen := Conditions(s.obs.container.value, s.obs.volume.value, s.obs.archive.value);
    s.(row := Some(s.row.value.(conditions := seen)), obs := NoListing, tainted := s.tainted && !s.obs.quiet)
  }

  predicate OperationUnderWay(s: Sys) {
    CurrentOperation(s) != NoOperation || (s.row.Some? && s.row.value.operation != NoOperation)
  }

  /** The operation whose effects may be happening now. */
  function CurrentOperation(s: Sys): Operation {
    if s.wc.Busy? then s.wc.tick.action.operation
    else if s.row.Some? then s.row.value.operation
    else NoOperation
  }

  function Apply(s: Sys, step: Step): Sys
    requires Enabled(s, step)
  {
    match step
    case Elapse(seconds) => s.(now := s.now + seconds)
    case ApiCreate => s.(row := Some(NewRow(s.now)))
    case ApiDelete => s.(row := Some(s.row.value.(deletedAt := Some(s.now), desired := Desired.Deleted)))
    case SetDesired(desired) => s.(row := Some(s.row.value.(desired := desired)))
    case UserWrite(home) => s.(home := home, res := s.res.(volume := Some(home)))
    case ContainerExit =>
      s.(res := s.res.(container := Some(false)), tainted := true,
         obs := if s.obs.Listing? then s.obs.(quiet := false) else s.obs)
    case ObserveBegin => s.(obs := Listing(None, None, None, !OperationUnderWay(s)))
    case ListContainer => s.(obs := s.obs.(container := Some(ContainerSection(s.res))))
    case ListVolume => s.(obs := s.obs.(volume := Some(VolumeSection(s.res))))
    case ListArchive => s.(obs := s.obs.(archive := Some(ArchiveSection(s.res))))
    case ObserveWrite => DoObserveWrite(s)
    case ObserveSkip => s.(obs := NoListing)
    case Load(uuid, timeout) => DoLoad(s, uuid, timeout)
    case Act(choice) => DoAct(s, choice)
    case Abandon => s.(wc := Busy(s.wc.tick.(pc := Failed)))
    case Retry => s.(wc := Busy(s.wc.tick.(pc := Enter)))
    case GiveUp => s.(wc := Busy(s.wc.tick.(pc := Finished)))
    case Save(stamp, uuid) => DoSave(s, stamp, uuid)
    case Crash => s.(wc := Resting, began := None, tainted := true)
    case Statement => s.(began := Some(TransactionStart(s)))
    case Commit => s.(began := None)
    case GcListKeys => s.(gc := s.gc.(keys := s.res.tars.Keys))
    case GcReadKeys => s.(gc := s.gc.(keys := {}, orphans := s.gc.keys - Protected(s.row)))
    case GcDropTar(op) => s.(res := s.res.(tars := s.res.tars - {op}))
    case GcDropMeta(op) => s.(res := s.res.(metas := s.res.metas - {op}))
    case GcListContainer => s.(gc := s.gc.(sawContainer := s.res.container.Some?))
    case GcListVolume => s.(gc := s.gc.(sawVolume := s.res.volume.Some?))
    case GcReadIds =>
      s.(gc := s.gc.(orphanContainer := s.gc.sawContainer && !Live(s.row),
                     orphanVolume := s.gc.sawVolume && !Live(s.row)))
    case GcDropContainer => s.(res := s.res.(container := None))
    case GcDropVolume => s.(res := s.res.(volume := None))
  }

  predicate Next(s: Sys, step: Step, s': Sys) {
    Enabled(s, step) && s' == Apply(s, step)
  }

  /** A run from the empty system in which every step obeys `rule`. */
  ghost predicate IsRun(states: seq<Sys>, steps: seq<Step>, rule: (Sys, Step) -> bool) {
    |states| == |steps| + 1
    && states[0] == INIT
    && forall i :: 0 <= i < |steps| ==> rule(states[i], steps[i]) && Next(states[i], steps[i], states[i + 1])
  }

  /** Some run that keeps the rule ends here. */
  ghost predicate Reachable(s: Sys, rule: (Sys, Step) -> bool) {
    exists states, steps :: IsRun(states, steps, rule) && states[|steps|] == s
  }

  lemma ReachInit(rule: (Sys, Step) -> bool)
    ensures Reachable(INIT, rule)
  {
    assert IsRun([INIT], [], rule) && [INIT][0] == INIT;
  }

  lemma Reach(s: Sys, step: Step, s': Sys, rule: (Sys, Step) -> bool)
    requires Reachable(s, rule) && rule(s, step) && Next(s, step, s')
    ensures Reachable(s', rule)
  {
    hide Next;
    var states, steps :| IsRun(states, steps, rule) && states[|steps|] == s;
    var states', steps' := states + [s'], steps + [step];
    forall i | 0 <= i < |steps'| ensures rule(states'[i], steps'[i]) && Next(states'[i], steps'[i], states'[i + 1]) {
      if i < |steps| {
        assert Next(states[i], steps[i], states[i + 1]);
      }
    }
    assert IsRun(states', steps', rule);
  }

  lemma ReachMore(s: Sys, rule: (Sys, Step) -> bool, looser: (Sys, Step) -> bool)
    requires Reachable(s, rule) && forall t, step :: rule(t, step) ==> looser(t, step)
    ensures Reachable(s, looser)
  {
    hide Next;
    var states, steps :| IsRun(states, steps, rule) && states[|steps|] == s;
    assert IsRun(states, steps, looser);
  }
}
