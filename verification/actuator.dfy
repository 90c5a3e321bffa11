/** `_execute` of wc.py, one external effect at a time, over the container, volume and
    archive objects of one workspace (docker.py, s3.py). An attempt can be abandoned
    between any two effects; with_retry may then enter it again. */
module Actuator {
  import opened Domain
  import opened Archive
  import opened Planner

  /** Everything outside the database that carries one workspace's names. The container
      maps to its running flag; tars and metas are keyed by the op id in their key. */
  datatype Resources = Resources(
    container: Option<bool>,
    volume: Option<Home>,
    tars: map<OpId, Blob>,
    metas: map<OpId, Digest>
  )

  const NO_RESOURCES := Resources(None, None, map[], map[])

  predicate IsRunning(res: Resources) {
    res.container == Some(true)
  }

  function SlotOf(res: Resources, op: OpId): Slot {
    Slot(if op in res.tars then Some(res.tars[op]) else None,
         if op in res.metas then Some(res.metas[op]) else None)
  }

  /** Where an attempt stands; each case names the effect that comes next. */
  datatype Pc =
    | Enter
    | Mount
    | Head
    | PutTar
    | PutMeta(blob: Blob)
    | KeepKey
    | StopContainer
    | RemoveContainer
    | RemoveVolume
    | CreateVolume
    | Fetch
    | Sync(target: Home)
    | KeepMarker
    | CreateContainer
    | StartContainer
    | Finished
    | Failed

  /** One workspace's share of a controller tick: the row as loaded and the action planned from it. */
  datatype Tick = Tick(snap: Row, action: PlanAction, opId: OpId, pc: Pc)

  /** What the environment decides: the packing of a tar, how far a failing tar or an
      interrupted rsync got, and whether a HEAD request fails. */
  datatype Choice = Choice(nonce: nat, partial: Option<Home>, headFails: bool)

  /** rsync only ever touches what differs from its source. */
  predicate PartialSync(current: Home, target: Home, partial: Home) {
    current == target ==> partial == target
  }

  predicate ValidChoice(res: Resources, tick: Tick, choice: Choice) {
    (tick.pc.Sync? && choice.partial.Some? && res.volume.Some?)
    ==> PartialSync(res.volume.value, tick.pc.target, choice.partial.value)
  }

  /** The op id an attempt archives under: the action's, else the row's, else a new uuid. */
  function OpIdFor(action: PlanAction, row: Row, uuid: OpId): OpId {
    if Given(action.opId) then action.opId.value
    else if Given(row.opId) then row.opId.value
    else uuid
  }

  function StartTick(row: Row, action: PlanAction, uuid: OpId): Tick {
    Tick(row, action, OpIdFor(action, row, uuid), if NeedsExecute(action, row.operation) then Enter else Finished)
  }

  /** Dispatch on the operation, the `match` of `_execute`. */
  function FirstEffect(res: Resources, tick: Tick): Pc {
    match tick.action.operation
    case Provisioning => CreateVolume
    case Restoring => if tick.snap.archiveKey.Some? then CreateVolume else Finished
    case Starting => if res.container.Some? then StartContainer else CreateContainer
    case Stopping => StopContainer
    case Archiving => Mount
    case CreateEmptyArchive => PutTar
    case Deleting => StopContainer
    case NoOperation => Finished
  }

  /** Docker creates a named volume, empty, when it creates a container that mounts it. */
  function WithVolume(res: Resources): Resources {
    res.(volume := if res.volume.None? then Some(EMPTY_HOME) else res.volume)
  }

  /** The next effect of an attempt. A volume is refused removal while a container refers to
      it, so a job's volume is there as long as the job is. */
  function Effect(res: Resources, tick: Tick, choice: Choice): (Resources, Tick) {
    var op := tick.opId;
    var operation := tick.action.operation;
    match tick.pc
    case Enter => (res, tick.(pc := FirstEffect(res, tick)))
    case Mount => (WithVolume(res), tick.(pc := Head))
    case Head => (res, tick.(pc := if BothPresent(SlotOf(res, op)) && !choice.headFails then KeepKey else PutTar))
    case PutTar =>
      if operation == CreateEmptyArchive then
        var blob := Blob(EMPTY_HOME, 0);
        (res.(tars := res.tars[op := blob]), tick.(pc := PutMeta(blob)))
      else if res.volume.None? then (res, tick.(pc := Failed))
      else
        var blob := Blob(if choice.partial.Some? then choice.partial.value else res.volume.value, choice.nonce);
        (res.(tars := res.tars[op := blob]), tick.(pc := PutMeta(blob)))
    case PutMeta(blob) => (res.(metas := res.metas[op := Sha256(blob)]), tick.(pc := KeepKey))
    case KeepKey =>
      (res, tick.(action := tick.action.(archiveKey := Some(op)),
                  pc := if operation == Archiving then StopContainer else Finished))
    case StopContainer =>
      (if res.container.Some? then res.(container := Some(false)) else res, tick.(pc := RemoveContainer))
    case RemoveContainer =>
      (res.(container := None), tick.(pc := if operation == Stopping then Finished else RemoveVolume))
    case RemoveVolume =>
      if res.container.Some? then (res, tick.(pc := Failed)) else (res.(volume := None), tick.(pc := Finished))
    case CreateVolume =>
      (WithVolume(res), tick.(pc := if operation == Restoring then Fetch else Finished))
    case Fetch =>
      if tick.snap.archiveKey.Some? && Committed(SlotOf(res, tick.snap.archiveKey.value)) then
        (WithVolume(res), tick.(pc := Sync(SlotOf(res, tick.snap.archiveKey.value).tar.value.home)))
      else (WithVolume(res), tick.(pc := Failed))
    case Sync(target) =>
      if res.volume.None? then (res, tick.(pc := Failed))
      else if choice.partial.Some? then (res.(volume := choice.partial), tick.(pc := Failed))
      else (res.(volume := Some(target)), tick.(pc := KeepMarker))
    case KeepMarker =>
      (res, tick.(action := tick.action.(restoreMarker := tick.snap.archiveKey), pc := Finished))
    case CreateContainer =>
      if res.container.Some? then (res, tick.(pc := StartContainer))
      else (WithVolume(res).(container := Some(false)), tick.(pc := StartContainer))
    case StartContainer =>
      if res.container.None? then (res, tick.(pc := CreateContainer))
      else (res.(container := Some(true)), tick.(pc := Finished))
    case Finished => (res, tick)
    case Failed => (res, tick)
  }

  /** An attempt cut off after `bound` effects; the choice decides any packing and how an
      interrupted sync ends. */
  function Attempt(res: Resources, tick: Tick, choice: Choice, bound: nat): (Resources, Tick)
    decreases bound
  {
    if bound == 0 || tick.pc.Finished? || tick.pc.Failed? then (res, tick)
    else
      var (res', tick') := Effect(res, tick, choice);
      Attempt(res', tick', choice, bound - 1)
  }
}
