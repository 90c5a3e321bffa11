/** wc_judge.py and wc_planner.py: the pure decision layer of the controller. */
module Planner {
  import opened Domain

  datatype ConditionInput = ConditionInput(containerReady: bool, volumeReady: bool, archiveReady: bool)

  datatype JudgeOutput = JudgeOutput(phase: Phase, healthy: bool, errorReason: Option<ErrorReason>)

  datatype PlanAction = PlanAction(
    operation: Operation,
    phase: Phase,
    errorReason: Option<ErrorReason>,
    archiveKey: Option<OpId>,
    opId: Option<OpId>,
    complete: bool,
    restoreMarker: Option<OpId>
  )

  predicate IsTrue(flag: Option<bool>) {
    flag == Some(true)
  }

  function FromConditions(conditions: Conditions): ConditionInput {
    ConditionInput(IsTrue(conditions.container), IsTrue(conditions.volume), IsTrue(conditions.archive))
  }

  function CheckInvariants(cond: ConditionInput): (bool, Option<ErrorReason>) {
    if cond.containerReady && !cond.volumeReady then (false, Some(ContainerWithoutVolume)) else (true, None)
  }

  function Judge(cond: ConditionInput, deleted: bool): JudgeOutput {
    var hasResources := cond.containerReady || cond.volumeReady || cond.archiveReady;
    if deleted then
      JudgeOutput(if hasResources then Phase.Deleting else Phase.Deleted, true, None)
    else
      var (healthy, reason) := CheckInvariants(cond);
      if !healthy then JudgeOutput(Phase.Error, false, reason)
      else if cond.containerReady && cond.volumeReady then JudgeOutput(Phase.Running, true, None)
      else if cond.volumeReady then JudgeOutput(Phase.Standby, true, None)
      else if cond.archiveReady then JudgeOutput(Phase.Archived, true, None)
      else JudgeOutput(Phase.Pending, true, None)
  }

  function SelectOperation(current: Phase, desired: Desired): Operation {
    if desired == Desired.Deleted then Operation.Deleting
    else
      match current
      case Pending => if desired == Desired.Archived then CreateEmptyArchive else Provisioning
      case Archived => if desired == Desired.Archived then NoOperation else Restoring
      case Standby =>
        if desired == Desired.Running then Starting
        else if desired == Desired.Archived then Archiving
        else NoOperation
      case Running => if desired == Desired.Running then NoOperation else Stopping
      case _ => NoOperation
  }

  predicate CheckCompletion(operation: Operation, row: Row) {
    var cond := FromConditions(row.conditions);
    match operation
    case Provisioning => cond.volumeReady
    case Restoring => cond.volumeReady && (row.restoreMarker.Some? ==> row.restoreMarker == row.archiveKey)
    case Starting => cond.containerReady
    case Stopping => !cond.containerReady
    case Archiving => !cond.volumeReady && cond.archiveReady
    case CreateEmptyArchive => cond.archiveReady
    case Deleting => !cond.containerReady && !cond.volumeReady
    case NoOperation => false
  }

  predicate IsTimeout(startedAt: int, now: int, timeout: int) {
    now - startedAt > timeout
  }

  function Idle(phase: Phase, errorReason: Option<ErrorReason>, complete: bool): PlanAction {
    PlanAction(NoOperation, phase, errorReason, None, None, complete, None)
  }

  function Begin(operation: Operation, phase: Phase, opId: Option<OpId>): PlanAction {
    PlanAction(operation, phase, None, None, opId, false, None)
  }

  function HandleInProgress(row: Row, judged: JudgeOutput, timeout: int, now: int): PlanAction {
    if CheckCompletion(row.operation, row) then Idle(judged.phase, None, true)
    else if row.opStartedAt.Some? && IsTimeout(row.opStartedAt.value, now, timeout) then
      Idle(Phase.Error, Some(Timeout), false)
    else Begin(row.operation, row.phase, row.opId)
  }

  /** The plan for one row; `uuid` is the uuid drawn if a new operation starts. */
  function Plan(row: Row, timeout: int, now: int, uuid: OpId): PlanAction {
    var judged := Judge(FromConditions(row.conditions), row.deletedAt.Some?);
    if row.operation != NoOperation then HandleInProgress(row, judged, timeout, now)
    else if judged.phase == Phase.Error then
      if row.desired == Desired.Deleted then Begin(Operation.Deleting, Phase.Deleting, Some(uuid))
      else Idle(Phase.Error, judged.errorReason, false)
    else if judged.phase == PhaseFromDesired(row.desired) then Idle(judged.phase, None, false)
    else
      var operation := SelectOperation(judged.phase, row.desired);
      if operation == NoOperation then Idle(judged.phase, None, false)
      else Begin(operation, judged.phase, Some(uuid))
  }

  predicate NeedsExecute(action: PlanAction, current: Operation) {
    action.operation != NoOperation && !action.complete
    && (current == NoOperation || current == action.operation)
  }

  /** The priorities of `judge` as conditions that exclude each other. */
  lemma JudgeExactly(cond: ConditionInput, deleted: bool)
    ensures var ConditionInput(container, volume, archive) := cond;
            var phase := Judge(cond, deleted).phase;
            && (phase == Phase.Deleted <==> deleted && !container && !volume && !archive)
            && (phase == Phase.Deleting <==> deleted && (container || volume || archive))
            && (phase == Phase.Error <==> !deleted && container && !volume)
            && (phase == Phase.Running <==> !deleted && container && volume)
            && (phase == Phase.Standby <==> !deleted && !container && volume)
            && (phase == Phase.Archived <==> !deleted && !container && !volume && archive)
            && (phase == Phase.Pending <==> !deleted && !container && !volume && !archive)
    ensures Judge(cond, deleted).healthy <==> Judge(cond, deleted).phase != Phase.Error
    ensures Judge(cond, deleted).errorReason == if Judge(cond, deleted).healthy then None else Some(ContainerWithoutVolume)
  {
  }

  /** When a plan ends, continues, starts or leaves off, and with which error. An operation under
      way is never exchanged for another, and an idle row stays idle only if its phase is the
      desired one, or nothing but a deletion would help. */
  lemma PlanExactly(row: Row, timeout: int, now: int, uuid: OpId)
    ensures var action := Plan(row, timeout, now, uuid);
            var cond := FromConditions(row.conditions);
            var idle := row.operation == NoOperation;
            var late := row.opStartedAt.Some? && now - row.opStartedAt.value > timeout;
            var torn := row.deletedAt.None? && cond.containerReady && !cond.volumeReady;
            && (action.complete <==> !idle && CheckCompletion(row.operation, row))
            && (action.errorReason == Some(Timeout) <==> !idle && !CheckCompletion(row.operation, row) && late)
            && (action.errorReason == Some(ContainerWithoutVolume) <==> idle && torn && row.desired != Desired.Deleted)
            && (!idle ==>
                  if CheckCompletion(row.operation, row) || late then action.operation == NoOperation
                  else action.operation == row.operation && action.phase == row.phase && action.opId == row.opId)
            && (idle && action.operation != NoOperation ==> action.opId == Some(uuid))
            && (idle ==>
                  (action.operation == NoOperation <==>
                     (row.desired != Desired.Deleted && (torn || row.deletedAt.Some?))
                     || Judge(cond, row.deletedAt.Some?).phase == PhaseFromDesired(row.desired)))
  {
  }

  /** What completes each operation, read off the row. */
  lemma CompletesExactly(row: Row, timeout: int, now: int, uuid: OpId)
    ensures var Conditions(container, volume, archive) := row.conditions;
            Plan(row, timeout, now, uuid).complete <==>
            match row.operation
            case NoOperation => false
            case Provisioning => volume == Some(true)
            case Restoring => volume == Some(true) && (row.restoreMarker.None? || row.restoreMarker == row.archiveKey)
            case Starting => container == Some(true)
            case Stopping => container != Some(true)
            case Archiving => volume != Some(true) && archive == Some(true)
            case CreateEmptyArchive => archive == Some(true)
            case Deleting => container != Some(true) && volume != Some(true)
  {
  }

  /** The operation table of the design: phase, desired state, operation. */
  const TABLE: set<(Phase, Desired, Operation)> := {
    (Phase.Pending, Desired.Archived, CreateEmptyArchive),
    (Phase.Pending, Desired.Standby, Provisioning), (Phase.Pending, Desired.Running, Provisioning),
    (Phase.Archived, Desired.Standby, Restoring), (Phase.Archived, Desired.Running, Restoring),
    (Phase.Standby, Desired.Running, Starting), (Phase.Standby, Desired.Archived, Archiving),
    (Phase.Running, Desired.Standby, Stopping), (Phase.Running, Desired.Archived, Stopping)
  }

  /** An idle row starts what the table has for its judged phase and desired state, deletes from
      whatever phase when that is desired, and otherwise stays idle in the judged phase. */
  lemma PlansByTable(row: Row, timeout: int, now: int, uuid: OpId)
    requires row.operation == NoOperation
    ensures var action, judged := Plan(row, timeout, now, uuid), Judge(FromConditions(row.conditions), row.deletedAt.Some?);
            && action.archiveKey.None? && action.restoreMarker.None? && !action.complete
            && (action.operation != NoOperation ==> action.opId == Some(uuid) && action.errorReason.None?)
            && (action.operation == NoOperation ==> action.opId.None? && action.errorReason == judged.errorReason)
            && action.phase == (if judged.phase == Phase.Error && row.desired == Desired.Deleted then Phase.Deleting else judged.phase)
            && (row.desired == Desired.Deleted ==>
                  action.operation == if judged.phase == Phase.Deleted then NoOperation else Operation.Deleting)
            && (row.desired != Desired.Deleted ==>
                  forall operation :: action.operation == operation && operation != NoOperation <==>
                                      (judged.phase, row.desired, operation) in TABLE)
  {
  }

  /** What is to be deleted but not marked as deleted never rests: an idle row of this kind is
      always planned a deletion, whatever has been observed. */
  lemma UnmarkedDeletionNeverRests(row: Row, timeout: int, now: int, uuid: OpId)
    requires row.desired == Desired.Deleted && row.deletedAt.None? && row.operation == NoOperation
    ensures Plan(row, timeout, now, uuid).operation == Operation.Deleting
  {
  }
}
