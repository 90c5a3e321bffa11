/** The database side of wc.py: which rows a tick loads and what it writes back. */
module Controller {
  import opened Domain
  import opened Planner

  /** `_load_for_reconcile`. */
  predicate Loaded(row: Row) {
    row.deletedAt.None?
    && (row.operation != NoOperation || row.phase != PhaseFromDesired(row.desired) || row.phase == Phase.Running)
  }

  /** Rows that no tick takes up: deleted ones, and idle ones that say they rest where they should. */
  lemma LeftAloneIff(row: Row)
    ensures !Loaded(row) <==>
            || row.deletedAt.Some?
            || (row.operation == NoOperation
                && (row.phase, row.desired) in {(Phase.Archived, Desired.Archived), (Phase.Standby, Desired.Standby),
                                                (Phase.Deleted, Desired.Deleted)})
  {
  }

  /** The columns `_persist` writes, computed from the row as it was loaded. */
  function PersistedOpStart(snap: Row, action: PlanAction, now: int): Option<int> {
    if action.operation != NoOperation && snap.operation == NoOperation then Some(now)
    else if action.operation == NoOperation then None
    else snap.opStartedAt
  }

  function PersistedOpId(snap: Row, action: PlanAction, uuid: OpId): Option<OpId> {
    if action.operation != NoOperation && snap.operation == NoOperation then
      if Given(action.opId) then action.opId else Some(uuid)
    else snap.opId
  }

  /** `_cas_update`: the row after the UPDATE if its operation column still is the one
      loaded, else the row untouched. `stamp` is the database's now(). */
  function Persist(current: Row, snap: Row, action: PlanAction, now: int, stamp: int, uuid: OpId): (Row, bool) {
    if current.operation != snap.operation then (current, false)
    else
      (current.(
        phase := action.phase,
        operation := action.operation,
        opStartedAt := PersistedOpStart(snap, action, now),
        opId := PersistedOpId(snap, action, uuid),
        archiveKey := if action.archiveKey.Some? then action.archiveKey else current.archiveKey,
        restoreMarker := if action.restoreMarker.Some? then action.restoreMarker else current.restoreMarker,
        phaseChangedAt := if current.phase != action.phase then Some(stamp) else current.phaseChangedAt,
        errorReason := action.errorReason,
        errorCount := if action.errorReason.Some? then snap.errorCount + 1
                      else if action.complete then 0 else snap.errorCount
      ), true)
  }
}
