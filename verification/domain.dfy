/** The workspace row and the enumerations it is made of. */
module Domain {
  datatype Option<+T> = None | Some(value: T)

  type OpId = string

  /** What is stored under /home: path to bytes. */
  type Home = map<string, seq<char>>

  const EMPTY_HOME: Home := map[]

  datatype Phase = Pending | Archived | Standby | Running | Error | Deleting | Deleted

  datatype Operation =
    | NoOperation
    | Provisioning
    | Restoring
    | Starting
    | Stopping
    | Archiving
    | CreateEmptyArchive
    | Deleting

  datatype Desired = Deleted | Archived | Standby | Running

  datatype ErrorReason = Timeout | ContainerWithoutVolume

  /** The JSON document the observer stores; a missing or null section reads as "not there". */
  datatype Conditions = Conditions(
    container: Option<bool>,  // "running"
    volume: Option<bool>,     // "exists"
    archive: Option<bool>     // "exists"
  )

  const NO_CONDITIONS := Conditions(None, None, None)

  /** One row of the workspaces table. An archive key of this workspace, and a
      restore marker (which is an archive key), is identified by the op id it is built from. */
  datatype Row = Row(
    phase: Phase,
    operation: Operation,
    opStartedAt: Option<int>,
    opId: Option<OpId>,
    desired: Desired,
    archiveKey: Option<OpId>,
    conditions: Conditions,
    restoreMarker: Option<OpId>,
    phaseChangedAt: Option<int>,
    lastAccessAt: Option<int>,
    deletedAt: Option<int>,
    errorReason: Option<ErrorReason>,
    errorCount: nat
  )

  /** The phase that a desired state asks for. */
  function PhaseFromDesired(desired: Desired): Phase {
    match desired
    case Running => Phase.Running
    case Standby => Phase.Standby
    case Archived => Phase.Archived
    case Deleted => Phase.Deleted
  }

  predicate Live(row: Option<Row>) {
    row.Some? && row.value.deletedAt.None?
  }

  /** Python's "a or b" on an optional string: the empty string counts as missing. */
  predicate Given(s: Option<string>) {
    s.Some? && s.value != ""
  }
}
