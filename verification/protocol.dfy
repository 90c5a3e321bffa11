/** Any number of controllers on one row, each acting on a snapshot of any age. */
module Protocol {
  import opened Domain
  import opened Planner
  import opened Controller

  /** What a controller holds between loading and saving. */
  datatype Held = Held(snap: Row, action: PlanAction)

  datatype State = State(row: Row, pending: map<nat, Held>)

  /** SaveBy carries what executing added to the action; Outside is any write to the
      columns the controllers do not own. */
  datatype Step =
    | LoadBy(who: nat, timeout: int, now: int, uuid: OpId)
    | SaveBy(who: nat, archiveKey: Option<OpId>, restoreMarker: Option<OpId>, now: int, stamp: int, uuid: OpId)
    | Outside(conditions: Conditions, desired: Desired, deletedAt: Option<int>, lastAccessAt: Option<int>)

  predicate Enabled(st: State, step: Step) {
    match step
    case LoadBy(_, _, _, uuid) => Loaded(st.row) && uuid != ""
    case SaveBy(who, _, _, _, _, uuid) => who in st.pending && uuid != ""
    case Outside(_, _, _, _) => true
  }

  function Executed(held: Held, step: Step): PlanAction
    requires step.SaveBy?
  {
    held.action.(archiveKey := step.archiveKey, restoreMarker := step.restoreMarker)
  }

  function Attempted(st: State, step: Step): (Row, bool)
    requires step.SaveBy? && Enabled(st, step)
  {
    var held := st.pending[step.who];
    Persist(st.row, held.snap, Executed(held, step), step.now, step.stamp, step.uuid)
  }

  function Apply(st: State, step: Step): State
    requires Enabled(st, step)
  {
    match step
    case LoadBy(who, timeout, now, uuid) =>
      st.(pending := st.pending[who := Held(st.row, Plan(st.row, timeout, now, uuid))])
    case SaveBy(who, _, _, _, _, _) => State(Attempted(st, step).0, st.pending - {who})
    case Outside(conditions, desired, deletedAt, lastAccessAt) =>
      st.(row := st.row.(conditions := conditions, desired := desired, deletedAt := deletedAt, lastAccessAt := lastAccessAt))
  }

  ghost predicate IsRun(states: seq<State>, steps: seq<Step>) {
    |states| == |steps| + 1
    && states[0].row.operation == NoOperation && states[0].row.opStartedAt.None? && states[0].pending == map[]
    && forall i :: 0 <= i < |steps| ==> Enabled(states[i], steps[i]) && states[i + 1] == Apply(states[i], steps[i])
  }

  predicate Consistent(row: Row) {
    (row.operation != NoOperation <==> row.opStartedAt.Some?) && (row.operation != NoOperation ==> Given(row.opId))
  }

  predicate Inv(st: State) {
    Consistent(st.row)
    && forall who :: who in st.pending ==>
         var held := st.pending[who];
         && Consistent(held.snap)
         && (held.snap.operation != NoOperation ==>
               held.action.operation in {NoOperation, held.snap.operation})
  }

  lemma InvStep(st: State, step: Step)
    requires Inv(st) && Enabled(st, step)
    ensures Inv(Apply(st, step))
  {
  }

  lemma {:induction false} InvRun(states: seq<State>, steps: seq<Step>, i: nat)
    requires IsRun(states, steps) && i < |states|
    ensures Inv(states[i])
  {
    if i > 0 {
      InvRun(states, steps, i - 1);
      InvStep(states[i - 1], steps[i - 1]);
    }
  }

  /** The operation column is consistent with its companions in every reachable state, and
      moves only from none to an operation, from an operation to itself, or back to none. */
  lemma NonPreemptive(states: seq<State>, steps: seq<Step>, i: nat)
    requires IsRun(states, steps) && i < |steps|
    ensures Consistent(states[i + 1].row)
    ensures var before, after := states[i].row.operation, states[i + 1].row.operation;
            before == after || before == NoOperation || after == NoOperation
  {
    InvRun(states, steps, i);
    InvRun(states, steps, i + 1);
    assert states[i + 1] == Apply(states[i], steps[i]);
  }

  /** A save that starts an operation and whose CAS succeeds. */
  predicate Starts(st: State, step: Step) {
    && step.SaveBy? && Enabled(st, step)
    && st.pending[step.who].snap.operation == NoOperation && st.pending[step.who].action.operation != NoOperation
    && Attempted(st, step).1
  }

  /** Of several controllers that want to start from the same idle row at least one wins,
      since whoever saves first does: a starter loses exactly if an operation is under way. */
  lemma FirstStarterWins(st: State, step: Step)
    requires Inv(st) && Enabled(st, step) && step.SaveBy?
    requires st.pending[step.who].snap.operation == NoOperation && st.pending[step.who].action.operation != NoOperation
    ensures Starts(st, step) <==> st.row.operation == NoOperation
    ensures !Starts(st, step) ==> Apply(st, step).row == st.row
    ensures Starts(st, step) ==> Apply(st, step).row.operation == st.pending[step.who].action.operation
  {
  }

  /** And no more than one: between two winning starts the column has been back at none. */
  lemma {:induction false} OneWinner(states: seq<State>, steps: seq<Step>, a: nat, b: nat)
    requires IsRun(states, steps) && a < b < |steps|
    requires Starts(states[a], steps[a]) && Starts(states[b], steps[b])
    ensures exists k :: a < k <= b && states[k].row.operation == NoOperation
                        && states[k - 1].row.operation != NoOperation
  {
    InvRun(states, steps, a);
    assert states[a + 1] == Apply(states[a], steps[a]);
    assert states[a + 1].row.operation != NoOperation;
    assert states[b].row.operation == NoOperation;
    var k := a + 1;
    while states[k].row.operation != NoOperation
      invariant a < k <= b
      invariant states[k - 1].row.operation != NoOperation || k == a + 1
      invariant k == a + 1 ==> states[k].row.operation != NoOperation
      decreases b - k
    {
      k := k + 1;
    }
  }

  /** The CAS compares the operation column only, so the op id and the start time are kept
      exactly if the snapshot is of the same operation and not of an earlier one of its kind. */
  lemma CasKeepsOperationIff(current: Row, held: Held, now: int, stamp: int, uuid: OpId)
    requires Consistent(current) && Consistent(held.snap) && current.operation != NoOperation
    requires held.action.operation == held.snap.operation == current.operation
    ensures var (row, ok) := Persist(current, held.snap, held.action, now, stamp, uuid);
            && ok && row.operation == current.operation
            && (row.opId == current.opId && row.opStartedAt == current.opStartedAt
                <==> held.snap.opId == current.opId && held.snap.opStartedAt == current.opStartedAt)
  {
  }
}
