/** How many rounds of observing and reconciling bring a workspace to its desired state. */
module Convergence {
  import opened Domain
  import opened Archive
  import opened Planner
  import opened Actuator
  import opened Controller
  import opened System
  import opened Safety
  import Contents

  datatype State = State(row: Row, res: Resources)

  function Faithful(res: Resources): Conditions {
    Conditions(ContainerSection(res), VolumeSection(res), ArchiveSection(res))
  }

  /** The phase the world is in. */
  function WorldPhase(res: Resources): Phase {
    Judge(FromConditions(Faithful(res)), false).phase
  }

  const LONGEST_ATTEMPT := 10

  /** An attempt that nothing interrupts. */
  function Uncut(res: Resources, tick: Tick, bound: nat): (Resources, Tick) {
    Attempt(res, tick, NO_CHOICE, bound)
  }

  function Reconcile(st: State, now: int, uuid: OpId, timeout: int): State {
    if !Loaded(st.row) then st
    else
      var action := Plan(st.row, timeout, now, uuid);
      var (res, tick) := Uncut(st.res, StartTick(st.row, action, uuid), LONGEST_ATTEMPT);
      State(Persist(st.row, tick.snap, tick.action, now, now, uuid).0, res)
  }

  /** One faithful observation, then one tick of the controller. */
  function Round(st: State, now: int, uuid: OpId, timeout: int): State {
    Reconcile(st.(row := st.row.(conditions := Faithful(st.res))), now, uuid, timeout)
  }

  /** What the rounds draw from outside: the clock, the uuids, the operation timeout. */
  datatype Env = Env(clock: nat -> int, uuids: nat -> OpId, timeout: int)

  ghost predicate RoundAt(at: nat -> State, env: Env, n: nat) {
    at(n + 1) == Round(at(n), env.clock(n), env.uuids(n), env.timeout)
  }

  /** `at(n)` is the state after n rounds. */
  ghost predicate IsRounds(at: nat -> State, env: Env) {
    forall n: nat :: RoundAt(at, env, n)
  }

  predicate Settled(st: State) {
    st.row.operation == NoOperation && st.row.phase == PhaseFromDesired(st.row.desired) && WorldPhase(st.res) == st.row.phase
  }

  /** Edges of the operation table between two phases. */
  function Distance(from: Phase, to: Phase): nat {
    if from == to then 0
    else if from in {Phase.Pending, Phase.Archived} && to == Phase.Running then 2
    else if from == Phase.Running && to == Phase.Archived then 2
    else 1
  }

  /** A container has its volume, and an archive key names a whole archive. */
  predicate Intact(st: State) {
    var row, res := st.row, st.res;
    && row.deletedAt.None? && row.desired != Desired.Deleted
    && (res.container.Some? ==> res.volume.Some?)
    && (row.archiveKey.Some? ==> Committed(SlotOf(res, row.archiveKey.value)))
  }

  /** An archive is seen that no key names, and there is nothing else, or soon will not be. */
  predicate Keyless(st: State) {
    (st.res.volume.None? || st.row.operation == Operation.Deleting) && st.res.tars.Keys != {} && st.row.archiveKey.None?
  }

  predicate Healthy(st: State) {
    Intact(st) && !Keyless(st)
  }

  /** The blind spot of `_load_for_reconcile`: an idle row that says it is where it should be. */
  predicate Drifted(st: State) {
    st.row.operation == NoOperation && st.row.phase == PhaseFromDesired(st.row.desired) && st.row.phase != Phase.Running
    && WorldPhase(st.res) != st.row.phase
  }

  lemma UncutOnce(res: Resources, tick: Tick, bound: nat)
    requires bound > 0 && !tick.pc.Finished? && !tick.pc.Failed?
    ensures var (res', tick') := Effect(res, tick, NO_CHOICE);
            Uncut(res, tick, bound) == Uncut(res', tick', bound - 1)
  {
  }

  // What an uninterrupted attempt does, operation by operation.

  lemma UncutProvisioning(res: Resources, tick: Tick)
    requires tick.pc.Enter? && tick.action.operation == Provisioning
    ensures Uncut(res, tick, LONGEST_ATTEMPT) ==
            (WithVolume(res), tick.(pc := Finished))
  {
    UncutOnce(res, tick, LONGEST_ATTEMPT);
    UncutOnce(res, tick.(pc := CreateVolume), LONGEST_ATTEMPT - 1);
  }

  lemma UncutRestoring(res: Resources, tick: Tick, key: OpId)
    requires tick.pc.Enter? && tick.action.operation == Restoring
    requires tick.snap.archiveKey == Some(key) && Committed(SlotOf(res, key))
    ensures Uncut(res, tick, LONGEST_ATTEMPT) ==
            (res.(volume := Some(SlotOf(res, key).tar.value.home)),
             tick.(pc := Finished, action := tick.action.(restoreMarker := Some(key))))
  {
    var target := SlotOf(res, key).tar.value.home;
    var res1 := WithVolume(res);
    var res2 := res.(volume := Some(target));
    UncutOnce(res, tick, LONGEST_ATTEMPT);
    UncutOnce(res, tick.(pc := CreateVolume), LONGEST_ATTEMPT - 1);
    assert SlotOf(res1, key) == SlotOf(res, key);
    UncutOnce(res1, tick.(pc := Fetch), LONGEST_ATTEMPT - 2);
    UncutOnce(res1, tick.(pc := Sync(target)), LONGEST_ATTEMPT - 3);
    UncutOnce(res2, tick.(pc := KeepMarker), LONGEST_ATTEMPT - 4);
  }

  lemma UncutStarting(res: Resources, tick: Tick)
    requires tick.pc.Enter? && tick.action.operation == Starting && (res.container.Some? ==> res.volume.Some?)
    ensures Uncut(res, tick, LONGEST_ATTEMPT) == (WithVolume(res).(container := Some(true)), tick.(pc := Finished))
  {
    UncutOnce(res, tick, LONGEST_ATTEMPT);
    if res.container.Some? {
      UncutOnce(res, tick.(pc := StartContainer), LONGEST_ATTEMPT - 1);
    } else {
      UncutOnce(res, tick.(pc := CreateContainer), LONGEST_ATTEMPT - 1);
      UncutOnce(WithVolume(res).(container := Some(false)), tick.(pc := StartContainer), LONGEST_ATTEMPT - 2);
    }
  }

  lemma UncutStopping(res: Resources, tick: Tick)
    requires tick.pc.Enter? && tick.action.operation == Stopping
    ensures Uncut(res, tick, LONGEST_ATTEMPT) == (res.(container := None), tick.(pc := Finished))
  {
    var res1 := if res.container.Some? then res.(container := Some(false)) else res;
    UncutOnce(res, tick, LONGEST_ATTEMPT);
    UncutOnce(res, tick.(pc := StopContainer), LONGEST_ATTEMPT - 1);
    UncutOnce(res1, tick.(pc := RemoveContainer), LONGEST_ATTEMPT - 2);
  }

  /** The last three effects of archiving and deleting. */
  lemma UncutRemoval(res: Resources, tick: Tick, bound: nat)
    requires tick.pc.StopContainer? && tick.action.operation in {Archiving, Operation.Deleting} && bound >= 3
    ensures Uncut(res, tick, bound) == (res.(container := None, volume := None), tick.(pc := Finished))
  {
    var res1 := if res.container.Some? then res.(container := Some(false)) else res;
    UncutOnce(res, tick, bound);
    UncutOnce(res1, tick.(pc := RemoveContainer), bound - 1);
    UncutOnce(res.(container := None), tick.(pc := RemoveVolume), bound - 2);
    var (end, _) := Effect(res.(container := None), tick.(pc := RemoveVolume), NO_CHOICE);
    assert Uncut(end, tick.(pc := Finished), bound - 3) == (end, tick.(pc := Finished));
  }

  lemma UncutDeleting(res: Resources, tick: Tick)
    requires tick.pc.Enter? && tick.action.operation == Operation.Deleting
    ensures Uncut(res, tick, LONGEST_ATTEMPT) == (res.(container := None, volume := None), tick.(pc := Finished))
  {
    UncutOnce(res, tick, LONGEST_ATTEMPT);
    UncutRemoval(res, tick.(pc := StopContainer), LONGEST_ATTEMPT - 1);
  }

  /** The resources once `blob` and its marker are uploaded under `op`. */
  function Uploaded(res: Resources, op: OpId, blob: Blob): Resources {
    res.(tars := res.tars[op := blob], metas := res.metas[op := Sha256(blob)])
  }

  lemma UncutUpload(res: Resources, tick: Tick, blob: Blob, bound: nat)
    requires tick.pc.PutTar? && tick.action.operation in {Archiving, CreateEmptyArchive} && bound >= 3
    requires if tick.action.operation == Archiving then res.volume.Some? && blob == Blob(res.volume.value, 0) else blob == EMPTY_BLOB
    ensures Uncut(res, tick, bound) ==
            Uncut(Uploaded(res, tick.opId, blob),
                  tick.(action := tick.action.(archiveKey := Some(tick.opId)),
                        pc := if tick.action.operation == Archiving then StopContainer else Finished), bound - 3)
  {
    var res1 := res.(tars := res.tars[tick.opId := blob]);
    UncutOnce(res, tick, bound);
    UncutOnce(res1, tick.(pc := PutMeta(blob)), bound - 1);
    UncutOnce(Uploaded(res, tick.opId, blob), tick.(pc := KeepKey), bound - 2);
  }

  lemma UncutCreateEmptyArchive(res: Resources, tick: Tick)
    requires tick.pc.Enter? && tick.action.operation == CreateEmptyArchive
    ensures Uncut(res, tick, LONGEST_ATTEMPT) ==
            (Uploaded(res, tick.opId, EMPTY_BLOB),
             tick.(pc := Finished, action := tick.action.(archiveKey := Some(tick.opId))))
  {
    UncutOnce(res, tick, LONGEST_ATTEMPT);
    UncutUpload(res, tick.(pc := PutTar), EMPTY_BLOB, LONGEST_ATTEMPT - 1);
  }

  /** An uninterrupted attempt to archive ends with the volume gone and what was on it committed,
      or, if this operation had committed already, with that archive as it was. A volume that
      is missing is archived as an empty one. */
  lemma UncutArchiving(res: Resources, tick: Tick)
    requires tick.pc.Enter? && tick.action.operation == Archiving
    ensures var kept := if BothPresent(SlotOf(res, tick.opId)) then res
                        else Uploaded(res, tick.opId, Blob(WithVolume(res).volume.value, 0));
            Uncut(res, tick, LONGEST_ATTEMPT) ==
            (kept.(container := None, volume := None),
             tick.(pc := Finished, action := tick.action.(archiveKey := Some(tick.opId))))
  {
    var mounted := WithVolume(res);
    UncutOnce(res, tick, LONGEST_ATTEMPT);
    UncutOnce(res, tick.(pc := Mount), LONGEST_ATTEMPT - 1);
    assert SlotOf(mounted, tick.opId) == SlotOf(res, tick.opId);
    UncutOnce(mounted, tick.(pc := Head), LONGEST_ATTEMPT - 2);
    UncutPacking(mounted, tick);
  }

  /** From the HEAD check on. */
  lemma UncutPacking(res: Resources, tick: Tick)
    requires tick.pc.Enter? && tick.action.operation == Archiving && res.volume.Some?
    ensures var both := BothPresent(SlotOf(res, tick.opId));
            var kept := if both then res else Uploaded(res, tick.opId, Blob(res.volume.value, 0));
            Uncut(res, tick.(pc := if both then KeepKey else PutTar), LONGEST_ATTEMPT - 3) ==
            (kept.(container := None, volume := None),
             tick.(pc := Finished, action := tick.action.(archiveKey := Some(tick.opId))))
  {
    var held := tick.(action := tick.action.(archiveKey := Some(tick.opId)), pc := StopContainer);
    if BothPresent(SlotOf(res, tick.opId)) {
      UncutOnce(res, tick.(pc := KeepKey), LONGEST_ATTEMPT - 3);
      UncutRemoval(res, held, LONGEST_ATTEMPT - 4);
    } else {
      var blob := Blob(res.volume.value, 0);
      UncutUpload(res, tick.(pc := PutTar), blob, LONGEST_ATTEMPT - 3);
      UncutRemoval(Uploaded(res, tick.opId, blob), held, LONGEST_ATTEMPT - 6);
    }
  }

  // ----- rounds -----

  /** Where one operation of the table leads. */
  function NextPhase(from: Phase, desired: Desired): Phase {
    match from
    case Pending => if desired == Desired.Archived then Phase.Archived else Phase.Standby
    case Archived => Phase.Standby
    case Standby => if desired == Desired.Running then Phase.Running else Phase.Archived
    case _ => Phase.Standby
  }

  /** A slot either stays as it is or ends up committed. */
  ghost predicate SlotsGrow(res: Resources, res': Resources) {
    forall op :: SlotOf(res', op) == SlotOf(res, op) || Committed(SlotOf(res', op))
  }

  /** The operation column is ready to be cleared once the world is looked at again. */
  predicate AboutToFinish(st: State) {
    st.row.operation != NoOperation
    && CheckCompletion(st.row.operation, st.row.(conditions := Faithful(st.res)))
  }

  predicate AsksFor(st: State, desired: Desired) {
    Healthy(st) && st.row.desired == desired
  }

  /** The same world under the same key, wanted the same, with no operation under way. */
  predicate IdleLike(st': State, st: State) {
    && st'.res == st.res && st'.row.operation == NoOperation && st'.row.deletedAt == st.row.deletedAt
    && st'.row.desired == st.row.desired && st'.row.archiveKey == st.row.archiveKey
  }

  /** Executing an operation on a healthy workspace does what it is for; only a restore without
      a key has nothing to do it with. */
  predicate CanExecute(row: Row, res: Resources, operation: Operation, opId: OpId) {
    match operation
    case Archiving => MetaVouches(SlotOf(res, opId))
    case Restoring => row.archiveKey.Some?
    case NoOperation => false
    case Deleting => row.operation == Operation.Deleting
    case _ => true
  }

  /** One tick that executes and saves `operation` leaves the workspace healthy and about to finish. */
  lemma Executes(st: State, action: PlanAction, now: int, uuid: OpId)
    requires Intact(st) && (Keyless(st) ==> action.operation in {Provisioning, Starting})
    requires PlannedFrom(st.row, action, uuid) && uuid != "" && Given(action.opId)
    requires CanExecute(st.row, st.res, action.operation, action.opId.value)
    requires NeedsExecute(action, st.row.operation)
    ensures var (res, tick) := Uncut(st.res, StartTick(st.row, action, uuid), LONGEST_ATTEMPT);
            var st' := State(Persist(st.row, tick.snap, tick.action, now, now, uuid).0, res);
            && AsksFor(st', st.row.desired) && st'.row.operation == action.operation && AboutToFinish(st')
            && SlotsGrow(st.res, st'.res)
            && (action.operation == Provisioning ==> res == st.res.(volume := res.volume) && res.volume.Some?)
            && (action.operation == Restoring ==> res == st.res.(volume := res.volume) && res.volume.Some?)
            && (action.operation == Starting ==> res == WithVolume(st.res).(container := Some(true)))
            && (action.operation == Stopping ==> res == st.res.(container := None))
            && (action.operation == Archiving ==> res.container.None? && res.volume.None? && res.tars.Keys != {})
            && (action.operation == CreateEmptyArchive ==>
                  res.container == st.res.container && res.volume == st.res.volume && res.tars.Keys != {})
  {
    hide Attempt, Uncut;
    var tick := StartTick(st.row, action, uuid);
    match action.operation
    case Provisioning => UncutProvisioning(st.res, tick);
    case Restoring => UncutRestoring(st.res, tick, st.row.archiveKey.value);
    case Starting => UncutStarting(st.res, tick);
    case Stopping => UncutStopping(st.res, tick);
    case Archiving =>
      UncutArchiving(st.res, tick);
      assert tick.opId in Uncut(st.res, tick, LONGEST_ATTEMPT).0.tars.Keys;
    case CreateEmptyArchive =>
      UncutCreateEmptyArchive(st.res, tick);
      assert tick.opId in Uncut(st.res, tick, LONGEST_ATTEMPT).0.tars.Keys;
    case Deleting => UncutDeleting(st.res, tick);
  }

  function Observed(st: State): State {
    st.(row := st.row.(conditions := Faithful(st.res)))
  }

  /** An idle row that is not where it should be starts the operation of the table and executes it. */
  lemma BeginRound(st: State, now: int, uuid: OpId, timeout: int)
    requires Healthy(st) && st.row.operation == NoOperation && uuid != "" && MetaVouches(SlotOf(st.res, uuid))
    requires WorldPhase(st.res) != PhaseFromDesired(st.row.desired) && !Drifted(st)
    ensures var st' := Round(st, now, uuid, timeout);
            && AsksFor(st', st.row.desired) && AboutToFinish(st') && SlotsGrow(st.res, st'.res)
            && WorldPhase(st'.res) == NextPhase(WorldPhase(st.res), st.row.desired)
  {
    var seen := Observed(st);
    var action := Plan(seen.row, timeout, now, uuid);
    assert action == Begin(SelectOperation(WorldPhase(st.res), st.row.desired), WorldPhase(st.res), Some(uuid));
    PlanShape(seen.row, timeout, now, uuid);
    Executes(seen, action, now, uuid);
  }

  /** A row about to finish is idle after one more round, in the phase the world is in. */
  lemma FinishRound(st: State, now: int, uuid: OpId, timeout: int)
    requires Intact(st) && AboutToFinish(st)
    ensures var st' := Round(st, now, uuid, timeout);
            IdleLike(st', st) && st'.row.phase == WorldPhase(st.res)
  {
    var seen := Observed(st);
    assert Plan(seen.row, timeout, now, uuid) == Idle(WorldPhase(st.res), None, true);
  }

  /** An idle row whose world is where it should be only has its phase brought up to date. */
  lemma MatchRound(st: State, now: int, uuid: OpId, timeout: int)
    requires Intact(st) && st.row.operation == NoOperation && WorldPhase(st.res) == PhaseFromDesired(st.row.desired)
    ensures var st' := Round(st, now, uuid, timeout); IdleLike(st', st) && Settled(st')
  {
    var seen := Observed(st);
    assert Plan(seen.row, timeout, now, uuid) == Idle(WorldPhase(st.res), None, false);
  }

  /** Uuids are not empty, and a key under one of them holds nothing but a whole archive. */
  ghost predicate UuidsFit(uuids: nat -> OpId, res: Resources) {
    forall m: nat :: uuids(m) != "" && MetaVouches(SlotOf(res, uuids(m)))
  }

  function RoundsNeeded(st: State): nat {
    if Settled(st) then 0
    else if WorldPhase(st.res) == PhaseFromDesired(st.row.desired) then 1
    else 2 * Distance(WorldPhase(st.res), PhaseFromDesired(st.row.desired))
  }

  /** An idle healthy row whose phase says where the world is. */
  ghost predicate Level(st: State, desired: Desired, uuids: nat -> OpId) {
    AsksFor(st, desired) && st.row.operation == NoOperation && UuidsFit(uuids, st.res)
    && st.row.phase == WorldPhase(st.res)
  }

  lemma TwoRounds(at: nat -> State, env: Env, n: nat)
    requires IsRounds(at, env)
    requires Healthy(at(n)) && at(n).row.operation == NoOperation && UuidsFit(env.uuids, at(n).res)
    requires WorldPhase(at(n).res) != PhaseFromDesired(at(n).row.desired) && !Drifted(at(n))
    ensures at(n + 1).row.operation != NoOperation
    ensures Level(at(n + 2), at(n).row.desired, env.uuids)
    ensures WorldPhase(at(n + 2).res) == NextPhase(WorldPhase(at(n).res), at(n).row.desired)
  {
    assert RoundAt(at, env, n) && RoundAt(at, env, n + 1);
    BeginRound(at(n), env.clock(n), env.uuids(n), env.timeout);
    FinishRound(at(n + 1), env.clock(n + 1), env.uuids(n + 1), env.timeout);
  }

  lemma {:induction false} StaysSettled(at: nat -> State, env: Env, n: nat, k: nat)
    requires IsRounds(at, env) && n <= k && Intact(at(n)) && Settled(at(n))
    ensures Intact(at(k)) && Settled(at(k)) && at(k).res == at(n).res
  {
    if n < k {
      StaysSettled(at, env, n, k - 1);
      assert RoundAt(at, env, k - 1);
      MatchRound(at(k - 1), env.clock(k - 1), env.uuids(k - 1), env.timeout);
    }
  }

  lemma OneRound(at: nat -> State, env: Env, n: nat)
    requires IsRounds(at, env) && Intact(at(n)) && at(n).row.operation == NoOperation
    requires WorldPhase(at(n).res) == PhaseFromDesired(at(n).row.desired)
    ensures Intact(at(n + 1)) && Settled(at(n + 1)) && (Healthy(at(n)) ==> Healthy(at(n + 1)))
  {
    assert RoundAt(at, env, n);
    MatchRound(at(n), env.clock(n), env.uuids(n), env.timeout);
  }

  /** Two operations away: after the first the row is still on its way. */
  lemma FourRounds(at: nat -> State, env: Env, n: nat)
    requires IsRounds(at, env)
    requires Healthy(at(n)) && at(n).row.operation == NoOperation && UuidsFit(env.uuids, at(n).res) && !Drifted(at(n))
    requires Distance(WorldPhase(at(n).res), PhaseFromDesired(at(n).row.desired)) == 2
    ensures Healthy(at(n + 4)) && Settled(at(n + 4))
    ensures !Settled(at(n)) && !Settled(at(n + 1)) && !Settled(at(n + 2)) && !Settled(at(n + 3))
  {
    TwoRounds(at, env, n);
    TwoRounds(at, env, n + 2);
  }

  lemma FirstSettled(at: nat -> State, env: Env, n: nat)
    requires IsRounds(at, env)
    requires Healthy(at(n)) && at(n).row.operation == NoOperation && UuidsFit(env.uuids, at(n).res) && !Drifted(at(n))
    ensures Healthy(at(n + RoundsNeeded(at(n)))) && Settled(at(n + RoundsNeeded(at(n))))
    ensures forall k: nat :: n <= k < n + RoundsNeeded(at(n)) ==> !Settled(at(k))
  {
    if Settled(at(n)) {
    } else if WorldPhase(at(n).res) == PhaseFromDesired(at(n).row.desired) {
      OneRound(at, env, n);
    } else if RoundsNeeded(at(n)) == 2 {
      TwoRounds(at, env, n);
    } else {
      FourRounds(at, env, n);
      forall k: nat | n <= k < n + 4 ensures !Settled(at(k)) {
        assert k == n || k == n + 1 || k == n + 2 || k == n + 3;
      }
    }
  }

  /** From any round n at which the row is idle and healthy, exactly `RoundsNeeded` more bring
      phase and world to the desired state, none fewer do, and there they stay. */
  lemma ConvergesFromIdle(at: nat -> State, env: Env, n: nat)
    requires IsRounds(at, env)
    requires Healthy(at(n)) && at(n).row.operation == NoOperation && UuidsFit(env.uuids, at(n).res) && !Drifted(at(n))
    ensures forall k: nat :: n <= k ==> (Settled(at(k)) <==> n + RoundsNeeded(at(n)) <= k)
    ensures forall k: nat :: n + RoundsNeeded(at(n)) <= k ==> at(k).res == at(n + RoundsNeeded(at(n))).res
  {
    FirstSettled(at, env, n);
    forall k: nat | n + RoundsNeeded(at(n)) <= k
      ensures Settled(at(k)) && at(k).res == at(n + RoundsNeeded(at(n))).res
    {
      StaysSettled(at, env, n + RoundsNeeded(at(n)), k);
    }
  }

  /** Otherwise nothing ever happens: such a row is not loaded again. */
  lemma {:induction false} DriftedNeverMoves(at: nat -> State, env: Env, n: nat, k: nat)
    requires IsRounds(at, env) && n <= k && Healthy(at(n)) && Drifted(at(n))
    ensures at(k).res == at(n).res && Healthy(at(k)) && Drifted(at(k)) && !Settled(at(k))
    ensures at(k).row.(conditions := at(n).row.conditions) == at(n).row
  {
    if n < k {
      DriftedNeverMoves(at, env, n, k - 1);
      assert RoundAt(at, env, k - 1);
    }
  }

  /** So an idle healthy row converges exactly if it is not one of those. */
  lemma ConvergesIffNotDrifted(at: nat -> State, env: Env, n: nat)
    requires IsRounds(at, env)
    requires Healthy(at(n)) && at(n).row.operation == NoOperation && UuidsFit(env.uuids, at(n).res)
    ensures (exists k: nat :: n <= k && Settled(at(k))) <==> !Drifted(at(n))
  {
    if Drifted(at(n)) {
      forall k: nat | n <= k ensures !Settled(at(k)) {
        DriftedNeverMoves(at, env, n, k);
      }
    } else {
      FirstSettled(at, env, n);
    }
  }

  // ----- operations under way -----

  /** A row with an operation under way, with what every such row has: an op id whose slot is in
      order, and a start time. */
  predicate UnderWay(st: State) {
    && Intact(st) && st.row.operation != NoOperation && Given(st.row.opId) && st.row.opStartedAt.Some?
    && MetaVouches(SlotOf(st.res, st.row.opId.value))
  }

  predicate InProgress(st: State) {
    Healthy(st) && UnderWay(st)
  }

  predicate Late(st: State, now: int, timeout: int)
    requires st.row.opStartedAt.Some?
  {
    IsTimeout(st.row.opStartedAt.value, now, timeout)
  }

  /** Only a restore without a key does nothing when it is executed. */
  predicate Idles(st: State) {
    st.row.operation == Restoring && st.row.archiveKey.None? && !AboutToFinish(st)
  }

  /** A tick on an operation under way executes it again and leaves it about to finish. */
  lemma RetryRound(st: State, now: int, uuid: OpId, timeout: int)
    requires UnderWay(st) && uuid != "" && !AboutToFinish(st) && !Late(st, now, timeout) && !Idles(st)
    requires Keyless(st) ==> st.row.operation in {Provisioning, Starting}
    ensures var st' := Round(st, now, uuid, timeout);
            AsksFor(st', st.row.desired) && AboutToFinish(st') && SlotsGrow(st.res, st'.res)
  {
    var seen := Observed(st);
    var action := Plan(seen.row, timeout, now, uuid);
    assert action == Begin(st.row.operation, st.row.phase, st.row.opId);
    PlanShape(seen.row, timeout, now, uuid);
    Executes(seen, action, now, uuid);
  }

  /** A tick that finds an operation out of time leaves an idle row in phase ERROR. */
  lemma LateRound(st: State, now: int, uuid: OpId, timeout: int)
    requires UnderWay(st) && !AboutToFinish(st) && Late(st, now, timeout)
    ensures var st' := Round(st, now, uuid, timeout);
            IdleLike(st', st) && st'.row.phase == Phase.Error && WorldPhase(st.res) != Phase.Error
  {
    var seen := Observed(st);
    assert Plan(seen.row, timeout, now, uuid) == Idle(Phase.Error, Some(Timeout), false);
  }

  lemma IdlingRound(st: State, now: int, uuid: OpId, timeout: int)
    requires UnderWay(st) && Idles(st) && !Late(st, now, timeout)
    ensures var st' := Round(st, now, uuid, timeout);
            && UnderWay(st') && Idles(st') && st'.row.desired == st.row.desired && st'.res == st.res
            && st'.row.opStartedAt == st.row.opStartedAt
  {
    var seen := Observed(st);
    var action := Plan(seen.row, timeout, now, uuid);
    assert action == Begin(Restoring, st.row.phase, st.row.opId);
    UncutOnce(st.res, StartTick(seen.row, action, uuid), LONGEST_ATTEMPT);
  }

  /** Over and level within two rounds. */
  ghost predicate SoonLevel(at: nat -> State, env: Env, n: nat) {
    Level(at(n + 1), at(n).row.desired, env.uuids) || Level(at(n + 2), at(n).row.desired, env.uuids)
  }

  lemma SoonIfLate(at: nat -> State, env: Env, n: nat)
    requires IsRounds(at, env) && InProgress(at(n)) && UuidsFit(env.uuids, at(n).res)
    requires !AboutToFinish(at(n)) && Late(at(n), env.clock(n), env.timeout)
    ensures SoonLevel(at, env, n) <==> WorldPhase(at(n).res) == PhaseFromDesired(at(n).row.desired)
  {
    hide Round;
    assert RoundAt(at, env, n) && RoundAt(at, env, n + 1);
    LateRound(at(n), env.clock(n), env.uuids(n), env.timeout);
    if WorldPhase(at(n).res) == PhaseFromDesired(at(n).row.desired) {
      MatchRound(at(n + 1), env.clock(n + 1), env.uuids(n + 1), env.timeout);
    } else {
      BeginRound(at(n + 1), env.clock(n + 1), env.uuids(n + 1), env.timeout);
    }
  }

  lemma NeverSoonIfIdling(at: nat -> State, env: Env, n: nat)
    requires IsRounds(at, env) && InProgress(at(n)) && Idles(at(n)) && !Late(at(n), env.clock(n), env.timeout)
    ensures !SoonLevel(at, env, n)
  {
    hide Round;
    assert RoundAt(at, env, n) && RoundAt(at, env, n + 1);
    IdlingRound(at(n), env.clock(n), env.uuids(n), env.timeout);
    if Late(at(n + 1), env.clock(n + 1), env.timeout) {
      LateRound(at(n + 1), env.clock(n + 1), env.uuids(n + 1), env.timeout);
    } else {
      IdlingRound(at(n + 1), env.clock(n + 1), env.uuids(n + 1), env.timeout);
    }
  }

  lemma SoonIfRetried(at: nat -> State, env: Env, n: nat)
    requires IsRounds(at, env) && InProgress(at(n)) && UuidsFit(env.uuids, at(n).res)
    requires !AboutToFinish(at(n)) && !Idles(at(n)) && !Late(at(n), env.clock(n), env.timeout)
    ensures SoonLevel(at, env, n)
  {
    hide Round, AboutToFinish;
    assert RoundAt(at, env, n) && RoundAt(at, env, n + 1);
    RetryRound(at(n), env.clock(n), env.uuids(n), env.timeout);
    FinishRound(at(n + 1), env.clock(n + 1), env.uuids(n + 1), env.timeout);
  }

  /** Within two rounds an operation under way is over and its row level with the world, exactly
      if its end is there to be seen, or there is time and something to execute, or it is out
      of time in a world that is as desired already. */
  lemma OperationFinishesIff(at: nat -> State, env: Env, n: nat)
    requires IsRounds(at, env) && InProgress(at(n)) && UuidsFit(env.uuids, at(n).res)
    ensures (Level(at(n + 1), at(n).row.desired, env.uuids) || Level(at(n + 2), at(n).row.desired, env.uuids)) <==>
            (|| AboutToFinish(at(n))
             || (!Late(at(n), env.clock(n), env.timeout) && !Idles(at(n)))
             || (Late(at(n), env.clock(n), env.timeout) && WorldPhase(at(n).res) == PhaseFromDesired(at(n).row.desired)))
  {
    hide Round, AboutToFinish, Idles, Late;
    assert RoundAt(at, env, n);
    if AboutToFinish(at(n)) {
      FinishRound(at(n), env.clock(n), env.uuids(n), env.timeout);
    } else if Late(at(n), env.clock(n), env.timeout) {
      SoonIfLate(at, env, n);
    } else if Idles(at(n)) {
      NeverSoonIfIdling(at, env, n);
    } else {
      SoonIfRetried(at, env, n);
    }
  }

  /** When the row is idle again. */
  function IdleFrom(at: nat -> State, env: Env, n: nat): nat
    requires at(n).row.opStartedAt.Some?
  {
    if AboutToFinish(at(n)) || Late(at(n), env.clock(n), env.timeout) then n + 1 else n + 2
  }

  /** A world without volume that the operation under way does not bring one to. */
  predicate StaysKeyless(st: State, now: int, timeout: int)
    requires st.row.opStartedAt.Some?
  {
    Keyless(st) && (st.row.operation in {Provisioning, Starting} ==> Late(st, now, timeout))
  }

  lemma IdleAgain(at: nat -> State, env: Env, n: nat)
    requires IsRounds(at, env) && UnderWay(at(n)) && UuidsFit(env.uuids, at(n).res)
    requires Keyless(at(n)) ==> at(n).row.operation != Operation.Deleting
    requires !Idles(at(n)) || Late(at(n), env.clock(n), env.timeout)
    ensures var idle := at(IdleFrom(at, env, n));
            && Intact(idle) && idle.row.operation == NoOperation && UuidsFit(env.uuids, idle.res)
            && idle.row.desired == at(n).row.desired
            && (Keyless(idle) <==> StaysKeyless(at(n), env.clock(n), env.timeout))
            && !Drifted(idle) && RoundsNeeded(idle) <= (n + 2 - IdleFrom(at, env, n))
                                 + 2 * Distance(WorldPhase(idle.res), PhaseFromDesired(idle.row.desired))
  {
    var st := at(n);
    assert RoundAt(at, env, n) && RoundAt(at, env, n + 1);
    if AboutToFinish(st) {
      FinishRound(st, env.clock(n), env.uuids(n), env.timeout);
    } else if Late(st, env.clock(n), env.timeout) {
      LateRound(st, env.clock(n), env.uuids(n), env.timeout);
    } else {
      RetryRound(st, env.clock(n), env.uuids(n), env.timeout);
      FinishRound(at(n + 1), env.clock(n + 1), env.uuids(n + 1), env.timeout);
    }
  }

  /** From an operation under way: idle within two rounds, settled exactly `RoundsNeeded` later,
      which is at most two rounds and twice the graph distance from now, and so for ever. */
  lemma ConvergesFromOperation(at: nat -> State, env: Env, n: nat)
    requires IsRounds(at, env) && InProgress(at(n)) && UuidsFit(env.uuids, at(n).res)
    requires !Idles(at(n)) || Late(at(n), env.clock(n), env.timeout)
    ensures var idle := IdleFrom(at, env, n);
            var there := idle + RoundsNeeded(at(idle));
            && idle <= n + 2 && at(idle).row.operation == NoOperation
            && there <= n + 2 + 2 * Distance(WorldPhase(at(idle).res), PhaseFromDesired(at(n).row.desired))
            && (forall k: nat :: idle <= k ==> (Settled(at(k)) <==> there <= k))
            && (forall k: nat :: there <= k ==> at(k).res == at(there).res)
  {
    IdleAgain(at, env, n);
    ConvergesFromIdle(at, env, IdleFrom(at, env, n));
  }

  /** And a restore without a key idles until it is out of time. */
  lemma {:induction false} KeylessRestoreIdles(at: nat -> State, env: Env, n: nat, k: nat)
    requires IsRounds(at, env) && UnderWay(at(n)) && Idles(at(n)) && n <= k
    requires forall m: nat :: n <= m < k ==> !IsTimeout(at(n).row.opStartedAt.value, env.clock(m), env.timeout)
    ensures UnderWay(at(k)) && Idles(at(k)) && at(k).res == at(n).res && !Settled(at(k))
    ensures at(k).row.opStartedAt == at(n).row.opStartedAt
  {
    if n < k {
      KeylessRestoreIdles(at, env, n, k - 1);
      assert RoundAt(at, env, k - 1);
      IdlingRound(at(k - 1), env.clock(k - 1), env.uuids(k - 1), env.timeout);
    }
  }

  // ----- archives without a key, and when anything converges -----

  /** An archive that no key names, nothing else, a user who wants something else, and no
      operation that would bring it. */
  predicate Unkeyed(st: State) {
    && Intact(st) && Keyless(st) && st.row.desired in {Desired.Running, Desired.Standby}
    && st.row.operation !in {Provisioning, Starting, Operation.Deleting}
  }

  lemma UnkeyedRound(st: State, now: int, uuid: OpId, timeout: int)
    requires Unkeyed(st)
    ensures Unkeyed(Round(st, now, uuid, timeout)) && !Settled(st)
  {
    var observed := st.row.(conditions := Faithful(st.res));
    if Loaded(observed) {
      var action := Plan(observed, timeout, now, uuid);
      assert action.operation in {NoOperation, Restoring};
      var tick := StartTick(observed, action, uuid);
      if tick.pc.Enter? {
        UncutOnce(st.res, tick, LONGEST_ATTEMPT);
      }
    }
  }

  /** Such a workspace restores for ever in vain, or rests where nobody looks. */
  lemma {:induction false} UnkeyedNeverConverges(at: nat -> State, env: Env, n: nat, k: nat)
    requires IsRounds(at, env) && Unkeyed(at(n)) && n <= k
    ensures Unkeyed(at(k)) && !Settled(at(k))
    decreases k
  {
    if k > n {
      UnkeyedNeverConverges(at, env, n, k - 1);
      var m := k - 1;
      assert RoundAt(at, env, m);
      UnkeyedRound(at(m), env.clock(m), env.uuids(m), env.timeout);
    }
    UnkeyedRound(at(k), 0, "", 0);
  }

  ghost predicate SettledFrom(at: nat -> State, k: nat) {
    forall j: nat :: k <= j ==> Settled(at(j))
  }

  /** Where it should be from some round on. */
  ghost predicate Converges(at: nat -> State, n: nat) {
    exists k: nat :: n <= k && SettledFrom(at, k)
  }

  /** The operation will be out of time at round n or later. */
  ghost predicate RunsOut(st: State, env: Env, n: nat)
    requires st.row.opStartedAt.Some?
  {
    exists k: nat :: n <= k && IsTimeout(st.row.opStartedAt.value, env.clock(k), env.timeout)
  }

  /** Not in the blind spot; no restore without a key, unless it runs out of time; and of a
      world that has only an archive without a key nothing but that is wanted, or an operation
      under way brings a volume in time. */
  ghost predicate CanConverge(st: State, env: Env, n: nat)
    requires st.row.operation != NoOperation ==> st.row.opStartedAt.Some?
  {
    && !Drifted(st)
    && (Idles(st) ==> RunsOut(st, env, n))
    && (Keyless(st) && st.row.desired != Desired.Archived ==>
          st.row.operation in {Provisioning, Starting} && !Late(st, env.clock(n), env.timeout))
  }

  /** Rounds before do not matter. */
  lemma ConvergesLater(at: nat -> State, n: nat, m: nat)
    requires n <= m
    ensures Converges(at, n) <==> Converges(at, m)
  {
    if Converges(at, n) {
      var k: nat :| n <= k && SettledFrom(at, k);
      assert SettledFrom(at, if k < m then m else k);
    }
  }

  lemma NeverSettled(at: nat -> State, n: nat)
    requires forall k: nat :: n <= k ==> !Settled(at(k))
    ensures !Converges(at, n)
  {
    forall k: nat | n <= k ensures !SettledFrom(at, k) {
      assert !Settled(at(k));
    }
  }

  lemma UnkeyedDiverges(at: nat -> State, env: Env, n: nat)
    requires IsRounds(at, env) && Unkeyed(at(n))
    ensures !Converges(at, n)
  {
    forall k: nat | n <= k ensures !Settled(at(k)) {
      UnkeyedNeverConverges(at, env, n, k);
    }
    NeverSettled(at, n);
  }

  lemma SettledConverges(at: nat -> State, env: Env, n: nat, k: nat)
    requires IsRounds(at, env) && n <= k && Intact(at(k)) && Settled(at(k))
    ensures Converges(at, n)
  {
    forall j: nat | k <= j ensures Settled(at(j)) {
      StaysSettled(at, env, k, j);
    }
    assert SettledFrom(at, k);
  }

  lemma IdleConvergesIff(at: nat -> State, env: Env, n: nat)
    requires IsRounds(at, env) && Intact(at(n)) && at(n).row.operation == NoOperation && UuidsFit(env.uuids, at(n).res)
    ensures Converges(at, n) <==> !Drifted(at(n)) && (Keyless(at(n)) ==> at(n).row.desired == Desired.Archived)
  {
    if Healthy(at(n)) {
      if Drifted(at(n)) {
        forall k: nat | n <= k ensures !Settled(at(k)) {
          DriftedNeverMoves(at, env, n, k);
        }
        NeverSettled(at, n);
      } else {
        FirstSettled(at, env, n);
        SettledConverges(at, env, n, n + RoundsNeeded(at(n)));
      }
    } else if at(n).row.desired == Desired.Archived {
      OneRound(at, env, n);
      SettledConverges(at, env, n, n + 1);
    } else {
      UnkeyedDiverges(at, env, n);
    }
  }

  lemma BusyConvergesIff(at: nat -> State, env: Env, n: nat)
    requires IsRounds(at, env) && UnderWay(at(n)) && UuidsFit(env.uuids, at(n).res)
    requires Keyless(at(n)) ==> at(n).row.operation != Operation.Deleting
    requires !Idles(at(n)) || Late(at(n), env.clock(n), env.timeout)
    ensures Converges(at, n) <==>
            (StaysKeyless(at(n), env.clock(n), env.timeout) ==> at(n).row.desired == Desired.Archived)
  {
    var m := IdleFrom(at, env, n);
    IdleAgain(at, env, n);
    IdleConvergesIff(at, env, m);
    ConvergesLater(at, n, m);
  }

  lemma {:induction false} OutOfTimeConvergesIff(at: nat -> State, env: Env, n: nat, k: nat)
    requires IsRounds(at, env) && UnderWay(at(n)) && UuidsFit(env.uuids, at(n).res) && Idles(at(n)) && n <= k
    requires IsTimeout(at(n).row.opStartedAt.value, env.clock(k), env.timeout)
    ensures Converges(at, n) <==> (Keyless(at(n)) ==> at(n).row.desired == Desired.Archived)
    decreases k - n
  {
    if Late(at(n), env.clock(n), env.timeout) {
      BusyConvergesIff(at, env, n);
    } else {
      assert RoundAt(at, env, n);
      IdlingRound(at(n), env.clock(n), env.uuids(n), env.timeout);
      OutOfTimeConvergesIff(at, env, n + 1, k);
      ConvergesLater(at, n, n + 1);
    }
  }

  lemma IdlesForEver(at: nat -> State, env: Env, n: nat)
    requires IsRounds(at, env) && UnderWay(at(n)) && Idles(at(n)) && !RunsOut(at(n), env, n)
    ensures !Converges(at, n)
  {
    forall k: nat | n <= k ensures !Settled(at(k)) {
      KeylessRestoreIdles(at, env, n, k);
    }
    NeverSettled(at, n);
  }

  /** What the rounds may start from: an intact row, with what an operation under way has. */
  predicate Startable(st: State) {
    Intact(st) && (st.row.operation != NoOperation ==> UnderWay(st)) && (Keyless(st) ==> st.row.operation != Operation.Deleting)
  }

  lemma ConvergesIff(at: nat -> State, env: Env, n: nat)
    requires IsRounds(at, env) && Startable(at(n)) && UuidsFit(env.uuids, at(n).res)
    ensures Converges(at, n) <==> CanConverge(at(n), env, n)
  {
    if at(n).row.operation == NoOperation {
      IdleConvergesIff(at, env, n);
    } else if !Idles(at(n)) {
      BusyConvergesIff(at, env, n);
    } else if RunsOut(at(n), env, n) {
      var k: nat :| n <= k && IsTimeout(at(n).row.opStartedAt.value, env.clock(k), env.timeout);
      OutOfTimeConvergesIff(at, env, n, k);
    } else {
      IdlesForEver(at, env, n);
    }
  }

  // ----- rounds and the interleaved system -----

  lemma CarefulIsSound(states: seq<Sys>, steps: seq<Step>)
    requires IsRun(states, steps, Contents.Careful)
    ensures IsRun(states, steps, Sound)
  {
    forall k | 0 <= k < |steps| ensures Sound(states[k], steps[k]) && Next(states[k], steps[k], states[k + 1]) {
      assert Contents.Careful(states[k], steps[k]);
    }
  }

  /** A live state of a careful run is one that rounds may start from, at any moment but between
      two uploads: healthy, unless all there is is an archive without a key. */
  lemma ReachableIsStartable(states: seq<Sys>, steps: seq<Step>, i: nat)
    requires IsRun(states, steps, Contents.Careful) && i < |states| && Live(states[i].row)
    requires states[i].wc.Busy? ==> !states[i].wc.tick.pc.PutMeta?
    ensures var st := State(states[i].row.value, states[i].res);
            && Startable(st)
            && (Healthy(st) <==> (st.res.volume.None? && st.res.tars.Keys != {} ==> st.row.archiveKey.Some?))
            && (InProgress(st) <==> Healthy(st) && st.row.operation != NoOperation)
  {
    Contents.KeptRun(states, steps, i);
    CarefulIsSound(states, steps);
    SafeRun(states, steps, i);
  }

  /** Wherever a careful run leaves a live workspace with no tick on it, rounds bring it to its
      desired state for good, or never do, and this says which. */
  lemma CarefulConvergesIff(states: seq<Sys>, steps: seq<Step>, i: nat, at: nat -> State, env: Env)
    requires IsRun(states, steps, Contents.Careful) && i < |states| && Live(states[i].row) && states[i].wc.Resting?
    requires IsRounds(at, env) && at(0) == State(states[i].row.value, states[i].res)
    requires forall m: nat :: NewOpId(states[i], env.uuids(m))
    ensures var row := states[i].row.value; row.operation != NoOperation ==> row.opStartedAt.Some?
    ensures Converges(at, 0) <==> CanConverge(at(0), env, 0)
  {
    ReachableIsStartable(states, steps, i);
    CarefulIsSound(states, steps);
    SafeRun(states, steps, i);
    forall m: nat ensures env.uuids(m) != "" && MetaVouches(SlotOf(at(0).res, env.uuids(m))) {
      assert NewOpId(states[i], env.uuids(m));
    }
    ConvergesIff(at, env, 0);
  }

  function ActUntilDone(s: Sys, bound: nat): (s': Sys)
    requires s.wc.Busy?
    ensures s'.wc.Busy? && s' == s.(res := s'.res, wc := s'.wc)
    decreases bound
  {
    if bound == 0 || s.wc.tick.pc.Finished? || s.wc.tick.pc.Failed? then s
    else ActUntilDone(Apply(s, Act(NO_CHOICE)), bound - 1)
  }

  lemma {:induction false} ActsAreUncut(s: Sys, bound: nat)
    requires s.wc.Busy?
    ensures var (res, tick) := Uncut(s.res, s.wc.tick, bound);
            ActUntilDone(s, bound) == s.(res := res, wc := Busy(tick))
    decreases bound
  {
    if bound > 0 && !s.wc.tick.pc.Finished? && !s.wc.tick.pc.Failed? {
      ActsAreUncut(Apply(s, Act(NO_CHOICE)), bound - 1);
    }
  }

  /** Load with this action, act until done, and, if nothing failed, save. */
  function TickWith(s: Sys, uuid: OpId, action: PlanAction, other: OpId): (s': Option<Sys>)
    requires s.row.Some?
    ensures s'.Some? ==> s'.value.row.Some?
  {
    var done := ActUntilDone(LoadWith(s, uuid, action), LONGEST_ATTEMPT);
    if done.wc.tick.pc.Finished? && NewOpId(done, other) then Some(Apply(done, Save(TransactionStart(done), other))) else None
  }

  /** A tick of a round is a run of the interleaved system, whenever its transaction began. */
  lemma ReconcileIsATick(s: Sys, uuid: OpId, timeout: int, other: OpId)
    requires Basic(s) && Enabled(s, Load(uuid, timeout))
    ensures var saved := TickWith(s, uuid, Plan(s.row.value, timeout, s.now, uuid), other);
            var round := Reconcile(State(s.row.value, s.res), s.now, uuid, timeout);
            saved.Some? ==>
              && saved.value.res == round.res
              && saved.value.row.value.(phaseChangedAt := round.row.phaseChangedAt) == round.row
  {
    hide Plan, Uncut, ActUntilDone;
    var action := Plan(s.row.value, timeout, s.now, uuid);
    ActsAreUncut(LoadWith(s, uuid, action), LONGEST_ATTEMPT);
    PlanShape(s.row.value, timeout, s.now, uuid);
    UncutKeepsOperation(s.res, StartTick(s.row.value, action, uuid), LONGEST_ATTEMPT);
  }

  lemma {:induction false} UncutKeepsOperation(res: Resources, tick: Tick, bound: nat)
    ensures var (_, tick') := Uncut(res, tick, bound);
            tick'.snap == tick.snap && tick'.action.operation == tick.action.operation && tick'.action.opId == tick.action.opId
    decreases bound
  {
    if bound > 0 && !tick.pc.Finished? && !tick.pc.Failed? {
      var (res', tick') := Effect(res, tick, NO_CHOICE);
      UncutKeepsOperation(res', tick', bound - 1);
    }
  }
}
