/** What every step keeps, whatever is interleaved, abandoned, retried or killed. */
module Safety {
  import opened Domain
  import opened Archive
  import opened Planner
  import opened Actuator
  import opened Controller
  import opened System

  predicate Known(op: Option<OpId>, used: set<OpId>) {
    op.Some? ==> op.value in used
  }

  predicate RowOk(row: Row, used: set<OpId>) {
    && (row.operation != NoOperation <==> row.opStartedAt.Some?)
    && (row.operation != NoOperation ==> row.opId.Some?)
    && Known(row.opId, used) && Known(row.archiveKey, used) && Known(row.restoreMarker, used)
  }

  /** Which effects belong to which operation. */
  predicate PcFits(operation: Operation, pc: Pc) {
    pc.Enter? || pc.Finished? || pc.Failed?
    || match operation
       case Provisioning => pc.CreateVolume?
       case Restoring => pc.CreateVolume? || pc.Fetch? || pc.Sync? || pc.KeepMarker?
       case Starting => pc.CreateContainer? || pc.StartContainer?
       case Stopping => pc.StopContainer? || pc.RemoveContainer?
       case Archiving =>
         pc.Mount? || pc.Head? || pc.PutTar? || pc.PutMeta? || pc.KeepKey?
         || pc.StopContainer? || pc.RemoveContainer? || pc.RemoveVolume?
       case CreateEmptyArchive => pc.PutTar? || pc.PutMeta? || pc.KeepKey?
       case Deleting => pc.StopContainer? || pc.RemoveContainer? || pc.RemoveVolume?
       case NoOperation => false
  }

  /** A tick that begins an operation: its op id is not in the row before it is saved. */
  predicate FirstTick(tick: Tick) {
    tick.action.operation != NoOperation && tick.snap.operation == NoOperation
  }

  predicate TickOk(row: Row, tick: Tick, used: set<OpId>) {
    var snap, action := tick.snap, tick.action;
    && snap.operation == row.operation && snap.opStartedAt == row.opStartedAt && snap.opId == row.opId
    && snap.archiveKey == row.archiveKey && snap.restoreMarker == row.restoreMarker
    && tick.opId in used
    && PcFits(action.operation, tick.pc)
    && (action.operation == NoOperation ==>
          tick.pc.Finished? && action.archiveKey.None? && action.restoreMarker.None?)
    && (action.operation != NoOperation ==>
          && !action.complete
          && action.opId == Some(tick.opId)
          && (snap.operation != NoOperation ==> snap.operation == action.operation && snap.opId == Some(tick.opId))
          && (snap.operation == NoOperation ==>
                Some(tick.opId) != row.opId && Some(tick.opId) != row.archiveKey && Some(tick.opId) != row.restoreMarker))
    && (action.archiveKey.Some? ==>
          action.archiveKey == Some(tick.opId) && (action.operation == Archiving || action.operation == CreateEmptyArchive))
    && (action.restoreMarker.Some? ==> action.restoreMarker == row.archiveKey && action.operation == Restoring)
  }

  /** Bookkeeping: the controller's columns and its tick agree, uuids are never reused,
      nothing exists before the row does, and a container, a job's too, keeps its volume. */
  predicate Basic(s: Sys) {
    && "" !in s.used
    && s.res.tars.Keys <= s.used && s.res.metas.Keys <= s.used && s.gc.keys <= s.used && s.gc.orphans <= s.used
    && (s.res.container.Some? || JobHolds(s.wc) ==> s.res.volume.Some?)
    && (s.row.None? ==>
          s.res == NO_RESOURCES && s.wc.Resting? && s.obs.NoListing? && !s.gc.sawContainer && !s.gc.sawVolume
          && s.gc.keys == {} && s.gc.orphans == {} && !s.gc.orphanContainer && !s.gc.orphanVolume)
    && (s.row.Some? ==> RowOk(s.row.value, s.used))
    && (s.row.Some? && s.wc.Busy? ==> TickOk(s.row.value, s.wc.tick, s.used))
  }

  /** The actions `Plan` can produce from a row, as far as the operation column and op ids go. */
  predicate PlannedFrom(row: Row, action: PlanAction, uuid: OpId) {
    && action.archiveKey.None? && action.restoreMarker.None?
    && (action.operation == NoOperation ==> action.opId.None?)
    && (action.operation != NoOperation ==>
          && !action.complete
          && (row.operation == NoOperation ==> action.opId == Some(uuid))
          && (row.operation != NoOperation ==> action.operation == row.operation && action.opId == row.opId))
  }

  lemma PlanShape(row: Row, timeout: int, now: int, uuid: OpId)
    ensures PlannedFrom(row, Plan(row, timeout, now, uuid), uuid)
  {
  }

  lemma BasicLoadWith(s: Sys, uuid: OpId, action: PlanAction)
    requires Basic(s) && s.wc.Resting? && s.row.Some? && NewOpId(s, uuid)
    requires PlannedFrom(s.row.value, action, uuid)
    ensures Basic(LoadWith(s, uuid, action))
  {
  }

  /** What one effect can touch at all. */
  lemma EffectShape(res: Resources, tick: Tick, choice: Choice)
    requires PcFits(tick.action.operation, tick.pc)
    requires res.container.Some? || JobHolds(Busy(tick)) ==> res.volume.Some?
    ensures var (res', tick') := Effect(res, tick, choice);
            && tick'.snap == tick.snap && tick'.opId == tick.opId
            && PcFits(tick.action.operation, tick'.pc)
            && tick'.action == tick.action.(archiveKey := tick'.action.archiveKey, restoreMarker := tick'.action.restoreMarker)
            && (tick'.action.archiveKey == tick.action.archiveKey
                || (tick.pc.KeepKey? && tick'.action.archiveKey == Some(tick.opId)))
            && (tick'.action.restoreMarker == tick.action.restoreMarker
                || (tick.pc.KeepMarker? && tick'.action.restoreMarker == tick.snap.archiveKey))
            && res'.tars.Keys <= res.tars.Keys + {tick.opId} && res'.metas.Keys <= res.metas.Keys + {tick.opId}
            && (res'.container.Some? || JobHolds(Busy(tick')) ==> res'.volume.Some?)
  {
  }

  lemma BasicAct(s: Sys, choice: Choice)
    requires Basic(s) && Enabled(s, Act(choice))
    ensures Basic(Apply(s, Act(choice)))
  {
    EffectShape(s.res, s.wc.tick, choice);
  }

  lemma BasicSave(s: Sys, stamp: int, uuid: OpId)
    requires Basic(s) && Enabled(s, Save(stamp, uuid))
    ensures Basic(Apply(s, Save(stamp, uuid)))
  {
  }

  lemma BasicOther(s: Sys, step: Step)
    requires Basic(s) && Enabled(s, step) && !step.Load? && !step.Act? && !step.Save?
    ensures Basic(Apply(s, step))
  {
    hide Protected, Persist, DoLoad, DoSave, DoAct;
  }

  // ----- archive before delete, and garbage collection -----

  const EMPTY_BLOB := Blob(EMPTY_HOME, 0)

  /** The op id of the operation under way, if any, else of the last one. */
  function CurrentOp(s: Sys): Option<OpId> {
    if s.wc.Busy? && s.wc.tick.action.operation != NoOperation then Some(s.wc.tick.opId)
    else if s.row.Some? then s.row.value.opId
    else None
  }

  predicate NothingButEmpty(slot: Slot) {
    slot.tar.Some? ==> slot.tar.value == EMPTY_BLOB
  }

  predicate SlotWhere(res: Resources, op: Option<OpId>, holds: Slot -> bool) {
    op.Some? ==> holds(SlotOf(res, op.value))
  }

  /** How far the upload of the current attempt has got. */
  predicate Held(res: Resources, tick: Tick) {
    var slot := SlotOf(res, tick.opId);
    && (tick.action.archiveKey.Some? || tick.pc.KeepKey? ==> BothPresent(slot))
    && (tick.pc.PutMeta? ==> slot.tar == Some(tick.pc.blob))
    && (tick.action.operation == Archiving && (tick.pc.StopContainer? || tick.pc.RemoveContainer? || tick.pc.RemoveVolume?) ==>
          tick.action.archiveKey == Some(tick.opId))
  }

  /** While the workspace is live, its archive key names two objects, and an upload is where its
      attempt says. */
  predicate Holds(s: Sys) {
    Live(s.row) ==>
      && SlotWhere(s.res, s.row.value.archiveKey, BothPresent)
      && (s.wc.Busy? && s.wc.tick.action.operation != NoOperation ==> Held(s.res, s.wc.tick))
  }

  /** The collector has marked nothing that a live workspace has or can still come to own. */
  predicate Uncollected(s: Sys) {
    Live(s.row) ==>
      && !s.gc.orphanContainer && !s.gc.orphanVolume
      && (s.row.value.archiveKey.Some? ==> s.row.value.archiveKey.value !in s.gc.orphans)
      && (s.row.value.opId.Some? ==> s.row.value.opId.value !in s.gc.orphans)
      && (CurrentOp(s).Some? ==> CurrentOp(s).value !in s.gc.orphans)
  }

  /** The collector must not both list and read its keys inside the first tick of an
      operation: the op id of that tick is committed only when the tick is saved. */
  predicate GcTimely(s: Sys, step: Step) {
    step.GcReadKeys? && s.wc.Busy? && FirstTick(s.wc.tick) ==> s.wc.tick.opId !in s.gc.keys
  }

  predicate Secure(s: Sys) {
    Basic(s) && Holds(s) && Uncollected(s)
  }

  lemma HeldStep(res: Resources, tick: Tick, choice: Choice)
    requires PcFits(tick.action.operation, tick.pc)
    requires Held(res, tick)
    requires tick.action.archiveKey.Some? ==> tick.action.archiveKey == Some(tick.opId)
    ensures var (res', tick') := Effect(res, tick, choice);
            Held(res', tick') && (BothPresent(SlotOf(res, tick.opId)) ==> BothPresent(SlotOf(res', tick.opId)))
  {
  }

  /** An effect writes the slot under its own op id and no other. */
  lemma OwnSlotOnly(res: Resources, tick: Tick, choice: Choice)
    ensures var (res', _) := Effect(res, tick, choice);
            forall op :: op != tick.opId ==> SlotOf(res', op) == SlotOf(res, op)
  {
  }

  lemma SecureLoadWith(s: Sys, uuid: OpId, action: PlanAction)
    requires Secure(s) && s.wc.Resting? && s.row.Some? && NewOpId(s, uuid)
    requires PlannedFrom(s.row.value, action, uuid)
    ensures Secure(LoadWith(s, uuid, action))
  {
    BasicLoadWith(s, uuid, action);
  }

  lemma SecureLoad(s: Sys, uuid: OpId, timeout: int)
    requires Secure(s) && Enabled(s, Load(uuid, timeout))
    ensures Secure(Apply(s, Load(uuid, timeout)))
  {
    hide Plan, Secure;
    PlanShape(s.row.value, timeout, s.now, uuid);
    SecureLoadWith(s, uuid, Plan(s.row.value, timeout, s.now, uuid));
  }

  lemma SecureAct(s: Sys, choice: Choice)
    requires Secure(s) && Enabled(s, Act(choice))
    ensures Secure(Apply(s, Act(choice)))
  {
    hide Effect;
    BasicAct(s, choice);
    EffectShape(s.res, s.wc.tick, choice);
    if Live(s.row) {
      HeldStep(s.res, s.wc.tick, choice);
      OwnSlotOnly(s.res, s.wc.tick, choice);
    }
  }

  lemma SecureSave(s: Sys, stamp: int, uuid: OpId)
    requires Secure(s) && Enabled(s, Save(stamp, uuid))
    ensures Secure(Apply(s, Save(stamp, uuid)))
  {
    BasicSave(s, stamp, uuid);
  }

  predicate ByCollector(step: Step) {
    || step.GcListKeys? || step.GcReadKeys? || step.GcDropTar? || step.GcDropMeta?
    || step.GcListContainer? || step.GcListVolume? || step.GcReadIds? || step.GcDropContainer? || step.GcDropVolume?
  }

  lemma SecureDrop(s: Sys, step: Step)
    requires Secure(s) && Enabled(s, step) && (step.GcDropTar? || step.GcDropMeta?)
    ensures Secure(Apply(s, step))
  {
    BasicOther(s, step);
    hide Basic, DoLoad, DoSave, DoAct, DoObserveWrite, Effect, Plan;
  }

  lemma SecureCollector(s: Sys, step: Step)
    requires Secure(s) && Enabled(s, step) && GcTimely(s, step) && ByCollector(step)
    ensures Secure(Apply(s, step))
  {
    if step.GcDropTar? || step.GcDropMeta? {
      SecureDrop(s, step);
    } else {
      BasicOther(s, step);
    }
  }

  lemma SecureOther(s: Sys, step: Step)
    requires Secure(s) && Enabled(s, step) && !ByCollector(step) && !step.Load? && !step.Act? && !step.Save?
    ensures Secure(Apply(s, step))
  {
    hide DoLoad, DoSave, DoAct;
    BasicOther(s, step);
    hide Basic;
  }

  lemma SecureStep(s: Sys, step: Step)
    requires Secure(s) && Enabled(s, step) && GcTimely(s, step)
    ensures Secure(Apply(s, step))
  {
    hide Secure, Enabled, Apply, GcTimely;
    if step.Load? {
      SecureLoad(s, step.uuid, step.timeout);
    } else if step.Act? {
      SecureAct(s, step.choice);
    } else if step.Save? {
      SecureSave(s, step.stamp, step.uuid);
    } else if ByCollector(step) {
      SecureCollector(s, step);
    } else {
      SecureOther(s, step);
    }
  }

  lemma {:induction false} SecureRun(states: seq<Sys>, steps: seq<Step>, i: nat)
    requires IsRun(states, steps, GcTimely) && i < |states|
    ensures Secure(states[i])
  {
    if i > 0 {
      SecureRun(states, steps, i - 1);
      var k := i - 1;
      assert GcTimely(states[k], steps[k]) && Next(states[k], steps[k], states[k + 1]);
      SecureStep(states[i - 1], steps[i - 1]);
    }
  }

  /** A live workspace never loses its volume except to an operation that deletes the
      workspace, or after tar and marker were uploaded under this operation's own key and the
      controller holds that key. Retries, aborted attempts, failing HEAD requests, repeated
      ticks, crashes and garbage collection may all be interleaved. */
  lemma ArchiveBeforeDelete(states: seq<Sys>, steps: seq<Step>, i: nat)
    requires IsRun(states, steps, GcTimely) && i < |steps|
    requires Live(states[i].row) && states[i].res.volume.Some? && states[i + 1].res.volume.None?
    ensures states[i].wc.Busy? && steps[i].Act? && states[i].res.container.None?
    ensures var tick := states[i].wc.tick;
            tick.action.operation == Operation.Deleting
            || (tick.action.operation == Archiving
                && BothPresent(SlotOf(states[i].res, tick.opId))
                && tick.action.opId == Some(tick.opId) && tick.action.archiveKey == Some(tick.opId))
  {
    SecureRun(states, steps, i);
    assert Next(states[i], steps[i], states[i + 1]);
  }

  /** Rows precede resources: before a workspace has a row nothing bears its names. */
  lemma RowFirst(states: seq<Sys>, steps: seq<Step>, i: nat)
    requires IsRun(states, steps, GcTimely) && i < |states| && states[i].row.None?
    ensures states[i].res == NO_RESOURCES
  {
    SecureRun(states, steps, i);
  }

  lemma DeletionStep(s: Sys, step: Step)
    requires Enabled(s, step) && s.row.Some? && s.row.value.deletedAt.Some?
    ensures var s' := Apply(s, step); s'.row.Some? && s'.row.value.deletedAt == s.row.value.deletedAt
    ensures !step.Load?
  {
    hide Plan, DoLoad;
  }

  /** Deletion is for ever, and no controller ever takes up a deleted row: what it leaves is
      for the collector. */
  lemma {:induction false} DeletedForEver(states: seq<Sys>, steps: seq<Step>, rule: (Sys, Step) -> bool, i: nat, j: nat)
    requires IsRun(states, steps, rule) && i <= j < |states|
    requires states[i].row.Some? && states[i].row.value.deletedAt.Some?
    ensures states[j].row.Some? && states[j].row.value.deletedAt == states[i].row.value.deletedAt
    ensures forall k :: i <= k < j ==> !steps[k].Load?
  {
    hide Apply, Enabled;
    if i < j {
      var k := j - 1;
      DeletedForEver(states, steps, rule, i, k);
      assert Next(states[k], steps[k], states[k + 1]);
      DeletionStep(states[k], steps[k]);
    }
  }

  /** The collector never removes the container, the volume or an archive object of a workspace
      that is live when it does, and both objects under its archive key are there. */
  lemma GcSafety(states: seq<Sys>, steps: seq<Step>, i: nat)
    requires IsRun(states, steps, GcTimely) && i < |steps| && Live(states[i].row)
    ensures !steps[i].GcDropContainer? && !steps[i].GcDropVolume?
    ensures steps[i].GcDropTar? || steps[i].GcDropMeta? ==>
              Some(steps[i].op) != states[i].row.value.archiveKey
              && Some(steps[i].op) != states[i].row.value.opId
              && Some(steps[i].op) != CurrentOp(states[i])
    ensures SlotWhere(states[i].res, states[i].row.value.archiveKey, BothPresent)
  {
    SecureRun(states, steps, i);
    assert Next(states[i], steps[i], states[i + 1]);
  }

  /** Reading the protected keys at any other moment is harmless, at that moment never. */
  lemma GcTimelyIsExact(s: Sys)
    requires Secure(s) && Live(s.row)
    ensures Secure(Apply(s, GcReadKeys)) <==> GcTimely(s, GcReadKeys)
  {
    if GcTimely(s, GcReadKeys) {
      SecureStep(s, GcReadKeys);
    }
  }

  // ----- markers that vouch -----

  /** The job is between the uploads of this pair. */
  predicate Sealing(wc: Thread, op: OpId) {
    wc.Busy? && wc.tick.pc.PutMeta? && wc.tick.opId == op
  }

  predicate VouchesUnlessSealing(s: Sys, op: Option<OpId>) {
    op.Some? && !Sealing(s.wc, op.value) ==> MetaVouches(SlotOf(s.res, op.value))
  }

  /** While the workspace is live, markers under its archive key and its current and last
      operation vouch for the tars beside them, but for the moment between the two uploads. */
  predicate Archives(s: Sys) {
    Live(s.row) ==>
      && VouchesUnlessSealing(s, s.row.value.archiveKey)
      && VouchesUnlessSealing(s, s.row.value.opId)
      && VouchesUnlessSealing(s, CurrentOp(s))
      && (s.row.value.operation == CreateEmptyArchive ==> SlotWhere(s.res, s.row.value.opId, NothingButEmpty))
      && (s.wc.Busy? && s.wc.tick.action.operation == CreateEmptyArchive ==> NothingButEmpty(SlotOf(s.res, s.wc.tick.opId)))
  }

  /** A job that packs again, its HEAD having failed on a whole archive, must not die between
      the uploads over a marker of something else, unless its operation is forgotten with it. */
  predicate SealKeeps(s: Sys, step: Step) {
    && Live(s.row) && s.wc.Busy? && s.wc.tick.pc.PutMeta? && SlotOf(s.res, s.wc.tick.opId).meta.Some?
    && (step.Abandon? || (step.Crash? && !FirstTick(s.wc.tick)))
    ==> SlotOf(s.res, s.wc.tick.opId).meta.value == Sha256(s.wc.tick.pc.blob)
  }

  predicate Sound(s: Sys, step: Step) {
    GcTimely(s, step) && SealKeeps(s, step)
  }

  predicate Safe(s: Sys) {
    Secure(s) && Archives(s)
  }

  lemma VouchStep(res: Resources, tick: Tick, choice: Choice)
    requires PcFits(tick.action.operation, tick.pc) && Held(res, tick)
    requires !tick.pc.PutMeta? ==> MetaVouches(SlotOf(res, tick.opId))
    ensures var (res', tick') := Effect(res, tick, choice);
            !tick'.pc.PutMeta? ==> MetaVouches(SlotOf(res', tick.opId))
    ensures var (res', tick') := Effect(res, tick, choice);
            tick.action.operation == CreateEmptyArchive && NothingButEmpty(SlotOf(res, tick.opId)) ==>
              NothingButEmpty(SlotOf(res', tick.opId))
  {
  }

  /** Markers stay as they were but for the slot under the tick's own op id. */
  lemma ArchivesActWith(s: Sys, res': Resources, tick': Tick)
    requires Archives(s) && Live(s.row) && s.wc.Busy? && s.wc.tick.action.operation != NoOperation
    requires tick'.opId == s.wc.tick.opId && tick'.action.operation == s.wc.tick.action.operation
    requires s.row.value.operation == CreateEmptyArchive && s.row.value.opId == Some(tick'.opId) ==>
               tick'.action.operation == CreateEmptyArchive
    requires forall op :: op != tick'.opId ==> SlotOf(res', op) == SlotOf(s.res, op)
    requires !tick'.pc.PutMeta? ==> MetaVouches(SlotOf(res', tick'.opId))
    requires tick'.action.operation == CreateEmptyArchive ==> NothingButEmpty(SlotOf(res', tick'.opId))
    ensures Archives(s.(res := res', wc := Busy(tick')))
  {
    hide MetaVouches, NothingButEmpty, SlotOf;
  }

  lemma ArchivesAct(s: Sys, choice: Choice)
    requires Safe(s) && Enabled(s, Act(choice))
    ensures Archives(Apply(s, Act(choice)))
  {
    hide Effect, Uncollected, DoLoad, DoSave, DoObserveWrite;
    if Live(s.row) {
      EffectShape(s.res, s.wc.tick, choice);
      VouchStep(s.res, s.wc.tick, choice);
      OwnSlotOnly(s.res, s.wc.tick, choice);
      var (res', tick') := Effect(s.res, s.wc.tick, choice);
      ArchivesActWith(s, res', tick');
    }
  }

  lemma ArchivesLoadWith(s: Sys, uuid: OpId, action: PlanAction)
    requires Safe(s) && s.wc.Resting? && s.row.Some? && NewOpId(s, uuid)
    requires PlannedFrom(s.row.value, action, uuid)
    ensures Archives(LoadWith(s, uuid, action))
  {
  }

  lemma ArchivesLoad(s: Sys, uuid: OpId, timeout: int)
    requires Safe(s) && Enabled(s, Load(uuid, timeout))
    ensures Archives(Apply(s, Load(uuid, timeout)))
  {
    hide Plan, Safe, Archives;
    PlanShape(s.row.value, timeout, s.now, uuid);
    ArchivesLoadWith(s, uuid, Plan(s.row.value, timeout, s.now, uuid));
  }

  /** What the collector drops is under no key that a live workspace needs. */
  lemma ArchivesDrop(s: Sys, res: Resources, gc: Gc)
    requires Archives(s)
    requires Live(s.row) ==>
               && (s.row.value.archiveKey.Some? ==>
                     SlotOf(res, s.row.value.archiveKey.value) == SlotOf(s.res, s.row.value.archiveKey.value))
               && (s.row.value.opId.Some? ==> SlotOf(res, s.row.value.opId.value) == SlotOf(s.res, s.row.value.opId.value))
               && (CurrentOp(s).Some? ==> SlotOf(res, CurrentOp(s).value) == SlotOf(s.res, CurrentOp(s).value))
    ensures Archives(s.(res := res, gc := gc))
  {
  }

  lemma ArchivesCollector(s: Sys, step: Step)
    requires Safe(s) && Enabled(s, step) && ByCollector(step)
    ensures Archives(Apply(s, step))
  {
    hide Archives, Basic, Holds, DoLoad, DoSave, DoAct, DoObserveWrite;
    ArchivesDrop(s, Apply(s, step).res, Apply(s, step).gc);
  }

  lemma ArchivesOther(s: Sys, step: Step)
    requires Safe(s) && Enabled(s, step) && SealKeeps(s, step) && !ByCollector(step) && !step.Load? && !step.Act?
    ensures Archives(Apply(s, step))
  {
    hide DoLoad, DoAct;
  }

  lemma SafeStep(s: Sys, step: Step)
    requires Safe(s) && Enabled(s, step) && Sound(s, step)
    ensures Safe(Apply(s, step))
  {
    hide Secure, Archives, Enabled, Apply, GcTimely, SealKeeps;
    SecureStep(s, step);
    if step.Load? {
      ArchivesLoad(s, step.uuid, step.timeout);
    } else if step.Act? {
      ArchivesAct(s, step.choice);
    } else if ByCollector(step) {
      ArchivesCollector(s, step);
    } else {
      ArchivesOther(s, step);
    }
  }

  lemma {:induction false} SafeRun(states: seq<Sys>, steps: seq<Step>, i: nat)
    requires IsRun(states, steps, Sound) && i < |states|
    ensures Safe(states[i])
  {
    if i > 0 {
      SafeRun(states, steps, i - 1);
      var k := i - 1;
      assert Sound(states[k], steps[k]) && Next(states[k], steps[k], states[k + 1]);
      SafeStep(states[i - 1], steps[i - 1]);
    }
  }

  /** Then the archive key names a whole archive that verifies, at every moment but between the
      two uploads of a job that packs it again; and so does the key of an operation at the
      moment it removes the volume. */
  lemma KeysNameWholeArchives(states: seq<Sys>, steps: seq<Step>, i: nat)
    requires IsRun(states, steps, Sound) && i < |states| && Live(states[i].row)
    ensures var key := states[i].row.value.archiveKey;
            key.Some? && !Sealing(states[i].wc, key.value) ==> Committed(SlotOf(states[i].res, key.value))
    ensures i < |steps| && states[i].res.volume.Some? && states[i + 1].res.volume.None?
            && states[i].wc.Busy? && states[i].wc.tick.action.operation == Archiving ==>
              Committed(SlotOf(states[i].res, states[i].wc.tick.opId))
  {
    SafeRun(states, steps, i);
    if i < |steps| {
      assert Next(states[i], steps[i], states[i + 1]);
    }
  }

  /** Dying between the uploads is harmless exactly if the marker vouches for what is packed. */
  lemma SealKeepsIsExact(s: Sys, step: Step)
    requires Safe(s) && Live(s.row) && Enabled(s, step) && (step.Abandon? || step.Crash?)
    ensures Safe(Apply(s, step)) <==> SealKeeps(s, step)
  {
    if SealKeeps(s, step) {
      SafeStep(s, step);
    }
  }

  const NO_CHOICE := Choice(0, None, false)
}
