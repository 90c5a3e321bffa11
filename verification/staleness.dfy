/** Stored observations lag behind the world; this is how far they can. */
module Staleness {
  import opened Domain
  import opened Archive
  import opened Planner
  import opened Actuator
  import opened Controller
  import opened System
  import opened Safety

  datatype Trend = Still | Rises | Falls

  /** How an operation may move "container running" while it is under way. */
  function ContainerTrend(operation: Operation): Trend {
    match operation
    case Starting => Rises
    case Stopping => Falls
    case Deleting => Falls
    case _ => Still
  }

  /** How an operation may move "volume exists" while it is under way. An archive job that is
      entered again makes the volume anew before it goes again, so ARCHIVING has no trend. */
  function VolumeTrend(operation: Operation): Trend
    requires operation != Archiving
  {
    match operation
    case Provisioning => Rises
    case Restoring => Rises
    case Deleting => Falls
    case _ => Still
  }

  /** Stored, then listed, then actual: later is further along the trend. */
  predicate Ordered(trend: Trend, stored: bool, listed: Option<bool>, actual: bool) {
    match trend
    case Still => stored == actual && (listed.Some? ==> listed.value == actual)
    case Rises =>
      (stored ==> actual && (listed.Some? ==> listed.value)) && (listed.Some? && listed.value ==> actual)
    case Falls =>
      (actual ==> stored && (listed.Some? ==> listed.value)) && (listed.Some? && listed.value ==> stored)
  }

  function Flag(section: Option<Option<bool>>): Option<bool> {
    if section.Some? then Some(IsTrue(section.value)) else None
  }

  function ListedContainer(obs: Listing): Option<bool> {
    if obs.Listing? then Flag(obs.container) else None
  }

  function ListedVolume(obs: Listing): Option<bool> {
    if obs.Listing? then Flag(obs.volume) else None
  }

  predicate OrderedUnder(operation: Operation, cond: Conditions, obs: Listing, res: Resources)
    requires operation != Archiving
  {
    && Ordered(ContainerTrend(operation), IsTrue(cond.container), ListedContainer(obs), IsRunning(res))
    && Ordered(VolumeTrend(operation), IsTrue(cond.volume), ListedVolume(obs), res.volume.Some?)
  }

  /** The stored conditions and any listing in flight agree with the world. */
  predicate InStep(cond: Conditions, obs: Listing, res: Resources) {
    OrderedUnder(NoOperation, cond, obs, res)
  }

  /** An observation during which no operation has been under way reads the world as it still is. */
  predicate QuietOk(s: Sys) {
    s.obs.Listing? && s.obs.quiet ==>
      && s.row.Some? && s.row.value.operation == NoOperation && CurrentOperation(s) == NoOperation
      && (ListedContainer(s.obs).Some? ==> ListedContainer(s.obs).value == IsRunning(s.res))
      && (ListedVolume(s.obs).Some? ==> ListedVolume(s.obs).value == s.res.volume.Some?)
  }

  /** The stored conditions read as the completion of ARCHIVING. */
  predicate StoredDone(cond: Conditions) {
    !IsTrue(cond.volume) && IsTrue(cond.archive)
  }

  /** The listing in flight may come to read so. */
  predicate ListedDone(obs: Listing) {
    ListedVolume(obs) == Some(false) && Flag(obs.archive) != Some(false)
  }

  /** The tick under way has not ended, so a volume its job has made anew will still go. */
  predicate OnItsWay(wc: Thread) {
    wc.Busy? && !wc.tick.pc.Finished?
  }

  /** While ARCHIVING is under way: no container runs; once its end is stored, or in a listing
      that is still to be stored, the volume is gone or the controller is about to remove it;
      and a volume that is gone is in the archive of this operation. */
  predicate ArchivingTracked(s: Sys)
    requires s.row.Some?
  {
    var cond := s.row.value.conditions;
    && Ordered(Still, IsTrue(cond.container), ListedContainer(s.obs), IsRunning(s.res)) && !IsRunning(s.res)
    && (StoredDone(cond) ==> (s.res.volume.Some? ==> OnItsWay(s.wc)) && ListedVolume(s.obs) != Some(true))
    && (ListedDone(s.obs) ==> s.res.volume.Some? ==> OnItsWay(s.wc))
    && (s.res.volume.None? ==> SlotWhere(s.res, CurrentOp(s), BothPresent))
  }

  predicate Tracked(s: Sys) {
    Live(s.row) ==>
      && QuietOk(s)
      && (!s.tainted ==>
            if CurrentOperation(s) == Archiving then ArchivingTracked(s)
            else
              && OrderedUnder(CurrentOperation(s), s.row.value.conditions, s.obs, s.res)
              && (CurrentOperation(s) == Starting ==> s.res.volume.Some?))
  }

  /** A re-entered archive job must not be given up with its volume made anew once the end of
      the operation is stored or being listed, and no listing may catch that volume once the
      end is stored. */
  predicate Tidy(s: Sys, step: Step) {
    Live(s.row) && CurrentOperation(s) == Archiving && s.res.volume.Some? ==>
      && (step.GiveUp? ==> !StoredDone(s.row.value.conditions) && !ListedDone(s.obs))
      && (step.ListVolume? ==> !StoredDone(s.row.value.conditions))
  }

  predicate Orderly(s: Sys, step: Step) {
    GcTimely(s, step) && (!s.tainted ==> Tidy(s, step))
  }

  predicate Fresh(s: Sys) {
    Secure(s) && Tracked(s)
  }

  /** What the plan promises about conditions when it begins or ends an operation. */
  predicate PlannedOn(row: Row, action: PlanAction) {
    && (row.operation == NoOperation && action.operation == Archiving ==>
          !IsTrue(row.conditions.container) && IsTrue(row.conditions.volume))
    && (row.operation == NoOperation && action.operation == Starting ==> IsTrue(row.conditions.volume))
    && (row.operation != NoOperation && action.operation == NoOperation && action.complete ==>
          CheckCompletion(row.operation, row))
  }

  lemma PlanReadsConditions(row: Row, timeout: int, now: int, uuid: OpId)
    requires row.deletedAt.None?
    ensures PlannedOn(row, Plan(row, timeout, now, uuid))
  {
  }

  lemma TrackedLoad(s: Sys, uuid: OpId, action: PlanAction)
    requires Fresh(s) && s.wc.Resting? && Live(s.row)
    requires PlannedFrom(s.row.value, action, uuid) && PlannedOn(s.row.value, action)
    ensures Tracked(LoadWith(s, uuid, action))
  {
  }

  lemma TrackedLoads(s: Sys, uuid: OpId, timeout: int)
    requires Fresh(s) && Enabled(s, Load(uuid, timeout))
    ensures Tracked(Apply(s, Load(uuid, timeout)))
  {
    hide Plan;
    PlanShape(s.row.value, timeout, s.now, uuid);
    PlanReadsConditions(s.row.value, timeout, s.now, uuid);
    TrackedLoad(s, uuid, Plan(s.row.value, timeout, s.now, uuid));
  }

  lemma EffectFollowsTrend(res: Resources, tick: Tick, choice: Choice)
    requires PcFits(tick.action.operation, tick.pc) && tick.action.operation != Archiving
    requires res.container.Some? ==> res.volume.Some?
    requires tick.action.operation == Starting ==> res.volume.Some?
    ensures var (res', tick') := Effect(res, tick, choice);
            && Ordered(ContainerTrend(tick.action.operation), IsRunning(res), None, IsRunning(res'))
            && Ordered(VolumeTrend(tick.action.operation), res.volume.Some?, None, res'.volume.Some?)
            && (tick.action.operation == Starting ==> res'.volume.Some?)
  {
  }

  /** An archiving attempt ends with the volume gone, and takes it away with the key in hand. */
  lemma ArchivingEffect(res: Resources, tick: Tick, choice: Choice)
    requires PcFits(Archiving, tick.pc) && tick.action.operation == Archiving && !tick.pc.Finished? && !IsRunning(res)
    requires Held(res, tick)
    ensures var (res', tick') := Effect(res, tick, choice);
            && !IsRunning(res')
            && (tick'.pc.Finished? ==> res'.volume.None?)
            && (res'.volume.None? && res.volume.Some? ==> tick.action.archiveKey.Some? && res'.tars == res.tars && res'.metas == res.metas)
  {
  }

  lemma TrackedAct(s: Sys, choice: Choice)
    requires Fresh(s) && Enabled(s, Act(choice))
    ensures Tracked(Apply(s, Act(choice)))
  {
    hide Effect, DoLoad, DoSave, DoObserveWrite;
    EffectShape(s.res, s.wc.tick, choice);
    if Live(s.row) && !s.tainted {
      HeldStep(s.res, s.wc.tick, choice);
      if s.wc.tick.action.operation == Archiving {
        ArchivingEffect(s.res, s.wc.tick, choice);
      } else {
        EffectFollowsTrend(s.res, s.wc.tick, choice);
      }
    }
  }

  lemma TrackedObserver(s: Sys, step: Step)
    requires Fresh(s) && Enabled(s, step) && (!s.tainted ==> Tidy(s, step))
    requires step.ObserveBegin? || step.ListContainer? || step.ListVolume? || step.ListArchive? || step.ObserveWrite? || step.ObserveSkip?
    ensures Tracked(Apply(s, step))
  {
    hide DoLoad, DoSave, DoAct;
  }

  lemma TrackedWorker(s: Sys, step: Step)
    requires Fresh(s) && Enabled(s, step) && (!s.tainted ==> Tidy(s, step))
    requires step.Abandon? || step.Retry? || step.GiveUp? || step.Save? || step.Crash?
    ensures Tracked(Apply(s, step))
  {
    hide DoLoad, DoAct, DoObserveWrite;
  }

  /** The collector takes nothing from a live workspace but archives of earlier operations. */
  lemma TrackedDrop(s: Sys, res: Resources, gc: Gc)
    requires Tracked(s)
    requires Live(s.row) ==>
               && res.container == s.res.container && res.volume == s.res.volume
               && (CurrentOp(s).Some? ==> SlotOf(res, CurrentOp(s).value) == SlotOf(s.res, CurrentOp(s).value))
    ensures Tracked(s.(res := res, gc := gc))
  {
  }

  lemma TrackedCollector(s: Sys, step: Step)
    requires Fresh(s) && Enabled(s, step) && ByCollector(step)
    ensures Tracked(Apply(s, step))
  {
    hide Tracked;
    TrackedDrop(s, Apply(s, step).res, Apply(s, step).gc);
  }

  /** The API, the user, the clock and the connection. */
  predicate ByOthers(step: Step) {
    || step.Elapse? || step.ApiCreate? || step.ApiDelete? || step.SetDesired? || step.UserWrite?
    || step.ContainerExit? || step.Statement? || step.Commit?
  }

  lemma TrackedOther(s: Sys, step: Step)
    requires Fresh(s) && Enabled(s, step) && ByOthers(step)
    ensures Tracked(Apply(s, step))
  {
    hide DoLoad, DoSave, DoAct, DoObserveWrite;
  }

  lemma FreshStep(s: Sys, step: Step)
    requires Fresh(s) && Enabled(s, step) && Orderly(s, step)
    ensures Fresh(Apply(s, step))
  {
    hide Tracked, Secure, Enabled, Apply, GcTimely, Tidy;
    SecureStep(s, step);
    if step.Load? {
      TrackedLoads(s, step.uuid, step.timeout);
    } else if step.Act? {
      TrackedAct(s, step.choice);
    } else if ByCollector(step) {
      TrackedCollector(s, step);
    } else if ByOthers(step) {
      TrackedOther(s, step);
    } else if step.Abandon? || step.Retry? || step.GiveUp? || step.Save? || step.Crash? {
      TrackedWorker(s, step);
    } else {
      TrackedObserver(s, step);
    }
  }

  lemma {:induction false} FreshRun(states: seq<Sys>, steps: seq<Step>, i: nat)
    requires IsRun(states, steps, Orderly) && i < |states|
    ensures Fresh(states[i])
  {
    if i > 0 {
      FreshRun(states, steps, i - 1);
      var k := i - 1;
      assert Orderly(states[k], steps[k]) && Next(states[k], steps[k], states[k + 1]);
      FreshStep(states[k], steps[k]);
    }
  }

  /** Giving up and listing keep the tracking exactly if they are tidy. */
  lemma TidyIsExact(s: Sys, step: Step)
    requires Fresh(s) && Live(s.row) && !s.tainted && Enabled(s, step) && (step.GiveUp? || step.ListVolume?)
    ensures Fresh(Apply(s, step)) <==> Tidy(s, step)
  {
    if Tidy(s, step) {
      FreshStep(s, step);
    }
  }

  /** Whenever a live workspace has no operation under way, and since the last quiet observation
      none has timed out or died nor a container ended by itself, the stored container and
      volume conditions and those two parts of a listing still in flight equal the world. The
      lists of one observation are separate moments, and any number of ticks, aborted attempts,
      retries and crashes may fall between listing and writing. */
  lemma StaleObservationSafety(states: seq<Sys>, steps: seq<Step>, i: nat)
    requires IsRun(states, steps, Orderly) && i < |states|
    requires Live(states[i].row) && !OperationUnderWay(states[i]) && !states[i].tainted
    ensures InStep(states[i].row.value.conditions, states[i].obs, states[i].res)
  {
    FreshRun(states, steps, i);
  }

  /** `tainted` marks exactly the events that can break this: a run in which no operation times
      out, no tick dies and no container ends by itself is never tainted. */
  predicate Punctual(s: Sys, step: Step) {
    Orderly(s, step) && OnTime(s, step)
  }

  predicate OnTime(s: Sys, step: Step) {
    && !step.Crash? && !step.ContainerExit?
    && (step.Load? && s.row.Some? && s.row.value.operation != NoOperation ==>
          CheckCompletion(s.row.value.operation, s.row.value)
          || (s.row.value.opStartedAt.Some? && !IsTimeout(s.row.value.opStartedAt.value, s.now, step.timeout)))
  }

  lemma {:induction false} PunctualNeverTainted(states: seq<Sys>, steps: seq<Step>, i: nat)
    requires IsRun(states, steps, Punctual) && i < |states|
    ensures !states[i].tainted && Fresh(states[i])
  {
    if i > 0 {
      PunctualNeverTainted(states, steps, i - 1);
      var k := i - 1;
      assert Next(states[k], steps[k], states[k + 1]) && Punctual(states[k], steps[k]);
      FreshStep(states[k], steps[k]);
    }
  }

  /** While an operation other than ARCHIVING is under way, staleness has one direction only: a
      stored or listed flag is the present one or the one from before the operation. */
  lemma StaleOnlyAlongTheOperation(states: seq<Sys>, steps: seq<Step>, i: nat)
    requires IsRun(states, steps, Orderly) && i < |states| && Live(states[i].row) && !states[i].tainted
    requires CurrentOperation(states[i]) != Archiving
    ensures OrderedUnder(CurrentOperation(states[i]), states[i].row.value.conditions, states[i].obs, states[i].res)
    ensures CurrentOperation(states[i]) == Starting ==> states[i].res.volume.Some?
  {
    FreshRun(states, steps, i);
  }

  /** Under ARCHIVING: between ticks, conditions that read as its end are true, and no listing
      contradicts them; and whenever the volume is gone, this operation has archived it, so
      that a job entered again finds a whole archive and packs nothing. */
  lemma ArchivingEndsTruly(states: seq<Sys>, steps: seq<Step>, i: nat)
    requires IsRun(states, steps, Orderly) && i < |states| && Live(states[i].row) && !states[i].tainted
    requires CurrentOperation(states[i]) == Archiving
    ensures var s := states[i];
            && (s.wc.Resting? && StoredDone(s.row.value.conditions) ==> s.res.volume.None? && ListedVolume(s.obs) != Some(true))
            && (s.res.volume.None? ==> SlotWhere(s.res, CurrentOp(s), BothPresent))
  {
    FreshRun(states, steps, i);
  }
}
