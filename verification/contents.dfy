/** The user's home survives every cycle between running, standby and archived. */
module Contents {
  import opened Domain
  import opened Archive
  import opened Planner
  import opened Actuator
  import opened Controller
  import opened System
  import opened Safety
  import opened Staleness

  predicate StoredVolume(s: Sys)
    requires s.row.Some?
  {
    IsTrue(s.row.value.conditions.volume)
  }

  predicate ListedNoVolume(obs: Listing) {
    ListedVolume(obs) == Some(false)
  }

  predicate VolumeIsHome(s: Sys) {
    s.res.volume.Some? ==> s.res.volume.value == s.home
  }

  // ----- what can lose a home, and when it does not -----

  /** A user writes while the home is being archived, and before it is packed. */
  predicate UserKeeps(s: Sys, step: Step) {
    step.UserWrite? && Live(s.row) && CurrentOperation(s) == Archiving && CurrentOp(s).Some?
    && SlotOf(s.res, CurrentOp(s).value).tar.Some?
    ==> SlotOf(s.res, CurrentOp(s).value).tar.value.home == step.home
  }

  /** A container that mounts a missing volume brings an empty one: harmless if there never was
      anything in it, or to an archive job that will find its archive whole. A container of the
      workspace needs its volume known to be there. */
  predicate MountKeeps(s: Sys, step: Step) {
    step.Act? && Live(s.row) && s.wc.Busy? && s.res.volume.None? ==>
      && (s.wc.tick.pc.Mount? ==> s.home == EMPTY_HOME || BothPresent(SlotOf(s.res, s.wc.tick.opId)))
      && (s.wc.tick.pc.CreateContainer? && s.res.container.None? ==>
            s.home == EMPTY_HOME && StoredVolume(s) && !ListedNoVolume(s.obs))
  }

  /** What is packed is the home, not what a failing tar has got of it, nor the empty volume of
      a job entered again whose HEAD has failed. */
  predicate TarKeeps(s: Sys, step: Step) {
    step.Act? && Live(s.row) && s.wc.Busy? && s.wc.tick.pc.PutTar? && s.wc.tick.action.operation == Archiving
    ==> (if step.choice.partial.Some? then step.choice.partial == Some(s.home)
         else BothPresent(SlotOf(s.res, s.wc.tick.opId)) ==> VolumeIsHome(s))
  }

  /** A first restore, with no marker stored yet, completes on the volume alone. */
  predicate RestoreKeeps(s: Sys, step: Step) {
    Live(s.row) && s.wc.Busy? && s.wc.tick.action.operation == Restoring && s.wc.tick.snap.restoreMarker.None? ==>
      && (step.Abandon? && (s.wc.tick.pc.Fetch? || s.wc.tick.pc.Sync?) ==> VolumeIsHome(s))
      && (step.Act? && s.wc.tick.pc.Sync? && step.choice.partial.Some? ==> step.choice.partial.value == s.home)
  }

  predicate TimesOut(row: Row, now: int, timeout: int) {
    row.operation != NoOperation && !CheckCompletion(row.operation, row)
    && row.opStartedAt.Some? && IsTimeout(row.opStartedAt.value, now, timeout)
  }

  /** ARCHIVING has left the volume as it was or gone, and what is stored and listed of it reads
      like a moment from before or after, but not like a workspace without anything. */
  predicate ArchivingLeft(s: Sys)
    requires s.row.Some?
  {
    && VolumeIsHome(s)
    && Ordered(Falls, StoredVolume(s), ListedVolume(s.obs), s.res.volume.Some?)
    && (s.home != EMPTY_HOME && !StoredVolume(s) ==> IsTrue(s.row.value.conditions.archive))
  }

  /** An operation that times out leaves what it has done so far. */
  predicate TimeoutKeeps(s: Sys, step: Step) {
    step.Load? && Live(s.row) && TimesOut(s.row.value, s.now, step.timeout) ==>
      && (s.row.value.operation == Restoring ==> VolumeIsHome(s))
      && (s.row.value.operation == Archiving ==> ArchivingLeft(s))
  }

  /** An observation that has missed the archive and not the removal of the volume reads as a
      workspace without anything. While ARCHIVING is under way that does no harm yet. */
  predicate WriteKeeps(s: Sys, step: Step) {
    step.ObserveWrite? && Live(s.row) && CurrentOperation(s) != Archiving
    && s.home != EMPTY_HOME && ListedNoVolume(s.obs) && s.obs.archive.Some?
    ==> IsTrue(s.obs.archive.value)
  }

  /** The hypotheses on a run. Ticks are saved and deletion is asked for through the API only;
      each other clause forbids a step exactly where it does harm (`CarefulIsExact`). */
  predicate Careful(s: Sys, step: Step) {
    && Sound(s, step) && Tidy(s, step)
    && !step.Crash?
    && (step.SetDesired? ==> step.desired != Desired.Deleted)
    && UserKeeps(s, step) && MountKeeps(s, step) && TarKeeps(s, step)
    && RestoreKeeps(s, step) && TimeoutKeeps(s, step) && WriteKeeps(s, step)
  }

  /** The archive key as it will read once the tick is saved. */
  function KeyToBe(s: Sys): Option<OpId>
    requires s.row.Some?
  {
    if s.wc.Busy? && s.wc.tick.action.archiveKey.Some? then s.wc.tick.action.archiveKey else s.row.value.archiveKey
  }

  /** The archive key names a whole archive of the user's home, or one whose marker is the next
      thing to be written, or there never was anything to lose. */
  predicate Recoverable(s: Sys)
    requires s.row.Some?
  {
    var key := KeyToBe(s);
    if key.None? then s.home == EMPTY_HOME
    else
      var slot := SlotOf(s.res, key.value);
      (Committed(slot) || Sealing(s.wc, key.value)) && slot.tar.Some? && slot.tar.value.home == s.home
  }

  /** The home is on the volume; or, with no volume, one being restored, or one that a finished
      archive job has brought back empty, in the archive. */
  predicate HomeKept(s: Sys) {
    (s.row.None? ==> s.home == EMPTY_HOME)
    && (Live(s.row) ==>
      && (CurrentOperation(s) != Restoring && !VolumeIsHome(s) ==>
            CurrentOperation(s) == Archiving && SlotWhere(s.res, CurrentOp(s), BothPresent))
      && (s.res.volume.None? || CurrentOperation(s) == Restoring || !VolumeIsHome(s) ==> Recoverable(s)))
  }

  predicate VolumeDirOk(operation: Operation, dir: Direction) {
    match operation
    case Provisioning => dir == Up
    case Restoring => dir == Up
    case Archiving => dir == Down
    case Deleting => false
    case _ => true
  }

  /** The volume flag lags in one direction, that of the last operation on the volume, even
      after that operation has timed out; under ARCHIVING only its end can be relied on. */
  predicate VolumeLag(s: Sys) {
    Live(s.row) ==>
      && (if CurrentOperation(s) != Archiving then
            Ordered(if s.volumeDir == Up then Rises else Falls, StoredVolume(s), ListedVolume(s.obs), s.res.volume.Some?)
          else
            && (StoredDone(s.row.value.conditions) ==>
                  (s.res.volume.Some? ==> OnItsWay(s.wc)) && ListedVolume(s.obs) != Some(true))
            && (ListedDone(s.obs) ==> s.res.volume.Some? ==> OnItsWay(s.wc)))
      && VolumeDirOk(s.row.value.operation, s.volumeDir) && VolumeDirOk(CurrentOperation(s), s.volumeDir)
      && s.row.value.desired != Desired.Deleted
      && (CurrentOperation(s) == Starting && s.volumeDir == Up ==> StoredVolume(s))
      && (s.res.container.Some? ==> StoredVolume(s) && !ListedNoVolume(s.obs))
      && (CurrentOperation(s) in {Provisioning, CreateEmptyArchive} ==> s.home == EMPTY_HOME && s.res.container.None?)
      && (CurrentOperation(s) == Restoring ==> s.res.container.None?)
  }

  /** But while it is archived, no stored state reads "no volume and no archive" once there is
      something to lose; and with a volume nobody has noticed yet, the archive holds the home. */
  predicate NothingForgotten(s: Sys) {
    Live(s.row) ==>
      && (s.home != EMPTY_HOME && !StoredVolume(s) && CurrentOperation(s) != Archiving ==>
            IsTrue(s.row.value.conditions.archive))
      && ((!StoredVolume(s) || ListedNoVolume(s.obs)) && s.res.volume.Some? ==> Recoverable(s))
  }

  /** A tar of the operation under way packs the home; its key is not the one last restored. */
  predicate ArchivingOk(s: Sys) {
    Live(s.row) ==>
      && (CurrentOperation(s) == Archiving && CurrentOp(s).Some? && SlotOf(s.res, CurrentOp(s).value).tar.Some? ==>
            SlotOf(s.res, CurrentOp(s).value).tar.value.home == s.home)
      && (s.row.value.operation in {Archiving, CreateEmptyArchive} ==> s.row.value.opId != s.row.value.restoreMarker)
      && (CurrentOperation(s) in {Archiving, CreateEmptyArchive} ==> CurrentOp(s) != s.row.value.restoreMarker)
      && (s.res.volume.None? && s.row.value.restoreMarker.Some? ==> s.row.value.restoreMarker != KeyToBe(s))
  }

  /** A restore marker that equals the archive key stands for a finished restore, and
      without any marker the volume is never left half restored. */
  predicate RestoringOk(s: Sys) {
    Live(s.row) && CurrentOperation(s) == Restoring ==>
      var row := s.row.value;
      && (row.archiveKey.Some? && row.restoreMarker == row.archiveKey ==> s.res.volume == Some(s.home))
      && (row.archiveKey.None? && s.res.volume.Some? ==> s.res.volume.value == s.home)
      && (row.restoreMarker.None? && s.res.volume.Some? && !(s.wc.Busy? && (s.wc.tick.pc.Fetch? || s.wc.tick.pc.Sync?)) ==>
            s.res.volume.value == s.home)
      && (s.wc.Busy? ==>
            && (s.wc.tick.pc.CreateVolume? ==> row.archiveKey.Some?)
            && (s.wc.tick.pc.Fetch? || s.wc.tick.pc.Sync? ==> s.res.volume.Some? && row.archiveKey.Some?)
            && (s.wc.tick.pc.Sync? ==> s.wc.tick.pc.target == s.home)
            && (s.wc.tick.pc.KeepMarker? || s.wc.tick.action.restoreMarker.Some? ==> s.res.volume == Some(s.home)))
  }

  predicate KeptButFresh(s: Sys) {
    HomeKept(s) && VolumeLag(s) && NothingForgotten(s) && ArchivingOk(s) && RestoringOk(s)
  }

  predicate Kept(s: Sys) {
    Safe(s) && Tracked(s) && KeptButFresh(s)
  }

  // ----- loading -----

  /** What the plan promises about conditions and desired state, per operation begun. */
  predicate PlannedFor(row: Row, action: PlanAction) {
    var cond := FromConditions(row.conditions);
    row.operation == NoOperation ==>
      && (action.operation in {Provisioning, CreateEmptyArchive} ==> !cond.volumeReady && !cond.archiveReady)
      && (action.operation == Restoring ==> !cond.volumeReady)
      && (action.operation in {Starting, Archiving} ==> cond.volumeReady)
      && (action.operation == Operation.Deleting ==> row.desired == Desired.Deleted)
  }

  lemma PlanForConditions(row: Row, timeout: int, now: int, uuid: OpId)
    requires row.deletedAt.None?
    ensures PlannedFor(row, Plan(row, timeout, now, uuid))
  {
  }

  /** An operation ends by completing, or with a timeout that leaves things in order. */
  predicate EndsWell(s: Sys, action: PlanAction)
    requires s.row.Some?
  {
    action.operation == NoOperation && s.row.value.operation in {Restoring, Archiving} ==>
      || CheckCompletion(s.row.value.operation, s.row.value)
      || (s.row.value.operation == Restoring && VolumeIsHome(s))
      || (s.row.value.operation == Archiving && ArchivingLeft(s))
  }

  lemma PlanEnds(s: Sys, uuid: OpId, timeout: int)
    requires Live(s.row) && TimeoutKeeps(s, Load(uuid, timeout))
    ensures EndsWell(s, Plan(s.row.value, timeout, s.now, uuid))
  {
  }

  lemma KeptLoad(s: Sys, uuid: OpId, action: PlanAction)
    requires Kept(s) && s.wc.Resting? && Live(s.row) && NewOpId(s, uuid)
    requires PlannedFrom(s.row.value, action, uuid) && PlannedFor(s.row.value, action) && EndsWell(s, action)
    ensures KeptButFresh(LoadWith(s, uuid, action))
  {
  }

  // ----- acting -----

  /** Every effect keeps what the tick was loaded from. */
  predicate SameTick(tick: Tick, tick': Tick) {
    tick'.snap == tick.snap && tick'.opId == tick.opId && tick'.action.operation == tick.action.operation
  }

  predicate SameSlots(res: Resources, res': Resources) {
    res'.tars == res.tars && res'.metas == res.metas
  }

  /** Effects of starting and stopping: the archives stay as they are, and so does the volume,
      unless a container is created on a missing one. */
  predicate ContainerEffect(res: Resources, tick: Tick, res': Resources, tick': Tick) {
    && SameTick(tick, tick') && SameSlots(res, res') && tick'.action == tick.action
    && (res'.volume == res.volume
        || (tick.pc.CreateContainer? && res.container.None? && res.volume.None? && res'.volume == Some(EMPTY_HOME)))
    && (res'.container.Some? && res.container.None? ==> tick.pc.CreateContainer? && tick.action.operation == Starting)
  }

  lemma ContainerEffects(res: Resources, tick: Tick, choice: Choice)
    requires tick.action.operation in {Starting, Stopping} && PcFits(tick.action.operation, tick.pc)
    ensures var (res', tick') := Effect(res, tick, choice); ContainerEffect(res, tick, res', tick')
  {
  }

  lemma KeptActContainer(s: Sys, choice: Choice, res': Resources, tick': Tick)
    requires Basic(s) && KeptButFresh(s) && Live(s.row) && s.wc.Busy? && MountKeeps(s, Act(choice))
    requires s.wc.tick.action.operation in {Starting, Stopping}
    requires ContainerEffect(s.res, s.wc.tick, res', tick')
    ensures KeptButFresh(s.(res := res', wc := Busy(tick')))
  {
  }

  ghost predicate SlotsKeptBut(op: OpId, res: Resources, res': Resources) {
    forall other :: other != op ==> SlotOf(res', other) == SlotOf(res, other)
  }

  /** Effects of archiving: at most the slot under the tick's own key changes; its tar packs the
      home; the volume comes back empty for the job and goes last, with the key in hand. */
  ghost predicate ArchivingStep(home: Home, res: Resources, tick: Tick, res': Resources, tick': Tick) {
    var slot, slot' := SlotOf(res, tick.opId), SlotOf(res', tick.opId);
    && SameTick(tick, tick') && SlotsKeptBut(tick.opId, res, res')
    && (BothPresent(slot) ==> BothPresent(slot')) && (!tick'.pc.PutMeta? ==> MetaVouches(slot'))
    && (slot'.tar == slot.tar || (slot'.tar.Some? && slot'.tar.value.home == home))
    && (res'.container.Some? ==> res.container.Some?)
    && tick'.action.restoreMarker == tick.action.restoreMarker
    && (tick'.action.archiveKey == tick.action.archiveKey
        || (tick'.action.archiveKey == Some(tick.opId) && Committed(slot)))
    && (res'.volume == res.volume
        || (tick.pc.Mount? && res.volume.None? && res'.volume == Some(EMPTY_HOME))
        || (res'.volume.None? && tick.action.archiveKey == Some(tick.opId) && Committed(slot) && slot' == slot
            && !tick'.pc.PutMeta?))
    && (tick'.pc.Finished? && !tick.pc.Finished? ==> res'.volume.None?)
  }

  lemma ArchivingSteps(home: Home, res: Resources, tick: Tick, choice: Choice)
    requires tick.action.operation == Archiving && PcFits(Archiving, tick.pc) && Held(res, tick)
    requires !tick.pc.PutMeta? ==> MetaVouches(SlotOf(res, tick.opId))
    requires tick.action.archiveKey.Some? ==> tick.action.archiveKey == Some(tick.opId)
    requires tick.pc.PutTar? && res.volume.Some? && choice.partial.None? ==> res.volume.value == home
    requires tick.pc.PutTar? && choice.partial.Some? ==> choice.partial.value == home
    ensures var (res', tick') := Effect(res, tick, choice); ArchivingStep(home, res, tick, res', tick')
  {
  }

  lemma KeptActArchiving(s: Sys, choice: Choice, res': Resources, tick': Tick)
    requires Basic(s) && Holds(s) && KeptButFresh(s) && Live(s.row) && s.wc.Busy? && s.wc.tick.action.operation == Archiving
    requires !s.wc.tick.pc.Finished? && MountKeeps(s, Act(choice))
    requires ArchivingStep(s.home, s.res, s.wc.tick, res', tick')
    ensures KeptButFresh(s.(res := res', wc := Busy(tick')))
  {
  }

  /** Effects of provisioning and of creating an empty archive. */
  ghost predicate CreatingEffect(res: Resources, tick: Tick, res': Resources, tick': Tick) {
    var slot, slot' := SlotOf(res, tick.opId), SlotOf(res', tick.opId);
    && SameTick(tick, tick') && SlotsKeptBut(tick.opId, res, res')
    && (BothPresent(slot) ==> BothPresent(slot')) && (!tick'.pc.PutMeta? ==> MetaVouches(slot'))
    && (tick.action.operation == Provisioning ==> slot' == slot && !tick'.pc.PutMeta?)
    && (tick.action.operation == CreateEmptyArchive ==> NothingButEmpty(slot') && (tick'.pc.PutMeta? ==> slot'.tar.Some?))
    && res'.container == res.container
    && tick'.action.restoreMarker == tick.action.restoreMarker
    && (tick'.action.archiveKey == tick.action.archiveKey
        || (tick.action.operation == CreateEmptyArchive
            && tick'.action.archiveKey == Some(tick.opId) && Committed(slot) && slot.tar == Some(EMPTY_BLOB)))
    && (res'.volume == res.volume
        || (tick.action.operation == Provisioning && res.volume.None? && res'.volume == Some(EMPTY_HOME)))
  }

  lemma CreatingEffects(res: Resources, tick: Tick, choice: Choice)
    requires tick.action.operation in {Provisioning, CreateEmptyArchive} && PcFits(tick.action.operation, tick.pc)
    requires Held(res, tick) && (!tick.pc.PutMeta? ==> MetaVouches(SlotOf(res, tick.opId)))
    requires tick.action.operation == CreateEmptyArchive ==> NothingButEmpty(SlotOf(res, tick.opId))
    ensures var (res', tick') := Effect(res, tick, choice); CreatingEffect(res, tick, res', tick')
  {
  }

  lemma KeptActCreating(s: Sys, res': Resources, tick': Tick)
    requires Basic(s) && Holds(s) && KeptButFresh(s) && Live(s.row) && s.wc.Busy?
    requires s.wc.tick.action.operation in {Provisioning, CreateEmptyArchive}
    requires CreatingEffect(s.res, s.wc.tick, res', tick')
    ensures KeptButFresh(s.(res := res', wc := Busy(tick')))
  {
  }

  /** Effects of restoring: containers and archives stay as they are. */
  predicate RestoringEffect(home: Home, res: Resources, tick: Tick, res': Resources, tick': Tick) {
    SameTick(tick, tick') && SameSlots(res, res') && res'.container == res.container
    && tick'.action.archiveKey == tick.action.archiveKey
    && tick'.action.restoreMarker ==
         (if tick.pc.KeepMarker? then tick.snap.archiveKey else tick.action.restoreMarker)
    && match tick.pc
       case Enter => res' == res && tick'.pc == (if tick.snap.archiveKey.Some? then CreateVolume else Finished)
       case CreateVolume =>
         tick'.pc == Fetch && res'.volume == (if res.volume.None? then Some(EMPTY_HOME) else res.volume)
       case Fetch =>
         res'.volume == (if res.volume.None? then Some(EMPTY_HOME) else res.volume)
         && (if tick.snap.archiveKey.Some? && Committed(SlotOf(res, tick.snap.archiveKey.value))
             then tick'.pc == Sync(SlotOf(res, tick.snap.archiveKey.value).tar.value.home)
             else tick'.pc == Failed)
       case Sync(target) =>
         if tick'.pc.KeepMarker? then res'.volume == Some(target)
         else tick'.pc.Failed?
              && (res.volume.Some? ==>
                    res'.volume.Some? && PartialSync(res.volume.value, target, res'.volume.value)
                    && (tick.snap.restoreMarker.None? ==> res'.volume == Some(home)))
       case KeepMarker => res' == res && tick'.pc == Finished
       case _ => res' == res && tick' == tick
  }

  lemma RestoringEffects(home: Home, res: Resources, tick: Tick, choice: Choice)
    requires tick.action.operation == Restoring && PcFits(Restoring, tick.pc) && ValidChoice(res, tick, choice)
    requires tick.pc.Sync? && choice.partial.Some? && tick.snap.restoreMarker.None? ==> choice.partial.value == home
    ensures var (res', tick') := Effect(res, tick, choice); RestoringEffect(home, res, tick, res', tick')
  {
  }

  lemma KeptActRestoring(s: Sys, res': Resources, tick': Tick)
    requires Basic(s) && KeptButFresh(s) && Live(s.row) && s.wc.Busy? && s.wc.tick.action.operation == Restoring
    requires RestoringEffect(s.home, s.res, s.wc.tick, res', tick')
    ensures KeptButFresh(s.(res := res', wc := Busy(tick')))
  {
  }

  lemma KeptSave(s: Sys, stamp: int, uuid: OpId)
    requires Kept(s) && Enabled(s, Save(stamp, uuid)) && Live(s.row)
    ensures KeptButFresh(Apply(s, Save(stamp, uuid)))
  {
  }

  // ----- everything else -----

  /** An attempt is abandoned or re-entered. */
  lemma KeptMove(s: Sys, pc: Pc)
    requires Basic(s) && Holds(s) && KeptButFresh(s) && s.wc.Busy? && !s.wc.tick.pc.Finished? && (pc.Enter? || pc.Failed?)
    requires SealKeeps(s, Abandon)
    requires RestoreKeeps(s, Abandon) || !(s.wc.tick.pc.Fetch? || s.wc.tick.pc.Sync?)
    ensures KeptButFresh(s.(wc := Busy(s.wc.tick.(pc := pc))))
  {
  }

  lemma KeptGiveUp(s: Sys)
    requires Basic(s) && KeptButFresh(s) && Enabled(s, GiveUp) && Tidy(s, GiveUp)
    ensures KeptButFresh(Apply(s, GiveUp))
  {
    hide DoLoad, DoSave, DoAct, DoObserveWrite;
  }

  lemma KeptUserWrite(s: Sys, home: Home)
    requires Kept(s) && Enabled(s, UserWrite(home)) && UserKeeps(s, UserWrite(home))
    ensures KeptButFresh(Apply(s, UserWrite(home)))
  {
    hide Tracked, Archives, Uncollected, DoLoad, DoSave, DoAct, DoObserveWrite;
  }

  lemma KeptCreate(s: Sys)
    requires Kept(s) && Enabled(s, ApiCreate)
    ensures KeptButFresh(Apply(s, ApiCreate))
  {
    hide Tracked, Archives, Uncollected, DoLoad, DoSave, DoAct, DoObserveWrite;
  }

  lemma KeptRequest(s: Sys, step: Step)
    requires KeptButFresh(s) && Enabled(s, step) && (step.ApiDelete? || step.SetDesired?)
    requires step.SetDesired? ==> step.desired != Desired.Deleted
    ensures KeptButFresh(Apply(s, step))
  {
    hide DoLoad, DoSave, DoAct, DoObserveWrite;
  }

  lemma KeptContainerExit(s: Sys)
    requires KeptButFresh(s) && Enabled(s, ContainerExit)
    ensures KeptButFresh(Apply(s, ContainerExit))
  {
    hide DoLoad, DoSave, DoAct, DoObserveWrite;
  }

  /** Where the home is does not depend on what is stored and listed. */
  lemma SeenApart(s: Sys, s': Sys)
    requires s' == s.(row := s'.row, obs := s'.obs, tainted := s'.tainted)
    requires s.row.Some? <==> s'.row.Some?
    requires s.row.Some? ==> s'.row.value == s.row.value.(conditions := s'.row.value.conditions)
    requires HomeKept(s) && ArchivingOk(s) && RestoringOk(s)
    ensures HomeKept(s') && ArchivingOk(s') && RestoringOk(s')
  {
  }

  /** A listing begins, is dropped, or learns about the container. */
  lemma KeptListing(s: Sys, obs: Listing)
    requires KeptButFresh(s)
    requires obs.NoListing? || (obs.volume.None? && obs.archive.None?)
             || (s.obs.Listing? && obs.volume == s.obs.volume && obs.archive == s.obs.archive)
    ensures KeptButFresh(s.(obs := obs))
  {
    SeenApart(s, s.(obs := obs));
    hide HomeKept, ArchivingOk, RestoringOk;
  }

  lemma KeptListVolume(s: Sys)
    requires Basic(s) && KeptButFresh(s) && Enabled(s, ListVolume) && Tidy(s, ListVolume)
    ensures KeptButFresh(Apply(s, ListVolume))
  {
    hide DoLoad, DoSave, DoAct, DoObserveWrite;
    SeenApart(s, Apply(s, ListVolume));
    hide HomeKept, ArchivingOk, RestoringOk, Basic, Recoverable;
  }

  lemma KeptListArchive(s: Sys)
    requires KeptButFresh(s) && Enabled(s, ListArchive)
    ensures KeptButFresh(Apply(s, ListArchive))
  {
    hide DoLoad, DoSave, DoAct, DoObserveWrite;
    SeenApart(s, Apply(s, ListArchive));
    hide HomeKept, ArchivingOk, RestoringOk, Recoverable;
  }

  lemma KeptObserveWrite(s: Sys)
    requires KeptButFresh(s) && Enabled(s, ObserveWrite) && WriteKeeps(s, ObserveWrite)
    ensures KeptButFresh(Apply(s, ObserveWrite))
  {
    hide DoLoad, DoSave, DoAct;
    SeenApart(s, Apply(s, ObserveWrite));
    hide HomeKept, ArchivingOk, RestoringOk;
  }

  /** The collector drops objects that neither the archive key nor the current operation names. */
  lemma KeptDrop(s: Sys, res: Resources)
    requires KeptButFresh(s) && s.row.Some?
    requires Live(s.row) ==>
               && res.container == s.res.container && res.volume == s.res.volume
               && (KeyToBe(s).Some? ==> SlotOf(res, KeyToBe(s).value) == SlotOf(s.res, KeyToBe(s).value))
               && (CurrentOp(s).Some? ==> SlotOf(res, CurrentOp(s).value) == SlotOf(s.res, CurrentOp(s).value))
    ensures KeptButFresh(s.(res := res))
  {
  }

  /** The collector's books and the clocks do not matter. */
  lemma KeptAside(s: Sys, gc: Gc, now: int, began: Option<int>)
    requires KeptButFresh(s)
    ensures KeptButFresh(s.(gc := gc, now := now, began := began))
  {
    hide SlotOf, Committed, Ordered, FromConditions;
  }

  lemma KeptActs(s: Sys, choice: Choice)
    requires Kept(s) && Enabled(s, Act(choice)) && Careful(s, Act(choice)) && Live(s.row)
    ensures KeptButFresh(Apply(s, Act(choice)))
  {
    hide Effect, NothingForgotten, ArchivingOk, RestoringOk;
    var tick := s.wc.tick;
    var (res', tick') := Effect(s.res, tick, choice);
    match tick.action.operation
    case Archiving =>
      ArchivingSteps(s.home, s.res, tick, choice);
      KeptActArchiving(s, choice, res', tick');
    case Restoring =>
      RestoringEffects(s.home, s.res, tick, choice);
      KeptActRestoring(s, res', tick');
    case Provisioning =>
      CreatingEffects(s.res, tick, choice);
      KeptActCreating(s, res', tick');
    case CreateEmptyArchive =>
      CreatingEffects(s.res, tick, choice);
      KeptActCreating(s, res', tick');
    case Starting =>
      ContainerEffects(s.res, tick, choice);
      KeptActContainer(s, choice, res', tick');
    case Stopping =>
      ContainerEffects(s.res, tick, choice);
      KeptActContainer(s, choice, res', tick');
    case _ =>
  }

  lemma KeptLoads(s: Sys, uuid: OpId, timeout: int)
    requires Kept(s) && Enabled(s, Load(uuid, timeout)) && Careful(s, Load(uuid, timeout)) && Live(s.row)
    ensures KeptButFresh(Apply(s, Load(uuid, timeout)))
  {
    hide Plan, KeptButFresh, Fresh;
    PlanShape(s.row.value, timeout, s.now, uuid);
    PlanForConditions(s.row.value, timeout, s.now, uuid);
    PlanEnds(s, uuid, timeout);
    KeptLoad(s, uuid, Plan(s.row.value, timeout, s.now, uuid));
  }

  lemma KeptWorker(s: Sys, step: Step)
    requires Kept(s) && Enabled(s, step) && Careful(s, step) && Live(s.row)
    requires step.Load? || step.Act? || step.Abandon? || step.Retry? || step.GiveUp? || step.Save?
    ensures KeptButFresh(Apply(s, step))
  {
    hide KeptButFresh, Fresh;
    if step.Load? {
      KeptLoads(s, step.uuid, step.timeout);
    } else if step.Act? {
      KeptActs(s, step.choice);
    } else if step.Save? {
      KeptSave(s, step.stamp, step.uuid);
    } else {
      KeptAttempt(s, step);
    }
  }

  lemma KeptAttempt(s: Sys, step: Step)
    requires Kept(s) && Enabled(s, step) && Careful(s, step) && (step.Abandon? || step.Retry? || step.GiveUp?)
    ensures KeptButFresh(Apply(s, step))
  {
    hide KeptButFresh;
    match step
    case Abandon => KeptMove(s, Failed);
    case Retry => KeptMove(s, Enter);
    case GiveUp => KeptGiveUp(s);
  }

  lemma KeptObserver(s: Sys, step: Step)
    requires Kept(s) && Enabled(s, step) && Careful(s, step)
    requires step.ObserveBegin? || step.ListContainer? || step.ListVolume? || step.ListArchive?
             || step.ObserveWrite? || step.ObserveSkip?
    ensures KeptButFresh(Apply(s, step))
  {
    match step
    case ObserveBegin => KeptListing(s, Apply(s, step).obs);
    case ListContainer => KeptListing(s, Apply(s, step).obs);
    case ListVolume => KeptListVolume(s);
    case ListArchive => KeptListArchive(s);
    case ObserveWrite => KeptObserveWrite(s);
    case ObserveSkip => KeptListing(s, NoListing);
  }

  lemma KeptCollector(s: Sys, step: Step)
    requires Kept(s) && Enabled(s, step) && s.row.Some?
    requires step.GcDropTar? || step.GcDropMeta? || step.GcDropContainer? || step.GcDropVolume?
    ensures KeptButFresh(Apply(s, step))
  {
    hide KeptButFresh, DoLoad, DoSave, DoAct, DoObserveWrite;
    KeptDrop(s, Apply(s, step).res);
  }

  lemma KeptBooks(s: Sys, step: Step)
    requires Kept(s) && Enabled(s, step)
    requires step.GcListKeys? || step.GcReadKeys? || step.GcListContainer? || step.GcListVolume? || step.GcReadIds?
             || step.Elapse? || step.Statement? || step.Commit?
    ensures KeptButFresh(Apply(s, step))
  {
    hide KeptButFresh;
    var s' := Apply(s, step);
    KeptAside(s, s'.gc, s'.now, s'.began);
  }

  lemma FreshCareful(s: Sys, step: Step)
    requires Safe(s) && Fresh(s) && Enabled(s, step) && Careful(s, step)
    ensures Safe(Apply(s, step)) && Fresh(Apply(s, step))
  {
    hide Safe, Fresh, Enabled, Apply, GcTimely, SealKeeps, Tidy;
    SafeStep(s, step);
    FreshStep(s, step);
  }

  /** Before there is a row, and once it is marked as deleted, nothing is promised. */
  lemma NothingYet(s: Sys, step: Step)
    requires Kept(s) && s.row.None? && Enabled(s, step) && !step.ApiCreate?
    ensures KeptButFresh(Apply(s, step))
  {
  }

  lemma DeadIsKept(s: Sys, step: Step)
    requires s.row.Some? && !Live(s.row) && Enabled(s, step)
    requires step.Load? || step.Act? || step.Abandon? || step.Retry? || step.GiveUp? || step.Save?
    ensures KeptButFresh(Apply(s, step))
  {
  }

  lemma KeptStep(s: Sys, step: Step)
    requires Kept(s) && Enabled(s, step) && Careful(s, step)
    ensures Kept(Apply(s, step))
  {
    hide Secure, Archives, Tracked, KeptButFresh, Apply, Enabled, Sound, Tidy, UserKeeps, MountKeeps, TarKeeps, RestoreKeeps, TimeoutKeeps, WriteKeeps;
    FreshCareful(s, step);
    if step.UserWrite? {
      KeptUserWrite(s, step.home);
    } else if step.ContainerExit? {
      KeptContainerExit(s);
    } else if step.ApiCreate? {
      KeptCreate(s);
    } else if step.ApiDelete? || step.SetDesired? {
      KeptRequest(s, step);
    } else if s.row.None? {
      NothingYet(s, step);
    } else if step.GcDropTar? || step.GcDropMeta? || step.GcDropContainer? || step.GcDropVolume? {
      KeptCollector(s, step);
    } else if step.Load? || step.Act? || step.Abandon? || step.Retry? || step.GiveUp? || step.Save? {
      if Live(s.row) {
        KeptWorker(s, step);
      } else {
        DeadIsKept(s, step);
      }
    } else if ByCollector(step) || step.Elapse? || step.Statement? || step.Commit? {
      KeptBooks(s, step);
    } else {
      KeptObserver(s, step);
    }
  }

  lemma {:induction false} KeptRun(states: seq<Sys>, steps: seq<Step>, i: nat)
    requires IsRun(states, steps, Careful) && i < |states|
    ensures Kept(states[i])
  {
    if i > 0 {
      KeptRun(states, steps, i - 1);
      var k := i - 1;
      assert Next(states[k], steps[k], states[k + 1]) && Careful(states[k], steps[k]);
      KeptStep(states[k], steps[k]);
    }
  }

  // ----- every clause is needed -----

  lemma MountNeedsCare(s: Sys, choice: Choice)
    requires Kept(s) && Live(s.row) && Enabled(s, Act(choice)) && Kept(Apply(s, Act(choice)))
    requires s.wc.tick.pc.Mount? || s.wc.tick.pc.CreateContainer?
    ensures MountKeeps(s, Act(choice))
  {
    var s' := Apply(s, Act(choice));
    assert HomeKept(s') && VolumeLag(s');
    hide Tracked, Recoverable, NothingForgotten, ArchivingOk, RestoringOk;
  }

  lemma TarNeedsCare(s: Sys, choice: Choice)
    requires Kept(s) && Live(s.row) && Enabled(s, Act(choice)) && Kept(Apply(s, Act(choice)))
    requires s.wc.tick.pc.PutTar? && s.wc.tick.action.operation == Archiving
    ensures TarKeeps(s, Act(choice))
  {
    assert ArchivingOk(Apply(s, Act(choice)));
    hide Tracked, Recoverable, NothingForgotten, HomeKept, RestoringOk, VolumeLag;
  }

  lemma SyncNeedsCare(s: Sys, choice: Choice)
    requires Kept(s) && Live(s.row) && Enabled(s, Act(choice)) && Kept(Apply(s, Act(choice)))
    requires s.wc.tick.pc.Sync?
    ensures RestoreKeeps(s, Act(choice))
  {
    hide Tracked, Archives, Uncollected, Recoverable, NothingForgotten, HomeKept, ArchivingOk, VolumeLag, DoLoad, DoSave;
    assert RestoringOk(Apply(s, Act(choice)));
  }

  lemma ActNeedsCare(s: Sys, choice: Choice)
    requires Kept(s) && Live(s.row) && Enabled(s, Act(choice)) && Kept(Apply(s, Act(choice)))
    ensures MountKeeps(s, Act(choice)) && TarKeeps(s, Act(choice)) && RestoreKeeps(s, Act(choice))
  {
    hide Kept, Apply;
    if s.wc.tick.pc.Mount? || s.wc.tick.pc.CreateContainer? {
      MountNeedsCare(s, choice);
    } else if s.wc.tick.pc.PutTar? && s.wc.tick.action.operation == Archiving {
      TarNeedsCare(s, choice);
    } else if s.wc.tick.pc.Sync? {
      SyncNeedsCare(s, choice);
    }
  }

  lemma LoadNeedsCare(s: Sys, uuid: OpId, timeout: int)
    requires Kept(s) && Live(s.row) && Enabled(s, Load(uuid, timeout)) && Kept(Apply(s, Load(uuid, timeout)))
    ensures TimeoutKeeps(s, Load(uuid, timeout))
  {
    if TimesOut(s.row.value, s.now, timeout) {
      var action := Plan(s.row.value, timeout, s.now, uuid);
      assert action == Idle(Phase.Error, Some(Timeout), false);
      var s' := LoadWith(s, uuid, action);
      assert HomeKept(s') && VolumeLag(s') && NothingForgotten(s');
    }
  }

  lemma UserNeedsCare(s: Sys, home: Home)
    requires Kept(s) && Live(s.row) && Enabled(s, UserWrite(home)) && Kept(Apply(s, UserWrite(home)))
    ensures UserKeeps(s, UserWrite(home))
  {
    assert ArchivingOk(Apply(s, UserWrite(home)));
  }

  lemma AbandonNeedsCare(s: Sys)
    requires Kept(s) && Live(s.row) && Enabled(s, Abandon) && Kept(Apply(s, Abandon))
    ensures RestoreKeeps(s, Abandon)
  {
    assert RestoringOk(Apply(s, Abandon));
  }

  lemma WriteNeedsCare(s: Sys)
    requires Kept(s) && Live(s.row) && Enabled(s, ObserveWrite) && Kept(Apply(s, ObserveWrite))
    ensures WriteKeeps(s, ObserveWrite)
  {
    assert NothingForgotten(Apply(s, ObserveWrite));
  }

  lemma TidyNeedsCare(s: Sys, step: Step)
    requires Kept(s) && Live(s.row) && Enabled(s, step) && (step.GiveUp? || step.ListVolume?) && Kept(Apply(s, step))
    ensures Tidy(s, step)
  {
    assert VolumeLag(Apply(s, step));
  }

  /** From a state in which a home is kept, a step of a live workspace keeps it exactly if it
      is careful; only dying ticks and deletions that bypass the API are ruled out outright. */
  lemma CarefulIsExact(s: Sys, step: Step)
    requires Kept(s) && Live(s.row) && Enabled(s, step) && !step.Crash? && step != SetDesired(Desired.Deleted)
    ensures Kept(Apply(s, step)) <==> Careful(s, step)
  {
    hide Fresh, KeptButFresh, Apply, Enabled;
    if Careful(s, step) {
      KeptStep(s, step);
    } else if Kept(Apply(s, step)) {
      StepNeedsCare(s, step);
    }
  }

  lemma StepNeedsCare(s: Sys, step: Step)
    requires Kept(s) && Live(s.row) && Enabled(s, step) && !step.Crash? && step != SetDesired(Desired.Deleted)
    requires Kept(Apply(s, step))
    ensures Careful(s, step)
  {
    hide KeptButFresh, Apply, Enabled, Secure, Archives, Tracked, UserKeeps, MountKeeps, TarKeeps, RestoreKeeps, TimeoutKeeps, WriteKeeps, Tidy;
    if step.Act? {
      ActNeedsCare(s, step.choice);
    } else if step.Load? {
      LoadNeedsCare(s, step.uuid, step.timeout);
    } else if step.UserWrite? {
      UserNeedsCare(s, step.home);
    } else if step.Abandon? {
      AbandonNeedsCare(s);
      SealKeepsIsExact(s, step);
    } else if step.ObserveWrite? {
      WriteNeedsCare(s);
    } else if step.GiveUp? || step.ListVolume? {
      TidyNeedsCare(s, step);
    } else if step.GcReadKeys? {
      GcTimelyIsExact(s);
    }
    OthersAreCareful(s, step);
  }

  /** Each clause speaks of one kind of step. */
  lemma OthersAreCareful(s: Sys, step: Step)
    ensures !step.UserWrite? ==> UserKeeps(s, step)
    ensures !step.Act? ==> MountKeeps(s, step) && TarKeeps(s, step)
    ensures !step.Abandon? && !step.Crash? ==> SealKeeps(s, step)
    ensures !step.Act? && !step.Abandon? ==> RestoreKeeps(s, step)
    ensures !step.Load? ==> TimeoutKeeps(s, step)
    ensures !step.ObserveWrite? ==> WriteKeeps(s, step)
    ensures !step.GiveUp? && !step.ListVolume? ==> Tidy(s, step)
    ensures !step.GcReadKeys? ==> GcTimely(s, step)
  {
  }

  // ----- what it means for the user -----

  /** In every state of a careful run a live workspace still has the user's home: on the volume
      or whole under the archive key. Outside restoring and archiving, a volume that is there
      holds it. */
  lemma HomeSurvives(states: seq<Sys>, steps: seq<Step>, i: nat)
    requires IsRun(states, steps, Careful) && i < |states| && Live(states[i].row)
    ensures states[i].res.volume == Some(states[i].home) || Recoverable(states[i])
    ensures states[i].res.volume.Some? && CurrentOperation(states[i]) !in {Restoring, Archiving} ==>
              states[i].res.volume == Some(states[i].home)
  {
    KeptRun(states, steps, i);
  }

  lemma {:induction false} OnlyTheUserChangesHome(states: seq<Sys>, steps: seq<Step>, i: nat, j: nat)
    requires IsRun(states, steps, Careful) && i <= j < |states|
    requires forall k :: i <= k < j ==> !steps[k].UserWrite?
    ensures states[j].home == states[i].home
  {
    if i < j {
      OnlyTheUserChangesHome(states, steps, i, j - 1);
      var k := j - 1;
      assert Next(states[k], steps[k], states[k + 1]);
    }
  }

  /** Any number of trips through the archive bring back the same bytes. */
  lemma CyclesPreserveContents(states: seq<Sys>, steps: seq<Step>, i: nat, j: nat)
    requires IsRun(states, steps, Careful) && i <= j < |states|
    requires Live(states[i].row) && Live(states[j].row)
    requires forall k :: i <= k < j ==> !steps[k].UserWrite?
    requires states[i].res.volume.Some? && CurrentOperation(states[i]) !in {Restoring, Archiving}
    requires states[j].res.volume.Some? && CurrentOperation(states[j]) !in {Restoring, Archiving}
    ensures states[j].res.volume == states[i].res.volume
  {
    HomeSurvives(states, steps, i);
    HomeSurvives(states, steps, j);
    OnlyTheUserChangesHome(states, steps, i, j);
  }

  /** The hypothesis on writing while archiving only bites after a timeout: otherwise no
      container runs then. */
  lemma NobodyWritesWhileArchiving(states: seq<Sys>, steps: seq<Step>, i: nat, home: Home)
    requires IsRun(states, steps, Orderly) && i < |states| && Live(states[i].row) && !states[i].tainted
    requires CurrentOperation(states[i]) == Archiving
    ensures !Enabled(states[i], UserWrite(home))
  {
    FreshRun(states, steps, i);
  }
}
