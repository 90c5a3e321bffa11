/** Runs in which no operation times out and no tick dies keep a home whatever is observed when. */
module PunctualRuns {
  import opened Domain
  import opened Archive
  import opened Planner
  import opened Actuator
  import opened Controller
  import opened System
  import opened Safety
  import opened Staleness
  import opened Contents

  /** What is left to ask for when nothing times out: nothing of observations, mounts or users. */
  predicate PunctualCareful(s: Sys, step: Step) {
    && Punctual(s, step) && Sound(s, step) && Tidy(s, step)
    && (step.SetDesired? ==> step.desired != Desired.Deleted)
    && TarKeeps(s, step) && RestoreKeeps(s, step)
  }

  predicate ListedArchive(obs: Listing) {
    obs.Listing? && obs.archive.Some? ==> IsTrue(obs.archive.value)
  }

  /** A listing that has missed the archive either belongs to the archiving still under way, or
      to a workspace with nothing to lose, or sees the volume. */
  predicate NothingMissed(s: Sys) {
    Live(s.row) ==>
      if CurrentOperation(s) == Archiving then
        && (!StoredVolume(s) ==> SlotWhere(s.res, CurrentOp(s), BothPresent) && ListedArchive(s.obs))
        && (ListedNoVolume(s.obs) ==> SlotWhere(s.res, CurrentOp(s), BothPresent))
      else
        s.home != EMPTY_HOME && (ListedNoVolume(s.obs) || s.res.volume.None?) ==> ListedArchive(s.obs)
  }

  lemma UntaintedIsCareful(s: Sys, step: Step)
    requires Kept(s) && !s.tainted && NothingMissed(s) && Enabled(s, step) && PunctualCareful(s, step)
    ensures Careful(s, step)
  {
  }

  lemma MissedByWorker(s: Sys, step: Step)
    requires Kept(s) && !s.tainted && NothingMissed(s) && Enabled(s, step) && PunctualCareful(s, step)
    requires step.Abandon? || step.Retry? || step.GiveUp? || step.Save?
    ensures NothingMissed(Apply(s, step))
  {
    hide DoLoad, DoAct, DoObserveWrite;
  }

  lemma MissedByLoadWith(s: Sys, uuid: OpId, action: PlanAction)
    requires Kept(s) && !s.tainted && NothingMissed(s) && s.wc.Resting? && Live(s.row)
    requires PlannedFrom(s.row.value, action, uuid) && PlannedFor(s.row.value, action)
    requires s.row.value.operation == Archiving && action.operation == NoOperation ==> CheckCompletion(Archiving, s.row.value)
    ensures NothingMissed(LoadWith(s, uuid, action))
  {
  }

  lemma MissedByLoad(s: Sys, uuid: OpId, timeout: int)
    requires Kept(s) && !s.tainted && NothingMissed(s) && Enabled(s, Load(uuid, timeout)) && PunctualCareful(s, Load(uuid, timeout))
    ensures NothingMissed(Apply(s, Load(uuid, timeout)))
  {
    if Live(s.row) {
      PunctualEnds(s, uuid, timeout);
      hide Plan, Kept, NothingMissed;
      PlanShape(s.row.value, timeout, s.now, uuid);
      PlanForConditions(s.row.value, timeout, s.now, uuid);
      MissedByLoadWith(s, uuid, Plan(s.row.value, timeout, s.now, uuid));
    }
  }

  lemma PunctualEnds(s: Sys, uuid: OpId, timeout: int)
    requires Live(s.row) && Punctual(s, Load(uuid, timeout))
    ensures s.row.value.operation == Archiving && Plan(s.row.value, timeout, s.now, uuid).operation == NoOperation ==>
              CheckCompletion(Archiving, s.row.value)
  {
  }

  lemma MissedByAct(s: Sys, choice: Choice)
    requires Kept(s) && !s.tainted && NothingMissed(s) && Enabled(s, Act(choice)) && PunctualCareful(s, Act(choice))
    ensures NothingMissed(Apply(s, Act(choice)))
  {
    hide Effect;
    EffectShape(s.res, s.wc.tick, choice);
    if Live(s.row) {
      HeldStep(s.res, s.wc.tick, choice);
      VolumeGoesInArchiving(s.res, s.wc.tick, choice);
    }
  }

  lemma VolumeGoesInArchiving(res: Resources, tick: Tick, choice: Choice)
    requires PcFits(tick.action.operation, tick.pc)
    ensures var (res', _) := Effect(res, tick, choice);
            res'.volume.None? && res.volume.Some? ==> tick.action.operation in {Archiving, Operation.Deleting}
  {
  }

  lemma MissedByObserver(s: Sys, step: Step)
    requires Kept(s) && !s.tainted && NothingMissed(s) && Enabled(s, step) && PunctualCareful(s, step)
    requires step.ObserveBegin? || step.ListContainer? || step.ListVolume? || step.ObserveWrite? || step.ObserveSkip?
    ensures NothingMissed(Apply(s, step))
  {
    hide DoLoad, DoAct, DoSave;
  }

  lemma MissedByListArchive(s: Sys)
    requires Kept(s) && !s.tainted && NothingMissed(s) && Enabled(s, ListArchive)
    ensures NothingMissed(Apply(s, ListArchive))
  {
    hide DoLoad, DoAct, DoSave, DoObserveWrite;
    if Live(s.row) {
      if KeyToBe(s).Some? && SlotOf(s.res, KeyToBe(s).value).tar.Some? {
        assert KeyToBe(s).value in s.res.tars.Keys;
      }
      if CurrentOp(s).Some? && SlotOf(s.res, CurrentOp(s).value).tar.Some? {
        assert CurrentOp(s).value in s.res.tars.Keys;
      }
    }
  }

  lemma MissedByOthers(s: Sys, step: Step)
    requires Kept(s) && !s.tainted && NothingMissed(s) && Enabled(s, step) && PunctualCareful(s, step) && ByOthers(step)
    ensures NothingMissed(Apply(s, step))
  {
    hide DoLoad, DoAct, DoSave, DoObserveWrite;
  }

  lemma MissedByDrop(s: Sys, res: Resources, gc: Gc)
    requires NothingMissed(s)
    requires Live(s.row) ==>
               && res.volume == s.res.volume
               && (CurrentOp(s).Some? ==> SlotOf(res, CurrentOp(s).value) == SlotOf(s.res, CurrentOp(s).value))
    ensures NothingMissed(s.(res := res, gc := gc))
  {
  }

  lemma MissedByCollector(s: Sys, step: Step)
    requires Kept(s) && NothingMissed(s) && Enabled(s, step) && ByCollector(step)
    ensures NothingMissed(Apply(s, step))
  {
    hide NothingMissed, KeptButFresh, Tracked, DoLoad, DoAct, DoSave, DoObserveWrite;
    MissedByDrop(s, Apply(s, step).res, Apply(s, step).gc);
  }

  lemma MissedStep(s: Sys, step: Step)
    requires Kept(s) && !s.tainted && NothingMissed(s) && Enabled(s, step) && PunctualCareful(s, step)
    ensures NothingMissed(Apply(s, step))
  {
    hide Kept, NothingMissed, Enabled, Apply, PunctualCareful;
    if step.Load? {
      MissedByLoad(s, step.uuid, step.timeout);
    } else if step.Act? {
      MissedByAct(s, step.choice);
    } else if step.Abandon? || step.Retry? || step.GiveUp? || step.Save? {
      MissedByWorker(s, step);
    } else if step.ListArchive? {
      MissedByListArchive(s);
    } else if ByOthers(step) {
      MissedByOthers(s, step);
    } else if ByCollector(step) {
      MissedByCollector(s, step);
    } else if step.Crash? {
      IsPunctual(s, step);
    } else {
      MissedByObserver(s, step);
    }
  }

  /** A run in which nothing times out is careful with no more said of observations, mounts and
      users: however its three lists fall, no observation makes it lose a home. */
  lemma {:induction false} PunctualRunsAreCareful(states: seq<Sys>, steps: seq<Step>, i: nat)
    requires IsRun(states, steps, PunctualCareful) && i < |states|
    ensures Kept(states[i]) && !states[i].tainted && NothingMissed(states[i])
    ensures forall k :: 0 <= k < i ==> Careful(states[k], steps[k])
  {
    hide Kept, NothingMissed, Enabled, Apply, Careful, PunctualCareful;
    if i > 0 {
      var k := i - 1;
      PunctualRunsAreCareful(states, steps, k);
      assert PunctualCareful(states[k], steps[k]) && Next(states[k], steps[k], states[k + 1]);
      UntaintedIsCareful(states[k], steps[k]);
      KeptStep(states[k], steps[k]);
      MissedStep(states[k], steps[k]);
      IsPunctual(states[k], steps[k]);
    } else {
      InitKept();
    }
  }

  lemma IsPunctual(s: Sys, step: Step)
    requires PunctualCareful(s, step)
    ensures Punctual(s, step) && !step.Crash?
    ensures !s.tainted && Enabled(s, step) ==> !Apply(s, step).tainted
  {
  }

  lemma InitKept()
    ensures Kept(INIT) && NothingMissed(INIT)
  {
  }
}
