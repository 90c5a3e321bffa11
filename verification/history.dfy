/** What the columns of a row say about the run that led to it. */
module History {
  import opened Domain
  import opened Planner
  import opened Actuator
  import opened Controller
  import opened System
  import opened Safety

  /** A row that is marked as deleted wants to be deleted, and the controller removes only a
      container that does not run. */
  predicate Lawful(s: Sys) {
    && Basic(s)
    && (s.row.Some? && s.row.value.deletedAt.Some? ==> s.row.value.desired == Desired.Deleted)
    && (s.wc.Busy? && s.wc.tick.pc.RemoveContainer? ==> !IsRunning(s.res))
  }

  lemma BasicStep(s: Sys, step: Step)
    requires Basic(s) && Enabled(s, step)
    ensures Basic(Apply(s, step))
  {
    hide Basic, Plan, LoadWith, DoAct, DoSave, DoObserveWrite;
    if step.Load? {
      PlanShape(s.row.value, step.timeout, s.now, step.uuid);
      BasicLoadWith(s, step.uuid, Plan(s.row.value, step.timeout, s.now, step.uuid));
    } else if step.Act? {
      BasicAct(s, step.choice);
    } else if step.Save? {
      BasicSave(s, step.stamp, step.uuid);
    } else {
      BasicOther(s, step);
    }
  }

  lemma LawfulStep(s: Sys, step: Step, s': Sys)
    requires Lawful(s) && Next(s, step, s')
    ensures Lawful(s')
  {
    hide Plan, Basic;
    BasicStep(s, step);
  }

  lemma {:induction false} LawfulRun(states: seq<Sys>, steps: seq<Step>, rule: (Sys, Step) -> bool, i: nat)
    requires IsRun(states, steps, rule) && i < |states|
    ensures Lawful(states[i])
  {
    hide Next;
    if i > 0 {
      LawfulRun(states, steps, rule, i - 1);
      LawfulStep(states[i - 1], steps[i - 1], states[i]);
    }
  }

  // ----- conditions -----

  ghost predicate ContainerSeen(states: seq<Sys>, steps: seq<Step>, from: nat, to: nat, section: Option<bool>)
    requires to <= |steps| < |states|
  {
    exists k :: from < k < to && steps[k].ListContainer? && section == states[k].res.container
  }

  ghost predicate VolumeSeen(states: seq<Sys>, steps: seq<Step>, from: nat, to: nat, section: Option<bool>)
    requires to <= |steps| < |states|
  {
    exists k :: from < k < to && steps[k].ListVolume?
                && section == if states[k].res.volume.Some? then Some(true) else None
  }

  ghost predicate ArchiveSeen(states: seq<Sys>, steps: seq<Step>, from: nat, to: nat, section: Option<bool>)
    requires to <= |steps| < |states|
  {
    exists k :: from < k < to && steps[k].ListArchive?
                && section == if states[k].res.tars.Keys != {} then Some(true) else None
  }

  /** What a listing in flight has, was there when it was listed, since the observation began. */
  ghost predicate ListedSince(states: seq<Sys>, steps: seq<Step>, i: nat, begin: nat, obs: Listing)
    requires i <= |steps| < |states|
  {
    && begin < i && steps[begin].ObserveBegin? && obs.Listing?
    && (obs.container.Some? ==> ContainerSeen(states, steps, begin, i, obs.container.value))
    && (obs.volume.Some? ==> VolumeSeen(states, steps, begin, i, obs.volume.value))
    && (obs.archive.Some? ==> ArchiveSeen(states, steps, begin, i, obs.archive.value))
  }

  /** These conditions were written at `end` of one observation, and each section is what its
      list call found between the begin and the end of it. */
  ghost predicate WrittenBy(states: seq<Sys>, steps: seq<Step>, begin: nat, end: nat, cond: Conditions)
    requires end < |steps| < |states|
  {
    && begin < end && steps[begin].ObserveBegin? && steps[end].ObserveWrite?
    && ContainerSeen(states, steps, begin, end, cond.container)
    && VolumeSeen(states, steps, begin, end, cond.volume)
    && ArchiveSeen(states, steps, begin, end, cond.archive)
  }

  ghost predicate Observed(states: seq<Sys>, steps: seq<Step>, i: nat, cond: Conditions)
    requires i <= |steps| < |states|
  {
    exists begin, end :: 0 <= begin < end < i && WrittenBy(states, steps, begin, end, cond)
  }

  ghost predicate ConditionsOk(states: seq<Sys>, steps: seq<Step>, i: nat)
    requires i <= |steps| < |states|
  {
    && (states[i].obs.Listing? ==> exists begin :: ListedSince(states, steps, i, begin, states[i].obs))
    && (states[i].row.Some? ==>
          states[i].row.value.conditions == NO_CONDITIONS || Observed(states, steps, i, states[i].row.value.conditions))
  }

  /** What a step does to conditions and listing. */
  lemma ConditionsStep(s: Sys, step: Step, s': Sys)
    requires Next(s, step, s')
    ensures && (s'.row.Some? && !step.ObserveWrite? ==>
                  s'.row.value.conditions == if s.row.Some? then s.row.value.conditions else NO_CONDITIONS)
            && (step.ObserveWrite? ==>
                  s.obs.Listing? && s'.obs.NoListing?
                  && s.obs.container.Some? && s.obs.volume.Some? && s.obs.archive.Some?
                  && s'.row.Some? && s'.row.value.conditions == Conditions(s.obs.container.value, s.obs.volume.value, s.obs.archive.value))
            && (s'.obs.Listing? ==>
                  || (step.ObserveBegin? && s'.obs.container.None? && s'.obs.volume.None? && s'.obs.archive.None?)
                  || (s.obs.Listing? && !step.ObserveBegin?
                      && s'.obs.container == (if step.ListContainer? then Some(ContainerSection(s.res)) else s.obs.container)
                      && s'.obs.volume == (if step.ListVolume? then Some(VolumeSection(s.res)) else s.obs.volume)
                      && s'.obs.archive == (if step.ListArchive? then Some(ArchiveSection(s.res)) else s.obs.archive)))
  {
    hide Plan, Effect;
  }

  lemma SeenLater(states: seq<Sys>, steps: seq<Step>, from: nat, i: nat, section: Option<bool>)
    requires i < |steps| < |states|
    ensures ContainerSeen(states, steps, from, i, section) ==> ContainerSeen(states, steps, from, i + 1, section)
    ensures VolumeSeen(states, steps, from, i, section) ==> VolumeSeen(states, steps, from, i + 1, section)
    ensures ArchiveSeen(states, steps, from, i, section) ==> ArchiveSeen(states, steps, from, i + 1, section)
  {
  }

  lemma ListedLater(states: seq<Sys>, steps: seq<Step>, i: nat, begin: nat)
    requires i < |steps| < |states| && Next(states[i], steps[i], states[i + 1])
    requires ListedSince(states, steps, i, begin, states[i].obs) && states[i + 1].obs.Listing? && !steps[i].ObserveBegin?
    ensures ListedSince(states, steps, i + 1, begin, states[i + 1].obs)
  {
    hide Apply, Enabled, ContainerSeen, VolumeSeen, ArchiveSeen;
    ConditionsStep(states[i], steps[i], states[i + 1]);
    var obs := states[i].obs;
    if obs.container.Some? { SeenLater(states, steps, begin, i, obs.container.value); }
    if obs.volume.Some? { SeenLater(states, steps, begin, i, obs.volume.value); }
    if obs.archive.Some? { SeenLater(states, steps, begin, i, obs.archive.value); }
    if steps[i].ListContainer? {
      assert ContainerSeen(states, steps, begin, i + 1, states[i + 1].obs.container.value) by { JustSeen(states, steps, begin, i); }
    }
    if steps[i].ListVolume? {
      assert VolumeSeen(states, steps, begin, i + 1, states[i + 1].obs.volume.value) by { JustSeen(states, steps, begin, i); }
    }
    if steps[i].ListArchive? {
      assert ArchiveSeen(states, steps, begin, i + 1, states[i + 1].obs.archive.value) by { JustSeen(states, steps, begin, i); }
    }
  }

  lemma JustSeen(states: seq<Sys>, steps: seq<Step>, begin: nat, i: nat)
    requires begin < i < |steps| < |states|
    ensures steps[i].ListContainer? ==> ContainerSeen(states, steps, begin, i + 1, ContainerSection(states[i].res))
    ensures steps[i].ListVolume? ==> VolumeSeen(states, steps, begin, i + 1, VolumeSection(states[i].res))
    ensures steps[i].ListArchive? ==> ArchiveSeen(states, steps, begin, i + 1, ArchiveSection(states[i].res))
  {
  }

  lemma ObservedLater(states: seq<Sys>, steps: seq<Step>, i: nat, cond: Conditions)
    requires i < |steps| < |states| && Observed(states, steps, i, cond)
    ensures Observed(states, steps, i + 1, cond)
  {
    var begin, end :| 0 <= begin < end < i && WrittenBy(states, steps, begin, end, cond);
    assert WrittenBy(states, steps, begin, end, cond);
  }

  lemma ConditionsNext(states: seq<Sys>, steps: seq<Step>, i: nat)
    requires i < |steps| < |states| && Next(states[i], steps[i], states[i + 1]) && ConditionsOk(states, steps, i)
    ensures ConditionsOk(states, steps, i + 1)
  {
    hide Apply, Enabled, ContainerSeen, VolumeSeen, ArchiveSeen;
    ConditionsStep(states[i], steps[i], states[i + 1]);
    var s, s' := states[i], states[i + 1];
    if s'.obs.Listing? {
      if steps[i].ObserveBegin? {
        assert ListedSince(states, steps, i + 1, i, s'.obs);
      } else {
        var begin :| ListedSince(states, steps, i, begin, s.obs);
        ListedLater(states, steps, i, begin);
      }
    }
    if s'.row.Some? {
      if steps[i].ObserveWrite? {
        var begin :| ListedSince(states, steps, i, begin, s.obs);
        assert WrittenBy(states, steps, begin, i, s'.row.value.conditions);
      } else if s.row.Some? && s.row.value.conditions != NO_CONDITIONS {
        ObservedLater(states, steps, i, s.row.value.conditions);
      }
    }
  }

  /** Stored conditions are made up of nothing: each section is what its list call found in the
      world, and all three belong to one observation. This holds in every run whatever. */
  lemma {:induction false} StoredWasListed(states: seq<Sys>, steps: seq<Step>, rule: (Sys, Step) -> bool, i: nat)
    requires IsRun(states, steps, rule) && i < |states|
    ensures ConditionsOk(states, steps, i)
  {
    hide Next;
    if i > 0 {
      var k := i - 1;
      StoredWasListed(states, steps, rule, k);
      assert Next(states[k], steps[k], states[k + 1]);
      ConditionsNext(states, steps, k);
    }
  }

  /** The world has been seen, before step i, in the state that ends the operation. */
  ghost predicate EndSeen(states: seq<Sys>, steps: seq<Step>, i: nat, operation: Operation)
    requires i <= |steps| < |states|
  {
    match operation
    case NoOperation => false
    case Provisioning => exists k :: 0 <= k < i && steps[k].ListVolume? && states[k].res.volume.Some?
    case Restoring => exists k :: 0 <= k < i && steps[k].ListVolume? && states[k].res.volume.Some?
    case Starting => exists k :: 0 <= k < i && steps[k].ListContainer? && states[k].res.container == Some(true)
    case Stopping => exists k :: 0 <= k < i && steps[k].ListContainer? && states[k].res.container != Some(true)
    case Archiving =>
      && (exists k :: 0 <= k < i && steps[k].ListVolume? && states[k].res.volume.None?)
      && (exists k :: 0 <= k < i && steps[k].ListArchive? && states[k].res.tars.Keys != {})
    case CreateEmptyArchive => exists k :: 0 <= k < i && steps[k].ListArchive? && states[k].res.tars.Keys != {}
    case Deleting =>
      && (exists k :: 0 <= k < i && steps[k].ListContainer? && states[k].res.container != Some(true))
      && (exists k :: 0 <= k < i && steps[k].ListVolume? && states[k].res.volume.None?)
  }

  lemma WrittenMeans(states: seq<Sys>, steps: seq<Step>, i: nat, row: Row)
    requires i <= |steps| < |states| && Observed(states, steps, i, row.conditions)
    requires row.operation != NoOperation
    requires row.operation in {Provisioning, Restoring} ==> row.conditions.volume == Some(true)
    requires row.operation == Starting ==> row.conditions.container == Some(true)
    requires row.operation in {Stopping, Operation.Deleting} ==> row.conditions.container != Some(true)
    requires row.operation in {Archiving, Operation.Deleting} ==> row.conditions.volume != Some(true)
    requires row.operation in {Archiving, CreateEmptyArchive} ==> row.conditions.archive == Some(true)
    ensures EndSeen(states, steps, i, row.operation)
  {
    var begin, end :| 0 <= begin < end < i && WrittenBy(states, steps, begin, end, row.conditions);
    var kc :| begin < kc < end && steps[kc].ListContainer? && row.conditions.container == states[kc].res.container;
    var kv :| begin < kv < end && steps[kv].ListVolume?
              && row.conditions.volume == if states[kv].res.volume.Some? then Some(true) else None;
    var ka :| begin < ka < end && steps[ka].ListArchive?
              && row.conditions.archive == if states[ka].res.tars.Keys != {} then Some(true) else None;
  }

  /** No tick completes an operation whose end no observation has seen; only the end of stopping
      and of deleting is also read off a row that has never been observed. */
  lemma CompletionWasSeen(states: seq<Sys>, steps: seq<Step>, rule: (Sys, Step) -> bool, i: nat)
    requires IsRun(states, steps, rule) && i < |steps| && steps[i].Load? && states[i].row.Some?
    requires Plan(states[i].row.value, steps[i].timeout, states[i].now, steps[i].uuid).complete
    ensures var row := states[i].row.value;
            EndSeen(states, steps, i, row.operation)
            || (row.conditions == NO_CONDITIONS && row.operation in {Stopping, Operation.Deleting})
  {
    hide Plan, Apply, Enabled, Observed, EndSeen;
    StoredWasListed(states, steps, rule, i);
    var row := states[i].row.value;
    CompletesExactly(row, steps[i].timeout, states[i].now, steps[i].uuid);
    if row.conditions != NO_CONDITIONS {
      WrittenMeans(states, steps, i, row);
    }
  }

  // ----- operation, start time and op id -----

  /** The operation of the row was begun by the save at step k, under an op id drawn then or at
      the load before, and nothing has touched it since. */
  ghost predicate BegunAt(states: seq<Sys>, steps: seq<Step>, k: nat, i: nat)
    requires i < |states| && states[i].row.Some?
  {
    && k < i && k < |steps| && steps[k].Save? && states[k].row.Some? && states[k].row.value.operation == NoOperation
    && states[i].row.value.opStartedAt == Some(states[k].now)
    && forall j :: k < j <= i ==> SameOperation(states[j].row, states[i].row.value)
  }

  predicate SameOperation(row: Option<Row>, later: Row) {
    row.Some? && row.value.operation == later.operation && row.value.opId == later.opId
    && row.value.opStartedAt == later.opStartedAt
  }

  predicate NeverSaved(row: Row) {
    row.phase == Phase.Pending && row.operation == NoOperation && row.errorReason.None? && row.errorCount == 0
  }

  /** This step begins an operation in the row. */
  predicate Begins(s: Sys, s': Sys) {
    s.row.Some? && s.row.value.operation == NoOperation && s'.row.Some? && s'.row.value.operation != NoOperation
  }

  /** What a save does to the controller's columns. */
  predicate ColumnsSaved(s: Sys, s': Sys) {
    && s.row.Some? && s'.row.Some? && s.wc.Busy?
    && s'.row.value.phase == s.wc.tick.action.phase && s'.row.value.operation == s.wc.tick.action.operation
    && s'.row.value.errorReason == s.wc.tick.action.errorReason
    && (if Begins(s, s') then s'.row.value.opStartedAt == Some(s.now) && s'.row.value.opId.Some?
        else s'.row.value.opId == s.row.value.opId && (s'.row.value.operation != NoOperation ==> SameOperation(s.row, s'.row.value)))
  }

  /** And every other step. */
  predicate ColumnsKept(s: Sys, s': Sys) {
    if s.row.None? then s'.row.Some? ==> NeverSaved(s'.row.value)
    else
      && s'.row.Some? && SameOperation(s.row, s'.row.value) && s'.row.value.phase == s.row.value.phase
      && s'.row.value.errorReason == s.row.value.errorReason && s'.row.value.errorCount == s.row.value.errorCount
  }

  lemma SaveStep(s: Sys, step: Step, s': Sys)
    requires Basic(s) && Next(s, step, s') && step.Save?
    ensures ColumnsSaved(s, s')
  {
    hide DoLoad, DoAct, DoObserveWrite, PcFits;
  }

  lemma OtherStep(s: Sys, step: Step, s': Sys)
    requires Next(s, step, s') && !step.Save?
    ensures ColumnsKept(s, s')
  {
    hide DoSave, Plan;
  }

  lemma ColumnsStep(states: seq<Sys>, steps: seq<Step>, rule: (Sys, Step) -> bool, m: nat)
    requires IsRun(states, steps, rule) && m < |steps|
    ensures if steps[m].Save? then ColumnsSaved(states[m], states[m + 1]) else ColumnsKept(states[m], states[m + 1])
  {
    hide Next, ColumnsSaved, ColumnsKept;
    assert Next(states[m], steps[m], states[m + 1]);
    if steps[m].Save? {
      LawfulRun(states, steps, rule, m);
      SaveStep(states[m], steps[m], states[m + 1]);
    } else {
      OtherStep(states[m], steps[m], states[m + 1]);
    }
  }

  /** While an operation is under way, its start time is when the save that began it was made. */
  lemma {:induction false} StartIsTheSave(states: seq<Sys>, steps: seq<Step>, rule: (Sys, Step) -> bool, i: nat) returns (k: nat)
    requires IsRun(states, steps, rule) && i < |states|
    requires states[i].row.Some? && states[i].row.value.operation != NoOperation
    ensures BegunAt(states, steps, k, i)
  {
    hide Next;
    assert i > 0;
    var m := i - 1;
    ColumnsStep(states, steps, rule, m);
    if steps[m].Save? && Begins(states[m], states[i]) {
      k := m;
    } else {
      assert states[m].row.Some? && SameOperation(states[m].row, states[i].row.value);
      k := StartIsTheSave(states, steps, rule, m);
    }
  }

  /** A tick that does not find the end of an operation gives it up exactly if the save that began
      it is longer ago than the timeout. */
  lemma TimedOutIff(states: seq<Sys>, steps: seq<Step>, rule: (Sys, Step) -> bool, i: nat) returns (k: nat)
    requires IsRun(states, steps, rule) && i < |steps| && steps[i].Load? && states[i].row.Some?
    requires states[i].row.value.operation != NoOperation
    requires !Plan(states[i].row.value, steps[i].timeout, states[i].now, steps[i].uuid).complete
    ensures BegunAt(states, steps, k, i)
    ensures Plan(states[i].row.value, steps[i].timeout, states[i].now, steps[i].uuid).errorReason == Some(Timeout) <==>
            states[i].now - states[k].now > steps[i].timeout
    ensures Plan(states[i].row.value, steps[i].timeout, states[i].now, steps[i].uuid).operation == NoOperation <==>
            states[i].now - states[k].now > steps[i].timeout
  {
    hide Plan, Apply, Enabled;
    k := StartIsTheSave(states, steps, rule, i);
    PlanExactly(states[i].row.value, steps[i].timeout, states[i].now, steps[i].uuid);
  }

  /** The op id outlives its operation, completed or not, until the next one begins: this is what
      keeps an archive whose key was never saved from the collector. */
  lemma {:induction false} OpIdOutlives(states: seq<Sys>, steps: seq<Step>, rule: (Sys, Step) -> bool, i: nat, j: nat)
    requires IsRun(states, steps, rule) && i <= j < |states| && states[i].row.Some?
    requires forall k :: i <= k < j ==> !Begins(states[k], states[k + 1])
    ensures states[j].row.Some? && states[j].row.value.opId == states[i].row.value.opId
  {
    hide Next, Begins;
    if i < j {
      var m := j - 1;
      OpIdOutlives(states, steps, rule, i, m);
      ColumnsStep(states, steps, rule, m);
      assert !Begins(states[m], states[j]);
    }
  }

  // ----- phase, error reason and error count -----

  /** The columns that nobody but the controller writes, as its last save left them. */
  ghost predicate SavedLast(states: seq<Sys>, steps: seq<Step>, k: nat, i: nat)
    requires i < |states| && states[i].row.Some?
  {
    && k < i && k < |steps| && steps[k].Save? && states[k].wc.Busy? && (forall j :: k < j < i ==> j < |steps| && !steps[j].Save?)
    && var action := states[k].wc.tick.action;
       states[i].row.value.phase == action.phase && states[i].row.value.operation == action.operation
       && states[i].row.value.errorReason == action.errorReason
  }

  /** Phase, operation and error reason are always those of the last save, or of a row that was
      never saved: the API, the observer and the TTL runner leave them alone. */
  lemma {:induction false} OnlySavesWrite(states: seq<Sys>, steps: seq<Step>, rule: (Sys, Step) -> bool, i: nat)
    requires IsRun(states, steps, rule) && i < |states| && states[i].row.Some?
    ensures (exists k :: SavedLast(states, steps, k, i))
            || (NeverSaved(states[i].row.value) && forall j :: 0 <= j < i ==> !steps[j].Save?)
  {
    hide Next, NeverSaved;
    if i > 0 {
      var m := i - 1;
      ColumnsStep(states, steps, rule, m);
      if steps[m].Save? {
        assert SavedLast(states, steps, m, i);
      } else if states[m].row.None? {
        NoRowNoSave(states, steps, rule, m);
      } else {
        OnlySavesWrite(states, steps, rule, m);
        if k :| SavedLast(states, steps, k, m) {
          assert SavedLast(states, steps, k, i);
        } else {
          StillNeverSaved(states[m], states[i]);
        }
      }
    }
  }

  lemma StillNeverSaved(s: Sys, s': Sys)
    requires s.row.Some? && NeverSaved(s.row.value) && s'.row.Some? && ColumnsKept(s, s')
    ensures NeverSaved(s'.row.value)
  {
  }

  lemma {:induction false} NoRowNoSave(states: seq<Sys>, steps: seq<Step>, rule: (Sys, Step) -> bool, i: nat)
    requires IsRun(states, steps, rule) && i < |states| && states[i].row.None?
    ensures forall j :: 0 <= j < i ==> !steps[j].Save?
  {
    hide Next;
    if i > 0 {
      ColumnsStep(states, steps, rule, i - 1);
      NoRowNoSave(states, steps, rule, i - 1);
    }
  }

  /** Saves with an error since the last save that completed an operation. */
  function ErrorsSince(states: seq<Sys>, steps: seq<Step>, i: nat): nat
    requires i <= |steps| < |states|
  {
    if i == 0 then 0
    else
      var before, s := ErrorsSince(states, steps, i - 1), states[i - 1];
      if steps[i - 1].Save? && s.wc.Busy? then
        if s.wc.tick.action.errorReason.Some? then before + 1
        else if s.wc.tick.action.complete then 0
        else before
      else before
  }

  /** The count in the row is the count in the snapshot of any tick on it. */
  predicate CountOk(s: Sys, errors: nat) {
    (if s.row.Some? then s.row.value.errorCount == errors else errors == 0)
    && (s.row.Some? && s.wc.Busy? ==> s.wc.tick.snap.errorCount == errors)
  }

  lemma CountStep(s: Sys, step: Step, s': Sys, errors: nat)
    requires Basic(s) && CountOk(s, errors) && Next(s, step, s')
    ensures CountOk(s', if step.Save? && s.wc.tick.action.errorReason.Some? then errors + 1
                        else if step.Save? && s.wc.tick.action.complete then 0 else errors)
  {
    hide Plan, Effect;
    if step.Act? {
      EffectShape(s.res, s.wc.tick, step.choice);
    }
  }

  /** The error count counts the saves with an error since the last completed operation. */
  lemma {:induction false} ErrorCountIs(states: seq<Sys>, steps: seq<Step>, rule: (Sys, Step) -> bool, i: nat)
    requires IsRun(states, steps, rule) && i < |states|
    ensures CountOk(states[i], ErrorsSince(states, steps, i))
  {
    hide Basic, Apply;
    if i > 0 {
      var m := i - 1;
      LawfulRun(states, steps, rule, m);
      ErrorCountIs(states, steps, rule, m);
      assert Next(states[m], steps[m], states[m + 1]);
      CountStep(states[m], steps[m], states[m + 1], ErrorsSince(states, steps, m));
    }
  }

  // ----- deletion -----

  /** A row that is marked as deleted wants to be deleted, for good. */
  lemma DeletedIsDesired(states: seq<Sys>, steps: seq<Step>, rule: (Sys, Step) -> bool, i: nat)
    requires IsRun(states, steps, rule) && i < |states| && states[i].row.Some? && states[i].row.value.deletedAt.Some?
    ensures states[i].row.value.desired == Desired.Deleted
  {
    LawfulRun(states, steps, rule, i);
  }

  /** The controller never removes a container that runs. */
  lemma StoppedBeforeRemoved(states: seq<Sys>, steps: seq<Step>, rule: (Sys, Step) -> bool, i: nat)
    requires IsRun(states, steps, rule) && i < |steps| && steps[i].Act?
    requires states[i].res.container.Some? && states[i + 1].res.container.None?
    ensures states[i].res.container == Some(false)
  {
    hide Basic;
    LawfulRun(states, steps, rule, i);
    assert Next(states[i], steps[i], states[i + 1]);
    assert states[i].wc.tick.pc.RemoveContainer?;
    assert !states[i].res.container.value;
  }
}
