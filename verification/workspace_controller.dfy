/** WorkspaceController as a stateful object over the shared world: execute, persist, reconcile. */
module WorkspaceControllerModel {
  import opened Domain
  import opened Archive
  import opened Planner
  import opened Actuator
  import opened Controller
  import opened Naming
  import opened WorldModel

  /** A provider call or a whole attempt, cut off once its budget of effects is spent:
      what it leaves behind, what is left of the budget, and whether it returned. */
  datatype Outcome = Outcome(res: Resources, left: nat, ok: bool)

  function Stopped(res: Resources): Resources {
    if res.container.Some? then res.(container := Some(false)) else res
  }

  function DeletingContainer(res: Resources, cut: nat): Outcome {
    if cut == 0 then Outcome(res, 0, false)
    else if cut == 1 then Outcome(Stopped(res), 0, false)
    else Outcome(res.(container := None), cut - 2, true)
  }

  function DeletingVolume(res: Resources, cut: nat): Outcome {
    if cut == 0 then Outcome(res, 0, false)
    else if res.container.Some? then Outcome(res, cut - 1, false)
    else Outcome(res.(volume := None), cut - 1, true)
  }

  function Creating(res: Resources, cut: nat): Outcome {
    if cut == 0 then Outcome(res, 0, false) else Outcome(WithVolume(res), cut - 1, true)
  }

  function Uploading(res: Resources, op: OpId, blob: Blob, cut: nat): Outcome {
    var tars := res.tars[op := blob];
    if cut == 0 then Outcome(res, 0, false)
    else if cut == 1 then Outcome(res.(tars := tars), 0, false)
    else Outcome(res.(tars := tars, metas := res.metas[op := Sha256(blob)]), cut - 2, true)
  }

  /** `archive`: the job's container brings the volume, then the job skips what is complete, or
      packs what it finds or as much of it as tar gets to. */
  function ArchivingJob(res: Resources, op: OpId, choice: Choice, cut: nat): Outcome {
    var mounted := WithVolume(res);
    if cut == 0 then Outcome(res, 0, false)
    else if cut == 1 then Outcome(mounted, 0, false)
    else if BothPresent(SlotOf(mounted, op)) && !choice.headFails then Outcome(mounted, cut - 2, true)
    else Uploading(mounted, op, Packed(mounted, choice), cut - 2)
  }

  function Packed(res: Resources, choice: Choice): Blob
    requires res.volume.Some?
  {
    Blob(if choice.partial.Some? then choice.partial.value else res.volume.value, choice.nonce)
  }

  /** `archive` returns exactly if the job it starts exits with 0, and does to the two objects what
      archive.sh does; the volume is there then, and nothing else has changed. */
  lemma ArchivingJobIsArchiveSh(res: Resources, op: OpId, choice: Choice, cut: nat)
    ensures var home := if res.volume.Some? then res.volume.value else EMPTY_HOME;
            var job := Job(Blob(if choice.partial.Some? then choice.partial.value else home, choice.nonce),
                           choice.headFails, if cut < 2 then 0 else cut - 2);
            var out := ArchivingJob(res, op, choice, cut);
            && (cut < 2 ==> !out.ok && SlotOf(out.res, op) == SlotOf(res, op))
            && (cut >= 2 ==> (SlotOf(out.res, op), out.ok) == JobRun(SlotOf(res, op), job))
            && (cut > 0 ==> out.res.volume == Some(home)) && (cut == 0 ==> out.res == res)
            && out.res.container == res.container
            && forall other :: other != op ==> SlotOf(out.res, other) == SlotOf(res, other)
  {
  }

  /** `restore`: make sure of the volume, verify the archive, sync it. */
  function RestoringJob(res: Resources, key: OpId, partial: Option<Home>, cut: nat): Outcome {
    var made := Creating(res, cut);
    if !made.ok || made.left == 0 then made.(ok := false)
    else if !Committed(SlotOf(made.res, key)) then made.(left := made.left - 1, ok := false)
    else if made.left == 1 then made.(left := 0, ok := false)
    else if partial.Some? then Outcome(made.res.(volume := partial), made.left - 2, false)
    else Outcome(made.res.(volume := Some(SlotOf(res, key).tar.value.home)), made.left - 2, true)
  }

  /** `start`: reuse the container there is, else create one, and its volume if need be. */
  function StartingContainer(res: Resources, cut: nat): Outcome {
    if res.container.Some? then
      if cut == 0 then Outcome(res, 0, false) else Outcome(res.(container := Some(true)), cut - 1, true)
    else if cut == 0 then Outcome(res, 0, false)
    else if cut == 1 then Outcome(WithVolume(res).(container := Some(false)), 0, false)
    else Outcome(WithVolume(res).(container := Some(true)), cut - 2, true)
  }

  /** What one run of `_execute` leaves: the resources, the action it was given (with the key
      or the marker filled in), and whether it returned without raising. */
  datatype Done = Done(res: Resources, action: PlanAction, ok: bool)

  /** `_execute`, the budget counting the dispatch and each assignment to the action too. */
  function Executing(res: Resources, ws: Row, action: PlanAction, op: OpId, choice: Choice, cut: nat): Done {
    if cut == 0 then Done(res, action, false)
    else
      match action.operation
      case Provisioning => Plainly(Creating(res, cut - 1), action)
      case Restoring =>
        if ws.archiveKey.None? then Done(res, action, true)
        else Noting(RestoringJob(res, ws.archiveKey.value, choice.partial, cut - 1), action, action.(restoreMarker := ws.archiveKey))
      case Starting => Plainly(StartingContainer(res, cut - 1), action)
      case Stopping => Plainly(DeletingContainer(res, cut - 1), action)
      case Archiving => Removing(ArchivingJob(res, op, choice, cut - 1), action, op)
      case CreateEmptyArchive =>
        Noting(Uploading(res, op, Blob(EMPTY_HOME, 0), cut - 1), action, action.(archiveKey := Some(op)))
      case Deleting => Plainly(RemovingBoth(res, cut - 1), action)
      case NoOperation => Done(res, action, true)
  }

  function Plainly(out: Outcome, action: PlanAction): Done {
    Done(out.res, action, out.ok)
  }

  function Noting(out: Outcome, action: PlanAction, noted: PlanAction): Done {
    if !out.ok || out.left == 0 then Done(out.res, action, false) else Done(out.res, noted, true)
  }

  /** The container first: a volume it refers to would not go. */
  function RemovingBoth(res: Resources, cut: nat): Outcome {
    var gone := DeletingContainer(res, cut);
    if gone.ok then DeletingVolume(gone.res, gone.left) else gone
  }

  function Removing(archived: Outcome, action: PlanAction, op: OpId): Done {
    if !archived.ok || archived.left == 0 then Done(archived.res, action, false)
    else Plainly(RemovingBoth(archived.res, archived.left - 1), action.(archiveKey := Some(op)))
  }

  /** One entry of with_retry into `_execute`: what the environment decides, and after how
      many effects the entry is cut off (by an error or by the operation timeout). */
  datatype Try = Try(choice: Choice, cut: nat)

  /** `_execute_one`: entries until one returns, or until there are no more. */
  function Trying(res: Resources, ws: Row, action: PlanAction, op: OpId, tries: seq<Try>): Done {
    if tries == [] then Done(res, action, false)
    else
      var init, last := tries[..|tries| - 1], tries[|tries| - 1];
      var before := Trying(res, ws, action, op, init);
      if before.ok then before else Executing(before.res, ws, before.action, op, last.choice, last.cut)
  }

  /** The execute stage of a tick for one workspace. */
  function Ticking(res: Resources, ws: Row, action: PlanAction, uuid: OpId, tries: seq<Try>): Done {
    if NeedsExecute(action, ws.operation) then Trying(res, ws, action, OpIdFor(action, ws, uuid), tries)
    else Done(res, action, true)
  }

  lemma {:induction false} TriedEnough(res: Resources, ws: Row, action: PlanAction, op: OpId, tries: seq<Try>, i: nat)
    requires i <= |tries| && Trying(res, ws, action, op, tries[..i]).ok
    ensures Trying(res, ws, action, op, tries) == Trying(res, ws, action, op, tries[..i])
  {
    if i == |tries| {
      assert tries[..i] == tries;
    } else {
      assert tries[..|tries| - 1][..i] == tries[..i];
      TriedEnough(res, ws, action, op, tries[..|tries| - 1], i);
    }
  }

  // ----- the closed forms above are the attempts of the interleaved system -----

  /** `done` is how an attempt ends that stood at `tick`. */
  predicate Ends(res: Resources, tick: Tick, choice: Choice, cut: nat, done: Done) {
    var (res', tick') := Attempt(res, tick, choice, cut);
    res' == done.res && tick'.action == done.action && (tick'.pc.Finished? <==> done.ok)
  }

  lemma Once(res: Resources, tick: Tick, choice: Choice, cut: nat, done: Done)
    requires cut > 0 && !tick.pc.Finished? && !tick.pc.Failed?
    requires var (res', tick') := Effect(res, tick, choice); Ends(res', tick', choice, cut - 1, done)
    ensures Ends(res, tick, choice, cut, done)
  {
  }

  lemma EndsCreating(res: Resources, tick: Tick, choice: Choice, cut: nat)
    requires tick.pc.CreateVolume? && tick.action.operation == Provisioning
    ensures Ends(res, tick, choice, cut, Plainly(Creating(res, cut), tick.action))
  {
    if cut > 0 {
      Once(res, tick, choice, cut, Plainly(Creating(res, cut), tick.action));
    }
  }

  lemma EndsStarting(res: Resources, tick: Tick, choice: Choice, cut: nat)
    requires tick.pc == (if res.container.Some? then StartContainer else CreateContainer)
    ensures Ends(res, tick, choice, cut, Plainly(StartingContainer(res, cut), tick.action))
    decreases res.container.None?
  {
    var done := Plainly(StartingContainer(res, cut), tick.action);
    if cut > 0 {
      if res.container.None? {
        EndsStarting(WithVolume(res).(container := Some(false)), tick.(pc := StartContainer), choice, cut - 1);
      }
      Once(res, tick, choice, cut, done);
    }
  }

  lemma EndsStopping(res: Resources, tick: Tick, choice: Choice, cut: nat)
    requires tick.pc.StopContainer? && tick.action.operation == Stopping
    ensures Ends(res, tick, choice, cut, Plainly(DeletingContainer(res, cut), tick.action))
  {
    var done := Plainly(DeletingContainer(res, cut), tick.action);
    if cut > 1 {
      Once(Stopped(res), tick.(pc := RemoveContainer), choice, cut - 1, done);
    }
    if cut > 0 {
      Once(res, tick, choice, cut, done);
    }
  }

  lemma EndsRemoving(res: Resources, tick: Tick, choice: Choice, cut: nat)
    requires tick.pc.StopContainer? && tick.action.operation in {Archiving, Operation.Deleting}
    ensures Ends(res, tick, choice, cut, Plainly(RemovingBoth(res, cut), tick.action))
  {
    var done := Plainly(RemovingBoth(res, cut), tick.action);
    if cut > 2 {
      Once(res.(container := None), tick.(pc := RemoveVolume), choice, cut - 2, done);
    }
    if cut > 1 {
      Once(Stopped(res), tick.(pc := RemoveContainer), choice, cut - 1, done);
    }
    if cut > 0 {
      Once(res, tick, choice, cut, done);
    }
  }

  lemma EndsUploading(res: Resources, tick: Tick, choice: Choice, cut: nat)
    requires tick.pc.PutTar? && tick.action.operation == CreateEmptyArchive
    ensures Ends(res, tick, choice, cut, Noting(Uploading(res, tick.opId, Blob(EMPTY_HOME, 0), cut),
                                                tick.action, tick.action.(archiveKey := Some(tick.opId))))
  {
    var blob := Blob(EMPTY_HOME, 0);
    var out := Uploading(res, tick.opId, blob, cut);
    var done := Noting(out, tick.action, tick.action.(archiveKey := Some(tick.opId)));
    if cut > 2 {
      Once(out.res, tick.(pc := KeepKey), choice, cut - 2, done);
    }
    if cut > 1 {
      Once(res.(tars := res.tars[tick.opId := blob]), tick.(pc := PutMeta(blob)), choice, cut - 1, done);
    }
    if cut > 0 {
      Once(res, tick, choice, cut, done);
    }
  }

  /** From the assignment to the action on. */
  lemma EndsNotedArchiving(res: Resources, tick: Tick, choice: Choice, cut: nat)
    requires tick.pc.KeepKey? && tick.action.operation == Archiving
    ensures Ends(res, tick, choice, cut, Removing(Outcome(res, cut, true), tick.action, tick.opId))
  {
    var done := Removing(Outcome(res, cut, true), tick.action, tick.opId);
    if cut > 0 {
      EndsRemoving(res, tick.(action := tick.action.(archiveKey := Some(tick.opId)), pc := StopContainer), choice, cut - 1);
      Once(res, tick, choice, cut, done);
    }
  }

  /** From the HEAD check on. */
  lemma EndsPacking(res: Resources, tick: Tick, choice: Choice, cut: nat)
    requires tick.action.operation == Archiving && tick.pc.PutTar? && res.volume.Some?
    ensures Ends(res, tick, choice, cut,
                 Removing(Uploading(res, tick.opId, Packed(res, choice), cut), tick.action, tick.opId))
  {
    var blob := Packed(res, choice);
    var job := Uploading(res, tick.opId, blob, cut);
    var done := Removing(job, tick.action, tick.opId);
    if cut > 0 {
      var tarred := res.(tars := res.tars[tick.opId := blob]);
      if cut > 1 {
        EndsNotedArchiving(job.res, tick.(pc := KeepKey), choice, cut - 2);
        Once(tarred, tick.(pc := PutMeta(blob)), choice, cut - 1, done);
      }
      Once(res, tick, choice, cut, done);
    }
  }

  lemma EndsArchiving(res: Resources, tick: Tick, choice: Choice, cut: nat)
    requires tick.action.operation == Archiving && tick.pc.Mount?
    ensures Ends(res, tick, choice, cut, Removing(ArchivingJob(res, tick.opId, choice, cut), tick.action, tick.opId))
  {
    var mounted := WithVolume(res);
    var done := Removing(ArchivingJob(res, tick.opId, choice, cut), tick.action, tick.opId);
    if cut > 1 {
      if BothPresent(SlotOf(mounted, tick.opId)) && !choice.headFails {
        EndsNotedArchiving(mounted, tick.(pc := KeepKey), choice, cut - 2);
      } else {
        EndsPacking(mounted, tick.(pc := PutTar), choice, cut - 2);
      }
      Once(mounted, tick.(pc := Head), choice, cut - 1, done);
    }
    if cut > 0 {
      Once(res, tick, choice, cut, done);
    }
  }

  lemma EndsSync(res: Resources, tick: Tick, choice: Choice, cut: nat)
    requires tick.pc.Sync? && res.volume.Some?
    ensures var synced := if cut == 0 then Outcome(res, 0, false)
                          else if choice.partial.Some? then Outcome(res.(volume := choice.partial), cut - 1, false)
                          else Outcome(res.(volume := Some(tick.pc.target)), cut - 1, true);
            Ends(res, tick, choice, cut, Noting(synced, tick.action, tick.action.(restoreMarker := tick.snap.archiveKey)))
  {
    if cut > 0 && choice.partial.None? {
      var done := Noting(Outcome(res.(volume := Some(tick.pc.target)), cut - 1, true), tick.action,
                         tick.action.(restoreMarker := tick.snap.archiveKey));
      if cut > 1 {
        Once(res.(volume := Some(tick.pc.target)), tick.(pc := KeepMarker), choice, cut - 1, done);
      }
      Once(res, tick, choice, cut, done);
    }
  }

  lemma EndsRestoring(res: Resources, tick: Tick, choice: Choice, cut: nat)
    requires tick.pc.CreateVolume? && tick.action.operation == Restoring && tick.snap.archiveKey.Some?
    ensures Ends(res, tick, choice, cut, Noting(RestoringJob(res, tick.snap.archiveKey.value, choice.partial, cut),
                                                tick.action, tick.action.(restoreMarker := tick.snap.archiveKey)))
  {
    var key := tick.snap.archiveKey.value;
    var done := Noting(RestoringJob(res, key, choice.partial, cut), tick.action, tick.action.(restoreMarker := Some(key)));
    if cut > 1 {
      var made := WithVolume(res);
      assert SlotOf(made, key) == SlotOf(res, key);
      if Committed(SlotOf(res, key)) {
        EndsSync(made, tick.(pc := Sync(SlotOf(res, key).tar.value.home)), choice, cut - 2);
      }
      Once(made, tick.(pc := Fetch), choice, cut - 1, done);
    }
    if cut > 0 {
      Once(res, tick, choice, cut, done);
    }
  }

  /** The imperative `Execute` and the attempts the system-wide theorems speak of agree. */
  lemma ExecutingIsAttempt(res: Resources, tick: Tick, choice: Choice, cut: nat)
    requires tick.pc.Enter?
    ensures Ends(res, tick, choice, cut, Executing(res, tick.snap, tick.action, tick.opId, choice, cut))
  {
    if cut > 0 {
      var tick' := tick.(pc := FirstEffect(res, tick));
      match tick.action.operation {
        case Provisioning => EndsCreating(res, tick', choice, cut - 1);
        case Restoring =>
          if tick.snap.archiveKey.Some? {
            EndsRestoring(res, tick', choice, cut - 1);
          }
        case Starting => EndsStarting(res, tick', choice, cut - 1);
        case Stopping => EndsStopping(res, tick', choice, cut - 1);
        case Archiving => EndsArchiving(res, tick', choice, cut - 1);
        case CreateEmptyArchive => EndsUploading(res, tick', choice, cut - 1);
        case Deleting => EndsRemoving(res, tick', choice, cut - 1);
        case NoOperation =>
      }
    }
  }

  /** The moves of one workspace that enters `_execute` once per try. */
  function MovesFor(tries: seq<Try>): seq<Move> {
    if tries == [] then []
    else
      var last := tries[|tries| - 1];
      MovesFor(tries[..|tries| - 1]) + seq(last.cut, _ => Act(last.choice)) + [Abandon, Retry]
  }

  lemma {:induction false} RunAloneConcat(res: Resources, tick: Tick, moves: seq<Move>, more: seq<Move>)
    ensures var (res', tick') := RunAlone(res, tick, moves);
            RunAlone(res, tick, moves + more) == RunAlone(res', tick', more)
  {
    if more == [] {
      assert moves + more == moves;
    } else {
      var init := more[..|more| - 1];
      RunAloneConcat(res, tick, moves, init);
      assert (moves + more)[..|moves + more| - 1] == moves + init;
    }
  }

  lemma {:induction false} ActsAreAttempt(res: Resources, tick: Tick, choice: Choice, n: nat)
    ensures RunAlone(res, tick, seq(n, _ => Act(choice))) == Attempt(res, tick, choice, n)
    decreases n
  {
    if n > 0 {
      var (res', tick') := Effect(res, tick, choice);
      var acts, rest := seq(n, _ => Act(choice)), seq(n - 1, _ => Act(choice));
      assert acts == [Act(choice)] + rest;
      RunAloneConcat(res, tick, [Act(choice)], rest);
      assert RunAlone(res, tick, []) == (res, tick);
      assert RunAlone(res, tick, [Act(choice)]) == (res', tick');
      ActsAreAttempt(res', tick', choice, n - 1);
      assert tick.pc.Finished? || tick.pc.Failed? ==> Attempt(res, tick, choice, n - 1) == (res, tick);
    }
  }

  /** Entering again after a failure is a run of the interleaved system's moves. */
  lemma {:induction false} TryingIsARun(res: Resources, tick: Tick, tries: seq<Try>)
    requires tick.pc.Enter?
    ensures var done := Trying(res, tick.snap, tick.action, tick.opId, tries);
            RunAlone(res, tick, MovesFor(tries)) ==
            (done.res, tick.(action := done.action, pc := if done.ok then Finished else Enter))
  {
    if tries != [] {
      var init, last := tries[..|tries| - 1], tries[|tries| - 1];
      var before := Trying(res, tick.snap, tick.action, tick.opId, init);
      var tick1 := tick.(action := before.action, pc := if before.ok then Finished else Enter);
      TryingIsARun(res, tick, init);
      var acts := seq(last.cut, _ => Act(last.choice));
      RunAloneConcat(res, tick, MovesFor(init), acts);
      ActsAreAttempt(before.res, tick1, last.choice, last.cut);
      var (res2, tick2) := Attempt(before.res, tick1, last.choice, last.cut);
      if !before.ok {
        ExecutingIsAttempt(before.res, tick1, last.choice, last.cut);
      }
      AttemptKeepsTick(before.res, tick1, last.choice, last.cut);
      RunAloneConcat(res, tick, MovesFor(init) + acts, [Abandon, Retry]);
      AbandonRetry(res2, tick2);
    }
  }

  lemma AbandonRetry(res: Resources, tick: Tick)
    ensures RunAlone(res, tick, [Abandon, Retry]) == (res, if tick.pc.Finished? then tick else tick.(pc := Enter))
  {
    assert [Abandon, Retry][..1] == [Abandon];
    assert RunAlone(res, tick, []) == (res, tick);
  }

  lemma {:induction false} AttemptKeepsTick(res: Resources, tick: Tick, choice: Choice, bound: nat)
    ensures var (_, tick') := Attempt(res, tick, choice, bound);
            tick' == tick.(action := tick'.action, pc := tick'.pc)
    decreases bound
  {
    if bound != 0 && !tick.pc.Finished? && !tick.pc.Failed? {
      var (res', tick') := Effect(res, tick, choice);
      AttemptKeepsTick(res', tick', choice, bound - 1);
    }
  }

  /** What happens to one workspace in one tick: the planner's clock and uuid, the entries
      into `_execute`, the clocks and uuid of the save, and whether the save goes through. */
  datatype Fate = Fate(now: int, uuid: OpId, tries: seq<Try>, savedAt: int, stamp: int, saveUuid: OpId, saved: bool)

  /** Plan and execute. */
  function Reconciling(res: Resources, ws: Row, timeout: int, fate: Fate): Done {
    Ticking(res, ws, Plan(ws, timeout, fate.now, fate.uuid), fate.uuid, fate.tries)
  }

  /** Save, or fail to. */
  function Saving(current: Row, ws: Row, action: PlanAction, fate: Fate): Row {
    if fate.saved then Persist(current, ws, action, fate.savedAt, fate.stamp, fate.saveUuid).0 else current
  }

  /** A save that fails, or finds another operation in the column than was loaded, changes nothing;
      any other stores the action. */
  lemma SavingIff(current: Row, ws: Row, action: PlanAction, fate: Fate)
    ensures var after := Saving(current, ws, action, fate);
            if fate.saved && current.operation == ws.operation then
              && after.phase == action.phase && after.operation == action.operation && after.errorReason == action.errorReason
              && after.desired == current.desired && after.conditions == current.conditions
              && after.deletedAt == current.deletedAt && after.lastAccessAt == current.lastAccessAt
            else after == current
  {
  }

  /** However the executions of a batch interleave, each workspace's resources and action end
      as the one-by-one loop of `Reconcile` leaves them. */
  lemma AnyOrderIsThisOrder(prefix: string, w: World, ticks: map<string, Tick>, turns: seq<Turn>, id: string, tries: seq<Try>)
    requires forall turn :: turn in turns ==> turn.id in ticks
    requires forall other :: other in ticks ==> Plain(other)
    requires id in ticks && ticks[id].pc.Enter? && MovesOf(id, turns) == MovesFor(tries)
    ensures var (w', ticks') := RunTogether(prefix, w, ticks, turns);
            var done := Trying(View(prefix, id, w), ticks[id].snap, ticks[id].action, ticks[id].opId, tries);
            View(prefix, id, w') == done.res && ticks'[id].action == done.action
  {
    BatchIndependence(prefix, w, ticks, turns, id);
    TryingIsARun(View(prefix, id, w), ticks[id], tries);
  }

  class Host {
    const prefix: string
    var rows: map<string, Row>
    var world: World

    constructor (prefix: string)
      requires Plain(prefix)
      ensures this.prefix == prefix && rows == map[] && world == World(map[], map[], map[], map[])
    {
      this.prefix := prefix;
      rows := map[];
      world := World(map[], map[], map[], map[]);
    }

    ghost function Mine(id: string): Resources
      reads this
    {
      View(prefix, id, world)
    }

    /** Nothing outside `id`'s names has changed. */
    twostate predicate OnlyTouched(id: string)
      reads this
    {
      forall other :: Plain(other) && other != id ==> Mine(other) == old(Mine(other))
    }

    // ----- single calls to Docker and S3 -----

    method CreateVolume(id: string)
      requires Plain(id)
      modifies this`world
      ensures Mine(id) == WithVolume(old(Mine(id)))
      ensures VolumeName(prefix, id) in world.volumes && OnlyTouched(id)
    {
      var name := VolumeName(prefix, id);
      if name !in world.volumes {
        world := world.(volumes := world.volumes[name := EMPTY_HOME]);
      }
      forall other | Plain(other) && other != id ensures Mine(other) == old(Mine(other)) { NamesInjective(prefix, id, other); }
    }

    method FillVolume(id: string, home: Home)
      requires Plain(id)
      modifies this`world
      ensures Mine(id) == old(Mine(id)).(volume := Some(home))
      ensures OnlyTouched(id)
    {
      world := world.(volumes := world.volumes[VolumeName(prefix, id) := home]);
      forall other | Plain(other) && other != id ensures Mine(other) == old(Mine(other)) { NamesInjective(prefix, id, other); }
    }

    method RemoveVolume(id: string) returns (ok: bool)
      requires Plain(id)
      modifies this`world
      ensures ok <==> old(Mine(id)).container.None?
      ensures Mine(id) == if ok then old(Mine(id)).(volume := None) else old(Mine(id))
      ensures OnlyTouched(id)
    {
      ok := ContainerName(prefix, id) !in world.containers;
      if ok {
        world := world.(volumes := world.volumes - {VolumeName(prefix, id)});
      }
      forall other | Plain(other) && other != id ensures Mine(other) == old(Mine(other)) { NamesInjective(prefix, id, other); }
    }

    method SetContainer(id: string, running: bool)
      requires Plain(id)
      modifies this`world
      ensures Mine(id) == old(Mine(id)).(container := Some(running))
      ensures OnlyTouched(id)
    {
      world := world.(containers := world.containers[ContainerName(prefix, id) := running]);
      forall other | Plain(other) && other != id ensures Mine(other) == old(Mine(other)) { NamesInjective(prefix, id, other); }
    }

    method StopContainer(id: string)
      requires Plain(id)
      modifies this`world
      ensures Mine(id) == if old(Mine(id)).container.Some? then old(Mine(id)).(container := Some(false)) else old(Mine(id))
      ensures OnlyTouched(id)
    {
      if ContainerName(prefix, id) in world.containers {
        SetContainer(id, false);
      }
    }

    method RemoveContainer(id: string)
      requires Plain(id)
      modifies this`world
      ensures Mine(id) == old(Mine(id)).(container := None)
      ensures OnlyTouched(id)
    {
      world := world.(containers := world.containers - {ContainerName(prefix, id)});
      forall other | Plain(other) && other != id ensures Mine(other) == old(Mine(other)) { NamesInjective(prefix, id, other); }
    }

    method PutTar(id: string, op: OpId, blob: Blob)
      requires Plain(id)
      modifies this`world
      ensures Mine(id) == old(Mine(id)).(tars := old(Mine(id)).tars[op := blob])
      ensures OnlyTouched(id)
    {
      ByOpPut(prefix, id, op, world.archives, blob);
      world := world.(archives := world.archives[ArchiveKey(prefix, id, op) := blob]);
    }

    method PutMeta(id: string, op: OpId, digest: Digest)
      requires Plain(id)
      modifies this`world
      ensures Mine(id) == old(Mine(id)).(metas := old(Mine(id)).metas[op := digest])
      ensures OnlyTouched(id)
    {
      ByOpPut(prefix, id, op, world.metas, digest);
      world := world.(metas := world.metas[ArchiveKey(prefix, id, op) := digest]);
    }

    // ----- calls of the storage and instance providers, cut off after `cut` effects -----

    method DeleteContainer(id: string, cut: nat) returns (left: nat, ok: bool)
      requires Plain(id)
      modifies this`world
      ensures Outcome(Mine(id), left, ok) == DeletingContainer(old(Mine(id)), cut)
      ensures OnlyTouched(id)
    {
      if cut == 0 {
        return 0, false;
      }
      StopContainer(id);
      if cut == 1 {
        return 0, false;
      }
      RemoveContainer(id);
      return cut - 2, true;
    }

    method DeleteVolume(id: string, cut: nat) returns (left: nat, ok: bool)
      requires Plain(id)
      modifies this`world
      ensures Outcome(Mine(id), left, ok) == DeletingVolume(old(Mine(id)), cut)
      ensures OnlyTouched(id)
    {
      if cut == 0 {
        return 0, false;
      }
      ok := RemoveVolume(id);
      left := cut - 1;
    }

    method Provision(id: string, cut: nat) returns (left: nat, ok: bool)
      requires Plain(id)
      modifies this`world
      ensures Outcome(Mine(id), left, ok) == Creating(old(Mine(id)), cut)
      ensures OnlyTouched(id)
    {
      if cut == 0 {
        return 0, false;
      }
      CreateVolume(id);
      return cut - 1, true;
    }

    method Upload(id: string, op: OpId, blob: Blob, cut: nat) returns (left: nat, ok: bool)
      requires Plain(id)
      modifies this`world
      ensures Outcome(Mine(id), left, ok) == Uploading(old(Mine(id)), op, blob, cut)
      ensures OnlyTouched(id)
    {
      if cut == 0 {
        return 0, false;
      }
      PutTar(id, op, blob);
      if cut == 1 {
        return 0, false;
      }
      PutMeta(id, op, Sha256(blob));
      return cut - 2, true;
    }

    method HeadBoth(id: string, op: OpId) returns (both: bool)
      ensures both <==> BothPresent(SlotOf(Mine(id), op))
    {
      ByOpAt(prefix, id, world.archives, op);
      ByOpAt(prefix, id, world.metas, op);
      var key := ArchiveKey(prefix, id, op);
      both := key in world.archives && key in world.metas;
    }

    method ArchiveVolume(id: string, op: OpId, choice: Choice, cut: nat) returns (left: nat, ok: bool)
      requires Plain(id)
      modifies this`world
      ensures Outcome(Mine(id), left, ok) == ArchivingJob(old(Mine(id)), op, choice, cut)
      ensures OnlyTouched(id)
    {
      if cut == 0 {
        return 0, false;
      }
      CreateVolume(id);
      if cut == 1 {
        return 0, false;
      }
      var done := HeadBoth(id, op);
      if done && !choice.headFails {
        return cut - 2, true;
      }
      var found := world.volumes[VolumeName(prefix, id)];
      var packed := Blob(if choice.partial.Some? then choice.partial.value else found, choice.nonce);
      left, ok := Upload(id, op, packed, cut - 2);
    }

    /** Download both objects and compare checksums. */
    method FetchVerified(id: string, key: OpId) returns (home: Option<Home>)
      ensures home == if Committed(SlotOf(Mine(id), key)) then Some(SlotOf(Mine(id), key).tar.value.home) else None
    {
      ByOpAt(prefix, id, world.archives, key);
      ByOpAt(prefix, id, world.metas, key);
      var name := ArchiveKey(prefix, id, key);
      if name !in world.archives || name !in world.metas || world.metas[name] != Sha256(world.archives[name]) {
        return None;
      }
      return Some(world.archives[name].home);
    }

    method RestoreVolume(id: string, key: OpId, partial: Option<Home>, cut: nat) returns (left: nat, ok: bool)
      requires Plain(id)
      modifies this`world
      ensures Outcome(Mine(id), left, ok) == RestoringJob(old(Mine(id)), key, partial, cut)
      ensures OnlyTouched(id)
    {
      left, ok := Provision(id, cut);
      if !ok || left == 0 {
        return left, false;
      }
      var home := FetchVerified(id, key);
      if home.None? {
        return left - 1, false;
      }
      if left == 1 {
        return 0, false;
      }
      FillVolume(id, if partial.Some? then partial.value else home.value);
      return left - 2, partial.None?;
    }

    method StartContainer(id: string, cut: nat) returns (left: nat, ok: bool)
      requires Plain(id)
      modifies this`world
      ensures Outcome(Mine(id), left, ok) == StartingContainer(old(Mine(id)), cut)
      ensures OnlyTouched(id)
    {
      if cut == 0 {
        return 0, false;
      }
      if ContainerName(prefix, id) in world.containers {
        SetContainer(id, true);
        return cut - 1, true;
      }
      CreateVolume(id);
      SetContainer(id, false);
      if cut == 1 {
        return 0, false;
      }
      SetContainer(id, true);
      return cut - 2, true;
    }

    // ----- WorkspaceController -----

    method RemoveBoth(id: string, cut: nat) returns (left: nat, ok: bool)
      requires Plain(id)
      modifies this`world
      ensures Outcome(Mine(id), left, ok) == RemovingBoth(old(Mine(id)), cut)
      ensures OnlyTouched(id)
    {
      left, ok := DeleteContainer(id, cut);
      if ok {
        left, ok := DeleteVolume(id, left);
      }
    }

    method ArchiveThenRemove(id: string, action: PlanAction, op: OpId, choice: Choice, cut: nat) returns (noted: PlanAction, ok: bool)
      requires Plain(id)
      modifies this`world
      ensures Done(Mine(id), noted, ok) == Removing(ArchivingJob(old(Mine(id)), op, choice, cut), action, op)
      ensures OnlyTouched(id)
    {
      hide View, ArchivingJob, RemovingBoth;
      noted := action;
      var left, done := ArchiveVolume(id, op, choice, cut);
      if !done || left == 0 {
        return noted, false;
      }
      noted := noted.(archiveKey := Some(op));
      left, ok := RemoveBoth(id, left - 1);
    }

    method RestoreThenMark(id: string, key: OpId, action: PlanAction, partial: Option<Home>, cut: nat)
      returns (noted: PlanAction, ok: bool)
      requires Plain(id)
      modifies this`world
      ensures Done(Mine(id), noted, ok) ==
              Noting(RestoringJob(old(Mine(id)), key, partial, cut), action, action.(restoreMarker := Some(key)))
      ensures OnlyTouched(id)
    {
      noted := action;
      var left, done := RestoreVolume(id, key, partial, cut);
      if !done || left == 0 {
        return noted, false;
      }
      return noted.(restoreMarker := Some(key)), true;
    }

    method UploadEmpty(id: string, action: PlanAction, op: OpId, cut: nat) returns (noted: PlanAction, ok: bool)
      requires Plain(id)
      modifies this`world
      ensures Done(Mine(id), noted, ok) ==
              Noting(Uploading(old(Mine(id)), op, Blob(EMPTY_HOME, 0), cut), action, action.(archiveKey := Some(op)))
      ensures OnlyTouched(id)
    {
      noted := action;
      var left, done := Upload(id, op, Blob(EMPTY_HOME, 0), cut);
      if !done || left == 0 {
        return noted, false;
      }
      return noted.(archiveKey := Some(op)), true;
    }

    method Execute(id: string, ws: Row, action: PlanAction, op: OpId, choice: Choice, cut: nat)
      returns (noted: PlanAction, ok: bool)
      requires Plain(id)
      modifies this`world
      ensures Done(Mine(id), noted, ok) == Executing(old(Mine(id)), ws, action, op, choice, cut)
      ensures OnlyTouched(id)
    {
      hide View, Creating, StartingContainer, DeletingContainer, RemovingBoth, RestoringJob, Noting, Removing, Uploading;
      noted := action;
      if cut == 0 {
        return noted, false;
      }
      var left: nat;
      match action.operation {
        case Provisioning =>
          left, ok := Provision(id, cut - 1);
        case Restoring =>
          ok := true;
          if ws.archiveKey.Some? {
            noted, ok := RestoreThenMark(id, ws.archiveKey.value, action, choice.partial, cut - 1);
          }
        case Starting =>
          left, ok := StartContainer(id, cut - 1);
        case Stopping =>
          left, ok := DeleteContainer(id, cut - 1);
        case Archiving =>
          noted, ok := ArchiveThenRemove(id, action, op, choice, cut - 1);
        case CreateEmptyArchive =>
          noted, ok := UploadEmpty(id, action, op, cut - 1);
        case Deleting =>
          left, ok := RemoveBoth(id, cut - 1);
        case NoOperation =>
          ok := true;
      }
    }

    method ExecuteOne(id: string, ws: Row, action: PlanAction, uuid: OpId, tries: seq<Try>) returns (noted: PlanAction)
      requires Plain(id)
      modifies this`world
      ensures Mine(id) == Ticking(old(Mine(id)), ws, action, uuid, tries).res
      ensures noted == Ticking(old(Mine(id)), ws, action, uuid, tries).action
      ensures OnlyTouched(id)
    {
      noted := action;
      if !NeedsExecute(action, ws.operation) {
        return;
      }
      var op := OpIdFor(action, ws, uuid);
      var i, ok := 0, false;
      while i < |tries| && !ok
        invariant i <= |tries|
        invariant Done(Mine(id), noted, ok) == Trying(old(Mine(id)), ws, action, op, tries[..i])
        invariant OnlyTouched(id)
      {
        assert tries[..i + 1][..i] == tries[..i];
        noted, ok := Execute(id, ws, noted, op, tries[i].choice, tries[i].cut);
        i := i + 1;
      }
      if ok {
        TriedEnough(old(Mine(id)), ws, action, op, tries, i);
      }
      assert tries[..|tries|] == tries;
    }

    method LoadForReconcile() returns (loaded: seq<string>)
      ensures forall id :: id in loaded <==> id in rows && Loaded(rows[id])
      ensures forall i, j :: 0 <= i < j < |loaded| ==> loaded[i] != loaded[j]
    {
      loaded := [];
      var todo := rows.Keys;
      while todo != {}
        invariant todo <= rows.Keys
        invariant forall id :: id in loaded <==> id in rows.Keys - todo && Loaded(rows[id])
        invariant forall i, j :: 0 <= i < j < |loaded| ==> loaded[i] != loaded[j]
      {
        var id :| id in todo;
        todo := todo - {id};
        if Loaded(rows[id]) {
          loaded := loaded + [id];
        }
      }
    }

    /** The UPDATE of `_cas_update`, guarded by the operation that was loaded. */
    method CasUpdate(id: string, ws: Row, action: PlanAction, fate: Fate) returns (success: bool)
      requires id in rows
      modifies this`rows
      ensures var (row, matched) := Persist(old(rows)[id], ws, action, fate.savedAt, fate.stamp, fate.saveUuid);
              rows == old(rows)[id := row] && success == matched
    {
      success := rows[id].operation == ws.operation;
      if success {
        var row := rows[id];
        var opStartedAt := ws.opStartedAt;
        var opId := ws.opId;
        if action.operation != NoOperation && ws.operation == NoOperation {
          opStartedAt := Some(fate.savedAt);
          opId := if Given(action.opId) then action.opId else Some(fate.saveUuid);
        } else if action.operation == NoOperation {
          opStartedAt := None;
        }
        var errorCount := ws.errorCount;
        if action.errorReason.Some? {
          errorCount := ws.errorCount + 1;
        } else if action.complete {
          errorCount := 0;
        }
        if row.phase != action.phase {
          row := row.(phaseChangedAt := Some(fate.stamp));
        }
        row := row.(phase := action.phase, operation := action.operation, opStartedAt := opStartedAt, opId := opId,
                    errorReason := action.errorReason, errorCount := errorCount);
        if action.archiveKey.Some? {
          row := row.(archiveKey := action.archiveKey);
        }
        if action.restoreMarker.Some? {
          row := row.(restoreMarker := action.restoreMarker);
        }
        rows := rows[id := row];
      }
    }

    method PlanAll(loaded: seq<string>, timeout: int, fates: map<string, Fate>) returns (plans: map<string, PlanAction>)
      requires forall id :: id in loaded ==> id in rows && id in fates
      ensures forall id :: id in loaded ==>
                id in plans && plans[id] == Plan(rows[id], timeout, fates[id].now, fates[id].uuid)
    {
      hide Plan;
      plans := map[];
      for i := 0 to |loaded|
        invariant forall id :: id in loaded[..i] ==>
                    id in plans && plans[id] == Plan(rows[id], timeout, fates[id].now, fates[id].uuid)
      {
        var id := loaded[i];
        plans := plans[id := Plan(rows[id], timeout, fates[id].now, fates[id].uuid)];
      }
      assert loaded[..|loaded|] == loaded;
    }

    /** One at a time; `AnyOrderIsThisOrder` covers the parallel run. */
    method ExecuteAll(loaded: seq<string>, plans: map<string, PlanAction>, fates: map<string, Fate>)
      returns (results: map<string, PlanAction>)
      requires forall id :: id in loaded ==> id in rows && id in plans && id in fates && Plain(id)
      requires forall i, j :: 0 <= i < j < |loaded| ==> loaded[i] != loaded[j]
      modifies this`world
      ensures forall id :: id in loaded ==>
                id in results
                && Done(Mine(id), results[id], true) ==
                   Ticking(old(Mine(id)), rows[id], plans[id], fates[id].uuid, fates[id].tries).(ok := true)
      ensures forall other :: Plain(other) && other !in loaded ==> Mine(other) == old(Mine(other))
    {
      hide Ticking, View;
      results := map[];
      for i := 0 to |loaded|
        invariant forall id :: id in loaded[..i] ==>
                    id in results
                    && Done(Mine(id), results[id], true) ==
                       Ticking(old(Mine(id)), rows[id], plans[id], fates[id].uuid, fates[id].tries).(ok := true)
        invariant forall other :: Plain(other) && other !in loaded[..i] ==> Mine(other) == old(Mine(other))
      {
        var id := loaded[i];
        assert id !in loaded[..i];
        var noted := ExecuteOne(id, rows[id], plans[id], fates[id].uuid, fates[id].tries);
        results := results[id := noted];
        assert loaded[..i + 1] == loaded[..i] + [id];
      }
      assert loaded[..|loaded|] == loaded;
    }

    method PersistAll(loaded: seq<string>, snaps: map<string, Row>, results: map<string, PlanAction>, fates: map<string, Fate>)
      requires forall id :: id in loaded ==> id in rows && id in snaps && id in results && id in fates
      requires forall i, j :: 0 <= i < j < |loaded| ==> loaded[i] != loaded[j]
      modifies this`rows
      ensures rows.Keys == old(rows).Keys
      ensures forall id :: id in rows ==>
                rows[id] == if id in loaded then Saving(old(rows)[id], snaps[id], results[id], fates[id]) else old(rows)[id]
    {
      hide Persist;
      for i := 0 to |loaded|
        invariant rows.Keys == old(rows).Keys
        invariant forall id :: id in rows ==>
                    rows[id] == if id in loaded[..i] then Saving(old(rows)[id], snaps[id], results[id], fates[id]) else old(rows)[id]
      {
        var id := loaded[i];
        assert id !in loaded[..i];
        if fates[id].saved {
          var success := CasUpdate(id, snaps[id], results[id], fates[id]);
        }
        assert loaded[..i + 1] == loaded[..i] + [id];
      }
      assert loaded[..|loaded|] == loaded;
    }

    /** One tick. `meanwhile` is what other writers commit between the load and the saves.
        Each workspace's rows and resources depend on its own fate alone. */
    method Reconcile(timeout: int, fates: map<string, Fate>, meanwhile: map<string, Row>)
      requires forall id :: id in rows ==> id in fates && Plain(id)
      modifies this
      ensures rows.Keys == old(rows).Keys + meanwhile.Keys
      ensures forall id :: Plain(id) ==>
                if id in old(rows) && Loaded(old(rows)[id]) then
                  var done := Reconciling(old(Mine(id)), old(rows)[id], timeout, fates[id]);
                  Mine(id) == done.res
                  && rows[id] == Saving((old(rows) + meanwhile)[id], old(rows)[id], done.action, fates[id])
                else
                  Mine(id) == old(Mine(id)) && (id in rows ==> rows[id] == (old(rows) + meanwhile)[id])
    {
      hide Ticking, View, Plan, Saving;
      var loaded := LoadForReconcile();
      var snaps := rows;
      var plans := PlanAll(loaded, timeout, fates);
      var results := ExecuteAll(loaded, plans, fates);
      rows := rows + meanwhile;
      label Saves:
      PersistAll(loaded, snaps, results, fates);
      forall id | Plain(id) && id in snaps && Loaded(snaps[id])
        ensures var done := Reconciling(old(Mine(id)), snaps[id], timeout, fates[id]);
                Mine(id) == done.res && rows[id] == Saving((snaps + meanwhile)[id], snaps[id], done.action, fates[id])
      {
        assert id in loaded;
      }
    }
  }
}
