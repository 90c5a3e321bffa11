/** scheduler_ttl.py, and what `phase_changed_at` says about the past. */
module TtlModel {
  import opened Domain
  import opened Planner
  import opened Controller
  import opened System
  import opened Safety
  import Life

  /** `_check_standby_ttl`, the WHERE clause; `now` is the database's NOW(). */
  predicate StandbyExpired(row: Row, now: int, ttl: int) {
    row.phase == Phase.Running && row.operation == NoOperation && row.deletedAt.None?
    && row.lastAccessAt.Some? && now - row.lastAccessAt.value > ttl
  }

  /** `_check_archive_ttl`, likewise. */
  predicate ArchiveExpired(row: Row, now: int, ttl: int) {
    row.phase == Phase.Standby && row.operation == NoOperation && row.deletedAt.None?
    && row.phaseChangedAt.Some? && now - row.phaseChangedAt.value > ttl
  }

  class TtlRunner {
    const standbyTtl: int
    const archiveTtl: int
    var rows: map<string, Row>

    constructor (standbyTtl: int, archiveTtl: int, rows: map<string, Row>)
      ensures this.standbyTtl == standbyTtl && this.archiveTtl == archiveTtl && this.rows == rows
    {
      this.standbyTtl, this.archiveTtl, this.rows := standbyTtl, archiveTtl, rows;
    }

    /** UPDATE, SET desired_state, WHERE, RETURNING id. */
    method SetDesiredWhere(where: Row -> bool, desired: Desired) returns (updated: set<string>)
      modifies this`rows
      ensures updated == set id | id in old(rows) && where(old(rows)[id])
      ensures rows.Keys == old(rows).Keys
      ensures forall id :: id in rows ==>
                rows[id] == if id in updated then old(rows)[id].(desired := desired) else old(rows)[id]
    {
      updated := {};
      var todo := rows.Keys;
      while todo != {}
        invariant todo <= rows.Keys == old(rows).Keys
        invariant updated == set id | id in old(rows).Keys - todo && where(old(rows)[id])
        invariant forall id :: id in rows ==>
                    rows[id] == if id in updated then old(rows)[id].(desired := desired) else old(rows)[id]
        decreases todo
      {
        var id :| id in todo;
        todo := todo - {id};
        if where(rows[id]) {
          updated := updated + {id};
          rows := rows[id := rows[id].(desired := desired)];
        }
      }
    }

    /** The two checks of one cycle, in order. To STANDBY go exactly the live, idle, running rows
        whose last access is more than the TTL ago, to ARCHIVED exactly the live, idle rows in
        STANDBY whose phase is older than the other TTL. No row is caught by both, and apart
        from the desired state of those that expired nothing changes. */
    method Check(now: int) returns (standby: set<string>, archive: set<string>)
      modifies this`rows
      ensures forall id :: id in standby <==>
                id in old(rows)
                && var row := old(rows)[id];
                   row.deletedAt.None? && row.operation == NoOperation && row.phase == Phase.Running
                   && row.lastAccessAt.Some? && row.lastAccessAt.value < now - standbyTtl
      ensures forall id :: id in archive <==>
                id in old(rows)
                && var row := old(rows)[id];
                   row.deletedAt.None? && row.operation == NoOperation && row.phase == Phase.Standby
                   && row.phaseChangedAt.Some? && row.phaseChangedAt.value < now - archiveTtl
      ensures standby !! archive && rows.Keys == old(rows).Keys
      ensures forall id :: id in rows ==>
                rows[id] == if id in standby then old(rows)[id].(desired := Desired.Standby)
                            else if id in archive then old(rows)[id].(desired := Desired.Archived)
                            else old(rows)[id]
    {
      standby := SetDesiredWhere(row => StandbyExpired(row, now, standbyTtl), Desired.Standby);
      archive := SetDesiredWhere(row => ArchiveExpired(row, now, archiveTtl), Desired.Archived);
    }
  }

  // ----- what the stamp means -----

  /** A save that changes the stored phase. */
  predicate ChangesPhase(s: Sys, step: Step, s': Sys) {
    step.Save? && s.row.Some? && s'.row.Some? && s.row.value.phase != s'.row.value.phase
  }

  /** The stored phase has had its present value ever since `lag` after the stamp. */
  ghost predicate PhaseSince(states: seq<Sys>, i: nat, lag: nat)
    requires i < |states|
  {
    states[i].row.Some? && states[i].row.value.phaseChangedAt.Some? ==>
      forall k :: 0 <= k <= i && states[k].now > states[i].row.value.phaseChangedAt.value + lag ==>
                    states[k].row.Some? && states[k].row.value.phase == states[i].row.value.phase
  }

  /** The stamp is the start of the transaction that saves. It begins with the first statement
      since the last commit, which may be many ticks ago, since a tick without a save does not
      commit; after another save in the same tick it begins anew. */
  predicate CommitsWithin(s: Sys, step: Step, s': Sys, lag: nat) {
    ChangesPhase(s, step, s') && s.began.Some? ==> s.now - s.began.value <= lag
  }

  /** What one step does to the phase, its stamp and the clock. */
  lemma PhaseStep(s: Sys, step: Step)
    requires Enabled(s, step)
    ensures var s' := Apply(s, step);
            && s.now <= s'.now && (s.row.Some? ==> s'.row.Some?)
            && (ChangesPhase(s, step, s') ==>
                  s'.row.value.phaseChangedAt == Some(TransactionStart(s)) && s'.now == s.now && s'.began.None?)
            && (!ChangesPhase(s, step, s') && s.row.Some? ==>
                  s'.row.value.phase == s.row.value.phase && s'.row.value.phaseChangedAt == s.row.value.phaseChangedAt)
            && (s.row.None? && s'.row.Some? ==> s'.row.value.phaseChangedAt.None?)
  {
    hide Plan;
  }

  lemma {:induction false} ClockRuns(states: seq<Sys>, steps: seq<Step>, rule: (Sys, Step) -> bool, k: nat, i: nat)
    requires IsRun(states, steps, rule) && k <= i < |states|
    ensures states[k].now <= states[i].now
  {
    if k < i {
      ClockRuns(states, steps, rule, k, i - 1);
      var m := i - 1;
      assert Next(states[m], steps[m], states[m + 1]);
      PhaseStep(states[m], steps[m]);
    }
  }

  lemma {:induction false} StampsGivePast(states: seq<Sys>, steps: seq<Step>, rule: (Sys, Step) -> bool, lag: nat, i: nat)
    requires IsRun(states, steps, rule) && i < |states|
    requires forall k :: 0 <= k < |steps| ==> CommitsWithin(states[k], steps[k], states[k + 1], lag)
    ensures PhaseSince(states, i, lag)
  {
    if i > 0 {
      var m := i - 1;
      StampsGivePast(states, steps, rule, lag, m);
      assert Next(states[m], steps[m], states[m + 1]);
      assert CommitsWithin(states[m], steps[m], states[m + 1], lag);
      PhaseStep(states[m], steps[m]);
      forall k | 0 <= k <= m ensures states[k].now <= states[m].now {
        ClockRuns(states, steps, rule, k, m);
      }
    }
  }

  /** In a run the stored phase is as old as its stamp says, give or take `lag`, exactly if no
      save that changes the phase commits a transaction that has been open for more than `lag`. */
  lemma PhaseHistory(states: seq<Sys>, steps: seq<Step>, rule: (Sys, Step) -> bool, lag: nat)
    requires IsRun(states, steps, rule)
    ensures (forall i :: 0 <= i < |states| ==> PhaseSince(states, i, lag)) <==>
            (forall k :: 0 <= k < |steps| ==> CommitsWithin(states[k], steps[k], states[k + 1], lag))
  {
    if forall k :: 0 <= k < |steps| ==> CommitsWithin(states[k], steps[k], states[k + 1], lag) {
      forall i | 0 <= i < |states| ensures PhaseSince(states, i, lag) {
        StampsGivePast(states, steps, rule, lag, i);
      }
    }
    if forall i :: 0 <= i < |states| ==> PhaseSince(states, i, lag) {
      forall k | 0 <= k < |steps| ensures CommitsWithin(states[k], steps[k], states[k + 1], lag) {
        assert Next(states[k], steps[k], states[k + 1]);
        PhaseStep(states[k], steps[k]);
        assert PhaseSince(states, k + 1, lag);
      }
    }
  }

  /** So the archive TTL, read off at `now`, catches only a row whose stored phase was STANDBY at
      every moment of the preceding TTL but for the first `lag` of it. */
  lemma ArchiveTtlHistory(states: seq<Sys>, steps: seq<Step>, rule: (Sys, Step) -> bool, lag: nat, i: nat, now: int, ttl: int)
    requires IsRun(states, steps, rule) && i < |states|
    requires forall k :: 0 <= k < |steps| ==> CommitsWithin(states[k], steps[k], states[k + 1], lag)
    requires states[i].row.Some? && ArchiveExpired(states[i].row.value, now, ttl)
    ensures forall k :: 0 <= k <= i && states[k].now >= now - ttl + lag ==>
              states[k].row.Some? && states[k].row.value.phase == Phase.Standby
  {
    StampsGivePast(states, steps, rule, lag, i);
  }

  lemma ClockStep(s: Sys, step: Step)
    requires Enabled(s, step) && StampPast(s)
    ensures StampPast(Apply(s, step))
  {
    hide Plan;
    PhaseStep(s, step);
  }

  /** No stamp and no open transaction is of the future, and every phase but the first has a stamp. */
  predicate StampPast(s: Sys) {
    && (s.began.Some? ==> s.began.value <= s.now)
    && (s.row.Some? ==>
          && (s.row.value.phaseChangedAt.Some? ==> s.row.value.phaseChangedAt.value <= s.now)
          && (s.row.value.phase != Phase.Pending ==> s.row.value.phaseChangedAt.Some?))
  }

  lemma {:induction false} StampsArePast(states: seq<Sys>, steps: seq<Step>, rule: (Sys, Step) -> bool, i: nat)
    requires IsRun(states, steps, rule) && i < |states|
    ensures StampPast(states[i])
  {
    hide Enabled, Apply;
    if i > 0 {
      var m := i - 1;
      StampsArePast(states, steps, rule, m);
      assert Next(states[m], steps[m], states[m + 1]);
      ClockStep(states[m], steps[m]);
    }
  }

  lemma {:induction false} StampStays(states: seq<Sys>, steps: seq<Step>, rule: (Sys, Step) -> bool, from: nat, i: nat, phase: Phase)
    requires IsRun(states, steps, rule) && from <= i < |states|
    requires forall k :: from <= k <= i ==> states[k].row.Some? && states[k].row.value.phase == phase
    ensures states[i].row.value.phaseChangedAt == states[from].row.value.phaseChangedAt
  {
    hide Enabled, Apply;
    if from < i {
      var m := i - 1;
      StampStays(states, steps, rule, from, m, phase);
      assert Next(states[m], steps[m], states[m + 1]);
      PhaseStep(states[m], steps[m]);
    }
  }

  /** And the other way round, whatever the lag: a live, idle row whose stored phase has been
      STANDBY for longer than the TTL is caught. */
  lemma ArchiveTtlFires(states: seq<Sys>, steps: seq<Step>, rule: (Sys, Step) -> bool, from: nat, i: nat, now: int, ttl: int)
    requires IsRun(states, steps, rule) && from <= i < |states|
    requires forall k :: from <= k <= i ==> states[k].row.Some? && states[k].row.value.phase == Phase.Standby
    requires states[from].now < now - ttl
    requires Live(states[i].row) && states[i].row.value.operation == NoOperation
    ensures states[i].row.value.phaseChangedAt.Some? && states[i].row.value.phaseChangedAt.value < now - ttl
    ensures ArchiveExpired(states[i].row.value, now, ttl)
  {
    StampsArePast(states, steps, rule, from);
    StampStays(states, steps, rule, from, i, Phase.Standby);
  }

  /** And stamps do lag: a tick loads, executes for a minute, and saves a new phase as of its start. */
  lemma StampCanLag()
    ensures exists s, step, s' :: Reachable(s, Life.Faultless) && Next(s, step, s') && !CommitsWithin(s, step, s', 59)
  {
    hide Plan, DoLoad, DoAct, DoObserveWrite;
    var late := Life.S6.(now := 60);
    Life.ReachS6();
    Reach(Life.S6, Elapse(60), late, Life.Faultless);
    var step := Save(0, "d");
    assert Next(late, step, Apply(late, step)) && !CommitsWithin(late, step, Apply(late, step), 59);
  }

  /** Even behind the load of the tick that saves: an idle tick opens the transaction, ten
      minutes later a tick loads, and saves within the same second. */
  lemma StampCanPredateLoad()
    ensures exists s, step, s' ::
              && Reachable(s, Life.Faultless) && Next(s, step, s') && ChangesPhase(s, step, s')
              && s.wc.Busy? && s.now == 600 && s'.row.value.phaseChangedAt == Some(0)
  {
    hide Reachable, DoAct, DoObserveWrite;
    var open := Life.S5.(began := Some(0));
    var later := open.(now := 600);
    Life.ReachS5();
    Reach(Life.S5, Statement, open, Life.Faultless);
    Reach(open, Elapse(600), later, Life.Faultless);
    Life.ReachLoaded(later, "c", 700, Life.Faultless);
    var loaded := later.(wc := Busy(Life.T1), used := Life.U1 + {"c"});
    assert Apply(later, Load("c", 700)) == loaded;
    assert ChangesPhase(loaded, Save(0, "d"), Apply(loaded, Save(0, "d")));
  }
}
