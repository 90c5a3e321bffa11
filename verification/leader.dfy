/** pg_leader.py over a re-entrant session lock, and the gate of base.py before each reconcile. */
module LeaderModel {
  import opened Domain

  type ElectorId = nat

  /** The advisory lock: the session that holds it, how often. */
  datatype Lock = Lock(holder: Option<ElectorId>, count: nat)

  const FREE := Lock(None, 0)

  /** pg_try_advisory_lock: granted again to the session that has it. */
  function TryLock(lock: Lock, me: ElectorId): (Lock, bool) {
    if lock.holder.None? || lock.holder == Some(me) then (Lock(Some(me), lock.count + 1), true) else (lock, false)
  }

  /** pg_advisory_unlock takes back one grant. */
  function Unlock(lock: Lock, me: ElectorId): (Lock, bool) {
    if lock.holder != Some(me) then (lock, false)
    else if lock.count <= 1 then (FREE, true)
    else (lock.(count := lock.count - 1), true)
  }

  /** A session that ends takes all its grants with it. */
  function Dropped(lock: Lock, me: ElectorId): Lock {
    if lock.holder == Some(me) then FREE else lock
  }

  /** A query is answered, or it times out or fails, in which case the server may still have run it. */
  datatype Reply = Answered | Unanswered(executed: bool)

  function TryAcquire(lock: Lock, isLeader: bool, me: ElectorId, reply: Reply): (Lock, bool) {
    if isLeader then (lock, true)
    else if reply.Answered? then TryLock(lock, me)
    else (if reply.executed then TryLock(lock, me).0 else lock, false)
  }

  function VerifyHolding(lock: Lock, isLeader: bool, me: ElectorId, reply: Reply): bool {
    isLeader && reply.Answered? && lock.holder == Some(me)
  }

  function Release(lock: Lock, isLeader: bool, me: ElectorId, reply: Reply): (Lock, bool) {
    if !isLeader then (lock, false)
    else (if reply.Answered? || reply.executed then Unlock(lock, me).0 else lock, false)
  }

  class Database {
    var lock: Lock

    constructor ()
      ensures lock == FREE
    {
      lock := FREE;
    }
  }

  class LeaderElection {
    const me: ElectorId
    const db: Database
    var isLeader: bool
    var wasLeader: bool

    constructor (me: ElectorId, db: Database)
      ensures this.me == me && this.db == db && !isLeader && !wasLeader
    {
      this.me, this.db, isLeader, wasLeader := me, db, false, false;
    }

    method Acquire(reply: Reply) returns (acquired: bool)
      modifies this, db
      ensures (db.lock, isLeader) == TryAcquire(old(db.lock), old(isLeader), me, reply)
      ensures acquired == isLeader
      ensures !old(isLeader) ==>
                (acquired <==> reply.Answered? && (old(db.lock).holder.None? || old(db.lock).holder == Some(me)))
      ensures !old(isLeader) && acquired ==> db.lock == Lock(Some(me), old(db.lock).count + 1)
    {
      if isLeader {
        return true;
      }
      var (lock, granted) := TryLock(db.lock, me);
      if reply.Answered? {
        db.lock, acquired := lock, granted;
      } else {
        if reply.executed {
          db.lock := lock;
        }
        acquired := false;
      }
      isLeader := acquired;
      wasLeader := isLeader;
    }

    method Verify(reply: Reply) returns (holding: bool)
      modifies this
      ensures holding == isLeader == VerifyHolding(db.lock, old(isLeader), me, reply)
    {
      if !isLeader {
        return false;
      }
      if reply.Unanswered? {
        isLeader := false;
        return false;
      }
      holding := db.lock.holder == Some(me);
      if !holding {
        isLeader := false;
        wasLeader := false;
      }
    }

    method GiveUp(reply: Reply)
      modifies this, db
      ensures (db.lock, isLeader) == Release(old(db.lock), old(isLeader), me, reply)
    {
      if !isLeader {
        return;
      }
      if reply.Answered? || reply.executed {
        var (lock, released) := Unlock(db.lock, me);
        db.lock := lock;
      }
      isLeader := false;
    }

    /** `_execute_reconcile` up to the call of `reconcile`. */
    method ExecuteReconcile(reply: Reply) returns (started: bool)
      modifies this
      ensures started == isLeader == VerifyHolding(db.lock, old(isLeader), me, reply)
      ensures started ==> db.lock.holder == Some(me)
    {
      var holding := Verify(reply);
      if !holding {
        return false;
      }
      return true;
    }
  }

  // ----- any number of electors -----

  datatype State = State(lock: Lock, leaders: set<ElectorId>)

  /** Gate is the verification before a reconcile, which starts if it succeeds. */
  datatype Step =
    | Acquire(me: ElectorId, reply: Reply)
    | Gate(me: ElectorId, reply: Reply)
    | GiveUp(me: ElectorId, reply: Reply)
    | LoseConnection(me: ElectorId)

  function With(leaders: set<ElectorId>, me: ElectorId, isLeader: bool): set<ElectorId> {
    if isLeader then leaders + {me} else leaders - {me}
  }

  function Apply(s: State, step: Step): State {
    var isLeader := step.me in s.leaders;
    match step
    case Acquire(me, reply) =>
      var (lock, leads) := TryAcquire(s.lock, isLeader, me, reply);
      State(lock, With(s.leaders, me, leads))
    case Gate(me, reply) => s.(leaders := With(s.leaders, me, VerifyHolding(s.lock, isLeader, me, reply)))
    case GiveUp(me, reply) =>
      var (lock, leads) := Release(s.lock, isLeader, me, reply);
      State(lock, With(s.leaders, me, leads))
    case LoseConnection(me) => s.(lock := Dropped(s.lock, me))
  }

  ghost predicate IsRun(states: seq<State>, steps: seq<Step>) {
    |states| == |steps| + 1 && states[0] == State(FREE, {})
    && forall i :: 0 <= i < |steps| ==> states[i + 1] == Apply(states[i], steps[i])
  }

  predicate Starts(s: State, step: Step, me: ElectorId) {
    step.Gate? && step.me == me && VerifyHolding(s.lock, me in s.leaders, me, step.reply)
  }

  /** A step by which `me` can lose the lock. */
  predicate LetsGo(step: Step, me: ElectorId) {
    step.me == me && (step.GiveUp? || step.LoseConnection?)
  }

  lemma StartsHolding(s: State, step: Step, me: ElectorId)
    requires Starts(s, step, me)
    ensures s.lock.holder == Some(me) && Apply(s, step).lock.holder == Some(me)
  {
  }

  /** Only its own release or the end of its session takes the lock from an elector. */
  lemma {:induction false} HolderStays(states: seq<State>, steps: seq<Step>, i: nat, j: nat, me: ElectorId)
    requires IsRun(states, steps) && i <= j < |states| && states[i].lock.holder == Some(me)
    requires forall k :: i <= k < j ==> !LetsGo(steps[k], me)
    ensures states[j].lock.holder == Some(me)
  {
    if i < j {
      HolderStays(states, steps, i, j - 1, me);
      var m := j - 1;
      assert states[m + 1] == Apply(states[m], steps[m]) && !LetsGo(steps[m], me);
    }
  }

  /** A reconcile starts only while its session holds the lock, and between starts of two
      different electors the first has released it or lost its connection. */
  lemma NoTwoLeaders(states: seq<State>, steps: seq<Step>, i: nat, j: nat, first: ElectorId, second: ElectorId)
    requires IsRun(states, steps) && i < j < |steps| && first != second
    requires Starts(states[i], steps[i], first) && Starts(states[j], steps[j], second)
    ensures states[i].lock.holder == Some(first) && states[j].lock.holder == Some(second)
    ensures exists k :: i < k < j && LetsGo(steps[k], first)
  {
    StartsHolding(states[i], steps[i], first);
    StartsHolding(states[j], steps[j], second);
    assert states[i + 1] == Apply(states[i], steps[i]);
    if forall k :: i < k < j ==> !LetsGo(steps[k], first) {
      HolderStays(states, steps, i + 1, j, first);
      assert false;
    }
  }

  /** However often it was granted, a lock whose holder loses its connection goes to whoever asks
      next and is answered, and until then an elector that asks for it in vain leads nothing. */
  lemma Failover(s: State, me: ElectorId, other: ElectorId, reply: Reply)
    requires s.lock.holder == Some(me) && other != me && other !in s.leaders
    ensures var lost := Apply(s, LoseConnection(me));
            && lost.lock == FREE && lost.leaders == s.leaders
            && (reply.Answered? ==>
                  Apply(lost, Acquire(other, reply)) == State(Lock(Some(other), 1), s.leaders + {other})
                  && Starts(Apply(lost, Acquire(other, reply)), Gate(other, Answered), other))
    ensures Apply(s, Acquire(other, reply)) == s
    ensures !Starts(Apply(s, LoseConnection(me)), Gate(me, reply), me)
  {
  }

  // ----- grants that pile up -----

  /** The holder knows that it is the leader, and one release is enough. */
  predicate Clean(s: State) {
    if s.lock.holder.Some? then s.lock.count == 1 && s.lock.holder.value in s.leaders else s.lock.count == 0
  }

  /** A step after which a session holds the lock without its elector believing it. */
  predicate Confuses(s: State, step: Step) {
    (step.Acquire? || step.Gate? || step.GiveUp?) && step.reply.Unanswered?
    && (if step.Acquire? then step.me !in s.leaders && s.lock.holder.None? && step.reply.executed
        else step.me in s.leaders && s.lock.holder == Some(step.me) && (step.GiveUp? ==> !step.reply.executed))
  }

  /** The lock stays clean exactly through the steps that confuse nobody. */
  lemma CleanIff(s: State, step: Step)
    requires Clean(s)
    ensures Clean(Apply(s, step)) <==> !Confuses(s, step)
  {
  }

  predicate AllAnswered(steps: seq<Step>) {
    forall step :: step in steps && !step.LoseConnection? ==> step.reply.Answered?
  }

  /** Without timeouts and errors the lock is never granted twice, and one release frees it. */
  lemma {:induction false} OneReleaseFrees(states: seq<State>, steps: seq<Step>, i: nat, me: ElectorId)
    requires IsRun(states, steps) && AllAnswered(steps) && i < |states|
    ensures Clean(states[i]) && states[i].lock.count <= 1
    ensures states[i].lock.holder == Some(me) ==> Apply(states[i], GiveUp(me, Answered)).lock == FREE
  {
    if i > 0 {
      var m := i - 1;
      OneReleaseFrees(states, steps, m, me);
      assert states[m + 1] == Apply(states[m], steps[m]) && steps[m] in steps;
      CleanIff(states[m], steps[m]);
    }
  }

  /** With them it can be: a verification times out, the elector acquires again, and its release
      leaves the lock with a session that does not know about it, so nobody can lead. */
  lemma OneReleaseIsNotEnough() returns (states: seq<State>, steps: seq<Step>)
    ensures IsRun(states, steps)
    ensures var end := states[|steps|];
            && end.lock == Lock(Some(0), 1) && end.leaders == {}
            && forall other: ElectorId, reply :: other != 0 ==> Apply(end, Acquire(other, reply)) == end
  {
    steps := [Acquire(0, Answered), Gate(0, Unanswered(true)), Acquire(0, Answered), GiveUp(0, Answered)];
    states := [State(FREE, {}), State(Lock(Some(0), 1), {0}), State(Lock(Some(0), 1), {}), State(Lock(Some(0), 2), {0}),
               State(Lock(Some(0), 1), {})];
  }
}
