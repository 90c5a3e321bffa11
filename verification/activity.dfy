/** activity.py and ActivityStore of redis_kv.py: last-seen times on their way to a shared store. */
module ActivityModel {
  import opened Domain

  type Times = map<string, real>

  function Get(times: Times, ws: string): real {
    if ws in times then times[ws] else 0.0
  }

  /** `record`: dropped if less than the throttle after the time that is buffered. */
  predicate Accepts(buffer: Times, throttle: real, ws: string, now: real) {
    now - Get(buffer, ws) >= throttle
  }

  function Recorded(buffer: Times, throttle: real, ws: string, now: real): Times {
    if Accepts(buffer, throttle, ws, now) then buffer[ws := now] else buffer
  }

  /** ZADD GT: new members are added, present ones only ever raised. */
  function Raised(store: Times, sent: Times): Times {
    map ws | ws in store.Keys + sent.Keys ::
      if ws !in sent || (ws in store && store[ws] >= sent[ws]) then store[ws] else sent[ws]
  }

  function Max(x: real, y: real): real {
    if x >= y then x else y
  }

  /** The merge after a failed flush. */
  function MergedBack(buffer: Times, snapshot: Times): Times {
    map ws | ws in buffer.Keys + snapshot.Keys ::
      if ws in snapshot then Max(snapshot[ws], Get(buffer, ws)) else buffer[ws]
  }

  datatype Call = Call(ws: string, now: real)

  function RecordedAll(buffer: Times, throttle: real, calls: seq<Call>): Times {
    if calls == [] then buffer
    else
      var last := calls[|calls| - 1];
      Recorded(RecordedAll(buffer, throttle, calls[..|calls| - 1]), throttle, last.ws, last.now)
  }

  class ActivityStore {
    var scores: Times

    constructor ()
      ensures scores == map[]
    {
      scores := map[];
    }

    method Update(activities: Times)
      modifies this
      ensures scores == Raised(old(scores), activities)
    {
      var todo := activities.Keys;
      while todo != {}
        invariant todo <= activities.Keys
        invariant scores == Raised(old(scores), map ws | ws in activities.Keys - todo :: activities[ws])
        decreases todo
      {
        var ws :| ws in todo;
        todo := todo - {ws};
        if ws !in scores || activities[ws] > scores[ws] {
          scores := scores[ws := activities[ws]];
        }
      }
      assert (map ws | ws in activities.Keys - todo :: activities[ws]) == activities;
    }
  }

  /** How the send ends; on an error the server may or may not have done it. */
  datatype Sending = Sent | RedisError(applied: bool)

  class ActivityBuffer {
    const throttle: real
    var buffer: Times

    constructor (throttle: real)
      ensures this.throttle == throttle && buffer == map[]
    {
      this.throttle, buffer := throttle, map[];
    }

    method Record(ws: string, now: real)
      modifies this
      ensures buffer == Recorded(old(buffer), throttle, ws, now)
      ensures ws in old(buffer) ==>
                buffer == if now - old(buffer)[ws] < throttle then old(buffer) else old(buffer)[ws := now]
      ensures ws !in old(buffer) ==> buffer == if now < throttle then old(buffer) else old(buffer)[ws := now]
    {
      var last := if ws in buffer then buffer[ws] else 0.0;
      if now - last < throttle {
        return;
      }
      buffer := buffer[ws := now];
    }

    /** `meanwhile` are the calls of `record` while the snapshot is being sent. */
    method Flush(store: ActivityStore, sending: Sending, meanwhile: seq<Call>) returns (flushed: nat)
      modifies this, store
      ensures var during := RecordedAll(map[], throttle, meanwhile);
              if old(buffer) == map[] then flushed == 0 && buffer == map[] && store.scores == old(store.scores)
              else
                && flushed == (if sending.Sent? then |old(buffer)| else 0)
                && buffer == (if sending.Sent? then during else MergedBack(during, old(buffer)))
                && store.scores == (if sending.Sent? || sending.applied then Raised(old(store.scores), old(buffer))
                                    else old(store.scores))
    {
      if buffer == map[] {
        return 0;
      }
      var snapshot := buffer;
      buffer := map[];
      for i := 0 to |meanwhile|
        invariant buffer == RecordedAll(map[], throttle, meanwhile[..i])
        invariant store.scores == old(store.scores)
      {
        assert meanwhile[..i + 1][..i] == meanwhile[..i];
        Record(meanwhile[i].ws, meanwhile[i].now);
      }
      assert meanwhile[..|meanwhile|] == meanwhile;
      if sending.Sent? || sending.applied {
        store.Update(snapshot);
      }
      if sending.Sent? {
        return |snapshot|;
      }
      MergeBack(snapshot);
      return 0;
    }

    method MergeBack(snapshot: Times)
      modifies this
      ensures buffer == MergedBack(old(buffer), snapshot)
    {
      var todo := snapshot.Keys;
      while todo != {}
        invariant todo <= snapshot.Keys
        invariant buffer.Keys == old(buffer).Keys + (snapshot.Keys - todo)
        invariant forall ws :: ws in buffer ==>
                    buffer[ws] == if ws in snapshot && ws !in todo then Max(snapshot[ws], Get(old(buffer), ws)) else old(buffer)[ws]
        decreases todo
      {
        var ws :| ws in todo;
        todo := todo - {ws};
        var existing := if ws in buffer then buffer[ws] else 0.0;
        buffer := buffer[ws := Max(snapshot[ws], existing)];
      }
    }
  }

  // ----- any number of processes sharing one store -----

  datatype Flight = Flight(from: nat, snapshot: Times)

  /** The buffers of the processes, the snapshots being sent, and the store. */
  datatype State = State(buffers: seq<Times>, flights: seq<Flight>, store: Times)

  datatype Step =
    | Record(proc: nat, ws: string, now: real)
    | Swap(proc: nat)
    | Land(flight: nat)
    | Fail(flight: nat, applied: bool)

  predicate Enabled(s: State, step: Step) {
    match step
    case Record(proc, _, _) => proc < |s.buffers|
    case Swap(proc) => proc < |s.buffers|
    case Land(flight) => flight < |s.flights|
    case Fail(flight, _) => flight < |s.flights| && s.flights[flight].from < |s.buffers|
  }

  function Apply(s: State, throttle: real, step: Step): State
    requires Enabled(s, step)
  {
    match step
    case Record(proc, ws, now) => s.(buffers := s.buffers[proc := Recorded(s.buffers[proc], throttle, ws, now)])
    case Swap(proc) => s.(buffers := s.buffers[proc := map[]], flights := s.flights + [Flight(proc, s.buffers[proc])])
    case Land(flight) =>
      s.(flights := s.flights[..flight] + s.flights[flight + 1..], store := Raised(s.store, s.flights[flight].snapshot))
    case Fail(flight, applied) =>
      var Flight(from, snapshot) := s.flights[flight];
      s.(flights := s.flights[..flight] + s.flights[flight + 1..],
         buffers := s.buffers[from := MergedBack(s.buffers[from], snapshot)],
         store := if applied then Raised(s.store, snapshot) else s.store)
  }

  predicate Has(times: Times, ws: string, t: real) {
    ws in times && times[ws] >= t
  }

  predicate InBuffer(s: State, proc: nat, ws: string, t: real) {
    proc < |s.buffers| && Has(s.buffers[proc], ws, t)
  }

  predicate InFlight(s: State, flight: nat, ws: string, t: real) {
    flight < |s.flights| && Has(s.flights[flight].snapshot, ws, t)
  }

  /** The high-water mark of a workspace is at least t: the greatest of its times in the
      buffers, the snapshots and the store, or 0. */
  ghost predicate MarkAtLeast(s: State, ws: string, t: real) {
    || t <= 0.0
    || (exists proc :: InBuffer(s, proc, ws, t))
    || (exists flight :: InFlight(s, flight, ws, t))
    || Has(s.store, ws, t)
  }

  predicate Takes(s: State, throttle: real, step: Step, ws: string) {
    step.Record? && step.ws == ws && Enabled(s, step) && Accepts(s.buffers[step.proc], throttle, ws, step.now)
  }

  lemma RaisedHas(store: Times, sent: Times, ws: string, t: real)
    ensures Has(Raised(store, sent), ws, t) <==> Has(store, ws, t) || Has(sent, ws, t)
  {
  }

  lemma MergedHas(buffer: Times, snapshot: Times, ws: string, t: real)
    requires t > 0.0
    ensures Has(MergedBack(buffer, snapshot), ws, t) <==> Has(buffer, ws, t) || Has(snapshot, ws, t)
  {
  }

  lemma MarkRecord(s: State, throttle: real, step: Step, ws: string, t: real)
    requires throttle >= 0.0 && step.Record? && Enabled(s, step)
    ensures MarkAtLeast(Apply(s, throttle, step), ws, t) <==>
            MarkAtLeast(s, ws, t) || (Takes(s, throttle, step, ws) && step.now >= t)
  {
    var s' := Apply(s, throttle, step);
    if t > 0.0 {
      forall proc: nat ensures InBuffer(s', proc, ws, t) <==>
          InBuffer(s, proc, ws, t) || (proc == step.proc && Takes(s, throttle, step, ws) && step.now >= t) {
      }
      forall flight: nat ensures InFlight(s', flight, ws, t) <==> InFlight(s, flight, ws, t) {
      }
      if Takes(s, throttle, step, ws) && step.now >= t {
        assert InBuffer(s', step.proc, ws, t);
      }
    }
  }

  lemma MarkSwap(s: State, throttle: real, proc: nat, ws: string, t: real)
    requires proc < |s.buffers|
    ensures MarkAtLeast(Apply(s, throttle, Swap(proc)), ws, t) <==> MarkAtLeast(s, ws, t)
  {
    var s' := Apply(s, throttle, Swap(proc));
    forall p: nat ensures InBuffer(s, p, ws, t) <==> InBuffer(s', p, ws, t) || (p == proc && InFlight(s', |s.flights|, ws, t)) {
    }
    forall f: nat | f != |s.flights| ensures InFlight(s', f, ws, t) <==> InFlight(s, f, ws, t) {
    }
    if InFlight(s', |s.flights|, ws, t) {
      assert InBuffer(s, proc, ws, t);
    }
  }

  /** A snapshot leaves the flights; whoever keeps its times keeps the mark. */
  lemma MarkLand(s: State, s': State, flight: nat, ws: string, t: real)
    requires flight < |s.flights| && s'.flights == s.flights[..flight] + s.flights[flight + 1..]
    requires forall p: nat :: InBuffer(s, p, ws, t) ==> InBuffer(s', p, ws, t)
    requires Has(s.store, ws, t) ==> Has(s'.store, ws, t)
    requires Has(s'.store, ws, t) ==> Has(s.store, ws, t) || InFlight(s, flight, ws, t)
    requires forall p: nat :: InBuffer(s', p, ws, t) ==> InBuffer(s, p, ws, t) || InFlight(s, flight, ws, t)
    requires InFlight(s, flight, ws, t) ==> Has(s'.store, ws, t) || exists p: nat :: InBuffer(s', p, ws, t)
    ensures MarkAtLeast(s', ws, t) <==> MarkAtLeast(s, ws, t)
  {
    forall f: nat | f != flight ensures InFlight(s, f, ws, t) <==> InFlight(s', if f < flight then f else f - 1, ws, t) {
    }
    forall f: nat ensures InFlight(s', f, ws, t) <==> InFlight(s, if f < flight then f else f + 1, ws, t) {
    }
  }

  lemma MarkStep(s: State, throttle: real, step: Step, ws: string, t: real)
    requires throttle >= 0.0 && Enabled(s, step)
    ensures MarkAtLeast(Apply(s, throttle, step), ws, t) <==>
            MarkAtLeast(s, ws, t) || (Takes(s, throttle, step, ws) && step.now >= t)
  {
    var s' := Apply(s, throttle, step);
    match step
    case Record(_, _, _) => MarkRecord(s, throttle, step, ws, t);
    case Swap(proc) => MarkSwap(s, throttle, proc, ws, t);
    case Land(flight) =>
      RaisedHas(s.store, s.flights[flight].snapshot, ws, t);
      MarkLand(s, s', flight, ws, t);
    case Fail(flight, applied) =>
      if t > 0.0 {
        var Flight(from, snapshot) := s.flights[flight];
        RaisedHas(s.store, snapshot, ws, t);
        MergedHas(s.buffers[from], snapshot, ws, t);
        assert forall p: nat :: p != from ==> (InBuffer(s', p, ws, t) <==> InBuffer(s, p, ws, t));
        assert InBuffer(s', from, ws, t) <==> InBuffer(s, from, ws, t) || InFlight(s, flight, ws, t);
        MarkLand(s, s', flight, ws, t);
      }
  }

  predicate IsEmpty(s: State) {
    s.flights == [] && s.store == map[] && forall proc :: 0 <= proc < |s.buffers| ==> s.buffers[proc] == map[]
  }

  ghost predicate IsRun(states: seq<State>, steps: seq<Step>, throttle: real) {
    |states| == |steps| + 1 && IsEmpty(states[0])
    && forall i :: 0 <= i < |steps| ==> Enabled(states[i], steps[i]) && states[i + 1] == Apply(states[i], throttle, steps[i])
  }

  /** Step k of a run is an accepted record of `ws` at t or later. */
  predicate TakenAt(states: seq<State>, steps: seq<Step>, throttle: real, k: nat, ws: string, t: real) {
    k < |steps| && k < |states| && Takes(states[k], throttle, steps[k], ws) && steps[k].now >= t
  }

  /** However the buffers record, swap, send and merge back, the mark is the greatest time
      accepted so far: nothing is lost, nothing goes back, nothing is made up. */
  lemma {:induction false} MarkIsGreatestAccepted(states: seq<State>, steps: seq<Step>, throttle: real, i: nat, ws: string, t: real)
    requires IsRun(states, steps, throttle) && throttle >= 0.0 && i < |states|
    ensures MarkAtLeast(states[i], ws, t) <==> t <= 0.0 || exists k :: 0 <= k < i && TakenAt(states, steps, throttle, k, ws, t)
  {
    if i > 0 {
      var m := i - 1;
      MarkIsGreatestAccepted(states, steps, throttle, m, ws, t);
      MarkStep(states[m], throttle, steps[m], ws, t);
      assert TakenAt(states, steps, throttle, m, ws, t) <==> Takes(states[m], throttle, steps[m], ws) && steps[m].now >= t;
    }
  }

  lemma MarkNeverFalls(states: seq<State>, steps: seq<Step>, throttle: real, i: nat, j: nat, ws: string, t: real)
    requires IsRun(states, steps, throttle) && throttle >= 0.0 && i <= j < |states| && MarkAtLeast(states[i], ws, t)
    ensures MarkAtLeast(states[j], ws, t)
  {
    MarkIsGreatestAccepted(states, steps, throttle, i, ws, t);
    MarkIsGreatestAccepted(states, steps, throttle, j, ws, t);
  }

  /** After every call, accepted or throttled, and from then on, the mark is less than the
      throttle behind the time of the call. */
  lemma MarkKeepsUp(states: seq<State>, steps: seq<Step>, throttle: real, k: nat, i: nat) returns (t: real)
    requires IsRun(states, steps, throttle) && throttle >= 0.0 && k < i < |states| && steps[k].Record?
    ensures MarkAtLeast(states[i], steps[k].ws, t) && (t >= steps[k].now || steps[k].now - t < throttle)
  {
    var Record(proc, ws, now) := steps[k];
    assert Enabled(states[k], steps[k]);
    if Accepts(states[k].buffers[proc], throttle, ws, now) {
      t := now;
      assert TakenAt(states, steps, throttle, k, ws, t);
      MarkIsGreatestAccepted(states, steps, throttle, i, ws, t);
    } else {
      t := Get(states[k].buffers[proc], ws);
      assert ws in states[k].buffers[proc] ==> InBuffer(states[k], proc, ws, t);
      assert MarkAtLeast(states[k], ws, t);
      MarkNeverFalls(states, steps, throttle, k, i, ws, t);
    }
  }

  /** A process forgets a time only by swapping its buffer. */
  lemma {:induction false} BufferKeeps(states: seq<State>, steps: seq<Step>, throttle: real, i: nat, j: nat, proc: nat, ws: string, t: real)
    requires IsRun(states, steps, throttle) && throttle >= 0.0 && i <= j < |states| && t > 0.0
    requires InBuffer(states[i], proc, ws, t)
    requires forall k :: i <= k < j ==> steps[k] != Swap(proc)
    ensures InBuffer(states[j], proc, ws, t)
  {
    if i < j {
      var m := j - 1;
      BufferKeeps(states, steps, throttle, i, m, proc, ws, t);
      assert Enabled(states[m], steps[m]) && states[m + 1] == Apply(states[m], throttle, steps[m]) && steps[m] != Swap(proc);
      if steps[m].Fail? {
        var Flight(from, snapshot) := states[m].flights[steps[m].flight];
        MergedHas(states[m].buffers[from], snapshot, ws, t);
      }
    }
  }

  /** Between two flushes of a process, the times it accepts for a workspace are the throttle apart. */
  lemma AcceptedApart(states: seq<State>, steps: seq<Step>, throttle: real, i: nat, j: nat)
    requires IsRun(states, steps, throttle) && throttle >= 0.0 && i < j < |steps|
    requires steps[i].Record? && steps[j].Record? && steps[i].ws == steps[j].ws && steps[i].proc == steps[j].proc
    requires Takes(states[i], throttle, steps[i], steps[i].ws) && Takes(states[j], throttle, steps[j], steps[j].ws)
    requires steps[i].now > 0.0 && forall k :: i < k < j ==> steps[k] != Swap(steps[i].proc)
    ensures steps[j].now - steps[i].now >= throttle
  {
    var Record(proc, ws, now) := steps[i];
    assert states[i + 1] == Apply(states[i], throttle, steps[i]);
    assert InBuffer(states[i + 1], proc, ws, now);
    BufferKeeps(states, steps, throttle, i + 1, j, proc, ws, now);
  }

  function ApplyAll(s: State, throttle: real, steps: seq<Step>): Option<State> {
    if steps == [] then Some(s)
    else
      var before := ApplyAll(s, throttle, steps[..|steps| - 1]);
      if before.Some? && Enabled(before.value, steps[|steps| - 1]) then Some(Apply(before.value, throttle, steps[|steps| - 1]))
      else None
  }

  function Records(proc: nat, calls: seq<Call>): seq<Step> {
    seq(|calls|, i requires 0 <= i < |calls| => Record(proc, calls[i].ws, calls[i].now))
  }

  lemma {:induction false} RecordsApply(s: State, throttle: real, proc: nat, calls: seq<Call>)
    requires proc < |s.buffers|
    ensures ApplyAll(s, throttle, Records(proc, calls)) ==
            Some(s.(buffers := s.buffers[proc := RecordedAll(s.buffers[proc], throttle, calls)]))
  {
    if calls == [] {
      assert s.buffers[proc := s.buffers[proc]] == s.buffers;
    } else {
      var init, last := calls[..|calls| - 1], calls[|calls| - 1];
      RecordsApply(s, throttle, proc, init);
      assert Records(proc, calls)[..|calls| - 1] == Records(proc, init);
      assert Records(proc, calls)[|calls| - 1] == Record(proc, last.ws, last.now);
      var before := RecordedAll(s.buffers[proc], throttle, init);
      assert s.buffers[proc := before][proc := Recorded(before, throttle, last.ws, last.now)] ==
             s.buffers[proc := Recorded(before, throttle, last.ws, last.now)];
    }
  }

  lemma {:induction false} ApplyConcat(s: State, throttle: real, steps: seq<Step>, more: seq<Step>)
    requires ApplyAll(s, throttle, steps).Some?
    ensures ApplyAll(s, throttle, steps + more) == ApplyAll(ApplyAll(s, throttle, steps).value, throttle, more)
  {
    hide Apply, Enabled;
    if more == [] {
      assert steps + more == steps;
    } else {
      ApplyConcat(s, throttle, steps, more[..|more| - 1]);
      assert (steps + more)[..|steps + more| - 1] == steps + more[..|more| - 1];
    }
  }

  /** What `Flush` does with a buffer that is not empty is a run of the steps above: swap, record,
      land or fail. */
  lemma FlushIsARun(s: State, throttle: real, proc: nat, sending: Sending, calls: seq<Call>)
    requires proc < |s.buffers| && s.flights == []
    ensures var last := if sending.Sent? then Land(0) else Fail(0, sending.applied);
            var during := RecordedAll(map[], throttle, calls);
            ApplyAll(s, throttle, [Swap(proc)] + Records(proc, calls) + [last]) ==
            Some(State(s.buffers[proc := if sending.Sent? then during else MergedBack(during, s.buffers[proc])], [],
                       if sending.Sent? || sending.applied then Raised(s.store, s.buffers[proc]) else s.store))
  {
    hide RecordedAll, Raised, MergedBack;
    var last := if sending.Sent? then Land(0) else Fail(0, sending.applied);
    var during := RecordedAll(map[], throttle, calls);
    var swapped := State(s.buffers[proc := map[]], [Flight(proc, s.buffers[proc])], s.store);
    var recorded := State(s.buffers[proc := during], [Flight(proc, s.buffers[proc])], s.store);
    LastApplies(s, throttle, [], Swap(proc));
    assert [] + [Swap(proc)] == [Swap(proc)] && s.flights + [Flight(proc, s.buffers[proc])] == [Flight(proc, s.buffers[proc])];
    RecordsApply(swapped, throttle, proc, calls);
    assert s.buffers[proc := map[]][proc := during] == s.buffers[proc := during];
    ApplyConcat(s, throttle, [Swap(proc)], Records(proc, calls));
    LastApplies(s, throttle, [Swap(proc)] + Records(proc, calls), last);
    assert s.buffers[proc := during][proc := MergedBack(during, s.buffers[proc])] == s.buffers[proc := MergedBack(during, s.buffers[proc])];
    assert Apply(recorded, throttle, last).flights == [];
  }

  lemma LastApplies(s: State, throttle: real, steps: seq<Step>, last: Step)
    requires ApplyAll(s, throttle, steps).Some? && Enabled(ApplyAll(s, throttle, steps).value, last)
    ensures ApplyAll(s, throttle, steps + [last]) == Some(Apply(ApplyAll(s, throttle, steps).value, throttle, last))
  {
    assert (steps + [last])[..|steps|] == steps;
  }

  // ----- from the store to the database -----

  /** `_sync_to_db` from the store as it was scanned: the column is overwritten. */
  function Overwritten(accessed: map<string, Option<real>>, scanned: Times): map<string, Option<real>> {
    map id | id in accessed :: if id in scanned then Some(scanned[id]) else accessed[id]
  }

  class ActivitySync {
    /** The last_access_at column. */
    var accessed: map<string, Option<real>>

    constructor (accessed: map<string, Option<real>>)
      ensures this.accessed == accessed
    {
      this.accessed := accessed;
    }

    /** `landed` is what other processes flush between the scan and the removal. Only workspaces
        that have a row are removed from the store. */
    method SyncToDb(store: ActivityStore, landed: Times) returns (synced: nat)
      modifies this, store
      ensures accessed == Overwritten(old(accessed), old(store.scores))
      ensures store.scores == Raised(old(store.scores), landed) - (old(store.scores).Keys * old(accessed).Keys)
      ensures synced == |old(store.scores).Keys * old(accessed).Keys|
    {
      var activities := store.scores;
      store.Update(landed);
      if activities == map[] {
        assert accessed == Overwritten(accessed, activities);
        assert activities.Keys * accessed.Keys == {};
        return 0;
      }
      var updated := activities.Keys * accessed.Keys;
      accessed := Overwritten(accessed, activities);
      store.scores := store.scores - updated;
      return |updated|;
    }
  }

  /** The database or the store knows of an access at t or later. */
  predicate Known(accessed: map<string, Option<real>>, store: Times, id: string, t: real) {
    (id in accessed && accessed[id].Some? && accessed[id].value >= t) || Has(store, id, t)
  }

  /** A sync makes up no access; and it keeps the latest one of a workspace exactly if no later one
      has landed in the store since the scan and the column has no later one already. */
  lemma SyncKeepsIff(accessed: map<string, Option<real>>, scanned: Times, landed: Times, id: string)
    requires id in accessed && id in scanned
    ensures var accessed', store := Overwritten(accessed, scanned), Raised(scanned, landed);
            var store' := store - (scanned.Keys * accessed.Keys);
            && (forall t :: Known(accessed', store', id, t) ==> Known(accessed, store, id, t))
            && ((forall t :: Known(accessed, store, id, t) ==> Known(accessed', store', id, t)) <==>
                  (accessed[id].Some? ==> accessed[id].value <= scanned[id]) && (id in landed ==> landed[id] <= scanned[id]))
  {
    var accessed', store := Overwritten(accessed, scanned), Raised(scanned, landed);
    var store' := store - (scanned.Keys * accessed.Keys);
    if forall t :: Known(accessed, store, id, t) ==> Known(accessed', store', id, t) {
      if accessed[id].Some? {
        assert Known(accessed, store, id, accessed[id].value);
      }
      assert Known(accessed, store, id, store[id]);
    }
  }

  /** Other workspaces are as they were, whatever is swept along. */
  lemma SyncSparesOthers(accessed: map<string, Option<real>>, scanned: Times, landed: Times, id: string, t: real)
    requires id !in accessed || id !in scanned
    ensures var store := Raised(scanned, landed);
            Known(Overwritten(accessed, scanned), store - (scanned.Keys * accessed.Keys), id, t) <==> Known(accessed, store, id, t)
  {
  }
}
