/** Docker and the bucket as they are: flat maps from names to things, shared by all
    workspaces. Names keep the workspaces apart. */
module WorldModel {
  import opened Domain
  import opened Archive
  import opened Actuator
  import opened Naming

  /** `metas[key]` is the object stored under `key` + ".meta". */
  datatype World = World(
    containers: map<string, bool>,
    volumes: map<string, Home>,
    archives: map<string, Blob>,
    metas: map<string, Digest>
  )

  predicate Owned(prefix: string, id: string, key: string) {
    var from := |prefix| + |id| + 1;
    from + |TAR_SUFFIX| <= |key| && key == ArchiveKey(prefix, id, key[from..|key| - |TAR_SUFFIX|])
  }

  function OpIn(prefix: string, id: string, key: string): OpId
    requires Owned(prefix, id, key)
  {
    key[|prefix| + |id| + 1..|key| - |TAR_SUFFIX|]
  }

  /** The objects of one workspace, by the op id in their key. */
  function ByOp<V>(prefix: string, id: string, objects: map<string, V>): map<OpId, V> {
    map key | key in objects && Owned(prefix, id, key) :: OpIn(prefix, id, key) := objects[key]
  }

  /** One workspace's share of the world. */
  function View(prefix: string, id: string, w: World): Resources {
    var c, v := ContainerName(prefix, id), VolumeName(prefix, id);
    Resources(if c in w.containers then Some(w.containers[c]) else None,
              if v in w.volumes then Some(w.volumes[v]) else None,
              ByOp(prefix, id, w.archives),
              ByOp(prefix, id, w.metas))
  }

  lemma ByOpAt<V>(prefix: string, id: string, objects: map<string, V>, op: OpId)
    ensures op in ByOp(prefix, id, objects) <==> ArchiveKey(prefix, id, op) in objects
    ensures op in ByOp(prefix, id, objects) ==> ByOp(prefix, id, objects)[op] == objects[ArchiveKey(prefix, id, op)]
  {
    var key := ArchiveKey(prefix, id, op);
    assert key[|prefix| + |id| + 1..|key| - |TAR_SUFFIX|] == op;
  }

  /** Writing one object changes the writer's share at that op id and nobody else's. */
  lemma ByOpPut<V>(prefix: string, id: string, op: OpId, objects: map<string, V>, value: V)
    ensures ByOp(prefix, id, objects[ArchiveKey(prefix, id, op) := value]) == ByOp(prefix, id, objects)[op := value]
    ensures Plain(id) ==> forall other :: Plain(other) && other != id ==>
              ByOp(prefix, other, objects[ArchiveKey(prefix, id, op) := value]) == ByOp(prefix, other, objects)
  {
    var after := objects[ArchiveKey(prefix, id, op) := value];
    forall o ensures (o in ByOp(prefix, id, after) <==> o in ByOp(prefix, id, objects)[op := value])
                     && (o in ByOp(prefix, id, after) ==> ByOp(prefix, id, after)[o] == ByOp(prefix, id, objects)[op := value][o])
    {
      ByOpAt(prefix, id, after, o);
      ByOpAt(prefix, id, objects, o);
      if ArchiveKey(prefix, id, o) == ArchiveKey(prefix, id, op) {
        SameKeySameOp(prefix, id, o, op);
      }
    }
    forall other | Plain(id) && Plain(other) && other != id
      ensures ByOp(prefix, other, after) == ByOp(prefix, other, objects)
    {
      forall o ensures (o in ByOp(prefix, other, after) <==> o in ByOp(prefix, other, objects))
                       && (o in ByOp(prefix, other, after) ==> ByOp(prefix, other, after)[o] == ByOp(prefix, other, objects)[o])
      {
        ByOpAt(prefix, other, after, o);
        ByOpAt(prefix, other, objects, o);
        if ArchiveKey(prefix, other, o) == ArchiveKey(prefix, id, op) {
          ArchiveKeysInjective(prefix, other, o, id, op);
        }
      }
    }
  }

  lemma SameKeySameOp(prefix: string, id: string, op1: OpId, op2: OpId)
    requires ArchiveKey(prefix, id, op1) == ArchiveKey(prefix, id, op2)
    ensures op1 == op2
  {
    var key := ArchiveKey(prefix, id, op1);
    var from := |prefix| + |id| + 1;
    assert key[from..|key| - |TAR_SUFFIX|] == op1;
    assert key[from..|key| - |TAR_SUFFIX|] == op2;
  }

  /** The world after one effect of `id`'s tick, applied through its names. */
  function WriteBack(prefix: string, id: string, w: World, res: Resources, op: OpId): World {
    var c, v, key := ContainerName(prefix, id), VolumeName(prefix, id), ArchiveKey(prefix, id, op);
    World(if res.container.Some? then w.containers[c := res.container.value] else w.containers - {c},
          if res.volume.Some? then w.volumes[v := res.volume.value] else w.volumes - {v},
          if op in res.tars then w.archives[key := res.tars[op]] else w.archives,
          if op in res.metas then w.metas[key := res.metas[op]] else w.metas)
  }

  /** `res` is `was` but for the container, the volume and the slot under `op`. */
  predicate DiffersAt(was: Resources, res: Resources, op: OpId) {
    && (op in was.tars ==> op in res.tars) && (op in was.metas ==> op in res.metas)
    && res.tars == (if op in res.tars then was.tars[op := res.tars[op]] else was.tars)
    && res.metas == (if op in res.metas then was.metas[op := res.metas[op]] else was.metas)
  }

  /** What is written back is what is read again. */
  lemma WriteBackReadsBack(prefix: string, id: string, w: World, res: Resources, op: OpId)
    requires DiffersAt(View(prefix, id, w), res, op)
    ensures View(prefix, id, WriteBack(prefix, id, w, res, op)) == res
  {
    var w' := WriteBack(prefix, id, w, res, op);
    assert ByOp(prefix, id, w'.archives) == res.tars by {
      if op in res.tars {
        ByOpPut(prefix, id, op, w.archives, res.tars[op]);
      }
    }
    assert ByOp(prefix, id, w'.metas) == res.metas by {
      if op in res.metas {
        ByOpPut(prefix, id, op, w.metas, res.metas[op]);
      }
    }
  }

  /** And no other workspace reads anything else than before. */
  lemma WriteBackSparesOthers(prefix: string, id: string, w: World, res: Resources, op: OpId, other: string)
    requires Plain(id) && Plain(other) && other != id
    ensures View(prefix, other, WriteBack(prefix, id, w, res, op)) == View(prefix, other, w)
  {
    var w' := WriteBack(prefix, id, w, res, op);
    NamesInjective(prefix, id, other);
    assert ByOp(prefix, other, w'.archives) == ByOp(prefix, other, w.archives) by {
      if op in res.tars {
        ByOpPut(prefix, id, op, w.archives, res.tars[op]);
      }
    }
    assert ByOp(prefix, other, w'.metas) == ByOp(prefix, other, w.metas) by {
      if op in res.metas {
        ByOpPut(prefix, id, op, w.metas, res.metas[op]);
      }
    }
  }

  // ----- the parallel part of a tick -----

  /** What one workspace's execution can do next. */
  datatype Move = Act(choice: Choice) | Abandon | Retry | GiveUp

  function MoveTick(res: Resources, tick: Tick, move: Move): (Resources, Tick) {
    match move
    case Act(choice) => Effect(res, tick, choice)
    case Abandon => (res, if tick.pc.Finished? then tick else tick.(pc := Failed))
    case Retry => (res, if tick.pc.Failed? then tick.(pc := Enter) else tick)
    case GiveUp => (res, if tick.pc.Failed? then tick.(pc := Finished) else tick)
  }

  /** A workspace on its own. */
  function RunAlone(res: Resources, tick: Tick, moves: seq<Move>): (Resources, Tick) {
    if moves == [] then (res, tick)
    else
      var (res', tick') := RunAlone(res, tick, moves[..|moves| - 1]);
      MoveTick(res', tick', moves[|moves| - 1])
  }

  datatype Turn = Turn(id: string, move: Move)

  function TakeTurn(prefix: string, w: World, ticks: map<string, Tick>, turn: Turn): (World, map<string, Tick>)
    requires turn.id in ticks
  {
    var (res, tick) := MoveTick(View(prefix, turn.id, w), ticks[turn.id], turn.move);
    (WriteBack(prefix, turn.id, w, res, ticks[turn.id].opId), ticks[turn.id := tick])
  }

  /** All workspaces of a batch, their turns interleaved in any way. */
  function RunTogether(prefix: string, w: World, ticks: map<string, Tick>, turns: seq<Turn>): (r: (World, map<string, Tick>))
    requires forall turn :: turn in turns ==> turn.id in ticks
    ensures r.1.Keys == ticks.Keys
  {
    if turns == [] then (w, ticks)
    else
      var (w', ticks') := RunTogether(prefix, w, ticks, turns[..|turns| - 1]);
      TakeTurn(prefix, w', ticks', turns[|turns| - 1])
  }

  function MovesOf(id: string, turns: seq<Turn>): seq<Move> {
    if turns == [] then []
    else
      var init, last := turns[..|turns| - 1], turns[|turns| - 1];
      MovesOf(id, init) + (if last.id == id then [last.move] else [])
  }

  /** An effect only ever writes the slot under its own op id. */
  lemma MoveWritesOwnSlot(res: Resources, tick: Tick, move: Move)
    ensures var (res', tick') := MoveTick(res, tick, move);
            tick'.opId == tick.opId && DiffersAt(res, res', tick.opId)
  {
  }

  /** One turn is a move of its workspace, and nothing to any other. */
  lemma TurnIsLocal(prefix: string, w: World, ticks: map<string, Tick>, turn: Turn, id: string)
    requires turn.id in ticks && Plain(turn.id) && Plain(id)
    ensures var (w', ticks') := TakeTurn(prefix, w, ticks, turn);
            if turn.id == id then (View(prefix, id, w'), ticks'[id]) == MoveTick(View(prefix, id, w), ticks[id], turn.move)
            else View(prefix, id, w') == View(prefix, id, w) && (id in ticks ==> ticks'[id] == ticks[id])
  {
    var view, tick := View(prefix, turn.id, w), ticks[turn.id];
    var (res, _) := MoveTick(view, tick, turn.move);
    MoveWritesOwnSlot(view, tick, turn.move);
    if turn.id == id {
      WriteBackReadsBack(prefix, id, w, res, tick.opId);
    } else {
      WriteBackSparesOthers(prefix, turn.id, w, res, tick.opId, id);
    }
  }

  lemma RunAloneLast(res: Resources, tick: Tick, moves: seq<Move>, move: Move)
    ensures RunAlone(res, tick, moves + [move]) ==
            MoveTick(RunAlone(res, tick, moves).0, RunAlone(res, tick, moves).1, move)
  {
    assert (moves + [move])[..|moves|] == moves;
  }

  lemma RunTogetherLast(prefix: string, w: World, ticks: map<string, Tick>, turns: seq<Turn>)
    requires turns != [] && forall turn :: turn in turns ==> turn.id in ticks
    ensures var (w', ticks') := RunTogether(prefix, w, ticks, turns[..|turns| - 1]);
            RunTogether(prefix, w, ticks, turns) == TakeTurn(prefix, w', ticks', turns[|turns| - 1])
  {
  }

  /** However a batch is interleaved, each workspace ends as if it had run alone with its own
      moves, whatever happened to the others, and workspaces outside the batch are untouched. */
  lemma {:induction false} BatchIndependence(prefix: string, w: World, ticks: map<string, Tick>, turns: seq<Turn>, id: string)
    requires forall turn :: turn in turns ==> turn.id in ticks
    requires forall other :: other in ticks ==> Plain(other)
    requires Plain(id)
    ensures var end := RunTogether(prefix, w, ticks, turns);
            if id in ticks then (View(prefix, id, end.0), end.1[id]) == RunAlone(View(prefix, id, w), ticks[id], MovesOf(id, turns))
            else View(prefix, id, end.0) == View(prefix, id, w)
  {
    if turns != [] {
      var init, last := turns[..|turns| - 1], turns[|turns| - 1];
      BatchIndependence(prefix, w, ticks, init, id);
      RunTogetherLast(prefix, w, ticks, turns);
      var (w', ticks') := RunTogether(prefix, w, ticks, init);
      TurnIsLocal(prefix, w', ticks', last, id);
      if last.id == id {
        RunAloneLast(View(prefix, id, w), ticks[id], MovesOf(id, init), last.move);
      } else {
        assert MovesOf(id, turns) == MovesOf(id, init);
      }
    }
  }

  /** Two interleavings in which every workspace makes the same moves give the same result. */
  lemma InterleavingsAgree(prefix: string, w: World, ticks: map<string, Tick>, turns1: seq<Turn>, turns2: seq<Turn>, id: string)
    requires forall turn :: turn in turns1 + turns2 ==> turn.id in ticks
    requires forall other :: other in ticks ==> Plain(other)
    requires Plain(id) && MovesOf(id, turns1) == MovesOf(id, turns2)
    ensures var (w1, ticks1) := RunTogether(prefix, w, ticks, turns1);
            var (w2, ticks2) := RunTogether(prefix, w, ticks, turns2);
            View(prefix, id, w1) == View(prefix, id, w2) && (id in ticks ==> ticks1[id] == ticks2[id])
  {
    assert forall turn :: turn in turns1 ==> turn in turns1 + turns2;
    assert forall turn :: turn in turns2 ==> turn in turns1 + turns2;
    BatchIndependence(prefix, w, ticks, turns1, id);
    BatchIndependence(prefix, w, ticks, turns2, id);
  }
}
