/** scheduler_gc.py: what is listed and not protected is an orphan, and orphans are removed. */
module CollectorModel {
  import opened Domain
  import opened Archive
  import opened Actuator
  import opened System
  import opened Naming
  import opened WorldModel
  import opened WorkspaceControllerModel

  /** `list_all_archive_keys`. */
  function AllArchiveKeys(prefix: string, w: World): set<string> {
    set key | key in w.archives && StartsWith(key, prefix) && EndsWith(key, TAR_SUFFIX)
  }

  /** The UNION of `_get_protected_paths`. */
  function ProtectedPaths(prefix: string, rows: map<string, Row>): set<string> {
    (set id | id in rows && rows[id].deletedAt.None? && rows[id].archiveKey.Some? :: ArchiveKey(prefix, id, rows[id].archiveKey.value))
    + (set id | id in rows && rows[id].deletedAt.None? && rows[id].opId.Some? :: SqlPath(prefix, id, rows[id].opId.value))
  }

  function ValidIds(rows: map<string, Row>): set<string> {
    set id | id in rows && rows[id].deletedAt.None?
  }

  function RowOf(rows: map<string, Row>, id: string): Option<Row> {
    if id in rows then Some(rows[id]) else None
  }

  /** Over the whole table the SQL protects, of each workspace, exactly what the interleaved
      system protects of it. */
  lemma PathsAreProtected(prefix: string, rows: map<string, Row>, id: string, op: OpId)
    requires Plain(id) && forall other :: other in rows ==> Plain(other)
    ensures ArchiveKey(prefix, id, op) in ProtectedPaths(prefix, rows) <==> op in Protected(RowOf(rows, id))
  {
    var key := ArchiveKey(prefix, id, op);
    if key in ProtectedPaths(prefix, rows) {
      if other :| other in rows && rows[other].deletedAt.None? && rows[other].archiveKey.Some?
                  && key == ArchiveKey(prefix, other, rows[other].archiveKey.value)
      {
        ArchiveKeysInjective(prefix, id, op, other, rows[other].archiveKey.value);
      } else {
        var other :| other in rows && rows[other].deletedAt.None? && rows[other].opId.Some?
                     && key == SqlPath(prefix, other, rows[other].opId.value);
        SqlPathIsArchiveKey(prefix, other, rows[other].opId.value);
        ArchiveKeysInjective(prefix, id, op, other, rows[other].opId.value);
      }
    }
    if op in Protected(RowOf(rows, id)) {
      SqlPathIsArchiveKey(prefix, id, op);
    }
  }

  /** Of each workspace, the orphans of a whole cycle are the interleaved system's: what
      GcListKeys saw less what GcReadKeys protects. */
  lemma OrphansAgree(prefix: string, w: World, rows: map<string, Row>, id: string, op: OpId)
    requires Plain(id) && forall other :: other in rows ==> Plain(other)
    ensures ArchiveKey(prefix, id, op) in AllArchiveKeys(prefix, w) - ProtectedPaths(prefix, rows) <==>
            op in View(prefix, id, w).tars.Keys - Protected(RowOf(rows, id))
  {
    var key := ArchiveKey(prefix, id, op);
    ByOpAt(prefix, id, w.archives, op);
    PathsAreProtected(prefix, rows, id, op);
    KeyShape(prefix, id, op);
    assert key[..|prefix|] == prefix;
  }

  /** How the removal of one archive ends: both objects gone, or an error that leaves some of them. */
  datatype Deletion = Deletion(tarGone: bool, metaGone: bool, reported: bool)

  /** A tar of this deployment that was in the bucket when it was listed, and that no live row
      names by its archive key or its op id. */
  predicate IsOrphan(prefix: string, listed: World, rows: map<string, Row>, key: string) {
    && key in listed.archives
    && |prefix| <= |key| && key[..|prefix|] == prefix
    && |TAR_SUFFIX| <= |key| && key[|key| - |TAR_SUFFIX|..] == TAR_SUFFIX
    && forall id :: id in rows && rows[id].deletedAt.None? ==>
         && (rows[id].archiveKey.Some? ==> key != ArchiveKey(prefix, id, rows[id].archiveKey.value))
         && (rows[id].opId.Some? ==> key != ArchiveKey(prefix, id, rows[id].opId.value))
  }

  /** `after` is `later` without the orphans, as far as their removals went. */
  ghost predicate Cleans(prefix: string, listed: World, rows: map<string, Row>, deletions: string -> Deletion, later: World, after: World) {
    && after.containers == later.containers && after.volumes == later.volumes
    && (forall key :: key in after.archives <==>
                        key in later.archives && !(IsOrphan(prefix, listed, rows, key) && deletions(key).tarGone))
    && (forall key :: key in after.metas <==>
                        key in later.metas && !(IsOrphan(prefix, listed, rows, key) && deletions(key).metaGone))
    && (forall key :: key in after.archives ==> after.archives[key] == later.archives[key])
    && (forall key :: key in after.metas ==> after.metas[key] == later.metas[key])
  }

  lemma OrphanIs(prefix: string, w: World, rows: map<string, Row>, key: string)
    ensures IsOrphan(prefix, w, rows, key) <==> key in AllArchiveKeys(prefix, w) - ProtectedPaths(prefix, rows)
  {
    forall id | id in rows && rows[id].opId.Some? ensures SqlPath(prefix, id, rows[id].opId.value) == ArchiveKey(prefix, id, rows[id].opId.value) {
      SqlPathIsArchiveKey(prefix, id, rows[id].opId.value);
    }
  }

  /** Of each workspace, what is collected is what the bucket had of it at the listing and its own
      row, read later, does not protect; if the removal succeeds it is gone, and nothing else is. */
  lemma CleansPerWorkspace(prefix: string, listed: World, rows: map<string, Row>, deletions: string -> Deletion,
                           later: World, after: World, id: string, op: OpId)
    requires Cleans(prefix, listed, rows, deletions, later, after)
    requires Plain(id) && forall other :: other in rows ==> Plain(other)
    ensures var orphan := op in View(prefix, id, listed).tars.Keys - Protected(RowOf(rows, id));
            var removal := deletions(ArchiveKey(prefix, id, op));
            var before, left := View(prefix, id, later), View(prefix, id, after);
            && left.container == before.container && left.volume == before.volume
            && SlotOf(left, op).tar == (if orphan && removal.tarGone then None else SlotOf(before, op).tar)
            && SlotOf(left, op).meta == (if orphan && removal.metaGone then None else SlotOf(before, op).meta)
  {
    hide AllArchiveKeys, ProtectedPaths, IsOrphan, Protected, ByOp, ArchiveKey;
    var key := ArchiveKey(prefix, id, op);
    OrphanIs(prefix, listed, rows, key);
    OrphansAgree(prefix, listed, rows, id, op);
    ByOpAt(prefix, id, later.archives, op);
    ByOpAt(prefix, id, after.archives, op);
    ByOpAt(prefix, id, later.metas, op);
    ByOpAt(prefix, id, after.metas, op);
  }

  /** What becomes of one workspace's resources. A cut is the point at which a removal fails for good. */
  function Collected(res: Resources, orphanContainer: bool, cut1: nat, orphanVolume: bool, cut2: nat): Resources {
    var res1 := if orphanContainer then DeletingContainer(res, cut1).res else res;
    if orphanVolume then DeletingVolume(res1, cut2).res else res1
  }

  class Collector {
    const host: Host

    constructor (host: Host)
      ensures this.host == host
    {
      this.host := host;
    }

    /** Both objects of each orphan, each removal ending as it may. */
    method DeleteArchives(orphans: set<string>, deletions: string -> Deletion) returns (deleted: nat)
      modifies host`world
      ensures host.world == old(host.world).(
                archives := old(host.world).archives - (set key | key in orphans && deletions(key).tarGone),
                metas := old(host.world).metas - (set key | key in orphans && deletions(key).metaGone))
      ensures deleted == |set key | key in orphans && deletions(key).reported|
    {
      deleted := 0;
      var todo := orphans;
      while todo != {}
        invariant todo <= orphans
        invariant host.world == old(host.world).(
                    archives := old(host.world).archives - (set key | key in orphans - todo && deletions(key).tarGone),
                    metas := old(host.world).metas - (set key | key in orphans - todo && deletions(key).metaGone))
        invariant deleted == |set key | key in orphans - todo && deletions(key).reported|
        decreases todo
      {
        var key :| key in todo;
        ghost var done := set k | k in orphans - todo && deletions(k).reported;
        todo := todo - {key};
        if deletions(key).tarGone {
          host.world := host.world.(archives := host.world.archives - {key});
        }
        if deletions(key).metaGone {
          host.world := host.world.(metas := host.world.metas - {key});
        }
        if deletions(key).reported {
          deleted := deleted + 1;
          assert (set k | k in orphans - todo && deletions(k).reported) == done + {key};
        } else {
          assert (set k | k in orphans - todo && deletions(k).reported) == done;
        }
      }
      assert orphans - todo == orphans;
    }

    /** `between` and `later` are the table and the world as others have made them between the
        listing and the read. The keys are those of the listing, the protection that of the read. */
    method CleanupOrphanArchives(listing: bool, between: map<string, Row>, later: World, deletions: string -> Deletion)
      returns (deleted: nat)
      modifies host
      ensures host.rows == between
      ensures listing ==> Cleans(host.prefix, old(host.world), between, deletions, later, host.world)
      ensures listing ==> deleted == |set key | key in old(host.world).archives
                                                && IsOrphan(host.prefix, old(host.world), between, key) && deletions(key).reported|
      ensures !listing ==> host.world == later && deleted == 0
    {
      var keys := if listing then AllArchiveKeys(host.prefix, host.world) else {};
      host.rows, host.world := between, later;
      deleted := 0;
      var orphans: set<string> := {};
      if keys != {} {
        orphans := keys - ProtectedPaths(host.prefix, host.rows);
        if orphans != {} {
          deleted := DeleteArchives(orphans, deletions);
        }
      }
      if listing {
        forall key ensures IsOrphan(host.prefix, old(host.world), between, key) <==> key in orphans {
          OrphanIs(host.prefix, old(host.world), between, key);
        }
        assert (set key | key in old(host.world).archives && IsOrphan(host.prefix, old(host.world), between, key)
                          && deletions(key).reported) == set key | key in orphans && deletions(key).reported;
      }
    }

    method DeleteContainers(orphans: set<string>, cuts: map<string, nat>)
      requires orphans <= cuts.Keys && forall id :: id in orphans ==> Plain(id)
      modifies host`world
      ensures forall id :: Plain(id) ==>
                host.Mine(id) == if id in orphans then DeletingContainer(old(host.Mine(id)), cuts[id]).res else old(host.Mine(id))
    {
      hide DeletingContainer, View;
      var todo := orphans;
      while todo != {}
        invariant todo <= orphans
        invariant forall id :: Plain(id) ==>
                    host.Mine(id) == if id in orphans - todo then DeletingContainer(old(host.Mine(id)), cuts[id]).res else old(host.Mine(id))
        decreases todo
      {
        var id :| id in todo;
        todo := todo - {id};
        label Before:
        var left, ok := host.DeleteContainer(id, cuts[id]);
        assert host.OnlyTouched@Before(id);
      }
    }

    method DeleteVolumes(orphans: set<string>, cuts: map<string, nat>)
      requires orphans <= cuts.Keys && forall id :: id in orphans ==> Plain(id)
      modifies host`world
      ensures forall id :: Plain(id) ==>
                host.Mine(id) == if id in orphans then DeletingVolume(old(host.Mine(id)), cuts[id]).res else old(host.Mine(id))
    {
      hide DeletingVolume, View;
      var todo := orphans;
      while todo != {}
        invariant todo <= orphans
        invariant forall id :: Plain(id) ==>
                    host.Mine(id) == if id in orphans - todo then DeletingVolume(old(host.Mine(id)), cuts[id]).res else old(host.Mine(id))
        decreases todo
      {
        var id :| id in todo;
        todo := todo - {id};
        label Before:
        var left, ok := host.DeleteVolume(id, cuts[id]);
        assert host.OnlyTouched@Before(id);
      }
    }

    /** `between` is the table as it is read, after containers and volumes were listed. */
    method CleanupOrphanResources(containerIds: set<string>, volumeIds: set<string>, between: map<string, Row>,
                                  cuts1: map<string, nat>, cuts2: map<string, nat>)
      requires containerIds <= cuts1.Keys && volumeIds <= cuts2.Keys
      requires forall id :: id in containerIds + volumeIds ==> Plain(id)
      modifies host
      ensures host.rows == between
      ensures forall id :: Plain(id) ==>
                host.Mine(id) == Collected(old(host.Mine(id)),
                                           id in containerIds - ValidIds(between), if id in cuts1 then cuts1[id] else 0,
                                           id in volumeIds - ValidIds(between), if id in cuts2 then cuts2[id] else 0)
    {
      hide DeletingContainer, DeletingVolume, View;
      host.rows := between;
      if containerIds == {} && volumeIds == {} {
        return;
      }
      var valid := ValidIds(host.rows);
      var orphanContainers, orphanVolumes := containerIds - valid, volumeIds - valid;
      DeleteContainers(orphanContainers, cuts1);
      DeleteVolumes(orphanVolumes, cuts2);
    }
  }

  /** A workspace that is live when the collector reads the table keeps everything, and of a
      workspace that is gone nothing is left once both removals go through. */
  lemma OnlyTheDeadAreCollected(res: Resources, rows: map<string, Row>, id: string, containerIds: set<string>, volumeIds: set<string>,
                                cut1: nat, cut2: nat)
    ensures var after := Collected(res, id in containerIds - ValidIds(rows), cut1, id in volumeIds - ValidIds(rows), cut2);
            && (Live(RowOf(rows, id)) ==> after == res)
            && after.tars == res.tars && after.metas == res.metas
            && (!Live(RowOf(rows, id)) && id in volumeIds && (id in containerIds <==> res.container.Some?) && cut1 >= 2 && cut2 >= 1 ==>
                  after.container.None? && after.volume.None?)
  {
  }
}
