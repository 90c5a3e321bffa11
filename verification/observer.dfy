/** observer.py: three listings, all or nothing, written over every workspace that was live. */
module ObserverModel {
  import opened Domain
  import opened Actuator
  import Archive
  import opened Naming
  import opened System
  import opened WorldModel

  /** A listing entry: a name, and whether the thing is running or simply there. */
  datatype Listed = Listed(name: string, flag: bool)

  /** The dict comprehension of `observe_all`: a later entry replaces an earlier one. */
  function ByWorkspace(infos: seq<Listed>): map<string, bool> {
    if infos == [] then map[]
    else
      var init, last := infos[..|infos| - 1], infos[|infos| - 1];
      ByWorkspace(init)[last.name := last.flag]
  }

  /** Entries read by `owner`, foreign ones left out. */
  function Read(owner: string -> Option<string>, entries: seq<Listed>): seq<Listed> {
    if entries == [] then []
    else
      var init, last := entries[..|entries| - 1], entries[|entries| - 1];
      Read(owner, init) + (if owner(last.name).Some? then [Listed(owner(last.name).value, last.flag)] else [])
  }

  /** `list_all`, which calls a container running exactly if its state says so. */
  method ListContainers(prefix: string, entries: seq<Listed>) returns (infos: seq<Listed>)
    ensures infos == Read(name => ContainerOwner(prefix, name), entries)
  {
    infos := [];
    for i := 0 to |entries|
      invariant infos == Read(name => ContainerOwner(prefix, name), entries[..i])
    {
      assert entries[..i + 1][..i] == entries[..i];
      var name := StripLeadingSlashes(entries[i].name);
      if StartsWith(name, prefix) {
        infos := infos + [Listed(name[|prefix|..], entries[i].flag)];
      }
    }
    assert entries[..|entries|] == entries;
  }

  method ListVolumes(prefix: string, entries: seq<Listed>) returns (infos: seq<Listed>)
    ensures infos == Read(name => VolumeOwner(prefix, name), entries)
  {
    infos := [];
    for i := 0 to |entries|
      invariant infos == Read(name => VolumeOwner(prefix, name), entries[..i])
    {
      assert entries[..i + 1][..i] == entries[..i];
      var name := entries[i].name;
      if StartsWith(name, prefix) {
        var id := name[|prefix|..];
        if EndsWith(id, HOME_SUFFIX) {
          id := id[..|id| - |HOME_SUFFIX|];
        }
        infos := infos + [Listed(id, entries[i].flag)];
      }
    }
    assert entries[..|entries|] == entries;
  }

  // ----- what an id reads as -----

  /** Some entry of `id` carries the flag. */
  ghost predicate Names(owner: string -> Option<string>, entries: seq<Listed>, id: string, flag: bool) {
    exists e :: e in entries && owner(e.name) == Some(id) && e.flag == flag
  }

  lemma {:induction false} ReadHas(owner: string -> Option<string>, entries: seq<Listed>, id: string)
    ensures var seen := ByWorkspace(Read(owner, entries));
            if id in seen then Names(owner, entries, id, seen[id])
            else !Names(owner, entries, id, true) && !Names(owner, entries, id, false)
  {
    if entries != [] {
      var init, last := entries[..|entries| - 1], entries[|entries| - 1];
      assert entries == init + [last];
      ReadHas(owner, init, id);
      var before := Read(owner, init);
      if owner(last.name).Some? {
        var info := Listed(owner(last.name).value, last.flag);
        assert Read(owner, entries) == before + [info];
        assert (before + [info])[..|before|] == before;
        assert ByWorkspace(Read(owner, entries)) == ByWorkspace(before)[info.name := info.flag];
        if info.name == id {
          assert last in entries;
        }
      } else {
        assert Read(owner, entries) == before;
      }
      NamesLast(owner, init, last, id);
    }
  }

  lemma NamesLast(owner: string -> Option<string>, init: seq<Listed>, last: Listed, id: string)
    ensures forall flag :: Names(owner, init + [last], id, flag) <==>
              Names(owner, init, id, flag) || (owner(last.name) == Some(id) && last.flag == flag)
  {
    forall flag ensures Names(owner, init + [last], id, flag) <==>
              Names(owner, init, id, flag) || (owner(last.name) == Some(id) && last.flag == flag)
    {
      assert (init + [last])[|init|] == last;
      if Names(owner, init, id, flag) {
        var e :| e in init && owner(e.name) == Some(id) && e.flag == flag;
        assert e in init + [last];
      }
    }
  }

  /** `entries` lists exactly what the map holds; Docker puts a slash before container names. */
  ghost predicate Lists(slash: string, entries: seq<Listed>, things: map<string, bool>) {
    forall name, flag :: Listed(slash + name, flag) in entries <==> name in things && things[name] == flag
  }

  ghost predicate OnlyNamed(slash: string, entries: seq<Listed>) {
    forall e :: e in entries ==> exists name :: e.name == slash + name && Plain(name)
  }

  /** A plain container name belongs to at most one workspace, by that workspace's name for it. */
  lemma ContainerOwnerIs(prefix: string, name: string, id: string)
    requires Plain(prefix) && Plain(name)
    ensures ContainerOwner(prefix, "/" + name) == Some(id) <==> name == ContainerName(prefix, id)
  {
    assert ("/" + name)[1..] == name;
    if name != "" {
      assert name[0] in name;
    }
    assert StripLeadingSlashes("/" + name) == name;
    if StartsWith(name, prefix) {
      assert name == prefix + name[|prefix|..];
    }
    if name == ContainerName(prefix, id) {
      assert name[..|prefix|] == prefix && name[|prefix|..] == id;
    }
  }

  /** A volume belongs to the workspace that has it as its home, or is called just like it. */
  lemma VolumeOwnerIs(prefix: string, name: string, id: string)
    ensures VolumeOwner(prefix, name) == Some(id) <==>
            name == VolumeName(prefix, id) || (name == prefix + id && !EndsWith(id, HOME_SUFFIX))
  {
    if StartsWith(name, prefix) {
      var rest := name[|prefix|..];
      assert name == prefix + rest;
      if EndsWith(rest, HOME_SUFFIX) {
        assert rest == rest[..|rest| - |HOME_SUFFIX|] + HOME_SUFFIX;
      }
    }
    if name == VolumeName(prefix, id) {
      VolumeNameRoundTrip(prefix, id);
    } else if name == prefix + id {
      assert name[..|prefix|] == prefix && name[|prefix|..] == id;
    }
  }

  /** A bucket key belongs to a workspace exactly if it is one of its keys, for some op id. */
  lemma ArchiveOwnerIs(prefix: string, key: string, id: string)
    requires Plain(prefix) && Plain(id)
    ensures ArchiveOwner(prefix, key) == Some(id) <==> Owned(prefix, id, key)
  {
    if Owned(prefix, id, key) {
      ArchiveKeyRoundTrip(prefix, id, OpIn(prefix, id, key));
    }
    if ArchiveOwner(prefix, key) == Some(id) {
      if Plain(key) {
        SplitPlain(key);
        assert false;
      }
      var k := FirstSlash(key);
      var tail := key[k + 1..];
      assert key == key[..k] + "/" + tail;
      SplitAtSlash(key[..k], tail);
      assert key[..k] == prefix + id;
      if Plain(tail) {
        SplitPlain(tail);
        assert false;
      }
      assert !EndsWith("", TAR_SUFFIX);
      LongTail(key[..k], tail);
      var op := tail[..|tail| - |TAR_SUFFIX|];
      assert tail == op + TAR_SUFFIX;
      assert key == ArchiveKey(prefix, id, op);
      assert key[|prefix| + |id| + 1..|key| - |TAR_SUFFIX|] == op;
    }
  }

  /** The suffix has only one slash. */
  lemma ShortTail(head: string, tail: string)
    requires EndsWith(head + "/" + tail, TAR_SUFFIX) && |tail| < |TAR_SUFFIX|
    ensures Plain(tail)
  {
    var key := head + "/" + tail;
    var cut := |key| - |TAR_SUFFIX|;
    assert key[cut..] == TAR_SUFFIX;
    assert forall j :: 1 <= j < |TAR_SUFFIX| ==> TAR_SUFFIX[j] != '/';
    forall k | 0 <= k < |tail| ensures tail[k] != '/' {
      assert key[cut..][|TAR_SUFFIX| - |tail| + k] == tail[k];
    }
  }

  /** With two slashes after the workspace part, the suffix lies behind the first of them. */
  lemma LongTail(head: string, tail: string)
    requires EndsWith(head + "/" + tail, TAR_SUFFIX) && !Plain(tail)
    ensures EndsWith(tail, TAR_SUFFIX)
  {
    var key := head + "/" + tail;
    if |tail| < |TAR_SUFFIX| {
      ShortTail(head, tail);
      assert false;
    }
    assert tail[|tail| - |TAR_SUFFIX|..] == key[|key| - |TAR_SUFFIX|..];
  }

  // ----- what is written -----

  function Section(seen: map<string, bool>, id: string): Option<bool> {
    if id in seen then Some(seen[id]) else None
  }

  /** The three dictionaries of `observe_all`. */
  datatype Seen = Seen(containers: map<string, bool>, volumes: map<string, bool>, archives: map<string, bool>)

  function Written(seen: Seen, id: string): Conditions {
    Conditions(Section(seen.containers, id), Section(seen.volumes, id), Section(seen.archives, id))
  }

  function There(keys: set<string>): map<string, bool> {
    map key | key in keys :: true
  }

  ghost predicate HasObject(prefix: string, keys: set<string>, id: string) {
    exists key :: key in keys && ArchiveOwner(prefix, key) == Some(id)
  }

  /** The container section is the one of the world that was listed. */
  lemma ContainerIsFaithful(prefix: string, id: string, w: World, entries: seq<Listed>)
    requires Plain(prefix)
    requires Lists("/", entries, w.containers) && OnlyNamed("/", entries)
    ensures Section(ByWorkspace(Read(name => ContainerOwner(prefix, name), entries)), id) == ContainerSection(View(prefix, id, w))
  {
    var owner := name => ContainerOwner(prefix, name);
    ReadHas(owner, entries, id);
    forall flag ensures Names(owner, entries, id, flag) <==>
                          ContainerName(prefix, id) in w.containers && w.containers[ContainerName(prefix, id)] == flag
    {
      var mine := ContainerName(prefix, id);
      if Names(owner, entries, id, flag) {
        var e :| e in entries && owner(e.name) == Some(id) && e.flag == flag;
        var name :| e.name == "/" + name && Plain(name);
        ContainerOwnerIs(prefix, name, id);
        assert e == Listed("/" + name, flag);
      }
      if mine in w.containers && w.containers[mine] == flag {
        var e := Listed("/" + mine, flag);
        assert e in entries;
        var name :| e.name == "/" + name && Plain(name);
        assert e.name[1..] == name == mine;
        ContainerOwnerIs(prefix, name, id);
      }
    }
  }

  /** So is the volume section, unless some volume bears the workspace's name without the suffix. */
  lemma VolumeIsFaithful(prefix: string, id: string, w: World, entries: seq<Listed>)
    requires Lists("", entries, There(w.volumes.Keys))
    ensures Section(ByWorkspace(Read(name => VolumeOwner(prefix, name), entries)), id) == VolumeSection(View(prefix, id, w))
            <==> VolumeName(prefix, id) in w.volumes || prefix + id !in w.volumes || EndsWith(id, HOME_SUFFIX)
  {
    var owner := name => VolumeOwner(prefix, name);
    ReadHas(owner, entries, id);
    forall e | e in entries ensures e.flag && e.name in w.volumes {
      assert "" + e.name == e.name;
      assert e == Listed("" + e.name, e.flag);
    }
    forall name | name in w.volumes ensures Listed(name, true) in entries {
      assert "" + name == name;
      assert Listed("" + name, true) in entries;
    }
    VolumeOwnerIs(prefix, VolumeName(prefix, id), id);
    VolumeOwnerIs(prefix, prefix + id, id);
    if Names(owner, entries, id, true) {
      var e :| e in entries && owner(e.name) == Some(id) && e.flag;
      VolumeOwnerIs(prefix, e.name, id);
    }
    if VolumeName(prefix, id) in w.volumes {
      assert Names(owner, entries, id, true) by {
        assert Listed(VolumeName(prefix, id), true) in entries;
      }
    } else if prefix + id in w.volumes && !EndsWith(id, HOME_SUFFIX) {
      assert Names(owner, entries, id, true) by {
        assert Listed(prefix + id, true) in entries;
      }
    }
  }

  /** What `list_archives` leaves of a bucket: an entry for each workspace that has a tar. */
  ghost predicate ArchivesSeen(prefix: string, keys: set<string>, archives: map<string, bool>) {
    forall id :: (id in archives <==> HasObject(prefix, keys, id)) && (id in archives ==> archives[id])
  }

  lemma HasObjectIs(prefix: string, id: string, archives: map<string, Archive.Blob>)
    requires Plain(prefix) && Plain(id)
    ensures HasObject(prefix, archives.Keys, id) <==> ByOp(prefix, id, archives).Keys != {}
  {
    var tars := ByOp(prefix, id, archives);
    if HasObject(prefix, archives.Keys, id) {
      var key :| key in archives.Keys && ArchiveOwner(prefix, key) == Some(id);
      ArchiveOwnerIs(prefix, key, id);
      assert OpIn(prefix, id, key) in tars;
    }
    if tars.Keys != {} {
      var op :| op in tars;
      ByOpAt(prefix, id, archives, op);
      var key := ArchiveKey(prefix, id, op);
      ArchiveKeyRoundTrip(prefix, id, op);
      assert key in archives.Keys;
    }
  }

  /** And so is the archive section. */
  lemma ArchiveIsFaithful(prefix: string, id: string, w: World, archives: map<string, bool>)
    requires Plain(prefix) && Plain(id)
    requires ArchivesSeen(prefix, w.archives.Keys, archives)
    ensures Section(archives, id) == ArchiveSection(View(prefix, id, w))
  {
    HasObjectIs(prefix, id, w.archives);
  }

  /** What `Reconcile` writes for a workspace is what the interleaved system's ObserveWrite
      writes, each list call having seen the world of its own moment. */
  lemma ObservationIsAStep(prefix: string, id: string, wc: World, wv: World, wa: World, cs: seq<Listed>, vs: seq<Listed>,
                           archives: map<string, bool>, s: Sys, quiet: bool)
    requires Plain(prefix) && Plain(id) && s.row.Some?
    requires Lists("/", cs, wc.containers) && OnlyNamed("/", cs) && Lists("", vs, There(wv.volumes.Keys))
    requires VolumeName(prefix, id) in wv.volumes || prefix + id !in wv.volumes || EndsWith(id, HOME_SUFFIX)
    requires ArchivesSeen(prefix, wa.archives.Keys, archives)
    ensures var seen := Seen(ByWorkspace(Read(name => ContainerOwner(prefix, name), cs)),
                             ByWorkspace(Read(name => VolumeOwner(prefix, name), vs)), archives);
            var listing := Listing(Some(ContainerSection(View(prefix, id, wc))), Some(VolumeSection(View(prefix, id, wv))),
                                   Some(ArchiveSection(View(prefix, id, wa))), quiet);
            var listed := s.(obs := listing);
            Enabled(listed, ObserveWrite)
            && Apply(listed, ObserveWrite).row == Some(s.row.value.(conditions := Written(seen, id)))
  {
    hide View, Read, ByWorkspace;
    ContainerIsFaithful(prefix, id, wc, cs);
    VolumeIsFaithful(prefix, id, wv, vs);
    ArchiveIsFaithful(prefix, id, wa, archives);
  }

  class Observer {
    const prefix: string
    var rows: map<string, Row>
    var prevContainerIds: Option<set<string>>

    constructor (prefix: string, rows: map<string, Row>)
      ensures this.prefix == prefix && this.rows == rows && prevContainerIds == None
    {
      this.prefix := prefix;
      this.rows := rows;
      prevContainerIds := None;
    }

    /** Each argument is what one list call returned, or None if it failed or timed out;
        one failure is enough for there to be no observation. */
    method ObserveAll(cs: Option<seq<Listed>>, vs: Option<seq<Listed>>, objects: Option<seq<Object>>) returns (seen: Option<Seen>)
      ensures seen.Some? <==> cs.Some? && vs.Some? && objects.Some?
      ensures seen.Some? ==>
                && seen.value.containers == ByWorkspace(Read(name => ContainerOwner(prefix, name), cs.value))
                && seen.value.volumes == ByWorkspace(Read(name => VolumeOwner(prefix, name), vs.value))
                && ArchivesSeen(prefix, set o | o in objects.value :: o.key, seen.value.archives)
    {
      hide IsLatest, IsNewest, Belonging, ArchiveOwner, ContainerOwner, VolumeOwner;
      if cs.None? || vs.None? || objects.None? {
        return None;
      }
      var containers := ListContainers(prefix, cs.value);
      var volumes := ListVolumes(prefix, vs.value);
      var infos := ListArchives(prefix, objects.value);
      var archives := There(set info | info in infos :: info.workspaceId);
      var keys := set o | o in objects.value :: o.key;
      forall id ensures id in archives <==> HasObject(prefix, keys, id) {
        assert id in archives <==> Reported(infos, id);
        if o :| o in objects.value && ArchiveOwner(prefix, o.key) == Some(id) {
          assert o.key in keys;
        }
      }
      return Some(Seen(ByWorkspace(containers), ByWorkspace(volumes), archives));
    }

    method LoadWorkspaceIds() returns (ids: set<string>)
      ensures forall id :: id in ids <==> id in rows && rows[id].deletedAt.None?
    {
      ids := set id | id in rows && rows[id].deletedAt.None?;
    }

    /** Every id that was loaded gets new conditions, be they all null; no other row is touched. */
    method BulkUpdateConditions(ids: set<string>, seen: Seen)
      modifies this`rows
      ensures rows.Keys == old(rows).Keys
      ensures forall id :: id in rows ==>
                rows[id] == if id in ids then old(rows)[id].(conditions := Written(seen, id)) else old(rows)[id]
    {
      hide Written;
      var todo := ids;
      while todo != {}
        invariant todo <= ids
        invariant rows.Keys == old(rows).Keys
        invariant forall id :: id in rows ==>
                    rows[id] == if id in ids - todo then old(rows)[id].(conditions := Written(seen, id)) else old(rows)[id]
        decreases todo
      {
        var id :| id in todo;
        if id in rows {
          rows := rows[id := rows[id].(conditions := Written(seen, id))];
        }
        todo := todo - {id};
      }
    }

    /** One reconcile. `meanwhile` is what others commit between the load of the ids and the
        write. Either nothing is written, or each workspace that was live at the load is. */
    method Reconcile(cs: Option<seq<Listed>>, vs: Option<seq<Listed>>, objects: Option<seq<Object>>, meanwhile: map<string, Row>)
      returns (seen: Option<Seen>, disappeared: set<string>)
      modifies this
      ensures rows.Keys == old(rows).Keys + meanwhile.Keys
      ensures seen.Some? ==> cs.Some? && vs.Some? && objects.Some?
      ensures seen.None? ==> rows == old(rows) + meanwhile && prevContainerIds == old(prevContainerIds)
      ensures cs.Some? && vs.Some? && objects.Some? && seen.None? ==>
                forall id :: id in old(rows) ==> old(rows)[id].deletedAt.Some?
      ensures seen.Some? ==>
                && seen.value.containers == ByWorkspace(Read(name => ContainerOwner(prefix, name), cs.value))
                && seen.value.volumes == ByWorkspace(Read(name => VolumeOwner(prefix, name), vs.value))
                && ArchivesSeen(prefix, set o | o in objects.value :: o.key, seen.value.archives)
                && prevContainerIds == Some(seen.value.containers.Keys)
      ensures seen.Some? ==> forall id :: id in rows ==>
                var current := (old(rows) + meanwhile)[id];
                rows[id] ==
                if id in old(rows) && old(rows)[id].deletedAt.None? then current.(conditions := Written(seen.value, id)) else current
      ensures forall id :: id in disappeared <==>
                && seen.Some? && id in old(rows) && old(rows)[id].deletedAt.None?
                && old(prevContainerIds).Some? && id in old(prevContainerIds).value && id !in seen.value.containers
    {
      hide Written, ArchivesSeen, Read, ByWorkspace;
      seen, disappeared := None, {};
      var ids := LoadWorkspaceIds();
      rows := rows + meanwhile;
      if ids == {} {
        return;
      }
      seen := ObserveAll(cs, vs, objects);
      if seen.None? {
        return;
      }
      var current := seen.value.containers.Keys;
      if prevContainerIds.Some? {
        disappeared := (prevContainerIds.value - current) * ids;
      }
      prevContainerIds := Some(current);
      BulkUpdateConditions(ids, seen.value);
    }
  }
}
