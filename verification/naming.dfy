/** Names of containers, volumes and archive objects, and how they are read back. */
module Naming {
  import opened Domain

  const HOME_SUFFIX := "-home"
  const TAR_SUFFIX := "/home.tar.zst"

  /** No '/' inside. */
  predicate Plain(s: string) {
    '/' !in s
  }

  function ContainerName(prefix: string, id: string): string {
    prefix + id
  }

  function VolumeName(prefix: string, id: string): string {
    prefix + id + HOME_SUFFIX
  }

  function ArchiveKey(prefix: string, id: string, op: OpId): string {
    prefix + id + "/" + op + TAR_SUFFIX
  }

  /** The path the collector's SQL builds: prefix || id || '/' || op_id || '/home.tar.zst'. */
  function SqlPath(prefix: string, id: string, op: OpId): string {
    ((((prefix + id) + "/") + op) + "/home.tar.zst")
  }

  predicate StartsWith(s: string, prefix: string) {
    |prefix| <= |s| && s[..|prefix|] == prefix
  }

  predicate EndsWith(s: string, suffix: string) {
    |suffix| <= |s| && s[|s| - |suffix|..] == suffix
  }

  function StripLeadingSlashes(s: string): string {
    if s != "" && s[0] == '/' then StripLeadingSlashes(s[1..]) else s
  }

  /** The workspace a listed container name belongs to. */
  function ContainerOwner(prefix: string, listed: string): Option<string> {
    var name := StripLeadingSlashes(listed);
    if StartsWith(name, prefix) then Some(name[|prefix|..]) else None
  }

  /** The workspace a listed volume name belongs to. */
  function VolumeOwner(prefix: string, name: string): Option<string> {
    if !StartsWith(name, prefix) then None
    else
      var rest := name[|prefix|..];
      Some(if EndsWith(rest, HOME_SUFFIX) then rest[..|rest| - |HOME_SUFFIX|] else rest)
  }

  function Split(s: string): (parts: seq<string>)
    ensures |parts| >= 1
  {
    if s == "" then [""]
    else if s[0] == '/' then [""] + Split(s[1..])
    else
      var rest := Split(s[1..]);
      [[s[0]] + rest[0]] + rest[1..]
  }

  /** The workspace a bucket key belongs to, as `list_archives` reads it. */
  function ArchiveOwner(prefix: string, key: string): Option<string> {
    var parts := Split(key);
    if !EndsWith(key, TAR_SUFFIX) || |parts| < 3 || !StartsWith(parts[0], prefix) then None
    else Some(parts[0][|prefix|..])
  }

  lemma {:induction false} SplitAtSlash(head: string, tail: string)
    requires Plain(head)
    ensures Split(head + "/" + tail) == [head] + Split(tail)
  {
    var s := head + "/" + tail;
    if head == "" {
      assert s[1..] == tail;
    } else {
      assert s[1..] == head[1..] + "/" + tail;
      SplitAtSlash(head[1..], tail);
      assert [s[0]] + head[1..] == head;
    }
  }

  lemma {:induction false} SplitPlain(s: string)
    requires Plain(s)
    ensures Split(s) == [s]
  {
    if s != "" {
      SplitPlain(s[1..]);
      assert [s[0]] + s[1..] == s;
    }
  }

  /** A string that is not plain has a first slash. */
  lemma {:induction false} FirstSlash(s: string) returns (k: nat)
    requires !Plain(s)
    ensures k < |s| && s[k] == '/' && Plain(s[..k])
  {
    if s[0] == '/' {
      k := 0;
    } else {
      assert s == [s[0]] + s[1..];
      var rest := FirstSlash(s[1..]);
      k := rest + 1;
      assert s[..k] == [s[0]] + s[1..][..rest];
    }
  }

  lemma KeyShape(prefix: string, id: string, op: OpId)
    ensures ArchiveKey(prefix, id, op) == (prefix + id) + "/" + (op + TAR_SUFFIX)
    ensures EndsWith(ArchiveKey(prefix, id, op), TAR_SUFFIX)
  {
  }

  lemma SplitPlainTail(op: OpId)
    requires Plain(op)
    ensures Split(op + TAR_SUFFIX) == [op, "home.tar.zst"]
  {
    hide Split;
    assert op + TAR_SUFFIX == op + "/" + "home.tar.zst";
    SplitAtSlash(op, "home.tar.zst");
    SplitPlain("home.tar.zst");
  }

  lemma SplitTail(op: OpId)
    ensures |Split(op + TAR_SUFFIX)| >= 2
  {
    hide Split;
    if Plain(op) {
      SplitPlainTail(op);
    } else {
      var k := FirstSlash(op);
      assert op + TAR_SUFFIX == op[..k] + "/" + (op[k + 1..] + TAR_SUFFIX);
      SplitAtSlash(op[..k], op[k + 1..] + TAR_SUFFIX);
    }
  }

  /** A bucket key reads back as the workspace it was built for exactly if the id has no '/'. */
  lemma ArchiveKeyRoundTrip(prefix: string, id: string, op: OpId)
    requires Plain(prefix)
    ensures ArchiveOwner(prefix, ArchiveKey(prefix, id, op)) == Some(id) <==> Plain(id)
  {
    var key := ArchiveKey(prefix, id, op);
    KeyShape(prefix, id, op);
    if Plain(id) {
      SplitAtSlash(prefix + id, op + TAR_SUFFIX);
      SplitTail(op);
    } else {
      var k := FirstSlash(id);
      var rest := id[k + 1..] + "/" + op + TAR_SUFFIX;
      assert key == (prefix + id[..k]) + "/" + rest;
      SplitAtSlash(prefix + id[..k], rest);
      assert Split(key)[0] == prefix + id[..k];
    }
  }

  lemma ContainerNameRoundTrip(prefix: string, id: string)
    requires Plain(prefix) && Plain(id)
    ensures ContainerOwner(prefix, "/" + ContainerName(prefix, id)) == Some(id)
  {
    var name := prefix + id;
    assert ("/" + name)[1..] == name;
    if name != "" {
      assert name[0] in name;
    }
    assert StripLeadingSlashes("/" + name) == StripLeadingSlashes(name) == name;
    assert name[..|prefix|] == prefix && name[|prefix|..] == id;
  }

  lemma VolumeNameRoundTrip(prefix: string, id: string)
    ensures VolumeOwner(prefix, VolumeName(prefix, id)) == Some(id)
  {
    var name := VolumeName(prefix, id);
    assert name[..|prefix|] == prefix;
    var rest := name[|prefix|..];
    assert rest == id + HOME_SUFFIX;
    assert rest[|rest| - |HOME_SUFFIX|..] == HOME_SUFFIX;
    assert rest[..|rest| - |HOME_SUFFIX|] == id;
  }

  /** Two workspaces never share a bucket key, and one workspace never has the same key twice. */
  lemma ArchiveKeysInjective(prefix: string, id1: string, op1: OpId, id2: string, op2: OpId)
    requires Plain(id1) && Plain(id2)
    requires ArchiveKey(prefix, id1, op1) == ArchiveKey(prefix, id2, op2)
    ensures id1 == id2 && op1 == op2
  {
    var key := ArchiveKey(prefix, id1, op1);
    var body := key[|prefix|..];
    assert body == id1 + "/" + (op1 + TAR_SUFFIX);
    assert body == id2 + "/" + (op2 + TAR_SUFFIX);
    SplitAtSlash(id1, op1 + TAR_SUFFIX);
    SplitAtSlash(id2, op2 + TAR_SUFFIX);
    assert Split(body)[0] == id1 == id2;
    assert body[|id1| + 1..] == op1 + TAR_SUFFIX == op2 + TAR_SUFFIX;
    assert (op1 + TAR_SUFFIX)[..|op1|] == op1;
  }

  lemma NamesInjective(prefix: string, id1: string, id2: string)
    ensures ContainerName(prefix, id1) == ContainerName(prefix, id2) ==> id1 == id2
    ensures VolumeName(prefix, id1) == VolumeName(prefix, id2) ==> id1 == id2
  {
    assert ContainerName(prefix, id1)[|prefix|..] == id1;
    assert ContainerName(prefix, id2)[|prefix|..] == id2;
    VolumeNameRoundTrip(prefix, id1);
    VolumeNameRoundTrip(prefix, id2);
  }

  /** What the collector protects is what `archive` writes. */
  lemma SqlPathIsArchiveKey(prefix: string, id: string, op: OpId)
    ensures SqlPath(prefix, id, op) == ArchiveKey(prefix, id, op)
  {
  }

  // ----- list_archives -----

  datatype Object = Object(key: string, lastModified: int)

  datatype ArchiveInfo = ArchiveInfo(workspaceId: string, archiveKey: string)

  /** The objects of one workspace, in listing order. */
  function Belonging(prefix: string, objects: seq<Object>, id: string): seq<Object> {
    if objects == [] then []
    else
      var init, last := objects[..|objects| - 1], objects[|objects| - 1];
      Belonging(prefix, init, id) + (if ArchiveOwner(prefix, last.key) == Some(id) then [last] else [])
  }

  lemma {:induction false} BelongingIs(prefix: string, objects: seq<Object>, id: string)
    ensures forall o :: o in Belonging(prefix, objects, id) <==> o in objects && ArchiveOwner(prefix, o.key) == Some(id)
  {
    if objects != [] {
      var init, last := objects[..|objects| - 1], objects[|objects| - 1];
      assert objects == init + [last];
      BelongingIs(prefix, init, id);
    }
  }

  /** The earliest listed of the newest: sorting in reverse keeps equals in their order. */
  ghost predicate IsNewest(archives: seq<Object>, newest: Object) {
    exists k :: 0 <= k < |archives| && archives[k] == newest
                && (forall j :: 0 <= j < k ==> archives[j].lastModified < newest.lastModified)
                && (forall j :: k < j < |archives| ==> archives[j].lastModified <= newest.lastModified)
  }

  /** `archives.sort(key=lastModified, reverse=True)[0]`. */
  method Newest(archives: seq<Object>) returns (newest: Object)
    requires archives != []
    ensures IsNewest(archives, newest)
  {
    var k := 0;
    for i := 1 to |archives|
      invariant 0 <= k < i
      invariant forall j :: 0 <= j < k ==> archives[j].lastModified < archives[k].lastModified
      invariant forall j :: k < j < i ==> archives[j].lastModified <= archives[k].lastModified
    {
      if archives[i].lastModified > archives[k].lastModified {
        k := i;
      }
    }
    newest := archives[k];
  }

  /** The entry for a workspace names the newest of its archives, the earliest listed of those. */
  ghost predicate IsLatest(prefix: string, objects: seq<Object>, info: ArchiveInfo) {
    exists o: Object :: o.key == info.archiveKey && IsNewest(Belonging(prefix, objects, info.workspaceId), o)
  }

  ghost predicate IsGrouping(prefix: string, objects: seq<Object>, groups: map<string, seq<Object>>) {
    forall id :: (id in groups <==> Belonging(prefix, objects, id) != [])
                 && (id in groups ==> groups[id] == Belonging(prefix, objects, id))
  }

  method GroupByWorkspace(prefix: string, objects: seq<Object>) returns (groups: map<string, seq<Object>>)
    ensures IsGrouping(prefix, objects, groups)
  {
    groups := map[];
    for n := 0 to |objects|
      invariant IsGrouping(prefix, objects[..n], groups)
    {
      assert objects[..n + 1][..n] == objects[..n];
      var owner := ArchiveOwner(prefix, objects[n].key);
      if owner.Some? {
        var before := if owner.value in groups then groups[owner.value] else [];
        groups := groups[owner.value := before + [objects[n]]];
      }
    }
    assert objects[..|objects|] == objects;
  }

  predicate Reported(results: seq<ArchiveInfo>, id: string) {
    exists info :: info in results && info.workspaceId == id
  }

  lemma LatestIs(prefix: string, objects: seq<Object>, id: string, newest: Object)
    requires IsNewest(Belonging(prefix, objects, id), newest)
    ensures IsLatest(prefix, objects, ArchiveInfo(id, newest.key))
  {
  }

  /** One entry, the newest, for each workspace that has an archive, and no other entry. */
  method ListArchives(prefix: string, objects: seq<Object>) returns (results: seq<ArchiveInfo>)
    ensures forall i, j :: 0 <= i < j < |results| ==> results[i].workspaceId != results[j].workspaceId
    ensures forall info :: info in results ==> IsLatest(prefix, objects, info)
    ensures forall id :: Reported(results, id) <==> exists o :: o in objects && ArchiveOwner(prefix, o.key) == Some(id)
  {
    hide IsLatest, IsNewest, Belonging, ArchiveOwner;
    var groups := GroupByWorkspace(prefix, objects);
    results := [];
    var left := groups.Keys;
    while left != {}
      invariant left <= groups.Keys
      invariant forall id :: Reported(results, id) <==> id in groups.Keys - left
      invariant forall info :: info in results ==> IsLatest(prefix, objects, info)
      invariant forall i, j :: 0 <= i < j < |results| ==> results[i].workspaceId != results[j].workspaceId
      decreases left
    {
      var id :| id in left;
      var newest := Newest(groups[id]);
      BelongingIs(prefix, objects, id);
      var info := ArchiveInfo(id, newest.key);
      LatestIs(prefix, objects, id, newest);
      ReportedAppend(results, info);
      results := results + [info];
      left := left - {id};
    }
    forall id ensures Reported(results, id) <==> exists o :: o in objects && ArchiveOwner(prefix, o.key) == Some(id) {
      BelongingIs(prefix, objects, id);
      var mine := Belonging(prefix, objects, id);
      assert mine != [] ==> mine[0] in mine;
    }
  }

  lemma ReportedAppend(results: seq<ArchiveInfo>, info: ArchiveInfo)
    requires !Reported(results, info.workspaceId)
    ensures forall id :: Reported(results + [info], id) <==> Reported(results, id) || id == info.workspaceId
    ensures forall i :: 0 <= i < |results| ==> results[i].workspaceId != info.workspaceId
  {
    forall i | 0 <= i < |results| ensures results[i].workspaceId != info.workspaceId {
      assert results[i] in results;
    }
    forall id ensures Reported(results + [info], id) <==> Reported(results, id) || id == info.workspaceId {
      assert (results + [info])[|results|] == info;
      if Reported(results, id) {
        var r :| r in results && r.workspaceId == id;
        assert r in results + [info];
      }
    }
  }
}
