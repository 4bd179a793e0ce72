/**
 * Grouping the ceph-volume records of an OSD id into OSDs
 * (pkg/disk-daemon/osds_reporter.go).
 */
module VolumeGroups {
  import opened Wrappers
  import opened Disks

  datatype DeviceEntry = DeviceEntry(name: string, partition: string, partedBy: string)

  datatype Partition = Partition(path: string, kind: string, lvm: bool, present: bool)

  /** One OSD: its ids, empty while unknown, and what it is made of. */
  datatype Group = Group(osdUuid: string, clusterFsid: string, devices: seq<DeviceEntry>, partitions: seq<Partition>)

  // -------------------------------------------------------------------- accepting a volume

  /** Drops repeated neighbours. */
  function Compact(s: seq<string>): (r: seq<string>)
    ensures forall x :: x in r <==> x in s
    ensures forall k :: 0 <= k < |r| - 1 ==> r[k] != r[k + 1]
    ensures |s| > 0 ==> |r| > 0 && r[0] == s[0]
    ensures |r| <= |s| && (|r| > 1 <==> exists k :: 0 <= k < |s| - 1 && s[k] != s[k + 1])
  {
    if |s| <= 1 then s
    else
      assert s == [s[0]] + s[1..];
      var rest := Compact(s[1..]);
      if s[0] == s[1] then rest else [s[0]] + rest
  }

  datatype Verdict = Accepted(item: Item) | MultidiskVolume | PhysicalVolume | Unresolved

  /** A volume with the disk it was found on; `present` says that its own block device is known. */
  datatype Item = Item(volume: Volume, entry: DeviceEntry, present: bool)

  function Judge(v: Volume, report: DisksReport, ghost rank: string -> nat): (r: Verdict)
    requires AliasAcyclic(report, rank)
    ensures r.Accepted? ==> r.item.volume == v && r.item.entry.partition == v.path && IsDisk(report.blocks, r.item.entry.name)
    ensures r.Accepted? ==> (v.devices == [] && v.kind == "db") || (v.devices != [] && forall d :: d in v.devices ==> d == v.devices[0])
  {
    var devices := Compact(v.devices);
    if |devices| > 1 then MultidiskVolume
    else if |devices| == 0 && v.kind != "db" then PhysicalVolume
    else
      var name := if |devices| == 0 then v.path else devices[0];
      match FindDiskName(name, report, rank)
      case Disk(disk) =>
        var partedBy := if disk != name && |devices| == 1 then name else "";
        Accepted(Item(v, DeviceEntry(disk, v.path, partedBy), v.path in report.aliases))
      case _ => Unresolved
  }

  /** The volume lies on one device: its only one, repeated or not, or, for a db, its own path. */
  predicate OnOneDevice(v: Volume) {
    if v.devices == [] then v.kind == "db" else forall k :: 0 <= k < |v.devices| ==> v.devices[k] == v.devices[0]
  }

  /**
   * A volume is accepted exactly if it lies on one device and that device resolves to a disk. It is recorded with that
   * disk, with the device if it is not the disk itself, and as present exactly if its path is known. Different
   * neighbours among its devices, and a physical partition that is no db, are refused as such.
   */
  lemma {:induction false} JudgeExactly(v: Volume, report: DisksReport, rank: string -> nat)
    requires AliasAcyclic(report, rank)
    ensures var name := if v.devices == [] then v.path else v.devices[0];
      var disk := FindDiskName(name, report, rank);
      var r := Judge(v, report, rank);
      && (r.Accepted? <==> OnOneDevice(v) && disk.Disk?)
      && (r.Accepted? ==> r.item == Item(v,
            DeviceEntry(disk.name, v.path, if v.devices != [] && v.devices[0] != disk.name then v.devices[0] else ""), v.path in report.aliases))
      && (r.MultidiskVolume? <==> exists k :: 0 <= k < |v.devices| - 1 && v.devices[k] != v.devices[k + 1])
      && (r.PhysicalVolume? <==> v.devices == [] && v.kind != "db")
      && (r.Unresolved? <==> OnOneDevice(v) && !disk.Disk?)
  {
    hide FindDiskName, AliasAcyclic;
    var devices := Compact(v.devices);
    if |devices| > 1 {
      var k :| 0 <= k < |v.devices| - 1 && v.devices[k] != v.devices[k + 1];
      assert !OnOneDevice(v);
    } else if v.devices != [] {
      AllSame(v.devices);
    }
  }

  lemma {:induction false} AllSame(s: seq<string>)
    requires |s| > 0 && forall k :: 0 <= k < |s| - 1 ==> s[k] == s[k + 1]
    ensures forall k :: 0 <= k < |s| ==> s[k] == s[0]
  {
    var n := |s| - 1;
    if n > 0 {
      AllSame(s[..n]);
      assert s[n - 1] == s[n - 1 + 1] && s[..n][n - 1] == s[n - 1];
    }
  }

  // --------------------------------------------------------------------- placing a volume

  /** The groups so far, and where to look for the group of a path. */
  datatype State = State(groups: seq<Group>, index: map<string, nat>)

  ghost predicate InRange(st: State) {
    forall path :: path in st.index ==> st.index[path] < |st.groups|
  }

  predicate HasRole(v: Volume) {
    v.kind == "db" || v.kind == "block"
  }

  /** The path of the other half, if the volume names one. */
  function Reference(v: Volume): string {
    if v.kind == "db" then v.blockDevice else if v.kind == "block" then v.dbDevice else ""
  }

  function Existing(st: State, v: Volume): (at: Option<nat>)
    ensures InRange(st) && at.Some? ==> at.value < |st.groups|
  {
    if HasRole(v) then Look(st.index, if Reference(v) != "" then Reference(v) else v.path) else None
  }

  /** The other half is named and not met yet. */
  predicate Announces(st: State, v: Volume) {
    Reference(v) != "" && Reference(v) !in st.index
  }

  predicate IsLegacy(v: Volume) {
    v.lvPath == "" && v.kind == "db" && (v.osdFsid == "" || v.clusterFsid == "")
  }

  predicate HasPhysicalDb(partitions: seq<Partition>) {
    exists p :: p in partitions && !p.lvm && p.kind == "db"
  }

  /** The volume may join the group found for it. */
  predicate Fits(g: Group, v: Volume) {
    || (v.osdFsid == g.osdUuid && v.clusterFsid == g.clusterFsid)
    || IsLegacy(v)
    || ((g.osdUuid == "" || g.clusterFsid == "") && HasPhysicalDb(g.partitions))
  }

  function PartitionOf(item: Item): Partition {
    Partition(item.volume.path, item.volume.kind, item.volume.lvPath != "", item.present)
  }

  /** Replaces the first partition with the path, or adds the partition. */
  function Merged(partitions: seq<Partition>, p: Partition): (r: seq<Partition>)
    ensures p in r
    ensures forall q :: q in r ==> q == p || q in partitions
    ensures forall q :: q in partitions ==> q in r || q.path == p.path
  {
    if partitions == [] then [p]
    else
      assert partitions == [partitions[0]] + partitions[1..];
      if partitions[0].path == p.path then [p] + partitions[1..] else [partitions[0]] + Merged(partitions[1..], p)
  }

  function Joined(g: Group, item: Item): Group {
    Group(
      if g.osdUuid == "" then item.volume.osdFsid else g.osdUuid,
      if g.clusterFsid == "" then item.volume.clusterFsid else g.clusterFsid,
      g.devices + [item.entry],
      Merged(g.partitions, PartitionOf(item)))
  }

  function Founded(st: State, item: Item): Group {
    var v := item.volume;
    var other := if Announces(st, v) then [Partition(Reference(v), if v.kind == "db" then "block" else "db", false, false)] else [];
    Group(v.osdFsid, v.clusterFsid, [item.entry], [PartitionOf(item)] + other)
  }

  /** The group a volume joins, if it finds one and fits. */
  function Target(st: State, v: Volume): (at: Option<nat>)
    requires InRange(st)
    ensures at.Some? ==> at == Existing(st, v) && at.value < |st.groups| && Fits(st.groups[at.value], v)
  {
    var at := Existing(st, v);
    if at.Some? && Fits(st.groups[at.value], v) then at else None
  }

  /** A path not met before reads as group 0. */
  function Marked(st: State, v: Volume): map<string, nat> {
    if Announces(st, v) then st.index[Reference(v) := if v.path in st.index then st.index[v.path] else 0] else st.index
  }

  function Place(st: State, item: Item): (st': State)
    requires InRange(st)
    ensures InRange(st')
  {
    var v := item.volume;
    var at := Target(st, v);
    if at.Some? then
      State(st.groups[at.value := Joined(st.groups[at.value], item)], Marked(st, v))
    else
      State(st.groups + [Founded(st, item)], Marked(st, v)[v.path := |st.groups|])
  }

  /** The group a volume ends in. */
  function PlacedAt(st: State, v: Volume): nat
    requires InRange(st)
  {
    var at := Target(st, v);
    if at.Some? then at.value else |st.groups|
  }

  function Run(items: seq<Item>): (st: State)
    ensures InRange(st)
  {
    if items == [] then State([], map[]) else Place(Run(items[..|items| - 1]), items[|items| - 1])
  }

  function Owner(items: seq<Item>, i: nat): nat
    requires i < |items|
  {
    PlacedAt(Run(items[..i]), items[i].volume)
  }

  // -------------------------------------------------------------------------- the loop

  method FindPhysicalDb(partitions: seq<Partition>) returns (found: bool)
    ensures found == HasPhysicalDb(partitions)
  {
    for i := 0 to |partitions|
      invariant forall k :: 0 <= k < i ==> partitions[k].lvm || partitions[k].kind != "db"
    {
      if !partitions[i].lvm && partitions[i].kind == "db" { return true; }
    }
    return false;
  }

  method MergePartition(partitions: seq<Partition>, p: Partition) returns (r: seq<Partition>)
    ensures r == Merged(partitions, p)
  {
    hide Merged;
    assert partitions[0..] == partitions;
    for i := 0 to |partitions|
      invariant Merged(partitions, p) == partitions[..i] + Merged(partitions[i..], p)
    {
      MergedStep(partitions, p, i);
      if partitions[i].path == p.path { return partitions[i := p]; }
      Shift(partitions[..i], partitions[i], Merged(partitions[i + 1..], p));
      assert partitions[..i + 1] == partitions[..i] + [partitions[i]];
    }
    assert partitions[..|partitions|] == partitions && partitions[|partitions|..] == [];
    MergedEnd(p);
    return partitions + [p];
  }

  lemma {:induction false} Shift(a: seq<Partition>, p: Partition, b: seq<Partition>)
    ensures a + ([p] + b) == (a + [p]) + b
  {
  }

  lemma {:induction false} MergedEnd(p: Partition)
    ensures Merged([], p) == [p]
  {
  }

  lemma {:induction false} MergedStep(partitions: seq<Partition>, p: Partition, i: nat)
    requires i < |partitions|
    ensures partitions[i].path == p.path ==> partitions[..i] + Merged(partitions[i..], p) == partitions[i := p]
    ensures partitions[i].path != p.path ==> Merged(partitions[i..], p) == [partitions[i]] + Merged(partitions[i + 1..], p)
  {
    assert partitions[i..][1..] == partitions[i + 1..];
  }

  lemma {:induction false} RunMore(items: seq<Item>, item: Item)
    ensures Run(items + [item]) == Place(Run(items), item)
  {
    hide Place;
    assert (items + [item])[..|items|] == items;
  }

  /** Groups the volumes of one OSD id up to the first that is not supported. */
  method GroupVolumes(volumes: seq<Volume>, report: DisksReport, ghost rank: string -> nat)
    returns (groups: seq<Group>, items: seq<Item>, issue: Option<Verdict>)
    requires AliasAcyclic(report, rank)
    ensures |items| <= |volumes| && forall i :: 0 <= i < |items| ==> Judge(volumes[i], report, rank) == Accepted(items[i])
    ensures issue.None? ==> |items| == |volumes|
    ensures issue.Some? ==> |items| < |volumes| && issue.value == Judge(volumes[|items|], report, rank) && !issue.value.Accepted?
    ensures groups == Run(items).groups
  {
    hide FindDiskName, AliasAcyclic, Judge, Place;
    groups, items := [], [];
    var index: map<string, nat> := map[];
    for n := 0 to |volumes|
      invariant |items| == n && forall i :: 0 <= i < n ==> Judge(volumes[i], report, rank) == Accepted(items[i])
      invariant State(groups, index) == Run(items)
    {
      var v := volumes[n];
      var verdict := Judge(v, report, rank);
      if !verdict.Accepted? { return groups, items, Some(verdict); }
      groups, index := PlaceVolume(groups, index, verdict.item);
      RunMore(items, verdict.item);
      items := items + [verdict.item];
    }
    issue := None;
  }

  method PlaceVolume(groups: seq<Group>, index: map<string, nat>, item: Item)
    returns (groups': seq<Group>, index': map<string, nat>)
    requires InRange(State(groups, index))
    ensures State(groups', index') == Place(State(groups, index), item)
  {
    hide Merged, HasPhysicalDb;
    var v := item.volume;
    groups', index' := groups, index;
    var present, at, other := false, 0, [];
    if HasRole(v) {
      var key := if v.kind == "db" then v.blockDevice else v.dbDevice;
      if key != "" {
        if key in index {
          present, at := true, index[key];
        } else {
          index' := index'[key := if v.path in index then index[v.path] else 0];
          other := [Partition(key, if v.kind == "db" then "block" else "db", false, false)];
        }
      } else if v.path in index {
        present, at := true, index[v.path];
      }
    }
    var fits := false;
    if present {
      var g := groups[at];
      var legacyFound := false;
      if !IsLegacy(v) && (g.osdUuid == "" || g.clusterFsid == "") { legacyFound := FindPhysicalDb(g.partitions); }
      fits := (v.osdFsid == g.osdUuid && v.clusterFsid == g.clusterFsid) || IsLegacy(v) || legacyFound;
    }
    if fits {
      var g := groups[at];
      var merged := MergePartition(g.partitions, PartitionOf(item));
      g := g.(partitions := merged, devices := g.devices + [item.entry]);
      if g.clusterFsid == "" { g := g.(clusterFsid := v.clusterFsid); }
      if g.osdUuid == "" { g := g.(osdUuid := v.osdFsid); }
      groups' := groups'[at := g];
    } else {
      index' := index'[v.path := |groups|];
      groups' := groups' + [Group(v.osdFsid, v.clusterFsid, [item.entry], [PartitionOf(item)] + other)];
    }
  }

  // -------------------------------------------------------------------- every volume once

  /** The entries of the volumes of one group, in order. */
  function Entries(items: seq<Item>, g: nat): seq<DeviceEntry> {
    if items == [] then []
    else
      var n := |items| - 1;
      Entries(items[..n], g) + if Owner(items, n) == g then [items[n].entry] else []
  }

  /** Owners do not depend on later volumes. */
  lemma {:induction false} OwnerPrefix(items: seq<Item>, n: nat, i: nat)
    requires i < n <= |items|
    ensures Owner(items[..n], i) == Owner(items, i)
  {
    assert items[..n][..i] == items[..i];
  }

  ghost predicate Listed(partitions: seq<Partition>, path: string) {
    exists p :: p in partitions && p.path == path
  }

  /** Volume `i` is in an existing group that lists its path. */
  ghost predicate Recorded(st: State, items: seq<Item>, i: nat)
    requires i < |items|
  {
    Owner(items, i) < |st.groups| && Listed(st.groups[Owner(items, i)].partitions, items[i].volume.path)
  }

  lemma {:induction false} RunStep(items: seq<Item>)
    requires items != []
    ensures var n := |items| - 1;
      Run(items) == Place(Run(items[..n]), items[n]) && Owner(items, n) == PlacedAt(Run(items[..n]), items[n].volume)
  {
  }

  /** A volume adds its entry to one group, an old or a new one. */
  lemma {:induction false} PlaceAddsEntry(st: State, item: Item)
    requires InRange(st)
    ensures var at, st' := PlacedAt(st, item.volume), Place(st, item);
      && |st.groups| <= |st'.groups| && at < |st'.groups|
      && |st'.groups| == (if at < |st.groups| then |st.groups| else at + 1)
      && forall g :: 0 <= g < |st'.groups| ==>
           st'.groups[g].devices == (if g < |st.groups| then st.groups[g].devices else []) + if g == at then [item.entry] else []
  {
    hide Merged, Fits;
  }

  lemma {:induction false} OwnersInRange(items: seq<Item>, i: nat)
    requires i < |items|
    ensures Owner(items, i) < |Run(items).groups|
  {
    hide Place, PlacedAt, Run, Owner;
    var n := |items| - 1;
    RunStep(items);
    PlaceAddsEntry(Run(items[..n]), items[n]);
    if i < n {
      OwnerPrefix(items, n, i);
      OwnersInRange(items[..n], i);
    }
  }

  lemma {:induction false} NoEntries(items: seq<Item>, g: nat)
    requires |Run(items).groups| <= g
    ensures Entries(items, g) == []
  {
    hide Place, PlacedAt, Run, Owner;
    if items != [] {
      var n := |items| - 1;
      OwnersInRange(items, n);
      RunStep(items);
      PlaceAddsEntry(Run(items[..n]), items[n]);
      NoEntries(items[..n], g);
    }
  }

  lemma {:induction false} DevicesAreEntries(items: seq<Item>, g: nat)
    requires g < |Run(items).groups|
    ensures Run(items).groups[g].devices == Entries(items, g) != []
  {
    if items != [] {
      var n := |items| - 1;
      RunStep(items);
      var st := Run(items[..n]);
      hide Place, PlacedAt, Run, Owner;
      PlaceAddsEntry(st, items[n]);
      if g < |st.groups| { DevicesAreEntries(items[..n], g); } else { NoEntries(items[..n], g); }
    }
  }

  lemma {:induction false} VolumeRecorded(items: seq<Item>, i: nat)
    requires i < |items|
    ensures Recorded(Run(items), items, i)
  {
    hide Place, PlacedAt, Run, Owner, Listed;
    var n := |items| - 1;
    RunStep(items);
    if i < n {
      OwnerPrefix(items, n, i);
      VolumeRecorded(items[..n], i);
      PlaceKeepsListed(Run(items[..n]), items[n], Owner(items, i), items[i].volume.path);
    } else {
      PlaceLists(Run(items[..n]), items[n]);
    }
  }

  /**
   * Every accepted volume is one device entry of exactly one group, in order, and its path is
   * among the partitions of that group; no group is without a volume.
   */
  lemma {:induction false} EveryVolumeOnce(items: seq<Item>)
    ensures forall g :: 0 <= g < |Run(items).groups| ==> Run(items).groups[g].devices == Entries(items, g) != []
    ensures forall i :: 0 <= i < |items| ==> Recorded(Run(items), items, i)
  {
    hide Run, Recorded, Entries;
    forall g | 0 <= g < |Run(items).groups| ensures Run(items).groups[g].devices == Entries(items, g) != [] { DevicesAreEntries(items, g); }
    forall i | 0 <= i < |items| ensures Recorded(Run(items), items, i) { VolumeRecorded(items, i); }
  }

  lemma {:induction false} PlaceKeepsListed(st: State, item: Item, g: nat, path: string)
    requires InRange(st) && g < |st.groups| && Listed(st.groups[g].partitions, path)
    ensures g < |Place(st, item).groups| && Listed(Place(st, item).groups[g].partitions, path)
  {
    var p :| p in st.groups[g].partitions && p.path == path;
    var q := if Target(st, item.volume) == Some(g) && path == item.volume.path then PartitionOf(item) else p;
    assert q in Place(st, item).groups[g].partitions;
  }

  lemma {:induction false} PlaceLists(st: State, item: Item)
    requires InRange(st)
    ensures var g := PlacedAt(st, item.volume);
      g < |Place(st, item).groups| && Listed(Place(st, item).groups[g].partitions, item.volume.path)
  {
    var g := PlacedAt(st, item.volume);
    assert PartitionOf(item) in Place(st, item).groups[g].partitions;
  }

  /** No two volumes have the same path. */
  ghost predicate PathsOnce(items: seq<Item>) {
    forall i, j :: 0 <= i < j < |items| ==> items[i].volume.path != items[j].volume.path
  }

  lemma {:induction false} PlaceKeepsPartition(st: State, item: Item, g: nat, p: Partition)
    requires InRange(st) && g < |st.groups| && p in st.groups[g].partitions && p.path != item.volume.path
    ensures g < |Place(st, item).groups| && p in Place(st, item).groups[g].partitions
  {
    hide Fits;
  }

  lemma {:induction false} PlaceAddsPartition(st: State, item: Item)
    requires InRange(st)
    ensures var g, v := PlacedAt(st, item.volume), item.volume;
      g < |Place(st, item).groups| && Partition(v.path, v.kind, v.lvPath != "", item.present) in Place(st, item).groups[g].partitions
  {
    hide Fits;
  }

  /** Every volume is a partition of its group with its own kind, and is marked as a logical volume and as present exactly if it is. */
  lemma {:induction false} PartitionRecorded(items: seq<Item>, i: nat)
    requires PathsOnce(items) && i < |items|
    ensures var v := items[i].volume;
      && Owner(items, i) < |Run(items).groups|
      && Partition(v.path, v.kind, v.lvPath != "", items[i].present) in Run(items).groups[Owner(items, i)].partitions
  {
    hide Place, PlacedAt, Run, Owner;
    var n := |items| - 1;
    RunStep(items);
    if i < n {
      OwnerPrefix(items, n, i);
      PartitionRecorded(items[..n], i);
      var v := items[i].volume;
      PlaceKeepsPartition(Run(items[..n]), items[n], Owner(items, i), Partition(v.path, v.kind, v.lvPath != "", items[i].present));
    } else {
      PlaceAddsPartition(Run(items[..n]), items[n]);
    }
  }

  // ---------------------------------------------------------------- when ids are mixed

  /** The two ids that tell OSDs apart. */
  datatype IdKind = OsdId | ClusterId

  function Other(kind: IdKind): IdKind {
    if kind == OsdId then ClusterId else OsdId
  }

  function IdOf(v: Volume, kind: IdKind): string {
    if kind == OsdId then v.osdFsid else v.clusterFsid
  }

  function GroupId(g: Group, kind: IdKind): string {
    if kind == OsdId then g.osdUuid else g.clusterFsid
  }

  ghost predicate SameIds(g: Group, v: Volume) {
    v.osdFsid == g.osdUuid && v.clusterFsid == g.clusterFsid
  }

  /** Two volumes with different ids share a group. */
  ghost predicate Mixes(items: seq<Item>, i: nat, j: nat, kind: IdKind)
    requires i < |items| && j < |items|
  {
    var x, y := IdOf(items[i].volume, kind), IdOf(items[j].volume, kind);
    Owner(items, i) == Owner(items, j) && x != "" && y != "" && x != y
  }

  /**
   * The volume is about to join a group with another id: it finds the group under its reference or
   * path, and it is a physical db without its other id, or the group lacks its other id and lists a
   * physical or announced db.
   */
  ghost predicate Clashes(st: State, v: Volume, kind: IdKind)
    requires InRange(st)
  {
    var at := Existing(st, v);
    && at.Some?
    && var g := st.groups[at.value];
       && IdOf(v, kind) != "" && GroupId(g, kind) != "" && IdOf(v, kind) != GroupId(g, kind)
       && (|| (v.lvPath == "" && v.kind == "db" && IdOf(v, Other(kind)) == "")
           || (GroupId(g, Other(kind)) == "" && HasPhysicalDb(g.partitions)))
  }

  ghost predicate ClashesAt(items: seq<Item>, n: nat, kind: IdKind)
    requires n < |items|
  {
    Clashes(Run(items[..n]), items[n].volume, kind)
  }

  /** A known id stays; an unknown one becomes the id of the volume that joins. */
  lemma {:induction false} PlaceKeepsId(st: State, item: Item, g: nat, kind: IdKind)
    requires InRange(st) && g < |Place(st, item).groups|
    ensures var id := if g < |st.groups| then GroupId(st.groups[g], kind) else "";
      GroupId(Place(st, item).groups[g], kind) == if g == PlacedAt(st, item.volume) && id == "" then IdOf(item.volume, kind) else id
  {
    hide Merged, Fits;
  }

  /** The id of a group is the id of one of its volumes. */
  lemma {:induction false} IdFromVolume(items: seq<Item>, g: nat, kind: IdKind) returns (i: nat)
    requires g < |Run(items).groups| && GroupId(Run(items).groups[g], kind) != ""
    ensures i < |items| && Owner(items, i) == g && IdOf(items[i].volume, kind) == GroupId(Run(items).groups[g], kind)
  {
    assert items != [];
    var n := |items| - 1;
    RunStep(items);
    var st := Run(items[..n]);
    hide Place, PlacedAt, Run, Owner, GroupId, IdOf;
    PlaceKeepsId(st, items[n], g, kind);
    PlaceAddsEntry(st, items[n]);
    if g < |st.groups| && GroupId(st.groups[g], kind) != "" {
      i := IdFromVolume(items[..n], g, kind);
      OwnerPrefix(items, n, i);
    } else {
      i := n;
    }
  }

  /** Joining a group with another id is a clash. */
  lemma {:induction false} JoinClashes(st: State, v: Volume, kind: IdKind)
    requires InRange(st)
    ensures Clashes(st, v, kind) <==>
      Target(st, v).Some? && var g := st.groups[Target(st, v).value];
        IdOf(v, kind) != "" && GroupId(g, kind) != "" && IdOf(v, kind) != GroupId(g, kind)
  {
    hide HasPhysicalDb;
  }

  lemma {:induction false} PlacedWithOwn(st: State, item: Item, kind: IdKind)
    requires InRange(st) && !Clashes(st, item.volume, kind) && IdOf(item.volume, kind) != ""
    ensures PlacedAt(st, item.volume) < |Place(st, item).groups|
    ensures GroupId(Place(st, item).groups[PlacedAt(st, item.volume)], kind) == IdOf(item.volume, kind)
  {
    JoinClashes(st, item.volume, kind);
    PlaceAddsEntry(st, item);
    hide Place, GroupId, IdOf, Clashes;
    PlaceKeepsId(st, item, PlacedAt(st, item.volume), kind);
  }

  lemma {:induction false} NoClashBefore(items: seq<Item>, m: nat, kind: IdKind)
    requires m <= |items| && forall n :: 0 <= n < |items| ==> !ClashesAt(items, n, kind)
    ensures forall n :: 0 <= n < m ==> !ClashesAt(items[..m], n, kind)
  {
    hide Run, Clashes;
    forall n | 0 <= n < m ensures !ClashesAt(items[..m], n, kind) {
      assert items[..m][..n] == items[..n];
      assert !ClashesAt(items, n, kind);
    }
  }

  /** As long as nothing clashes, a volume with an id is in a group with that id. */
  lemma {:induction false} InOwnGroup(items: seq<Item>, i: nat, kind: IdKind)
    requires forall n :: 0 <= n < |items| ==> !ClashesAt(items, n, kind)
    requires i < |items| && IdOf(items[i].volume, kind) != ""
    ensures Owner(items, i) < |Run(items).groups| && GroupId(Run(items).groups[Owner(items, i)], kind) == IdOf(items[i].volume, kind)
  {
    hide Place, PlacedAt, Run, Owner, GroupId, IdOf, Clashes;
    var n := |items| - 1;
    RunStep(items);
    if i < n {
      OwnerPrefix(items, n, i);
      NoClashBefore(items, n, kind);
      InOwnGroup(items[..n], i, kind);
      PlaceAddsEntry(Run(items[..n]), items[n]);
      PlaceKeepsId(Run(items[..n]), items[n], Owner(items, i), kind);
    } else {
      assert !ClashesAt(items, n, kind);
      PlacedWithOwn(Run(items[..n]), items[n], kind);
    }
  }

  /** Volumes with different ids share a group exactly if one of them clashed when it was placed. */
  lemma {:induction false} MixedExactly(items: seq<Item>, kind: IdKind)
    ensures (exists i: nat, j: nat :: i < |items| && j < |items| && Mixes(items, i, j, kind)) <==>
            (exists n: nat :: n < |items| && ClashesAt(items, n, kind))
  {
    if n: nat :| n < |items| && ClashesAt(items, n, kind) {
      var st, v := Run(items[..n]), items[n].volume;
      JoinClashes(st, v, kind);
      var i := IdFromVolume(items[..n], Target(st, v).value, kind);
      OwnerPrefix(items, n, i);
      assert Mixes(items, i, n, kind);
    } else if i: nat, j: nat :| i < |items| && j < |items| && Mixes(items, i, j, kind) {
      hide Run, Owner, ClashesAt;
      InOwnGroup(items, i, kind);
      InOwnGroup(items, j, kind);
    }
  }

  predicate BothOrNeither(v: Volume) {
    v.osdFsid == "" <==> v.clusterFsid == ""
  }

  ghost predicate AllWhole(st: State) {
    forall g :: 0 <= g < |st.groups| ==> (st.groups[g].osdUuid == "" <==> st.groups[g].clusterFsid == "")
  }

  lemma {:induction false} GroupsWhole(items: seq<Item>)
    requires forall i :: 0 <= i < |items| ==> BothOrNeither(items[i].volume)
    ensures AllWhole(Run(items))
  {
    if items != [] {
      var n := |items| - 1;
      GroupsWhole(items[..n]);
      RunStep(items);
      PlaceAddsEntry(Run(items[..n]), items[n]);
      assert BothOrNeither(items[n].volume);
      hide Place, PlacedAt, Run, Owner;
      forall g | 0 <= g < |Run(items).groups| ensures Run(items).groups[g].osdUuid == "" <==> Run(items).groups[g].clusterFsid == "" {
        PlaceKeepsId(Run(items[..n]), items[n], g, OsdId);
        PlaceKeepsId(Run(items[..n]), items[n], g, ClusterId);
      }
    }
  }

  /** With both id tags or neither on every volume nothing clashes, and no group holds volumes with different ids. */
  lemma {:induction false} IdsNeverMixed(items: seq<Item>, kind: IdKind, i: nat, j: nat)
    requires forall k :: 0 <= k < |items| ==> BothOrNeither(items[k].volume)
    requires i < |items| && j < |items|
    ensures !Mixes(items, i, j, kind)
  {
    forall n: nat | n < |items| ensures !ClashesAt(items, n, kind) {
      GroupsWhole(items[..n]);
      assert BothOrNeither(items[n].volume);
      hide Run, HasPhysicalDb;
    }
    hide Mixes, ClashesAt;
    MixedExactly(items, kind);
  }

  /** A db on a whole disk with one id tag only, and the block volume of another OSD that names it. */
  function MixedVolumes(): seq<Volume> {
    [Volume("/dev/sdb", "db", "", [], "/dev/vg/block", "", "a", ""),
     Volume("/dev/vg/block", "block", "/dev/vg/block", ["/dev/sda"], "", "/dev/sdb", "b", "c")]
  }

  function TwoDisks(): DisksReport {
    DisksReport(
      map["/dev/sda" := BlockDevice("disk", []), "/dev/sdb" := BlockDevice("disk", [])],
      map["/dev/sda" := "/dev/sda", "/dev/sdb" := "/dev/sdb"])
  }

  function MixedItems(): seq<Item> {
    [Item(MixedVolumes()[0], DeviceEntry("/dev/sdb", "/dev/sdb", ""), true),
     Item(MixedVolumes()[1], DeviceEntry("/dev/sda", "/dev/vg/block", ""), false)]
  }

  lemma {:induction false} MixedAccepted(rank: string -> nat)
    ensures AliasAcyclic(TwoDisks(), rank)
    ensures forall i :: 0 <= i < 2 ==> Judge(MixedVolumes()[i], TwoDisks(), rank) == Accepted(MixedItems()[i])
  {
    var report := TwoDisks();
    assert forall name :: Device(report.blocks, name).parents == [];
    assert "/dev/sda"[..5] == "/dev/" && "/dev/sdb"[..5] == "/dev/";
    assert FindDiskName("/dev/sdb", report, rank) == Disk("/dev/sdb");
    assert FindDiskName("/dev/sda", report, rank) == Disk("/dev/sda");
  }

  /** Accepted volumes of two OSDs in one group, because one of them has one id tag only. */
  lemma {:induction false} PartialTagsMix(rank: string -> nat)
    ensures exists volumes: seq<Volume>, report: DisksReport, items: seq<Item> ::
      && AliasAcyclic(report, rank) && |items| == |volumes| == 2
      && (forall i :: 0 <= i < 2 ==> Judge(volumes[i], report, rank) == Accepted(items[i]))
      && Mixes(items, 0, 1, OsdId)
  {
    var items := MixedItems();
    MixedAccepted(rank);
    MixedMix(items[0], items[1]);
    assert items == [items[0], items[1]];
  }

  lemma {:induction false} MixedMix(db: Item, block: Item)
    requires db.volume == MixedVolumes()[0] && block.volume == MixedVolumes()[1]
    ensures Mixes([db, block], 0, 1, OsdId)
  {
    var items := [db, block];
    assert items[..0] == [] && items[..1] == [db] && [db][..0] == [];
    var st := Run([db]);
    assert st == Place(Run([]), db);
    assert "/dev/sdb" in st.index && st.index["/dev/sdb"] == 0;
    assert PartitionOf(db) in st.groups[0].partitions;
    assert HasPhysicalDb(st.groups[0].partitions);
    assert Owner(items, 0) == 0 && Owner(items, 1) == 0;
  }

  // -------------------------------------------------------------------- two halves meet

  /** `w` is the other half of `v`. */
  predicate Names(v: Volume, w: Volume) {
    Reference(v) == w.path
  }

  /** Two volumes of a well-formed list: one naming the other is named back and of the same OSD. */
  ghost predicate Apart(v: Volume, w: Volume) {
    && v.path != w.path
    && (Names(v, w) ==> Names(w, v) && (IsLegacy(v) || IsLegacy(w) || (v.osdFsid == w.osdFsid && v.clusterFsid == w.clusterFsid)))
    && (Reference(v) == Reference(w) ==> Reference(v) == "")
  }

  ghost predicate Paired(items: seq<Item>) {
    && (forall i :: 0 <= i < |items| ==> items[i].volume.path != "" && !Names(items[i].volume, items[i].volume))
    && (forall i, j :: 0 <= i < |items| && 0 <= j < |items| && i != j ==> Apart(items[i].volume, items[j].volume))
  }

  /** Two volumes share a group exactly if they are the halves of one OSD. */
  ghost predicate Exact(items: seq<Item>) {
    forall i, j :: 0 <= i < |items| && 0 <= j < |items| && i != j ==>
      (Owner(items, i) == Owner(items, j) <==> Names(items[i].volume, items[j].volume))
  }

  ghost predicate Met(items: seq<Item>, v: Volume) {
    exists j :: 0 <= j < |items| && Names(v, items[j].volume)
  }

  /** A group founded by this volume that nobody has joined. */
  ghost predicate Alone(g: Group, item: Item) {
    SameIds(g, item.volume) && PartitionOf(item) in g.partitions
  }

  /** While its other half is missing, a volume is found under its path in its own group. */
  ghost predicate Findable(st: State, items: seq<Item>, i: nat)
    requires i < |items|
  {
    var path := items[i].volume.path;
    path in st.index && st.index[path] == Owner(items, i) < |st.groups| && Alone(st.groups[Owner(items, i)], items[i])
  }

  /** The index holds only paths that were seen or named. */
  ghost predicate Seen(items: seq<Item>, path: string) {
    exists i :: 0 <= i < |items| && (path == items[i].volume.path || path == Reference(items[i].volume))
  }

  ghost predicate IndexTells(st: State, items: seq<Item>) {
    && (forall path :: path in st.index ==> Seen(items, path))
    && (forall i :: 0 <= i < |items| && !Met(items, items[i].volume) ==> Findable(st, items, i))
  }

  lemma {:induction false} FindsPartner(items: seq<Item>, x: Item, j: nat)
    requires j < |items| && Paired(items + [x]) && IndexTells(Run(items), items) && Names(x.volume, items[j].volume)
    ensures !Met(items, items[j].volume)
    ensures Target(Run(items), x.volume) == Some(Owner(items, j))
  {
    var all := items + [x];
    assert all[j] == items[j] && all[|items|] == x;
    assert Apart(x.volume, items[j].volume);
    forall k | 0 <= k < |items| ensures !Names(items[j].volume, items[k].volume) {
      assert all[k] == items[k];
      assert Apart(all[k].volume, x.volume);
    }
    assert Findable(Run(items), items, j);
    assert HasPhysicalDb(Run(items).groups[Owner(items, j)].partitions) || !IsLegacy(items[j].volume);
  }

  lemma {:induction false} FindsNothing(items: seq<Item>, x: Item)
    requires Paired(items + [x]) && IndexTells(Run(items), items) && !Met(items, x.volume)
    ensures Existing(Run(items), x.volume) == None
  {
    var all, st, v := items + [x], Run(items), x.volume;
    assert all[|items|] == x;
    var key := if Reference(v) != "" then Reference(v) else v.path;
    forall i | 0 <= i < |items| ensures key != items[i].volume.path && key != Reference(items[i].volume) {
      assert all[i] == items[i];
      assert Apart(items[i].volume, v) && Apart(v, items[i].volume);
    }
    assert !Seen(items, key);
  }

  lemma {:induction false} PlacedTells(items: seq<Item>, x: Item)
    requires Paired(items + [x]) && IndexTells(Run(items), items) && Exact(items)
    ensures IndexTells(Place(Run(items), x), items + [x])
  {
    hide Exact, IndexTells;
    var all, n := items + [x], |items|;
    assert all[..n] == items;
    forall path | path in Place(Run(items), x).index ensures Seen(all, path) { PlacedSeen(items, x, path); }
    forall i | 0 <= i < |all| && !Met(all, all[i].volume) ensures Findable(Place(Run(items), x), all, i) {
      if i < n { StillFindable(items, x, i); } else { NowFindable(items, x); }
    }
    TellsFrom(Place(Run(items), x), all);
  }

  lemma {:induction false} TellsFrom(st: State, items: seq<Item>)
    requires forall path :: path in st.index ==> Seen(items, path)
    requires forall i :: 0 <= i < |items| && !Met(items, items[i].volume) ==> Findable(st, items, i)
    ensures IndexTells(st, items)
  {
  }

  lemma {:induction false} PlacedSeen(items: seq<Item>, x: Item, path: string)
    requires IndexTells(Run(items), items) && path in Place(Run(items), x).index
    ensures Seen(items + [x], path)
  {
    var all := items + [x];
    assert all[|items|] == x;
    if path in Run(items).index {
      var i :| 0 <= i < |items| && (path == items[i].volume.path || path == Reference(items[i].volume));
      assert all[i] == items[i];
    }
  }

  lemma {:induction false} StillFindable(items: seq<Item>, x: Item, i: nat)
    requires Paired(items + [x]) && IndexTells(Run(items), items) && Exact(items)
    requires i < |items| && !Met(items + [x], items[i].volume)
    ensures Findable(Place(Run(items), x), items + [x], i)
  {
    hide IndexTells, Exact;
    var all := items + [x];
    assert all[|items|] == x && all[i] == items[i] && all[..i] == items[..i];
    assert forall j :: 0 <= j < |items| ==> all[j] == items[j];
    assert !Met(items, items[i].volume);
    IsFindable(Run(items), items, i);
    assert Apart(x.volume, items[i].volume);
    PlacedElsewhere(items, x, i);
    hide Owner, Paired, Met, Apart;
    PlaceSpares(Run(items), x, items[i], Owner(items, i));
  }

  lemma {:induction false} IsFindable(st: State, items: seq<Item>, i: nat)
    requires IndexTells(st, items) && i < |items| && !Met(items, items[i].volume)
    ensures Findable(st, items, i)
  {
  }

  /** A volume does not join the group of one it has nothing to do with. */
  lemma {:induction false} PlacedElsewhere(items: seq<Item>, x: Item, i: nat)
    requires Paired(items + [x]) && IndexTells(Run(items), items) && Exact(items)
    requires i < |items| && !Names(items[i].volume, x.volume)
    ensures Target(Run(items), x.volume) != Some(Owner(items, i))
  {
    OwnerAgainstNew(items, x, i);
  }

  lemma {:induction false} PlaceSpares(st: State, x: Item, item: Item, g: nat)
    requires InRange(st) && g < |st.groups| && Alone(st.groups[g], item) && Look(st.index, item.volume.path) == Some(g)
    requires x.volume.path != item.volume.path && Target(st, x.volume) != Some(g)
    ensures var st' := Place(st, x);
      g < |st'.groups| && Alone(st'.groups[g], item) && Look(st'.index, item.volume.path) == Some(g)
  {
  }

  lemma {:induction false} NowFindable(items: seq<Item>, x: Item)
    requires Paired(items + [x]) && IndexTells(Run(items), items) && !Met(items + [x], x.volume)
    ensures Findable(Place(Run(items), x), items + [x], |items|)
  {
    var all := items + [x];
    assert all[|items|] == x && all[..|items|] == items;
    assert forall j :: 0 <= j < |items| ==> all[j] == items[j];
    FindsNothing(items, x);
  }

  lemma {:induction false} PlacedExact(items: seq<Item>, x: Item)
    requires Paired(items + [x]) && IndexTells(Run(items), items) && Exact(items)
    ensures Exact(items + [x])
  {
    hide IndexTells;
    var all, n := items + [x], |items|;
    assert all[n] == x && all[..n] == items;
    forall i | 0 <= i < n ensures Owner(all, i) == Owner(items, i) { OwnerPrefix(all, n, i); }
    forall i | 0 <= i < n
      ensures Owner(all, i) == Owner(all, n) <==> Names(x.volume, items[i].volume)
      ensures Names(x.volume, items[i].volume) <==> Names(items[i].volume, x.volume)
    {
      OwnerAgainstNew(items, x, i);
    }
  }

  lemma {:induction false} OwnerAgainstNew(items: seq<Item>, x: Item, i: nat)
    requires Paired(items + [x]) && IndexTells(Run(items), items) && Exact(items) && i < |items|
    ensures Owner(items, i) == PlacedAt(Run(items), x.volume) <==> Names(x.volume, items[i].volume)
    ensures Names(x.volume, items[i].volume) <==> Names(items[i].volume, x.volume)
  {
    var all := items + [x];
    assert all[i] == items[i] && all[|items|] == x;
    assert Apart(x.volume, items[i].volume) && Apart(items[i].volume, x.volume);
    if j :| 0 <= j < |items| && Names(x.volume, items[j].volume) {
      FindsPartner(items, x, j);
      assert all[j] == items[j] && Apart(x.volume, items[j].volume);
      if i != j { assert !Names(items[j].volume, items[i].volume); }
    } else {
      FindsNothing(items, x);
      OwnersInRange(items, i);
    }
  }

  /** In a list of well-formed halves, groups are exactly the OSDs, in whatever order the halves come. */
  lemma {:induction false} GroupsAreOsds(items: seq<Item>)
    requires Paired(items)
    ensures Exact(items) && IndexTells(Run(items), items)
  {
    if items != [] {
      var n := |items| - 1;
      var front := items[..n];
      assert items == front + [items[n]];
      assert Paired(front);
      GroupsAreOsds(front);
      PlacedExact(front, items[n]);
      PlacedTells(front, items[n]);
    }
  }
}
