/**
 * Block-device ancestry and the index from disks to the OSDs on them
 * (pkg/disk-daemon/disk_reporter.go, pkg/common/lcm_utils.go).
 */
module Disks {
  import opened Wrappers
  import opened Sorting

  datatype BlockDevice = BlockDevice(kind: string, parents: seq<string>)

  type Blocks = map<string, BlockDevice>

  datatype DisksReport = DisksReport(blocks: Blocks, aliases: map<string, string>)

  /** A missing device reads as one without type and parents. */
  function Device(blocks: Blocks, name: string): BlockDevice {
    if name in blocks then blocks[name] else BlockDevice("", [])
  }

  predicate IsDisk(blocks: Blocks, name: string) {
    Device(blocks, name).kind == "disk"
  }

  /** A missing alias reads as the empty name. */
  function Alias(report: DisksReport, name: string): string {
    if name in report.aliases then report.aliases[name] else ""
  }

  /** The devices a search goes on to: a disk ends it. */
  function Up(blocks: Blocks, name: string): seq<string> {
    if IsDisk(blocks, name) then [] else Device(blocks, name).parents
  }

  /** `rank` falls from every device below disks to its parents. */
  ghost predicate Acyclic(blocks: Blocks, rank: string -> nat) {
    forall name, k :: 0 <= k < |Up(blocks, name)| ==> rank(Up(blocks, name)[k]) < rank(name)
  }

  // -------------------------------------------------------------------- the disks below

  function FindDisks(name: string, blocks: Blocks, ghost rank: string -> nat): (disks: seq<string>)
    requires Acyclic(blocks, rank)
    decreases rank(name), 1, 0
  {
    var device := Device(blocks, name);
    assert device.kind != "disk" ==> Up(blocks, name) == device.parents;
    if device.kind == "disk" then [name]
    else if |device.parents| > 1 then FindAll(device.parents, blocks, rank, rank(name))
    else if |device.parents| == 0 then []
    else FindDisks(device.parents[0], blocks, rank)
  }

  function FindAll(names: seq<string>, blocks: Blocks, ghost rank: string -> nat, ghost bound: nat): (disks: seq<string>)
    requires Acyclic(blocks, rank) && forall k :: 0 <= k < |names| ==> rank(names[k]) < bound
    decreases bound, 0, |names|
  {
    if names == [] then []
    else FindDisks(names[0], blocks, rank) + FindAll(names[1..], blocks, rank, bound)
  }

  /** A walk from a device through its ancestors, none but the last a disk. */
  ghost predicate IsWalk(blocks: Blocks, walk: seq<string>) {
    && walk != []
    && IsDisk(blocks, walk[|walk| - 1])
    && forall k :: 0 <= k < |walk| - 1 ==> !IsDisk(blocks, walk[k]) && walk[k + 1] in Device(blocks, walk[k]).parents
  }

  ghost predicate LiesOn(blocks: Blocks, name: string, disk: string) {
    exists walk :: IsWalk(blocks, walk) && walk[0] == name && walk[|walk| - 1] == disk
  }

  lemma {:induction false} LiesOnDown(blocks: Blocks, name: string, disk: string)
    requires LiesOn(blocks, name, disk)
    ensures if IsDisk(blocks, name) then disk == name else exists p :: p in Device(blocks, name).parents && LiesOn(blocks, p, disk)
  {
    hide Device;
    var walk :| IsWalk(blocks, walk) && walk[0] == name && walk[|walk| - 1] == disk;
    if !IsDisk(blocks, name) {
      var rest := walk[1..];
      assert IsWalk(blocks, rest) && rest[0] == walk[1] && rest[|rest| - 1] == disk;
      assert LiesOn(blocks, walk[1], disk);
      assert walk[0 + 1] in Device(blocks, walk[0]).parents;
    }
  }

  lemma {:induction false} LiesOnUp(blocks: Blocks, name: string, p: string, disk: string)
    requires !IsDisk(blocks, name) && p in Device(blocks, name).parents && LiesOn(blocks, p, disk)
    ensures LiesOn(blocks, name, disk)
  {
    hide Device, IsDisk;
    var walk :| IsWalk(blocks, walk) && walk[0] == p && walk[|walk| - 1] == disk;
    var longer := [name] + walk;
    assert longer[|longer| - 1] == disk;
    assert forall k :: 1 <= k < |longer| ==> longer[k] == walk[k - 1];
    assert IsWalk(blocks, longer) && longer[0] == name;
  }

  /** One step up, or none at a disk. */
  lemma {:induction false} LiesOnStep(blocks: Blocks, name: string, disk: string)
    ensures LiesOn(blocks, name, disk) <==>
      if IsDisk(blocks, name) then disk == name else exists p :: p in Device(blocks, name).parents && LiesOn(blocks, p, disk)
  {
    if LiesOn(blocks, name, disk) {
      LiesOnDown(blocks, name, disk);
    } else if IsDisk(blocks, name) {
      assert !IsWalk(blocks, [name]) || disk != name;
    } else {
      hide LiesOn;
      forall p | p in Device(blocks, name).parents ensures !LiesOn(blocks, p, disk) {
        if LiesOn(blocks, p, disk) { LiesOnUp(blocks, name, p, disk); }
      }
    }
  }

  /** The disks found are exactly those the device lies on. */
  lemma {:induction false} FindDisksExact(name: string, blocks: Blocks, rank: string -> nat, disk: string)
    requires Acyclic(blocks, rank)
    ensures disk in FindDisks(name, blocks, rank) <==> LiesOn(blocks, name, disk)
    decreases rank(name), 1, 0
  {
    hide LiesOn;
    LiesOnStep(blocks, name, disk);
    var parents := Device(blocks, name).parents;
    if !IsDisk(blocks, name) {
      assert Up(blocks, name) == parents;
      if |parents| > 1 {
        FindAllExact(parents, blocks, rank, rank(name), disk);
      } else if |parents| == 1 {
        FindDisksExact(parents[0], blocks, rank, disk);
      }
    }
  }

  lemma {:induction false} FindAllExact(names: seq<string>, blocks: Blocks, rank: string -> nat, bound: nat, disk: string)
    requires Acyclic(blocks, rank) && forall k :: 0 <= k < |names| ==> rank(names[k]) < bound
    ensures disk in FindAll(names, blocks, rank, bound) <==> exists p :: p in names && LiesOn(blocks, p, disk)
    decreases bound, 0, |names|
  {
    hide LiesOn, FindDisks;
    if names != [] {
      FindDisksExact(names[0], blocks, rank, disk);
      FindAllExact(names[1..], blocks, rank, bound, disk);
      assert names == [names[0]] + names[1..];
    }
  }

  // ------------------------------------------------------------------ the one disk below

  datatype DiskResult = Disk(name: string) | MultipleDisks | NotFound

  function PathDevPrepended(name: string): (path: string)
    ensures "/dev/" <= path
  {
    if "/dev/" <= name then name else "/dev/" + name
  }

  /** The search by alias goes up as well. */
  ghost predicate AliasAcyclic(report: DisksReport, rank: string -> nat) {
    forall name {:trigger Device(report.blocks, name)} ::
      var device := Device(report.blocks, name);
      device.kind != "disk" && |device.parents| == 1 && PathDevPrepended(device.parents[0]) in report.aliases ==>
        rank(report.aliases[PathDevPrepended(device.parents[0])]) < rank(name)
  }

  function FindDiskName(name: string, report: DisksReport, ghost rank: string -> nat): (r: DiskResult)
    requires AliasAcyclic(report, rank)
    ensures r.Disk? ==> IsDisk(report.blocks, r.name)
    decreases PathDevPrepended(name) in report.aliases, rank(Alias(report, PathDevPrepended(name)))
  {
    var path := PathDevPrepended(name);
    if path in report.aliases then
      var device := Device(report.blocks, report.aliases[path]);
      if device.kind == "disk" then Disk(report.aliases[path])
      else if |device.parents| == 1 then FindDiskName(device.parents[0], report, rank)
      else if |device.parents| > 1 then MultipleDisks
      else NotFound
    else NotFound
  }

  /** Parents are known by their own names, and known if they are devices at all. */
  ghost predicate ParentsNamed(report: DisksReport) {
    forall name, p :: p in Up(report.blocks, name) ==>
      && (PathDevPrepended(p) in report.aliases ==> report.aliases[PathDevPrepended(p)] == p)
      && (p in report.blocks ==> PathDevPrepended(p) in report.aliases)
  }

  /** From the device to its disk nothing has two parents. */
  ghost predicate SingleChain(name: string, blocks: Blocks, rank: string -> nat)
    requires Acyclic(blocks, rank)
    decreases rank(name)
  {
    var up := Up(blocks, name);
    |up| <= 1 && (|up| == 1 ==> SingleChain(up[0], blocks, rank))
  }

  /**
   * The two searches agree: a disk is named exactly for the known names above which nothing
   * branches and a disk is found, and then it is the only one.
   */
  lemma {:induction false} SearchesAgree(name: string, report: DisksReport, rank: string -> nat)
    requires Acyclic(report.blocks, rank) && AliasAcyclic(report, rank) && ParentsNamed(report)
    ensures var path := PathDevPrepended(name);
      if path !in report.aliases then FindDiskName(name, report, rank) == NotFound
      else
        var found := FindDisks(report.aliases[path], report.blocks, rank);
        if !SingleChain(report.aliases[path], report.blocks, rank) then FindDiskName(name, report, rank) == MultipleDisks
        else found == match FindDiskName(name, report, rank) case Disk(d) => [d] case _ => []
    decreases PathDevPrepended(name) in report.aliases, rank(Alias(report, PathDevPrepended(name)))
  {
    var path := PathDevPrepended(name);
    if path in report.aliases {
      var now := report.aliases[path];
      var device := Device(report.blocks, now);
      if device.kind != "disk" && |device.parents| == 1 {
        var p := device.parents[0];
        assert Up(report.blocks, now) == device.parents && p in Up(report.blocks, now);
        SearchesAgree(p, report, rank);
        if PathDevPrepended(p) !in report.aliases {
          assert p !in report.blocks && Up(report.blocks, p) == [];
          assert SingleChain(p, report.blocks, rank) && SingleChain(now, report.blocks, rank);
        }
      }
    }
  }

  // ----------------------------------------------------------------- disks to their OSDs

  /** One ceph-volume record of an OSD; empty strings are absent tags. */
  datatype Volume = Volume(path: string, kind: string, lvPath: string, devices: seq<string>,
                           blockDevice: string, dbDevice: string, osdFsid: string, clusterFsid: string)

  /** A raw OSD, with its id in decimal. */
  datatype RawVolume = RawVolume(device: string, osdId: string)

  /** The device with this name or alias lies on the disk; an unknown name reads as the empty one. */
  ghost predicate NamedOn(report: DisksReport, name: string, disk: string) {
    LiesOn(report.blocks, if name in report.aliases then report.aliases[name] else "", disk)
  }

  ghost predicate VolumeOn(report: DisksReport, volume: Volume, disk: string) {
    if volume.devices == [] then NamedOn(report, volume.path, disk)
    else exists k :: 0 <= k < |volume.devices| && NamedOn(report, volume.devices[k], disk)
  }

  ghost predicate OsdOn(report: DisksReport, volumes: seq<Volume>, disk: string) {
    exists v :: v in volumes && VolumeOn(report, v, disk)
  }

  /** The disk of a raw OSD, if it has one. */
  function RawDisk(report: DisksReport, raw: RawVolume, ghost rank: string -> nat): Option<string>
    requires Acyclic(report.blocks, rank)
  {
    var disks := FindDisks(Alias(report, raw.device), report.blocks, rank);
    if |disks| > 0 then Some(disks[0]) else None
  }

  ghost predicate RawOn(report: DisksReport, raws: map<string, RawVolume>, rank: string -> nat, disk: string)
    requires Acyclic(report.blocks, rank)
  {
    exists key :: key in raws && RawDisk(report, raws[key], rank) == Some(disk)
  }

  lemma {:induction false} FoundNamed(report: DisksReport, name: string, rank: string -> nat, disk: string)
    requires Acyclic(report.blocks, rank)
    ensures disk in FindDisks(Alias(report, name), report.blocks, rank) <==> NamedOn(report, name, disk)
  {
    hide LiesOn, FindDisks, Acyclic;
    FindDisksExact(Alias(report, name), report.blocks, rank, disk);
  }

  /** A raw OSD has a disk exactly if its device lies on one, and then one of those. */
  lemma {:induction false} RawDiskExact(report: DisksReport, raw: RawVolume, rank: string -> nat)
    requires Acyclic(report.blocks, rank)
    ensures RawDisk(report, raw, rank).Some? ==> NamedOn(report, raw.device, RawDisk(report, raw, rank).value)
    ensures RawDisk(report, raw, rank).None? ==> forall disk :: !NamedOn(report, raw.device, disk)
  {
    hide NamedOn, FindDisks, Acyclic;
    var disks := FindDisks(Alias(report, raw.device), report.blocks, rank);
    forall disk ensures disk in disks <==> NamedOn(report, raw.device, disk) { FoundNamed(report, raw.device, rank, disk); }
    if |disks| > 0 { assert disks[0] in disks; }
  }

  /** The device lies on this disk and no other. */
  ghost predicate OnlyOn(report: DisksReport, name: string, disk: string) {
    forall d :: NamedOn(report, name, d) <==> d == disk
  }

  /** The disk lists one raw OSD, which lies on it, and nothing else. */
  ghost predicate ListsRaw(report: DisksReport, raws: map<string, RawVolume>, disk: string, ids: Option<seq<string>>) {
    exists key :: key in raws && NamedOn(report, raws[key].device, disk) && ids == Some([raws[key].osdId])
  }

  lemma {:induction false} RawShown(report: DisksReport, raws: map<string, RawVolume>, rank: string -> nat, key: string, disk: string, ids: Option<seq<string>>)
    requires Acyclic(report.blocks, rank) && key in raws && OnlyOn(report, raws[key].device, disk)
    requires RawOn(report, raws, rank, disk) ==> RawListed(report, raws, rank, disk, ids)
    ensures ListsRaw(report, raws, disk, ids)
  {
    hide NamedOn, RawDisk;
    RawDiskExact(report, raws[key], rank);
    assert NamedOn(report, raws[key].device, disk);
    assert RawDisk(report, raws[key], rank) == Some(disk);
    assert RawOn(report, raws, rank, disk);
    var other :| other in raws && RawDisk(report, raws[other], rank) == Some(disk) && ids == Some([raws[other].osdId]);
    RawDiskExact(report, raws[other], rank);
  }

  /** A disk no raw OSD lies on has no raw OSD. */
  lemma {:induction false} NoRawOn(report: DisksReport, raws: map<string, RawVolume>, rank: string -> nat, disk: string)
    requires Acyclic(report.blocks, rank) && forall key :: key in raws ==> !NamedOn(report, raws[key].device, disk)
    ensures !RawOn(report, raws, rank, disk)
  {
    hide NamedOn, RawDisk;
    forall key | key in raws ensures RawDisk(report, raws[key], rank) != Some(disk) { RawDiskExact(report, raws[key], rank); }
  }

  method VolumeDisks(report: DisksReport, volume: Volume, ghost rank: string -> nat) returns (disks: set<string>)
    requires Acyclic(report.blocks, rank)
    ensures forall d :: d in disks <==> VolumeOn(report, volume, d)
  {
    hide NamedOn, FindDisks, Acyclic;
    disks := {};
    if |volume.devices| > 0 {
      for i := 0 to |volume.devices|
        invariant forall d :: d in disks <==> exists k :: 0 <= k < i && NamedOn(report, volume.devices[k], d)
      {
        var found := FindDisks(Alias(report, volume.devices[i]), report.blocks, rank);
        forall d ensures d in found <==> NamedOn(report, volume.devices[i], d) { FoundNamed(report, volume.devices[i], rank, d); }
        disks := disks + (set d | d in found);
      }
    } else {
      var found := FindDisks(Alias(report, volume.path), report.blocks, rank);
      forall d ensures d in found <==> NamedOn(report, volume.path, d) { FoundNamed(report, volume.path, rank, d); }
      disks := set d | d in found;
    }
  }

  type Index = map<string, set<string>>

  function Ids(index: Index, disk: string): set<string> {
    if disk in index then index[disk] else {}
  }

  function Added(index: Index, disk: string, osd: string): (index': Index)
    ensures forall d :: d in index' <==> d in index || d == disk
    ensures forall d, id :: id in Ids(index', d) <==> id in Ids(index, d) || (d == disk && id == osd)
  {
    index[disk := Ids(index, disk) + {osd}]
  }

  /** Adds the OSD under each of the disks. */
  method AddOsd(index: Index, disks: set<string>, osd: string) returns (index': Index)
    ensures forall d, id :: id in Ids(index', d) <==> id in Ids(index, d) || (d in disks && id == osd)
    ensures forall d :: d in index' <==> d in index || d in disks
  {
    hide Ids, Added;
    index' := index;
    var left := disks;
    while left != {}
      invariant left <= disks
      invariant forall d :: d in index' <==> d in index || (d in disks && d !in left)
      invariant forall d, id :: id in Ids(index', d) <==> id in Ids(index, d) || (d in disks && d !in left && id == osd)
      decreases |left|
    {
      var d :| d in left;
      index', left := Added(index', d, osd), left - {d};
    }
  }

  method IndexOsd(index: Index, report: DisksReport, osd: string, volumes: seq<Volume>, ghost rank: string -> nat) returns (index': Index)
    requires Acyclic(report.blocks, rank)
    ensures forall d, id :: id in Ids(index', d) <==> id in Ids(index, d) || (id == osd && OsdOn(report, volumes, d))
    ensures forall d :: d in index' <==> d in index || OsdOn(report, volumes, d)
  {
    hide VolumeOn, Ids;
    index' := index;
    for i := 0 to |volumes|
      invariant forall d, id :: id in Ids(index', d) <==> id in Ids(index, d) || (id == osd && OsdOn(report, volumes[..i], d))
      invariant forall d :: d in index' <==> d in index || OsdOn(report, volumes[..i], d)
    {
      var disks := VolumeDisks(report, volumes[i], rank);
      index' := AddOsd(index', disks, osd);
      forall d ensures OsdOn(report, volumes[..i + 1], d) <==> OsdOn(report, volumes[..i], d) || d in disks {
        assert volumes[..i + 1] == volumes[..i] + [volumes[i]];
      }
    }
    assert volumes[..|volumes|] == volumes;
  }

  /** Some volume of the OSD with this id lies on the disk. */
  ghost predicate LvmOn(report: DisksReport, lvm: map<string, seq<Volume>>, id: string, disk: string) {
    id in lvm && OsdOn(report, lvm[id], disk)
  }

  /** Every disk with an LVM OSD and no other, each with its OSDs. */
  method LvmIndex(lvm: map<string, seq<Volume>>, report: DisksReport, ghost rank: string -> nat) returns (index: Index)
    requires Acyclic(report.blocks, rank)
    ensures forall d, id :: id in Ids(index, d) <==> LvmOn(report, lvm, id, d)
    ensures forall d :: d in index <==> exists id :: LvmOn(report, lvm, id, d)
  {
    hide OsdOn, Ids;
    index := map[];
    var left := lvm.Keys;
    forall d ensures Ids(map[], d) == {} { EmptyIndex(d); }
    while left != {}
      invariant left <= lvm.Keys
      invariant forall d, id :: id in Ids(index, d) <==> id !in left && LvmOn(report, lvm, id, d)
      invariant forall d :: d in index <==> exists id :: id !in left && LvmOn(report, lvm, id, d)
      decreases |left|
    {
      var osd :| osd in left;
      index := IndexOsd(index, report, osd, lvm[osd], rank);
      left := left - {osd};
    }
  }

  lemma {:induction false} EmptyIndex(d: string)
    ensures Ids(map[], d) == {}
  {
  }

  method SortIndex(index: Index) returns (r: map<string, seq<string>>)
    ensures r.Keys == index.Keys
    ensures forall d :: d in r ==> Ascending(r[d]) && forall id :: id in r[d] <==> id in Ids(index, d)
  {
    hide Ascending;
    r := map[];
    var left := index.Keys;
    while left != {}
      invariant left <= index.Keys && r.Keys == index.Keys - left
      invariant forall d :: d in r ==> Ascending(r[d]) && forall id :: id in r[d] <==> id in Ids(index, d)
      decreases |left|
    {
      var d :| d in left;
      var sorted := SortStrings(index[d]);
      r, left := r[d := sorted], left - {d};
    }
  }

  /** One of the raw OSDs of the disk, and nothing else, is listed there. */
  ghost predicate RawListed(report: DisksReport, raws: map<string, RawVolume>, rank: string -> nat, d: string, ids: Option<seq<string>>)
    requires Acyclic(report.blocks, rank)
  {
    exists key :: key in raws && RawDisk(report, raws[key], rank) == Some(d) && ids == Some([raws[key].osdId])
  }

  /** Raw OSDs replace what is listed under their disks. */
  method PlaceRaws(listed: map<string, seq<string>>, raws: map<string, RawVolume>, report: DisksReport, ghost rank: string -> nat)
    returns (r: map<string, seq<string>>)
    requires Acyclic(report.blocks, rank)
    ensures forall d :: if RawOn(report, raws, rank, d) then RawListed(report, raws, rank, d, Look(r, d)) else Look(r, d) == Look(listed, d)
  {
    hide RawDisk;
    r := listed;
    var left := raws.Keys;
    ghost var done: map<string, RawVolume> := map[];
    while left != {}
      invariant left <= raws.Keys && done.Keys == raws.Keys - left && forall key :: key in done ==> done[key] == raws[key]
      invariant forall d :: if RawOn(report, done, rank, d) then RawListed(report, done, rank, d, Look(r, d)) else Look(r, d) == Look(listed, d)
      decreases |left|
    {
      var key :| key in left;
      var disk := RawDisk(report, raws[key], rank);
      ghost var before, was := done, r;
      done, left := done[key := raws[key]], left - {key};
      if disk.Some? { r := r[disk.value := [raws[key].osdId]]; }
      forall d
        ensures if RawOn(report, done, rank, d) then RawListed(report, done, rank, d, Look(r, d)) else Look(r, d) == Look(listed, d)
      {
        RawPlaced(report, before, rank, key, raws[key], d, listed, was, r);
      }
    }
    assert done == raws;
  }

  lemma {:induction false} RawPlaced(report: DisksReport, before: map<string, RawVolume>, rank: string -> nat, key: string, raw: RawVolume, d: string,
                  listed: map<string, seq<string>>, was: map<string, seq<string>>, r: map<string, seq<string>>)
    requires Acyclic(report.blocks, rank) && key !in before
    requires if RawOn(report, before, rank, d) then RawListed(report, before, rank, d, Look(was, d)) else Look(was, d) == Look(listed, d)
    requires Look(r, d) == if RawDisk(report, raw, rank) == Some(d) then Some([raw.osdId]) else Look(was, d)
    ensures var done := before[key := raw];
      if RawOn(report, done, rank, d) then RawListed(report, done, rank, d, Look(r, d)) else Look(r, d) == Look(listed, d)
  {
    hide RawDisk;
    var done := before[key := raw];
    if RawDisk(report, raw, rank) == Some(d) {
      assert done[key] == raw;
      assert RawListed(report, done, rank, d, Look(r, d));
    } else if RawOn(report, before, rank, d) {
      var other :| other in before && RawDisk(report, before[other], rank) == Some(d) && Look(was, d) == Some([before[other].osdId]);
      assert done[other] == before[other];
      assert RawListed(report, done, rank, d, Look(r, d));
    }
  }

  /**
   * The OSDs of every disk. A disk no raw OSD lies on lists, sorted and once each, exactly the OSDs with a volume on it,
   * if there are any; a disk on which a raw OSD lies alone lists one raw OSD and no other.
   */
  method DiskToOsdMap(lvm: map<string, seq<Volume>>, raws: map<string, RawVolume>, report: DisksReport, ghost rank: string -> nat)
    returns (r: map<string, seq<string>>)
    requires Acyclic(report.blocks, rank)
    ensures forall d :: (forall key :: key in raws ==> !NamedOn(report, raws[key].device, d)) ==> (d in r <==> exists id :: LvmOn(report, lvm, id, d))
    ensures forall d :: d in r && (forall key :: key in raws ==> !NamedOn(report, raws[key].device, d)) ==>
      Ascending(r[d]) && forall id :: id in r[d] <==> LvmOn(report, lvm, id, d)
    ensures forall key, d :: key in raws && OnlyOn(report, raws[key].device, d) ==> ListsRaw(report, raws, d, Look(r, d))
  {
    hide OsdOn, Ascending, RawOn, RawListed, Ids, NamedOn, OnlyOn, ListsRaw, Acyclic;
    var shown := ListOsds(lvm, raws, report, rank);
    forall d | forall key :: key in raws ==> !NamedOn(report, raws[key].device, d) ensures !RawOn(report, raws, rank, d) {
      NoRawOn(report, raws, rank, d);
    }
    forall key, d | key in raws && OnlyOn(report, raws[key].device, d) ensures ListsRaw(report, raws, d, Look(shown, d)) {
      RawShown(report, raws, rank, key, d, Look(shown, d));
    }
    r := shown;
  }

  /** The same by the disk the search finds for a raw OSD. */
  method ListOsds(lvm: map<string, seq<Volume>>, raws: map<string, RawVolume>, report: DisksReport, ghost rank: string -> nat)
    returns (r: map<string, seq<string>>)
    requires Acyclic(report.blocks, rank)
    ensures forall d :: !RawOn(report, raws, rank, d) ==> (d in r <==> exists id :: LvmOn(report, lvm, id, d))
    ensures forall d :: d in r && !RawOn(report, raws, rank, d) ==> Ascending(r[d]) && forall id :: id in r[d] <==> LvmOn(report, lvm, id, d)
    ensures forall d :: RawOn(report, raws, rank, d) ==> RawListed(report, raws, rank, d, Look(r, d))
  {
    hide OsdOn, Ascending, RawOn, RawListed, Ids;
    assert lvm == map[] ==> forall d, id :: !LvmOn(report, lvm, id, d);
    if |lvm| == 0 && |raws| == 0 {
      forall d ensures !RawOn(report, raws, rank, d) { NoRaws(report, raws, rank, d); }
      return map[];
    }
    var index := LvmIndex(lvm, report, rank);
    var listed := SortIndex(index);
    r := PlaceRaws(listed, raws, report, rank);
    assert forall d :: !RawOn(report, raws, rank, d) ==> Look(r, d) == Look(listed, d);
  }

  lemma {:induction false} NoRaws(report: DisksReport, raws: map<string, RawVolume>, rank: string -> nat, d: string)
    requires Acyclic(report.blocks, rank) && |raws| == 0
    ensures !RawOn(report, raws, rank, d)
  {
  }
}
