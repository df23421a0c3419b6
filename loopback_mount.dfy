/**
 * The loopback helper (utils/loopback_mount.c): attach an image read-only to
 * a free loop device with partition scanning added to its flags, count its
 * partitions through blkid, and mount or unmount one directory per
 * partition. Every checked failure ends the process with EXIT_FAILURE; the
 * results of mkdir, umount2, rmdir, close and the per-partition probes are
 * not checked.
 */
module LoopbackMount {
  import opened Wrappers
  import opened Kernel
  import Text

  // sys/mount.h
  const MS_NOSUID: bv32 := 2
  const MS_NODEV: bv32 := 4
  const MS_NOEXEC: bv32 := 8
  const MS_NOATIME: bv32 := 1024
  const MS_SILENT: bv32 := 32768
  const MNT_FORCE: int := 1

  const MOUNT_FLAGS: bv32 := MS_NOATIME | MS_SILENT | MS_NODEV | MS_NOEXEC | MS_NOSUID
  const MOUNT_DATA: string := "journal_checksum,errors=remount-ro,data=ordered"
  const SETTLE_MICROS: nat := 5000

  /** What blkid reported for one partition; calloc leaves every field NULL. */
  datatype PartitionInfo = PartitionInfo(uuid: Option<string>, volumeLabel: Option<string>, fstype: Option<string>)

  const UNPROBED: PartitionInfo := PartitionInfo(None, None, None)

  /** struct partitions; `device` is None until get_image_info stores the loop name in it. */
  datatype Partitions = Partitions(npartitions: int, partitionList: seq<PartitionInfo>, device: Option<string>)

  /** The node of partition `i` (counted from 1) of a loop device: "<loopname>p<i>". */
  function PartitionNode(device: string, i: nat): string
  {
    device + "p" + Text.Decimal(i)
  }

  /** "/mnt/partition<i>", counted from 0. */
  function PartitionDir(i: nat): string
  {
    "/mnt/partition" + Text.Decimal(i)
  }

  // ----- get_loop_device -----

  function LoopDeviceScript(f: int): seq<Op>
  {
    [Open(LOOP_CONTROL, ReadWrite), LoopCtlGetFree(f)]
  }

  /**
   * get_loop_device: like the init shim's, but the control descriptor is
   * left open.
   */
  method GetLoopDevice(k0: Kernel) returns (k: Kernel, loopname: string)
    requires Valid(k0) && k0.status == Running
    ensures Valid(k) && Ran(k0, k, LoopDeviceScript(k0.nextFd))
    ensures k.status == Running <==> WorksAt(k0, 0) && WorksAt(k0, 1) && CanOpen(k0, LOOP_CONTROL, ReadWrite)
    ensures k.status != Running ==> k.status == Exited(EXIT_FAILURE)
    ensures k.status == Running ==>
      loopname == LoopPath(FreeLoop(k0.loops)) && LoopOf(k, loopname) == Some(FreeLoop(k0.loops)) &&
      k == Grow(Opened(k0, LOOP_CONTROL, ReadWrite)).(calls := k.calls, rets := k.rets)
  {
    ghost var script := LoopDeviceScript(k0.nextFd);
    var loopctlfd, devnr;
    k, loopctlfd := OpenCall(k0, LOOP_CONTROL, ReadWrite);
    if loopctlfd == -1 {
      k := ErrExit(k0, k, script);
      return k, "";
    }
    k, devnr := LoopCtlGetFreeCall(k, loopctlfd);
    if devnr == -1 {
      k := ErrExit(k0, k, script);
      return k, "";
    }
    loopname := LoopPath(devnr);
  }

  // ----- set_loop and mount_image_file -----

  /** The flags after adding partition scanning: the scan bit is set and every other bit is kept. */
  function ScanFlags(flags: bv32): (r: bv32)
    ensures r & LO_FLAGS_PARTSCAN == LO_FLAGS_PARTSCAN
    ensures r & !LO_FLAGS_PARTSCAN == flags & !LO_FLAGS_PARTSCAN
  {
    LO_FLAGS_PARTSCAN | flags
  }

  /** What LOOP_GET_STATUS reports right after LOOP_SET_FD binds these descriptors. */
  function BoundStatus(k: Kernel, loopfd: int, filefd: int): bv32
  {
    if CanBind(k, loopfd, filefd) then BoundFlags(k.fds[filefd].mode) else 0
  }

  /** LOOP_SET_STATUS lets partition scanning be turned on, so writing ScanFlags back takes effect whole. */
  lemma ScanFlagsSettable(flags: bv32)
    ensures SetStatusFlags(flags, ScanFlags(flags)) == ScanFlags(flags)
  {
  }

  function SetLoopScript(loopfd: int, filefd: int, flags: bv32): seq<Op>
  {
    [LoopSetFd(loopfd, filefd), LoopGetStatus(loopfd), LoopSetStatus(loopfd, ScanFlags(flags))]
  }

  /**
   * set_loop: bind, read the status, and write it back with partition
   * scanning ORed into the flags just read. Each failure exits.
   */
  method SetLoop(k0: Kernel, loopfd: int, filefd: int) returns (k: Kernel)
    requires Valid(k0) && k0.status == Running
    ensures Valid(k) && Ran(k0, k, SetLoopScript(loopfd, filefd, BoundStatus(k0, loopfd, filefd)))
    ensures k.status == Running || k.status == Exited(EXIT_FAILURE)
    ensures !CanBind(k0, loopfd, filefd) ==> k.status == Exited(EXIT_FAILURE)
    ensures k.status == Running ==>
      var n := LoopOfFd(k0, loopfd).value;
      CanBind(k0, loopfd, filefd) &&
      k == k0.(loops := k0.loops[n := LoopDevice(Some(k0.fds[filefd].path), ScanFlags(BoundStatus(k0, loopfd, filefd)))],
               calls := k.calls, rets := k.rets)
  {
    ghost var script := SetLoopScript(loopfd, filefd, BoundStatus(k0, loopfd, filefd));
    var r, flags;
    k, r := LoopSetFdCall(k0, loopfd, filefd);
    if r == -1 {
      k := ErrExit(k0, k, script);
      return;
    }
    ghost var n := LoopOfFd(k0, loopfd).value;
    assert LoopOfFd(k, loopfd) == Some(n) && IsBoundLoopFd(k, loopfd);
    k, r, flags := LoopGetStatusCall(k, loopfd);
    if r == -1 {
      k := ErrExit(k0, k, script);
      return;
    }
    assert flags == BoundStatus(k0, loopfd, filefd);
    ScanFlagsSettable(flags);
    flags := ScanFlags(flags);
    k, r := LoopSetStatusCall(k, loopfd, flags);
    if r == -1 {
      k := ErrExit(k0, k, script);
      return;
    }
  }

  function MountScript(f: int, loopfd: int, filename: string, flags: bv32): seq<Op>
  {
    [Open(filename, ReadOnly)] + SetLoopScript(loopfd, f, flags) + [Close(f)]
  }

  /** The flags set_loop reads when it binds `filename`, opened read-only next, to `loopfd`. */
  function ReadOnlyStatus(k: Kernel, loopfd: int, filename: string): bv32
  {
    BoundStatus(Opened(k, filename, ReadOnly), loopfd, k.nextFd)
  }

  /**
   * mount_image_file: open the image read-only (a failure exits), bind it with
   * set_loop, and close the backing descriptor. Binding a read-only file
   * gives the device the flag LO_FLAGS_READ_ONLY alone, so the flags written
   * back are LO_FLAGS_READ_ONLY and LO_FLAGS_PARTSCAN. The device still holds
   * the image, so closing the backing descriptor leaves it bound.
   */
  method MountImageFile(k0: Kernel, loopfd: int, filename: string) returns (k: Kernel)
    requires Valid(k0) && k0.status == Running
    ensures Valid(k) && Ran(k0, k, MountScript(k0.nextFd, loopfd, filename, ReadOnlyStatus(k0, loopfd, filename)))
    ensures k.status == Running || k.status == Exited(EXIT_FAILURE)
    ensures k.status == Running ==>
      var k1 := Opened(k0, filename, ReadOnly);
      CanBind(k1, loopfd, k0.nextFd) &&
      var n := LoopOfFd(k1, loopfd).value;
      ReadOnlyStatus(k0, loopfd, filename) == LO_FLAGS_READ_ONLY &&
      k == k1.(fds := k0.fds, loops := k1.loops[n := LoopDevice(Some(filename), LO_FLAGS_READ_ONLY | LO_FLAGS_PARTSCAN)],
               calls := k.calls, rets := k.rets)
  {
    ghost var script := MountScript(k0.nextFd, loopfd, filename, ReadOnlyStatus(k0, loopfd, filename));
    var backingfile, r;
    k, backingfile := OpenCall(k0, filename, ReadOnly);
    if backingfile == -1 {
      k := ErrExit(k0, k, script);
      return;
    }
    var k1 := k;
    k := SetLoop(k, loopfd, backingfile);
    if k.status != Running {
      RanLonger(k1, k, SetLoopScript(loopfd, backingfile, ReadOnlyStatus(k0, loopfd, filename)), [Close(backingfile)]);
      RanThen(k0, k1, k, [Open(filename, ReadOnly)], SetLoopScript(loopfd, backingfile, ReadOnlyStatus(k0, loopfd, filename)) + [Close(backingfile)]);
      return;
    }
    var k2 := k;
    assert k2.loops[LoopOfFd(k2, loopfd).value].backing == Some(k2.fds[backingfile].path);
    k, r := CloseCall(k, backingfile);
    assert k.calls == k0.calls + script;
  }

  // ----- get_partition_info -----

  /** The probes of the partition nodes <loopname>p1 ... <loopname>p<n>, in order. */
  function ChildProbes(loopname: string, n: nat): (r: seq<Op>)
    ensures |r| == n
  {
    if n == 0 then [] else ChildProbes(loopname, n - 1) + [ProbeChild(PartitionNode(loopname, n))]
  }

  /** Partition i, counted from 0, is probed at the node numbered i + 1. */
  lemma {:induction false} ChildProbesIndex(loopname: string, n: nat, i: nat)
    requires i < n
    ensures ChildProbes(loopname, n)[i] == ProbeChild(PartitionNode(loopname, i + 1))
    decreases n
  {
    if i < n - 1 {
      ChildProbesIndex(loopname, n - 1, i);
    }
  }

  /** The count blkid gives for the second call from `k`: -1 when there is no partition list. */
  function ProbeCount(k: Kernel, loopfd: int): int
  {
    if WorksAt(k, 1) then TableOf(k, loopfd) else -1
  }

  function InfoScript(loopfd: int, loopname: string, count: int): seq<Op>
  {
    if count < 0 then [ProbeSetDevice(loopfd)] + [ProbeGetPartitions(loopfd)]
    else [ProbeSetDevice(loopfd)] + [ProbeGetPartitions(loopfd)] + [USleep(SETTLE_MICROS)] + ChildProbes(loopname, count)
  }

  /** The result for a device with `count` partitions: calloc'd entries that no probe fills in. */
  function Unprobed(count: nat): (r: Partitions)
    ensures r.npartitions == count && |r.partitionList| == count && r.device.None?
    ensures forall i :: 0 <= i < count ==> r.partitionList[i] == UNPROBED
  {
    Partitions(count, seq(count, _ => UNPROBED), None)
  }

  /**
   * The loop of get_partition_info over the partition nodes. A node that
   * cannot be probed is reported and skipped; a probe that works is read into
   * a local copy of the list entry. Either way nothing the model tracks
   * changes and the scan goes on.
   */
  method ProbeChildren(k0: Kernel, loopname: string, count: nat) returns (k: Kernel)
    requires Valid(k0) && k0.status == Running
    ensures Valid(k) && k.status == Running && k == k0.(calls := k.calls, rets := k.rets)
    ensures k.calls == k0.calls + ChildProbes(loopname, count)
  {
    k := k0;
    var i := 0;
    while i < count
      invariant 0 <= i <= count
      invariant Valid(k) && k.status == Running && k == k0.(calls := k.calls, rets := k.rets)
      invariant k.calls == k0.calls + ChildProbes(loopname, i)
    {
      var probe;
      k, probe := ProbeChildCall(k, PartitionNode(loopname, i + 1));
      i := i + 1;
    }
  }

  /**
   * get_partition_info: point a probe at the loop descriptor (a failure
   * exits), return NULL when blkid finds no partition list, and otherwise
   * sleep 5 ms and probe every partition node in order. The returned list
   * keeps calloc's zeroes.
   */
  method GetPartitionInfo(k0: Kernel, loopfd: int, loopname: string) returns (k: Kernel, partitions: Option<Partitions>)
    requires Valid(k0) && k0.status == Running
    ensures Valid(k) && Ran(k0, k, InfoScript(loopfd, loopname, ProbeCount(k0, loopfd)))
    ensures k.status == Running <==> Works(k0) && loopfd in k0.fds
    ensures k.status != Running ==> k.status == Exited(EXIT_FAILURE)
    ensures k.status == Running ==> k == k0.(calls := k.calls, rets := k.rets)
    ensures partitions.Some? <==> k.status == Running && ProbeCount(k0, loopfd) >= 0
    ensures partitions.Some? ==> partitions.value == Unprobed(ProbeCount(k0, loopfd))
  {
    ghost var script := InfoScript(loopfd, loopname, ProbeCount(k0, loopfd));
    var r, count;
    k, r := ProbeSetDeviceCall(k0, loopfd);
    if r == -1 {
      k := ErrExit(k0, k, script);
      return k, None;
    }
    k, count := ProbeGetPartitionsCall(k, loopfd);
    if count < 0 {
      return k, None;
    }
    k := Quiet(k, USleep(SETTLE_MICROS), 0);
    var list := seq(count, _ => UNPROBED);
    k := ProbeChildren(k, loopname, count);
    assert k.calls == k0.calls + script;
    partitions := Some(Partitions(count, list, None));
  }

  /**
   * What blkid's lookups of "UUID", "LABEL" and "TYPE" give for a partition
   * node once it is probed; a value it does not find stays NULL.
   */
  type Blkid = string -> PartitionInfo

  /**
   * Entry i of the list as get_partition_info evidently meant to fill it:
   * what blkid reports for node i + 1 when the probe of that node, the call
   * `skip + i` places after the last one of `k`, finds the node, and
   * calloc's zeroes when the probe is skipped.
   */
  function ProbedEntry(k: Kernel, skip: nat, loopname: string, blkid: Blkid, i: nat): PartitionInfo
  {
    var node := PartitionNode(loopname, i + 1);
    if WorksAt(k, skip + i) && CanExec(k, node) then blkid(node) else UNPROBED
  }

  /** The list of `count` entries that writing the lookups into the list, not into a copy, gives. */
  function Probed(k: Kernel, skip: nat, loopname: string, blkid: Blkid, count: nat): (r: Partitions)
    ensures r.npartitions == count && |r.partitionList| == count && r.device.None?
    ensures forall i :: 0 <= i < count ==> r.partitionList[i] == ProbedEntry(k, skip, loopname, blkid, i)
  {
    Partitions(count, seq(count, i requires 0 <= i => ProbedEntry(k, skip, loopname, blkid, i)), None)
  }

  /**
   * The scan of get_partition_info with the lookups written through
   * `&partitions->partition_list[i]`: each node that can be probed fills its
   * own entry, and a missing node leaves its entry zeroed.
   */
  method ProbeChildrenIntended(ghost kb: Kernel, ghost skip: nat, k0: Kernel, loopname: string, count: nat, blkid: Blkid)
    returns (k: Kernel, list: seq<PartitionInfo>)
    requires Valid(k0) && k0.status == Running
    requires k0 == kb.(calls := k0.calls, rets := k0.rets) && |k0.calls| == |kb.calls| + skip
    ensures Valid(k) && k.status == Running && k == k0.(calls := k.calls, rets := k.rets)
    ensures k.calls == k0.calls + ChildProbes(loopname, count)
    ensures list == Probed(kb, skip, loopname, blkid, count).partitionList
  {
    k := k0;
    list := seq(count, _ => UNPROBED);
    var i := 0;
    while i < count
      invariant 0 <= i <= count && |list| == count
      invariant Valid(k) && k.status == Running && k == k0.(calls := k.calls, rets := k.rets)
      invariant k.calls == k0.calls + ChildProbes(loopname, i)
      invariant forall j :: 0 <= j < i ==> list[j] == ProbedEntry(kb, skip, loopname, blkid, j)
      invariant forall j :: i <= j < count ==> list[j] == UNPROBED
    {
      var node := PartitionNode(loopname, i + 1);
      var probe;
      k, probe := ProbeChildCall(k, node);
      if probe != -1 {
        list := list[i := blkid(node)];
      }
      i := i + 1;
    }
  }

  /**
   * get_partition_info as evidently intended: the same calls, the same exits
   * and the same NULL result without a partition list, but the returned list
   * carries what blkid reported for each node it could probe, the fourth and
   * later calls of the function.
   */
  method GetPartitionInfoIntended(k0: Kernel, loopfd: int, loopname: string, blkid: Blkid)
    returns (k: Kernel, partitions: Option<Partitions>)
    requires Valid(k0) && k0.status == Running
    ensures Valid(k) && Ran(k0, k, InfoScript(loopfd, loopname, ProbeCount(k0, loopfd)))
    ensures k.status == Running <==> Works(k0) && loopfd in k0.fds
    ensures k.status != Running ==> k.status == Exited(EXIT_FAILURE)
    ensures k.status == Running ==> k == k0.(calls := k.calls, rets := k.rets)
    ensures partitions.Some? <==> k.status == Running && ProbeCount(k0, loopfd) >= 0
    ensures partitions.Some? ==> partitions.value == Probed(k0, 3, loopname, blkid, ProbeCount(k0, loopfd))
  {
    ghost var s1 := [ProbeSetDevice(loopfd)] + [ProbeGetPartitions(loopfd)];
    ghost var n := ProbeCount(k0, loopfd);
    ghost var s2 := if n < 0 then [] else [USleep(SETTLE_MICROS)] + ChildProbes(loopname, n);
    assert InfoScript(loopfd, loopname, n) == s1 + s2;
    var count;
    k, count := ProbeTable(k0, loopfd);
    if k.status != Running {
      RanLonger(k0, k, s1, s2);
      return k, None;
    }
    if count < 0 {
      assert s1 + s2 == s1;
      return k, None;
    }
    var k1 := k;
    var list;
    k, list := SettleAndProbe(k0, k1, loopname, count, blkid);
    RanThen(k0, k1, k, s1, s2);
    partitions := Some(Partitions(count, list, None));
  }

  /** The first two calls of get_partition_info: point a probe at the descriptor (a failure exits) and read the table's size. */
  method ProbeTable(k0: Kernel, loopfd: int) returns (k: Kernel, count: int)
    requires Valid(k0) && k0.status == Running
    ensures Valid(k) && Ran(k0, k, [ProbeSetDevice(loopfd)] + [ProbeGetPartitions(loopfd)])
    ensures k.status == Running <==> Works(k0) && loopfd in k0.fds
    ensures k.status != Running ==> k.status == Exited(EXIT_FAILURE)
    ensures k.status == Running ==> k == k0.(calls := k.calls, rets := k.rets) && count == ProbeCount(k0, loopfd)
  {
    ghost var script := [ProbeSetDevice(loopfd)] + [ProbeGetPartitions(loopfd)];
    var r;
    k, r := ProbeSetDeviceCall(k0, loopfd);
    if r == -1 {
      k := ErrExit(k0, k, script);
      return k, 0;
    }
    k, count := ProbeGetPartitionsCall(k, loopfd);
  }

  /** The tail of the intended get_partition_info, from the state after its second call: sleep, then scan. */
  method SettleAndProbe(ghost kb: Kernel, k1: Kernel, loopname: string, count: nat, blkid: Blkid)
    returns (k: Kernel, list: seq<PartitionInfo>)
    requires Valid(k1) && k1.status == Running
    requires k1 == kb.(calls := k1.calls, rets := k1.rets) && |k1.calls| == |kb.calls| + 2
    ensures Valid(k) && k.status == Running && k == k1.(calls := k.calls, rets := k.rets)
    ensures Ran(k1, k, [USleep(SETTLE_MICROS)] + ChildProbes(loopname, count))
    ensures list == Probed(kb, 3, loopname, blkid, count).partitionList
  {
    k := Quiet(k1, USleep(SETTLE_MICROS), 0);
    k, list := ProbeChildrenIntended(kb, 3, k, loopname, count, blkid);
  }

  /** The probe of entry i's node finds it, and blkid reports a type for it. */
  predicate TypedNode(k: Kernel, skip: nat, loopname: string, blkid: Blkid, i: nat)
  {
    var node := PartitionNode(loopname, i + 1);
    WorksAt(k, skip + i) && CanExec(k, node) && blkid(node).fstype.Some?
  }

  /**
   * With the lookups written into the list, an entry whose node was probed
   * carries the type blkid found, so the intended rounds of mount_partitions
   * are no longer refused for a NULL type: when every node was probed and
   * has a type, the mounts of the first n rounds succeed exactly when each
   * round's call works, its node exists and its directory is free (or made).
   */
  lemma ProbedTypesMount(kp: Kernel, km: Kernel, device: string, blkid: Blkid, count: nat, n: nat)
    requires n <= count
    requires forall i :: 0 <= i < n ==> TypedNode(kp, 3, device, blkid, i)
    ensures var list := Probed(kp, 3, device, blkid, count).partitionList;
      (forall i :: 0 <= i < n ==> list[i].fstype == blkid(PartitionNode(device, i + 1)).fstype) &&
      (TargetsWork(km, Intended, device, list, n) <==>
        forall i :: 0 <= i < n ==>
          WorksAt(km, 2 * i + 1) && PartitionNode(device, i + 1) in km.nodes &&
          (PartitionDir(i) in km.dirs || WorksAt(km, 2 * i)) && PartitionDir(i) !in km.mounts)
  {
    var list := Probed(kp, 3, device, blkid, count).partitionList;
    forall i | 0 <= i < n
      ensures list[i] == blkid(PartitionNode(device, i + 1)) && list[i].fstype.Some?
    {
      assert TypedNode(kp, 3, device, blkid, i);
    }
    TargetsWorkAll(km, Intended, device, list, n);
  }

  // ----- get_image_info -----

  /** The partition count blkid gives for `image` as the tenth call from `k`. */
  function ImageCount(k: Kernel, image: string): int
  {
    if |k.calls| + 9 in k.faults || image !in k.tables then -1 else k.tables[image]
  }

  function AttachImageScript(k: Kernel, image: string): seq<Op>
  {
    var f := k.nextFd;
    LoopDeviceScript(f) + [Open(LoopPath(FreeLoop(k.loops)), ReadWrite)] + MountScript(f + 2, f + 1, image, LO_FLAGS_READ_ONLY)
  }

  function ImageInfoScript(k: Kernel, image: string): seq<Op>
  {
    var f := k.nextFd;
    AttachImageScript(k, image) + InfoScript(f + 1, LoopPath(FreeLoop(k.loops)), ImageCount(k, image)) + [Close(f + 1)]
  }

  /**
   * The kernel once get_image_info has attached `image`: the free device is
   * bound to it read-only with partition scanning added, and the control
   * device and the loop device are open.
   */
  function Attached(k: Kernel, image: string): Kernel
  {
    var n := FreeLoop(k.loops);
    var g := Grow(k);
    g.(nodes := k.nodes + {LOOP_CONTROL} + {LoopPath(n)} + {image},
       fds := k.fds[k.nextFd := OpenFile(LOOP_CONTROL, ReadWrite)][k.nextFd + 1 := OpenFile(LoopPath(n), ReadWrite)],
       nextFd := k.nextFd + 3,
       loops := g.loops[n := LoopDevice(Some(image), LO_FLAGS_READ_ONLY | LO_FLAGS_PARTSCAN)])
  }

  /** The device just taken and opened is free, so binding the image read-only to it works. */
  lemma FreshDeviceBinds(k0: Kernel, k2: Kernel, image: string)
    requires Valid(k0)
    requires var f := k0.nextFd; var n := FreeLoop(k0.loops);
      k2.fds == k0.fds[f := OpenFile(LOOP_CONTROL, ReadWrite)][f + 1 := OpenFile(LoopPath(n), ReadWrite)] &&
      k2.nextFd == f + 2 && k2.devs == Grow(k0).devs && k2.loops == Grow(k0).loops
    ensures var k3 := Opened(k2, image, ReadOnly);
      LoopOfFd(k3, k0.nextFd + 1) == Some(FreeLoop(k0.loops)) && CanBind(k3, k0.nextFd + 1, k0.nextFd + 2) &&
      ReadOnlyStatus(k2, k0.nextFd + 1, image) == LO_FLAGS_READ_ONLY
  {
    var n := FreeLoop(k0.loops);
    var k3 := Opened(k2, image, ReadOnly);
    assert k3.fds[k0.nextFd + 1] == OpenFile(LoopPath(n), ReadWrite);
    assert LoopOf(k3, LoopPath(n)) == Some(n);
  }

  /**
   * The first half of get_image_info: take a free loop device, open it
   * read-write (a failure exits) and attach the image to it read-only.
   */
  method AttachImage(k0: Kernel, image: string) returns (k: Kernel, loopname: string, loopfd: int)
    requires Valid(k0) && k0.status == Running
    ensures Valid(k) && Ran(k0, k, AttachImageScript(k0, image))
    ensures k.status == Running || k.status == Exited(EXIT_FAILURE)
    ensures k.status == Running ==>
      loopname == LoopPath(FreeLoop(k0.loops)) && loopfd == k0.nextFd + 1 &&
      k == Attached(k0, image).(calls := k.calls, rets := k.rets)
  {
    ghost var s1 := LoopDeviceScript(k0.nextFd);
    ghost var s23 := BindScript(k0, image);
    assert AttachImageScript(k0, image) == s1 + s23;
    loopfd := -1;
    k, loopname := GetLoopDevice(k0);
    if k.status != Running {
      RanLonger(k0, k, s1, s23);
      return;
    }
    var k1 := k;
    k, loopfd := OpenAndBind(k0, k1, loopname, image);
    RanThen(k0, k1, k, s1, s23);
  }

  /** The calls of attaching after the free device is known: open it, then mount_image_file. */
  function BindScript(k: Kernel, image: string): seq<Op>
  {
    var f := k.nextFd;
    [Open(LoopPath(FreeLoop(k.loops)), ReadWrite)] + MountScript(f + 2, f + 1, image, LO_FLAGS_READ_ONLY)
  }

  /**
   * The rest of attaching, from `k1`, the state get_loop_device leaves
   * behind when it works from `k0`: open the free device read-write (a
   * failure exits) and bind the image to it read-only.
   */
  method OpenAndBind(ghost k0: Kernel, k1: Kernel, loopname: string, image: string) returns (k: Kernel, loopfd: int)
    requires Valid(k0) && Valid(k1) && k1.status == Running
    requires loopname == LoopPath(FreeLoop(k0.loops))
    requires k1 == Grow(Opened(k0, LOOP_CONTROL, ReadWrite)).(calls := k1.calls, rets := k1.rets)
    ensures Valid(k) && Ran(k1, k, BindScript(k0, image))
    ensures k.status == Running || k.status == Exited(EXIT_FAILURE)
    ensures k.status == Running ==> loopfd == k0.nextFd + 1 && k == Attached(k0, image).(calls := k.calls, rets := k.rets)
  {
    ghost var s2 := [Open(loopname, ReadWrite)];
    ghost var s3 := MountScript(k0.nextFd + 2, k0.nextFd + 1, image, LO_FLAGS_READ_ONLY);
    assert BindScript(k0, image) == s2 + s3;
    k, loopfd := OpenCall(k1, loopname, ReadWrite);
    if loopfd == -1 {
      k := ErrExit(k1, k, s2);
      RanLonger(k1, k, s2, s3);
      return;
    }
    var k2 := k;
    k := BindOpened(k0, k2, loopfd, image);
    RanThen(k1, k2, k, s2, s3);
  }

  /** The last step of attaching: mount_image_file binds the image to the loop device just opened at `loopfd`. */
  method BindOpened(ghost k0: Kernel, k2: Kernel, loopfd: int, image: string) returns (k: Kernel)
    requires Valid(k0) && Valid(k2) && k2.status == Running && loopfd == k0.nextFd + 1
    requires k2 == Opened(Grow(Opened(k0, LOOP_CONTROL, ReadWrite)), LoopPath(FreeLoop(k0.loops)), ReadWrite)
                   .(calls := k2.calls, rets := k2.rets)
    ensures Valid(k) && Ran(k2, k, MountScript(k0.nextFd + 2, loopfd, image, LO_FLAGS_READ_ONLY))
    ensures k.status == Running || k.status == Exited(EXIT_FAILURE)
    ensures k.status == Running ==> k == Attached(k0, image).(calls := k.calls, rets := k.rets)
  {
    FreshDeviceBinds(k0, k2, image);
    k := MountImageFile(k2, loopfd, image);
  }

  /** blkid sees the image behind the attached device. */
  lemma AttachedCount(k0: Kernel, k1: Kernel, image: string)
    requires var a := Attached(k0, image);
      k1.fds == a.fds && k1.loops == a.loops && k1.devs == a.devs && k1.tables == k0.tables &&
      k1.faults == k0.faults && |k1.calls| == |k0.calls| + 8
    ensures ProbeCount(k1, k0.nextFd + 1) == ImageCount(k0, image)
  {
    var n := FreeLoop(k0.loops);
    assert LoopOfFd(k1, k0.nextFd + 1) == Some(n);
  }

  /**
   * The second half of get_image_info: read the partitions of the attached
   * device, name the device in the result and close the loop descriptor.
   */
  method ProbeAndClose(k1: Kernel, loopfd: int, loopname: string) returns (k: Kernel, partitions: Option<Partitions>)
    requires Valid(k1) && k1.status == Running && loopfd in k1.fds
    ensures Valid(k) && Ran(k1, k, InfoScript(loopfd, loopname, ProbeCount(k1, loopfd)) + [Close(loopfd)])
    ensures k.status == Running || k.status == Exited(EXIT_FAILURE)
    ensures partitions.Some? ==> k.status == Running
    ensures k.status == Running ==> (partitions.Some? <==> ProbeCount(k1, loopfd) >= 0)
    ensures partitions.Some? ==> partitions.value == Unprobed(ProbeCount(k1, loopfd)).(device := Some(loopname))
    ensures k.status == Running ==> k == Released(k1, loopfd).(calls := k.calls, rets := k.rets)
  {
    ghost var s2 := InfoScript(loopfd, loopname, ProbeCount(k1, loopfd));
    ghost var s3 := [Close(loopfd)];
    k, partitions := GetPartitionInfo(k1, loopfd, loopname);
    if k.status != Running {
      RanLonger(k1, k, s2, s3);
      return k, None;
    }
    if partitions.Some? {
      partitions := Some(partitions.value.(device := Some(loopname)));
    }
    var k2 := k;
    var r;
    k, r := CloseCall(k, loopfd);
    SteppedRan(k2, k, Close(loopfd), r);
    RanThen(k1, k2, k, s2, s3);
  }

  /**
   * get_image_info: attach the image, read its partitions and close the loop
   * descriptor, whether or not a partition list was found. The result names
   * the device when there is one; otherwise the name is freed. The control
   * descriptor opened by get_loop_device stays open.
   */
  method GetImageInfo(k0: Kernel, image: string) returns (k: Kernel, partitions: Option<Partitions>)
    requires Valid(k0) && k0.status == Running
    ensures Valid(k) && Ran(k0, k, ImageInfoScript(k0, image))
    ensures k.status == Running || k.status == Exited(EXIT_FAILURE)
    ensures partitions.Some? ==> k.status == Running
    ensures k.status == Running ==> (partitions.Some? <==> ImageCount(k0, image) >= 0)
    ensures partitions.Some? ==>
      partitions.value == Unprobed(ImageCount(k0, image)).(device := Some(LoopPath(FreeLoop(k0.loops))))
    ensures k.status == Running ==>
      k == Attached(k0, image).(fds := k0.fds[k0.nextFd := OpenFile(LOOP_CONTROL, ReadWrite)], calls := k.calls, rets := k.rets)
  {
    ghost var f := k0.nextFd;
    ghost var s1 := AttachImageScript(k0, image);
    ghost var s2 := InfoScript(f + 1, LoopPath(FreeLoop(k0.loops)), ImageCount(k0, image)) + [Close(f + 1)];
    assert ImageInfoScript(k0, image) == s1 + s2;
    var loopname, loopfd;
    k, loopname, loopfd := AttachImage(k0, image);
    if k.status != Running {
      RanLonger(k0, k, s1, s2);
      return k, None;
    }
    var k1 := k;
    AttachedCount(k0, k1, image);
    k, partitions := ProbeAndClose(k1, loopfd, loopname);
    RanThen(k0, k1, k, s1, s2);
    if k.status == Running {
      ReleasedKept(k1, loopfd);
      assert k1.fds - {loopfd} == k0.fds[f := OpenFile(LOOP_CONTROL, ReadWrite)];
    }
  }

  // ----- partition names -----

  /** No partition node is a partition directory: the node ends in 'p' and digits, the directory in 'n' and digits. */
  lemma NodeIsNoDir(device: string, i: nat, j: nat)
    ensures PartitionNode(device, i) != PartitionDir(j)
  {
    var a, b := PartitionNode(device, i), PartitionDir(j);
    var di, dj := Text.Decimal(i), Text.Decimal(j);
    var d := |device|;
    if |a| == |b| {
      Text.NumeralDigits(i, 10);
      Text.NumeralDigits(j, 10);
      assert a[d] == 'p' && Text.DigitValue('p') == Some(25);
      assert b[13] == 'n' && Text.DigitValue('n') == Some(23);
      if d >= 14 {
        assert b[d] == dj[d - 14];
        assert a[d] != b[d];
      } else if d < 13 {
        assert a[13] == di[13 - d - 1];
        assert a[13] != b[13];
      } else {
        assert a[13] != b[13];
      }
    }
  }

  lemma DirsDistinct(i: nat, j: nat)
    requires PartitionDir(i) == PartitionDir(j)
    ensures i == j
  {
    assert Text.Decimal(i) == PartitionDir(i)[14..];
    assert Text.Decimal(j) == PartitionDir(j)[14..];
    Text.NumeralInjective(i, j, 10);
  }

  lemma NodesDistinct(device: string, i: nat, j: nat)
    requires PartitionNode(device, i) == PartitionNode(device, j)
    ensures i == j
  {
    assert Text.Decimal(i) == PartitionNode(device, i)[|device| + 1..];
    assert Text.Decimal(j) == PartitionNode(device, j)[|device| + 1..];
    Text.NumeralInjective(i, j, 10);
  }

  // ----- mount_partitions -----

  /** The mode mkdir gives each partition directory, octal 0755. */
  const DIR_MODE: int := 493

  /** The partitions the loops of mount_partitions and umount_partitions visit. */
  function PartitionCount(partitions: Partitions): nat
  {
    if partitions.npartitions < 0 then 0 else partitions.npartitions
  }

  /**
   * How a round of mount_partitions names what it mounts. As written, the
   * second snprintf overwrites the directory name with "<device>p<i>", so
   * the target is the partition node and the source is the never-written
   * `devname` buffer, whose contents are `junk`. As intended, the node of
   * partition i + 1, the one get_partition_info probes for entry i, is
   * mounted on "/mnt/partition<i>".
   */
  datatype MountNames = AsWritten(junk: string) | Intended

  function MountSource(names: MountNames, device: string, i: nat): Option<string>
  {
    match names
    case AsWritten(junk) => Some(junk)
    case Intended => Some(PartitionNode(device, i + 1))
  }

  function MountTarget(names: MountNames, device: string, i: nat): string
  {
    match names
    case AsWritten(_) => PartitionNode(device, i)
    case Intended => PartitionDir(i)
  }

  /** The calls of one round: make `dir`, then mount. */
  function RoundOps(dir: string, source: Option<string>, target: string, fstype: Option<string>): seq<Op>
  {
    [Mkdir(dir, DIR_MODE), Mount(source, target, fstype, MOUNT_FLAGS, MOUNT_DATA)]
  }

  /** Round `i` makes "/mnt/partition<i>" whatever the naming. */
  function MountRound(names: MountNames, device: string, p: PartitionInfo, i: nat): seq<Op>
  {
    RoundOps(PartitionDir(i), MountSource(names, device, i), MountTarget(names, device, i), p.fstype)
  }

  /** The calls of the first `n` rounds. */
  function RoundsScript(names: MountNames, device: string, list: seq<PartitionInfo>, n: nat): (r: seq<Op>)
    requires n <= |list|
    ensures |r| == 2 * n
  {
    if n == 0 then [] else RoundsScript(names, device, list, n - 1) + MountRound(names, device, list[n - 1], n - 1)
  }

  /**
   * The partition directories of rounds before `n` whose first call does not
   * hit an unmodelled failure: the ones mkdir leaves in place in
   * mount_partitions, and the ones umount2 leaves unmounted in
   * umount_partitions.
   */
  function WorkingRounds(k0: Kernel, n: nat): set<string>
  {
    if n == 0 then {}
    else WorkingRounds(k0, n - 1) + (if WorksAt(k0, 2 * (n - 1)) then {PartitionDir(n - 1)} else {})
  }

  /** What round `i` mounts. */
  function RoundEntry(names: MountNames, device: string, p: PartitionInfo, i: nat): MountEntry
  {
    MountEntry(MountSource(names, device, i), p.fstype, MOUNT_FLAGS, MOUNT_DATA)
  }

  /** The mount table `mounts` once the first `n` rounds have mounted. */
  function RoundsMounts(mounts: map<string, MountEntry>, names: MountNames, device: string, list: seq<PartitionInfo>, n: nat)
    : map<string, MountEntry>
    requires n <= |list|
  {
    if n == 0 then mounts
    else RoundsMounts(mounts, names, device, list, n - 1)[MountTarget(names, device, n - 1) := RoundEntry(names, device, list[n - 1], n - 1)]
  }

  /**
   * The mount of round `i` succeeds: the source has to be an existing node,
   * the partition's type has to be known, and the target has to be a
   * directory that nothing is mounted on; the only directory the earlier
   * rounds can have made that way is the round's own "/mnt/partition<i>".
   */
  predicate TargetWorks(k0: Kernel, names: MountNames, device: string, list: seq<PartitionInfo>, i: nat)
    requires i < |list|
  {
    var target := MountTarget(names, device, i);
    WorksAt(k0, 2 * i + 1) && MountSource(names, device, i).value in k0.nodes && list[i].fstype.Some? &&
    (target in k0.dirs || (names.Intended? && WorksAt(k0, 2 * i))) && target !in k0.mounts
  }

  /** The mounts of all rounds before `n` succeed. */
  predicate TargetsWork(k0: Kernel, names: MountNames, device: string, list: seq<PartitionInfo>, n: nat)
    requires n <= |list|
  {
    n == 0 || (TargetsWork(k0, names, device, list, n - 1) && TargetWorks(k0, names, device, list, n - 1))
  }

  lemma {:induction false} TargetsWorkAll(k0: Kernel, names: MountNames, device: string, list: seq<PartitionInfo>, n: nat)
    requires n <= |list|
    ensures TargetsWork(k0, names, device, list, n) <==> forall i :: 0 <= i < n ==> TargetWorks(k0, names, device, list, i)
  {
    if n > 0 {
      TargetsWorkAll(k0, names, device, list, n - 1);
    }
  }

  /** One failed mount fails every longer run of rounds. */
  lemma {:induction false} TargetsWorkStop(k0: Kernel, names: MountNames, device: string, list: seq<PartitionInfo>, i: nat, n: nat)
    requires i < n <= |list| && !TargetWorks(k0, names, device, list, i)
    ensures !TargetsWork(k0, names, device, list, n)
  {
    if i < n - 1 {
      TargetsWorkStop(k0, names, device, list, i, n - 1);
    }
  }

  /**
   * The list get_partition_info returns keeps calloc's NULL types, and mount
   * refuses a NULL type, so under either naming the first round fails.
   */
  lemma UnprobedRefused(k0: Kernel, names: MountNames, device: string, count: nat, n: nat)
    requires 0 < n <= count
    ensures !TargetsWork(k0, names, device, Unprobed(count).partitionList, n)
  {
    TargetsWorkStop(k0, names, device, Unprobed(count).partitionList, 0, n);
  }

  lemma {:induction false} RoundsMember(k0: Kernel, n: nat, i: nat)
    ensures PartitionDir(i) in WorkingRounds(k0, n) <==> i < n && WorksAt(k0, 2 * i)
  {
    if n > 0 {
      RoundsMember(k0, n - 1, i);
      if i != n - 1 && PartitionDir(i) == PartitionDir(n - 1) {
        DirsDistinct(i, n - 1);
      }
    }
  }

  /** Rounds only touch partition directories, so a set holding none of them is untouched. */
  lemma {:induction false} RoundsOnlyDirs(k0: Kernel, n: nat, s: set<string>)
    requires forall i :: 0 <= i < n ==> PartitionDir(i) !in s
    ensures WorkingRounds(k0, n) !! s
  {
    if n > 0 {
      RoundsOnlyDirs(k0, n - 1, s);
    }
  }

  lemma {:induction false} NodeNotMade(k0: Kernel, device: string, i: nat, n: nat)
    ensures PartitionNode(device, i) !in WorkingRounds(k0, n)
  {
    if n > 0 {
      NodeNotMade(k0, device, i, n - 1);
      NodeIsNoDir(device, i, n - 1);
    }
  }

  lemma TargetsDistinct(names: MountNames, device: string, i: nat, j: nat)
    requires MountTarget(names, device, i) == MountTarget(names, device, j)
    ensures i == j
  {
    if names.Intended? {
      DirsDistinct(i, j);
    } else {
      NodesDistinct(device, i, j);
    }
  }

  /** Round `i`'s target is a directory the rounds up to `i` made only when it is the round's own directory. */
  lemma TargetMade(k0: Kernel, names: MountNames, device: string, i: nat)
    ensures MountTarget(names, device, i) in WorkingRounds(k0, i + 1) <==> names.Intended? && WorksAt(k0, 2 * i)
  {
    if names.Intended? {
      RoundsMember(k0, i + 1, i);
    } else {
      NodeNotMade(k0, device, i, i + 1);
    }
  }

  lemma {:induction false} TargetNotMountedYet(mounts: map<string, MountEntry>, names: MountNames, device: string,
                                               list: seq<PartitionInfo>, i: nat, n: nat)
    requires n <= i && n <= |list|
    ensures MountTarget(names, device, i) in RoundsMounts(mounts, names, device, list, n) <==> MountTarget(names, device, i) in mounts
  {
    if n > 0 {
      TargetNotMountedYet(mounts, names, device, list, i, n - 1);
      if MountTarget(names, device, i) == MountTarget(names, device, n - 1) {
        TargetsDistinct(names, device, i, n - 1);
      }
    }
  }

  /** As written, no partition directory is ever mounted on: what is mounted there stays as it was. */
  lemma {:induction false} AsWrittenMissesDirs(mounts: map<string, MountEntry>, junk: string, device: string,
                                               list: seq<PartitionInfo>, n: nat, j: nat)
    requires n <= |list|
    ensures var m := RoundsMounts(mounts, AsWritten(junk), device, list, n);
      (PartitionDir(j) in m <==> PartitionDir(j) in mounts) && (PartitionDir(j) in m ==> m[PartitionDir(j)] == mounts[PartitionDir(j)])
  {
    if n > 0 {
      AsWrittenMissesDirs(mounts, junk, device, list, n - 1, j);
      NodeIsNoDir(device, n - 1, j);
    }
  }

  /** As intended, "/mnt/partition<i>" ends up holding the node of partition i + 1 with the type of entry i. */
  lemma {:induction false} IntendedMountsDirs(mounts: map<string, MountEntry>, device: string, list: seq<PartitionInfo>,
                                              n: nat, i: nat)
    requires i < n <= |list|
    ensures var m := RoundsMounts(mounts, Intended, device, list, n);
      PartitionDir(i) in m && m[PartitionDir(i)] == MountEntry(Some(PartitionNode(device, i + 1)), list[i].fstype, MOUNT_FLAGS, MOUNT_DATA)
  {
    if i < n - 1 {
      IntendedMountsDirs(mounts, device, list, n - 1, i);
      if PartitionDir(i) == PartitionDir(n - 1) {
        DirsDistinct(i, n - 1);
      }
    }
  }

  lemma RoundsScriptPrefix(names: MountNames, device: string, list: seq<PartitionInfo>, m: nat, n: nat)
    requires m <= n <= |list|
    ensures RoundsScript(names, device, list, m) <= RoundsScript(names, device, list, n)
    decreases n
  {
    if m < n {
      RoundsScriptPrefix(names, device, list, m, n - 1);
    }
  }

  /** A run of the first rounds that stopped is a run of all of them. */
  lemma RoundsStopped(k0: Kernel, k: Kernel, names: MountNames, device: string, list: seq<PartitionInfo>, m: nat, n: nat)
    requires m <= n <= |list| && Ran(k0, k, RoundsScript(names, device, list, m)) && k.status != Running
    ensures Ran(k0, k, RoundsScript(names, device, list, n))
  {
    RoundsScriptPrefix(names, device, list, m, n);
    RanPrefix(k0, k, RoundsScript(names, device, list, m), RoundsScript(names, device, list, n));
  }

  /**
   * The state after the first `i` rounds: the directories made and the
   * mounts done, and nothing else changed.
   */
  ghost predicate RoundsDone(k0: Kernel, k: Kernel, names: MountNames, device: string, list: seq<PartitionInfo>, i: nat)
    requires i <= |list|
  {
    |k.calls| == |k0.calls| + 2 * i &&
    k == k0.(dirs := k0.dirs + WorkingRounds(k0, i), mounts := RoundsMounts(k0.mounts, names, device, list, i),
             calls := k.calls, rets := k.rets)
  }

  /** The directories made and the mounts done by one round taken from `k` that made `dir` and mounted `e` on `target`. */
  function RoundState(k: Kernel, dir: string, target: string, e: MountEntry): Kernel
  {
    var dirs := if WorksAt(k, 0) then k.dirs + {dir} else k.dirs;
    k.(dirs := dirs, mounts := k.mounts[target := e])
  }

  /** The mount of one round taken from `k` succeeds. */
  predicate RoundWorks(k: Kernel, dir: string, source: Option<string>, target: string, fstype: Option<string>)
  {
    var dirs := if WorksAt(k, 0) then k.dirs + {dir} else k.dirs;
    WorksAt(k, 1) && CanMount(k.(dirs := dirs), source, target, fstype)
  }

  /** One round of the loop of mount_partitions: mkdir, whose result is ignored, then a mount that exits on failure. */
  method MountRoundCall(k: Kernel, dir: string, source: Option<string>, target: string, fstype: Option<string>) returns (k': Kernel)
    requires Valid(k) && k.status == Running
    ensures Valid(k') && Ran(k, k', RoundOps(dir, source, target, fstype))
    ensures k'.status == Running <==> RoundWorks(k, dir, source, target, fstype)
    ensures k'.status == Running || k'.status == Exited(EXIT_FAILURE)
    ensures k'.status == Running ==>
      k' == RoundState(k, dir, target, MountEntry(source, fstype, MOUNT_FLAGS, MOUNT_DATA)).(calls := k'.calls, rets := k'.rets)
  {
    ghost var ops := RoundOps(dir, source, target, fstype);
    var k1, r := MkdirCall(k, dir, DIR_MODE);
    assert k1 == RoundState(k, dir, target, MountEntry(source, fstype, MOUNT_FLAGS, MOUNT_DATA)).(mounts := k.mounts, calls := k1.calls, rets := k1.rets);
    k', r := MountCall(k1, source, target, fstype, MOUNT_FLAGS, MOUNT_DATA);
    assert k'.calls == k.calls + ops;
    if r != 0 {
      k' := ErrExit(k, k', ops);
    }
  }

  /** After the first `i` rounds, the mount of round `i` works exactly when TargetWorks says. */
  lemma RoundWorksIff(k0: Kernel, k: Kernel, names: MountNames, device: string, list: seq<PartitionInfo>, i: nat)
    requires i < |list| && RoundsDone(k0, k, names, device, list, i)
    ensures RoundWorks(k, PartitionDir(i), MountSource(names, device, i), MountTarget(names, device, i), list[i].fstype) ==
            TargetWorks(k0, names, device, list, i)
  {
    TargetMade(k0, names, device, i);
    TargetNotMountedYet(k0.mounts, names, device, list, i, i);
    assert (if WorksAt(k, 0) then k.dirs + {PartitionDir(i)} else k.dirs) == k0.dirs + WorkingRounds(k0, i + 1);
  }

  /** A round taken after the first `i` leads to the state after `i + 1`. */
  lemma RoundAdvance(k0: Kernel, k: Kernel, k': Kernel, names: MountNames, device: string, list: seq<PartitionInfo>, i: nat)
    requires i < |list| && RoundsDone(k0, k, names, device, list, i)
    requires k' == RoundState(k, PartitionDir(i), MountTarget(names, device, i), RoundEntry(names, device, list[i], i))
                   .(calls := k'.calls, rets := k'.rets)
    requires |k'.calls| == |k.calls| + 2
    ensures RoundsDone(k0, k', names, device, list, i + 1)
  {
    assert k'.dirs == k0.dirs + WorkingRounds(k0, i + 1);
  }

  /** Round `i` of the loop, taken after the first `i`: it either leads to the state after `i + 1` or ends the run. */
  method RoundStep(ghost k0: Kernel, k: Kernel, names: MountNames, device: string, list: seq<PartitionInfo>, i: nat, ghost n: nat)
    returns (k': Kernel)
    requires Valid(k) && k.status == Running && i < n <= |list|
    requires Ran(k0, k, RoundsScript(names, device, list, i)) && RoundsDone(k0, k, names, device, list, i)
    requires TargetsWork(k0, names, device, list, i)
    ensures Valid(k')
    ensures k'.status == Running ==>
      Ran(k0, k', RoundsScript(names, device, list, i + 1)) && RoundsDone(k0, k', names, device, list, i + 1) &&
      TargetsWork(k0, names, device, list, i + 1)
    ensures k'.status != Running ==>
      k'.status == Exited(EXIT_FAILURE) && Ran(k0, k', RoundsScript(names, device, list, n)) && !TargetsWork(k0, names, device, list, n)
  {
    RoundWorksIff(k0, k, names, device, list, i);
    k' := MountRoundCall(k, PartitionDir(i), MountSource(names, device, i), MountTarget(names, device, i), list[i].fstype);
    if k'.status == Running {
      RoundAfterWorks(k0, k, k', names, device, list, i);
    } else {
      RoundAfterStops(k0, k, k', names, device, list, i, n);
    }
  }

  /** A round taken after the first `i` whose mount works leads to the state after `i + 1`. */
  lemma RoundAfterWorks(k0: Kernel, k: Kernel, k': Kernel, names: MountNames, device: string, list: seq<PartitionInfo>, i: nat)
    requires k.status == Running && k'.status == Running && i < |list|
    requires Ran(k0, k, RoundsScript(names, device, list, i)) && RoundsDone(k0, k, names, device, list, i)
    requires TargetsWork(k0, names, device, list, i) && TargetWorks(k0, names, device, list, i)
    requires Ran(k, k', MountRound(names, device, list[i], i))
    requires k' == RoundState(k, PartitionDir(i), MountTarget(names, device, i), RoundEntry(names, device, list[i], i))
                   .(calls := k'.calls, rets := k'.rets)
    ensures Ran(k0, k', RoundsScript(names, device, list, i + 1)) && RoundsDone(k0, k', names, device, list, i + 1)
    ensures TargetsWork(k0, names, device, list, i + 1)
  {
    RanThen(k0, k, k', RoundsScript(names, device, list, i), MountRound(names, device, list[i], i));
    RoundAdvance(k0, k, k', names, device, list, i);
  }

  /** A round taken after the first `i` whose mount fails ends the run of all `n` rounds. */
  lemma RoundAfterStops(k0: Kernel, k: Kernel, k': Kernel, names: MountNames, device: string, list: seq<PartitionInfo>,
                        i: nat, n: nat)
    requires k.status == Running && k'.status != Running && i < n <= |list|
    requires Ran(k0, k, RoundsScript(names, device, list, i))
    requires !TargetWorks(k0, names, device, list, i)
    requires Ran(k, k', MountRound(names, device, list[i], i))
    ensures Ran(k0, k', RoundsScript(names, device, list, n)) && !TargetsWork(k0, names, device, list, n)
  {
    RanThen(k0, k, k', RoundsScript(names, device, list, i), MountRound(names, device, list[i], i));
    RoundsStopped(k0, k', names, device, list, i + 1, n);
    TargetsWorkStop(k0, names, device, list, i, n);
  }

  /** Before the first round, nothing is done. */
  lemma RoundsStart(k0: Kernel, names: MountNames, device: string, list: seq<PartitionInfo>)
    requires Valid(k0) && k0.status == Running
    ensures Ran(k0, k0, RoundsScript(names, device, list, 0)) && RoundsDone(k0, k0, names, device, list, 0)
    ensures TargetsWork(k0, names, device, list, 0)
  {
    assert k0.calls + [] == k0.calls;
    assert k0.dirs + WorkingRounds(k0, 0) == k0.dirs;
  }

  /**
   * The loop of mount_partitions under either naming: each round makes its
   * directory and mounts; a failed mount exits. It runs on until every
   * mount has worked.
   */
  method MountRounds(k0: Kernel, partitions: Partitions, names: MountNames) returns (k: Kernel)
    requires Valid(k0) && k0.status == Running
    requires partitions.device.Some? && partitions.npartitions <= |partitions.partitionList|
    ensures Valid(k) && Ran(k0, k, RoundsScript(names, partitions.device.value, partitions.partitionList, PartitionCount(partitions)))
    ensures k.status == Running || k.status == Exited(EXIT_FAILURE)
    ensures k.status == Running <==>
      TargetsWork(k0, names, partitions.device.value, partitions.partitionList, PartitionCount(partitions))
    ensures k.status == Running ==>
      k == k0.(dirs := k0.dirs + WorkingRounds(k0, PartitionCount(partitions)),
               mounts := RoundsMounts(k0.mounts, names, partitions.device.value, partitions.partitionList, PartitionCount(partitions)),
               calls := k.calls, rets := k.rets)
  {
    var device, list, n := partitions.device.value, partitions.partitionList, PartitionCount(partitions);
    k := k0;
    RoundsStart(k0, names, device, list);
    var i := 0;
    while i < n
      invariant 0 <= i <= n
      invariant Valid(k) && k.status == Running && Ran(k0, k, RoundsScript(names, device, list, i))
      invariant RoundsDone(k0, k, names, device, list, i)
      invariant TargetsWork(k0, names, device, list, i)
    {
      k := RoundStep(k0, k, names, device, list, i, n);
      if k.status != Running {
        return;
      }
      i := i + 1;
    }
  }

  /**
   * mount_partitions as written: it succeeds only where the uninitialised
   * buffer names an existing node, every partition has a type and every
   * partition node is already an unmounted directory; it mounts the buffer
   * there and leaves every "/mnt/partition<j>" as it was.
   */
  method MountPartitions(k0: Kernel, partitions: Partitions, junk: string) returns (k: Kernel)
    requires Valid(k0) && k0.status == Running
    requires partitions.device.Some? && partitions.npartitions <= |partitions.partitionList|
    ensures Valid(k) && Ran(k0, k, RoundsScript(AsWritten(junk), partitions.device.value, partitions.partitionList, PartitionCount(partitions)))
    ensures k.status == Running || k.status == Exited(EXIT_FAILURE)
    ensures k.status == Running <==>
      forall i :: 0 <= i < PartitionCount(partitions) ==>
        WorksAt(k0, 2 * i + 1) && junk in k0.nodes && partitions.partitionList[i].fstype.Some? &&
        PartitionNode(partitions.device.value, i) in k0.dirs && PartitionNode(partitions.device.value, i) !in k0.mounts
    ensures k.status == Running ==>
      k == k0.(dirs := k0.dirs + WorkingRounds(k0, PartitionCount(partitions)),
               mounts := RoundsMounts(k0.mounts, AsWritten(junk), partitions.device.value, partitions.partitionList, PartitionCount(partitions)),
               calls := k.calls, rets := k.rets)
    ensures k.status == Running ==> forall j :: PartitionDir(j) in k.mounts <==> PartitionDir(j) in k0.mounts
  {
    k := MountRounds(k0, partitions, AsWritten(junk));
    var device, list, n := partitions.device.value, partitions.partitionList, PartitionCount(partitions);
    TargetsWorkAll(k0, AsWritten(junk), device, list, n);
    if k.status == Running {
      forall i | 0 <= i < n
        ensures WorksAt(k0, 2 * i + 1) && junk in k0.nodes && list[i].fstype.Some? &&
          PartitionNode(device, i) in k0.dirs && PartitionNode(device, i) !in k0.mounts
      {
        assert TargetWorks(k0, AsWritten(junk), device, list, i);
      }
      forall j | true
        ensures PartitionDir(j) in k.mounts <==> PartitionDir(j) in k0.mounts
      {
        AsWrittenMissesDirs(k0.mounts, junk, device, list, n, j);
      }
    } else {
      var i :| 0 <= i < n && !TargetWorks(k0, AsWritten(junk), device, list, i);
      assert !(WorksAt(k0, 2 * i + 1) && junk in k0.nodes && list[i].fstype.Some? &&
               PartitionNode(device, i) in k0.dirs && PartitionNode(device, i) !in k0.mounts);
    }
  }

  /**
   * mount_partitions as evidently intended: the node of partition i + 1 is
   * mounted on "/mnt/partition<i>" with the type blkid gave entry i. It
   * succeeds when, round by round, that node exists, the type is known, and
   * the directory exists or is made and nothing is mounted on it yet.
   */
  method MountPartitionsIntended(k0: Kernel, partitions: Partitions) returns (k: Kernel)
    requires Valid(k0) && k0.status == Running
    requires partitions.device.Some? && partitions.npartitions <= |partitions.partitionList|
    ensures Valid(k) && Ran(k0, k, RoundsScript(Intended, partitions.device.value, partitions.partitionList, PartitionCount(partitions)))
    ensures k.status == Running || k.status == Exited(EXIT_FAILURE)
    ensures k.status == Running <==>
      forall i :: 0 <= i < PartitionCount(partitions) ==>
        WorksAt(k0, 2 * i + 1) && PartitionNode(partitions.device.value, i + 1) in k0.nodes &&
        partitions.partitionList[i].fstype.Some? &&
        (PartitionDir(i) in k0.dirs || WorksAt(k0, 2 * i)) && PartitionDir(i) !in k0.mounts
    ensures k.status == Running ==>
      k == k0.(dirs := k0.dirs + WorkingRounds(k0, PartitionCount(partitions)),
               mounts := RoundsMounts(k0.mounts, Intended, partitions.device.value, partitions.partitionList, PartitionCount(partitions)),
               calls := k.calls, rets := k.rets)
    ensures k.status == Running ==>
      forall i :: 0 <= i < PartitionCount(partitions) ==>
        PartitionDir(i) in k.mounts &&
        k.mounts[PartitionDir(i)] == MountEntry(Some(PartitionNode(partitions.device.value, i + 1)), partitions.partitionList[i].fstype,
                                                MOUNT_FLAGS, MOUNT_DATA)
  {
    k := MountRounds(k0, partitions, Intended);
    var device, list, n := partitions.device.value, partitions.partitionList, PartitionCount(partitions);
    TargetsWorkAll(k0, Intended, device, list, n);
    if k.status == Running {
      forall i | 0 <= i < n
        ensures WorksAt(k0, 2 * i + 1) && PartitionNode(device, i + 1) in k0.nodes && list[i].fstype.Some? &&
          (PartitionDir(i) in k0.dirs || WorksAt(k0, 2 * i)) && PartitionDir(i) !in k0.mounts
      {
        assert TargetWorks(k0, Intended, device, list, i);
      }
      forall i | 0 <= i < n
        ensures PartitionDir(i) in k.mounts &&
          k.mounts[PartitionDir(i)] == MountEntry(Some(PartitionNode(device, i + 1)), list[i].fstype, MOUNT_FLAGS, MOUNT_DATA)
      {
        IntendedMountsDirs(k0.mounts, device, list, n, i);
      }
    } else {
      var i :| 0 <= i < n && !TargetWorks(k0, Intended, device, list, i);
      assert !(WorksAt(k0, 2 * i + 1) && PartitionNode(device, i + 1) in k0.nodes && list[i].fstype.Some? &&
               (PartitionDir(i) in k0.dirs || WorksAt(k0, 2 * i)) && PartitionDir(i) !in k0.mounts);
    }
  }

  // ----- umount_partitions -----

  /** One round of umount_partitions: force-unmount and remove "/mnt/partition<i>". */
  function UmountRound(i: nat): seq<Op>
  {
    [Umount2(PartitionDir(i), MNT_FORCE), Rmdir(PartitionDir(i))]
  }

  function UmountScript(n: nat): (r: seq<Op>)
    ensures |r| == 2 * n
  {
    if n == 0 then [] else UmountScript(n - 1) + UmountRound(n - 1)
  }

  /**
   * The directories the first `n` rounds remove: the rmdir of round j works
   * and finds the directory no longer mounted (it was not, or round j's
   * umount2 took the mount away).
   */
  function Removed(k0: Kernel, n: nat): set<string>
  {
    if n == 0 then {}
    else
      var dir := PartitionDir(n - 1);
      var gone := WorksAt(k0, 2 * (n - 1) + 1) && (dir !in k0.mounts || WorksAt(k0, 2 * (n - 1)));
      Removed(k0, n - 1) + (if gone then {dir} else {})
  }

  lemma {:induction false} RemovedMember(k0: Kernel, n: nat, i: nat)
    ensures PartitionDir(i) in Removed(k0, n) <==>
      i < n && WorksAt(k0, 2 * i + 1) && (PartitionDir(i) !in k0.mounts || WorksAt(k0, 2 * i))
  {
    if n > 0 {
      RemovedMember(k0, n - 1, i);
      if i != n - 1 && PartitionDir(i) == PartitionDir(n - 1) {
        DirsDistinct(i, n - 1);
      }
    }
  }

  lemma {:induction false} RemovedOnlyDirs(k0: Kernel, n: nat, s: set<string>)
    requires forall i :: 0 <= i < n ==> PartitionDir(i) !in s
    ensures Removed(k0, n) !! s
  {
    if n > 0 {
      RemovedOnlyDirs(k0, n - 1, s);
    }
  }

  /** The state after the first `i` rounds of umount_partitions. */
  ghost predicate UmountsDone(k0: Kernel, k: Kernel, i: nat)
  {
    k.calls == k0.calls + UmountScript(i) &&
    k == k0.(mounts := k0.mounts - WorkingRounds(k0, i), dirs := k0.dirs - Removed(k0, i), calls := k.calls, rets := k.rets)
  }

  /** The state change of round `i` leads from the state after `i` rounds to the one after `i + 1`. */
  lemma UmountAdvance(k0: Kernel, k: Kernel, k1: Kernel, k': Kernel, i: nat)
    requires UmountsDone(k0, k, i)
    requires k1.calls == k.calls + [Umount2(PartitionDir(i), MNT_FORCE)]
    requires k1 == (if Works(k) && PartitionDir(i) in k.mounts then k.(mounts := k.mounts - {PartitionDir(i)}) else k)
                   .(calls := k1.calls, rets := k1.rets)
    requires k'.calls == k1.calls + [Rmdir(PartitionDir(i))]
    requires k' == (if Works(k1) && PartitionDir(i) in k1.dirs && PartitionDir(i) !in k1.mounts
                    then k1.(dirs := k1.dirs - {PartitionDir(i)}) else k1).(calls := k'.calls, rets := k'.rets)
    ensures UmountsDone(k0, k', i + 1)
  {
    var dir := PartitionDir(i);
    RoundsMember(k0, i, i);
    RemovedMember(k0, i, i);
    assert |k.calls| == |k0.calls| + 2 * i;
    assert dir in k.mounts <==> dir in k0.mounts;
    assert dir in k.dirs <==> dir in k0.dirs;
    assert k'.mounts == k0.mounts - WorkingRounds(k0, i + 1);
    assert k'.dirs == k0.dirs - Removed(k0, i + 1);
  }

  /** Round `i` of umount_partitions; both results are ignored. */
  method UmountStep(ghost k0: Kernel, k: Kernel, i: nat) returns (k': Kernel)
    requires Valid(k) && k.status == Running && UmountsDone(k0, k, i)
    ensures Valid(k') && k'.status == Running && UmountsDone(k0, k', i + 1)
  {
    var k1, r := Umount2Call(k, PartitionDir(i), MNT_FORCE);
    k', r := RmdirCall(k1, PartitionDir(i));
    UmountAdvance(k0, k, k1, k', i);
  }

  /**
   * umount_partitions: `npartitions` rounds of umount2(MNT_FORCE) and rmdir
   * on "/mnt/partition<i>", in order, whatever each returns.
   */
  method UmountPartitions(k0: Kernel, partitions: Partitions) returns (k: Kernel)
    requires Valid(k0) && k0.status == Running
    ensures Valid(k) && k.status == Running
    ensures k.calls == k0.calls + UmountScript(PartitionCount(partitions))
    ensures k == k0.(mounts := k0.mounts - WorkingRounds(k0, PartitionCount(partitions)),
                     dirs := k0.dirs - Removed(k0, PartitionCount(partitions)),
                     calls := k.calls, rets := k.rets)
  {
    var n := PartitionCount(partitions);
    k := k0;
    var i := 0;
    while i < n
      invariant 0 <= i <= n
      invariant Valid(k) && k.status == Running && UmountsDone(k0, k, i)
    {
      k := UmountStep(k0, k, i);
      i := i + 1;
    }
  }

  /** When none of the calls fails for an unmodelled reason, no "/mnt/partition<i>" is left mounted or present. */
  lemma UmountClears(k0: Kernel, n: nat, i: nat)
    requires Clear(k0, 2 * n) && i < n
    ensures PartitionDir(i) !in k0.mounts - WorkingRounds(k0, n)
    ensures PartitionDir(i) !in k0.dirs - Removed(k0, n)
  {
    assert WorksAt(k0, 2 * i) && WorksAt(k0, 2 * i + 1);
    RoundsMember(k0, n, i);
    RemovedMember(k0, n, i);
  }

  /** With no "/mnt/partition<i>" left, a second umount_partitions changes nothing but the record of calls. */
  lemma UmountAgain(k: Kernel, n: nat)
    requires forall i :: 0 <= i < n ==> PartitionDir(i) !in k.mounts && PartitionDir(i) !in k.dirs
    ensures k.mounts - WorkingRounds(k, n) == k.mounts
    ensures k.dirs - Removed(k, n) == k.dirs
  {
    RoundsOnlyDirs(k, n, k.mounts.Keys);
    RemovedOnlyDirs(k, n, k.dirs);
  }
}
