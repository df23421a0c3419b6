/**
 * The loop-device test program (utils/baas-init/test.c): take a free loop
 * device, bind it to /test.img opened read-write, and write the device's flags
 * as PARTSCAN | DIRECT_IO | ~READ_ONLY, which is every bit but READ_ONLY.
 * The driver takes only AUTOCLEAR and PARTSCAN from what LOOP_SET_STATUS
 * writes, so the device gets autoclear, and closing the loop descriptor, the
 * last hold on it, detaches it again. Its get_loop_device is the same
 * procedure as the shim's, so the shim's model of it is used here.
 */
module LoopTest {
  import opened Wrappers
  import opened Kernel
  import BaasInit

  /** The flags test.c writes: the complement of READ_ONLY swallows the other two bits. */
  const TEST_FLAGS: bv32 := LO_FLAGS_PARTSCAN | LO_FLAGS_DIRECT_IO | !LO_FLAGS_READ_ONLY

  /** Every one of the 32 bits is set except READ_ONLY. */
  lemma TestFlagsAllButReadOnly()
    ensures TEST_FLAGS == 0xFFFF_FFFE
    ensures TEST_FLAGS & LO_FLAGS_READ_ONLY == 0
    ensures TEST_FLAGS & LO_FLAGS_PARTSCAN == LO_FLAGS_PARTSCAN && TEST_FLAGS & LO_FLAGS_DIRECT_IO == LO_FLAGS_DIRECT_IO
    ensures TEST_FLAGS & LO_FLAGS_AUTOCLEAR == LO_FLAGS_AUTOCLEAR
  {
  }

  /** The flags test.c leaves on the device: AUTOCLEAR and PARTSCAN are added, and DIRECT_IO and every other bit stay as they were. */
  const TAKEN_FLAGS: bv32 := LO_FLAGS_AUTOCLEAR | LO_FLAGS_PARTSCAN

  /** Of the bits test.c writes, LOOP_SET_STATUS takes AUTOCLEAR and PARTSCAN and ignores the rest. */
  lemma TestFlagsTaken(prev: bv32)
    ensures SetStatusFlags(prev, TEST_FLAGS) == prev | TAKEN_FLAGS
    ensures SetStatusFlags(prev, TEST_FLAGS) & LO_FLAGS_DIRECT_IO == prev & LO_FLAGS_DIRECT_IO
    ensures SetStatusFlags(prev, TEST_FLAGS) & LO_FLAGS_READ_ONLY == prev & LO_FLAGS_READ_ONLY
  {
  }

  /**
   * Something besides test.c's own loop descriptor holds the node `path`: a
   * descriptor that was open before main, or a loop device backed by it.
   */
  predicate Held(k0: Kernel, path: string)
  {
    (exists g :: g in k0.fds && k0.fds[g].path == path) ||
    (exists j :: 0 <= j < |k0.loops| && k0.loops[j].backing == Some(path))
  }

  function FlagsScript(loopfd: int, fd: int): seq<Op>
  {
    [LoopGetStatus(loopfd), LoopSetStatus(loopfd, TEST_FLAGS), Close(fd), Close(loopfd)]
  }

  /** The calls of test.c's main for a kernel whose next descriptor is `f` and whose first free loop device is `n`. */
  function TestScript(f: int, n: nat): seq<Op>
  {
    BaasInit.LoopDeviceScript(f) + BaasInit.AttachScript(f + 1, LoopPath(n)) + FlagsScript(f + 1, f + 2)
  }

  /**
   * LOOP_GET_STATUS, then LOOP_SET_STATUS with TEST_FLAGS whatever was read
   * (each failure exits), then close the image and the device, each close
   * releasing what its descriptor held.
   */
  method SetTestFlags(k0: Kernel, loopfd: int, fd: int) returns (k: Kernel)
    requires Valid(k0) && k0.status == Running
    ensures Valid(k) && Ran(k0, k, FlagsScript(loopfd, fd))
    ensures k.status == Running || k.status == Exited(EXIT_FAILURE)
    ensures !IsBoundLoopFd(k0, loopfd) ==> k.status == Exited(EXIT_FAILURE)
    ensures k.status == Running ==>
      var n := LoopOfFd(k0, loopfd).value;
      var k1 := k0.(loops := k0.loops[n := k0.loops[n].(flags := SetStatusFlags(k0.loops[n].flags, TEST_FLAGS))]);
      IsBoundLoopFd(k0, loopfd) &&
      k == Released(Released(k1, fd), loopfd).(calls := k.calls, rets := k.rets)
  {
    ghost var script := FlagsScript(loopfd, fd);
    var r, flags;
    k, r, flags := LoopGetStatusCall(k0, loopfd);
    if r == -1 {
      k := ErrExit(k0, k, script);
      return;
    }
    flags := TEST_FLAGS;
    k, r := LoopSetStatusCall(k, loopfd, flags);
    if r == -1 {
      k := ErrExit(k0, k, script);
      return;
    }
    ghost var n := LoopOfFd(k0, loopfd).value;
    ghost var k1 := k0.(loops := k0.loops[n := k0.loops[n].(flags := SetStatusFlags(k0.loops[n].flags, TEST_FLAGS))]);
    assert k == k1.(calls := k.calls, rets := k.rets);
    ReleasedRecord(k1, fd, k.calls, k.rets);
    k, r := CloseCall(k, fd);
    ghost var k2 := Released(k1, fd);
    assert k == k2.(calls := k.calls, rets := k.rets);
    ReleasedRecord(k2, loopfd, k.calls, k.rets);
    k, r := CloseCall(k, loopfd);
  }

  /**
   * With the image closed, closing test.c's loop descriptor is the last hold
   * on the device exactly when nothing else held its node.
   */
  lemma LastCloseClears(k0: Kernel, k2: Kernel, n: nat, loopname: string)
    requires Valid(k0) && LoopOf(k0, loopname) == Some(n) && k0.loops[n].backing.None?
    requires k2.devs == k0.devs && k2.fds == k0.fds[k0.nextFd := OpenFile(loopname, ReadWrite)]
    requires k2.loops == k0.loops[n := LoopDevice(Some(BaasInit.FILE_PATH), TAKEN_FLAGS)]
    ensures AutoClears(k2, k0.nextFd) <==> !Held(k0, loopname)
  {
    var f := k0.nextFd;
    NotLoopNode(k0, BaasInit.FILE_PATH);
    assert LoopOfFd(k2, f) == Some(n);
    if Held(k0, loopname) {
      if g :| g in k0.fds && k0.fds[g].path == loopname {
        assert g != f && LoopOfFd(k2, g) == Some(n);
      } else {
        var j :| 0 <= j < |k0.loops| && k0.loops[j].backing == Some(loopname);
        assert j != n && k2.loops[j].backing == Some(k2.fds[f].path);
      }
    } else {
      forall g | g in k2.fds && g != f
        ensures LoopOfFd(k2, g) != Some(n)
      {
        LoopOfIsName(k0, loopname, n, k2.fds[g].path);
        assert LoopOf(k2, k2.fds[g].path) == LoopOf(k0, k2.fds[g].path);
      }
    }
  }

  /**
   * The attach part of main, after get_loop_device: open, bind, set the flags,
   * close. The device ends with partition scanning and autoclear, and the
   * close of the loop descriptor detaches it unless something else holds it.
   */
  method AttachTest(k0: Kernel, n: nat, loopname: string) returns (k: Kernel)
    requires Valid(k0) && k0.status == Running
    requires LoopOf(k0, loopname) == Some(n)
    ensures Valid(k) && Ran(k0, k, BaasInit.AttachScript(k0.nextFd, loopname) + FlagsScript(k0.nextFd, k0.nextFd + 1))
    ensures k.status == Running || k.status == Exited(EXIT_FAILURE)
    ensures k0.loops[n].backing.Some? ==> k.status == Exited(EXIT_FAILURE)
    ensures k.status == Running ==>
      k == k0.(nodes := k.nodes, nextFd := k0.nextFd + 2,
               loops := k0.loops[n := if Held(k0, loopname) then LoopDevice(Some(BaasInit.FILE_PATH), TAKEN_FLAGS) else LoopDevice(None, 0)],
               calls := k.calls, rets := k.rets)
  {
    ghost var a := BaasInit.AttachScript(k0.nextFd, loopname);
    ghost var p := FlagsScript(k0.nextFd, k0.nextFd + 1);
    var loopfd, fd;
    k, loopfd, fd := BaasInit.AttachFile(k0, n, loopname);
    if k.status != Running {
      RanLonger(k0, k, a, p);
      return;
    }
    var k1 := k;
    k := SetTestFlags(k, loopfd, fd);
    RanThen(k0, k1, k, a, p);
    if k.status == Running {
      TestFlagsTaken(0);
      var k1' := k1.(loops := k1.loops[n := k1.loops[n].(flags := TAKEN_FLAGS)]);
      ReleasedFile(k1', fd);
      var k2 := Released(k1', fd);
      assert k2.fds == k0.fds[loopfd := OpenFile(loopname, ReadWrite)];
      LastCloseClears(k0, k2, n, loopname);
      CloseUndoesTwoOpens(k0, OpenFile(loopname, ReadWrite), OpenFile(BaasInit.FILE_PATH, ReadWrite));
    }
  }

  /** Growing the table by a free device changes nothing about what holds a node. */
  lemma HeldGrow(k0: Kernel, k1: Kernel, path: string)
    requires k1.fds == k0.fds && k1.loops == GrowTo(k0.loops, FreeLoop(k0.loops))
    ensures Held(k1, path) <==> Held(k0, path)
  {
    if j :| 0 <= j < |k1.loops| && k1.loops[j].backing == Some(path) {
      assert j < |k0.loops| && k0.loops[j].backing == Some(path);
    }
  }

  /**
   * main of test.c: the first free loop device is bound to /test.img and
   * given autoclear and partition scanning, and when main closes its loop
   * descriptor, the last hold on the device, the device is detached again
   * with no flags. Only a descriptor open before main or another loop device
   * on the same node keeps it bound. No descriptor is left open. Any failing
   * call exits with EXIT_FAILURE.
   */
  method TestMain(k0: Kernel) returns (k: Kernel)
    requires Valid(k0) && k0.status == Running
    ensures Valid(k) && Ran(k0, k, TestScript(k0.nextFd, FreeLoop(k0.loops)))
    ensures k.status == Running || k.status == Exited(EXIT_FAILURE)
    ensures k.status == Running ==>
      var n := FreeLoop(k0.loops);
      k.fds == k0.fds && k.nextFd == k0.nextFd + 3 &&
      k.loops == GrowTo(k0.loops, n)[n := if Held(k0, LoopPath(n)) then LoopDevice(Some(BaasInit.FILE_PATH), TAKEN_FLAGS)
                                           else LoopDevice(None, 0)]
  {
    ghost var l := BaasInit.LoopDeviceScript(k0.nextFd);
    ghost var b := BaasInit.AttachScript(k0.nextFd + 1, LoopPath(FreeLoop(k0.loops))) + FlagsScript(k0.nextFd + 1, k0.nextFd + 2);
    assert TestScript(k0.nextFd, FreeLoop(k0.loops)) == l + b;
    var loopname;
    k, loopname := BaasInit.GetLoopDevice(k0);
    if k.status != Running {
      RanLonger(k0, k, l, b);
      return;
    }
    var k1 := k;
    HeldGrow(k0, k1, loopname);
    k := AttachTest(k, FreeLoop(k0.loops), loopname);
    RanThen(k0, k1, k, l, b);
  }
}
