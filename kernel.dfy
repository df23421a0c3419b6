/**
 * The slice of a Linux kernel that the init shim and the loopback helper talk
 * to, as a value: device and file nodes, open descriptors, the loop-device
 * table, directories, mounts, the child table, and the ordered record of every
 * call the process made with its return value. Each procedure of the C code is
 * a method that threads this value through its calls in source order; `Sys`
 * gives the state after one call and `Ret` its return value (-1 on error).
 */
module Kernel {
  import opened Wrappers
  import Text

  const LOOP_CONTROL: string := "/dev/loop-control"
  const EXIT_FAILURE: int := 1

  // linux/loop.h
  const LO_FLAGS_READ_ONLY: bv32 := 1
  const LO_FLAGS_AUTOCLEAR: bv32 := 4
  const LO_FLAGS_PARTSCAN: bv32 := 8
  const LO_FLAGS_DIRECT_IO: bv32 := 16

  // drivers/block/loop.c: the flags LOOP_SET_STATUS may change, and the ones of those it may also clear
  const LOOP_SET_STATUS_SETTABLE_FLAGS: bv32 := LO_FLAGS_AUTOCLEAR | LO_FLAGS_PARTSCAN
  const LOOP_SET_STATUS_CLEARABLE_FLAGS: bv32 := LO_FLAGS_AUTOCLEAR

  /** O_RDONLY, O_RDWR, and fopen's "w" (create or truncate, write only). */
  datatype Mode = ReadOnly | ReadWrite | WriteCreate

  datatype OpenFile = OpenFile(path: string, mode: Mode)

  /** One /dev/loop<n>: the file it is bound to, if any, and its lo_flags. */
  datatype LoopDevice = LoopDevice(backing: Option<string>, flags: bv32)

  datatype MountEntry = MountEntry(source: Option<string>, fstype: Option<string>, flags: bv32, data: string)

  datatype Child = Child(pid: int, terminated: bool)

  /** Running, ended by exit/_exit, killed by a NULL dereference, or replaced by execve. */
  datatype Status = Running | Exited(code: int) | Crashed | Replaced(image: string, argv: seq<string>)

  datatype Op =
    | Open(path: string, mode: Mode)
    | Close(fd: int)
    | LoopCtlGetFree(fd: int)
    | LoopSetFd(loopfd: int, fd: int)
    | LoopGetStatus(loopfd: int)
    | LoopSetStatus(loopfd: int, flags: bv32)
    | Fetch(uri: string, fd: int)            // an HTTP transfer written into an open file
    | FetchToBuffer(uri: string)             // an HTTP transfer copied into a memory buffer
    | ProbeSetDevice(fd: int)                // blkid_probe_set_device
    | ProbeGetPartitions(fd: int)            // blkid_probe_get_partitions + numof_partitions
    | USleep(micros: nat)
    | ProbeChild(path: string)               // blkid_new_probe_from_filename
    | Mkdir(path: string, perm: int)
    | Mount(source: Option<string>, target: string, fstype: Option<string>, flags: bv32, data: string)
    | Umount2(target: string, umountFlags: int)
    | Rmdir(path: string)
    | WaitPid(pid: int, nohang: bool)
    | Alarm(seconds: nat)
    | Fork
    | Chdir(path: string)
    | Puts(fd: int, text: string)
    | Execve(path: string, argv: seq<string>)
    | Exit(code: int)
    | Crash

  datatype Kernel = Kernel(
    pid: int,
    nodes: set<string>,          // paths that open() without creation can find
    denied: set<string>,         // paths open() and execve() refuse
    tables: map<string, nat>,    // partition count of each image file with a partition table
    fds: map<int, OpenFile>,
    nextFd: int,
    loops: seq<LoopDevice>,      // /dev/loop0, /dev/loop1, ...
    devs: map<string, nat>,      // the device node of each loop device, by path
    dirs: set<string>,
    mounts: map<string, MountEntry>,
    children: seq<Child>,
    nextPid: int,
    forkLimit: nat,
    alarm: Option<nat>,
    cwd: string,
    status: Status,
    calls: seq<Op>,
    rets: seq<int>,
    faults: set<nat>)          // positions in the record of calls that fail for reasons not modelled (EIO, ENOMEM, EINTR)

  /**
   * Descriptors are numbered from a counter that is above every open one,
   * and loop device n has the node /dev/loop<n> and no other.
   */
  ghost predicate Valid(k: Kernel)
  {
    k.nextFd >= 0 && (forall fd :: fd in k.fds ==> 0 <= fd < k.nextFd) && |k.rets| == |k.calls| &&
    k.nextPid > 0 && (forall c :: c in k.children ==> 0 < c.pid < k.nextPid) &&
    (forall p :: p in k.devs ==> p == LoopPath(k.devs[p]))
  }

  function LoopPath(n: nat): string
  {
    "/dev/loop" + Text.Decimal(n)
  }

  /** Every loop device node is "/dev/loop" followed by a digit. */
  lemma LoopNodeShape(k: Kernel, path: string)
    requires Valid(k)
    ensures path in k.devs ==> |path| >= 10 && path[..9] == "/dev/loop" && Text.DigitValue(path[9]).Some?
  {
    if path in k.devs {
      var m := k.devs[path];
      Text.NumeralDigits(m, 10);
      assert path == "/dev/loop" + Text.Decimal(m);
      assert path[..9] == "/dev/loop" && path[9] == Text.Decimal(m)[0];
    }
  }

  /** A path that is not "/dev/loop" followed by a digit names no loop device. */
  lemma NotLoopNode(k: Kernel, path: string)
    requires Valid(k)
    requires |path| < 10 || path[..9] != "/dev/loop" || Text.DigitValue(path[9]).None?
    ensures path !in k.devs
  {
    LoopNodeShape(k, path);
  }

  /** The loop device a path names: /dev/loop<n> exists for every device in the table. */
  function LoopOf(k: Kernel, path: string): (r: Option<nat>)
    ensures r.Some? ==> r.value < |k.loops|
  {
    if path in k.devs && k.devs[path] < |k.loops| then Some(k.devs[path]) else None
  }

  /** In a valid kernel, device `n` has one node: any path that names it is `name`. */
  lemma LoopOfIsName(k: Kernel, name: string, n: nat, path: string)
    requires Valid(k) && LoopOf(k, name) == Some(n)
    ensures LoopOf(k, path) == Some(n) <==> path == name
  {
  }

  /** The index of the first unbound loop device, if any. */
  function FirstFree(loops: seq<LoopDevice>, from: nat): (r: Option<nat>)
    ensures r.Some? ==> from <= r.value < |loops| && loops[r.value].backing.None?
    ensures r.Some? ==> forall j :: from <= j < r.value ==> loops[j].backing.Some?
    ensures r.None? ==> forall j :: from <= j < |loops| ==> loops[j].backing.Some?
    decreases |loops| - from
  {
    if from >= |loops| then None
    else if loops[from].backing.None? then Some(from)
    else FirstFree(loops, from + 1)
  }

  /** LOOP_CTL_GET_FREE: the first unbound device, or a new one at the end of the table. */
  function FreeLoop(loops: seq<LoopDevice>): (n: nat)
    ensures n <= |loops|
    ensures n < |loops| ==> loops[n].backing.None?
    ensures forall j :: 0 <= j < n ==> loops[j].backing.Some?
  {
    match FirstFree(loops, 0)
    case Some(n) => n
    case None => |loops|
  }

  function GrowTo(loops: seq<LoopDevice>, n: nat): (r: seq<LoopDevice>)
    requires n <= |loops|
    ensures |r| > n && |r| >= |loops|
    ensures forall j :: 0 <= j < |loops| ==> r[j] == loops[j]
    ensures n == |loops| ==> r[n] == LoopDevice(None, 0)
  {
    if n < |loops| then loops else loops + [LoopDevice(None, 0)]
  }

  /**
   * The kernel after LOOP_CTL_GET_FREE: the first free device, added at the
   * end of the table when none is free, with its node /dev/loop<n> in place.
   */
  function Grow(k: Kernel): (k': Kernel)
    ensures FreeLoop(k.loops) < |k'.loops| && LoopOf(k', LoopPath(FreeLoop(k.loops))) == Some(FreeLoop(k.loops))
  {
    var n := FreeLoop(k.loops);
    k.(loops := GrowTo(k.loops, n), devs := k.devs[LoopPath(n) := n])
  }

  /** The loop device an open descriptor refers to. */
  function LoopOfFd(k: Kernel, fd: int): (r: Option<nat>)
    ensures r.Some? ==> r.value < |k.loops|
  {
    if fd in k.fds then LoopOf(k, k.fds[fd].path) else None
  }

  predicate IsBoundLoopFd(k: Kernel, fd: int)
  {
    var n := LoopOfFd(k, fd);
    n.Some? && k.loops[n.value].backing.Some?
  }

  predicate CanOpen(k: Kernel, path: string, mode: Mode)
  {
    path !in k.denied && (mode == WriteCreate || path in k.nodes || LoopOf(k, path).Some?)
  }

  function FirstTerminated(cs: seq<Child>, from: nat): (r: Option<nat>)
    ensures r.Some? ==> from <= r.value < |cs| && cs[r.value].terminated
    ensures r.None? ==> forall j :: from <= j < |cs| ==> !cs[j].terminated
    decreases |cs| - from
  {
    if from >= |cs| then None
    else if cs[from].terminated then Some(from)
    else FirstTerminated(cs, from + 1)
  }

  function ChildIndex(cs: seq<Child>, pid: int, from: nat): (r: Option<nat>)
    ensures r.Some? ==> from <= r.value < |cs| && cs[r.value].pid == pid
    decreases |cs| - from
  {
    if from >= |cs| then None
    else if cs[from].pid == pid then Some(from)
    else ChildIndex(cs, pid, from + 1)
  }

  function RemoveAt(cs: seq<Child>, i: nat): (r: seq<Child>)
    requires i < |cs|
    ensures |r| == |cs| - 1
  {
    cs[..i] + cs[i + 1..]
  }

  /** The partition count blkid reports for the image bound to a loop descriptor (-1: no table). */
  function TableOf(k: Kernel, fd: int): int
  {
    if IsBoundLoopFd(k, fd) && k.loops[LoopOfFd(k, fd).value].backing.value in k.tables
    then k.tables[k.loops[LoopOfFd(k, fd).value].backing.value]
    else -1
  }

  /** The state `k` with one more call and its return value on record. */
  function Record(k: Kernel, op: Op, r: int): Kernel
  {
    k.(calls := k.calls + [op], rets := k.rets + [r])
  }

  lemma RemoveAtMembers(cs: seq<Child>, i: nat)
    requires i < |cs|
    ensures forall c :: c in RemoveAt(cs, i) ==> c in cs
  {
    forall c | c in RemoveAt(cs, i) ensures c in cs {
      var j :| 0 <= j < |RemoveAt(cs, i)| && RemoveAt(cs, i)[j] == c;
      if j < i { assert cs[j] == c; } else { assert cs[j + 1] == c; }
    }
  }

  /** The flags LOOP_GET_STATUS reports. */
  function StatusFlags(k: Kernel, loopfd: int): bv32
  {
    if IsBoundLoopFd(k, loopfd) then k.loops[LoopOfFd(k, loopfd).value].flags else 0
  }

  predicate CanExec(k: Kernel, path: string)
  {
    path in k.nodes && path !in k.denied
  }

  /** The next call does not hit one of the unmodelled failures. */
  predicate Works(k: Kernel)
  {
    |k.calls| !in k.faults
  }

  /** The call `i` places after the last recorded one does not hit an unmodelled failure. */
  predicate WorksAt(k: Kernel, i: nat)
  {
    |k.calls| + i !in k.faults
  }

  /** None of the next `n` calls hits an unmodelled failure. */
  predicate Clear(k: Kernel, n: nat)
  {
    forall i :: 0 <= i < n ==> WorksAt(k, i)
  }

  // ----- runs of calls -----

  /** `k` is `k0` after further calls. */
  ghost predicate Extends(k0: Kernel, k: Kernel)
  {
    |k0.calls| <= |k.calls| && k.calls[..|k0.calls|] == k0.calls && |k.rets| == |k.calls|
  }

  ghost function RunOf(k0: Kernel, k: Kernel): seq<Op>
    requires Extends(k0, k)
  {
    k.calls[|k0.calls|..]
  }

  ghost predicate Terminal(op: Op, s: Status)
  {
    (op.Exit? && s == Exited(op.code)) || (op.Crash? && s == Crashed)
  }

  /**
   * Fail-fast execution of a script of calls from `k0`: a run that is still
   * going made exactly the scripted calls; a run that stopped made a prefix of
   * them whose last call failed, and then ended the process.
   */
  ghost predicate Ran(k0: Kernel, k: Kernel, script: seq<Op>)
  {
    |k.rets| == |k.calls| &&
    if k.status == Running then k.calls == k0.calls + script
    else
      |k0.calls| + 2 <= |k.calls| && k.calls[..|k.calls| - 1] <= k0.calls + script &&
      Terminal(k.calls[|k.calls| - 1], k.status) && k.rets[|k.calls| - 2] == -1
  }

  lemma RanExtends(k0: Kernel, k: Kernel, script: seq<Op>)
    requires Ran(k0, k, script)
    ensures Extends(k0, k)
    ensures k.status == Running ==> RunOf(k0, k) == script
    ensures k.status != Running ==>
      var run := RunOf(k0, k);
      2 <= |run| && run[..|run| - 1] <= script && Terminal(run[|run| - 1], k.status)
  {
    if k.status != Running {
      var n := |k.calls|;
      assert k.calls[..n - 1][..|k0.calls|] == k.calls[..|k0.calls|];
      var run := RunOf(k0, k);
      assert run[..|run| - 1] == k.calls[..n - 1][|k0.calls|..];
    }
  }

  lemma ExtendsTrans(k0: Kernel, k1: Kernel, k2: Kernel)
    requires Extends(k0, k1) && Extends(k1, k2)
    ensures Extends(k0, k2)
    ensures RunOf(k0, k2) == RunOf(k0, k1) + RunOf(k1, k2)
  {
    assert k2.calls[..|k1.calls|][..|k0.calls|] == k2.calls[..|k0.calls|];
    assert k2.calls == k2.calls[..|k1.calls|] + k2.calls[|k1.calls|..];
  }

  /** `k'` is `k` with one more call on record that returned `r`. */
  ghost predicate Stepped(k: Kernel, k': Kernel, op: Op, r: int)
  {
    k'.calls == k.calls + [op] && k'.rets == k.rets + [r]
  }

  /** A run that stopped part-way through a prefix of a script is a run of the script. */
  lemma RanPrefix(k0: Kernel, k: Kernel, s: seq<Op>, t: seq<Op>)
    requires Ran(k0, k, s) && k.status != Running && s <= t
    ensures Ran(k0, k, t)
  {
    assert k0.calls + s == (k0.calls + t)[..|k0.calls| + |s|];
  }

  /** A single call that left the process running is a run of itself. */
  lemma SteppedRan(k: Kernel, k': Kernel, op: Op, r: int)
    requires Stepped(k, k', op, r) && |k.rets| == |k.calls| && k'.status == Running
    ensures Ran(k, k', [op])
  {
  }

  /** Scripts compose: a completed run followed by a run of the next script. */
  lemma RanThen(k0: Kernel, k1: Kernel, k2: Kernel, s1: seq<Op>, s2: seq<Op>)
    requires Ran(k0, k1, s1) && k1.status == Running && Ran(k1, k2, s2)
    ensures Ran(k0, k2, s1 + s2)
  {
    assert k0.calls + s1 + s2 == k0.calls + (s1 + s2);
  }

  /** A run that has already stopped satisfies any longer script. */
  lemma RanLonger(k0: Kernel, k: Kernel, s: seq<Op>, t: seq<Op>)
    requires Ran(k0, k, s) && k.status != Running
    ensures Ran(k0, k, s + t)
  {
    assert k0.calls + s <= k0.calls + (s + t);
  }

  /**
   * The last recorded call, which failed, is the next one of a script that
   * `k` has made a prefix of; `stop` then ended the process.
   */
  lemma RanFailed(k0: Kernel, k: Kernel, k': Kernel, script: seq<Op>, stop: Op)
    requires |k0.calls| < |k.calls| && k.calls <= k0.calls + script && |k.rets| == |k.calls| && k.rets[|k.rets| - 1] == -1
    requires k'.calls == k.calls + [stop] && k'.rets == k.rets + [0] && Terminal(stop, k'.status)
    ensures Ran(k0, k', script)
  {
    assert k'.calls[..|k'.calls| - 1] == k.calls;
  }

  /** The kernel after a successful open of `path`: the next descriptor refers to it. */
  function Opened(k: Kernel, path: string, mode: Mode): Kernel
  {
    k.(fds := k.fds[k.nextFd := OpenFile(path, mode)], nextFd := k.nextFd + 1, nodes := k.nodes + {path})
  }

  /** Closing the descriptor just opened gives back the table from before the open. */
  lemma CloseUndoesOpen(k: Kernel, path: string, mode: Mode)
    requires Valid(k)
    ensures Opened(k, path, mode).fds - {k.nextFd} == k.fds
  {
  }

  /** Closing the two descriptors just opened, the second first, gives back the table from before. */
  lemma CloseUndoesTwoOpens(k: Kernel, a: OpenFile, b: OpenFile)
    requires Valid(k)
    ensures k.fds[k.nextFd := a][k.nextFd + 1 := b] - {k.nextFd + 1} - {k.nextFd} == k.fds
  {
  }

  // ----- the calls -----
  //
  // Each call is a method over the kernel value: it returns the new state,
  // with the call and its return value appended to the record, and the value
  // the C function returns (-1 for an error).

  /** open(2), and fopen(3) for mode "w". */
  method OpenCall(k: Kernel, path: string, mode: Mode) returns (k': Kernel, fd: int)
    requires Valid(k) && k.status == Running
    ensures Valid(k') && k'.status == Running
    ensures fd == (if Works(k) && CanOpen(k, path, mode) then k.nextFd else -1)
    ensures k' == Record(if fd == -1 then k else Opened(k, path, mode), Open(path, mode), fd)
  {
    fd := if Works(k) && CanOpen(k, path, mode) then k.nextFd else -1;
    k' := if fd == -1 then k else Opened(k, path, mode);
    k' := Record(k', Open(path, mode), fd);
  }

  /**
   * Closing `fd` drops the last hold on a bound loop device with AUTOCLEAR
   * set: no other descriptor refers to the device and no loop device is
   * backed by the path `fd` was opened with.
   */
  predicate AutoClears(k: Kernel, fd: int)
  {
    IsBoundLoopFd(k, fd) &&
    var n := LoopOfFd(k, fd).value;
    k.loops[n].flags & LO_FLAGS_AUTOCLEAR != 0 &&
    (forall g :: g in k.fds && g != fd ==> LoopOfFd(k, g) != Some(n)) &&
    (forall j :: 0 <= j < |k.loops| ==> k.loops[j].backing != Some(k.fds[fd].path))
  }

  /**
   * The kernel once `fd` is released: the descriptor is gone, and a loop
   * device it held last with AUTOCLEAR set is unbound with its flags cleared.
   */
  function Released(k: Kernel, fd: int): (k': Kernel)
    ensures k'.fds == k.fds - {fd} && |k'.loops| == |k.loops|
  {
    if AutoClears(k, fd) then k.(fds := k.fds - {fd}, loops := k.loops[LoopOfFd(k, fd).value := LoopDevice(None, 0)])
    else k.(fds := k.fds - {fd})
  }

  /** Closing a descriptor whose path is no loop device node releases nothing but the descriptor. */
  lemma ReleasedFile(k: Kernel, fd: int)
    requires Valid(k) && fd in k.fds
    requires var p := k.fds[fd].path; |p| < 10 || p[..9] != "/dev/loop" || Text.DigitValue(p[9]).None?
    ensures Released(k, fd) == k.(fds := k.fds - {fd})
  {
    NotLoopNode(k, k.fds[fd].path);
  }

  /** Closing the last descriptor of a device without AUTOCLEAR releases nothing but the descriptor. */
  lemma ReleasedKept(k: Kernel, fd: int)
    requires IsBoundLoopFd(k, fd) && k.loops[LoopOfFd(k, fd).value].flags & LO_FLAGS_AUTOCLEAR == 0
    ensures Released(k, fd) == k.(fds := k.fds - {fd})
  {
  }

  /** What a close releases does not depend on the record of calls. */
  lemma ReleasedRecord(k: Kernel, fd: int, calls: seq<Op>, rets: seq<int>)
    ensures Released(k.(calls := calls, rets := rets), fd) == Released(k, fd).(calls := calls, rets := rets)
  {
  }

  /** Releasing `fd` leaves the device another open descriptor refers to as it was. */
  lemma ReleasedOther(k: Kernel, fd: int, g: int)
    requires g in k.fds && g != fd && LoopOfFd(k, g).Some?
    ensures LoopOfFd(Released(k, fd), g) == LoopOfFd(k, g)
    ensures Released(k, fd).loops[LoopOfFd(k, g).value] == k.loops[LoopOfFd(k, g).value]
  {
    if AutoClears(k, fd) {
      assert LoopOfFd(k, g) != LoopOfFd(k, fd);
    }
  }

  /** close(2) and fclose(3): the descriptor is released even when an error is reported. */
  method CloseCall(k: Kernel, fd: int) returns (k': Kernel, r: int)
    requires Valid(k) && k.status == Running
    ensures Valid(k') && k'.status == Running
    ensures r == (if Works(k) && fd in k.fds then 0 else -1)
    ensures k' == Record(Released(k, fd), Close(fd), r)
  {
    r := if Works(k) && fd in k.fds then 0 else -1;
    k' := Record(Released(k, fd), Close(fd), r);
  }

  /** ioctl(LOOP_CTL_GET_FREE) on the control device: the first free device, made if need be. */
  method LoopCtlGetFreeCall(k: Kernel, fd: int) returns (k': Kernel, devnr: int)
    requires Valid(k) && k.status == Running
    ensures Valid(k') && k'.status == Running
    ensures devnr == (if Works(k) && fd in k.fds && k.fds[fd].path == LOOP_CONTROL then FreeLoop(k.loops) else -1)
    ensures k' == Record(if devnr == -1 then k else Grow(k), LoopCtlGetFree(fd), devnr)
  {
    devnr := if Works(k) && fd in k.fds && k.fds[fd].path == LOOP_CONTROL then FreeLoop(k.loops) else -1;
    k' := if devnr == -1 then k else Grow(k);
    k' := Record(k', LoopCtlGetFree(fd), devnr);
  }

  /**
   * The flags of a device just bound to a file opened in `mode`: LOOP_SET_FD
   * starts from no flags and sets READ_ONLY for a file it cannot write.
   */
  function BoundFlags(mode: Mode): (r: bv32)
    ensures r & LO_FLAGS_READ_ONLY != 0 <==> mode == ReadOnly
    ensures r & !LO_FLAGS_READ_ONLY == 0
  {
    if mode == ReadOnly then LO_FLAGS_READ_ONLY else 0
  }

  /**
   * The flags after LOOP_SET_STATUS writes `written` over `prev`: AUTOCLEAR
   * takes the written value, PARTSCAN can be turned on but not off, and every
   * other bit keeps its previous value.
   */
  function SetStatusFlags(prev: bv32, written: bv32): (r: bv32)
    ensures r & LO_FLAGS_AUTOCLEAR == written & LO_FLAGS_AUTOCLEAR
    ensures r & LO_FLAGS_PARTSCAN == (prev | written) & LO_FLAGS_PARTSCAN
    ensures r & !LOOP_SET_STATUS_SETTABLE_FLAGS == prev & !LOOP_SET_STATUS_SETTABLE_FLAGS
  {
    (written & LOOP_SET_STATUS_SETTABLE_FLAGS) | (prev & !LOOP_SET_STATUS_SETTABLE_FLAGS) | (prev & !LOOP_SET_STATUS_CLEARABLE_FLAGS)
  }

  /** Whether LOOP_SET_FD on these descriptors succeeds: a free device and an open file. */
  predicate CanBind(k: Kernel, loopfd: int, fd: int)
  {
    LoopOfFd(k, loopfd).Some? && k.loops[LoopOfFd(k, loopfd).value].backing.None? && fd in k.fds
  }

  /**
   * ioctl(LOOP_SET_FD): binds a free device to the file behind `fd` with fresh
   * flags; a file opened read-only makes the device read-only.
   */
  method LoopSetFdCall(k: Kernel, loopfd: int, fd: int) returns (k': Kernel, r: int)
    requires Valid(k) && k.status == Running
    ensures Valid(k') && k'.status == Running
    ensures r == (if Works(k) && CanBind(k, loopfd, fd) then 0 else -1)
    ensures r == -1 ==> k' == Record(k, LoopSetFd(loopfd, fd), r)
    ensures r != -1 ==>
      var n := LoopOfFd(k, loopfd).value;
      k' == Record(k.(loops := k.loops[n := LoopDevice(Some(k.fds[fd].path), BoundFlags(k.fds[fd].mode))]),
        LoopSetFd(loopfd, fd), r)
  {
    if Works(k) && CanBind(k, loopfd, fd) {
      var n := LoopOfFd(k, loopfd).value;
      r := 0;
      k' := k.(loops := k.loops[n := LoopDevice(Some(k.fds[fd].path), BoundFlags(k.fds[fd].mode))]);
    } else {
      r := -1;
      k' := k;
    }
    k' := Record(k', LoopSetFd(loopfd, fd), r);
  }

  /** ioctl(LOOP_GET_STATUS): the flags of a bound device. */
  method LoopGetStatusCall(k: Kernel, loopfd: int) returns (k': Kernel, r: int, flags: bv32)
    requires Valid(k) && k.status == Running
    ensures Valid(k') && k'.status == Running
    ensures r == (if Works(k) && IsBoundLoopFd(k, loopfd) then 0 else -1)
    ensures flags == StatusFlags(k, loopfd)
    ensures k' == Record(k, LoopGetStatus(loopfd), r)
  {
    r := if Works(k) && IsBoundLoopFd(k, loopfd) then 0 else -1;
    flags := StatusFlags(k, loopfd);
    k' := Record(k, LoopGetStatus(loopfd), r);
  }

  /** ioctl(LOOP_SET_STATUS): writes the flags of a bound device, as far as the driver lets them change. */
  method LoopSetStatusCall(k: Kernel, loopfd: int, flags: bv32) returns (k': Kernel, r: int)
    requires Valid(k) && k.status == Running
    ensures Valid(k') && k'.status == Running
    ensures r == (if Works(k) && IsBoundLoopFd(k, loopfd) then 0 else -1)
    ensures r == -1 ==> k' == Record(k, LoopSetStatus(loopfd, flags), r)
    ensures r != -1 ==>
      var n := LoopOfFd(k, loopfd).value;
      k' == Record(k.(loops := k.loops[n := k.loops[n].(flags := SetStatusFlags(k.loops[n].flags, flags))]), LoopSetStatus(loopfd, flags), r)
  {
    if Works(k) && IsBoundLoopFd(k, loopfd) {
      var n := LoopOfFd(k, loopfd).value;
      r := 0;
      k' := k.(loops := k.loops[n := k.loops[n].(flags := SetStatusFlags(k.loops[n].flags, flags))]);
    } else {
      r := -1;
      k' := k;
    }
    k' := Record(k', LoopSetStatus(loopfd, flags), r);
  }

  /** A call that changes nothing the model tracks and returns `r`. */
  method Quiet(k: Kernel, op: Op, r: int) returns (k': Kernel)
    requires Valid(k) && k.status == Running
    ensures Valid(k') && k'.status == Running
    ensures k' == Record(k, op, r)
  {
    k' := Record(k, op, r);
  }

  /** An HTTP transfer with curl into an open file; its outcome is not observed. */
  method FetchCall(k: Kernel, uri: string, fd: int) returns (k': Kernel)
    requires Valid(k) && k.status == Running
    ensures Valid(k') && k'.status == Running
    ensures k' == Record(k, Fetch(uri, fd), 0)
  {
    k' := Quiet(k, Fetch(uri, fd), 0);
  }

  /** An HTTP transfer with curl into a memory buffer. */
  method FetchToBufferCall(k: Kernel, uri: string) returns (k': Kernel)
    requires Valid(k) && k.status == Running
    ensures Valid(k') && k'.status == Running
    ensures k' == Record(k, FetchToBuffer(uri), 0)
  {
    k' := Quiet(k, FetchToBuffer(uri), 0);
  }

  /** blkid_probe_set_device on an open descriptor. */
  method ProbeSetDeviceCall(k: Kernel, fd: int) returns (k': Kernel, r: int)
    requires Valid(k) && k.status == Running
    ensures Valid(k') && k'.status == Running
    ensures r == (if Works(k) && fd in k.fds then 0 else -1)
    ensures k' == Record(k, ProbeSetDevice(fd), r)
  {
    r := if Works(k) && fd in k.fds then 0 else -1;
    k' := Quiet(k, ProbeSetDevice(fd), r);
  }

  /** blkid_probe_get_partitions and blkid_partlist_numof_partitions: -1 without a table. */
  method ProbeGetPartitionsCall(k: Kernel, fd: int) returns (k': Kernel, count: int)
    requires Valid(k) && k.status == Running
    ensures Valid(k') && k'.status == Running
    ensures count == (if Works(k) then TableOf(k, fd) else -1)
    ensures k' == Record(k, ProbeGetPartitions(fd), count)
  {
    count := if Works(k) then TableOf(k, fd) else -1;
    k' := Quiet(k, ProbeGetPartitions(fd), count);
  }

  /** blkid_new_probe_from_filename: fails for a node that does not exist. */
  method ProbeChildCall(k: Kernel, path: string) returns (k': Kernel, r: int)
    requires Valid(k) && k.status == Running
    ensures Valid(k') && k'.status == Running
    ensures r == (if Works(k) && CanExec(k, path) then 0 else -1)
    ensures k' == Record(k, ProbeChild(path), r)
  {
    r := if Works(k) && CanExec(k, path) then 0 else -1;
    k' := Quiet(k, ProbeChild(path), r);
  }

  method MkdirCall(k: Kernel, path: string, perm: int) returns (k': Kernel, r: int)
    requires Valid(k) && k.status == Running
    ensures Valid(k') && k'.status == Running
    ensures r == (if Works(k) && path !in k.dirs then 0 else -1)
    ensures k' == Record(if r == -1 then k else k.(dirs := k.dirs + {path}), Mkdir(path, perm), r)
  {
    r := if Works(k) && path !in k.dirs then 0 else -1;
    k' := Record(if r == -1 then k else k.(dirs := k.dirs + {path}), Mkdir(path, perm), r);
  }

  /**
   * Whether mount(2) of a block device works: the source is an existing node,
   * a filesystem type is given (a NULL type is EINVAL), and the target is a
   * directory nothing is mounted on.
   */
  predicate CanMount(k: Kernel, source: Option<string>, target: string, fstype: Option<string>)
  {
    source.Some? && source.value in k.nodes && fstype.Some? && target in k.dirs && target !in k.mounts
  }

  method MountCall(k: Kernel, source: Option<string>, target: string, fstype: Option<string>, flags: bv32, data: string)
    returns (k': Kernel, r: int)
    requires Valid(k) && k.status == Running
    ensures Valid(k') && k'.status == Running
    ensures r == (if Works(k) && CanMount(k, source, target, fstype) then 0 else -1)
    ensures k' == Record(if r == -1 then k else k.(mounts := k.mounts[target := MountEntry(source, fstype, flags, data)]),
      Mount(source, target, fstype, flags, data), r)
  {
    r := if Works(k) && CanMount(k, source, target, fstype) then 0 else -1;
    k' := if r == -1 then k else k.(mounts := k.mounts[target := MountEntry(source, fstype, flags, data)]);
    k' := Record(k', Mount(source, target, fstype, flags, data), r);
  }

  method Umount2Call(k: Kernel, target: string, umountFlags: int) returns (k': Kernel, r: int)
    requires Valid(k) && k.status == Running
    ensures Valid(k') && k'.status == Running
    ensures r == (if Works(k) && target in k.mounts then 0 else -1)
    ensures k' == Record(if r == -1 then k else k.(mounts := k.mounts - {target}), Umount2(target, umountFlags), r)
  {
    r := if Works(k) && target in k.mounts then 0 else -1;
    k' := Record(if r == -1 then k else k.(mounts := k.mounts - {target}), Umount2(target, umountFlags), r);
  }

  /** rmdir(2): refuses a directory that is still a mount point. */
  method RmdirCall(k: Kernel, path: string) returns (k': Kernel, r: int)
    requires Valid(k) && k.status == Running
    ensures Valid(k') && k'.status == Running
    ensures r == (if Works(k) && path in k.dirs && path !in k.mounts then 0 else -1)
    ensures k' == Record(if r == -1 then k else k.(dirs := k.dirs - {path}), Rmdir(path), r)
  {
    r := if Works(k) && path in k.dirs && path !in k.mounts then 0 else -1;
    k' := if r == -1 then k else k.(dirs := k.dirs - {path});
    k' := Record(k', Rmdir(path), r);
  }

  /** waitpid(-1, ..., WNOHANG): collects one terminated child; 0 while others run, -1 with none. */
  method WaitAnyCall(k: Kernel) returns (k': Kernel, r: int)
    requires Valid(k) && k.status == Running
    ensures Valid(k') && k'.status == Running
    ensures match FirstTerminated(k.children, 0)
      case Some(i) =>
        r == k.children[i].pid && k' == Record(k.(children := RemoveAt(k.children, i)), WaitPid(-1, true), r)
      case None =>
        r == (if |k.children| > 0 then 0 else -1) && k' == Record(k, WaitPid(-1, true), r)
  {
    match FirstTerminated(k.children, 0) {
      case Some(i) =>
        RemoveAtMembers(k.children, i);
        r := k.children[i].pid;
        k' := k.(children := RemoveAt(k.children, i));
      case None =>
        r := if |k.children| > 0 then 0 else -1;
        k' := k;
    }
    k' := Record(k', WaitPid(-1, true), r);
  }

  /** waitpid(pid, ..., 0): waits for that child to end and collects it; -1 if it is not a child. */
  method WaitPidCall(k: Kernel, pid: int) returns (k': Kernel, r: int)
    requires Valid(k) && k.status == Running
    ensures Valid(k') && k'.status == Running
    ensures match ChildIndex(k.children, pid, 0)
      case Some(i) => r == pid && k' == Record(k.(children := RemoveAt(k.children, i)), WaitPid(pid, false), r)
      case None => r == -1 && k' == Record(k, WaitPid(pid, false), r)
  {
    match ChildIndex(k.children, pid, 0) {
      case Some(i) =>
        RemoveAtMembers(k.children, i);
        r := pid;
        k' := k.(children := RemoveAt(k.children, i));
      case None =>
        r := -1;
        k' := k;
    }
    k' := Record(k', WaitPid(pid, false), r);
  }

  method AlarmCall(k: Kernel, seconds: nat) returns (k': Kernel)
    requires Valid(k) && k.status == Running
    ensures Valid(k') && k'.status == Running
    ensures k' == Record(k.(alarm := Some(seconds)), Alarm(seconds), 0)
  {
    k' := Record(k.(alarm := Some(seconds)), Alarm(seconds), 0);
  }

  /** fork(2), seen from the parent: the new child's pid, or -1 at the process limit. */
  method ForkCall(k: Kernel) returns (k': Kernel, pid: int)
    requires Valid(k) && k.status == Running
    ensures Valid(k') && k'.status == Running
    ensures pid == (if Works(k) && |k.children| < k.forkLimit then k.nextPid else -1)
    ensures k' == Record(if pid == -1 then k else
      k.(children := k.children + [Child(k.nextPid, false)], nextPid := k.nextPid + 1), Fork, pid)
  {
    pid := if Works(k) && |k.children| < k.forkLimit then k.nextPid else -1;
    k' := if pid == -1 then k else
      k.(children := k.children + [Child(k.nextPid, false)], nextPid := k.nextPid + 1);
    k' := Record(k', Fork, pid);
  }

  method ChdirCall(k: Kernel, path: string) returns (k': Kernel, r: int)
    requires Valid(k) && k.status == Running
    ensures Valid(k') && k'.status == Running
    ensures r == (if Works(k) && path in k.dirs then 0 else -1)
    ensures k' == Record(if r == -1 then k else k.(cwd := path), Chdir(path), r)
  {
    r := if Works(k) && path in k.dirs then 0 else -1;
    k' := if r == -1 then k else k.(cwd := path);
    k' := Record(k', Chdir(path), r);
  }

  /** fputs(3) to an open stream. */
  method PutsCall(k: Kernel, fd: int, text: string) returns (k': Kernel, r: int)
    requires Valid(k) && k.status == Running
    ensures Valid(k') && k'.status == Running
    ensures r == (if Works(k) && fd in k.fds then |text| else -1)
    ensures k' == Record(k, Puts(fd, text), r)
  {
    r := if Works(k) && fd in k.fds then |text| else -1;
    k' := Quiet(k, Puts(fd, text), r);
  }

  /** execve(2): on success the process image is replaced and nothing returns to the caller. */
  method ExecveCall(k: Kernel, path: string, argv: seq<string>) returns (k': Kernel, r: int)
    requires Valid(k) && k.status == Running
    ensures Valid(k')
    ensures r == (if Works(k) && CanExec(k, path) then 0 else -1)
    ensures k' == Record(if r == -1 then k else k.(status := Replaced(path, argv)), Execve(path, argv), r)
  {
    r := if Works(k) && CanExec(k, path) then 0 else -1;
    k' := if r == -1 then k else k.(status := Replaced(path, argv));
    k' := Record(k', Execve(path, argv), r);
  }

  /** exit(3) and _exit(2). */
  method ExitCall(k: Kernel, code: int) returns (k': Kernel)
    requires Valid(k) && k.status == Running
    ensures Valid(k') && Terminal(Exit(code), k'.status)
    ensures k' == Record(k.(status := Exited(code)), Exit(code), 0)
  {
    k' := Record(k.(status := Exited(code)), Exit(code), 0);
  }

  /** A NULL dereference that kills the process. */
  method CrashCall(k: Kernel) returns (k': Kernel)
    requires Valid(k) && k.status == Running
    ensures Valid(k') && Terminal(Crash, k'.status)
    ensures k' == Record(k.(status := Crashed), Crash, 0)
  {
    k' := Record(k.(status := Crashed), Crash, 0);
  }

  /**
   * errExit after the failed last call, the next one of `script`: perror,
   * then exit(EXIT_FAILURE).
   */
  method ErrExit(ghost k0: Kernel, k: Kernel, ghost script: seq<Op>) returns (k': Kernel)
    requires Valid(k) && k.status == Running
    requires |k0.calls| < |k.calls| && k.calls <= k0.calls + script && k.rets[|k.rets| - 1] == -1
    ensures Valid(k') && k'.status == Exited(EXIT_FAILURE) && Ran(k0, k', script)
    ensures k' == Record(k.(status := Exited(EXIT_FAILURE)), Exit(EXIT_FAILURE), 0)
  {
    k' := ExitCall(k, EXIT_FAILURE);
    RanFailed(k0, k, k', script, Exit(EXIT_FAILURE));
  }
}
