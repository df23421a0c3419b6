/**
 * The PID-1 shim (utils/baas-init/baas-init.c): it refuses to run as any
 * other process, leaves a line in /baas.log and hands over to the original
 * init by execve. Beside that path it holds the image pipeline (a forked child
 * that fetches the boot setup, downloads each image to /test.img and attaches
 * it to a free loop device with partition scanning), the loop-device helper
 * and the zombie-reaping signal handlers. Every failing checked call ends the
 * process with EXIT_FAILURE before any later call is made.
 */
module BaasInit {
  import opened Wrappers
  import opened Kernel
  import Text
  import Json
  import BaasJson

  const FILE_PATH: string := "/test.img"
  const LOG_PATH: string := "/baas.log"
  const LOG_LINE: string := "Hello from the baas init!\n"
  const ORIGINAL_INIT: string := "/sbin/init-orig"
  const MANIFEST_URI: string := "192.168.2.33:9090/disk.json"
  const IMAGE_URI_PREFIX: string := "http://192.168.2.33:4848/image/"
  const REAP_ALARM: nat := 50

  // ----- get_loop_device -----

  function LoopDeviceScript(f: int): seq<Op>
  {
    [Open(LOOP_CONTROL, ReadWrite), LoopCtlGetFree(f), Close(f)]
  }

  /**
   * get_loop_device: asks the control device for a free loop device, names it
   * /dev/loop<N> and closes the control descriptor again. Opening the control
   * device or asking it for a device may fail, and either failure exits.
   */
  method GetLoopDevice(k0: Kernel) returns (k: Kernel, loopname: string)
    requires Valid(k0) && k0.status == Running
    ensures Valid(k) && Ran(k0, k, LoopDeviceScript(k0.nextFd))
    ensures k.status == Running <==> WorksAt(k0, 0) && WorksAt(k0, 1) && CanOpen(k0, LOOP_CONTROL, ReadWrite)
    ensures k.status != Running ==> k.status == Exited(EXIT_FAILURE)
    ensures k.status == Running ==>
      loopname == LoopPath(FreeLoop(k0.loops)) &&
      k == Grow(k0).(nodes := k0.nodes + {LOOP_CONTROL}, nextFd := k0.nextFd + 1, calls := k.calls, rets := k.rets)
    ensures k.status == Running ==> LoopOf(k, loopname) == Some(FreeLoop(k0.loops))
  {
    ghost var script := LoopDeviceScript(k0.nextFd);
    var loopctlfd, devnr, r;
    k, loopctlfd := OpenCall(k0, LOOP_CONTROL, ReadWrite);
    if loopctlfd == -1 {
      k := ErrExit(k0, k, script);
      return k, "";
    }
    k, devnr := LoopCtlGetFreeCall(k, loopctlfd);
    if devnr == -1 {
      k := ErrExit(k0, k, script);
      return k, "";
    }
    loopname := LoopPath(devnr);
    ReleasedFile(k, loopctlfd);
    k, r := CloseCall(k, loopctlfd);
    CloseUndoesOpen(k0, LOOP_CONTROL, ReadWrite);
  }

  // ----- the zombie reapers -----

  /** The children that have not terminated, in table order. */
  function Living(cs: seq<Child>): (r: seq<Child>)
    ensures forall c :: c in r ==> c in cs && !c.terminated
  {
    if cs == [] then [] else (if cs[0].terminated then [] else [cs[0]]) + Living(cs[1..])
  }

  function Zombies(cs: seq<Child>): nat
  {
    if cs == [] then 0 else (if cs[0].terminated then 1 else 0) + Zombies(cs[1..])
  }

  lemma {:induction false} LivingRemoveZombie(cs: seq<Child>, i: nat)
    requires i < |cs| && cs[i].terminated
    ensures Living(RemoveAt(cs, i)) == Living(cs)
    ensures Zombies(RemoveAt(cs, i)) == Zombies(cs) - 1
    decreases |cs|
  {
    if i == 0 {
      assert RemoveAt(cs, 0) == cs[1..];
    } else {
      assert RemoveAt(cs, i) == [cs[0]] + RemoveAt(cs[1..], i - 1);
      LivingRemoveZombie(cs[1..], i - 1);
    }
  }

  lemma {:induction false} LivingWithoutZombies(cs: seq<Child>)
    requires forall j :: 0 <= j < |cs| ==> !cs[j].terminated
    ensures Living(cs) == cs && Zombies(cs) == 0
    decreases |cs|
  {
    if cs != [] {
      LivingWithoutZombies(cs[1..]);
    }
  }

  function Waits(n: nat): (r: seq<Op>)
    ensures |r| == n && forall j :: 0 <= j < n ==> r[j] == WaitPid(-1, true)
  {
    seq(n, _ => WaitPid(-1, true))
  }

  /**
   * One waitpid(-1, ..., WNOHANG): it collects one terminated child if there
   * is one; otherwise the table is left alone and holds no zombie.
   */
  method WaitAny(k0: Kernel) returns (k: Kernel, r: int)
    requires Valid(k0) && k0.status == Running
    ensures Valid(k) && k.status == Running && Stepped(k0, k, WaitPid(-1, true), r)
    ensures k == k0.(children := k.children, calls := k.calls, rets := k.rets)
    ensures Living(k.children) == Living(k0.children)
    ensures r > 0 ==> Zombies(k.children) == Zombies(k0.children) - 1
    ensures r <= 0 ==> k.children == k0.children && Zombies(k0.children) == 0
  {
    k, r := WaitAnyCall(k0);
    match FirstTerminated(k0.children, 0) {
      case Some(i) =>
        LivingRemoveZombie(k0.children, i);
        assert k0.children[i] in k0.children;
      case None =>
        LivingWithoutZombies(k0.children);
    }
  }

  /**
   * The loop `while (waitpid(-1, ..., WNOHANG) > 0)` shared by sigchild and
   * sigreap: it collects every terminated child, leaves the running ones in
   * place and calls waitpid once more than there were zombies.
   */
  method DrainZombies(k0: Kernel) returns (k: Kernel)
    requires Valid(k0) && k0.status == Running
    ensures Valid(k) && k.status == Running && Extends(k0, k)
    ensures k.children == Living(k0.children)
    ensures forall j :: 0 <= j < |k.children| ==> !k.children[j].terminated
    ensures RunOf(k0, k) == Waits(Zombies(k0.children) + 1)
    ensures k == k0.(children := k.children, calls := k.calls, rets := k.rets)
  {
    var r;
    k, r := WaitAny(k0);
    var reaped: nat := if r > 0 then 1 else 0;
    while r > 0
      invariant Valid(k) && Extends(k0, k) && k.status == Running
      invariant k == k0.(children := k.children, calls := k.calls, rets := k.rets)
      invariant Living(k.children) == Living(k0.children)
      invariant reaped + Zombies(k.children) == Zombies(k0.children)
      invariant RunOf(k0, k) == Waits(reaped + (if r > 0 then 0 else 1))
      invariant r <= 0 ==> Zombies(k.children) == 0
      decreases Zombies(k.children) + (if r > 0 then 1 else 0)
    {
      var before := k;
      k, r := WaitAny(k);
      ExtendsTrans(k0, before, k);
      WaitsNext(reaped);
      if r > 0 {
        reaped := reaped + 1;
      }
    }
    ZombieFree(k.children);
  }

  lemma WaitsNext(n: nat)
    ensures Waits(n) + [WaitPid(-1, true)] == Waits(n + 1)
  {
  }

  lemma {:induction false} ZombieFree(cs: seq<Child>)
    requires Zombies(cs) == 0
    ensures Living(cs) == cs && forall j :: 0 <= j < |cs| ==> !cs[j].terminated
    decreases |cs|
  {
    if cs != [] {
      ZombieFree(cs[1..]);
      assert forall j :: 1 <= j < |cs| ==> cs[1..][j - 1] == cs[j];
    }
  }

  /** sigreap: reap every zombie, then re-arm the 50-second alarm. */
  method SigReap(k0: Kernel) returns (k: Kernel)
    requires Valid(k0) && k0.status == Running
    ensures Valid(k) && k.status == Running && Extends(k0, k)
    ensures k.children == Living(k0.children) && k.alarm == Some(REAP_ALARM)
    ensures RunOf(k0, k) == Waits(Zombies(k0.children) + 1) + [Alarm(REAP_ALARM)]
    ensures k == k0.(children := k.children, alarm := k.alarm, calls := k.calls, rets := k.rets)
  {
    k := DrainZombies(k0);
    var k1 := k;
    k := AlarmCall(k, REAP_ALARM);
    ExtendsTrans(k0, k1, k);
  }

  /** sigchild: the same drain without the alarm. */
  method SigChild(k0: Kernel) returns (k: Kernel)
    requires Valid(k0) && k0.status == Running
    ensures Valid(k) && k.status == Running && Extends(k0, k)
    ensures k.children == Living(k0.children)
    ensures RunOf(k0, k) == Waits(Zombies(k0.children) + 1)
  {
    k := DrainZombies(k0);
  }

  /** sigterminate: _exit(0). */
  method SigTerminate(k0: Kernel) returns (k: Kernel)
    requires Valid(k0) && k0.status == Running
    ensures Extends(k0, k) && k.status == Exited(0) && RunOf(k0, k) == [Exit(0)]
  {
    k := ExitCall(k0, 0);
  }

  lemma ChildIndexOfNewest(cs: seq<Child>, c: Child)
    requires forall d :: d in cs ==> d.pid < c.pid
    ensures ChildIndex(cs + [c], c.pid, 0) == Some(|cs|)
  {
    assert forall j :: 0 <= j < |cs| ==> (cs + [c])[j] in cs;
    ChildIndexFrom(cs + [c], c.pid, 0, |cs|);
  }

  lemma {:induction false} ChildIndexFrom(cs: seq<Child>, pid: int, from: nat, i: nat)
    requires from <= i < |cs| && cs[i].pid == pid
    ensures ChildIndex(cs, pid, from).Some? && ChildIndex(cs, pid, from).value <= i
    decreases i - from
  {
    if cs[from].pid != pid {
      ChildIndexFrom(cs, pid, from + 1, i);
    }
  }

  /**
   * The parent side of spawn: fork (a failure exits) and wait for that child.
   * The child's exec is not modelled; waiting takes it out of the table again.
   */
  method Spawn(k0: Kernel) returns (k: Kernel)
    requires Valid(k0) && k0.status == Running
    ensures Valid(k) && Ran(k0, k, [Fork, WaitPid(k0.nextPid, false)])
    ensures k.status == Running <==> Works(k0) && |k0.children| < k0.forkLimit
    ensures k.status != Running ==> k.status == Exited(EXIT_FAILURE)
    ensures k.status == Running ==>
      k == k0.(nextPid := k0.nextPid + 1, calls := k.calls, rets := k.rets)
  {
    ghost var script := [Fork, WaitPid(k0.nextPid, false)];
    var pid, r;
    k, pid := ForkCall(k0);
    if pid == -1 {
      k := ErrExit(k0, k, script);
      return;
    }
    var k1 := k;
    ChildIndexOfNewest(k0.children, Child(k0.nextPid, false));
    k, r := WaitPidCall(k, pid);
    assert k.children == (k0.children + [Child(k0.nextPid, false)])[..|k0.children|];
  }

  // ----- main -----

  /** fopen("/baas.log", "w") as the third call of main succeeds. */
  predicate LogOpens(k0: Kernel)
  {
    WorksAt(k0, 2) && CanOpen(k0, LOG_PATH, WriteCreate)
  }

  function LogScript(f: int): seq<Op>
  {
    [Open(LOG_PATH, WriteCreate), Puts(f, LOG_LINE), Close(f)]
  }

  /**
   * The logging part of main: fopen the log for writing, fputs one line and
   * fclose it. `logOpen` is false when fopen returned NULL, after which nothing
   * else is called.
   */
  method WriteLog(k0: Kernel) returns (k: Kernel, logOpen: bool)
    requires Valid(k0) && k0.status == Running
    ensures Valid(k) && k.status == Running
    ensures logOpen <==> Works(k0) && CanOpen(k0, LOG_PATH, WriteCreate)
    ensures !logOpen ==> k == Record(k0, Open(LOG_PATH, WriteCreate), -1)
    ensures logOpen ==>
      k.calls == k0.calls + LogScript(k0.nextFd) &&
      k == k0.(nodes := k0.nodes + {LOG_PATH}, nextFd := k0.nextFd + 1, calls := k.calls, rets := k.rets)
  {
    var fptr, r;
    k, fptr := OpenCall(k0, LOG_PATH, WriteCreate);
    if fptr == -1 {
      return k, false;
    }
    k, r := PutsCall(k, fptr, LOG_LINE);
    ReleasedFile(k, fptr);
    k, r := CloseCall(k, fptr);
    logOpen := true;
  }

  /**
   * main: anything but PID 1 returns 1 at once without a single call. PID 1
   * changes to / twice, opens the log (returning 1 when that fails), writes
   * one line, closes it and execs the original init with argv {"init"}. If
   * execve returns, main falls off its end and the process returns 0.
   * `code` is main's return value, None when the image was replaced.
   */
  method InitMain(k0: Kernel) returns (k: Kernel, code: Option<int>)
    requires Valid(k0) && k0.status == Running
    ensures k0.pid != 1 ==> k == k0 && code == Some(1)
    ensures k0.pid == 1 && !LogOpens(k0) ==>
      code == Some(1) && k.calls == k0.calls + [Chdir("/")] + [Chdir("/")] + [Open(LOG_PATH, WriteCreate)]
    ensures k0.pid == 1 && LogOpens(k0) ==>
      k.calls == k0.calls + [Chdir("/")] + [Chdir("/")] + LogScript(k0.nextFd) + [Execve(ORIGINAL_INIT, ["init"])]
    ensures code.None? <==> k.status == Replaced(ORIGINAL_INIT, ["init"])
    ensures code.None? <==> k0.pid == 1 && LogOpens(k0) && WorksAt(k0, 5) && CanExec(k0, ORIGINAL_INIT)
    ensures code.Some? ==> k.status == Running && code.value in {0, 1}
    ensures k0.pid == 1 && LogOpens(k0) && code.Some? ==> code == Some(0)
  {
    if k0.pid != 1 {
      return k0, Some(1);
    }
    k := ChdirTwice(k0);
    assert Works(k) == WorksAt(k0, 2) && WorksAt(k, 3) == WorksAt(k0, 5);
    k, code := LogAndExec(k);
  }

  /** The two chdir("/") calls main starts with; their results are ignored. */
  method ChdirTwice(k0: Kernel) returns (k: Kernel)
    requires Valid(k0) && k0.status == Running
    ensures Valid(k) && k.status == Running
    ensures k.calls == k0.calls + [Chdir("/")] + [Chdir("/")]
    ensures k == k0.(cwd := k.cwd, calls := k.calls, rets := k.rets)
  {
    var r;
    k, r := ChdirCall(k0, "/");
    k, r := ChdirCall(k, "/");
  }

  /** The rest of main after the chdirs: write the log, then execve the original init. */
  method LogAndExec(k0: Kernel) returns (k: Kernel, code: Option<int>)
    requires Valid(k0) && k0.status == Running
    ensures !(Works(k0) && CanOpen(k0, LOG_PATH, WriteCreate)) ==>
      code == Some(1) && k.calls == k0.calls + [Open(LOG_PATH, WriteCreate)]
    ensures Works(k0) && CanOpen(k0, LOG_PATH, WriteCreate) ==>
      k.calls == k0.calls + LogScript(k0.nextFd) + [Execve(ORIGINAL_INIT, ["init"])]
    ensures code.None? <==> k.status == Replaced(ORIGINAL_INIT, ["init"])
    ensures code.None? <==>
      Works(k0) && CanOpen(k0, LOG_PATH, WriteCreate) && WorksAt(k0, 3) && CanExec(k0, ORIGINAL_INIT)
    ensures code.Some? ==> k.status == Running && code.value in {0, 1}
    ensures Works(k0) && CanOpen(k0, LOG_PATH, WriteCreate) && code.Some? ==> code == Some(0)
  {
    var r, logOpen;
    k, logOpen := WriteLog(k0);
    if !logOpen {
      return k, Some(1);
    }
    assert Works(k) == WorksAt(k0, 3) && CanExec(k, ORIGINAL_INIT) == CanExec(k0, ORIGINAL_INIT);
    k, r := ExecveCall(k, ORIGINAL_INIT, ["init"]);
    code := if r == -1 then Some(0) else None;
  }

  // ----- get_image -----

  function VersionOf(image: BaasJson.BaasImage): int
  {
    match image.version
    case Some(v) => v
    case None => 0
  }

  /** "http://192.168.2.33:4848/image/%s/%d" with the entry's UUID and version. */
  function ImageUri(image: BaasJson.BaasImage): string
  {
    IMAGE_URI_PREFIX + image.uuid + "/" + Text.SignedDecimal(VersionOf(image))
  }

  /** The URIs of the entries' images, in order. */
  function ImageUris(entries: seq<BaasJson.BaasImageFrozen>): (r: seq<string>)
    ensures |r| == |entries|
  {
    if entries == [] then [] else ImageUris(entries[..|entries| - 1]) + [ImageUri(entries[|entries| - 1].image)]
  }

  lemma {:induction false} ImageUrisIndex(entries: seq<BaasJson.BaasImageFrozen>, i: nat)
    requires i < |entries|
    ensures ImageUris(entries)[i] == ImageUri(entries[i].image)
    decreases |entries|
  {
    if i < |entries| - 1 {
      ImageUrisIndex(entries[..|entries| - 1], i);
    }
  }

  /** The URIs the process fetched images from, in order. */
  function FetchedUris(calls: seq<Op>): seq<string>
  {
    if calls == [] then []
    else FetchedUris(calls[..|calls| - 1]) + (if calls[|calls| - 1].Fetch? then [calls[|calls| - 1].uri] else [])
  }

  lemma {:induction false} FetchedUrisAppend(a: seq<Op>, b: seq<Op>)
    ensures FetchedUris(a + b) == FetchedUris(a) + FetchedUris(b)
    decreases |b|
  {
    if b == [] {
      assert a + b == a;
    } else {
      assert (a + b)[..|a + b| - 1] == a + b[..|b| - 1];
      FetchedUrisAppend(a, b[..|b| - 1]);
    }
  }

  lemma {:induction false} FetchedUrisNone(s: seq<Op>)
    requires forall j :: 0 <= j < |s| ==> !s[j].Fetch?
    ensures FetchedUris(s) == []
    decreases |s|
  {
    if s != [] {
      FetchedUrisNone(s[..|s| - 1]);
    }
  }

  function DownloadScript(f: int, uri: string): seq<Op>
  {
    [Open(FILE_PATH, WriteCreate), Fetch(uri, f), Close(f)]
  }

  function AttachScript(f: int, loopname: string): seq<Op>
  {
    [Open(loopname, ReadWrite), Open(FILE_PATH, ReadWrite), LoopSetFd(f, f + 1)]
  }

  function PartScanScript(loopfd: int, fd: int): seq<Op>
  {
    [LoopGetStatus(loopfd), LoopSetStatus(loopfd, LO_FLAGS_PARTSCAN), Close(fd), Close(loopfd)]
  }

  function BindScript(f: int, loopname: string): seq<Op>
  {
    AttachScript(f, loopname) + PartScanScript(f, f + 1)
  }

  /** The calls that download and attach one entry, for a kernel in state `k`. */
  function EntryScript(k: Kernel, uri: string): seq<Op>
  {
    DownloadScript(k.nextFd, uri) + LoopDeviceScript(k.nextFd + 1) + BindScript(k.nextFd + 2, LoopPath(FreeLoop(k.loops)))
  }

  lemma {:induction false} FetchedUrisPrefix(p: seq<Op>, s: seq<Op>)
    requires p <= s
    ensures FetchedUris(p) <= FetchedUris(s)
    decreases |s|
  {
    if |p| < |s| {
      assert p <= s[..|s| - 1];
      FetchedUrisPrefix(p, s[..|s| - 1]);
    } else {
      assert p == s;
    }
  }

  /** Each entry's script fetches exactly its own URI. */
  lemma EntryScriptFetches(k: Kernel, uri: string)
    ensures FetchedUris(EntryScript(k, uri)) == [uri]
  {
    var d := DownloadScript(k.nextFd, uri);
    var rest := LoopDeviceScript(k.nextFd + 1) + BindScript(k.nextFd + 2, LoopPath(FreeLoop(k.loops)));
    assert forall j :: 0 <= j < |rest| ==> !rest[j].Fetch?;
    FetchedUrisNone(rest);
    assert EntryScript(k, uri) == d + rest;
    FetchedUrisAppend(d, rest);
    assert d == [d[0], d[1]] + [d[2]];
    FetchedUrisAppend([d[0], d[1]], [d[2]]);
    FetchedUrisAppend([d[0]], [d[1]]);
    assert [d[0]] + [d[1]] == [d[0], d[1]];
    FetchedUrisNone([d[0]]);
    FetchedUrisNone([d[2]]);
    assert FetchedUris([d[1]]) == [uri] by {
      assert [d[1]][..0] == [];
    }
  }

  /** The device a completed entry is left with: bound to /test.img with only partition scanning set. */
  const ATTACHED: LoopDevice := LoopDevice(Some(FILE_PATH), LO_FLAGS_PARTSCAN)

  /**
   * The download half of get_image's loop body: fopen the image file, run the
   * transfer into it and fclose it. A failed fopen hands a NULL stream to the
   * transfer and to fclose, and the process crashes.
   */
  method Download(k0: Kernel, uri: string) returns (k: Kernel)
    requires Valid(k0) && k0.status == Running
    ensures Valid(k) && Ran(k0, k, DownloadScript(k0.nextFd, uri))
    ensures k.status == Running || k.status == Crashed
    ensures k.status == Crashed <==> !(Works(k0) && CanOpen(k0, FILE_PATH, WriteCreate))
    ensures k.status == Running ==>
      k == k0.(nodes := k0.nodes + {FILE_PATH}, nextFd := k0.nextFd + 1, calls := k.calls, rets := k.rets)
  {
    ghost var script := DownloadScript(k0.nextFd, uri);
    var fptr, r;
    k, fptr := OpenCall(k0, FILE_PATH, WriteCreate);
    if fptr == -1 {
      var k1 := k;
      k := CrashCall(k);
      RanFailed(k0, k1, k, script, Crash);
      return;
    }
    var k1 := k;
    k := FetchCall(k, uri, fptr);
    var k2 := k;
    ReleasedFile(k, fptr);
    k, r := CloseCall(k, fptr);
    CloseUndoesOpen(k0, FILE_PATH, WriteCreate);
  }

  /**
   * The first part of the attach half: open the loop device and the image
   * read-write and bind them. Each failure exits; a device that is already
   * bound refuses LOOP_SET_FD.
   */
  method AttachFile(k0: Kernel, n: nat, loopname: string) returns (k: Kernel, loopfd: int, fd: int)
    requires Valid(k0) && k0.status == Running
    requires LoopOf(k0, loopname) == Some(n)
    ensures Valid(k) && Ran(k0, k, AttachScript(k0.nextFd, loopname))
    ensures k.status == Running || k.status == Exited(EXIT_FAILURE)
    ensures k0.loops[n].backing.Some? ==> k.status == Exited(EXIT_FAILURE)
    ensures k.status == Running ==>
      loopfd == k0.nextFd && fd == k0.nextFd + 1 && LoopOfFd(k, loopfd) == Some(n) &&
      k == k0.(nodes := k.nodes, nextFd := k0.nextFd + 2,
               fds := k0.fds[loopfd := OpenFile(loopname, ReadWrite)][fd := OpenFile(FILE_PATH, ReadWrite)],
               loops := k0.loops[n := LoopDevice(Some(FILE_PATH), 0)],
               calls := k.calls, rets := k.rets)
  {
    ghost var script := AttachScript(k0.nextFd, loopname);
    var r;
    fd := -1;
    k, loopfd := OpenCall(k0, loopname, ReadWrite);
    if loopfd == -1 {
      k := ErrExit(k0, k, script);
      return;
    }
    var k1 := k;
    k, fd := OpenCall(k, FILE_PATH, ReadWrite);
    if fd == -1 {
      k := ErrExit(k0, k, script);
      return;
    }
    var k2 := k;
    k, r := LoopSetFdCall(k, loopfd, fd);
    if r == -1 {
      k := ErrExit(k0, k, script);
      return;
    }
  }

  /**
   * The second part: read the status, OVERWRITE the flags with
   * LO_FLAGS_PARTSCAN alone, write the status back (each failure exits), and
   * close both descriptors. The driver turns AUTOCLEAR off and partition
   * scanning on and keeps the other bits, so closing the loop descriptor
   * leaves the device bound; closing `fd` releases what it holds.
   */
  method SetPartScan(k0: Kernel, loopfd: int, fd: int) returns (k: Kernel)
    requires Valid(k0) && k0.status == Running
    ensures Valid(k) && Ran(k0, k, PartScanScript(loopfd, fd))
    ensures k.status == Running || k.status == Exited(EXIT_FAILURE)
    ensures !IsBoundLoopFd(k0, loopfd) ==> k.status == Exited(EXIT_FAILURE)
    ensures k.status == Running ==>
      var n := LoopOfFd(k0, loopfd).value;
      var k1 := k0.(loops := k0.loops[n := k0.loops[n].(flags := SetStatusFlags(k0.loops[n].flags, LO_FLAGS_PARTSCAN))]);
      IsBoundLoopFd(k0, loopfd) &&
      k == Released(k1, fd).(fds := k0.fds - {fd} - {loopfd}, calls := k.calls, rets := k.rets)
  {
    ghost var script := PartScanScript(loopfd, fd);
    var r, flags;
    k, r, flags := LoopGetStatusCall(k0, loopfd);
    if r == -1 {
      k := ErrExit(k0, k, script);
      return;
    }
    flags := LO_FLAGS_PARTSCAN;
    var k1 := k;
    k, r := LoopSetStatusCall(k, loopfd, flags);
    if r == -1 {
      k := ErrExit(k0, k, script);
      return;
    }
    var k2 := k;
    k, r := CloseCall(k, fd);
    var k3 := k;
    if loopfd != fd {
      ReleasedOther(k2, fd, loopfd);
      ReleasedKept(k3, loopfd);
    }
    k, r := CloseCall(k, loopfd);
  }

  /**
   * The attach half of get_image's loop body: bind a free device to the image
   * and give it partition scanning and nothing else.
   */
  method Bind(k0: Kernel, n: nat, loopname: string) returns (k: Kernel)
    requires Valid(k0) && k0.status == Running
    requires LoopOf(k0, loopname) == Some(n)
    ensures Valid(k) && Ran(k0, k, BindScript(k0.nextFd, loopname))
    ensures k.status == Running || k.status == Exited(EXIT_FAILURE)
    ensures k0.loops[n].backing.Some? ==> k.status == Exited(EXIT_FAILURE)
    ensures k.status == Running ==>
      k == k0.(nodes := k.nodes, nextFd := k0.nextFd + 2, loops := k0.loops[n := ATTACHED],
               calls := k.calls, rets := k.rets)
  {
    ghost var a := AttachScript(k0.nextFd, loopname);
    ghost var p := PartScanScript(k0.nextFd, k0.nextFd + 1);
    var loopfd, fd;
    k, loopfd, fd := AttachFile(k0, n, loopname);
    if k.status != Running {
      RanLonger(k0, k, a, p);
      return;
    }
    var k1 := k;
    k := SetPartScan(k, loopfd, fd);
    RanThen(k0, k1, k, a, p);
    if k.status == Running {
      ReleasedFile(k1.(loops := k1.loops[n := ATTACHED]), fd);
      assert k.loops == k0.loops[n := ATTACHED];
      CloseUndoesTwoOpens(k0, OpenFile(loopname, ReadWrite), OpenFile(FILE_PATH, ReadWrite));
    }
  }

  /**
   * One iteration of get_image's loop: download the entry into /test.img, take
   * a free loop device and attach the image to it with partition scanning.
   */
  method AttachEntry(k0: Kernel, uri: string) returns (k: Kernel)
    requires Valid(k0) && k0.status == Running
    ensures Valid(k) && Ran(k0, k, EntryScript(k0, uri))
    ensures k.status == Running || k.status == Exited(EXIT_FAILURE) || k.status == Crashed
    ensures k.status == Crashed <==> !(Works(k0) && CanOpen(k0, FILE_PATH, WriteCreate))
    ensures k.status == Running ==>
      var n := FreeLoop(k0.loops);
      k.fds == k0.fds && k.nextFd == k0.nextFd + 4 && k.loops == GrowTo(k0.loops, n)[n := ATTACHED]
  {
    ghost var d := DownloadScript(k0.nextFd, uri);
    ghost var lb := LoopDeviceScript(k0.nextFd + 1) + BindScript(k0.nextFd + 2, LoopPath(FreeLoop(k0.loops)));
    assert EntryScript(k0, uri) == d + lb;
    k := Download(k0, uri);
    if k.status != Running {
      RanLonger(k0, k, d, lb);
      return;
    }
    var k1 := k;
    k := TakeAndBind(k1);
    RanThen(k0, k1, k, d, lb);
  }

  /** The attach half of get_image's loop body: take a free loop device and bind /test.img to it. */
  method TakeAndBind(k1: Kernel) returns (k: Kernel)
    requires Valid(k1) && k1.status == Running
    ensures Valid(k) && Ran(k1, k, LoopDeviceScript(k1.nextFd) + BindScript(k1.nextFd + 1, LoopPath(FreeLoop(k1.loops))))
    ensures k.status == Running || k.status == Exited(EXIT_FAILURE)
    ensures k.status == Running ==>
      var n := FreeLoop(k1.loops);
      k.fds == k1.fds && k.nextFd == k1.nextFd + 3 && k.loops == GrowTo(k1.loops, n)[n := ATTACHED]
  {
    ghost var l := LoopDeviceScript(k1.nextFd);
    ghost var b := BindScript(k1.nextFd + 1, LoopPath(FreeLoop(k1.loops)));
    var loopname;
    k, loopname := GetLoopDevice(k1);
    if k.status != Running {
      RanLonger(k1, k, l, b);
      return;
    }
    var k2 := k;
    k := Bind(k, FreeLoop(k1.loops), loopname);
    RanThen(k1, k2, k, l, b);
  }

  /** Devices that `after` has bound and `before` had free (or did not have). */
  ghost predicate NewlyBoundAre(before: seq<LoopDevice>, after: seq<LoopDevice>, d: LoopDevice)
  {
    forall j :: 0 <= j < |after| && (j >= |before| || before[j].backing.None?) && after[j].backing.Some? ==>
      after[j] == d
  }

  function BoundCount(loops: seq<LoopDevice>): nat
  {
    if loops == [] then 0 else BoundCount(loops[..|loops| - 1]) + (if loops[|loops| - 1].backing.Some? then 1 else 0)
  }

  lemma {:induction false} BoundCountUpdate(loops: seq<LoopDevice>, n: nat, d: LoopDevice)
    requires n < |loops| && loops[n].backing.None? && d.backing.Some?
    ensures BoundCount(loops[n := d]) == BoundCount(loops) + 1
    decreases |loops|
  {
    var u := loops[n := d];
    if n < |loops| - 1 {
      assert u[..|u| - 1] == loops[..|loops| - 1][n := d];
      BoundCountUpdate(loops[..|loops| - 1], n, d);
    } else {
      assert u[..|u| - 1] == loops[..|loops| - 1];
    }
  }

  lemma GrowToBound(loops: seq<LoopDevice>, n: nat)
    requires n <= |loops|
    ensures BoundCount(GrowTo(loops, n)) == BoundCount(loops)
  {
    if n == |loops| {
      assert GrowTo(loops, n)[..|loops|] == loops;
    }
  }

  /**
   * `cur` is `base` after `i` entries were attached: devices bound in `base`
   * are untouched, `i` more are bound, and every new one is ATTACHED.
   */
  ghost predicate LoopsGrew(base: seq<LoopDevice>, cur: seq<LoopDevice>, i: nat)
  {
    |cur| >= |base| &&
    (forall j :: 0 <= j < |base| && base[j].backing.Some? ==> cur[j] == base[j]) &&
    BoundCount(cur) == BoundCount(base) + i &&
    NewlyBoundAre(base, cur, ATTACHED)
  }

  lemma AttachGrows(base: seq<LoopDevice>, cur: seq<LoopDevice>, i: nat)
    requires LoopsGrew(base, cur, i)
    ensures var n := FreeLoop(cur); LoopsGrew(base, GrowTo(cur, n)[n := ATTACHED], i + 1)
  {
    var n := FreeLoop(cur);
    GrowToBound(cur, n);
    BoundCountUpdate(GrowTo(cur, n), n, ATTACHED);
  }

  /** The URIs fetched before and during one entry's run. */
  lemma FetchedAfterEntry(prev: seq<Op>, run: seq<Op>, script: seq<Op>, us: seq<string>, uri: string, completed: bool)
    requires FetchedUris(prev) == us && FetchedUris(script) == [uri]
    requires completed ==> run == script
    requires !completed ==> |run| >= 1 && run[..|run| - 1] <= script && !run[|run| - 1].Fetch?
    ensures FetchedUris(prev + run) <= us + [uri]
    ensures completed ==> FetchedUris(prev + run) == us + [uri]
  {
    FetchedUrisAppend(prev, run);
    if !completed {
      var p := run[..|run| - 1];
      FetchedUrisPrefix(p, script);
      assert run == p + [run[|run| - 1]];
      FetchedUrisAppend(p, [run[|run| - 1]]);
      FetchedUrisNone([run[|run| - 1]]);
    }
  }

  /** One more run, of a script that fetches `uri` once, after runs that fetched `us`. */
  lemma EntryStep(k0: Kernel, before: Kernel, k: Kernel, script: seq<Op>, us: seq<string>, uri: string)
    requires Extends(k0, before) && before.status == Running && Ran(before, k, script)
    requires FetchedUris(RunOf(k0, before)) == us && FetchedUris(script) == [uri]
    ensures Extends(k0, k)
    ensures FetchedUris(RunOf(k0, k)) <= us + [uri]
    ensures k.status == Running ==> FetchedUris(RunOf(k0, k)) == us + [uri]
    ensures k.status != Running ==> |before.calls| < |k.calls|
  {
    RanExtends(before, k, script);
    ExtendsTrans(k0, before, k);
    var run := RunOf(before, k);
    if k.status == Running {
      FetchedAfterEntry(RunOf(k0, before), run, script, us, uri, true);
    } else {
      assert Terminal(run[|run| - 1], k.status);
      FetchedAfterEntry(RunOf(k0, before), run, script, us, uri, false);
    }
  }

  /** Entry `i` of the loop of get_image, taken once the entries before it are attached. */
  method AttachNext(ghost k0: Kernel, k: Kernel, entries: seq<BaasJson.BaasImageFrozen>, i: nat) returns (k': Kernel)
    requires i < |entries| && Valid(k) && k.status == Running && Extends(k0, k)
    requires FetchedUris(RunOf(k0, k)) == ImageUris(entries[..i]) && k.fds == k0.fds && LoopsGrew(k0.loops, k.loops, i)
    ensures Valid(k') && Extends(k0, k')
    ensures k'.status == Running || k'.status == Exited(EXIT_FAILURE) || k'.status == Crashed
    ensures FetchedUris(RunOf(k0, k')) <= ImageUris(entries[..i + 1])
    ensures k'.status != Running ==> |k0.calls| < |k'.calls|
    ensures k'.status == Running ==>
      FetchedUris(RunOf(k0, k')) == ImageUris(entries[..i + 1]) && k'.fds == k0.fds && LoopsGrew(k0.loops, k'.loops, i + 1)
  {
    var uri := ImageUri(entries[i].image);
    assert entries[..i + 1][..i] == entries[..i];
    assert ImageUris(entries[..i + 1]) == ImageUris(entries[..i]) + [uri];
    EntryScriptFetches(k, uri);
    k' := AttachEntry(k, uri);
    EntryStep(k0, k, k', EntryScript(k, uri), ImageUris(entries[..i]), uri);
    if k'.status == Running {
      AttachGrows(k0.loops, k.loops, i);
    }
  }

  /**
   * The loop of get_image over the decoded entries. It visits them in order
   * and stops the process at the first failure. When it completes, every
   * entry was fetched from its own URI, one more device is bound per entry,
   * no descriptor is left open, and every device it bound is backed by the
   * same /test.img with only partition scanning set.
   */
  method AttachEntries(k0: Kernel, entries: seq<BaasJson.BaasImageFrozen>) returns (k: Kernel)
    requires Valid(k0) && k0.status == Running
    ensures Valid(k) && Extends(k0, k)
    ensures k.status == Running || k.status == Exited(EXIT_FAILURE) || k.status == Crashed
    ensures FetchedUris(RunOf(k0, k)) <= ImageUris(entries)
    ensures k.status != Running ==> |k0.calls| < |k.calls|
    ensures k.status == Running ==>
      FetchedUris(RunOf(k0, k)) == ImageUris(entries) && k.fds == k0.fds && LoopsGrew(k0.loops, k.loops, |entries|)
  {
    k := k0;
    var i := 0;
    AttachStart(k0, entries);
    while i < |entries| && k.status == Running
      invariant 0 <= i <= |entries|
      invariant Valid(k) && Extends(k0, k)
      invariant k.status == Running || k.status == Exited(EXIT_FAILURE) || k.status == Crashed
      invariant FetchedUris(RunOf(k0, k)) <= ImageUris(entries[..i])
      invariant k.status != Running ==> |k0.calls| < |k.calls|
      invariant k.status == Running ==>
        FetchedUris(RunOf(k0, k)) == ImageUris(entries[..i]) && k.fds == k0.fds && LoopsGrew(k0.loops, k.loops, i)
    {
      k := AttachNext(k0, k, entries, i);
      i := i + 1;
    }
    if k.status == Running {
      assert entries[..i] == entries;
    }
    FetchedWithin(FetchedUris(RunOf(k0, k)), entries, i);
  }

  /** Before the loop nothing is fetched and no device is bound. */
  lemma AttachStart(k0: Kernel, entries: seq<BaasJson.BaasImageFrozen>)
    requires Valid(k0)
    ensures Extends(k0, k0) && FetchedUris(RunOf(k0, k0)) == ImageUris(entries[..0]) && LoopsGrew(k0.loops, k0.loops, 0)
  {
    assert RunOf(k0, k0) == [];
    assert entries[..0] == [];
  }

  /** What the first `i` entries' URIs begin with, all the URIs begin with. */
  lemma FetchedWithin(fetched: seq<string>, entries: seq<BaasJson.BaasImageFrozen>, i: nat)
    requires i <= |entries| && fetched <= ImageUris(entries[..i])
    ensures fetched <= ImageUris(entries)
  {
    ImageUrisPrefix(entries, i);
    PrefixOfFront(fetched, ImageUris(entries), i);
  }

  lemma PrefixOfFront(a: seq<string>, b: seq<string>, i: nat)
    requires i <= |b| && a <= b[..i]
    ensures a <= b
  {
    assert a == b[..|a|];
  }

  /** The URIs of the first `i` entries are the first `i` URIs. */
  lemma {:induction false} ImageUrisPrefix(entries: seq<BaasJson.BaasImageFrozen>, i: nat)
    requires i <= |entries|
    ensures ImageUris(entries[..i]) == ImageUris(entries)[..i]
    decreases |entries|
  {
    if i == |entries| {
      assert entries[..i] == entries;
    } else {
      var front := entries[..|entries| - 1];
      ImageUrisPrefix(front, i);
      assert front[..i] == entries[..i];
      var last := [ImageUri(entries[|entries| - 1].image)];
      assert ImageUris(entries) == ImageUris(front) + last;
      assert (ImageUris(front) + last)[..i] == ImageUris(front)[..i];
    }
  }

  /** All entries of a decoded manifest carry an "Update" member. */
  predicate AllEntriesParse(entries: seq<Json.Json>)
  {
    forall i :: 0 <= i < |entries| ==> BaasJson.ParseImageFrozen(entries[i]).Some?
  }

  const SETTLE_MICROS: nat := 10_000_000

  /** What the child of get_image does before it decodes the manifest. */
  const IMAGE_PRELUDE: seq<Op> := [USleep(SETTLE_MICROS), FetchToBuffer(MANIFEST_URI)]

  /** `uris` are the sources of the decoded entries, one per entry and in order. */
  ghost predicate FetchedEntries(uris: seq<string>, entries: seq<Json.Json>)
  {
    AllEntriesParse(entries) && |uris| == |entries| &&
    forall i :: 0 <= i < |entries| ==> uris[i] == ImageUri(BaasJson.ParseImageFrozen(entries[i]).value.image)
  }

  lemma SetupUris(images: seq<BaasJson.BaasImageFrozen>, entries: seq<Json.Json>)
    requires |images| == |entries|
    requires forall i :: 0 <= i < |entries| ==> Some(images[i]) == BaasJson.ParseImageFrozen(entries[i])
    ensures FetchedEntries(ImageUris(images), entries)
  {
    forall i | 0 <= i < |entries|
      ensures ImageUris(images)[i] == ImageUri(BaasJson.ParseImageFrozen(entries[i]).value.image)
    {
      ImageUrisIndex(images, i);
    }
  }

  /** A run that starts with a prelude fetching nothing. */
  lemma AfterPrelude(k0: Kernel, k1: Kernel, k: Kernel, prelude: seq<Op>)
    requires Extends(k0, k1) && RunOf(k0, k1) == prelude && FetchedUris(prelude) == []
    requires Extends(k1, k)
    ensures Extends(k0, k) && RunOf(k0, k) == prelude + RunOf(k1, k)
    ensures RunOf(k0, k)[..|prelude|] == prelude
    ensures FetchedUris(RunOf(k0, k)) == FetchedUris(RunOf(k1, k))
  {
    ExtendsTrans(k0, k1, k);
    assert (prelude + RunOf(k1, k))[..|prelude|] == prelude;
    FetchedUrisAppend(prelude, RunOf(k1, k));
  }

  /** One more call that fetches nothing. */
  lemma StepNoFetch(k1: Kernel, k2: Kernel, k: Kernel, op: Op)
    requires Extends(k1, k2) && k.calls == k2.calls + [op] && |k.rets| == |k.calls| && !op.Fetch?
    ensures Extends(k1, k) && RunOf(k1, k) == RunOf(k1, k2) + [op]
    ensures FetchedUris(RunOf(k1, k)) == FetchedUris(RunOf(k1, k2))
  {
    assert k.calls[..|k2.calls|] == k2.calls;
    ExtendsTrans(k1, k2, k);
    assert RunOf(k2, k) == [op];
    FetchedUrisAppend(RunOf(k1, k2), [op]);
    FetchedUrisNone([op]);
  }

  /**
   * The child of get_image once the manifest is fetched: decode it, attach
   * every image download it names, and exit with 0; an undecodable
   * document crashes the child.
   */
  method ManifestChild(k1: Kernel, document: Option<Json.Json>) returns (k: Kernel)
    requires Valid(k1) && k1.status == Running
    ensures Valid(k) && Extends(k1, k) && |RunOf(k1, k)| >= 1
    ensures k.status == Exited(0) || k.status == Exited(EXIT_FAILURE) || k.status == Crashed
    ensures !AllEntriesParse(Json.Children(Json.GetItem(document, "Images"))) ==>
      k.status == Crashed && RunOf(k1, k) == [Crash]
    ensures k.status == Exited(0) ==>
      FetchedEntries(FetchedUris(RunOf(k1, k)), Json.Children(Json.GetItem(document, "Images")))
  {
    var bs := BaasJson.ParseSetup(document);
    if bs.Err? {
      k := CrashCall(k1);
      assert RunOf(k1, k) == [Crash];
      return;
    }
    k := AttachEntries(k1, bs.value.images);
    if k.status == Running {
      var k2 := k;
      k := ExitCall(k2, 0);
      StepNoFetch(k1, k2, k, Exit(0));
      SetupUris(bs.value.images, Json.Children(Json.GetItem(document, "Images")));
    }
  }

  /**
   * The forked child of get_image: sleep ten seconds, fetch the manifest into
   * a buffer, decode it (`document` is what cJSON made of the buffer; an entry
   * without "Update" makes the decoder dereference NULL), attach every entry
   * in order, and _exit(0). When it exits with 0 it has fetched exactly the
   * entries' images, each from its own UUID and version.
   */
  method ImageChild(k0: Kernel, document: Option<Json.Json>) returns (k: Kernel)
    requires Valid(k0) && k0.status == Running
    ensures Valid(k) && Extends(k0, k)
    ensures |RunOf(k0, k)| >= 3 && RunOf(k0, k)[..2] == IMAGE_PRELUDE
    ensures k.status == Exited(0) || k.status == Exited(EXIT_FAILURE) || k.status == Crashed
    ensures !AllEntriesParse(Json.Children(Json.GetItem(document, "Images"))) ==>
      k.status == Crashed && RunOf(k0, k) == IMAGE_PRELUDE + [Crash]
    ensures k.status == Exited(0) ==>
      FetchedEntries(FetchedUris(RunOf(k0, k)), Json.Children(Json.GetItem(document, "Images")))
  {
    k := Quiet(k0, USleep(SETTLE_MICROS), 0);
    k := FetchToBufferCall(k, MANIFEST_URI);
    assert k.calls == k0.calls + IMAGE_PRELUDE;
    assert Extends(k0, k) && RunOf(k0, k) == IMAGE_PRELUDE;
    FetchedUrisNone(IMAGE_PRELUDE);
    var k1 := k;
    k := ManifestChild(k1, document);
    AfterPrelude(k0, k1, k, IMAGE_PRELUDE);
  }

  /** get_image in the parent: fork, exit on failure, otherwise return at once. */
  method GetImage(k0: Kernel) returns (k: Kernel)
    requires Valid(k0) && k0.status == Running
    ensures Valid(k) && Ran(k0, k, [Fork])
    ensures k.status == Running <==> Works(k0) && |k0.children| < k0.forkLimit
    ensures k.status == Running ==>
      k == k0.(children := k0.children + [Child(k0.nextPid, false)], nextPid := k0.nextPid + 1,
               calls := k.calls, rets := k.rets)
  {
    ghost var script := [Fork];
    var pid;
    k, pid := ForkCall(k0);
    if pid == -1 {
      k := ErrExit(k0, k, script);
      return;
    }
  }
}
