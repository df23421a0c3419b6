/**
 * The management OS's entry point (management_os/entrypoint/main.go): the
 * choice of the MAC address, reading the last setup from the machine
 * partition, and the order in which main runs the provisioning steps,
 * gated by the configuration. The steps themselves are modelled elsewhere;
 * here each is the outcome it has.
 */
module EntrypointMain {
  import opened Wrappers
  import Images
  import Setups

  // ----- getMacAddr -----

  /** A network interface as net.Interfaces reports it: up or not, and its hardware address as a string. */
  datatype Iface = Iface(up: bool, hardwareAddr: string)

  /** The addresses getMacAddr collects: those of interfaces that are up and have one, in order. */
  function Candidates(ifas: seq<Iface>): (r: seq<string>)
    ensures |r| <= |ifas|
    ensures forall k :: 0 <= k < |r| ==> r[k] != ""
  {
    if |ifas| == 0 then []
    else (if ifas[0].up && ifas[0].hardwareAddr != "" then [ifas[0].hardwareAddr] else []) + Candidates(ifas[1..])
  }

  /** Interface k qualifies and none before it does. */
  predicate FirstQualifying(ifas: seq<Iface>, k: nat)
  {
    k < |ifas| && ifas[k].up && ifas[k].hardwareAddr != "" &&
    forall j :: 0 <= j < k ==> !ifas[j].up || ifas[j].hardwareAddr == ""
  }

  /** There are no candidates exactly when no interface qualifies; otherwise the first is that of the first qualifying interface. */
  lemma {:induction false} CandidatesFirst(ifas: seq<Iface>)
    ensures |Candidates(ifas)| == 0 <==> forall k :: 0 <= k < |ifas| ==> !ifas[k].up || ifas[k].hardwareAddr == ""
    ensures |Candidates(ifas)| > 0 ==> exists k: nat :: FirstQualifying(ifas, k) && Candidates(ifas)[0] == ifas[k].hardwareAddr
  {
    if |ifas| > 0 {
      CandidatesFirst(ifas[1..]);
      if !(ifas[0].up && ifas[0].hardwareAddr != "") && |Candidates(ifas[1..])| > 0 {
        var k: nat :| FirstQualifying(ifas[1..], k) && Candidates(ifas[1..])[0] == ifas[1..][k].hardwareAddr;
        assert FirstQualifying(ifas, k + 1);
      } else if ifas[0].up && ifas[0].hardwareAddr != "" {
        assert FirstQualifying(ifas, 0);
      }
      assert forall k :: 0 < k < |ifas| ==> ifas[k] == ifas[1..][k - 1];
    }
  }

  /**
   * getMacAddr: a listing error is returned as is; otherwise the first
   * collected address, or "" with the listing's nil error when there is none.
   */
  method GetMacAddr(listing: Result<seq<Iface>, string>) returns (mac: string, err: Option<string>)
    ensures listing.Err? ==> mac == "" && err == Some(listing.error)
    ensures listing.Ok? ==> err.None?
    ensures listing.Ok? && |Candidates(listing.value)| == 0 ==> mac == ""
    ensures listing.Ok? && |Candidates(listing.value)| > 0 ==> mac == Candidates(listing.value)[0]
  {
    if listing.Err? {
      return "", Some(listing.error);
    }
    var ifas := listing.value;
    var addrs: seq<string> := [];
    var i := 0;
    while i < |ifas|
      invariant 0 <= i <= |ifas|
      invariant addrs + Candidates(ifas[i..]) == Candidates(ifas)
    {
      assert ifas[i..][1..] == ifas[i + 1..];
      if !ifas[i].up {
        i := i + 1;
        continue;
      }
      var a := ifas[i].hardwareAddr;
      if a != "" {
        addrs := addrs + [a];
      }
      i := i + 1;
    }
    if |addrs| == 0 {
      return "", None;
    }
    return addrs[0], None;
  }

  // ----- getLastSetup -----

  type Frozen = Setups.ImageFrozen<Images.ImageModel, Images.Version>

  /** An image setup as a value: its name, its entries, its owner and its UUID. */
  datatype Setup = Setup(name: string, images: seq<Frozen>, username: string, uuid: string)

  const ZERO_SETUP: Setup := Setup("", [], "", "")

  /**
   * last_setup.json on the machine partition: absent, holding an encoded
   * setup, or holding something that does not decode as one (an empty file
   * among them).
   */
  datatype SetupFile = NoFile | Encoded(setup: Setup) | Unreadable

  /** Which of the file operations fail: stat (other than "does not exist"), open, remove, create. */
  datatype FileFaults = FileFaults(statFails: bool, openFails: bool, removeFails: bool, createFails: bool)

  /**
   * getLastSetup: when the file exists it is decoded (a decode error, also
   * after a failed open, leaves the zero setup) and then removed; otherwise
   * it is created empty and the zero setup returned. Every error is only
   * logged. The result is the setup and the file afterwards.
   */
  function LastSetup(file: SetupFile, faults: FileFaults): (r: (Setup, SetupFile))
    ensures !file.NoFile? && !faults.statFails ==>
      r.0 == (if file.Encoded? && !faults.openFails then file.setup else ZERO_SETUP) &&
      r.1 == (if faults.removeFails then file else NoFile)
    ensures file.NoFile? || faults.statFails ==>
      r.0 == ZERO_SETUP && r.1 == (if faults.createFails then file else Unreadable)
  {
    var present := !file.NoFile? && !faults.statFails;
    if present then
      var setup := if !faults.openFails && file.Encoded? then file.setup else ZERO_SETUP;
      (setup, if faults.removeFails then file else NoFile)
    else
      (ZERO_SETUP, if faults.createFails then file else Unreadable)
  }

  /** teardownMachine's store of the setup into last_setup.json; a failed open leaves the file as it was. */
  function StoredSetup(file: SetupFile, setup: Setup, openFails: bool): (r: SetupFile)
    ensures !openFails ==> r == Encoded(setup)
    ensures openFails ==> r == file
  {
    if openFails then file else Encoded(setup)
  }

  /**
   * The setup a run stores is the one the next run reads, and reading it
   * consumes it: a third look finds no file and creates an empty one.
   */
  lemma StoredSetupReadOnce(file: SetupFile, setup: Setup, f: FileFaults)
    requires !f.statFails && !f.openFails && !f.removeFails && !f.createFails
    ensures LastSetup(StoredSetup(file, setup, false), f) == (setup, NoFile)
    ensures LastSetup(LastSetup(StoredSetup(file, setup, false), f).1, f) == (ZERO_SETUP, Unreadable)
  {
  }

  /** A setup that cannot be decoded, or a file that could not be opened, gives the zero setup, whose UUID is empty. */
  lemma UnreadableGivesZero(file: SetupFile, f: FileFaults)
    requires !file.Encoded? || f.openFails || f.statFails
    ensures LastSetup(file, f).0 == ZERO_SETUP && LastSetup(file, f).0.uuid == ""
  {
  }

  // ----- main -----

  /** The configuration flags main reads. */
  datatype Config = Config(uploadDisk: bool, setNextBoot: bool, rebootAfterFinish: bool)

  /** The steps main takes, and the fatal log line that ends the process. */
  datatype Action =
    | QueryMacAddr
    | InitializeMachine
    | ReadInDisks
    | BootInform
    | WriteOutDisks
    | TeardownMachine
    | SetBootNext
    | Reboot
    | Fatal(msg: string)

  /**
   * What each step that can fail returns, and which steps panic instead of
   * returning: getPartitions on a nil partition table inside
   * initializeMachine, and getPartition's index into an empty partition
   * list inside ReadInDisks and WriteOutDisks. A panic ends the process
   * with no log.Fatal and no later step.
   */
  datatype Outcomes = Outcomes(
    mac: Option<string>,
    initPanics: bool,
    readIn: Option<string>,
    readInPanics: bool,
    bootInform: Option<string>,
    writeOut: Option<string>,
    writeOutPanics: bool,
    efibootmgr: Option<string>,
    reboot: Option<string>)

  /**
   * The error a step ends the process with, through log.Fatal: the step's
   * own error, and for reading in the disks that error after "Failed to
   * read the disks: ". initializeMachine and teardownMachine only log.
   */
  function StepError(a: Action, out: Outcomes): Option<string>
  {
    match a
    case QueryMacAddr => out.mac
    case ReadInDisks => if out.readIn.Some? then Some("Failed to read the disks: " + out.readIn.value) else None
    case BootInform => out.bootInform
    case WriteOutDisks => out.writeOut
    case SetBootNext => out.efibootmgr
    case Reboot => out.reboot
    case _ => None
  }

  /** Whether a step panics; a step that panics returns no error. */
  predicate Panics(a: Action, out: Outcomes)
  {
    match a
    case InitializeMachine => out.initPanics
    case ReadInDisks => out.readInPanics
    case WriteOutDisks => out.writeOutPanics
    case _ => false
  }

  /** Whether a step ends the process, by a panic or by a fatal error. */
  predicate Stops(a: Action, out: Outcomes)
  {
    Panics(a, out) || StepError(a, out).Some?
  }

  /**
   * Taking `steps` in order until one panics or fails: the steps taken, the
   * stopping one last, its fatal message, and whether it panicked.
   */
  function Run(steps: seq<Action>, out: Outcomes): (seq<Action>, Option<string>, bool)
  {
    if steps == [] then ([], None, false)
    else if Panics(steps[0], out) then ([steps[0]], None, true)
    else if StepError(steps[0], out).Some? then ([steps[0]], StepError(steps[0], out), false)
    else
      var (done, fatal, panicked) := Run(steps[1..], out);
      ([steps[0]] + done, fatal, panicked)
  }

  /**
   * A run ends without a fatal and without a panic exactly when no step
   * stops it, and then takes every step; otherwise it took a prefix of the
   * steps whose last one is the first that stops, and it panicked exactly
   * when that step panics, with no fatal, or else its fatal is that step's
   * error.
   */
  lemma {:induction false} RunFacts(steps: seq<Action>, out: Outcomes)
    ensures var (done, fatal, panicked) := Run(steps, out);
      done <= steps &&
      (fatal.None? && !panicked <==> forall i :: 0 <= i < |steps| ==> !Stops(steps[i], out)) &&
      (fatal.None? && !panicked ==> done == steps) &&
      (fatal.Some? || panicked ==>
        |done| > 0 && Stops(done[|done| - 1], out) &&
        (panicked <==> Panics(done[|done| - 1], out)) &&
        (panicked ==> fatal.None?) &&
        (fatal.Some? ==> fatal == StepError(done[|done| - 1], out)) &&
        forall i :: 0 <= i < |done| - 1 ==> !Stops(done[i], out))
  {
    if steps != [] && !Stops(steps[0], out) {
      RunFacts(steps[1..], out);
      var (done, fatal, panicked) := Run(steps[1..], out);
      assert Run(steps, out) == ([steps[0]] + done, fatal, panicked);
      assert steps == [steps[0]] + steps[1..];
      forall i | 0 <= i < |steps|
        ensures i > 0 ==> steps[i] == steps[1..][i - 1]
      {
      }
    }
  }

  /** A run of one step and then more: the rest runs only when the step neither panics nor fails. */
  lemma RunCons(x: Action, rest: seq<Action>, out: Outcomes)
    ensures Run([x] + rest, out) ==
      if Panics(x, out) then ([x], None, true)
      else if StepError(x, out).Some? then ([x], StepError(x, out), false)
      else ([x] + Run(rest, out).0, Run(rest, out).1, Run(rest, out).2)
  {
    assert ([x] + rest)[1..] == rest;
  }

  /** Running two runs of steps one after the other: the second runs only when the first ends without a fatal or a panic. */
  lemma {:induction false} RunAppend(a: seq<Action>, b: seq<Action>, out: Outcomes)
    ensures Run(a + b, out) ==
      if Run(a, out).1.Some? || Run(a, out).2 then Run(a, out) else (a + Run(b, out).0, Run(b, out).1, Run(b, out).2)
  {
    if a == [] {
      assert a + b == b;
      assert a + Run(b, out).0 == Run(b, out).0;
    } else {
      var rest := a[1..];
      assert a == [a[0]] + rest;
      assert a + b == [a[0]] + (rest + b);
      RunCons(a[0], rest + b, out);
      RunCons(a[0], rest, out);
      RunAppend(rest, b, out);
      if !Stops(a[0], out) && Run(rest, out).1.None? && !Run(rest, out).2 {
        assert [a[0]] + (rest + Run(b, out).0) == a + Run(b, out).0;
      }
    }
  }

  /** The steps up to and including uploading the disks. */
  function Prelude(conf: Config, lastSetup: Setup): seq<Action>
  {
    [QueryMacAddr, InitializeMachine] + (if conf.uploadDisk && lastSetup.uuid != "" then [ReadInDisks] else [])
  }

  /** The steps after storing the setup. */
  function Finale(conf: Config): seq<Action>
  {
    (if conf.setNextBoot then [SetBootNext] else []) + (if conf.rebootAfterFinish then [Reboot] else [])
  }

  /** The steps of a run in which nothing fails. */
  function Planned(conf: Config, lastSetup: Setup): seq<Action>
  {
    Prelude(conf, lastSetup) + [BootInform, WriteOutDisks, TeardownMachine] + Finale(conf)
  }

  /**
   * The plan starts with the MAC address and the machine partition, and
   * uploads only when configured and there is a last setup.
   */
  lemma PlannedPrelude(conf: Config, lastSetup: Setup)
    ensures var p := Planned(conf, lastSetup);
      p[0] == QueryMacAddr && p[1] == InitializeMachine &&
      (ReadInDisks in p <==> conf.uploadDisk && lastSetup.uuid != "")
  {
    var p := Planned(conf, lastSetup);
    var b := |Prelude(conf, lastSetup)|;
    assert p == Prelude(conf, lastSetup) + (p[b..b + 3] + Finale(conf));
    assert ReadInDisks !in p[b..b + 3] + Finale(conf);
  }

  /**
   * The plan always asks for the setup, writes the disks and stores the
   * setup, in that order and after the prelude, and then sets the next boot
   * and reboots only when configured, in that order.
   */
  lemma PlannedMiddle(conf: Config, lastSetup: Setup)
    ensures var p := Planned(conf, lastSetup);
      var b := |Prelude(conf, lastSetup)|;
      |p| == b + 3 + |Finale(conf)| &&
      p[b] == BootInform && p[b + 1] == WriteOutDisks && p[b + 2] == TeardownMachine &&
      (SetBootNext in p <==> conf.setNextBoot) && (Reboot in p <==> conf.rebootAfterFinish) &&
      (conf.setNextBoot && conf.rebootAfterFinish ==> p[|p| - 2] == SetBootNext && p[|p| - 1] == Reboot)
  {
    var p := Planned(conf, lastSetup);
    var b := |Prelude(conf, lastSetup)|;
    assert p[b + 3..] == Finale(conf);
    assert p == (Prelude(conf, lastSetup) + [BootInform, WriteOutDisks, TeardownMachine]) + Finale(conf);
    assert SetBootNext !in Prelude(conf, lastSetup) + [BootInform, WriteOutDisks, TeardownMachine];
    assert Reboot !in Prelude(conf, lastSetup) + [BootInform, WriteOutDisks, TeardownMachine];
  }

  /**
   * main: get the MAC address, initialise the machine (reading the last
   * setup), upload the disks when configured and there is a last setup,
   * ask the control server for the setup, write out the disks, store the
   * setup, and set the next boot and reboot when configured. Each failure
   * is log.Fatal, which ends the process; a panic ends it too, with no
   * fatal. `lastSetup` is what initializeMachine read. The result is the
   * steps taken, the stopping one last, the fatal message, and whether
   * the process panicked.
   */
  method EntrypointMain(conf: Config, lastSetup: Setup, out: Outcomes) returns (done: seq<Action>, fatal: Option<string>, panicked: bool)
    ensures done <= Planned(conf, lastSetup)
    ensures fatal.None? && !panicked ==> done == Planned(conf, lastSetup)
    ensures fatal.Some? ==> !panicked && |done| > 0 && !(done[|done| - 1] in {InitializeMachine, TeardownMachine})
    ensures panicked ==>
      fatal.None? &&
      (done == [QueryMacAddr, InitializeMachine] || done == Prelude(conf, lastSetup) ||
       done == Prelude(conf, lastSetup) + [BootInform, WriteOutDisks])
    ensures panicked ==> |done| > 0 && Panics(done[|done| - 1], out)
    ensures out.mac.Some? ==> done == [QueryMacAddr] && fatal == out.mac && !panicked
    ensures out.mac.None? && out.initPanics ==> done == [QueryMacAddr, InitializeMachine] && fatal.None? && panicked
    ensures fatal.None? && !panicked <==> forall i :: 0 <= i < |Planned(conf, lastSetup)| ==> !Stops(Planned(conf, lastSetup)[i], out)
    ensures fatal.Some? ==> fatal == StepError(done[|done| - 1], out)
    ensures (done, fatal, panicked) == Run(Planned(conf, lastSetup), out)
  {
    ghost var pre := Prelude(conf, lastSetup);
    PlannedSplits(conf, lastSetup);
    PreludeRun(conf, lastSetup, out);
    RunAppend(pre, AfterPrelude(conf), out);
    RunFacts(Planned(conf, lastSetup), out);
    done := [QueryMacAddr];
    if out.mac.Some? {
      return done, out.mac, false;
    }
    done := done + [InitializeMachine];
    assert done == [QueryMacAddr, InitializeMachine];
    if out.initPanics {
      return done, None, true;
    }
    if conf.uploadDisk && lastSetup.uuid != "" {
      done := done + [ReadInDisks];
      assert done == [QueryMacAddr, InitializeMachine, ReadInDisks];
      if out.readInPanics {
        return done, None, true;
      }
      if out.readIn.Some? {
        return done, Some("Failed to read the disks: " + out.readIn.value), false;
      }
    }
    assert done == pre;
    var rest;
    rest, fatal, panicked := RunAfterPrelude(conf, out);
    PrefixThen(pre, rest, AfterPrelude(conf));
    done := done + rest;
  }

  /** The run of the prelude, one step at a time. */
  lemma PreludeRun(conf: Config, lastSetup: Setup, out: Outcomes)
    ensures var upload := conf.uploadDisk && lastSetup.uuid != "";
      Run(Prelude(conf, lastSetup), out) ==
        if out.mac.Some? then ([QueryMacAddr], out.mac, false)
        else if out.initPanics then ([QueryMacAddr, InitializeMachine], None, true)
        else if !upload then ([QueryMacAddr, InitializeMachine], None, false)
        else if out.readInPanics then ([QueryMacAddr, InitializeMachine, ReadInDisks], None, true)
        else ([QueryMacAddr, InitializeMachine, ReadInDisks], StepError(ReadInDisks, out), false)
  {
    var tail: seq<Action> := if conf.uploadDisk && lastSetup.uuid != "" then [ReadInDisks] else [];
    assert Prelude(conf, lastSetup) == [QueryMacAddr] + ([InitializeMachine] + tail);
    RunCons(QueryMacAddr, [InitializeMachine] + tail, out);
    RunCons(InitializeMachine, tail, out);
    RunCons(ReadInDisks, [], out);
    if out.mac.None? && !out.initPanics {
      if tail == [] {
        assert [QueryMacAddr] + ([InitializeMachine] + []) == [QueryMacAddr, InitializeMachine];
      } else {
        assert [ReadInDisks] + [] == [ReadInDisks];
        assert [QueryMacAddr] + ([InitializeMachine] + [ReadInDisks]) == [QueryMacAddr, InitializeMachine, ReadInDisks];
      }
    } else if out.mac.None? {
      assert [QueryMacAddr] + [InitializeMachine] == [QueryMacAddr, InitializeMachine];
    }
  }

  /**
   * A run of main that panics has no fatal, and stores no setup, sets no
   * next boot and does not reboot: it stops at initializeMachine, at
   * ReadInDisks or at WriteOutDisks.
   */
  lemma PanicEndsMain(conf: Config, lastSetup: Setup, out: Outcomes)
    ensures var (done, fatal, panicked) := Run(Planned(conf, lastSetup), out);
      panicked ==>
        fatal.None? && done[|done| - 1] in {InitializeMachine, ReadInDisks, WriteOutDisks} &&
        TeardownMachine !in done && SetBootNext !in done && Reboot !in done
  {
    var pre := Prelude(conf, lastSetup);
    PlannedSplits(conf, lastSetup);
    PreludeRun(conf, lastSetup, out);
    AfterPreludeRun(conf, out);
    FinaleNeverPanics(conf, out);
    RunAppend(pre, AfterPrelude(conf), out);
    if Run(pre, out).1.None? && !Run(pre, out).2 && out.bootInform.None? && out.writeOutPanics {
      var done := pre + [BootInform, WriteOutDisks];
      assert Run(Planned(conf, lastSetup), out) == (done, None, true);
      assert done[|done| - 1] == WriteOutDisks;
      assert TeardownMachine !in pre && SetBootNext !in pre && Reboot !in pre;
    }
  }

  /** The steps from asking for the setup on. */
  function AfterPrelude(conf: Config): seq<Action>
  {
    [BootInform, WriteOutDisks, TeardownMachine] + Finale(conf)
  }

  lemma PrefixThen(a: seq<Action>, b: seq<Action>, c: seq<Action>)
    requires b <= c
    ensures a + b <= a + c
    ensures |b| > 0 ==> (a + b)[|a + b| - 1] == b[|b| - 1]
  {
    assert (a + c)[..|a + b|] == a + b;
  }

  lemma PlannedSplits(conf: Config, lastSetup: Setup)
    ensures Planned(conf, lastSetup) == Prelude(conf, lastSetup) + AfterPrelude(conf)
  {
    assert Planned(conf, lastSetup) == Prelude(conf, lastSetup) + ([BootInform, WriteOutDisks, TeardownMachine] + Finale(conf));
  }

  /** The rest of main after the prelude: the setup, the disks, storing the setup, and the finale. */
  method RunAfterPrelude(conf: Config, out: Outcomes) returns (done: seq<Action>, fatal: Option<string>, panicked: bool)
    ensures done <= AfterPrelude(conf)
    ensures fatal.None? && !panicked ==> done == AfterPrelude(conf)
    ensures fatal.Some? ==> !panicked && |done| > 0 && !(done[|done| - 1] in {InitializeMachine, TeardownMachine})
    ensures (done, fatal, panicked) == Run(AfterPrelude(conf), out)
    ensures panicked <==> out.bootInform.None? && out.writeOutPanics
    ensures panicked ==> done == [BootInform, WriteOutDisks] && fatal.None?
    ensures fatal.None? && !panicked <==>
      out.bootInform.None? && !out.writeOutPanics && out.writeOut.None? &&
      (conf.setNextBoot ==> out.efibootmgr.None?) && (conf.rebootAfterFinish ==> out.reboot.None?)
    ensures fatal.Some? ==> fatal == StepError(done[|done| - 1], out)
  {
    AfterPreludeRun(conf, out);
    done := [BootInform];
    if out.bootInform.Some? {
      return done, out.bootInform, false;
    }
    done := done + [WriteOutDisks];
    if out.writeOutPanics {
      return done, None, true;
    }
    if out.writeOut.Some? {
      return done, out.writeOut, false;
    }
    done := done + [TeardownMachine];
    assert done == [BootInform, WriteOutDisks, TeardownMachine];
    var fin;
    fin, fatal := RunFinale(conf, out);
    PrefixThen(done, fin, Finale(conf));
    done := done + fin;
    panicked := false;
  }

  /** The run of the steps after the prelude, one step at a time up to the finale. */
  lemma AfterPreludeRun(conf: Config, out: Outcomes)
    ensures Run(AfterPrelude(conf), out) ==
      if out.bootInform.Some? then ([BootInform], out.bootInform, false)
      else if out.writeOutPanics then ([BootInform, WriteOutDisks], None, true)
      else if out.writeOut.Some? then ([BootInform, WriteOutDisks], out.writeOut, false)
      else ([BootInform, WriteOutDisks, TeardownMachine] + Run(Finale(conf), out).0, Run(Finale(conf), out).1, false)
  {
    var finale := Finale(conf);
    assert AfterPrelude(conf) == [BootInform] + ([WriteOutDisks] + ([TeardownMachine] + finale));
    RunCons(BootInform, [WriteOutDisks] + ([TeardownMachine] + finale), out);
    RunCons(WriteOutDisks, [TeardownMachine] + finale, out);
    RunCons(TeardownMachine, finale, out);
    FinaleNeverPanics(conf, out);
    if out.bootInform.None? && !out.writeOutPanics {
      if out.writeOut.Some? {
        assert [BootInform] + [WriteOutDisks] == [BootInform, WriteOutDisks];
      } else {
        assert [BootInform] + ([WriteOutDisks] + ([TeardownMachine] + Run(finale, out).0)) ==
          [BootInform, WriteOutDisks, TeardownMachine] + Run(finale, out).0;
      }
    } else if out.bootInform.None? {
      assert [BootInform] + [WriteOutDisks] == [BootInform, WriteOutDisks];
    }
  }

  /** Setting the next boot and rebooting never panic. */
  lemma FinaleNeverPanics(conf: Config, out: Outcomes)
    ensures !Run(Finale(conf), out).2
  {
    var boot: seq<Action> := if conf.setNextBoot then [SetBootNext] else [];
    var reboot: seq<Action> := if conf.rebootAfterFinish then [Reboot] else [];
    RunAppend(boot, reboot, out);
    RunCons(SetBootNext, [], out);
    RunCons(Reboot, [], out);
  }

  /** The end of main: set the next boot and reboot, each when configured; neither step panics. */
  method RunFinale(conf: Config, out: Outcomes) returns (done: seq<Action>, fatal: Option<string>)
    ensures done <= Finale(conf)
    ensures fatal.None? ==> done == Finale(conf)
    ensures fatal.Some? ==> |done| > 0 && done[|done| - 1] in {SetBootNext, Reboot}
    ensures (done, fatal, false) == Run(Finale(conf), out)
    ensures fatal.None? <==> (conf.setNextBoot ==> out.efibootmgr.None?) && (conf.rebootAfterFinish ==> out.reboot.None?)
    ensures fatal.Some? ==> fatal == StepError(done[|done| - 1], out)
  {
    var boot: seq<Action> := if conf.setNextBoot then [SetBootNext] else [];
    var reboot: seq<Action> := if conf.rebootAfterFinish then [Reboot] else [];
    RunAppend(boot, reboot, out);
    RunCons(SetBootNext, [], out);
    RunCons(Reboot, [], out);
    assert [SetBootNext] + [] == [SetBootNext] && [Reboot] + [] == [Reboot];
    done := [];
    if conf.setNextBoot {
      done := done + [SetBootNext];
      if out.efibootmgr.Some? {
        assert done == boot;
        return done, out.efibootmgr;
      }
    }
    if conf.rebootAfterFinish {
      done := done + [Reboot];
      if out.reboot.Some? {
        assert done == boot + [Reboot] && Run(boot, out) == (boot, None, false);
        return done, out.reboot;
      }
    }
    assert done == boot + reboot;
    return done, None;
  }
}
