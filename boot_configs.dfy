/**
 * The three boot-configuration endpoints pixiecore asks which kernel to boot
 * (control_server/api/boot.go, control_server/httpserver/bootconfigroute.go
 * and control_server/httpserver/bootconfig.go). Each picks a configuration
 * from the machine's architecture and answers with it. Splitting the remote
 * address and encoding the answer are reduced to whether they fail; the
 * looked-up machine is the store's answer.
 */
module BootConfigs {
  import opened Wrappers
  import opened Http
  import Text
  import Machines

  datatype BootConfig = BootConfig(kernel: string, initramfs: seq<string>, message: string, cmdline: string)

  const KERNEL_URL: string := "http://localhost:4848/static/vmlinuz"
  const INITRAMFS_URL: string := "http://localhost:4848/static/initramfs"
  const X86_MESSAGE: string := "Booting into X86 management kernel."

  /** The zero bootConfigResponse. */
  const EMPTY_CONFIG: BootConfig := BootConfig("", [], "", "")

  /** The x86 management kernel with a given command line. */
  function X86Config(cmdline: string): BootConfig
  {
    BootConfig(KERNEL_URL, [INITRAMFS_URL], X86_MESSAGE, cmdline)
  }

  type Writes = seq<Write<BootConfig>>

  /** What a handler does: writes a response, or panics. */
  datatype Served = Served(writes: Writes) | Panicked

  /** The URI variable "mac", "" when absent. */
  function MacVar(vars: map<string, string>): string
  {
    if "mac" in vars then vars["mac"] else ""
  }

  // ----- control_server/api/boot.go -----

  /**
   * getBootConfig: the architecture is lower-cased first, so x86_64 in any
   * case gets the management kernel with "root=sr0"; the Arm64 label, which
   * has an upper-case letter, can never match, and every other architecture
   * gets the zero configuration. A configuration is always returned.
   */
  function ApiBootConfig(arch: string): (c: BootConfig)
    ensures Text.ToLower(arch) == Machines.X86_64 ==> c == X86Config("root=sr0")
    ensures Text.ToLower(arch) != Machines.X86_64 ==> c == EMPTY_CONFIG
  {
    var lowered := Text.ToLower(arch);
    if lowered == Machines.X86_64 then X86Config("root=sr0")
    else if lowered == Machines.ARM64 then EMPTY_CONFIG
    else EMPTY_CONFIG
  }

  /** The Arm64 case is dead: no architecture lower-cases to "Arm64". */
  lemma ApiArmCaseUnreachable(arch: string)
    ensures Text.ToLower(arch) != Machines.ARM64
    ensures ApiBootConfig(Machines.ARM64) == EMPTY_CONFIG
  {
    Text.ToLowerNeverHasUpper(arch, Machines.ARM64);
    assert !Text.HasNoUpper(Machines.ARM64) by {
      assert 'A' <= Machines.ARM64[0] <= 'Z';
    }
  }

  /**
   * ServeBootConfigurations (api): 500 when the remote address does not
   * split, 404 for a machine the store does not have, else the configuration
   * (500 after it if encoding fails). The handler's nil check never fires.
   */
  function ApiServe(splitFails: bool, machineArch: Option<string>, encodeFails: bool): (r: Writes)
    ensures splitFails ==> r == [WriteHeader(STATUS_INTERNAL_SERVER_ERROR)]
    ensures !splitFails && machineArch.None? ==>
      r == [HttpError(STATUS_NOT_FOUND, "Cannot serve the boot configuration")]
    ensures !splitFails && machineArch.Some? ==>
      r != [] && r[0] == Body(ApiBootConfig(machineArch.value)) && Status(r) == STATUS_OK &&
      (|r| == 1 <==> !encodeFails)
  {
    if splitFails then [WriteHeader(STATUS_INTERNAL_SERVER_ERROR)]
    else if machineArch.None? then [HttpError(STATUS_NOT_FOUND, "Cannot serve the boot configuration")]
    else
      var resp := Some(ApiBootConfig(machineArch.value));
      if resp.None? then [HttpError(STATUS_NOT_FOUND, "Cannot serve the boot configuration")]
      else if encodeFails then [Body(resp.value), HttpError(STATUS_INTERNAL_SERVER_ERROR, "Cannot serve the boot configuration")]
      else [Body(resp.value)]
  }

  // ----- control_server/httpserver/bootconfigroute.go -----

  /** getBootConfig (routes): exactly "x86_64" gets the management kernel with "root=sr0"; anything else nil. */
  function RouteBootConfig(arch: string): (c: Option<BootConfig>)
    ensures c.Some? <==> arch == Machines.X86_64
    ensures c.Some? ==> c.value == X86Config("root=sr0")
  {
    if arch == Machines.X86_64 then Some(X86Config("root=sr0")) else None
  }

  /**
   * ServeBootConfigurations (routes): 500 when the remote address does not
   * split, 404 when the machine store has no such MAC or the architecture
   * gets no configuration, else the configuration (500 after it if encoding
   * fails).
   */
  function RouteServe(req: Request, splitFails: bool, machines: map<string, Machines.Machine>, encodeFails: bool): (r: Writes)
    ensures splitFails ==> r == [WriteHeader(STATUS_INTERNAL_SERVER_ERROR)]
    ensures !splitFails ==>
      (Status(r) == STATUS_OK <==>
        MacVar(req.vars) in machines && machines[MacVar(req.vars)].architecture == Machines.X86_64)
    ensures !splitFails && Status(r) != STATUS_OK ==> r == [WriteHeader(STATUS_NOT_FOUND)]
    ensures Status(r) == STATUS_OK ==> r != [] && r[0] == Body(X86Config("root=sr0")) && (|r| == 1 <==> !encodeFails)
  {
    if splitFails then [WriteHeader(STATUS_INTERNAL_SERVER_ERROR)]
    else
      var (m, err) := Machines.Lookup(machines, MacVar(req.vars));
      if err.Some? then [WriteHeader(STATUS_NOT_FOUND)]
      else match RouteBootConfig(m.architecture)
        case None => [WriteHeader(STATUS_NOT_FOUND)]
        case Some(c) => if encodeFails then [Body(c), WriteHeader(STATUS_INTERNAL_SERVER_ERROR)] else [Body(c)]
  }

  // ----- control_server/httpserver/bootconfig.go -----

  /** getBootConfig (handler): exactly "x86_64" gets the management kernel with an empty command line; anything else nil. */
  function HandlerBootConfig(arch: string): (c: Option<BootConfig>)
    ensures c.Some? <==> arch == Machines.X86_64
    ensures c.Some? ==> c.value == X86Config("")
  {
    if arch == Machines.X86_64 then Some(X86Config("")) else None
  }

  /**
   * BootConfigHandler.ServeHTTP: 500 when the remote address does not split
   * and also when the machine is unknown, 404 when there is no
   * configuration, and a panic when encoding fails.
   */
  function HandlerServe(req: Request, splitFails: bool, machines: map<string, Machines.Machine>, encodeFails: bool): (r: Served)
    ensures r.Panicked? <==>
      !splitFails && MacVar(req.vars) in machines && machines[MacVar(req.vars)].architecture == Machines.X86_64 && encodeFails
    ensures splitFails || MacVar(req.vars) !in machines ==> r == Served([WriteHeader(STATUS_INTERNAL_SERVER_ERROR)])
    ensures !splitFails && MacVar(req.vars) in machines && machines[MacVar(req.vars)].architecture != Machines.X86_64 ==>
      r == Served([WriteHeader(STATUS_NOT_FOUND)])
    ensures !splitFails && MacVar(req.vars) in machines && machines[MacVar(req.vars)].architecture == Machines.X86_64 && !encodeFails ==>
      r == Served([Body(X86Config(""))])
    ensures r.Served? && Status(r.writes) == STATUS_OK ==> r.writes == [Body(X86Config(""))]
  {
    if splitFails then Served([WriteHeader(STATUS_INTERNAL_SERVER_ERROR)])
    else
      var (m, err) := Machines.Lookup(machines, MacVar(req.vars));
      if err.Some? then Served([WriteHeader(STATUS_INTERNAL_SERVER_ERROR)])
      else match HandlerBootConfig(m.architecture)
        case None => Served([WriteHeader(STATUS_NOT_FOUND)])
        case Some(c) => if encodeFails then Panicked else Served([Body(c)])
  }

  /**
   * The three endpoints disagree: for an "X86_64" machine (upper case) only
   * the api one boots it; for an unknown machine the handler answers 500
   * where the routes answer 404; and the handler's kernel gets no "root=sr0".
   */
  lemma EndpointsDisagree(req: Request, machines: map<string, Machines.Machine>)
    requires MacVar(req.vars) !in machines
    ensures ApiBootConfig("X86_64") == X86Config("root=sr0") && RouteBootConfig("X86_64").None?
    ensures Status(RouteServe(req, false, machines, false)) == STATUS_NOT_FOUND
    ensures HandlerServe(req, false, machines, false) == Served([WriteHeader(STATUS_INTERNAL_SERVER_ERROR)])
    ensures HandlerBootConfig(Machines.X86_64).value.cmdline != RouteBootConfig(Machines.X86_64).value.cmdline
  {
    assert Text.ToLower("X86_64") == Machines.X86_64;
  }
}
