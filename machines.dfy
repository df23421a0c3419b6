/**
 * The control server's machine registry (control_server/machines): the
 * in-memory machine store, and the DHCP watcher that records each machine's
 * architecture from the client-architecture option (option 93, section 2.1
 * of RFC 4578). The store's mutex is not modelled; the DHCP request is
 * reduced to its client hardware address, already printed as a string, and
 * the option's bytes.
 */
module Machines {
  import opened Wrappers

  /** SystemArchitecture's values. */
  const ARM64: string := "Arm64"
  const X86_64: string := "x86_64"
  const UNKNOWN: string := "unknown"

  /** The fields of a Machine the control server sets; the IP address and the Info field keep their zero values. */
  datatype Machine = Machine(macAddress: string, architecture: string)

  const ZERO_MACHINE: Machine := Machine("", "")

  /** InMemoryMachineStore.GetMachine on a map: the machine, or the zero Machine (not even its MAC filled in) and an error. */
  function Lookup(machines: map<string, Machine>, mac: string): (r: (Machine, Option<string>))
    ensures mac in machines ==> r == (machines[mac], None)
    ensures mac !in machines ==> r.0 == ZERO_MACHINE && r.1 == Some("machine with mac address " + mac + " not found")
  {
    if mac in machines then (machines[mac], None)
    else (ZERO_MACHINE, Some("machine with mac address " + mac + " not found"))
  }

  class InMemoryMachineStore {
    var machines: map<string, Machine>

    /** InMemoryStore: a store with no machines. */
    constructor InMemoryStore()
      ensures machines == map[]
    {
      machines := map[];
    }

    method GetMachine(mac: string) returns (m: Machine, err: Option<string>)
      ensures (m, err) == Lookup(machines, mac)
    {
      if mac !in machines {
        return ZERO_MACHINE, Some("machine with mac address " + mac + " not found");
      }
      return machines[mac], None;
    }

    /** UpdateMachine: the machine is stored under its own MAC address, replacing any earlier entry; the result is nil. */
    method UpdateMachine(machine: Machine) returns (err: Option<string>)
      modifies this
      ensures machines == old(machines)[machine.macAddress := machine]
      ensures err.None?
    {
      machines := machines[machine.macAddress := machine];
      return None;
    }
  }

  /** After storing a machine, looking up its MAC finds it, and every other MAC finds what it found before. */
  lemma LookupAfterUpdate(machines: map<string, Machine>, machine: Machine, mac: string)
    ensures Lookup(machines[machine.macAddress := machine], mac) ==
      if mac == machine.macAddress then (machine, None) else Lookup(machines, mac)
  {
  }

  // ----- the DHCP watcher -----

  /** The architecture id: `int(arch[0]) << 8 | int(arch[1])`, the option's two bytes in network order. */
  function ArchId(arch: seq<bv8>): (id: nat)
    requires |arch| == 2
    ensures id < 0x1_0000 && id / 256 == arch[0] as nat && id % 256 == arch[1] as nat
  {
    ((arch[0] as bv16 << 8) | arch[1] as bv16) as nat
  }

  /** The second x86 case label is written `6 | 7`, a bitwise or, which is the single value 7. */
  const UEFI_CASE: nat := (6 as bv16 | 7 as bv16) as nat

  /** The switch over the architecture id: 0 and 7 are x86_64, 11 is Arm64, and everything else (10 and 6 included) is unknown. */
  function Classify(id: nat): (a: string)
    ensures a == X86_64 <==> id == 0 || id == 7
    ensures a == ARM64 <==> id == 11
    ensures a == UNKNOWN <==> !(id in {0, 7, 11})
  {
    if id == 0 then X86_64
    else if id == UEFI_CASE then X86_64
    else if id == 10 then UNKNOWN
    else if id == 11 then ARM64
    else UNKNOWN
  }

  /** x86 with UEFI (id 6) is not recognised. */
  lemma UefiSixIsUnknown()
    ensures Classify(6) == UNKNOWN && Classify(ArchId([0, 6])) == UNKNOWN
  {
    assert UEFI_CASE == 7;
    assert ArchId([0, 6]) == 6;
  }

  /** The switch as its comments describe it: x86 with UEFI is both 6 and 7 (a `case 6, 7` label). */
  function ClassifyIntended(id: nat): (a: string)
    ensures a == X86_64 <==> id in {0, 6, 7}
    ensures a == ARM64 <==> id == 11
    ensures a == UNKNOWN <==> !(id in {0, 6, 7, 11})
  {
    if id == 0 || id == 6 || id == 7 then X86_64
    else if id == 11 then ARM64
    else UNKNOWN
  }

  /** The written switch and the intended one disagree exactly on id 6. */
  lemma IntendedDiffersOnlyAtSix(id: nat)
    ensures ClassifyIntended(id) != Classify(id) <==> id == 6
  {
  }

  /** dhcp4.Packet{}: the watcher never answers. */
  datatype Packet = EmptyPacket

  /**
   * ServeDHCP: an option that is not two bytes long (absent included)
   * changes nothing; otherwise one UpdateMachine records the client's MAC
   * with the architecture the switch as written gives its id, so 6 is
   * recorded as unknown. The reply is always empty.
   */
  method ServeDhcp(store: InMemoryMachineStore, chaddr: string, arch: seq<bv8>) returns (reply: Packet)
    modifies store
    ensures |arch| != 2 ==> store.machines == old(store.machines)
    ensures |arch| == 2 ==> store.machines == old(store.machines)[chaddr := Machine(chaddr, Classify(ArchId(arch)))]
    ensures reply == EmptyPacket
  {
    if |arch| != 2 {
      return EmptyPacket;
    }
    var id := ArchId(arch);
    var m := Machine(chaddr, Classify(id));
    var err := store.UpdateMachine(m);
    return EmptyPacket;
  }

  /**
   * ServeDHCP with the switch as its comments intend: the same update, with
   * 6 recorded as x86_64 too.
   */
  method ServeDhcpIntended(store: InMemoryMachineStore, chaddr: string, arch: seq<bv8>) returns (reply: Packet)
    modifies store
    ensures |arch| != 2 ==> store.machines == old(store.machines)
    ensures |arch| == 2 ==> store.machines == old(store.machines)[chaddr := Machine(chaddr, ClassifyIntended(ArchId(arch)))]
    ensures reply == EmptyPacket
  {
    if |arch| != 2 {
      return EmptyPacket;
    }
    var id := ArchId(arch);
    var m := Machine(chaddr, ClassifyIntended(id));
    var err := store.UpdateMachine(m);
    return EmptyPacket;
  }
}
