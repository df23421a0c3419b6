/**
 * The database package's in-memory store (pkg/database/in_memory.go): a map
 * of machines by MAC address and a map of users by name. Only the key
 * fields are visible here; the rest of a record is the type parameter D.
 * The users map of a new store is nil: reading it finds nothing and writing
 * it panics.
 */
module InMemoryDb {
  import opened Wrappers

  const NOT_FOUND: string := "item could not be found"

  datatype Machine<D> = Machine(macAddress: string, details: D)
  datatype User<D> = User(name: string, details: D)

  /** A write either returns an error value or panics. */
  datatype Outcome = Returned(err: Option<string>) | Panicked

  /** A nil map reads as empty. */
  function UsersOf<D>(users: Option<map<string, User<D>>>): map<string, User<D>>
  {
    if users.Some? then users.value else map[]
  }

  /** The range loop over a map, appending each value: `order` is the order of keys the loop visits. */
  method ListValues<K, V>(m: map<K, V>) returns (res: seq<V>, ghost order: seq<K>)
    ensures |res| == |order| == |m|
    ensures multiset(order) == multiset(m.Keys)
    ensures forall i :: 0 <= i < |order| ==> order[i] in m && res[i] == m[order[i]]
    ensures forall k :: k in m ==> m[k] in res
    ensures forall i :: 0 <= i < |res| ==> exists k :: k in m && m[k] == res[i]
  {
    res, order := [], [];
    var todo := m.Keys;
    ghost var done: set<K> := {};
    while todo != {}
      invariant todo !! done && todo + done == m.Keys
      invariant |order| == |res|
      invariant multiset(order) == multiset(done)
      invariant forall i :: 0 <= i < |order| ==> order[i] in m && res[i] == m[order[i]]
      decreases |todo|
    {
      var k :| k in todo;
      res, order := res + [m[k]], order + [k];
      todo, done := todo - {k}, done + {k};
    }
    assert |order| == |multiset(order)| == |multiset(m.Keys)| == |m.Keys|;
    forall k | k in m
      ensures m[k] in res
    {
      assert k in multiset(order);
      var i :| 0 <= i < |order| && order[i] == k;
      assert res[i] == m[k];
    }
    forall i | 0 <= i < |res|
      ensures exists k :: k in m && m[k] == res[i]
    {
      assert order[i] in m && m[order[i]] == res[i];
    }
  }

  class InMemoryStore<M, U> {
    var machines: map<string, Machine<M>>
    /** None is the nil map. */
    var users: Option<map<string, User<U>>>

    /** NewInMemoryStore: an empty machines map and no users map. */
    constructor NewInMemoryStore()
      ensures machines == map[] && users.None?
    {
      machines := map[];
      users := None;
    }

    /**
     * GetMachines: every stored machine once, in the map's iteration order,
     * which the language leaves unspecified (`order` is the order of keys
     * this run visits).
     */
    method GetMachines() returns (res: seq<Machine<M>>, err: Option<string>, ghost order: seq<string>)
      ensures err.None? && |res| == |order| == |machines|
      ensures multiset(order) == multiset(machines.Keys)
      ensures forall i :: 0 <= i < |order| ==> order[i] in machines && res[i] == machines[order[i]]
      ensures forall mac :: mac in machines ==> machines[mac] in res
    {
      res, order := ListValues(machines);
      err := None;
    }

    /** GetUserByName: the user stored under the name, or NotFound. */
    method GetUserByName(name: string) returns (u: Option<User<U>>, err: Option<string>)
      ensures name in UsersOf(users) ==> u == Some(UsersOf(users)[name]) && err.None?
      ensures name !in UsersOf(users) ==> u.None? && err == Some(NOT_FOUND)
    {
      var all := UsersOf(users);
      if name !in all {
        return None, Some(NOT_FOUND);
      }
      return Some(all[name]), None;
    }

    /** UpdateUser: the user is stored under its Name; on the nil map of a new store this panics. */
    method UpdateUser(user: User<U>) returns (r: Outcome)
      modifies this
      ensures old(users).None? ==> r == Panicked && users == old(users)
      ensures old(users).Some? ==> r == Returned(None) && users == Some(old(users).value[user.name := user])
      ensures machines == old(machines)
    {
      if users.None? {
        return Panicked;
      }
      users := Some(users.value[user.name := user]);
      return Returned(None);
    }

    /**
     * UpdateMachineByMac: a machine without a MAC address is refused; an
     * empty `mac` means the machine's own address; the entry under that key
     * is replaced.
     */
    method UpdateMachineByMac(machine: Machine<M>, mac: string) returns (err: Option<string>)
      modifies this
      ensures machine.macAddress == "" ==> err == Some("machine.MacAddress is empty") && machines == old(machines)
      ensures machine.macAddress != "" ==>
        err.None? && machines == old(machines)[(if mac == "" then machine.macAddress else mac) := machine]
      ensures users == old(users)
    {
      if machine.macAddress == "" {
        return Some("machine.MacAddress is empty");
      }
      var key := mac;
      if key == "" {
        key := machine.macAddress;
      }
      machines := machines[key := machine];
      return None;
    }

    /** GetMachineByMac: the machine stored under `mac`, or NotFound. */
    method GetMachineByMac(mac: string) returns (m: Option<Machine<M>>, err: Option<string>)
      ensures mac in machines ==> m == Some(machines[mac]) && err.None?
      ensures mac !in machines ==> m.None? && err == Some(NOT_FOUND)
    {
      if mac !in machines {
        return None, Some(NOT_FOUND);
      }
      return Some(machines[mac]), None;
    }
  }

  /** Storing a machine and fetching it by the key used gives it back; with no key given, that key is its own MAC. */
  method UpdateThenGet<M, U>(store: InMemoryStore<M, U>, machine: Machine<M>) returns (m: Option<Machine<M>>)
    requires machine.macAddress != ""
    modifies store
    ensures m == Some(machine)
  {
    var err := store.UpdateMachineByMac(machine, "");
    m, err := store.GetMachineByMac(machine.macAddress);
  }
}
