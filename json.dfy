/**
 * A parsed JSON document as the cJSON library presents it to the init shim.
 * Only the accessors the shim uses are modelled: member lookup by exact key,
 * the children of an item (array elements or object member values), and the
 * `valueint` field (numbers saturated to the C `int` range, 1 for `true`,
 * 0 for every other item).
 */
module Json {
  import opened Wrappers

  const INT_MAX: int := 0x7FFF_FFFF
  const INT_MIN: int := -0x8000_0000

  datatype Json =
    | JNull
    | JBool(b: bool)
    | JNumber(n: int)
    | JString(s: string)
    | JArray(items: seq<Json>)
    | JObject(members: seq<Member>)

  datatype Member = Member(key: string, value: Json)

  /** The `int` a C cast of the number gives, saturated at the `int` bounds. */
  function ClampInt(n: int): (r: int)
    ensures INT_MIN <= r <= INT_MAX
    ensures INT_MIN <= n <= INT_MAX ==> r == n
  {
    if n > INT_MAX then INT_MAX else if n < INT_MIN then INT_MIN else n
  }

  function ValueInt(j: Json): (r: int)
    ensures INT_MIN <= r <= INT_MAX
  {
    match j
    case JNumber(n) => ClampInt(n)
    case JBool(b) => if b then 1 else 0
    case _ => 0
  }

  function Lookup(ms: seq<Member>, key: string): Option<Json>
  {
    if ms == [] then None
    else if ms[0].key == key then Some(ms[0].value)
    else Lookup(ms[1..], key)
  }

  /** cJSON_GetObjectItemCaseSensitive: the first member with exactly this key; NULL for a NULL item or a non-object. */
  function GetItem(j: Option<Json>, key: string): Option<Json>
  {
    if j.Some? && j.value.JObject? then Lookup(j.value.members, key) else None
  }

  function MemberValues(ms: seq<Member>): (r: seq<Json>)
    ensures |r| == |ms|
    ensures forall i :: 0 <= i < |ms| ==> r[i] == ms[i].value
  {
    if ms == [] then [] else [ms[0].value] + MemberValues(ms[1..])
  }

  /** The items cJSON_ArrayForEach visits and cJSON_GetArraySize counts. */
  function Children(j: Option<Json>): seq<Json>
  {
    if j.None? then []
    else match j.value
      case JArray(items) => items
      case JObject(ms) => MemberValues(ms)
      case _ => []
  }

  /** Lookup finds nothing when no member carries the key. */
  lemma {:induction false} LookupAbsent(ms: seq<Member>, key: string)
    requires forall j :: 0 <= j < |ms| ==> ms[j].key != key
    ensures Lookup(ms, key) == None
    decreases |ms|
  {
    if ms != [] {
      LookupAbsent(ms[1..], key);
    }
  }

  /** Lookup finds the first member carrying the key. */
  lemma {:induction false} LookupFirst(ms: seq<Member>, key: string, i: nat)
    requires i < |ms| && ms[i].key == key
    requires forall j :: 0 <= j < i ==> ms[j].key != key
    ensures Lookup(ms, key) == Some(ms[i].value)
    decreases i
  {
    if i > 0 {
      LookupFirst(ms[1..], key, i - 1);
    }
  }
}
