/**
 * The management OS's partition cache (management_os/entrypoint/partition_manager.go):
 * a list of the disk's usable partitions, each remembering the image last
 * written to it and when it was last used. getPartition picks the partition
 * that already holds an image, or else the least recently used one, and
 * claims it for the image in place. The clock is a parameter (`now`), the
 * disk's partition table an input, and the cache file a value of the
 * machine's file system.
 */
module PartitionManager {
  import opened Wrappers
  import Text

  const U32_MOD: nat := 0x1_0000_0000

  /** The size that marks a partition table entry as unusable. */
  const RESERVED_SIZE: nat := 512

  const DEVICE_PREFIX: string := "/dev/sda"

  /** One entry of the disk's partition table, as go-diskfs reports it. */
  datatype PartInfo = PartInfo(start: nat, size: nat)

  /** One cache entry. */
  datatype Partition = Partition(
    partition: PartInfo,
    number: nat,
    associatedImage: string,
    lastUsedTime: int,
    deviceFile: string)

  // ----- generatePartitionList -----

  /** The table entries the cache keeps: neither of size 512 nor starting at sector 0. */
  predicate Usable(p: PartInfo)
  {
    p.size != RESERVED_SIZE && p.start != 0
  }

  /** uint32(i + 1). */
  function Number(i: nat): (r: nat)
    ensures r < U32_MOD
    ensures i + 1 < U32_MOD ==> r == i + 1
  {
    (i + 1) % U32_MOD
  }

  /** The fresh cache entry for table entry `i`. */
  function Entry(p: PartInfo, i: nat, now: int): Partition
  {
    Partition(p, Number(i), "", now, DEVICE_PREFIX + Text.Decimal(Number(i)))
  }

  /** The list generatePartitionList builds from a table, in table order. */
  function Generated(table: seq<PartInfo>, now: int): (r: seq<Partition>)
    ensures |r| <= |table|
    ensures forall k :: 0 <= k < |r| ==>
      Usable(r[k].partition) && r[k].associatedImage == "" && r[k].lastUsedTime == now &&
      r[k].deviceFile == DEVICE_PREFIX + Text.Decimal(r[k].number)
  {
    if |table| == 0 then []
    else
      var i := |table| - 1;
      Generated(table[..i], now) + (if Usable(table[i]) then [Entry(table[i], i, now)] else [])
  }

  /** The generated list of a table one entry longer. */
  lemma GeneratedSnoc(table: seq<PartInfo>, p: PartInfo, now: int)
    ensures Generated(table + [p], now) ==
      Generated(table, now) + (if Usable(p) then [Entry(p, |table|, now)] else [])
  {
    assert (table + [p])[..|table|] == table;
  }

  /** An entry is in the generated list exactly when it is the fresh entry of a usable table index. */
  lemma {:induction false} GeneratedMember(table: seq<PartInfo>, now: int, p: Partition)
    ensures p in Generated(table, now) <==>
      exists i :: 0 <= i < |table| && Usable(table[i]) && p == Entry(table[i], i, now)
  {
    if |table| > 0 {
      var i := |table| - 1;
      var front := table[..i];
      assert table == front + [table[i]];
      GeneratedSnoc(front, table[i], now);
      GeneratedMember(front, now, p);
      assert forall j :: 0 <= j < i ==> front[j] == table[j];
    }
  }

  /** Table index i gets number i+1: the numbers grow along the list, so no device file repeats. */
  lemma {:induction false} GeneratedNumbersIncrease(table: seq<PartInfo>, now: int)
    requires |table| < U32_MOD
    ensures var r := Generated(table, now);
      forall a, b :: 0 <= a < b < |r| ==> r[a].number < r[b].number
    ensures var r := Generated(table, now);
      forall k :: 0 <= k < |r| ==> 1 <= r[k].number <= |table|
  {
    if |table| > 0 {
      var i := |table| - 1;
      var front := table[..i];
      assert table == front + [table[i]];
      GeneratedSnoc(front, table[i], now);
      var prev := Generated(front, now);
      GeneratedNumbersIncrease(front, now);
      var r := Generated(table, now);
      assert forall k :: 0 <= k < |prev| ==> r[k] == prev[k];
      assert |r| > |prev| ==> r[|prev|].number == i + 1;
    }
  }

  /**
   * generatePartitionList: `table` is None when /dev/sda cannot be opened or
   * has no readable partition table; the nil disk or table is then
   * dereferenced, which panics (the result None).
   */
  method GeneratePartitionList(table: Option<seq<PartInfo>>, now: int) returns (r: Option<seq<Partition>>)
    ensures table.None? <==> r.None?
    ensures table.Some? ==> r == Some(Generated(table.value, now))
  {
    if table.None? {
      return None;
    }
    var t := table.value;
    var partitions: seq<Partition> := [];
    var i := 0;
    while i < |t|
      invariant 0 <= i <= |t|
      invariant partitions == Generated(t[..i], now)
    {
      assert t[..i + 1][..i] == t[..i];
      if t[i].size != RESERVED_SIZE && t[i].start != 0 {
        partitions := partitions + [Partition(t[i], Number(i), "", now, DEVICE_PREFIX + Text.Decimal(Number(i)))];
      }
      i := i + 1;
    }
    assert t[..|t|] == t;
    return Some(partitions);
  }

  // ----- getPartition -----

  /** The lowest index of an entry holding `image`, if any. */
  function FirstMatch(list: seq<Partition>, image: string): (r: Option<nat>)
    ensures r.Some? ==> r.value < |list| && list[r.value].associatedImage == image &&
                        forall j :: 0 <= j < r.value ==> list[j].associatedImage != image
    ensures r.None? ==> forall j :: 0 <= j < |list| ==> list[j].associatedImage != image
  {
    if |list| == 0 then None
    else if list[0].associatedImage == image then Some(0)
    else match FirstMatch(list[1..], image)
      case None => None
      case Some(k) => Some(k + 1)
  }

  /** The first index, among the first n, whose LastUsedTime is the least of them. */
  function Oldest(list: seq<Partition>, n: nat): (r: nat)
    requires 0 < n <= |list|
    ensures r < n
    ensures forall j :: 0 <= j < n ==> list[r].lastUsedTime <= list[j].lastUsedTime
    ensures forall j :: 0 <= j < r ==> list[j].lastUsedTime > list[r].lastUsedTime
  {
    if n == 1 then 0
    else
      var c := Oldest(list, n - 1);
      if list[c].lastUsedTime > list[n - 1].lastUsedTime then n - 1 else c
  }

  /**
   * The entry getPartition picks: the first one that already holds the image,
   * otherwise the first of the least recently used ones. None for an empty
   * list, where taking the address of partitionList[0] panics.
   */
  function Chosen(list: seq<Partition>, image: string): (r: Option<nat>)
    ensures r.None? <==> |list| == 0
    ensures r.Some? ==> r.value < |list|
    ensures r.Some? && (exists j :: 0 <= j < |list| && list[j].associatedImage == image) ==>
      list[r.value].associatedImage == image && forall j :: 0 <= j < r.value ==> list[j].associatedImage != image
    ensures r.Some? && (forall j :: 0 <= j < |list| ==> list[j].associatedImage != image) ==>
      (forall j :: 0 <= j < |list| ==> list[r.value].lastUsedTime <= list[j].lastUsedTime) &&
      (forall j :: 0 <= j < r.value ==> list[j].lastUsedTime > list[r.value].lastUsedTime)
  {
    if |list| == 0 then None
    else match FirstMatch(list, image)
      case Some(i) => Some(i)
      case None => Some(Oldest(list, |list|))
  }

  /** The list after entry c is claimed for `image` at time `now`. */
  function Claimed(list: seq<Partition>, c: nat, image: string, now: int): (r: seq<Partition>)
    requires c < |list|
    ensures |r| == |list|
    ensures r[c].associatedImage == image && r[c].lastUsedTime == now
    ensures r[c].partition == list[c].partition && r[c].number == list[c].number && r[c].deviceFile == list[c].deviceFile
    ensures forall j :: 0 <= j < |list| && j != c ==> r[j] == list[j]
  {
    list[c := list[c].(associatedImage := image, lastUsedTime := now)]
  }

  /**
   * Asking again for the image just placed finds the same partition: the
   * claim turns the choice into a cache hit.
   */
  lemma ClaimedIsFound(list: seq<Partition>, image: string, now: int)
    requires |list| > 0
    ensures Chosen(Claimed(list, Chosen(list, image).value, image, now), image) == Chosen(list, image)
  {
    var c := Chosen(list, image).value;
    var l' := Claimed(list, c, image, now);
    assert l'[c].associatedImage == image;
    if exists j :: 0 <= j < |list| && list[j].associatedImage == image {
      assert forall j :: 0 <= j < c ==> l'[j].associatedImage != image;
    } else {
      assert forall j :: 0 <= j < |list| && j != c ==> l'[j].associatedImage != image;
    }
  }

  /** The partition cache: the global partitionList and the cache file on the machine's disk. */
  class Cache {
    var partitionList: seq<Partition>
    var file: CacheFile

    constructor (f: CacheFile)
      ensures partitionList == [] && file == f
    {
      partitionList, file := [], f;
    }

    /**
     * getPartition(image): returns the index of the chosen entry (the address
     * the source returns aliases that element of partitionList), after
     * setting its AssociatedImage and LastUsedTime. A cache hit found in the
     * loop gets its LastUsedTime set there as well, to the same `now`. On an
     * empty list the first line panics: the result is None and nothing
     * changes.
     */
    method GetPartition(image: string, now: int) returns (idx: Option<nat>)
      modifies this
      ensures idx == Chosen(old(partitionList), image)
      ensures idx.None? ==> partitionList == old(partitionList)
      ensures idx.Some? ==> partitionList == Claimed(old(partitionList), idx.value, image, now)
      ensures file == old(file)
    {
      if |partitionList| == 0 {
        // &partitionList[0] is out of range
        return None;
      }
      ghost var l0 := partitionList;
      var chosen := 0;
      var i := 0;
      while i < |partitionList|
        invariant 0 <= i <= |partitionList| && partitionList == l0
        invariant forall j :: 0 <= j < i ==> l0[j].associatedImage != image
        invariant i == 0 ==> chosen == 0
        invariant i > 0 ==> chosen == Oldest(l0, i)
      {
        if partitionList[i].associatedImage == image {
          assert FirstMatch(l0, image) == Some(i);
          partitionList := partitionList[i := partitionList[i].(lastUsedTime := now)];
          chosen := i;
          break;
        }
        if partitionList[chosen].lastUsedTime > partitionList[i].lastUsedTime {
          chosen := i;
        }
        i := i + 1;
      }
      assert i == |l0| ==> FirstMatch(l0, image).None?;
      partitionList := partitionList[chosen := partitionList[chosen].(lastUsedTime := now, associatedImage := image)];
      idx := Some(chosen);
    }

    /**
     * getPartitions(machine): when the cache file does not exist (or its
     * existence cannot be found out) the list is generated and the file
     * created and written; otherwise the list is decoded from the file.
     * Every error is logged and passed over. `statFails`, `createFails` and
     * `openFails` say which of the file operations fail.
     */
    method GetPartitions(table: Option<seq<PartInfo>>, now: int, statFails: bool, createFails: bool, openFails: bool)
      returns (panicked: bool)
      modifies this
      ensures Exists(old(file), statFails) ==>
        !panicked && file == old(file) &&
        partitionList == (if !openFails && old(file).Holds? then old(file).list else old(partitionList))
      ensures !Exists(old(file), statFails) ==>
        (panicked <==> table.None?) &&
        (table.None? ==> partitionList == old(partitionList) && file == (if createFails then old(file) else Corrupt)) &&
        (table.Some? ==> partitionList == Generated(table.value, now) &&
                         file == (if createFails then old(file) else Holds(partitionList)))
    {
      var v := Exists(file, statFails);
      if !v {
        if !createFails {
          file := Corrupt;
        }
        var generated := GeneratePartitionList(table, now);
        if generated.None? {
          return true;
        }
        partitionList := generated.value;
        WritePartitionJson(createFails);
      } else {
        if !openFails && file.Holds? {
          partitionList := file.list;
        }
      }
      return false;
    }

    /** writePartitionJSON: the list is encoded into the file; with no file the encoder's error is only printed. */
    method WritePartitionJson(noFile: bool)
      modifies this
      ensures partitionList == old(partitionList)
      ensures file == (if noFile then old(file) else Holds(partitionList))
    {
      if !noFile {
        file := Holds(partitionList);
      }
    }
  }

  /**
   * The cache file: absent, holding an encoded list, or holding something that
   * does not decode as one (an empty file among them).
   */
  datatype CacheFile = Absent | Holds(list: seq<Partition>) | Corrupt

  /** machine.Exists: a failing stat other than "does not exist" reports false. */
  predicate Exists(f: CacheFile, statFails: bool)
  {
    !f.Absent? && !statFails
  }
}
