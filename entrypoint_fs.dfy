/**
 * Reading and writing the disk of an image (management_os/entrypoint/fs.go):
 * both ask the partition cache for the image's partition (which claims it),
 * and open that partition's device file; WriteDisk first skips the write
 * when the device already has the image's checksum. The device contents, the
 * CRC32 checksum and the failures of opening and copying are the
 * environment. Only the image's UUID and Checksum are read, and they are the
 * parameters here.
 */
module EntrypointFs {
  import opened Wrappers
  import Errors
  import C = Compression
  import PM = PartitionManager

  /**
   * The environment: the checksum of a device's contents, and which opening
   * of a device file and which copy onto one fails, with the cause.
   */
  datatype DevEnv = DevEnv(
    crc: C.Content -> string,
    openErr: string -> Option<string>,
    copyErr: string -> Option<string>)

  /** What reading a device file gives: its contents, or nothing for a device never written. */
  function Contents(devices: map<string, C.Content>, path: string): C.Content
  {
    if path in devices then devices[path] else C.Bytes([])
  }

  /** checksum.CRC32 of the device: the checksum of its contents; a device that cannot be read gives "". */
  function Checksum(env: DevEnv, devices: map<string, C.Content>, path: string): string
  {
    if path in devices then env.crc(devices[path]) else ""
  }

  /** The device file of the partition the cache picks for `uuid`. */
  function DevicePath(list: seq<PM.Partition>, uuid: string): string
    requires |list| > 0
  {
    list[PM.Chosen(list, uuid).value].deviceFile
  }

  /** ReadDisk once the partition is known: the device opened, or an error naming it. */
  function ReadOutcome(env: DevEnv, devices: map<string, C.Content>, path: string): (r: Result<C.Reader, string>)
    ensures env.openErr(path).None? ==> r == Ok(C.Reader(Contents(devices, path)))
    ensures env.openErr(path).Some? ==> r == Err(Errors.Wrap(env.openErr(path), "error opening path " + path).value)
  {
    var e := Errors.Wrap(env.openErr(path), "error opening path " + path);
    if e.Some? then Err(e.value) else Ok(C.Reader(Contents(devices, path)))
  }

  /**
   * WriteDisk once the partition is known: nothing is written when the image
   * has a checksum equal to the device's; otherwise the device is opened
   * read-write without truncation (a failure names it) and the stream copied
   * onto it from its start, so a shorter image leaves the old tail in place;
   * a failed copy leaves garbage behind.
   */
  function WriteOutcome(env: DevEnv, devices: map<string, C.Content>, path: string, reader: C.Reader, checksum: string)
    : (r: (map<string, C.Content>, Option<string>))
    ensures checksum != "" && checksum == Checksum(env, devices, path) ==> r == (devices, None)
    ensures !(checksum != "" && checksum == Checksum(env, devices, path)) ==>
      (env.openErr(path).Some? ==> r == (devices, Errors.Wrap(env.openErr(path), "error opening path " + path))) &&
      (env.openErr(path).None? && env.copyErr(path).None? ==>
        r == (devices[path := C.Overwrite(Contents(devices, path), reader.content)], None)) &&
      (env.openErr(path).None? && env.copyErr(path).Some? ==>
        r == (devices[path := C.Garbled], Errors.Wrap(env.copyErr(path), "Error compressing")))
  {
    if checksum != "" && checksum == Checksum(env, devices, path) then (devices, None)
    else if env.openErr(path).Some? then (devices, Errors.Wrap(env.openErr(path), "error opening path " + path))
    else
      var err := Errors.Wrap(env.copyErr(path), "Error compressing");
      (devices[path := if err.None? then C.Overwrite(Contents(devices, path), reader.content) else C.Garbled], err)
  }

  /**
   * ReadDisk(image): claim the image's partition and open its device file
   * read-write. None is the panic of getPartition on an empty list.
   */
  method ReadDisk(cache: PM.Cache, env: DevEnv, devices: map<string, C.Content>, uuid: string, now: int)
    returns (r: Option<Result<C.Reader, string>>)
    modifies cache
    ensures r.None? <==> |old(cache.partitionList)| == 0
    ensures r.None? ==> cache.partitionList == old(cache.partitionList)
    ensures r.Some? ==>
      r.value == ReadOutcome(env, devices, DevicePath(old(cache.partitionList), uuid)) &&
      cache.partitionList == PM.Claimed(old(cache.partitionList), PM.Chosen(old(cache.partitionList), uuid).value, uuid, now)
    ensures cache.file == old(cache.file)
  {
    var idx := cache.GetPartition(uuid, now);
    if idx.None? {
      return None;
    }
    var path := cache.partitionList[idx.value].deviceFile;
    var e := env.openErr(path);
    if e.Some? {
      return Some(Err(Errors.Wrap(e, "error opening path " + path).value));
    }
    return Some(Ok(C.Reader(Contents(devices, path))));
  }

  /**
   * WriteDisk(reader, image): claim the image's partition, compare the
   * image's checksum with the device's (a checksum error is only logged and
   * gives ""), and if they differ open the device and copy the stream onto
   * it. A failure to close the device is only logged. `panicked` is the
   * panic of getPartition on an empty list, before any device is touched.
   */
  method WriteDisk(cache: PM.Cache, env: DevEnv, devices: map<string, C.Content>, reader: C.Reader,
                   uuid: string, checksum: string, now: int)
    returns (devices': map<string, C.Content>, err: Option<string>, panicked: bool)
    modifies cache
    ensures panicked <==> |old(cache.partitionList)| == 0
    ensures panicked ==> devices' == devices && err.None? && cache.partitionList == old(cache.partitionList)
    ensures !panicked ==>
      (devices', err) == WriteOutcome(env, devices, DevicePath(old(cache.partitionList), uuid), reader, checksum) &&
      cache.partitionList == PM.Claimed(old(cache.partitionList), PM.Chosen(old(cache.partitionList), uuid).value, uuid, now)
    ensures cache.file == old(cache.file)
  {
    var idx := cache.GetPartition(uuid, now);
    if idx.None? {
      return devices, None, true;
    }
    panicked := false;
    var path := cache.partitionList[idx.value].deviceFile;
    var sum := Checksum(env, devices, path);
    if checksum != "" && checksum == sum {
      return devices, None, false;
    }
    var e := env.openErr(path);
    if e.Some? {
      return devices, Errors.Wrap(e, "error opening path " + path), false;
    }
    err := Errors.Wrap(env.copyErr(path), "Error compressing");
    if err.None? {
      devices' := devices[path := C.Overwrite(Contents(devices, path), reader.content)];
    } else {
      devices' := devices[path := C.Garbled];
    }
  }

  /**
   * Writing an image's stream and later reading that image back reads what
   * was written over the old contents, when the write copied: the claim makes
   * the second lookup a cache hit on the same partition, and so on the same
   * device. A device that held nothing reads back exactly the stream; over
   * bytes, the read starts with the written bytes and goes on with the old
   * bytes beyond them.
   */
  lemma WriteThenRead(env: DevEnv, list: seq<PM.Partition>, devices: map<string, C.Content>, reader: C.Reader,
                      uuid: string, checksum: string, t1: int, t2: int)
    requires |list| > 0
    requires var path := DevicePath(list, uuid);
      !(checksum != "" && checksum == Checksum(env, devices, path)) && WriteOutcome(env, devices, path, reader, checksum).1.None?
    requires env.openErr(DevicePath(list, uuid)).None?
    ensures var written := WriteOutcome(env, devices, DevicePath(list, uuid), reader, checksum).0;
      var list' := PM.Claimed(list, PM.Chosen(list, uuid).value, uuid, t1);
      var before := Contents(devices, DevicePath(list, uuid));
      var back := ReadOutcome(env, written, DevicePath(list', uuid));
      DevicePath(list', uuid) == DevicePath(list, uuid) &&
      back == Ok(C.Reader(C.Overwrite(before, reader.content))) &&
      (before == C.Bytes([]) ==> back == Ok(reader)) &&
      (before.Bytes? && reader.content.Bytes? ==>
        back.value.content.Bytes? && reader.content.data <= back.value.content.data &&
        back.value.content.data[|reader.content.data|..] ==
          (if |reader.content.data| < |before.data| then before.data[|reader.content.data|..] else []))
  {
    PM.ClaimedIsFound(list, uuid, t1);
  }

  /** A device that already carries the image's checksum is left as it is, and the write succeeds. */
  lemma ChecksumSkips(env: DevEnv, devices: map<string, C.Content>, path: string, reader: C.Reader)
    requires path in devices && env.crc(devices[path]) != ""
    ensures WriteOutcome(env, devices, path, reader, env.crc(devices[path])) == (devices, None)
  {
  }
}
