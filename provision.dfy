/**
 * The older provisioning path of the management OS
 * (management_os/entrypoint/provision.go): every disk of a machine setup is
 * downloaded over HTTP, passed through the (only) None decompression and
 * copied onto its device, and the download body is closed; the first
 * failure ends the run. The API client, opening the device and the copy
 * are the environment, given as the outcome each of them has.
 */
module Provision {
  import opened Wrappers
  import opened DiskModel
  import Text
  import Errors
  import C = Compression

  const DISK_BY_UUID: string := "/dev/disk/by-uuid/"
  const UNKNOWN_TRANSFER: string := "unknown transfer strategy"
  const UNKNOWN_DECOMPRESSION: string := "unknown decompression strategy"

  /** WriteDisk's path: a Location that starts with "/" as it is, any other under /dev/disk/by-uuid/. */
  function DevicePath(location: string): (r: string)
    ensures Text.HasPrefix(location, "/") ==> r == location
    ensures !Text.HasPrefix(location, "/") ==> r == DISK_BY_UUID + location
    ensures |r| > 0 && r[0] == '/'
  {
    if Text.HasPrefix(location, "/") then location else DISK_BY_UUID + location
  }

  /** A resolved path resolves to itself. */
  lemma DevicePathIdempotent(location: string)
    ensures DevicePath(DevicePath(location)) == DevicePath(location)
  {
    assert Text.HasPrefix(DevicePath(location), "/");
  }

  /**
   * What the environment does: the response of the API's HTTP download for
   * a disk, and which opening of a device, copy onto a device and closing of
   * a download body fail, with the cause.
   */
  datatype Env = Env(
    fetch: string -> Result<C.Reader, string>,
    openErr: string -> Option<string>,
    copyErr: string -> Option<string>,
    closeErr: string -> Option<string>)

  /** The devices' contents and the disks whose download body has been closed, in order. */
  datatype World = World(devices: map<string, C.Content>, closed: seq<string>)

  /** What a device holds: its contents, or nothing for a device never written. */
  function Contents(devices: map<string, C.Content>, path: string): C.Content
  {
    if path in devices then devices[path] else C.Bytes([])
  }

  /** DownloadDisk: only the HTTP strategy is known. */
  function DownloadDisk(env: Env, uuid: string, image: DiskImage): (r: Result<C.Reader, string>)
    ensures image.transfer == TRANSFER_HTTP ==> r == env.fetch(uuid)
    ensures image.transfer != TRANSFER_HTTP ==> r == Err(UNKNOWN_TRANSFER)
  {
    if image.transfer == TRANSFER_HTTP then env.fetch(uuid) else Err(UNKNOWN_TRANSFER)
  }

  /** Decompress: only None is known, and it passes the stream through. */
  function Decompress(reader: C.Reader, image: DiskImage): (r: Result<C.Reader, string>)
    ensures r.Ok? <==> image.compression == COMPRESSION_NONE
    ensures r.Ok? ==> r.value == reader
    ensures r.Err? ==> r.error == UNKNOWN_DECOMPRESSION
  {
    if image.compression == COMPRESSION_NONE then Ok(reader) else Err(UNKNOWN_DECOMPRESSION)
  }

  /**
   * WriteDisk: open the device read-write without truncation (a failure
   * names the path) and copy the stream onto it from its start, which keeps
   * the old contents beyond what was written; a failed copy leaves the
   * device with whatever part was written, modelled as garbage. Closing the
   * device is only logged.
   */
  function WriteDisk(env: Env, devices: map<string, C.Content>, reader: C.Reader, image: DiskImage)
    : (r: (map<string, C.Content>, Option<string>))
    ensures var path := DevicePath(image.location);
      (env.openErr(path).Some? ==> r == (devices, Errors.Wrap(env.openErr(path), "error opening path " + path))) &&
      (env.openErr(path).None? && env.copyErr(path).None? ==>
        r == (devices[path := C.Overwrite(Contents(devices, path), reader.content)], None)) &&
      (env.openErr(path).None? && env.copyErr(path).Some? ==>
        r == (devices[path := C.Garbled], Errors.Wrap(env.copyErr(path), "error copying stream")))
  {
    var path := DevicePath(image.location);
    if env.openErr(path).Some? then (devices, Errors.Wrap(env.openErr(path), "error opening path " + path))
    else
      var err := Errors.Wrap(env.copyErr(path), "error copying stream");
      (devices[path := if err.None? then C.Overwrite(Contents(devices, path), reader.content) else C.Garbled], err)
  }

  /** The outcome of one iteration of WriteOutDisks: the new world and the error that ends the run, if any. */
  function Step(env: Env, w: World, uuid: string, image: DiskImage): (r: (World, Option<string>))
  {
    var reader := DownloadDisk(env, uuid, image);
    if reader.Err? then (w, Errors.Wrap(Some(reader.error), "error downloading disk"))
    else
      var dec := Decompress(reader.value, image);
      if dec.Err? then (w, Errors.Wrap(Some(dec.error), "error decompressing disk"))
      else
        var (devices, err) := WriteDisk(env, w.devices, dec.value, image);
        if err.Some? then (w.(devices := devices), Errors.Wrap(err, "error writing disk"))
        else
          var closed := w.closed + [uuid];
          var cerr := env.closeErr(uuid);
          (World(devices, closed), Errors.Wrap(cerr, "couldn't close dowload body"))
  }

  /** WriteOutDisks over the disks in the order the map is ranged over. */
  function Provisioned(env: Env, w: World, order: seq<string>, disks: map<string, DiskImage>): (r: (World, Option<string>))
    requires forall k :: 0 <= k < |order| ==> order[k] in disks
    decreases |order|
  {
    if |order| == 0 then (w, None)
    else
      var (w', err) := Step(env, w, order[0], disks[order[0]]);
      if err.Some? then (w', err) else Provisioned(env, w', order[1..], disks)
  }

  /** `order` visits every key of the map once, as ranging over a Go map does, in some order. */
  predicate Enumerates(order: seq<string>, keys: set<string>)
  {
    (forall k :: 0 <= k < |order| ==> order[k] in keys) &&
    (forall key :: key in keys ==> key in order) &&
    (forall i, j :: 0 <= i < j < |order| ==> order[i] != order[j])
  }

  /**
   * WriteOutDisks(api, setup): for each disk, download, decompress, write
   * and close the body, stopping at the first error. Go's map order is
   * unspecified, and is the parameter `order`.
   */
  method WriteOutDisks(env: Env, w0: World, disks: map<string, DiskImage>, order: seq<string>)
    returns (w: World, err: Option<string>)
    requires Enumerates(order, disks.Keys)
    ensures (w, err) == Provisioned(env, w0, order, disks)
  {
    w := w0;
    var i := 0;
    while i < |order|
      invariant 0 <= i <= |order|
      invariant Provisioned(env, w0, order, disks) == Provisioned(env, w, order[i..], disks)
    {
      var disk := order[i];
      var image := disks[disk];
      var reader := DownloadDisk(env, disk, image);
      if reader.Err? {
        return w, Errors.Wrap(Some(reader.error), "error downloading disk");
      }
      var dec := Decompress(reader.value, image);
      if dec.Err? {
        return w, Errors.Wrap(Some(dec.error), "error decompressing disk");
      }
      var (devices, werr) := WriteDisk(env, w.devices, dec.value, image);
      if werr.Some? {
        return w.(devices := devices), Errors.Wrap(werr, "error writing disk");
      }
      w := World(devices, w.closed + [disk]);
      var cerr := env.closeErr(disk);
      if cerr.Some? {
        return w, Errors.Wrap(cerr, "couldn't close dowload body");
      }
      assert order[i..][1..] == order[i + 1..];
      i := i + 1;
    }
    return w, None;
  }

  /**
   * The run stops at the first failing disk: the bodies closed are those of
   * a prefix of `order`, all of it exactly when no error is returned, and
   * an error leaves at most the failing disk's own body closed beyond the
   * disks before it.
   */
  lemma {:induction false} ProvisionedStopsAtFirstError(env: Env, w: World, order: seq<string>, disks: map<string, DiskImage>)
    requires forall k :: 0 <= k < |order| ==> order[k] in disks
    ensures var (w', err) := Provisioned(env, w, order, disks);
      w.closed <= w'.closed && w'.closed[|w.closed|..] <= order &&
      (err.None? ==> w'.closed == w.closed + order)
    decreases |order|
  {
    if |order| > 0 {
      var (w1, err1) := Step(env, w, order[0], disks[order[0]]);
      StepClosesOne(env, w, order[0], disks[order[0]]);
      if err1.None? {
        assert Provisioned(env, w, order, disks) == Provisioned(env, w1, order[1..], disks);
        ProvisionedStopsAtFirstError(env, w1, order[1..], disks);
        var w' := Provisioned(env, w1, order[1..], disks).0;
        ClosedPrefixThen(w.closed, w'.closed, order);
      } else {
        assert Provisioned(env, w, order, disks) == (w1, err1);
        StoppedPrefix(w.closed, w1.closed, order);
      }
    }
  }

  /** Closing nothing or just the first name closes a prefix of the names. */
  lemma StoppedPrefix(before: seq<string>, after: seq<string>, order: seq<string>)
    requires |order| > 0 && (after == before || after == before + [order[0]])
    ensures before <= after && after[|before|..] <= order
  {
    if after != before {
      assert after[|before|..] == [order[0]];
    }
  }

  /** One disk's step closes its body or nothing; it closes it whenever it succeeds. */
  lemma StepClosesOne(env: Env, w: World, name: string, disk: DiskImage)
    ensures var (w1, err) := Step(env, w, name, disk);
      (w1.closed == w.closed || w1.closed == w.closed + [name]) && (err.None? ==> w1.closed == w.closed + [name])
  {
  }

  /** Closing the first name and then a prefix of the others closes a prefix of the names. */
  lemma ClosedPrefixThen(before: seq<string>, after: seq<string>, order: seq<string>)
    requires |order| > 0 && before + [order[0]] <= after && after[|before| + 1..] <= order[1..]
    ensures before <= after && after[|before|..] <= order
    ensures before + [order[0]] + order[1..] == before + order
  {
    assert order == [order[0]] + order[1..];
    assert after[|before|..] == [order[0]] + after[|before| + 1..];
  }

  /** With no failure anywhere, every disk was fetched over HTTP, left uncompressed and written at its resolved path. */
  lemma {:induction false} ProvisionedWritesEveryDisk(env: Env, w: World, order: seq<string>, disks: map<string, DiskImage>)
    requires forall k :: 0 <= k < |order| ==> order[k] in disks
    requires Provisioned(env, w, order, disks).1.None?
    ensures var w' := Provisioned(env, w, order, disks).0;
      forall k :: 0 <= k < |order| ==>
        disks[order[k]].transfer == TRANSFER_HTTP && disks[order[k]].compression == COMPRESSION_NONE &&
        env.fetch(order[k]).Ok? && DevicePath(disks[order[k]].location) in w'.devices
    decreases |order|
  {
    if |order| > 0 {
      var (w1, err1) := Step(env, w, order[0], disks[order[0]]);
      var rest := order[1..];
      WritesKeepPaths(env, w1, rest, disks, DevicePath(disks[order[0]].location));
      ProvisionedWritesEveryDisk(env, w1, rest, disks);
      assert forall k :: 0 < k < |order| ==> rest[k - 1] == order[k];
    }
  }

  /** A path a device is known at stays known for the rest of the run. */
  lemma {:induction false} WritesKeepPaths(env: Env, w: World, order: seq<string>, disks: map<string, DiskImage>, path: string)
    requires forall k :: 0 <= k < |order| ==> order[k] in disks
    requires path in w.devices
    ensures path in Provisioned(env, w, order, disks).0.devices
    decreases |order|
  {
    if |order| > 0 {
      var (w1, err1) := Step(env, w, order[0], disks[order[0]]);
      if err1.None? {
        WritesKeepPaths(env, w1, order[1..], disks, path);
      }
    }
  }
}
