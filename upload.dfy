/**
 * Reading in and uploading the disks of the last image setup
 * (management_os/entrypoint/upload.go): each entry flagged for update, in
 * order, is read from its partition, compressed with the image's strategy
 * and uploaded under the image's UUID; the first failure ends the run.
 * Entries not flagged are skipped. The upload call is the environment.
 */
module Upload {
  import opened Wrappers
  import Errors
  import C = Compression
  import PM = PartitionManager
  import Fs = EntrypointFs
  import Images
  import Setups

  type Frozen = Setups.ImageFrozen<Images.ImageModel, Images.Version>

  /** How the control server answers an upload of an image's stream, and the devices' environment. */
  datatype UpEnv = UpEnv(uploadErr: (string, C.Content) -> Option<string>, dev: Fs.DevEnv)

  /** One upload: the UUID it was sent under (as a string) and the stream sent. */
  datatype Upload = Upload(uuid: string, content: C.Content)

  /** UploadDisk(api, reader, image): the image's UUID and the stream go to the API. */
  function UploadDisk(env: UpEnv, reader: C.Reader, image: Images.ImageModel): (r: (Upload, Option<string>))
    ensures r.0 == Upload(image.uuid, reader.content) && r.1 == env.uploadErr(image.uuid, reader.content)
  {
    (Upload(image.uuid, reader.content), env.uploadErr(image.uuid, reader.content))
  }

  /**
   * One entry of ReadInDisks: the new cache list, the uploads made, the
   * error that ends the run, and whether getPartition panicked on an empty
   * list when a flagged entry reached ReadDisk.
   */
  function EntryOutcome(env: UpEnv, list: seq<PM.Partition>, devices: map<string, C.Content>, ups: seq<Upload>,
                        f: Frozen, now: int)
    : (r: (seq<PM.Partition>, seq<Upload>, Option<string>, bool))
    ensures |r.0| == |list|
    ensures r.3 <==> f.update && |list| == 0
    ensures r.3 ==> r.0 == list && r.1 == ups && r.2.None?
    ensures !f.update ==> r == (list, ups, None, false)
    ensures f.update && r.2.None? && !r.3 ==> |r.1| == |ups| + 1
    ensures r.1 == ups || (f.update && |r.1| == |ups| + 1 && r.1[..|ups|] == ups && r.1[|ups|].uuid == f.image.uuid)
  {
    if !f.update then (list, ups, None, false)
    else if |list| == 0 then (list, ups, None, true)
    else
      var list' := PM.Claimed(list, PM.Chosen(list, f.image.uuid).value, f.image.uuid, now);
      var read := Fs.ReadOutcome(env.dev, devices, Fs.DevicePath(list, f.image.uuid));
      if read.Err? then (list', ups, Errors.Wrap(Some(read.error), "read disk"), false)
      else
        var com := C.Compress(read.value, f.image.compression);
        if com.Err? then (list', ups, Errors.Wrap(Some(com.error), "compressing disk"), false)
        else
          var (u, err) := UploadDisk(env, com.value, f.image);
          (list', ups + [u], Errors.Wrap(err, "uploading disk"), false)
  }

  /**
   * ReadInDisks from entry i on; the clock gives the time of entry i's
   * partition claim. A panic ends the run with no error returned.
   */
  function UploadedFrom(env: UpEnv, list: seq<PM.Partition>, devices: map<string, C.Content>, ups: seq<Upload>,
                        images: seq<Frozen>, i: nat, clock: nat -> int)
    : (r: (seq<PM.Partition>, seq<Upload>, Option<string>, bool))
    requires i <= |images|
    ensures |r.0| == |list|
    ensures r.3 ==> r.2.None?
    decreases |images| - i
  {
    if i == |images| then (list, ups, None, false)
    else
      var (list', ups', err, panicked) := EntryOutcome(env, list, devices, ups, images[i], clock(i));
      if err.Some? || panicked then (list', ups', err, panicked)
      else UploadedFrom(env, list', devices, ups', images, i + 1, clock)
  }

  /**
   * ReadInDisks(api, setup): for each entry with Update set, ReadDisk,
   * Compress and UploadDisk, each error returned wrapped; nil at the end.
   */
  method ReadInDisks(cache: PM.Cache, env: UpEnv, devices: map<string, C.Content>, images: seq<Frozen>, clock: nat -> int)
    returns (ups: seq<Upload>, err: Option<string>, panicked: bool)
    modifies cache
    ensures (cache.partitionList, ups, err, panicked) == UploadedFrom(env, old(cache.partitionList), devices, [], images, 0, clock)
    ensures cache.file == old(cache.file)
  {
    ups := [];
    var i := 0;
    while i < |images|
      invariant 0 <= i <= |images|
      invariant UploadedFrom(env, old(cache.partitionList), devices, [], images, 0, clock) ==
        UploadedFrom(env, cache.partitionList, devices, ups, images, i, clock)
      invariant cache.file == old(cache.file)
    {
      var frozen := images[i];
      ghost var l := cache.partitionList;
      ghost var s := EntryOutcome(env, l, devices, ups, frozen, clock(i));
      assert UploadedFrom(env, l, devices, ups, images, i, clock) ==
        if s.2.Some? || s.3 then s else UploadedFrom(env, s.0, devices, s.1, images, i + 1, clock);
      if !frozen.update {
        i := i + 1;
        continue;
      }
      var r := Fs.ReadDisk(cache, env.dev, devices, frozen.image.uuid, clock(i));
      if r.None? {
        return ups, None, true;
      }
      if r.value.Err? {
        return ups, Errors.Wrap(Some(r.value.error), "read disk"), false;
      }
      var com := C.Compress(r.value.value, frozen.image.compression);
      if com.Err? {
        return ups, Errors.Wrap(Some(com.error), "compressing disk"), false;
      }
      var (u, e) := UploadDisk(env, com.value, frozen.image);
      ups := ups + [u];
      assert s == (cache.partitionList, ups, Errors.Wrap(e, "uploading disk"), false);
      if e.Some? {
        return ups, Errors.Wrap(e, "uploading disk"), false;
      }
      i := i + 1;
    }
    return ups, None, false;
  }

  /** The UUIDs of the entries flagged for update, in order. */
  function Selected(images: seq<Frozen>): (r: seq<string>)
    ensures |r| <= |images|
  {
    if |images| == 0 then []
    else (if images[0].update then [images[0].image.uuid] else []) + Selected(images[1..])
  }

  function Uuids(ups: seq<Upload>): (r: seq<string>)
    ensures |r| == |ups| && forall k :: 0 <= k < |ups| ==> r[k] == ups[k].uuid
  {
    if |ups| == 0 then [] else [ups[0].uuid] + Uuids(ups[1..])
  }

  /**
   * A run that ends without error or panic uploads exactly the entries
   * flagged for update, each once, in order, under its image's UUID;
   * entries not flagged are never read.
   */
  lemma {:induction false} UploadsSelected(env: UpEnv, list: seq<PM.Partition>, devices: map<string, C.Content>,
                                           ups: seq<Upload>, images: seq<Frozen>, i: nat, clock: nat -> int)
    requires i <= |images|
    requires UploadedFrom(env, list, devices, ups, images, i, clock).2.None?
    requires !UploadedFrom(env, list, devices, ups, images, i, clock).3
    ensures Uuids(UploadedFrom(env, list, devices, ups, images, i, clock).1) == Uuids(ups) + Selected(images[i..])
    decreases |images| - i
  {
    if i < |images| {
      var s := EntryOutcome(env, list, devices, ups, images[i], clock(i));
      assert images[i..][1..] == images[i + 1..];
      UploadsSelected(env, s.0, devices, s.1, images, i + 1, clock);
      EntryUuids(env, list, devices, ups, images[i], clock(i));
      assert Selected(images[i..]) == (if images[i].update then [images[i].image.uuid] else []) + Selected(images[i + 1..]);
    }
  }

  /**
   * getPartition's panic on an empty list is the only one: a run over a
   * non-empty cache list never panics, and one over an empty list panics
   * exactly when it meets an entry flagged for update. A setup with no
   * flagged entry returns nil on any list.
   */
  lemma {:induction false} UploadPanicsOnlyOnFlagged(env: UpEnv, list: seq<PM.Partition>, devices: map<string, C.Content>,
                                                     ups: seq<Upload>, images: seq<Frozen>, i: nat, clock: nat -> int)
    requires i <= |images|
    ensures var r := UploadedFrom(env, list, devices, ups, images, i, clock);
      (|list| > 0 ==> !r.3) &&
      (|list| == 0 ==> (r.3 <==> Selected(images[i..]) != [])) &&
      (Selected(images[i..]) == [] ==> r == (list, ups, None, false))
    decreases |images| - i
  {
    if i < |images| {
      var s := EntryOutcome(env, list, devices, ups, images[i], clock(i));
      assert images[i..][1..] == images[i + 1..];
      assert Selected(images[i..]) == (if images[i].update then [images[i].image.uuid] else []) + Selected(images[i + 1..]);
      UploadPanicsOnlyOnFlagged(env, s.0, devices, s.1, images, i + 1, clock);
    }
  }

  /** An entry that ends without error or panic adds its UUID to the uploads when it is flagged, and nothing otherwise. */
  lemma EntryUuids(env: UpEnv, list: seq<PM.Partition>, devices: map<string, C.Content>, ups: seq<Upload>, f: Frozen, now: int)
    requires EntryOutcome(env, list, devices, ups, f, now).2.None? && !EntryOutcome(env, list, devices, ups, f, now).3
    ensures Uuids(EntryOutcome(env, list, devices, ups, f, now).1) == Uuids(ups) + (if f.update then [f.image.uuid] else [])
  {
    var s := EntryOutcome(env, list, devices, ups, f, now);
    if f.update {
      assert s.1 == ups + [s.1[|ups|]];
      UuidsAppend(ups, [s.1[|ups|]]);
    }
  }

  /** The UUIDs of two runs of uploads concatenate. */
  lemma UuidsAppend(a: seq<Upload>, b: seq<Upload>)
    ensures Uuids(a + b) == Uuids(a) + Uuids(b)
  {
    var u := Uuids(a + b);
    assert forall k :: 0 <= k < |u| ==> u[k] == (Uuids(a) + Uuids(b))[k];
  }

  /**
   * What an entry uploads is its partition's contents compressed with the
   * image's strategy: under "zstd" (in any case) it decompresses back to the
   * device's contents.
   */
  lemma UploadDecompresses(env: UpEnv, list: seq<PM.Partition>, devices: map<string, C.Content>, ups: seq<Upload>,
                           f: Frozen, now: int, s: string)
    requires |list| > 0 && f.update
    requires C.Browbeat(f.image.compression) == C.STRATEGY_ZSTD && C.Browbeat(s) == C.STRATEGY_ZSTD
    requires EntryOutcome(env, list, devices, ups, f, now).2.None?
    ensures var u := EntryOutcome(env, list, devices, ups, f, now).1[|ups|];
      C.Decompress(C.Reader(u.content), s) == Ok(C.Reader(Fs.Contents(devices, Fs.DevicePath(list, f.image.uuid))))
  {
  }
}
