/**
 * Writing out the disks of an image setup (management_os/entrypoint/download.go):
 * for each image in order, download the pinned version, decompress it
 * (exactly "GZip" through a gzip reader, every other strategy through the
 * strategy dispatch), write it onto the image's partition and close the
 * download body; the first failing image ends the run. The API's download,
 * the closing of bodies and the devices are the environment; the gzip
 * reader opens on a gzip-packed stream only, since it reads the header.
 */
module Download {
  import opened Wrappers
  import Errors
  import C = Compression
  import PM = PartitionManager
  import Fs = EntrypointFs
  import LegacyImages
  import Setups
  import Text

  type Image = LegacyImages.ImageModel
  type Frozen = Setups.ImageFrozen<LegacyImages.ImageModel, LegacyImages.Version>

  /** The API's response to downloading a version of an image, and the failure of closing a body. */
  datatype NetEnv = NetEnv(
    fetch: (string, nat) -> Result<C.Reader, string>,
    closeErr: (string, nat) -> Option<string>,
    dev: Fs.DevEnv)

  /** The device contents, and the downloads asked for and the download bodies closed, each in order. */
  datatype Outside = Outside(
    devices: map<string, C.Content>,
    fetched: seq<(string, nat)>,
    closed: seq<(string, nat)>)

  /** gzip.NewReader succeeds on a gzip stream and reads what it packs. */
  function GzipReader(r: C.Reader): (g: Option<C.Reader>)
    ensures g.Some? <==> r.content.Packed? && r.content.codec == C.Gzip
    ensures g.Some? ==> g.value == C.Unpacking(r, C.Gzip)
  {
    if r.content.Packed? && r.content.codec == C.Gzip then Some(C.Unpacking(r, C.Gzip)) else None
  }

  /**
   * What decompressing the download gives: a reader, a stop with no error
   * (the gzip failure is wrapped around the download's nil error), or an error.
   */
  datatype Decoded = Decoded(reader: C.Reader) | SilentStop | DecodeError(msg: string)

  function Decode(reader: C.Reader, strategy: string): (d: Decoded)
    ensures strategy == C.STRATEGY_GZIP ==> !d.DecodeError?
    ensures strategy != C.STRATEGY_GZIP ==> !d.SilentStop?
    ensures strategy != C.STRATEGY_GZIP ==>
      (C.Decompress(reader, strategy).Ok? ==> d == Decoded(C.Decompress(reader, strategy).value)) &&
      (C.Decompress(reader, strategy).Err? ==> d == DecodeError(C.Decompress(reader, strategy).error))
  {
    if strategy == C.STRATEGY_GZIP then
      match GzipReader(reader)
      case Some(g) => Decoded(g)
      case None => SilentStop
    else
      match C.Decompress(reader, strategy)
      case Ok(d) => Decoded(d)
      case Err(e) => DecodeError(e)
  }

  /**
   * setupDisk(api, mac, image, version) on a cache list and the outside
   * world: the new list and world, the error, and whether getPartition
   * panicked on an empty list when the decompressed stream reached WriteDisk.
   */
  function SetupOutcome(env: NetEnv, list: seq<PM.Partition>, o: Outside, image: Image, version: nat, now: int)
    : (r: (seq<PM.Partition>, Outside, Option<string>, bool))
    ensures |r.0| == |list|
    ensures r.1.fetched == o.fetched + [(image.uuid, version)]
    ensures r.3 ==> |list| == 0 && r.0 == list && r.1.devices == o.devices && r.1.closed == o.closed && r.2.None?
    ensures r.3 <==> |list| == 0 && env.fetch(image.uuid, version).Ok? &&
                     Decode(env.fetch(image.uuid, version).value, image.compression).Decoded?
  {
    var reader := env.fetch(image.uuid, version);
    var o := o.(fetched := o.fetched + [(image.uuid, version)]);
    if reader.Err? then (list, o, Errors.Wrap(Some(reader.error), "error downloading disk"), false)
    else
      match Decode(reader.value, image.compression)
      case SilentStop => (list, o, None, false)
      case DecodeError(e) => (list, o, Errors.Wrap(Some(e), "error decompressing disk"), false)
      case Decoded(dec) =>
        if |list| == 0 then (list, o, None, true)
        else
          var path := Fs.DevicePath(list, image.uuid);
          var list' := PM.Claimed(list, PM.Chosen(list, image.uuid).value, image.uuid, now);
          var (devices, werr) := Fs.WriteOutcome(env.dev, o.devices, path, dec, image.checksum);
          if werr.Some? then (list', o.(devices := devices), Errors.Wrap(werr, "error writing disk"), false)
          else (list', o.(devices := devices, closed := o.closed + [(image.uuid, version)]),
                Errors.Wrap(env.closeErr(image.uuid, version), "couldn't close download body"), false)
  }

  /** setupDisk: download, decompress, write, and close the download body. */
  method SetupDisk(cache: PM.Cache, env: NetEnv, o: Outside, image: Image, version: nat, now: int)
    returns (o': Outside, err: Option<string>, panicked: bool)
    modifies cache
    ensures (cache.partitionList, o', err, panicked) == SetupOutcome(env, old(cache.partitionList), o, image, version, now)
    ensures cache.file == old(cache.file)
  {
    panicked := false;
    var reader := env.fetch(image.uuid, version);
    o' := o.(fetched := o.fetched + [(image.uuid, version)]);
    if reader.Err? {
      return o', Errors.Wrap(Some(reader.error), "error downloading disk"), false;
    }
    var dec: C.Reader;
    if image.compression == C.STRATEGY_GZIP {
      var g := GzipReader(reader.value);
      if g.None? {
        // errors.Wrap(err, "Opening GZip stream") wraps the download's error, which is nil here
        return o', Errors.Wrap(None, "Opening GZip stream"), false;
      }
      dec := g.value;
    } else {
      var d := C.Decompress(reader.value, image.compression);
      if d.Err? {
        return o', Errors.Wrap(Some(d.error), "error decompressing disk"), false;
      }
      dec := d.value;
    }
    var devices, werr;
    devices, werr, panicked := Fs.WriteDisk(cache, env.dev, o'.devices, dec, image.uuid, image.checksum, now);
    if panicked {
      return o', None, true;
    }
    o' := o'.(devices := devices);
    if werr.Some? {
      return o', Errors.Wrap(werr, "error writing disk"), false;
    }
    o' := o'.(closed := o'.closed + [(image.uuid, version)]);
    err := Errors.Wrap(env.closeErr(image.uuid, version), "couldn't close download body");
  }

  /**
   * WriteOutDisks from entry i on; the clock gives the time of entry i's
   * partition claim. A panic ends the run with no error returned.
   */
  function WrittenFrom(env: NetEnv, list: seq<PM.Partition>, o: Outside, images: seq<Frozen>, i: nat, clock: nat -> int)
    : (r: (seq<PM.Partition>, Outside, Option<string>, bool))
    requires i <= |images|
    ensures |r.0| == |list|
    ensures r.3 ==> r.2.None?
    decreases |images| - i
  {
    if i == |images| then (list, o, None, false)
    else
      var (list', o', err, panicked) := SetupOutcome(env, list, o, images[i].image, images[i].versionKey, clock(i));
      if err.Some? then (list', o', Errors.Wrap(err, "couldn't close download body"), false)
      else if panicked then (list', o', None, true)
      else WrittenFrom(env, list', o', images, i + 1, clock)
  }

  /**
   * WriteOutDisks(api, mac, setup): setupDisk on each image in order with its
   * VersionNumber; any error is returned wrapped as "couldn't close download
   * body", whatever step it came from.
   */
  method WriteOutDisks(cache: PM.Cache, env: NetEnv, o: Outside, images: seq<Frozen>, clock: nat -> int)
    returns (o': Outside, err: Option<string>, panicked: bool)
    modifies cache
    ensures (cache.partitionList, o', err, panicked) == WrittenFrom(env, old(cache.partitionList), o, images, 0, clock)
    ensures cache.file == old(cache.file)
  {
    o' := o;
    panicked := false;
    var i := 0;
    while i < |images|
      invariant 0 <= i <= |images|
      invariant WrittenFrom(env, old(cache.partitionList), o, images, 0, clock) ==
        WrittenFrom(env, cache.partitionList, o', images, i, clock)
      invariant cache.file == old(cache.file)
    {
      var e;
      o', e, panicked := SetupDisk(cache, env, o', images[i].image, images[i].versionKey, clock(i));
      if e.Some? {
        return o', Errors.Wrap(e, "couldn't close download body"), false;
      }
      if panicked {
        return o', None, true;
      }
      i := i + 1;
    }
    return o', None, false;
  }

  /** The (UUID, version) of each entry from i on, in order. */
  function BodiesFrom(images: seq<Frozen>, i: nat): (r: seq<(string, nat)>)
    requires i <= |images|
    ensures |r| == |images| - i
    ensures forall k :: 0 <= k < |r| ==> r[k] == (images[i + k].image.uuid, images[i + k].versionKey)
    decreases |images| - i
  {
    if i == |images| then [] else [(images[i].image.uuid, images[i].versionKey)] + BodiesFrom(images, i + 1)
  }

  /**
   * The images are downloaded in order: the downloads asked for run on from
   * those before and are a prefix of the entries' from i on.
   */
  lemma {:induction false} WrittenFetchesInOrder(env: NetEnv, list: seq<PM.Partition>, o: Outside, images: seq<Frozen>,
                                                 i: nat, clock: nat -> int)
    requires i <= |images|
    ensures var r := WrittenFrom(env, list, o, images, i, clock);
      o.fetched <= r.1.fetched <= o.fetched + BodiesFrom(images, i)
    decreases |images| - i
  {
    if i < |images| {
      var s := SetupOutcome(env, list, o, images[i].image, images[i].versionKey, clock(i));
      if s.2.None? && !s.3 {
        WrittenFetchesInOrder(env, s.0, s.1, images, i + 1, clock);
        var head := (images[i].image.uuid, images[i].versionKey);
        assert o.fetched + [head] + BodiesFrom(images, i + 1) == o.fetched + BodiesFrom(images, i);
      }
    }
  }

  /**
   * The run stops at the first image that fails: every entry from i on is
   * downloaded when the run returns nil without a panic, and at least the
   * failing one when it returns an error or panics.
   */
  lemma {:induction false} WrittenStopsAtFirstError(env: NetEnv, list: seq<PM.Partition>, o: Outside, images: seq<Frozen>,
                                                    i: nat, clock: nat -> int)
    requires i <= |images|
    ensures var r := WrittenFrom(env, list, o, images, i, clock);
      (r.2.None? && !r.3 ==> r.1.fetched == o.fetched + BodiesFrom(images, i)) &&
      (r.2.Some? || r.3 ==> |r.1.fetched| > |o.fetched|)
    decreases |images| - i
  {
    if i < |images| {
      var s := SetupOutcome(env, list, o, images[i].image, images[i].versionKey, clock(i));
      if s.2.None? && !s.3 {
        WrittenStopsAtFirstError(env, s.0, s.1, images, i + 1, clock);
        var head := (images[i].image.uuid, images[i].versionKey);
        assert o.fetched + [head] + BodiesFrom(images, i + 1) == o.fetched + BodiesFrom(images, i);
      }
    }
  }

  /**
   * getPartition's panic on an empty list is the only one: a run that starts
   * with a non-empty cache list never panics, and a run over an empty list
   * panics exactly when some entry, all before it having succeeded, gets a
   * decompressed stream to write. With no entries, or when the first entry
   * fails before WriteDisk, the run returns normally.
   */
  lemma {:induction false} WrittenPanicsOnlyOnEmptyList(env: NetEnv, list: seq<PM.Partition>, o: Outside,
                                                        images: seq<Frozen>, i: nat, clock: nat -> int)
    requires i <= |images|
    ensures var r := WrittenFrom(env, list, o, images, i, clock);
      (r.3 ==> |list| == 0 && r.0 == list && r.1.devices == o.devices && r.1.closed == o.closed) &&
      (|list| > 0 ==> !r.3)
    decreases |images| - i
  {
    if i < |images| {
      var s := SetupOutcome(env, list, o, images[i].image, images[i].versionKey, clock(i));
      if s.2.None? && !s.3 {
        WrittenPanicsOnlyOnEmptyList(env, s.0, s.1, images, i + 1, clock);
        if |list| == 0 {
          assert s.0 == list && s.1.devices == o.devices && s.1.closed == o.closed;
        }
      }
    }
  }

  /**
   * A GZip image whose download is not gzip data is silently skipped: it is
   * downloaded, but no device is written, no body closed, no partition
   * claimed, and no error returned.
   */
  lemma GzipFailureIsSilent(env: NetEnv, list: seq<PM.Partition>, o: Outside, image: Image, version: nat, now: int)
    requires image.compression == C.STRATEGY_GZIP && env.fetch(image.uuid, version).Ok?
    requires GzipReader(env.fetch(image.uuid, version).value).None?
    ensures SetupOutcome(env, list, o, image, version, now) ==
      (list, o.(fetched := o.fetched + [(image.uuid, version)]), None, false)
  {
  }

  /** Only the exact spelling "GZip" reaches the gzip reader: "gzip" is refused by the strategy dispatch. */
  lemma LowerCaseGzipRefused(env: NetEnv, list: seq<PM.Partition>, o: Outside, image: Image, version: nat, now: int)
    requires image.compression == "gzip" && env.fetch(image.uuid, version).Ok?
    ensures SetupOutcome(env, list, o, image, version, now).2 == Errors.Wrap(Some(C.UNKNOWN_STRATEGY), "error decompressing disk")
  {
    assert C.Browbeat("gzip") == "gzip";
    assert "gzip" != C.STRATEGY_GZIP;
    assert C.Decompress(env.fetch(image.uuid, version).value, "gzip") == Err(C.UNKNOWN_STRATEGY);
  }

  /** A failing write returns before the download body is closed, with the write's error. */
  lemma WriteFailureLeavesBodyOpen(env: NetEnv, list: seq<PM.Partition>, o: Outside, image: Image, version: nat, now: int)
    requires |list| > 0
    requires env.fetch(image.uuid, version).Ok?
    requires Decode(env.fetch(image.uuid, version).value, image.compression).Decoded?
    requires Fs.WriteOutcome(env.dev, o.devices, Fs.DevicePath(list, image.uuid),
      Decode(env.fetch(image.uuid, version).value, image.compression).reader, image.checksum).1.Some?
    ensures SetupOutcome(env, list, o, image, version, now).1.closed == o.closed
    ensures Text.HasPrefix(SetupOutcome(env, list, o, image, version, now).2.value, "error writing disk: ")
  {
  }
}
