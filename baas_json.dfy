/**
 * The init shim's decoder from the control server's boot-setup JSON into
 * C records (utils/baas-init/baas-json.c). String fields point into the
 * parsed document; a missing string member reads as "", a missing or
 * non-number integer member as 0. The frozen-image decoder dereferences the
 * "Update" member without a NULL check, so an entry lacking it crashes the
 * process: that is the decoder's one failure.
 */
module BaasJson {
  import opened Wrappers
  import opened Json

  /**
   * struct baas_image. `version` is None until the frozen-image decoder writes
   * it; `username` is never written by any decoder (it stays indeterminate).
   */
  datatype BaasImage = BaasImage(
    name: string,
    version: Option<int>,
    uuid: string,
    username: Option<string>,
    diskCompressionStrategy: string,
    imageFileType: string,
    imageType: string,
    checksum: string,
    filesystem: string)

  datatype BaasImageFrozen = BaasImageFrozen(image: BaasImage, update: bool)

  datatype BaasSetup = BaasSetup(
    images: seq<BaasImageFrozen>,
    imagesLen: nat,
    name: string,
    username: string,
    uuid: string)

  /** The process dies dereferencing the NULL "Update" member of entry `index`. */
  datatype ParseFault = MissingUpdate(index: nat)

  predicate IsStringItem(j: Option<Json>)
  {
    j.Some? && j.value.JString?
  }

  /** json_get_string: the member's text when it is a string, "" otherwise. */
  function GetString(name: string, json: Option<Json>): (r: string)
    ensures IsStringItem(GetItem(json, name)) ==> r == GetItem(json, name).value.s
    ensures !IsStringItem(GetItem(json, name)) ==> r == ""
  {
    var val := GetItem(json, name);
    if val.Some? && val.value.JString? then val.value.s else ""
  }

  /** json_get_int: the member's saturated value when it is a non-zero number, 0 otherwise. */
  function GetInt(name: string, json: Option<Json>): (r: int)
    ensures INT_MIN <= r <= INT_MAX
    ensures r != 0 ==> GetItem(json, name).Some? && GetItem(json, name).value.JNumber?
    ensures GetItem(json, name).Some? && GetItem(json, name).value.JNumber? ==>
      r == ClampInt(GetItem(json, name).value.n)
  {
    var val := GetItem(json, name);
    if val.Some? && val.value.JNumber? && ValueInt(val.value) != 0 then ValueInt(val.value) else 0
  }

  /** parse_baas_image: seven string members, exact-case keys. */
  function ParseImage(json: Option<Json>): (bi: BaasImage)
    ensures bi.version.None? && bi.username.None?
  {
    BaasImage(
      name := GetString("Name", json),
      version := None,
      uuid := GetString("UUID", json),
      username := None,
      diskCompressionStrategy := GetString("DiskCompressionStrategy", json),
      imageFileType := GetString("ImageFileType", json),
      imageType := GetString("type", json),
      checksum := GetString("Checksum", json),
      filesystem := GetString("Filesystem", json))
  }

  /**
   * parse_baas_image_frozen: the image from "Image", the version from the
   * "Version" member NESTED inside the "Version" member, and `update` from the
   * `valueint` of "Update" (None: that member is missing and the process crashes).
   */
  function ParseImageFrozen(json: Json): (r: Option<BaasImageFrozen>)
    ensures r.Some? <==> GetItem(Some(json), "Update").Some?
    ensures r.Some? ==> r.value.image.version.Some? && r.value.image.username.None?
  {
    var image := ParseImage(GetItem(Some(json), "Image"));
    var version := GetInt("Version", GetItem(Some(json), "Version"));
    var jUpdate := GetItem(Some(json), "Update");
    if jUpdate.None? then None
    else Some(BaasImageFrozen(image.(version := Some(version)), ValueInt(jUpdate.value) != 0))
  }

  /**
   * parse_baas_setup: an array (of the entries' size) filled in document order,
   * then the three string members of the setup. Fails at the first entry
   * without an "Update" member.
   */
  method ParseSetup(json: Option<Json>) returns (r: Result<BaasSetup, ParseFault>)
    ensures var entries := Children(GetItem(json, "Images"));
      r.Ok? <==> forall i :: 0 <= i < |entries| ==> ParseImageFrozen(entries[i]).Some?
    ensures var entries := Children(GetItem(json, "Images"));
      r.Err? ==> (r.error.index < |entries| && ParseImageFrozen(entries[r.error.index]).None? &&
        forall i :: 0 <= i < r.error.index ==> ParseImageFrozen(entries[i]).Some?)
    ensures var entries := Children(GetItem(json, "Images"));
      r.Ok? ==>
        r.value.imagesLen == |entries| && |r.value.images| == |entries| &&
        (forall i :: 0 <= i < |entries| ==> Some(r.value.images[i]) == ParseImageFrozen(entries[i])) &&
        r.value.name == GetString("Name", json) &&
        r.value.username == GetString("Username", json) &&
        r.value.uuid == GetString("UUID", json)
  {
    var entries := Children(GetItem(json, "Images"));
    var images := new BaasImageFrozen[|entries|];
    var i := 0;
    while i < |entries|
      invariant 0 <= i <= |entries|
      invariant forall j :: 0 <= j < i ==> Some(images[j]) == ParseImageFrozen(entries[j])
    {
      var bif := ParseImageFrozen(entries[i]);
      if bif.None? {
        return Err(MissingUpdate(i));
      }
      images[i] := bif.value;
      i := i + 1;
    }
    r := Ok(BaasSetup(
      images := images[..],
      imagesLen := |entries|,
      name := GetString("Name", json),
      username := GetString("Username", json),
      uuid := GetString("UUID", json)));
  }

  // ----- the control server's encoding of the same records -----

  /** The string fields of an image as the control server serialises an ImageModel. */
  datatype WireImage = WireImage(
    name: string,
    uuid: string,
    username: string,
    compression: string,
    fileType: string,
    kind: string,
    checksum: string,
    filesystem: string)

  datatype WireFrozen = WireFrozen(image: WireImage, version: nat, update: bool)

  datatype WireSetup = WireSetup(name: string, images: seq<WireFrozen>, username: string, uuid: string)

  /** encoding/json of an ImageModel: members named after the Go fields, in declaration order. */
  function EncodeImage(w: WireImage): Json
  {
    JObject([
      Member("Name", JString(w.name)),
      Member("Versions", JArray([])),
      Member("UUID", JString(w.uuid)),
      Member("Username", JString(w.username)),
      Member("DiskCompressionStrategy", JString(w.compression)),
      Member("ImageFileType", JString(w.fileType)),
      Member("Type", JString(w.kind)),
      Member("Checksum", JString(w.checksum)),
      Member("Filesystem", JString(w.filesystem))])
  }

  /** encoding/json of an ImageFrozen: the Version member is itself an object holding "Version". */
  function EncodeFrozen(f: WireFrozen): Json
  {
    JObject([
      Member("Image", EncodeImage(f.image)),
      Member("Version", JObject([Member("Version", JNumber(f.version)), Member("ImageModelUUID", JString(f.image.uuid))])),
      Member("Update", JBool(f.update))])
  }

  function EncodeFrozenList(fs: seq<WireFrozen>): (r: seq<Json>)
    ensures |r| == |fs|
    ensures forall i :: 0 <= i < |fs| ==> r[i] == EncodeFrozen(fs[i])
  {
    if fs == [] then [] else [EncodeFrozen(fs[0])] + EncodeFrozenList(fs[1..])
  }

  function EncodeSetup(s: WireSetup): Json
  {
    JObject([
      Member("Name", JString(s.name)),
      Member("Images", JArray(EncodeFrozenList(s.images))),
      Member("Username", JString(s.username)),
      Member("UUID", JString(s.uuid))])
  }

  /** What the shim reads back from an encoded image. */
  function Decoded(w: WireImage, version: int): BaasImage
  {
    BaasImage(w.name, Some(version), w.uuid, None, w.compression, w.fileType, "", w.checksum, w.filesystem)
  }

  /**
   * Every string field the control server sends survives decoding except the
   * image type: the shim asks for "type" and the server writes "Type".
   */
  lemma DecodeEncodedImage(w: WireImage)
    ensures ParseImage(Some(EncodeImage(w))) == Decoded(w, 0).(version := None)
  {
    EncodedLeadingStrings(w);
    EncodedTrailingStrings(w);
  }

  /** The name, the UUID and the compression strategy read back from an encoded image. */
  lemma EncodedLeadingStrings(w: WireImage)
    ensures var json := Some(EncodeImage(w));
      GetString("Name", json) == w.name && GetString("UUID", json) == w.uuid &&
      GetString("DiskCompressionStrategy", json) == w.compression
  {
    var json := Some(EncodeImage(w));
    var ms := EncodeImage(w).members;
    assert GetString("Name", json) == w.name by { LookupFirst(ms, "Name", 0); }
    assert GetString("UUID", json) == w.uuid by { LookupFirst(ms, "UUID", 2); }
    assert GetString("DiskCompressionStrategy", json) == w.compression by { LookupFirst(ms, "DiskCompressionStrategy", 4); }
  }

  /** The file type, the checksum and the file system read back from an encoded image; "type" is missing. */
  lemma EncodedTrailingStrings(w: WireImage)
    ensures var json := Some(EncodeImage(w));
      GetString("ImageFileType", json) == w.fileType && GetString("Checksum", json) == w.checksum &&
      GetString("Filesystem", json) == w.filesystem && GetString("type", json) == ""
  {
    var json := Some(EncodeImage(w));
    var ms := EncodeImage(w).members;
    assert GetString("ImageFileType", json) == w.fileType by { LookupFirst(ms, "ImageFileType", 5); }
    assert GetString("Checksum", json) == w.checksum by { LookupFirst(ms, "Checksum", 7); }
    assert GetString("Filesystem", json) == w.filesystem by { LookupFirst(ms, "Filesystem", 8); }
    assert GetString("type", json) == "" by { LookupAbsent(ms, "type"); }
  }

  /** A frozen image decodes to its image, its version saturated to an int, and its update flag. */
  lemma DecodeEncodedFrozen(f: WireFrozen)
    ensures ParseImageFrozen(EncodeFrozen(f)) == Some(BaasImageFrozen(Decoded(f.image, ClampInt(f.version)), f.update))
  {
    var ms := EncodeFrozen(f).members;
    LookupFirst(ms, "Image", 0);
    LookupFirst(ms, "Version", 1);
    LookupFirst(ms, "Update", 2);
    LookupFirst(ms[1].value.members, "Version", 0);
    DecodeEncodedImage(f.image);
  }

  /** A flat numeric "Version" member is not where the decoder looks: it reads as version 0. */
  lemma FlatVersionReadsZero(rest: seq<Member>, n: int)
    ensures var json := JObject([Member("Version", JNumber(n))] + rest);
      GetItem(Some(json), "Update").Some? ==> ParseImageFrozen(json).value.image.version == Some(0)
  {
    var ms := [Member("Version", JNumber(n))] + rest;
    LookupFirst(ms, "Version", 0);
  }

  /** The entries and the setup's own strings of an encoded setup are what the decoder reads. */
  lemma DecodeEncodedSetup(s: WireSetup)
    ensures Children(GetItem(Some(EncodeSetup(s)), "Images")) == EncodeFrozenList(s.images)
    ensures GetString("Name", Some(EncodeSetup(s))) == s.name
    ensures GetString("Username", Some(EncodeSetup(s))) == s.username
    ensures GetString("UUID", Some(EncodeSetup(s))) == s.uuid
    ensures forall i :: 0 <= i < |s.images| ==>
      ParseImageFrozen(EncodeFrozenList(s.images)[i]) ==
        Some(BaasImageFrozen(Decoded(s.images[i].image, ClampInt(s.images[i].version)), s.images[i].update))
  {
    var ms := EncodeSetup(s).members;
    LookupFirst(ms, "Name", 0);
    LookupFirst(ms, "Images", 1);
    LookupFirst(ms, "Username", 2);
    LookupFirst(ms, "UUID", 3);
    forall i | 0 <= i < |s.images|
      ensures ParseImageFrozen(EncodeFrozenList(s.images)[i]) ==
        Some(BaasImageFrozen(Decoded(s.images[i].image, ClampInt(s.images[i].version)), s.images[i].update))
    {
      DecodeEncodedFrozen(s.images[i]);
    }
  }

  /** With no document at all the decoder still yields a setup: no entries and empty strings. */
  lemma NullDocumentIsEmptySetup()
    ensures Children(GetItem(None, "Images")) == []
    ensures GetString("Name", None) == "" && GetString("Username", None) == "" && GetString("UUID", None) == ""
  {
  }

  // ----- ownership of the decoded records -----

  /** The heap blocks the decoders allocate for a setup of `n` entries. */
  datatype Block = SetupBlock | ImagesArrayBlock | FrozenBlock(i: nat) | ImageBlock(i: nat)

  ghost function EntryBlocks(n: nat): set<Block>
  {
    (set i | 0 <= i < n :: FrozenBlock(i)) + (set i | 0 <= i < n :: ImageBlock(i))
  }

  ghost function AllocatedBlocks(n: nat): set<Block>
  {
    {SetupBlock, ImagesArrayBlock} + EntryBlocks(n)
  }

  /** free_baas_setup: the array of image references and the setup record only. */
  function FreeSetupReleases(): (r: set<Block>)
    ensures forall b :: b in r ==> !b.FrozenBlock? && !b.ImageBlock?
  {
    {SetupBlock, ImagesArrayBlock}
  }

  /** free_baas_image_frozen: the entry's image and the entry itself. */
  function FreeFrozenReleases(i: nat): set<Block>
  {
    {ImageBlock(i), FrozenBlock(i)}
  }

  /** free_baas_image: the image record alone. */
  function FreeImageReleases(i: nat): set<Block>
  {
    {ImageBlock(i)}
  }

  /** What calling `free` on each of the first `n` entries releases. */
  ghost function FreedEntries(n: nat, free: nat -> set<Block>): set<Block>
  {
    if n == 0 then {} else FreedEntries(n - 1, free) + free(n - 1)
  }

  /**
   * Freeing every entry with free_baas_image_frozen and then the setup with
   * free_baas_setup releases exactly the blocks the decoder allocated.
   */
  lemma {:induction false} FreeFrozenThenSetupReleasesAll(n: nat)
    ensures FreedEntries(n, FreeFrozenReleases) + FreeSetupReleases() == AllocatedBlocks(n)
    ensures FreedEntries(n, FreeFrozenReleases) == EntryBlocks(n)
  {
    if n > 0 {
      FreeFrozenThenSetupReleasesAll(n - 1);
      assert EntryBlocks(n) == EntryBlocks(n - 1) + {ImageBlock(n - 1), FrozenBlock(n - 1)};
    }
  }

  /** Freeing every entry with free_baas_image instead, and then the setup, leaves every entry block allocated. */
  lemma {:induction false} FreeImageLeaksFrozen(n: nat)
    ensures AllocatedBlocks(n) - FreedEntries(n, FreeImageReleases) - FreeSetupReleases() ==
      set i | 0 <= i < n :: FrozenBlock(i)
  {
    if n > 0 {
      FreeImageLeaksFrozen(n - 1);
      assert FreedEntries(n, FreeImageReleases) == FreedEntries(n - 1, FreeImageReleases) + {ImageBlock(n - 1)};
      assert AllocatedBlocks(n) == AllocatedBlocks(n - 1) + {ImageBlock(n - 1), FrozenBlock(n - 1)};
      assert (set i | 0 <= i < n :: FrozenBlock(i)) == (set i | 0 <= i < n - 1 :: FrozenBlock(i)) + {FrozenBlock(n - 1)};
      FreedImagesAreImages(n);
    }
  }

  /** free_baas_image only ever releases image blocks. */
  lemma {:induction false} FreedImagesAreImages(n: nat)
    ensures forall b :: b in FreedEntries(n, FreeImageReleases) ==> b.ImageBlock? && b.i < n
  {
    if n > 0 {
      FreedImagesAreImages(n - 1);
    }
  }

  /** Freeing a setup leaves both blocks of every entry allocated. */
  lemma FreeSetupLeaksEntries(n: nat)
    ensures AllocatedBlocks(n) - FreeSetupReleases() == EntryBlocks(n)
    ensures forall i :: 0 <= i < n ==> FrozenBlock(i) in AllocatedBlocks(n) - FreeSetupReleases()
  {
    assert forall i :: 0 <= i < n ==> FrozenBlock(i) in EntryBlocks(n);
  }
}
