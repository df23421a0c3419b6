/**
 * What the two image packages (pkg/images/base.go and pkg/model/images/base.go)
 * have in common, written the same way in both: the DiskType enum with its
 * JSON codec, the size constants, and the way CreateImageFile makes an image
 * file of a given size (open without truncating, seek to size-1, write one
 * zero byte, close). The file system keeps only directories and file lengths.
 */
module ImageBase {
  import opened Wrappers

  const U64_MOD: int := 0x1_0000_0000_0000_0000
  const I64_MIN: int := -0x8000_0000_0000_0000

  /** Go's uint (64 bits on the targets the project builds for) and uint64. */
  type Uint64 = n: nat | n < U64_MOD

  // ----- DiskType -----

  /** DiskType is a Go int: any value can occur, only 0 and 1 are named. */
  type DiskType = int

  const DISK_TYPE_RAW: DiskType := 0
  const DISK_TYPE_QCOW2: DiskType := 1

  /** String: the toString map; a value it does not hold gives the zero string. */
  function DiskTypeString(d: DiskType): (r: string)
    ensures d == DISK_TYPE_RAW <==> r == "raw"
    ensures d == DISK_TYPE_QCOW2 <==> r == "qcow2"
    ensures d != DISK_TYPE_RAW && d != DISK_TYPE_QCOW2 <==> r == ""
  {
    if d == DISK_TYPE_RAW then "raw" else if d == DISK_TYPE_QCOW2 then "qcow2" else ""
  }

  /** The toID map read with a missing key giving the zero value, DiskTypeRaw. */
  function DiskTypeId(s: string): (r: DiskType)
    ensures s == "qcow2" <==> r == DISK_TYPE_QCOW2
    ensures s != "qcow2" <==> r == DISK_TYPE_RAW
  {
    if s == "qcow2" then DISK_TYPE_QCOW2 else DISK_TYPE_RAW
  }

  /** MarshalJSON: the name between double quotes; the error is always nil. */
  function MarshalDiskType(d: DiskType): (r: string)
    ensures |r| >= 2 && r[0] == '"' && r[|r| - 1] == '"'
    ensures r[1..|r| - 1] == DiskTypeString(d)
    ensures '"' !in r[1..|r| - 1] && '\\' !in r[1..|r| - 1]
  {
    "\"" + DiskTypeString(d) + "\""
  }

  /**
   * A JSON document as json.Unmarshal into a string classifies it: a string
   * (its decoded value), null (accepted, leaving the string empty), any other
   * well-formed value (a type error), or malformed text (a syntax error).
   */
  datatype JsonText = JsonString(s: string) | JsonNull | JsonOther | JsonMalformed

  /**
   * The JSON text MarshalDiskType writes is a string token without escapes,
   * so it reads back as the string between the quotes.
   */
  function ReadBack(text: string): JsonText
  {
    if |text| >= 2 && text[0] == '"' && text[|text| - 1] == '"' &&
       '"' !in text[1..|text| - 1] && '\\' !in text[1..|text| - 1]
    then JsonString(text[1..|text| - 1])
    else if text == "null" then JsonNull
    else JsonOther
  }

  /**
   * UnmarshalJSON into a DiskType holding `current`: an error leaves it as it
   * was; otherwise it becomes toID of the decoded string, which for null is
   * the empty string.
   */
  function UnmarshalDiskType(current: DiskType, j: JsonText): (r: (DiskType, Option<string>))
    ensures (j.JsonOther? || j.JsonMalformed?) <==> r.1.Some?
    ensures r.1.Some? ==> r.0 == current
    ensures j.JsonString? ==> r == (DiskTypeId(j.s), None)
    ensures j.JsonNull? ==> r == (DISK_TYPE_RAW, None)
  {
    match j
    case JsonString(s) => (DiskTypeId(s), None)
    case JsonNull => (DiskTypeId(""), None)
    case JsonOther => (current, Some("json: cannot unmarshal into Go value of type string"))
    case JsonMalformed => (current, Some("invalid character looking for beginning of value"))
  }

  /** Both named values survive a marshal and unmarshal whatever the target held. */
  lemma DiskTypeRoundTrip(d: DiskType, current: DiskType)
    requires d == DISK_TYPE_RAW || d == DISK_TYPE_QCOW2
    ensures UnmarshalDiskType(current, ReadBack(MarshalDiskType(d))) == (d, None)
  {
    var t := MarshalDiskType(d);
    assert t[1..|t| - 1] == DiskTypeString(d);
  }

  /** An unnamed value marshals to "" and so comes back as DiskTypeRaw. */
  lemma UnnamedDiskTypeBecomesRaw(d: DiskType, current: DiskType)
    requires d != DISK_TYPE_RAW && d != DISK_TYPE_QCOW2
    ensures MarshalDiskType(d) == "\"\""
    ensures UnmarshalDiskType(current, ReadBack(MarshalDiskType(d))) == (DISK_TYPE_RAW, None)
  {
    var t := MarshalDiskType(d);
    assert t[1..|t| - 1] == "";
  }

  // ----- sizes -----

  const SIZE_MEGABYTE: Uint64 := 1024 * 1024
  const SIZE_GIGABYTE: Uint64 := 1024 * 1024 * 1024

  /** imageSize * baseSize in uint arithmetic, then converted to int64. */
  function ImageFileSize(imageSize: Uint64, baseSize: Uint64): (r: int)
    ensures I64_MIN <= r < -I64_MIN
    ensures imageSize * baseSize < -I64_MIN ==> r == imageSize * baseSize
  {
    ToInt64((imageSize * baseSize) % U64_MOD)
  }

  /** The int64 with the same 64-bit pattern. */
  function ToInt64(u: int): (r: int)
    requires 0 <= u < U64_MOD
    ensures I64_MIN <= r < -I64_MIN
    ensures u < -I64_MIN ==> r == u
  {
    if u < -I64_MIN then u else u - U64_MOD
  }

  /** size-1 in int64 arithmetic: only the smallest int64 wraps around. */
  function SeekOffset(size: int): (r: int)
    requires I64_MIN <= size < -I64_MIN
    ensures size > I64_MIN ==> r == size - 1
    ensures size == I64_MIN ==> r == -I64_MIN - 1
  {
    ToInt64((size - 1) % U64_MOD)
  }

  // ----- CreateImageFile -----

  /** The directories and the lengths of the files of a file system. */
  datatype Files = Files(dirs: set<string>, lengths: map<string, nat>)

  /** Which of the steps of CreateImageFile the file system refuses. */
  datatype FileFaults = FileFaults(openFails: bool, writeFails: bool, closeFails: bool)

  datatype FileError = OpenError | SeekError | WriteError | CloseError

  /** The length a file has after one zero byte is written at offset `off`. */
  function Extended(fs: Files, path: string, off: nat): nat
  {
    var len := if path in fs.lengths then fs.lengths[path] else 0;
    if off + 1 > len then off + 1 else len
  }

  /**
   * The file handling of CreateImageFile: open `path` for writing, creating
   * it empty if needed and never truncating it; seek to size-1 (a negative
   * offset is an error); write one zero byte there; close. Each failing step
   * returns its error at once, and the file is not closed then.
   */
  method CreateSizedFile(fs: Files, path: string, imageSize: Uint64, baseSize: Uint64, faults: FileFaults)
    returns (fs': Files, err: Option<FileError>)
    ensures faults.openFails ==> fs' == fs && err == Some(OpenError)
    ensures !faults.openFails ==>
      fs'.dirs == fs.dirs && path in fs'.lengths &&
      forall p :: p in fs.lengths && p != path ==> p in fs'.lengths && fs'.lengths[p] == fs.lengths[p]
    ensures !faults.openFails ==> fs'.lengths.Keys == fs.lengths.Keys + {path}
    ensures !faults.openFails && SeekOffset(ImageFileSize(imageSize, baseSize)) < 0 ==>
      err == Some(SeekError) && fs'.lengths[path] == (if path in fs.lengths then fs.lengths[path] else 0)
    ensures !faults.openFails && SeekOffset(ImageFileSize(imageSize, baseSize)) >= 0 ==>
      (err.None? <==> !faults.writeFails && !faults.closeFails) &&
      (faults.writeFails ==> err == Some(WriteError)) &&
      (!faults.writeFails ==> fs'.lengths[path] == Extended(fs, path, SeekOffset(ImageFileSize(imageSize, baseSize))))
  {
    if faults.openFails {
      return fs, Some(OpenError);
    }
    fs' := fs.(lengths := fs.lengths[path := if path in fs.lengths then fs.lengths[path] else 0]);
    var size := ImageFileSize(imageSize, baseSize);
    var off := size - 1;
    if off < I64_MIN {
      off := off + U64_MOD;
    }
    if off < 0 {
      return fs', Some(SeekError);
    }
    if faults.writeFails {
      return fs', Some(WriteError);
    }
    fs' := fs'.(lengths := fs'.lengths[path := Extended(fs, path, off)]);
    if faults.closeFails {
      return fs', Some(CloseError);
    }
    return fs', None;
  }

  /**
   * With no failures, a size that fits in an int64 and a file that does not
   * exist yet, CreateImageFile leaves a file of exactly imageSize * baseSize
   * bytes; a size of 0 is refused by the seek.
   */
  lemma SizedFileLength(fs: Files, path: string, imageSize: Uint64, baseSize: Uint64)
    requires path !in fs.lengths && 0 < imageSize * baseSize < -I64_MIN
    ensures Extended(fs, path, SeekOffset(ImageFileSize(imageSize, baseSize))) == imageSize * baseSize
  {
  }
}
