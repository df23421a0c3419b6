/**
 * The block copy of the management OS's helper program
 * (management_os/programs/fs.go): CopyStream reads 512 bytes at offset i
 * with ReadAt and writes what it got at the same offset with WriteAt, then
 * moves i on by the number of bytes read. A read error other than EOF is
 * returned as it is, a failed write likewise, a short write with a nil error
 * is "partial copy", and EOF ends the copy after its bytes are written.
 *
 * The source is a file: ReadAt at offset i returns min(512, |data| - i)
 * bytes, with EOF when that is less than the buffer, except at the offsets
 * where the read fails for reasons not modelled. The destination is a file
 * whose WriteAt overwrites (and, past its end, extends) its contents, except
 * at the offsets its fault map names.
 */
module OffsetCopy {
  import opened Wrappers

  const BLOCKSIZE: nat := 512

  datatype WriteResult = Full | Short(count: nat) | WriteFailure(count: nat, msg: string)

  datatype CopyResult = CopyOk | ReadError(msg: string) | PartialCopy | WriteError(msg: string)

  function Accepted(w: WriteResult, n: nat): (r: nat)
    ensures r <= n
    ensures w.Full? ==> r == n
  {
    match w
    case Full => n
    case Short(k) => if k < n then k else n
    case WriteFailure(k, _) => if k < n then k else n
  }

  /** `contents` with `p` written at offset `off`; a gap before `off` reads as zeros. */
  function WriteAtOffset(contents: seq<bv8>, p: seq<bv8>, off: nat): (r: seq<bv8>)
    ensures |r| == if off + |p| > |contents| then off + |p| else |contents|
    ensures r[off..off + |p|] == p
    ensures off <= |contents| ==> r[..off] == contents[..off]
    ensures off + |p| <= |contents| ==> r[off + |p|..] == contents[off + |p|..]
  {
    var head := if off <= |contents| then contents[..off] else contents + seq(off - |contents|, _ => 0);
    var tail := if off + |p| <= |contents| then contents[off + |p|..] else [];
    head + p + tail
  }

  /** The bytes ReadAt returns at offset i of a file holding `data`. */
  function Block(data: seq<bv8>, i: nat): (r: seq<bv8>)
    requires i <= |data|
    ensures |r| <= BLOCKSIZE && i + |r| <= |data| && r == data[i..i + |r|]
    ensures |r| < BLOCKSIZE ==> i + |r| == |data|
  {
    if |data| - i < BLOCKSIZE then data[i..] else data[i..i + BLOCKSIZE]
  }

  /** The source file, with the offsets at which ReadAt fails and the error it gives there. */
  datatype Source = Source(data: seq<bv8>, failures: map<nat, string>)

  /**
   * CopyStream from offset i on, as a function of the two files: the result
   * and the destination's contents afterwards.
   */
  function CopyFrom(src: Source, dest: seq<bv8>, faults: map<nat, WriteResult>, i: nat): (r: (CopyResult, seq<bv8>))
    requires i <= |src.data|
    decreases |src.data| - i
  {
    if i in src.failures then (ReadError(src.failures[i]), dest)
    else
      var p := Block(src.data, i);
      var w := if i in faults then faults[i] else Full;
      var dn := Accepted(w, |p|);
      var dest' := WriteAtOffset(dest, p[..dn], i);
      if w.WriteFailure? then (WriteError(w.msg), dest')
      else if dn != |p| then (PartialCopy, dest')
      else if |p| < BLOCKSIZE then (CopyOk, dest')
      else CopyFrom(src, dest', faults, i + |p|)
  }

  /** A file opened for ReadAt. */
  class FileReaderAt {
    const src: Source

    constructor (s: Source)
      ensures src == s
    {
      src := s;
    }

    /** ReadAt(buff, off): the block at `off` into the start of `buff`, EOF when it is short. */
    method ReadAt(buff: array<bv8>, off: nat) returns (n: nat, err: Option<string>, eof: bool)
      requires buff.Length == BLOCKSIZE && off <= |src.data|
      modifies buff
      ensures off in src.failures ==> n == 0 && err == Some(src.failures[off]) && !eof
      ensures off !in src.failures ==>
        err.None? && n == |Block(src.data, off)| && buff[..n] == Block(src.data, off) && (eof <==> n < BLOCKSIZE)
    {
      if off in src.failures {
        return 0, Some(src.failures[off]), false;
      }
      var p := Block(src.data, off);
      n := |p|;
      var j := 0;
      while j < n
        invariant 0 <= j <= n
        invariant forall k :: 0 <= k < j ==> buff[k] == p[k]
      {
        buff[j] := p[j];
        j := j + 1;
      }
      assert buff[..n] == p;
      err, eof := None, n < BLOCKSIZE;
    }
  }

  /** A file opened for WriteAt. */
  class FileWriterAt {
    var contents: seq<bv8>
    const faults: map<nat, WriteResult>

    constructor (initial: seq<bv8>, f: map<nat, WriteResult>)
      ensures contents == initial && faults == f
    {
      contents, faults := initial, f;
    }

    method WriteAt(p: seq<bv8>, off: nat) returns (dn: nat, err: Option<string>)
      modifies this
      ensures var w := if off in faults then faults[off] else Full;
        dn == Accepted(w, |p|) && contents == WriteAtOffset(old(contents), p[..dn], off) &&
        (err.Some? <==> w.WriteFailure?) && (w.WriteFailure? ==> err == Some(w.msg))
    {
      var w := if off in faults then faults[off] else Full;
      dn := Accepted(w, |p|);
      contents := WriteAtOffset(contents, p[..dn], off);
      err := if w.WriteFailure? then Some(w.msg) else None;
    }
  }

  /** CopyStream: the loop over offsets, through one 512-byte buffer. */
  method CopyStream(src: FileReaderAt, dest: FileWriterAt) returns (result: CopyResult)
    modifies dest
    ensures (result, dest.contents) == CopyFrom(src.src, old(dest.contents), dest.faults, 0)
  {
    var buff := new bv8[BLOCKSIZE];
    var i: nat := 0;
    while true
      invariant i <= |src.src.data|
      invariant CopyFrom(src.src, dest.contents, dest.faults, i) == CopyFrom(src.src, old(dest.contents), dest.faults, 0)
      decreases |src.src.data| - i
    {
      var n, errr, eof := src.ReadAt(buff, i);
      if errr.Some? {
        return ReadError(errr.value);
      }
      var dn, errw := dest.WriteAt(buff[..n], i);
      if errw.Some? || dn != n {
        if errw.None? {
          return PartialCopy;
        }
        return WriteError(errw.value);
      }
      if eof {
        return CopyOk;
      }
      i := i + n;
    }
  }

  /** Each pass writes at the offset it read from, and the offset moves on by what was read. */
  lemma {:induction false} CopyWritesSource(src: Source, dest: seq<bv8>, faults: map<nat, WriteResult>, i: nat)
    requires i <= |src.data| && i <= |dest| && src.failures == map[] && faults == map[]
    requires dest[..i] == src.data[..i]
    ensures CopyFrom(src, dest, faults, i).0 == CopyOk
    ensures var d := CopyFrom(src, dest, faults, i).1;
      |d| >= |src.data| && d[..|src.data|] == src.data && (|dest| <= |src.data| ==> |d| == |src.data|)
    decreases |src.data| - i
  {
    var p := Block(src.data, i);
    var dest' := WriteAtOffset(dest, p, i);
    assert p[..|p|] == p;
    assert dest'[..i + |p|] == src.data[..i + |p|] by {
      assert dest'[..i] == dest[..i];
      assert dest'[i..i + |p|] == p;
      assert dest'[..i + |p|] == dest'[..i] + dest'[i..i + |p|];
      assert src.data[..i + |p|] == src.data[..i] + src.data[i..i + |p|];
    }
    if |p| < BLOCKSIZE {
      assert i + |p| == |src.data|;
    } else {
      CopyWritesSource(src, dest', faults, i + |p|);
    }
  }

  /** Copying a file into an empty one, with no failures, makes the destination equal to the source. */
  lemma CopyIntoEmpty(data: seq<bv8>)
    ensures CopyFrom(Source(data, map[]), [], map[], 0) == (CopyOk, data)
  {
    CopyWritesSource(Source(data, map[]), [], map[], 0);
    var d := CopyFrom(Source(data, map[]), [], map[], 0).1;
    assert d == d[..|data|];
  }

  /** A read error is returned as it is, before anything is written at that offset. */
  lemma ReadErrorUnwrapped(src: Source, dest: seq<bv8>, faults: map<nat, WriteResult>, i: nat)
    requires i <= |src.data| && i in src.failures
    ensures CopyFrom(src, dest, faults, i) == (ReadError(src.failures[i]), dest)
  {
  }

  /** A short write with a nil error is "partial copy". */
  lemma ShortWriteIsPartial(src: Source, dest: seq<bv8>, faults: map<nat, WriteResult>, i: nat)
    requires i <= |src.data| && i !in src.failures && i in faults && faults[i].Short?
    requires faults[i].count < |Block(src.data, i)|
    ensures CopyFrom(src, dest, faults, i).0 == PartialCopy
  {
  }

  // ----- CopyFile -----

  datatype Files = Files(contents: map<string, seq<bv8>>, unreadable: set<string>, uncreatable: set<string>)

  datatype FileError = OpenFailed(path: string) | CopyFailed(cause: CopyResult)

  /**
   * CopyFile(from, to): open `from` read-only, create (truncate) `to`, copy.
   * Copying a file onto itself reads the truncated file and leaves it empty.
   */
  method CopyFile(fs: Files, from: string, to: string, faults: map<nat, WriteResult>) returns (fs': Files, err: Option<FileError>)
    ensures from !in fs.contents || from in fs.unreadable ==> fs' == fs && err == Some(OpenFailed(from))
    ensures from in fs.contents && from !in fs.unreadable && to in fs.uncreatable ==> fs' == fs && err == Some(OpenFailed(to))
    ensures from in fs.contents && from !in fs.unreadable && to !in fs.uncreatable ==>
      var source := if from == to then [] else fs.contents[from];
      var copied := CopyFrom(Source(source, map[]), [], faults, 0);
      fs' == fs.(contents := fs.contents[to := copied.1]) &&
      (err.None? <==> copied.0 == CopyOk) && (err.Some? ==> err == Some(CopyFailed(copied.0)))
  {
    if from !in fs.contents || from in fs.unreadable {
      return fs, Some(OpenFailed(from));
    }
    if to in fs.uncreatable {
      return fs, Some(OpenFailed(to));
    }
    var source := if from == to then [] else fs.contents[from];
    var src := new FileReaderAt(Source(source, map[]));
    var dest := new FileWriterAt([], faults);
    var result := CopyStream(src, dest);
    fs' := fs.(contents := fs.contents[to := dest.contents]);
    err := if result == CopyOk then None else Some(CopyFailed(result));
  }
}
