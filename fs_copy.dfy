/**
 * The block copy of the shared Go packages (pkg/fs/fs.go): CopyStream reads
 * from an io.Reader into one 1500-byte buffer and writes what each read
 * returned. A read error other than EOF or ErrUnexpectedEOF aborts before
 * anything of that read is written; a failed or short write aborts; EOF
 * ends the copy after the bytes that came with it are written.
 *
 * A reader is a script of the results its Read calls return; once the
 * script is used up it returns (0, EOF), as a file at its end does. A writer
 * takes every byte unless its fault script says otherwise.
 */
module FsCopy {
  import opened Wrappers

  const BLOCKSIZE: nat := 1500

  datatype ReadErr = NoErr | EOF | UnexpectedEOF | ReadFailure(msg: string)

  /** What one Read call returns: the bytes placed at the start of the buffer, and the error. */
  datatype Chunk = Chunk(data: seq<bv8>, err: ReadErr)

  /** What one Write call does: take everything, take only `count` bytes with a nil error, or fail. */
  datatype WriteResult = Full | Short(count: nat) | WriteFailure(count: nat, msg: string)

  datatype CopyResult = CopyOk | ErrorReading(cause: string) | PartialCopy | ErrorWriting(cause: string)

  /** The number of bytes a write of `n` bytes takes. */
  function Accepted(w: WriteResult, n: nat): (r: nat)
    ensures r <= n
    ensures w.Full? ==> r == n
  {
    match w
    case Full => n
    case Short(k) => if k < n then k else n
    case WriteFailure(k, _) => if k < n then k else n
  }

  /** How one pass of the loop body ends. */
  datatype Round = Stop(result: CopyResult, written: seq<bv8>) | Continue(written: seq<bv8>)

  /** One pass of the loop body: a read that returned `c`, then a write that behaved as `w`. */
  function RoundOf(c: Chunk, w: WriteResult): (r: Round)
    ensures c.err.ReadFailure? ==> r == Stop(ErrorReading(c.err.msg), [])
    ensures !c.err.ReadFailure? && w.WriteFailure? ==> r.Stop? && r.result == ErrorWriting(w.msg)
    ensures r.Continue? <==> !c.err.ReadFailure? && c.err != EOF && !w.WriteFailure? && Accepted(w, |c.data|) == |c.data|
    ensures r.Continue? ==> r.written == c.data
    ensures r.Stop? && r.result == CopyOk <==> c.err == EOF && !w.WriteFailure? && Accepted(w, |c.data|) == |c.data|
    ensures r.Stop? && r.result == CopyOk ==> r.written == c.data
    ensures r.written <= c.data
  {
    if c.err.ReadFailure? then Stop(ErrorReading(c.err.msg), [])
    else
      var dn := Accepted(w, |c.data|);
      if w.WriteFailure? then Stop(ErrorWriting(w.msg), c.data[..dn])
      else if dn != |c.data| then Stop(PartialCopy, c.data[..dn])
      else if c.err == EOF then Stop(CopyOk, c.data)
      else Continue(c.data)
  }

  function NextWrite(faults: seq<WriteResult>): WriteResult
  {
    if |faults| == 0 then Full else faults[0]
  }

  function LaterWrites(faults: seq<WriteResult>): seq<WriteResult>
  {
    if |faults| == 0 then [] else faults[1..]
  }

  /** Everything the reader would return, in order. */
  function AllData(chunks: seq<Chunk>): seq<bv8>
  {
    if |chunks| == 0 then [] else chunks[0].data + AllData(chunks[1..])
  }

  /**
   * CopyStream as a function of the reader's and the writer's scripts: the
   * result and the bytes the writer took. What was written is always a
   * prefix of what the reader returned.
   */
  function Copy(chunks: seq<Chunk>, faults: seq<WriteResult>): (r: (CopyResult, seq<bv8>))
    ensures r.1 <= AllData(chunks)
    decreases |chunks|
  {
    if |chunks| == 0 then
      var end := RoundOf(Chunk([], EOF), NextWrite(faults));
      (end.result, [])
    else
      match RoundOf(chunks[0], NextWrite(faults))
      case Stop(result, written) => (result, written)
      case Continue(written) =>
        var rest := Copy(chunks[1..], LaterWrites(faults));
        (rest.0, written + rest.1)
  }

  /** Every Read returns at most a buffer's worth. */
  predicate FitIn(chunks: seq<Chunk>, size: nat)
  {
    forall c :: c in chunks ==> |c.data| <= size
  }

  /** A reader that returns the results of a script, one per call. */
  class ScriptReader {
    var chunks: seq<Chunk>

    constructor (script: seq<Chunk>)
      ensures chunks == script
    {
      chunks := script;
    }

    /** Read(buff): the next result, its bytes placed at the start of `buff`. */
    method Read(buff: array<bv8>) returns (n: nat, err: ReadErr)
      requires FitIn(chunks, buff.Length)
      modifies this, buff
      ensures FitIn(chunks, buff.Length)
      ensures |old(chunks)| == 0 ==> n == 0 && err == EOF && chunks == []
      ensures |old(chunks)| > 0 ==>
        n == |old(chunks)[0].data| && err == old(chunks)[0].err && chunks == old(chunks)[1..]
      ensures n <= buff.Length && buff[..n] == (if |old(chunks)| == 0 then [] else old(chunks)[0].data)
    {
      if |chunks| == 0 {
        return 0, EOF;
      }
      var c, rest := chunks[0], chunks[1..];
      assert c in chunks && forall d :: d in rest ==> d in chunks;
      n, err := |c.data|, c.err;
      var i := 0;
      while i < n
        invariant 0 <= i <= n
        invariant forall j :: 0 <= j < i ==> buff[j] == c.data[j]
      {
        buff[i] := c.data[i];
        i := i + 1;
      }
      assert buff[..n] == c.data;
      chunks := rest;
    }
  }

  /** A writer that appends what it takes and records the length of every Write. */
  class SinkWriter {
    var written: seq<bv8>
    var faults: seq<WriteResult>
    var sizes: seq<nat>

    constructor (initial: seq<bv8>, script: seq<WriteResult>)
      ensures written == initial && faults == script && sizes == []
    {
      written, faults, sizes := initial, script, [];
    }

    method Write(p: seq<bv8>) returns (dn: nat, err: Option<string>)
      modifies this
      ensures var w := NextWrite(old(faults));
        dn == Accepted(w, |p|) && written == old(written) + p[..dn] &&
        (err.Some? <==> w.WriteFailure?) && (w.WriteFailure? ==> err == Some(w.msg))
      ensures faults == LaterWrites(old(faults)) && sizes == old(sizes) + [|p|]
    {
      var w := NextWrite(faults);
      dn := Accepted(w, |p|);
      written := written + p[..dn];
      err := if w.WriteFailure? then Some(w.msg) else None;
      faults := LaterWrites(faults);
      sizes := sizes + [|p|];
    }
  }

  /**
   * One pass of CopyStream's loop: read into the buffer, check the read
   * error, write what was read, check the write.
   */
  method CopyRound(src: ScriptReader, dest: SinkWriter, buff: array<bv8>) returns (r: Round)
    requires buff.Length == BLOCKSIZE && FitIn(src.chunks, BLOCKSIZE)
    modifies src, dest, buff
    ensures FitIn(src.chunks, BLOCKSIZE)
    ensures r == RoundOf(if |old(src.chunks)| == 0 then Chunk([], EOF) else old(src.chunks)[0], NextWrite(old(dest.faults)))
    ensures src.chunks == (if |old(src.chunks)| == 0 then [] else old(src.chunks)[1..])
    ensures dest.written == old(dest.written) + r.written
    ensures dest.faults == (if r.Stop? && r.result.ErrorReading? then old(dest.faults) else LaterWrites(old(dest.faults)))
    ensures |old(dest.sizes)| <= |dest.sizes| <= |old(dest.sizes)| + 1 && dest.sizes[..|old(dest.sizes)|] == old(dest.sizes)
    ensures forall k :: |old(dest.sizes)| <= k < |dest.sizes| ==> dest.sizes[k] <= BLOCKSIZE
  {
    ghost var c := if |src.chunks| == 0 then Chunk([], EOF) else src.chunks[0];
    var n, errr := src.Read(buff);
    if errr.ReadFailure? {
      return Stop(ErrorReading(errr.msg), []);
    }
    var dn, errw := dest.Write(buff[..n]);
    if errw.Some? || dn != n {
      if errw.None? {
        return Stop(PartialCopy, buff[..dn]);
      }
      return Stop(ErrorWriting(errw.value), buff[..dn]);
    }
    if errr == EOF {
      return Stop(CopyOk, buff[..n]);
    }
    r := Continue(buff[..n]);
  }

  /**
   * CopyStream: the copy Copy describes, written through one buffer of
   * BLOCKSIZE bytes, so no Write is longer than BLOCKSIZE.
   */
  method CopyStream(src: ScriptReader, dest: SinkWriter) returns (result: CopyResult)
    requires FitIn(src.chunks, BLOCKSIZE)
    modifies src, dest
    ensures result == Copy(old(src.chunks), old(dest.faults)).0
    ensures dest.written == old(dest.written) + Copy(old(src.chunks), old(dest.faults)).1
    ensures forall k :: |old(dest.sizes)| <= k < |dest.sizes| ==> dest.sizes[k] <= BLOCKSIZE
  {
    var buff := new bv8[BLOCKSIZE];
    ghost var total := Copy(src.chunks, dest.faults);
    while true
      invariant FitIn(src.chunks, BLOCKSIZE)
      invariant total.0 == Copy(src.chunks, dest.faults).0
      invariant old(dest.written) + total.1 == dest.written + Copy(src.chunks, dest.faults).1
      invariant |old(dest.sizes)| <= |dest.sizes| && dest.sizes[..|old(dest.sizes)|] == old(dest.sizes)
      invariant forall k :: |old(dest.sizes)| <= k < |dest.sizes| ==> dest.sizes[k] <= BLOCKSIZE
      decreases |src.chunks|
    {
      ghost var chunks, faults, written, sizes := src.chunks, dest.faults, dest.written, dest.sizes;
      var r := CopyRound(src, dest, buff);
      CopyUnfold(chunks, faults);
      if r.Stop? {
        return r.result;
      }
      assert dest.written + Copy(src.chunks, dest.faults).1 == written + Copy(chunks, faults).1;
    }
  }

  /** Copy taken one pass of the loop at a time. */
  lemma CopyUnfold(chunks: seq<Chunk>, faults: seq<WriteResult>)
    ensures var r := RoundOf(if |chunks| == 0 then Chunk([], EOF) else chunks[0], NextWrite(faults));
      (r.Stop? ==> Copy(chunks, faults) == (r.result, r.written)) &&
      (r.Continue? ==>
         |chunks| > 0 &&
         Copy(chunks, faults) == (Copy(chunks[1..], LaterWrites(faults)).0, r.written + Copy(chunks[1..], LaterWrites(faults)).1))
  {
  }

  // ----- reading a file -----

  /** The reads of an *os.File holding `bytes`: full buffers with a nil error, then (0, EOF). */
  function FileChunks(bytes: seq<bv8>, size: nat): (r: seq<Chunk>)
    requires size > 0
    ensures FitIn(r, size)
    ensures forall c :: c in r ==> c.err == NoErr
    decreases |bytes|
  {
    if |bytes| == 0 then []
    else if |bytes| <= size then [Chunk(bytes, NoErr)]
    else [Chunk(bytes[..size], NoErr)] + FileChunks(bytes[size..], size)
  }

  /** A clean chunk, with a writer that takes everything, is written whole and the copy goes on. */
  lemma CleanChunkStep(c: Chunk, rest: seq<Chunk>)
    requires c.err == NoErr
    ensures Copy([c] + rest, []) == (Copy(rest, []).0, c.data + Copy(rest, []).1)
  {
    var chunks := [c] + rest;
    assert chunks[0] == c && chunks[1..] == rest;
    assert RoundOf(c, NextWrite([])) == Continue(c.data);
  }

  /** A file no longer than the buffer is read in one clean chunk and copied whole. */
  lemma CopyFileLast(bytes: seq<bv8>, size: nat)
    requires 0 < |bytes| <= size
    ensures Copy(FileChunks(bytes, size), []) == (CopyOk, bytes)
  {
    assert FileChunks(bytes, size) == [Chunk(bytes, NoErr)] + [];
    CleanChunkStep(Chunk(bytes, NoErr), []);
    assert Copy([], []) == (CopyOk, []);
    assert bytes + [] == bytes;
  }

  /** A longer file is copied one full buffer first, then the rest. */
  lemma CopyFileStep(bytes: seq<bv8>, size: nat)
    requires 0 < size < |bytes|
    ensures var rest := Copy(FileChunks(bytes[size..], size), []);
      Copy(FileChunks(bytes, size), []) == (rest.0, bytes[..size] + rest.1)
  {
    assert FileChunks(bytes, size) == [Chunk(bytes[..size], NoErr)] + FileChunks(bytes[size..], size);
    CleanChunkStep(Chunk(bytes[..size], NoErr), FileChunks(bytes[size..], size));
  }

  /** A file copied to a writer that takes everything arrives byte for byte, whatever its length. */
  lemma {:induction false} CopyFileExact(bytes: seq<bv8>, size: nat)
    requires size > 0
    ensures Copy(FileChunks(bytes, size), []) == (CopyOk, bytes)
    decreases |bytes|
  {
    if |bytes| == 0 {
      assert FileChunks(bytes, size) == [];
    } else if |bytes| <= size {
      CopyFileLast(bytes, size);
    } else {
      CopyFileStep(bytes, size);
      CopyFileExact(bytes[size..], size);
      assert bytes == bytes[..size] + bytes[size..];
    }
  }

  /** A reader whose reads all succeed, to a writer that takes everything, is copied completely. */
  lemma {:induction false} CopyClean(chunks: seq<Chunk>)
    requires forall c :: c in chunks ==> c.err == NoErr || c.err == UnexpectedEOF
    ensures Copy(chunks, []) == (CopyOk, AllData(chunks))
    decreases |chunks|
  {
    if |chunks| > 0 {
      assert chunks[0] in chunks;
      assert forall c :: c in chunks[1..] ==> c in chunks;
      CopyClean(chunks[1..]);
    }
  }

  /** A failing read stops the copy with nothing of its own written. */
  lemma ReadFailureFirst(c: Chunk, later: seq<Chunk>, faults: seq<WriteResult>)
    requires c.err.ReadFailure?
    ensures Copy([c] + later, faults) == (ErrorReading(c.err.msg), [])
  {
  }

  /** A short write with a nil error is "partial copy". */
  lemma ShortWriteIsPartial(c: Chunk, later: seq<Chunk>, k: nat, rest: seq<WriteResult>)
    requires !c.err.ReadFailure? && k < |c.data|
    ensures Copy([c] + later, [Short(k)] + rest) == (PartialCopy, c.data[..k])
  {
  }

  // ----- CopyFile -----

  /** The files CopyFile sees: contents by path, and the paths it may not open or create. */
  datatype Files = Files(contents: map<string, seq<bv8>>, unreadable: set<string>, uncreatable: set<string>)

  datatype FileError = OpenFailed(path: string) | CopyFailed(cause: CopyResult)

  /**
   * CopyFile(from, to): open `from` read-only, create (truncate) `to`, copy.
   * Creating `to` truncates it before anything is read, so copying a file
   * onto itself leaves it empty.
   */
  method CopyFile(fs: Files, from: string, to: string, faults: seq<WriteResult>) returns (fs': Files, err: Option<FileError>)
    ensures from !in fs.contents || from in fs.unreadable ==> fs' == fs && err == Some(OpenFailed(from))
    ensures from in fs.contents && from !in fs.unreadable && to in fs.uncreatable ==> fs' == fs && err == Some(OpenFailed(to))
    ensures from in fs.contents && from !in fs.unreadable && to !in fs.uncreatable ==>
      var source := if from == to then [] else fs.contents[from];
      var copied := Copy(FileChunks(source, BLOCKSIZE), faults);
      fs' == fs.(contents := fs.contents[to := copied.1]) &&
      (err.None? <==> copied.0 == CopyOk) && (err.Some? ==> err == Some(CopyFailed(copied.0)))
  {
    if from !in fs.contents || from in fs.unreadable {
      return fs, Some(OpenFailed(from));
    }
    if to in fs.uncreatable {
      return fs, Some(OpenFailed(to));
    }
    var source := if from == to then [] else fs.contents[from];
    var src := new ScriptReader(FileChunks(source, BLOCKSIZE));
    var dest := new SinkWriter([], faults);
    ghost var copied := Copy(FileChunks(source, BLOCKSIZE), faults);
    var result := CopyStream(src, dest);
    assert dest.written == [] + copied.1 == copied.1;
    fs' := fs.(contents := fs.contents[to := dest.written]);
    err := if result == CopyOk then None else Some(CopyFailed(result));
  }

  /** Copying one file to another, as the tests do at 12, 1500 and 1501 bytes, gives an exact copy. */
  lemma CopyFileCopies(fs: Files, from: string, to: string)
    requires from in fs.contents && from !in fs.unreadable && to !in fs.uncreatable && from != to
    ensures Copy(FileChunks(fs.contents[from], BLOCKSIZE), []) == (CopyOk, fs.contents[from])
  {
    CopyFileExact(fs.contents[from], BLOCKSIZE);
  }
}
