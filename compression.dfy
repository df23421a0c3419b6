/**
 * Compression-strategy dispatch (pkg/compression/compression.go). The codecs
 * are symbolic: a stream's content is either plain bytes or another content
 * packed by a codec, a decompressing reader unpacks content packed by its
 * own codec, and anything else reads as garbage. No property of zstd or
 * gzip beyond that is assumed. The piping goroutines are not modelled.
 */
module Compression {
  import opened Wrappers
  import Text

  datatype Codec = Zstd | Gzip

  /**
   * What reading a stream or a device to its end yields. Overlaid(head, rest)
   * is a device whose first bytes were overwritten with `head` and that
   * still holds whatever of `rest` lies beyond them.
   */
  datatype Content = Bytes(data: seq<bv8>) | Packed(codec: Codec, inner: Content) | Garbled | Overlaid(head: Content, rest: Content)

  datatype Reader = Reader(content: Content)

  const STRATEGY_NONE: string := "none"
  const STRATEGY_ZSTD: string := "zstd"
  const STRATEGY_GZIP: string := "GZip"

  const UNKNOWN_STRATEGY: string := "unknown decompression strategy"

  /** A reader that decompresses what it reads with `codec`. */
  function Unpacking(r: Reader, codec: Codec): (u: Reader)
    ensures r.content.Packed? && r.content.codec == codec ==> u.content == r.content.inner
    ensures !(r.content.Packed? && r.content.codec == codec) ==> u.content == Garbled
  {
    match r.content
    case Packed(c, inner) => if c == codec then Reader(inner) else Reader(Garbled)
    case _ => Reader(Garbled)
  }

  /**
   * A device opened read-write without truncation, after `written` has been
   * copied onto it from offset 0: a device that held nothing holds what was
   * written; over bytes, the written bytes followed by the old bytes beyond
   * them; any other old contents are overlaid.
   */
  function Overwrite(prev: Content, written: Content): (r: Content)
    ensures prev == Bytes([]) ==> r == written
    ensures prev.Bytes? && written.Bytes? ==>
      r.Bytes? && |r.data| == (if |written.data| < |prev.data| then |prev.data| else |written.data|) &&
      r.data[..|written.data|] == written.data &&
      r.data[|written.data|..] == (if |written.data| < |prev.data| then prev.data[|written.data|..] else [])
    ensures !prev.Bytes? ==> r == Overlaid(written, prev)
  {
    if prev == Bytes([]) then written
    else if prev.Bytes? && written.Bytes? then
      if |written.data| < |prev.data| then Bytes(written.data + prev.data[|written.data|..]) else written
    else Overlaid(written, prev)
  }

  /** A write of bytes at least as long as one before it hides the earlier write completely. */
  lemma OverwriteLonger(prev: seq<bv8>, first: seq<bv8>, second: seq<bv8>)
    requires |first| <= |second|
    ensures Overwrite(Overwrite(Bytes(prev), Bytes(first)), Bytes(second)) == Overwrite(Bytes(prev), Bytes(second))
  {
    var once := Overwrite(Bytes(prev), Bytes(first));
    var a := Overwrite(once, Bytes(second));
    var b := Overwrite(Bytes(prev), Bytes(second));
    assert a.data == b.data by {
      assert |a.data| == |b.data|;
      forall i | 0 <= i < |a.data|
        ensures a.data[i] == b.data[i]
      {
        if i < |second| {
          assert a.data[i] == a.data[..|second|][i];
          assert b.data[i] == b.data[..|second|][i];
        } else {
          assert a.data[i] == a.data[|second|..][i - |second|];
          assert b.data[i] == b.data[|second|..][i - |second|];
          assert once.data[i] == once.data[|first|..][i - |first|];
        }
      }
    }
  }

  /** The pipe reader fed by a goroutine compressing `r` with `codec`. */
  function Packing(r: Reader, codec: Codec): Reader
  {
    Reader(Packed(codec, r.content))
  }

  /** browbeat: the strategy in lower case. */
  function Browbeat(strategy: string): (r: string)
    ensures Text.HasNoUpper(r)
  {
    Text.ToLowerIdempotent(strategy);
    Text.ToLower(strategy)
  }

  /** browbeat applied twice is browbeat applied once. */
  lemma BrowbeatIdempotent(strategy: string)
    ensures Browbeat(Browbeat(strategy)) == Browbeat(strategy)
  {
    Text.ToLowerIdempotent(strategy);
  }

  /** Decompress: "none" keeps the reader, "zstd" decompresses it, in any letter case; anything else is an error. */
  function Decompress(reader: Reader, strategy: string): (r: Result<Reader, string>)
    ensures Browbeat(strategy) == STRATEGY_NONE ==> r == Ok(reader)
    ensures Browbeat(strategy) == STRATEGY_ZSTD ==> r == Ok(Unpacking(reader, Zstd))
    ensures Browbeat(strategy) !in {STRATEGY_NONE, STRATEGY_ZSTD} ==> r == Err(UNKNOWN_STRATEGY)
  {
    var s := Browbeat(strategy);
    if s == STRATEGY_NONE then Ok(reader)
    else if s == STRATEGY_ZSTD then Ok(Unpacking(reader, Zstd))
    else Err(UNKNOWN_STRATEGY)
  }

  /**
   * Compress: "none" keeps the reader; the lowered strategy is compared with
   * "GZip" and then "zstd", which get a compressing pipe; anything else is
   * an error.
   */
  function Compress(reader: Reader, strategy: string): (r: Result<Reader, string>)
    ensures Browbeat(strategy) == STRATEGY_NONE ==> r == Ok(reader)
    ensures Browbeat(strategy) == STRATEGY_ZSTD ==> r == Ok(Packing(reader, Zstd))
    ensures Browbeat(strategy) !in {STRATEGY_NONE, STRATEGY_ZSTD} ==> r == Err(UNKNOWN_STRATEGY)
  {
    var s := Browbeat(strategy);
    assert s != STRATEGY_GZIP by {
      assert 'A' <= STRATEGY_GZIP[1] <= 'Z';
    }
    if s == STRATEGY_NONE then Ok(reader)
    else if s == STRATEGY_GZIP then Ok(Packing(reader, Gzip))
    else if s == STRATEGY_ZSTD then Ok(Packing(reader, Zstd))
    else Err(UNKNOWN_STRATEGY)
  }

  /**
   * Lower-casing can never give "GZip", so the GZip branch of Compress is
   * dead: no strategy compresses with gzip, and "GZip" itself is refused.
   */
  lemma GzipNeverSelected(reader: Reader, strategy: string)
    ensures Compress(reader, strategy).Ok? ==>
      (Compress(reader, strategy).value.content == reader.content ||
       Compress(reader, strategy).value.content == Packed(Zstd, reader.content))
    ensures Compress(reader, STRATEGY_GZIP) == Err(UNKNOWN_STRATEGY)
  {
    Text.ToLowerNeverHasUpper(strategy, STRATEGY_GZIP);
    assert !Text.HasNoUpper(STRATEGY_GZIP) by {
      assert 'A' <= STRATEGY_GZIP[1] <= 'Z';
    }
    assert Browbeat(STRATEGY_GZIP) == "gzip";
  }

  /** Compressing and then decompressing with zstd, under any letter case, reads the original content. */
  lemma ZstdRoundTrip(reader: Reader, s1: string, s2: string)
    requires Browbeat(s1) == STRATEGY_ZSTD && Browbeat(s2) == STRATEGY_ZSTD
    ensures Compress(reader, s1).Ok? && Decompress(Compress(reader, s1).value, s2) == Ok(reader)
  {
  }

  /** "none" on both sides is the identity. */
  lemma NoneRoundTrip(reader: Reader)
    ensures Decompress(Compress(reader, "None").value, "NONE") == Ok(reader)
  {
    assert Browbeat("None") == STRATEGY_NONE;
    assert Browbeat("NONE") == STRATEGY_NONE;
  }
}
