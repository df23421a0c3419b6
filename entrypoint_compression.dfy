/**
 * The integer-enum compression dispatch of the management OS
 * (management_os/entrypoint/compression.go): None passes the stream through,
 * ZSTD wraps it in a zstd reader or a compressing pipe, and any other value
 * is refused. The codec is the symbolic one of the Compression module.
 */
module EntrypointCompression {
  import opened Wrappers
  import opened DiskModel
  import C = Compression

  /** Decompress: the reader itself for None, a zstd reader for ZSTD, an error otherwise. */
  function Decompress(reader: C.Reader, image: DiskImage): (r: Result<C.Reader, string>)
    ensures r.Ok? <==> image.compression in {COMPRESSION_NONE, COMPRESSION_ZSTD}
    ensures image.compression == COMPRESSION_NONE ==> r.value == reader
    ensures image.compression == COMPRESSION_ZSTD ==> r.value == C.Unpacking(reader, C.Zstd)
    ensures r.Err? ==> r.error == C.UNKNOWN_STRATEGY
  {
    if image.compression == COMPRESSION_NONE then Ok(reader)
    else if image.compression == COMPRESSION_ZSTD then Ok(C.Unpacking(reader, C.Zstd))
    else Err(C.UNKNOWN_STRATEGY)
  }

  /** Compress: the reader itself for None, a zstd-compressing pipe for ZSTD, an error otherwise. */
  function Compress(reader: C.Reader, image: DiskImage): (r: Result<C.Reader, string>)
    ensures r.Ok? <==> image.compression in {COMPRESSION_NONE, COMPRESSION_ZSTD}
    ensures image.compression == COMPRESSION_NONE ==> r.value == reader
    ensures image.compression == COMPRESSION_ZSTD ==> r.value == C.Packing(reader, C.Zstd)
    ensures r.Err? ==> r.error == C.UNKNOWN_STRATEGY
  {
    if image.compression == COMPRESSION_NONE then Ok(reader)
    else if image.compression == COMPRESSION_ZSTD then
      Ok(C.Packing(reader, C.Zstd))
    else Err(C.UNKNOWN_STRATEGY)
  }

  /** For every strategy Compress accepts, decompressing with the same strategy gives the original stream back. */
  lemma RoundTrip(reader: C.Reader, image: DiskImage)
    ensures Compress(reader, image).Ok? ==> Decompress(Compress(reader, image).value, image) == Ok(reader)
    ensures Compress(reader, image).Err? <==> Decompress(reader, image).Err?
  {
  }

  /** The enum values None and ZSTD behave as the names "none" and "zstd" do in the string dispatch. */
  lemma AgreesWithNamedStrategies(reader: C.Reader, image: DiskImage)
    requires image.compression in {COMPRESSION_NONE, COMPRESSION_ZSTD}
    ensures var name := if image.compression == COMPRESSION_NONE then C.STRATEGY_NONE else C.STRATEGY_ZSTD;
      Decompress(reader, image) == C.Decompress(reader, name) &&
      Compress(reader, image) == C.Compress(reader, name)
  {
    assert C.Browbeat(C.STRATEGY_NONE) == C.STRATEGY_NONE;
    assert C.Browbeat(C.STRATEGY_ZSTD) == C.STRATEGY_ZSTD;
  }
}
