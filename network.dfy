/**
 * The shim's transfer helpers (utils/baas-init/network.c) over an abstract
 * curl handle. The handle is a record of the options set on it and of the
 * transfers performed; curl itself, the network and the transfer's bytes
 * are not modelled. The two write callbacks are modelled on their own:
 * write_buffer copies a chunk to the START of the caller's buffer, and
 * write_data hands it to fwrite.
 */
module Network {
  import opened Wrappers

  /** size_t is 64 bits wide: size * nmemb wraps around. */
  const SIZE_MOD: int := 0x1_0000_0000_0000_0000

  const ORIGIN_HEADER: string := "Origin: http://localhost:9090"
  const TYPE_HEADER: string := "Type: system"

  // ----- write_buffer -----

  /** realsize = size * nmemb in size_t arithmetic. */
  function RealSize(size: nat, nmemb: nat): (r: nat)
    ensures r < SIZE_MOD
    ensures size * nmemb < SIZE_MOD ==> r == size * nmemb
  {
    (size * nmemb) % SIZE_MOD
  }

  /** `buf` after `data` is copied over its first |data| bytes. */
  function Overwrite(buf: seq<bv8>, data: seq<bv8>): (r: seq<bv8>)
    requires |data| <= |buf|
    ensures |r| == |buf|
    ensures forall i :: 0 <= i < |data| ==> r[i] == data[i]
    ensures forall i :: |data| <= i < |buf| ==> r[i] == buf[i]
  {
    data + buf[|data|..]
  }

  /**
   * write_buffer(ptr, size, nmemb, buf): memcpy realsize bytes from ptr to the
   * start of buf and return realsize. There is no capacity check, so the
   * caller must make sure the chunk fits.
   */
  method WriteBuffer(ptr: seq<bv8>, size: nat, nmemb: nat, buf: array<bv8>) returns (realsize: nat)
    requires RealSize(size, nmemb) <= |ptr| && RealSize(size, nmemb) <= buf.Length
    modifies buf
    ensures realsize == RealSize(size, nmemb)
    ensures buf[..] == Overwrite(old(buf[..]), ptr[..realsize])
  {
    realsize := RealSize(size, nmemb);
    var i := 0;
    while i < realsize
      invariant 0 <= i <= realsize
      invariant forall j :: 0 <= j < i ==> buf[j] == ptr[j]
      invariant forall j :: i <= j < buf.Length ==> buf[j] == old(buf[j])
    {
      buf[i] := ptr[i];
      i := i + 1;
    }
    assert buf[..] == Overwrite(old(buf[..]), ptr[..realsize]);
  }

  /** A later chunk at least as long as an earlier one hides it completely: nothing is appended. */
  lemma OverwriteHides(buf: seq<bv8>, d1: seq<bv8>, d2: seq<bv8>)
    requires |d1| <= |d2| <= |buf|
    ensures Overwrite(Overwrite(buf, d1), d2) == Overwrite(buf, d2)
  {
    var a, b := Overwrite(Overwrite(buf, d1), d2), Overwrite(buf, d2);
    assert forall i :: 0 <= i < |buf| ==> a[i] == b[i];
  }

  /** A shorter later chunk leaves the tail of the earlier one in place after it. */
  lemma OverwriteShorter(buf: seq<bv8>, d1: seq<bv8>, d2: seq<bv8>)
    requires |d2| < |d1| <= |buf|
    ensures Overwrite(Overwrite(buf, d1), d2) == d2 + d1[|d2|..] + buf[|d1|..]
  {
    var a, b := Overwrite(Overwrite(buf, d1), d2), d2 + d1[|d2|..] + buf[|d1|..];
    assert |a| == |b|;
    forall i | 0 <= i < |buf|
      ensures a[i] == b[i]
    {
      if i < |d2| {
      } else if i < |d1| {
        assert b[i] == d1[i];
      } else {
        assert b[i] == buf[i];
      }
    }
  }

  // ----- write_data -----

  /** An open stdio stream: what it holds and how many more bytes it can take. */
  datatype Stream = Stream(contents: seq<bv8>, room: nat)

  /**
   * fwrite(ptr, size, nmemb, stream): the stream takes as many bytes as it has
   * room for, and the result counts the complete items among them.
   */
  function FWrite(s: Stream, ptr: seq<bv8>, size: nat, nmemb: nat): (r: (Stream, nat))
    requires size * nmemb <= |ptr|
    ensures r.1 <= nmemb
    ensures s.room >= size * nmemb ==> r.0.contents == s.contents + ptr[..size * nmemb]
    ensures size > 0 && s.room >= size * nmemb ==> r.1 == nmemb
    ensures s.contents <= r.0.contents && |r.0.contents| - |s.contents| <= s.room
    ensures size * r.1 <= |r.0.contents| - |s.contents|
  {
    if size == 0 || nmemb == 0 then (s, 0)
    else
      var taken := if s.room < size * nmemb then s.room else size * nmemb;
      (Stream(s.contents + ptr[..taken], s.room - taken), WholeItems(taken, size, nmemb))
  }

  /** The number of complete items of `size` bytes, out of `n`, among `bytes` bytes. */
  function WholeItems(bytes: nat, size: nat, n: nat): (r: nat)
    requires size > 0
    ensures r <= n && size * r <= bytes
    ensures size * n <= bytes ==> r == n
  {
    if n == 0 || size * n <= bytes then n else WholeItems(bytes, size, n - 1)
  }

  /** write_data: the chunk goes to the stream and fwrite's item count is the callback's result. */
  method WriteData(ptr: seq<bv8>, size: nat, nmemb: nat, stream: Stream) returns (s: Stream, written: nat)
    requires size * nmemb <= |ptr|
    ensures (s, written) == FWrite(stream, ptr, size, nmemb)
  {
    s, written := FWrite(stream, ptr, size, nmemb).0, FWrite(stream, ptr, size, nmemb).1;
  }

  // ----- the handle -----

  /** What a transfer writes into. */
  datatype Target = ToBuffer | ToStream

  /** The two write callbacks. */
  datatype Callback = WriteBufferCb | WriteDataCb

  /** One thing done to the curl handle. */
  datatype Event =
    | SetHeaders(headers: seq<string>)
    | SetWriteFunction(cb: Callback)
    | SetWriteData(target: Target)
    | SetUrl(url: string)
    | Perform

  /** The curl handle kept in the thread-local variable, as the record of what was done to it. */
  class Handle {
    var events: seq<Event>

    constructor ()
      ensures events == []
    {
      events := [];
    }

    /** network_add_standard_headers: build the header list by two appends and install it. */
    method AddStandardHeaders()
      modifies this
      ensures events == old(events) + [SetHeaders(StandardHeaders())]
    {
      var headers: seq<string> := [];
      headers := headers + [ORIGIN_HEADER];
      headers := headers + [TYPE_HEADER];
      assert headers == StandardHeaders();
      events := events + [SetHeaders(headers)];
    }

    /** network_set_uri. */
    method SetUri(uri: string)
      modifies this
      ensures events == old(events) + [SetUrl(uri)]
    {
      events := events + [SetUrl(uri)];
    }

    /** network_execute: headers first, then the callback and its target, then the transfer. */
    method Execute(target: Target, cb: Callback)
      modifies this
      ensures events == old(events) + ExecuteEvents(target, cb)
    {
      AddStandardHeaders();
      events := events + [SetWriteFunction(cb)];
      events := events + [SetWriteData(target)];
      events := events + [Perform];
    }
  }

  /** The standard request headers, in order. */
  function StandardHeaders(): (r: seq<string>)
    ensures |r| == 2 && r[0] == "Origin: http://localhost:9090" && r[1] == "Type: system"
  {
    [ORIGIN_HEADER, TYPE_HEADER]
  }

  function ExecuteEvents(target: Target, cb: Callback): seq<Event>
  {
    [SetHeaders(StandardHeaders()), SetWriteFunction(cb), SetWriteData(target), Perform]
  }

  /** How curl sees the handle: the last value set for each option. */
  datatype Options = Options(headers: Option<seq<string>>, cb: Option<Callback>, target: Option<Target>, url: Option<string>)

  function OptionsOf(events: seq<Event>): Options
  {
    if |events| == 0 then Options(None, None, None, None)
    else
      var o := OptionsOf(events[..|events| - 1]);
      match events[|events| - 1]
      case SetHeaders(h) => o.(headers := Some(h))
      case SetWriteFunction(cb) => o.(cb := Some(cb))
      case SetWriteData(t) => o.(target := Some(t))
      case SetUrl(u) => o.(url := Some(u))
      case Perform => o
  }

  /**
   * The options in force for the last transfer of a record, if there was one.
   */
  function LastTransfer(events: seq<Event>): (r: Option<Options>)
    ensures r.None? <==> Perform !in events
  {
    if |events| == 0 then None
    else if events[|events| - 1] == Perform then Some(OptionsOf(events[..|events| - 1]))
    else
      assert events == events[..|events| - 1] + [events[|events| - 1]];
      LastTransfer(events[..|events| - 1])
  }

  /**
   * Whatever was done to the handle before, the transfer network_execute
   * starts has the standard headers, the given callback and target, and the
   * URL last set by network_set_uri.
   */
  lemma {:induction false} ExecuteTransfer(before: seq<Event>, target: Target, cb: Callback)
    ensures LastTransfer(before + ExecuteEvents(target, cb)) ==
      Some(Options(Some(StandardHeaders()), Some(cb), Some(target), OptionsOf(before).url))
  {
    var b1 := before + [SetHeaders(StandardHeaders())];
    var b2 := b1 + [SetWriteFunction(cb)];
    var b3 := b2 + [SetWriteData(target)];
    assert b1[..|b1| - 1] == before && b2[..|b2| - 1] == b1 && b3[..|b3| - 1] == b2;
    assert OptionsOf(b1) == OptionsOf(before).(headers := Some(StandardHeaders()));
    assert OptionsOf(b2) == OptionsOf(before).(headers := Some(StandardHeaders()), cb := Some(cb));
    assert OptionsOf(b3) == OptionsOf(before).(headers := Some(StandardHeaders()), cb := Some(cb), target := Some(target));
    assert before + ExecuteEvents(target, cb) == b3 + [Perform];
    assert (b3 + [Perform])[..|b3|] == b3;
  }

  /** The URL network_set_uri installs is the one the next transfer uses. */
  lemma SetUriThenExecute(before: seq<Event>, uri: string, target: Target, cb: Callback)
    ensures LastTransfer(before + [SetUrl(uri)] + ExecuteEvents(target, cb)).value.url == Some(uri)
  {
    ExecuteTransfer(before + [SetUrl(uri)], target, cb);
    assert (before + [SetUrl(uri)])[..|before|] == before;
  }
}
