/**
 * The Get System Boot Options command for boot-option parameter 5, "boot
 * flags" (pkg/ipmi/bootdev.go), following section 28.13 of the IPMI v2.0
 * specification. The request is three selector bytes put in front of what
 * the serialise buffer already holds. The response decoder reads a header
 * of parameter version, valid bit and selector. For selector 5 it then
 * takes the five boot-flag data bytes apart bit field by bit field; any
 * other selector leaves the boot flags as they were.
 */
module IpmiBootDev {
  // ----- enumerations: the values the specification names -----

  const BOOT_DEVICE_NO_OVERRIDE: bv8 := 0
  const BOOT_DEVICE_FORCE_PXE: bv8 := 1
  const BOOT_DEVICE_FORCE_HDD: bv8 := 2
  const BOOT_DEVICE_FORCE_HDD_SAFE: bv8 := 3
  const BOOT_DEVICE_FORCE_DIAGNOSTICS: bv8 := 4
  const BOOT_DEVICE_FORCE_DVD: bv8 := 5
  const BOOT_DEVICE_FORCE_BIOS: bv8 := 6
  const BOOT_DEVICE_FORCE_REMOTE_FLOPPY: bv8 := 7
  const BOOT_DEVICE_FORCE_REMOTE_PRIMARY: bv8 := 9
  const BOOT_DEVICE_FORCE_REMOTE_DVD: bv8 := 8
  const BOOT_DEVICE_FORCE_REMOTE_HDD: bv8 := 11
  const BOOT_DEVICE_FORCE_FLOPPY: bv8 := 15

  const FIRMWARE_VERBOSITY_DEFAULT: bv8 := 0
  const FIRMWARE_VERBOSITY_QUIET: bv8 := 1
  const FIRMWARE_VERBOSITY_VERBOSE: bv8 := 2

  const CONSOLE_REDIRECTION_DEFAULT: bv8 := 0
  const CONSOLE_REDIRECTION_SUPPRESS: bv8 := 1
  const CONSOLE_REDIRECTION_ENABLED: bv8 := 2

  const BIOS_MUX_RECOMMENDED: bv8 := 0
  const BIOS_MUX_BMC: bv8 := 1
  const BIOS_MUX_SYSTEM: bv8 := 2

  /** The parameter selector of the boot flags. */
  const BOOT_FLAGS_SELECTOR: bv8 := 5

  /** The boot-flag fields, grouped by the data byte they come from. */
  datatype BootFlags = BootFlags(
    // data 1
    valid: bool, persistent: bool, uefi: bool,
    // data 2
    clearCmos: bool, lockKeyboard: bool, bootDevice: bv8, screenBlank: bool, lockOutResetButton: bool,
    // data 3
    lockOutPowerButton: bool, firmwareVerbosity: bv8, forceProgressEventTraps: bool, userPasswordBypass: bool,
    lockOutSleepButton: bool, consoleRedirectionControl: bv8,
    // data 4
    biosSharedModeOverride: bool, biosMuxControlOverride: bv8,
    // data 5
    deviceInstanceSelector: bv8)

  /** Bit `i` of `b` is set. */
  predicate Bit(b: bv8, i: nat)
    requires i < 8
  {
    b & (1 << i) != 0
  }

  // ----- the request -----

  datatype GetBootDevReq = GetBootDevReq(parameterSelector: bv8, setSelector: bv8, blockSelector: bv8)

  /** The bytes SerializeTo prepends. */
  function RequestBytes(g: GetBootDevReq): seq<bv8>
  {
    [g.parameterSelector, g.setSelector, g.blockSelector]
  }

  /** Reading a request back from the start of a buffer, as the BMC does. */
  function ParseRequest(bytes: seq<bv8>): (r: GetBootDevReq)
    requires |bytes| >= 3
  {
    GetBootDevReq(bytes[0], bytes[1], bytes[2])
  }

  /** A serialised request is read back as itself, whatever follows it. */
  lemma RequestRoundTrip(g: GetBootDevReq, rest: seq<bv8>)
    ensures |RequestBytes(g) + rest| >= 3 && ParseRequest(RequestBytes(g) + rest) == g
  {
  }

  /** A gopacket serialise buffer: its bytes, to be prepended to. */
  class SerializeBuffer {
    var bytes: seq<bv8>

    constructor (initial: seq<bv8>)
      ensures bytes == initial
    {
      bytes := initial;
    }

    /** PrependBytes(n): n fresh zero bytes in front; the default buffer never fails. */
    method PrependBytes(n: nat)
      modifies this
      ensures |bytes| == |old(bytes)| + n && bytes[n..] == old(bytes)
    {
      bytes := seq(n, _ => 0) + bytes;
    }

    method SetByte(i: nat, v: bv8)
      requires i < |bytes|
      modifies this
      ensures bytes == old(bytes)[i := v]
    {
      bytes := bytes[i := v];
    }
  }

  /** GetBootDevReq.SerializeTo: prepend three bytes and fill them with the selectors; the error is nil. */
  method SerializeTo(g: GetBootDevReq, b: SerializeBuffer)
    modifies b
    ensures b.bytes == RequestBytes(g) + old(b.bytes)
  {
    b.PrependBytes(3);
    b.SetByte(0, g.parameterSelector);
    b.SetByte(1, g.setSelector);
    b.SetByte(2, g.blockSelector);
    assert b.bytes == RequestBytes(g) + old(b.bytes);
  }

  // ----- the response -----

  /** The decoded fields of a response, including the layer's Contents and Payload. */
  datatype Rsp = Rsp(
    parameterNotSupported: bool, parameterVersion: bv8, parameterValid: bool, parameterSelector: bv8,
    bootFlags: BootFlags, contents: seq<bv8>, payload: seq<bv8>)

  /**
   * How a decode ends: nil; the "must be at least 3 bytes" error (with the
   * truncated feedback set); or an index-out-of-range panic, which the
   * boot-flags path hits on fewer than seven bytes.
   */
  datatype Outcome = Decoded | Truncated | IndexPanic

  function WithData1(f: BootFlags, b: bv8): BootFlags
  {
    f.(valid := Bit(b, 7), persistent := Bit(b, 6), uefi := Bit(b, 5))
  }

  function WithData2(f: BootFlags, b: bv8): BootFlags
  {
    f.(clearCmos := Bit(b, 7), bootDevice := (b & 0x3C) >> 2, screenBlank := Bit(b, 1), lockOutResetButton := Bit(b, 0))
  }

  function WithData3(f: BootFlags, b: bv8): BootFlags
  {
    f.(lockOutPowerButton := Bit(b, 7), firmwareVerbosity := (b & 0x60) >> 5, forceProgressEventTraps := Bit(b, 4),
       userPasswordBypass := Bit(b, 3), lockOutSleepButton := Bit(b, 2), consoleRedirectionControl := b & 0x03)
  }

  function WithData4(f: BootFlags, b: bv8): BootFlags
  {
    f.(biosSharedModeOverride := Bit(b, 3), biosMuxControlOverride := b & 0x03)
  }

  function WithData5(f: BootFlags, b: bv8): BootFlags
  {
    f.(deviceInstanceSelector := b & 0x1F)
  }

  /** The header fields, read from the first two bytes. */
  function WithHeader(g: Rsp, data: seq<bv8>): Rsp
    requires |data| >= 2
  {
    g.(parameterVersion := data[0], parameterValid := data[1] & 0x80 == 0, parameterSelector := data[1] & 0x7F)
  }

  /**
   * DecodeFromBytes as a function of the fields before the call. A panic
   * leaves the fields assigned before the failing index in place.
   */
  function Decode(g: Rsp, data: seq<bv8>): (Outcome, Rsp)
  {
    if |data| < 3 then (Truncated, g)
    else
      var h := WithHeader(g, data);
      if h.parameterSelector != BOOT_FLAGS_SELECTOR then (Decoded, h.(contents := data[..3], payload := data[3..]))
      else
        var (outcome, flags) := DecodeBootFlags(g.bootFlags, data);
        if outcome == IndexPanic then (IndexPanic, h.(bootFlags := flags))
        else (Decoded, h.(bootFlags := flags, contents := data[..3], payload := data[3..]))
  }

  /** The boot-flags case: data bytes 1 to 5 are data[2] to data[6], read in that order. */
  function DecodeBootFlags(f: BootFlags, data: seq<bv8>): (Outcome, BootFlags)
    requires |data| >= 3
  {
    var f1 := WithData1(f, data[2]);
    if |data| < 4 then (IndexPanic, f1)
    else
      var f2 := WithData2(f1, data[3]);
      if |data| < 5 then (IndexPanic, f2)
      else
        var f3 := WithData3(f2, data[4]);
        if |data| < 6 then (IndexPanic, f3)
        else
          var f4 := WithData4(f3, data[5]);
          if |data| < 7 then (IndexPanic, f4)
          else (Decoded, WithData5(f4, data[6]))
  }

  /** The response layer, whose DecodeFromBytes assigns its fields one after the other. */
  class GetBootDevRsp {
    var parameterNotSupported: bool
    var parameterVersion: bv8
    var parameterValid: bool
    var parameterSelector: bv8
    var bootFlags: BootFlags
    var contents: seq<bv8>
    var payload: seq<bv8>

    function Fields(): Rsp
      reads this
    {
      Rsp(parameterNotSupported, parameterVersion, parameterValid, parameterSelector, bootFlags, contents, payload)
    }

    constructor (flags: BootFlags)
      ensures Fields() == Rsp(false, 0, false, 0, flags, [], [])
    {
      parameterNotSupported, parameterVersion, parameterValid, parameterSelector := false, 0, false, 0;
      bootFlags, contents, payload := flags, [], [];
    }

    method DecodeFromBytes(data: seq<bv8>) returns (outcome: Outcome)
      modifies this
      ensures (outcome, Fields()) == Decode(old(Fields()), data)
    {
      if |data| < 3 {
        return Truncated;
      }
      parameterVersion := data[0];
      parameterValid := !(data[1] & 0x80 != 0);
      parameterSelector := data[1] & 0x7F;
      if parameterSelector == BOOT_FLAGS_SELECTOR {
        bootFlags := WithData1(bootFlags, data[2]);
        if |data| < 4 {
          return IndexPanic;
        }
        bootFlags := WithData2(bootFlags, data[3]);
        if |data| < 5 {
          return IndexPanic;
        }
        bootFlags := WithData3(bootFlags, data[4]);
        if |data| < 6 {
          return IndexPanic;
        }
        bootFlags := WithData4(bootFlags, data[5]);
        if |data| < 7 {
          return IndexPanic;
        }
        bootFlags := WithData5(bootFlags, data[6]);
      }
      contents := data[..3];
      payload := data[3..];
      outcome := Decoded;
    }
  }

  // ----- properties of the decoder -----

  /** Fewer than three bytes: the truncated error, and no field changes. */
  lemma ShortInput(g: Rsp, data: seq<bv8>)
    requires |data| < 3
    ensures Decode(g, data) == (Truncated, g)
  {
  }

  /** The header: version byte, valid iff bit 7 of the second byte is clear, selector its low seven bits. */
  lemma HeaderFields(g: Rsp, data: seq<bv8>)
    requires |data| >= 3
    ensures var r := Decode(g, data).1;
      r.parameterVersion == data[0] && (r.parameterValid <==> !Bit(data[1], 7)) &&
      r.parameterSelector == data[1] & 0x7F && r.parameterSelector < 0x80 &&
      r.parameterNotSupported == g.parameterNotSupported
  {
  }

  /** A decode ends in a panic exactly on the boot-flags selector with fewer than seven bytes. */
  lemma PanicsIff(g: Rsp, data: seq<bv8>)
    ensures Decode(g, data).0 == IndexPanic <==> 3 <= |data| < 7 && data[1] & 0x7F == BOOT_FLAGS_SELECTOR
    ensures Decode(g, data).0 == Truncated <==> |data| < 3
  {
  }

  /** After a successful decode the layer's contents and payload split the input after three bytes. */
  lemma ContentsAndPayload(g: Rsp, data: seq<bv8>)
    requires Decode(g, data).0 == Decoded
    ensures var r := Decode(g, data).1;
      |r.contents| == 3 && r.contents + r.payload == data
  {
    var r := Decode(g, data).1;
    assert r.contents == data[..3] && r.payload == data[3..];
  }

  /** Any other selector leaves the boot flags untouched and still decodes. */
  lemma OtherSelector(g: Rsp, data: seq<bv8>)
    requires |data| >= 3 && data[1] & 0x7F != BOOT_FLAGS_SELECTOR
    ensures Decode(g, data).0 == Decoded && Decode(g, data).1.bootFlags == g.bootFlags
  {
  }

  /** The boot flags read from data bytes 1 to 5. */
  lemma BootFlagBits(g: Rsp, data: seq<bv8>)
    requires |data| >= 7 && data[1] & 0x7F == BOOT_FLAGS_SELECTOR
    ensures Decode(g, data).0 == Decoded
    ensures var f := Decode(g, data).1.bootFlags;
      (f.valid <==> Bit(data[2], 7)) && (f.persistent <==> Bit(data[2], 6)) && (f.uefi <==> Bit(data[2], 5)) &&
      (f.clearCmos <==> Bit(data[3], 7)) && f.bootDevice == (data[3] & 0x3C) >> 2 && f.bootDevice < 16 &&
      (f.screenBlank <==> Bit(data[3], 1)) && (f.lockOutResetButton <==> Bit(data[3], 0)) &&
      f.lockKeyboard == g.bootFlags.lockKeyboard &&
      (f.lockOutPowerButton <==> Bit(data[4], 7)) && f.firmwareVerbosity == (data[4] & 0x60) >> 5 &&
      (f.forceProgressEventTraps <==> Bit(data[4], 4)) && (f.userPasswordBypass <==> Bit(data[4], 3)) &&
      (f.lockOutSleepButton <==> Bit(data[4], 2)) && f.consoleRedirectionControl == data[4] & 0x03 &&
      (f.biosSharedModeOverride <==> Bit(data[5], 3)) && f.biosMuxControlOverride == data[5] & 0x03 &&
      f.deviceInstanceSelector == data[6] & 0x1F
  {
  }

  // ----- an encoder for the boot-flag data bytes, after the specification -----

  function BitIf(b: bool, i: nat): bv8
    requires i < 8
  {
    if b then 1 << i else 0
  }

  /** Flags whose multi-bit fields fit their places in the data bytes. */
  predicate Encodable(f: BootFlags)
  {
    f.bootDevice < 16 && f.firmwareVerbosity < 4 && f.consoleRedirectionControl < 4 &&
    f.biosMuxControlOverride < 4 && f.deviceInstanceSelector < 32
  }

  /**
   * The five boot-flag data bytes as laid out in table 28-14 of the IPMI v2.0
   * specification; lock keyboard is bit 6 of data 2.
   */
  function EncodeBootFlags(f: BootFlags): (r: seq<bv8>)
    ensures |r| == 5
  {
    [BitIf(f.valid, 7) | BitIf(f.persistent, 6) | BitIf(f.uefi, 5),
     BitIf(f.clearCmos, 7) | BitIf(f.lockKeyboard, 6) | (f.bootDevice << 2) | BitIf(f.screenBlank, 1) | BitIf(f.lockOutResetButton, 0),
     BitIf(f.lockOutPowerButton, 7) | (f.firmwareVerbosity << 5) | BitIf(f.forceProgressEventTraps, 4) |
     BitIf(f.userPasswordBypass, 3) | BitIf(f.lockOutSleepButton, 2) | f.consoleRedirectionControl,
     BitIf(f.biosSharedModeOverride, 3) | f.biosMuxControlOverride,
     f.deviceInstanceSelector]
  }

  lemma Data1RoundTrip(f: BootFlags, g: BootFlags)
    ensures WithData1(g, EncodeBootFlags(f)[0]) == g.(valid := f.valid, persistent := f.persistent, uefi := f.uefi)
  {
  }

  lemma Data2RoundTrip(f: BootFlags, g: BootFlags)
    requires f.bootDevice < 16
    ensures WithData2(g, EncodeBootFlags(f)[1]) ==
      g.(clearCmos := f.clearCmos, bootDevice := f.bootDevice, screenBlank := f.screenBlank, lockOutResetButton := f.lockOutResetButton)
  {
  }

  lemma Data3RoundTrip(f: BootFlags, g: BootFlags)
    requires f.firmwareVerbosity < 4 && f.consoleRedirectionControl < 4
    ensures WithData3(g, EncodeBootFlags(f)[2]) ==
      g.(lockOutPowerButton := f.lockOutPowerButton, firmwareVerbosity := f.firmwareVerbosity,
         forceProgressEventTraps := f.forceProgressEventTraps, userPasswordBypass := f.userPasswordBypass,
         lockOutSleepButton := f.lockOutSleepButton, consoleRedirectionControl := f.consoleRedirectionControl)
  {
  }

  /**
   * Decoding a boot-flags response built by the encoder gives the flags back,
   * except lock keyboard, which the decoder never reads.
   */
  lemma BootFlagsRoundTrip(g: Rsp, version: bv8, f: BootFlags)
    requires Encodable(f)
    ensures var r := Decode(g, [version, BOOT_FLAGS_SELECTOR] + EncodeBootFlags(f));
      r.0 == Decoded && r.1.parameterValid && r.1.parameterVersion == version &&
      r.1.bootFlags == f.(lockKeyboard := g.bootFlags.lockKeyboard)
  {
    var e := EncodeBootFlags(f);
    var data := [version, BOOT_FLAGS_SELECTOR] + e;
    assert data[2] == e[0] && data[3] == e[1] && data[4] == e[2] && data[5] == e[3] && data[6] == e[4];
    Data1RoundTrip(f, g.bootFlags);
    var f1 := WithData1(g.bootFlags, e[0]);
    Data2RoundTrip(f, f1);
    var f2 := WithData2(f1, e[1]);
    Data3RoundTrip(f, f2);
    assert WithData5(WithData4(WithData3(f2, e[2]), e[3]), e[4]) == f.(lockKeyboard := g.bootFlags.lockKeyboard);
  }
}
