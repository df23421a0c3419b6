/**
 * The shared utilities of pkg/util/util.go: the MAC address type stored as
 * an integer column (GormValue turns "aa:bb:..." into the decimal of its hex
 * value, Scan turns the integer back into hex digits grouped by two), and
 * the ProgressReporter that counts the bytes read through it. The database
 * driver and the logger are not modelled.
 */
module Util {
  import opened Wrappers
  import opened Text

  newtype Int64 = x: int | -0x8000_0000_0000_0000 <= x < 0x8000_0000_0000_0000

  /** What the database hands to Scan. */
  datatype ScanValue = Int64Value(i: Int64) | OtherValue

  // ----- MacAddress.GormValue -----

  /**
   * GormValue: every ':' removed, the rest parsed as a base-16 uint64, and
   * the number printed in decimal. A parse failure is only logged, and the
   * value strconv returns with it (0, or the maximum on overflow) is printed.
   */
  function GormValue(address: string): (r: string)
    ensures ParseUint(RemoveAll(address, ':'), 16).Ok? ==> r == Decimal(ParseUint(RemoveAll(address, ':'), 16).value)
    ensures ParseUint(RemoveAll(address, ':'), 16) == Err(ErrSyntax) ==> r == "0"
  {
    Decimal(ParseUintValue(ParseUint(RemoveAll(address, ':'), 16)))
  }

  // ----- MacAddress.Scan -----

  /** %x of an int64: lower-case hex digits, with a minus sign for a negative value. */
  function HexOf(i: Int64): (r: string)
    ensures i >= 0 ==> r == Hex(i as nat)
    ensures i < 0 ==> r == "-" + Hex(-(i as int) as nat)
  {
    if i < 0 then "-" + Hex(-(i as int) as nat) else Hex(i as nat)
  }

  /** `s` with ':' put in front of the characters at even indices other than 0: pairs joined by colons. */
  function Grouped(s: string): string
  {
    if |s| <= 2 then s else s[..2] + ":" + Grouped(s[2..])
  }

  /** The separator Scan writes before the character at index i. */
  function SeparatorAt(i: nat): string
  {
    if i != 0 && i % 2 == 0 then ":" else ""
  }

  /** Grouping a string one character longer adds the separator for its index and the character. */
  lemma {:induction false} GroupedSnoc(t: string, c: char)
    ensures Grouped(t + [c]) == Grouped(t) + SeparatorAt(|t|) + [c]
    decreases |t|
  {
    var u := t + [c];
    if |t| > 2 {
      assert u[..2] == t[..2];
      assert u[2..] == t[2..] + [c];
      GroupedSnoc(t[2..], c);
      assert SeparatorAt(|t| - 2) == SeparatorAt(|t|);
      calc {
        Grouped(u);
        u[..2] + ":" + Grouped(u[2..]);
        t[..2] + ":" + (Grouped(t[2..]) + SeparatorAt(|t|) + [c]);
        (t[..2] + ":" + Grouped(t[2..])) + SeparatorAt(|t|) + [c];
      }
    } else if |t| == 2 {
      assert u[..2] == t && u[2..] == [c];
      assert Grouped(u) == t + ":" + [c];
    } else {
      assert Grouped(u) == u;
    }
  }

  /** Removing the colons from a grouped string gives back the string's own characters. */
  lemma {:induction false} GroupedUngroups(s: string)
    ensures RemoveAll(Grouped(s), ':') == RemoveAll(s, ':')
    decreases |s|
  {
    if |s| > 2 {
      GroupedUngroups(s[2..]);
      RemoveAllAppend(s[..2] + ":", Grouped(s[2..]), ':');
      RemoveAllAppend(s[..2], ":", ':');
      RemoveAllAppend(s[..2], s[2..], ':');
      assert s == s[..2] + s[2..];
    }
  }

  /** A MAC address as the model stores it. */
  class MacAddress {
    var address: string

    constructor (a: string)
      ensures address == a
    {
      address := a;
    }

    /**
     * Scan(v): anything but an int64 is an error and leaves the address as
     * it was; an int64 is printed with %x and its characters copied one by
     * one, a ':' going before each even index other than 0.
     */
    method Scan(v: ScanValue) returns (err: Option<string>)
      modifies this
      ensures v.OtherValue? ==> err == Some("cannot parse mac address") && address == old(address)
      ensures v.Int64Value? ==> err.None? && address == Grouped(HexOf(v.i))
    {
      if !v.Int64Value? {
        return Some("cannot parse mac address");
      }
      var builder: string := [];
      var num := HexOf(v.i);
      var i := 0;
      while i < |num|
        invariant 0 <= i <= |num|
        invariant builder == Grouped(num[..i])
      {
        GroupedSnoc(num[..i], num[i]);
        assert num[..i + 1] == num[..i] + [num[i]];
        if i != 0 && i % 2 == 0 {
          builder := builder + [':'];
        }
        builder := builder + [num[i]];
        i := i + 1;
      }
      assert num[..|num|] == num;
      address := builder;
      return None;
    }
  }

  /** Scan's output for a non-negative integer is its hex numeral once the colons are removed. */
  lemma ScanUngroups(i: Int64)
    requires i >= 0
    ensures RemoveAll(Grouped(HexOf(i)), ':') == Hex(i as nat)
  {
    GroupedUngroups(Hex(i as nat));
    NumeralNoColon(i as nat, 16);
    RemoveAllAbsent(Hex(i as nat), ':');
  }

  /** Storing what Scan produced from a non-negative integer gives that integer's decimal back. */
  lemma ScanThenGormValue(i: Int64)
    requires i >= 0
    ensures GormValue(Grouped(HexOf(i))) == Decimal(i as nat)
  {
    ScanUngroups(i);
    ParseNumeral(i as nat, 16);
  }

  /**
   * Scan never produces a leading zero except for the integer 0 itself, so a
   * MAC address whose first byte is below 0x10 ("0a:..") is not read back
   * as it was stored.
   */
  lemma LeadingZeroNotScanned(address: string, i: Int64)
    requires |address| >= 2 && address[0] == '0'
    ensures Grouped(HexOf(i)) != address
  {
    var h := HexOf(i);
    if i > 0 {
      NumeralNoLeadingZero(i as nat, 16);
    }
    assert Grouped(h)[0] == h[0];
    if i == 0 {
      assert h == "0";
    }
  }

  // ----- ProgressReporter -----

  datatype ReadError = NoError | EOF | Failure(msg: string)

  /** One result of the wrapped reader's Read. */
  datatype ReadStep = ReadStep(n: nat, err: ReadError)

  /** The bytes counted and the EOF flag after the wrapped reader returned `steps`, in order. */
  datatype Tally = Tally(sent: nat, atEOF: bool)

  function Progress(steps: seq<ReadStep>): Tally
  {
    if |steps| == 0 then Tally(0, false)
    else
      var p := Progress(steps[..|steps| - 1]);
      var last := steps[|steps| - 1];
      Tally(p.sent + last.n, p.atEOF || last.err == EOF)
  }

  /** The counts of two runs of reads add up, and EOF, once seen, stays seen. */
  lemma {:induction false} ProgressAppend(a: seq<ReadStep>, b: seq<ReadStep>)
    ensures Progress(a + b).sent == Progress(a).sent + Progress(b).sent
    ensures Progress(a + b).atEOF == (Progress(a).atEOF || Progress(b).atEOF)
    decreases |b|
  {
    if |b| == 0 {
      assert a + b == a;
    } else {
      var b' := b[..|b| - 1];
      assert (a + b)[..|a + b| - 1] == a + b';
      ProgressAppend(a, b');
    }
  }

  /** atEOF holds exactly when some read returned EOF. */
  lemma {:induction false} ProgressEof(steps: seq<ReadStep>)
    ensures Progress(steps).atEOF <==> exists k :: 0 <= k < |steps| && steps[k].err == EOF
  {
    if |steps| > 0 {
      var front := steps[..|steps| - 1];
      ProgressEof(front);
      assert forall k :: 0 <= k < |front| ==> front[k] == steps[k];
    }
  }

  /**
   * A reader that reports its progress. The wrapped reader is the script of
   * results it still has to return; an exhausted one returns (0, EOF).
   */
  class ProgressReporter {
    var pending: seq<ReadStep>
    var sent: int
    var atEOF: bool
    ghost var done: seq<ReadStep>

    constructor (steps: seq<ReadStep>)
      ensures pending == steps && sent == 0 && !atEOF && done == []
    {
      pending, sent, atEOF, done := steps, 0, false, [];
    }

    ghost predicate Valid()
      reads this
    {
      (sent, atEOF) == (Progress(done).sent as int, Progress(done).atEOF)
    }

    /** Read(p): the wrapped reader's (n, err), unchanged; `sent` grows by n and EOF sets atEOF. */
    method Read() returns (n: nat, err: ReadError)
      requires Valid()
      modifies this
      ensures Valid()
      ensures old(pending) == [] ==> n == 0 && err == EOF && pending == []
      ensures old(pending) != [] ==> ReadStep(n, err) == old(pending)[0] && pending == old(pending)[1..]
      ensures sent == old(sent) + n && atEOF == (old(atEOF) || err == EOF)
      ensures done == old(done) + [ReadStep(n, err)]
    {
      var step := if pending == [] then ReadStep(0, EOF) else pending[0];
      if pending != [] {
        pending := pending[1..];
      }
      n, err := step.n, step.err;
      sent := sent + n;
      if err == EOF {
        atEOF := true;
      }
      done := done + [step];
      assert done[..|done| - 1] == old(done);
    }
  }
}
