/**
 * Text helpers shared by the Go and C parts: ASCII case mapping (the inputs
 * the source lower- or upper-cases are ASCII identifiers), decimal and
 * hexadecimal numerals as `fmt` prints them, and `strconv.ParseUint`.
 */
module Text {
  import opened Wrappers

  const UINT64_MAX: nat := 0xFFFF_FFFF_FFFF_FFFF

  function LowerChar(c: char): char
  {
    if 'A' <= c <= 'Z' then (c as int + 32) as char else c
  }

  function UpperChar(c: char): char
  {
    if 'a' <= c <= 'z' then (c as int - 32) as char else c
  }

  /** strings.ToLower on ASCII text. */
  function ToLower(s: string): (r: string)
    ensures |r| == |s|
    ensures forall i :: 0 <= i < |s| ==> r[i] == LowerChar(s[i])
  {
    if s == [] then [] else [LowerChar(s[0])] + ToLower(s[1..])
  }

  /** strings.ToUpper on ASCII text. */
  function ToUpper(s: string): (r: string)
    ensures |r| == |s|
    ensures forall i :: 0 <= i < |s| ==> r[i] == UpperChar(s[i])
  {
    if s == [] then [] else [UpperChar(s[0])] + ToUpper(s[1..])
  }

  predicate HasNoUpper(s: string)
  {
    forall i :: 0 <= i < |s| ==> !('A' <= s[i] <= 'Z')
  }

  /** Lower-casing leaves no upper-case letter behind and is idempotent. */
  lemma ToLowerIdempotent(s: string)
    ensures HasNoUpper(ToLower(s))
    ensures ToLower(ToLower(s)) == ToLower(s)
  {
  }

  /** A string holding an upper-case letter is never the result of lower-casing. */
  lemma ToLowerNeverHasUpper(s: string, t: string)
    requires !HasNoUpper(t)
    ensures ToLower(s) != t
  {
    ToLowerIdempotent(s);
  }

  predicate HasPrefix(s: string, p: string)
  {
    |p| <= |s| && s[..|p|] == p
  }

  /** strings.ReplaceAll(s, [c], "") */
  function RemoveAll(s: string, c: char): (r: string)
    ensures c !in r
    ensures |r| <= |s|
  {
    if s == [] then [] else (if s[0] == c then [] else [s[0]]) + RemoveAll(s[1..], c)
  }

  lemma {:induction false} RemoveAllAppend(a: string, b: string, c: char)
    ensures RemoveAll(a + b, c) == RemoveAll(a, c) + RemoveAll(b, c)
    decreases |a|
  {
    if a != [] {
      assert (a + b)[1..] == a[1..] + b;
      RemoveAllAppend(a[1..], b, c);
    } else {
      assert a + b == b;
    }
  }

  lemma {:induction false} RemoveAllAbsent(s: string, c: char)
    requires c !in s
    ensures RemoveAll(s, c) == s
    decreases |s|
  {
    if s != [] {
      RemoveAllAbsent(s[1..], c);
    }
  }

  // ----- numerals -----

  function DigitChar(d: nat): (c: char)
    requires d < 16
  {
    if d < 10 then ('0' as int + d) as char else ('a' as int + d - 10) as char
  }

  /** The value of a digit character in any base up to 36, as strconv reads it (either case). */
  function DigitValue(c: char): Option<nat>
  {
    if '0' <= c <= '9' then Some(c as int - '0' as int)
    else if 'a' <= LowerChar(c) <= 'z' then Some(LowerChar(c) as int - 'a' as int + 10)
    else None
  }

  lemma DigitCharValue(d: nat)
    requires d < 16
    ensures DigitValue(DigitChar(d)) == Some(d)
  {
  }

  /** `n` written in `base` with lower-case digits and no leading zero, as %d and %x print it. */
  function Numeral(n: nat, base: nat): (r: string)
    requires base == 10 || base == 16
    ensures |r| >= 1
    decreases n
  {
    if n < base then [DigitChar(n)] else Numeral(n / base, base) + [DigitChar(n % base)]
  }

  function Decimal(n: nat): (r: string)
    ensures |r| >= 1
  {
    Numeral(n, 10)
  }

  function Hex(n: nat): (r: string)
    ensures |r| >= 1
  {
    Numeral(n, 16)
  }

  lemma {:induction false} NumeralDigits(n: nat, base: nat)
    requires base == 10 || base == 16
    ensures forall i :: 0 <= i < |Numeral(n, base)| ==>
      DigitValue(Numeral(n, base)[i]).Some? && DigitValue(Numeral(n, base)[i]).value < base
    decreases n
  {
    if n >= base {
      NumeralDigits(n / base, base);
      DigitCharValue(n % base);
    } else {
      DigitCharValue(n);
    }
  }

  lemma {:induction false} NumeralNoColon(n: nat, base: nat)
    requires base == 10 || base == 16
    ensures ':' !in Numeral(n, base)
    decreases n
  {
    if n >= base {
      NumeralNoColon(n / base, base);
    }
  }

  lemma {:induction false} NumeralNoLeadingZero(n: nat, base: nat)
    requires base == 10 || base == 16
    requires n > 0
    ensures Numeral(n, base)[0] != '0'
    decreases n
  {
    if n >= base {
      NumeralNoLeadingZero(n / base, base);
    }
  }

  // ----- strconv.ParseUint -----

  datatype NumError = ErrSyntax | ErrRange

  /**
   * The digit loop of strconv.ParseUint(s, base, 64) for base 10 or 16, scanning
   * left to right from accumulator `acc`: the first bad character is a syntax
   * error, the first digit that would overflow 64 bits a range error.
   */
  function ParseDigits(s: string, base: nat, acc: nat): (r: Result<nat, NumError>)
    requires base == 10 || base == 16
    requires acc <= UINT64_MAX
    ensures r.Ok? ==> acc <= r.value <= UINT64_MAX
    decreases |s|
  {
    if s == [] then Ok(acc)
    else
      var d := DigitValue(s[0]);
      if d.None? || d.value >= base then Err(ErrSyntax)
      else if acc >= UINT64_MAX / base + 1 then Err(ErrRange)
      else if acc * base + d.value > UINT64_MAX then Err(ErrRange)
      else ParseDigits(s[1..], base, acc * base + d.value)
  }

  /** strconv.ParseUint(s, base, 64): the empty string is a syntax error. */
  function ParseUint(s: string, base: nat): Result<nat, NumError>
    requires base == 10 || base == 16
  {
    if s == [] then Err(ErrSyntax) else ParseDigits(s, base, 0)
  }

  /** The value strconv.ParseUint returns beside its error: 0 on syntax errors, the maximum on range errors. */
  function ParseUintValue(r: Result<nat, NumError>): nat
  {
    match r
    case Ok(v) => v
    case Err(ErrSyntax) => 0
    case Err(ErrRange) => UINT64_MAX
  }

  lemma {:induction false} ParseDigitsAppend(a: string, b: string, base: nat, acc: nat)
    requires base == 10 || base == 16
    requires acc <= UINT64_MAX
    ensures ParseDigits(a + b, base, acc) ==
      (match ParseDigits(a, base, acc)
       case Ok(v) => ParseDigits(b, base, v)
       case Err(e) => Err(e))
    decreases |a|
  {
    if a == [] {
      assert a + b == b;
    } else {
      assert (a + b)[0] == a[0];
      assert (a + b)[1..] == a[1..] + b;
      var d := DigitValue(a[0]);
      if d.Some? && d.value < base && acc < UINT64_MAX / base + 1 && acc * base + d.value <= UINT64_MAX {
        ParseDigitsAppend(a[1..], b, base, acc * base + d.value);
      }
    }
  }

  /** Every numeral `Numeral` prints for a 64-bit value parses back to that value. */
  lemma {:induction false} ParseNumeral(n: nat, base: nat)
    requires base == 10 || base == 16
    requires n <= UINT64_MAX
    ensures ParseUint(Numeral(n, base), base) == Ok(n)
    decreases n
  {
    if n < base {
      DigitCharValue(n);
      var s := [DigitChar(n)];
      assert Numeral(n, base) == s;
      assert s[1..] == [];
      assert 0 * base + n == n;
      assert ParseDigits(s, base, 0) == ParseDigits([], base, n);
    } else {
      var q, r := n / base, n % base;
      assert n == q * base + r;
      ParseNumeral(q, base);
      ParseDigitsAppend(Numeral(q, base), [DigitChar(r)], base, 0);
      DigitCharValue(r);
      assert q < UINT64_MAX / base + 1;
      assert [DigitChar(r)][1..] == [];
    }
  }

  /** %d of a signed integer. */
  function SignedDecimal(n: int): (r: string)
    ensures |r| >= 1
  {
    if n < 0 then "-" + Decimal(-n) else Decimal(n)
  }

  lemma DigitCharInjective(a: nat, b: nat)
    requires a < 16 && b < 16 && DigitChar(a) == DigitChar(b)
    ensures a == b
  {
    DigitCharValue(a);
    DigitCharValue(b);
  }

  /** Numerals of any size are unambiguous. */
  lemma {:induction false} NumeralInjective(m: nat, n: nat, base: nat)
    requires base == 10 || base == 16
    requires Numeral(m, base) == Numeral(n, base)
    ensures m == n
    decreases m
  {
    var sm, sn := Numeral(m, base), Numeral(n, base);
    if m < base && n < base {
      DigitCharInjective(m, n);
    } else if m < base || n < base {
      assert false;
    } else {
      var pm, pn := Numeral(m / base, base), Numeral(n / base, base);
      assert sm == pm + [DigitChar(m % base)];
      assert sn == pn + [DigitChar(n % base)];
      assert sm[|sm| - 1] == DigitChar(m % base) && sn[|sn| - 1] == DigitChar(n % base);
      DigitCharInjective(m % base, n % base);
      assert pm == sm[..|sm| - 1] == sn[..|sn| - 1] == pn;
      NumeralInjective(m / base, n / base, base);
    }
  }

  /** Decimal numerals are unambiguous: equal numerals denote equal numbers. */
  lemma DecimalInjective(m: nat, n: nat)
    requires m <= UINT64_MAX && n <= UINT64_MAX
    requires Decimal(m) == Decimal(n)
    ensures m == n
  {
    ParseNumeral(m, 10);
    ParseNumeral(n, 10);
  }
}
