/**
 * Text rendering used by the client: decimal rendering of integers (the `%d`
 * verb of Go's fmt) with its inverse, and the byte length Go's `len` gives
 * for a string (UTF-8 encoding of its characters).
 */
module Format {
  import opened Wrappers

  const Digits: string := "0123456789"

  predicate IsDigit(c: char) {
    '0' <= c <= '9'
  }

  /** Decimal digits of a natural number, most significant first, no leading zeros. */
  function NatDigits(n: nat): (s: string)
    ensures |s| > 0
    ensures forall i :: 0 <= i < |s| ==> IsDigit(s[i])
    decreases n
  {
    if n < 10 then [Digits[n]] else NatDigits(n / 10) + [Digits[n % 10]]
  }

  /** What `%d` prints for an int: an optional minus sign and the digits. */
  function Decimal(n: int): (s: string)
    ensures |s| > 0
    ensures (s[0] == '-') == (n < 0)
  {
    if n < 0 then "-" + NatDigits(-n) else NatDigits(n)
  }

  /** Value of a non-empty digit string, read most significant digit first. */
  function ParseNat(s: string): Option<nat>
    decreases |s|
  {
    if |s| == 0 || !IsDigit(s[|s| - 1]) then None
    else
      var d := (s[|s| - 1] as int) - ('0' as int);
      if |s| == 1 then Some(d)
      else match ParseNat(s[..|s| - 1])
        case None => None
        case Some(h) => Some(10 * h + d)
  }

  /** Inverse of Decimal: an optional minus sign followed by digits. */
  function ParseDecimal(s: string): Option<int> {
    var negative := |s| > 0 && s[0] == '-';
    var magnitude := ParseNat(if negative then s[1..] else s);
    if magnitude.None? then None
    else if negative then Some(-(magnitude.value as int))
    else Some(magnitude.value as int)
  }

  lemma {:induction false} NatDigitsRoundTrip(n: nat)
    ensures ParseNat(NatDigits(n)) == Some(n)
    decreases n
  {
    var s := NatDigits(n);
    if n >= 10 {
      var h := NatDigits(n / 10);
      assert s[..|s| - 1] == h;
      NatDigitsRoundTrip(n / 10);
    }
  }

  /** Decimal rendering loses nothing: the integer can be read back. */
  lemma DecimalRoundTrip(n: int)
    ensures ParseDecimal(Decimal(n)) == Some(n)
  {
    var s := Decimal(n);
    if n < 0 {
      assert s[0] == '-' && s[1..] == NatDigits(-n);
      NatDigitsRoundTrip(-n);
      assert ParseNat(s[1..]) == Some(-n);
    } else {
      assert s == NatDigits(n) && IsDigit(s[0]);
      NatDigitsRoundTrip(n);
      assert ParseNat(s) == Some(n);
    }
  }

  /** Distinct integers render as distinct text. */
  lemma DecimalInjective(a: int, b: int)
    requires Decimal(a) == Decimal(b)
    ensures a == b
  {
    DecimalRoundTrip(a);
    DecimalRoundTrip(b);
  }

  /** Number of bytes in the UTF-8 encoding of one character. */
  function CharBytes(c: char): (n: nat)
    ensures 1 <= n <= 4
  {
    if c as int < 0x80 then 1
    else if c as int < 0x800 then 2
    else if c as int < 0x1_0000 then 3
    else 4
  }

  /** Go's `len` of a string: the length of its UTF-8 encoding. */
  function ByteLength(s: string): (n: nat)
    ensures |s| <= n <= 4 * |s|
  {
    if |s| == 0 then 0 else CharBytes(s[0]) + ByteLength(s[1..])
  }

  /** For text made only of ASCII characters, bytes and characters coincide. */
  lemma {:induction false} AsciiByteLength(s: string)
    requires forall i :: 0 <= i < |s| ==> s[i] as int < 0x80
    ensures ByteLength(s) == |s|
    decreases |s|
  {
    if |s| > 0 {
      AsciiByteLength(s[1..]);
    }
  }
}
