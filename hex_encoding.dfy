/**
 Raw transaction bytes and their text form. The bundle carries every raw
 transaction as `HexBytes.hex()` renders it: "0x" followed by two lower-case
 hexadecimal digits per byte. `FromHex` is the reading a relay applies to get
 the bytes back; the round trip is what makes "the opportunity's raw bytes
 pass through unchanged" a statement about the bytes and not only the text.
 */
module HexEncoding {
  import opened Wrappers

  newtype byte = x: int | 0 <= x < 256

  type Bytes = seq<byte>

  predicate IsLowerHexDigit(c: char) {
    '0' <= c <= '9' || 'a' <= c <= 'f'
  }

  predicate IsHexDigit(c: char) {
    IsLowerHexDigit(c) || 'A' <= c <= 'F'
  }

  /** The value of a hexadecimal digit of either case. */
  function DigitValue(c: char): (r: Option<nat>)
    ensures r.Some? <==> IsHexDigit(c)
    ensures r.Some? ==> r.value < 16
  {
    if '0' <= c <= '9' then Some(c as int - '0' as int)
    else if 'a' <= c <= 'f' then Some(c as int - 'a' as int + 10)
    else if 'A' <= c <= 'F' then Some(c as int - 'A' as int + 10)
    else None
  }

  /** The lower-case digit for a value below 16; reading it back gives the value. */
  function Digit(n: nat): (c: char)
    requires n < 16
    ensures IsLowerHexDigit(c)
    ensures DigitValue(c) == Some(n)
  {
    if n < 10 then ('0' as int + n) as char else ('a' as int + n - 10) as char
  }

  /** Two lower-case digits per byte, high nibble first. */
  function EncodeDigits(b: Bytes): (s: string)
    ensures |s| == 2 * |b|
    ensures forall i :: 0 <= i < |s| ==> IsLowerHexDigit(s[i])
  {
    if b == [] then ""
    else [Digit(b[0] as int / 16), Digit(b[0] as int % 16)] + EncodeDigits(b[1..])
  }

  /** Reads pairs of digits of either case back into bytes; fails on an odd length or a non-digit. */
  function DecodeDigits(s: string): (r: Option<Bytes>)
    ensures r.Some? ==> |s| == 2 * |r.value|
  {
    if |s| == 0 then Some([])
    else if |s| == 1 then None
    else
      match (DigitValue(s[0]), DigitValue(s[1]), DecodeDigits(s[2..]))
      case (Some(hi), Some(lo), Some(rest)) => Some([(hi * 16 + lo) as byte] + rest)
      case _ => None
  }

  lemma {:induction false} DigitsRoundTrip(b: Bytes)
    ensures DecodeDigits(EncodeDigits(b)) == Some(b)
  {
    if b != [] {
      var s := EncodeDigits(b);
      var x := b[0] as int;
      assert s[2..] == EncodeDigits(b[1..]);
      DigitsRoundTrip(b[1..]);
      assert (x / 16) * 16 + x % 16 == x;
      assert [b[0]] + b[1..] == b;
    }
  }

  /** `HexBytes.hex()`: the "0x" prefix and the lower-case digits. */
  function ToHex(b: Bytes): (s: string)
    ensures |s| == 2 + 2 * |b|
    ensures s[..2] == "0x"
    ensures forall i :: 2 <= i < |s| ==> IsLowerHexDigit(s[i])
  {
    "0x" + EncodeDigits(b)
  }

  /** The inverse reading: a "0x"-prefixed digit string back to its bytes. */
  function FromHex(s: string): (r: Option<Bytes>)
    ensures r.Some? ==> |s| == 2 + 2 * |r.value|
  {
    if |s| >= 2 && s[..2] == "0x" then DecodeDigits(s[2..]) else None
  }

  lemma HexRoundTrip(b: Bytes)
    ensures FromHex(ToHex(b)) == Some(b)
  {
    assert ToHex(b)[2..] == EncodeDigits(b);
    DigitsRoundTrip(b);
  }

  /** Distinct byte strings never share a text form. */
  lemma ToHexInjective(a: Bytes, b: Bytes)
    ensures ToHex(a) == ToHex(b) <==> a == b
  {
    HexRoundTrip(a);
    HexRoundTrip(b);
  }
}
