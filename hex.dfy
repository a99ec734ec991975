/** Hexadecimal digits: the lower-case encoding of `encoding/hex`, the
    upper-case digits of URL percent-escapes, and the reading of a digit in
    either case that undoes both. */
module Hex {
  import opened Wrappers
  import opened GoStrings

  /** The digit for a value below 16 in Go's `hextable`, "0123456789abcdef". */
  function LowerDigit(n: nat): (c: Byte)
    requires n < 16
  {
    if n < 10 then ('0' as int + n) as char else ('a' as int + n - 10) as char
  }

  /** The digit for a value below 16 in net/url's "0123456789ABCDEF". */
  function UpperDigit(n: nat): (c: Byte)
    requires n < 16
  {
    if n < 10 then ('0' as int + n) as char else ('A' as int + n - 10) as char
  }

  predicate IsLowerHex(c: Byte)
  {
    '0' <= c <= '9' || 'a' <= c <= 'f'
  }

  /** The value of a hexadecimal digit of either case, as Go's `unhex` and
      `fromHexChar` read it; None for any other byte. */
  function DigitValue(c: Byte): (r: Option<nat>)
    ensures r.Some? ==> r.value < 16
  {
    if '0' <= c <= '9' then Some(c as int - '0' as int)
    else if 'a' <= c <= 'f' then Some(c as int - 'a' as int + 10)
    else if 'A' <= c <= 'F' then Some(c as int - 'A' as int + 10)
    else None
  }

  lemma LowerDigitValue(n: nat)
    requires n < 16
    ensures IsLowerHex(LowerDigit(n)) && DigitValue(LowerDigit(n)) == Some(n)
  {
  }

  lemma UpperDigitValue(n: nat)
    requires n < 16
    ensures DigitValue(UpperDigit(n)) == Some(n)
  {
  }

  /** The byte whose high and low nibbles are `hi` and `lo`. */
  function FromNibbles(hi: nat, lo: nat): (b: Byte)
    requires hi < 16 && lo < 16
    ensures b as int / 16 == hi && b as int % 16 == lo
  {
    (hi * 16 + lo) as char
  }

  /** `hex.EncodeToString(b)`: every byte becomes two lower-case digits, the
      high nibble first. */
  function Encode(b: GoString): (r: GoString)
    ensures |r| == 2 * |b|
    ensures forall i | 0 <= i < |r| :: IsLowerHex(r[i])
  {
    if b == [] then []
    else
      LowerDigitValue(b[0] as int / 16);
      LowerDigitValue(b[0] as int % 16);
      [LowerDigit(b[0] as int / 16), LowerDigit(b[0] as int % 16)] + Encode(b[1..])
  }

  /** `hex.DecodeString(s)`: pairs of digits of either case back to bytes;
      None for an odd length or a byte that is not a digit. */
  function Decode(s: GoString): (r: Option<GoString>)
    decreases |s|
  {
    if |s| == 0 then Some([])
    else if |s| == 1 then None
    else
      match (DigitValue(s[0]), DigitValue(s[1]), Decode(s[2..]))
      case (Some(hi), Some(lo), Some(rest)) => Some([FromNibbles(hi, lo)] + rest)
      case _ => None
  }

  /** Decoding the encoding gives the bytes back. */
  lemma {:induction false} DecodeEncode(b: GoString)
    ensures Decode(Encode(b)) == Some(b)
  {
    if b != [] {
      var e := Encode(b);
      LowerDigitValue(b[0] as int / 16);
      LowerDigitValue(b[0] as int % 16);
      assert e[2..] == Encode(b[1..]);
      DecodeEncode(b[1..]);
      assert FromNibbles(b[0] as int / 16, b[0] as int % 16) == b[0];
      assert [b[0]] + b[1..] == b;
    }
  }
}
