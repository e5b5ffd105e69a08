/**
 * Hex encoding of byte arrays, as used for authentication nonces and signatures:
 * `toHex` renders each byte with `Number.prototype.toString(16)` padded to two
 * characters, and `fromHex` fills a `Uint8Array` of `length / 2` bytes by applying
 * `parseInt(piece, 16)` to successive two-character pieces.
 */
module Hex {
  import opened Wrappers
  import Text

  /** A `Uint8Array` element. */
  type Byte = x: int | 0 <= x < 256

  const Digits: string := "0123456789abcdef"

  /** The lowercase digit for `d`, as `toString(16)` prints it. */
  function HexDigit(d: int): (c: char)
    requires 0 <= d < 16
    ensures IsLowerHex(c)
  {
    Digits[d]
  }

  predicate IsLowerHex(c: char) {
    '0' <= c <= '9' || 'a' <= c <= 'f'
  }

  /** The value of a hex digit in either case, as `parseInt` reads it. */
  function HexValue(c: char): Option<nat> {
    if '0' <= c <= '9' then Some(c as int - '0' as int)
    else if 'a' <= c <= 'f' then Some(c as int - 'a' as int + 10)
    else if 'A' <= c <= 'F' then Some(c as int - 'A' as int + 10)
    else None
  }

  lemma HexValueOfDigit(d: int)
    requires 0 <= d < 16
    ensures HexValue(HexDigit(d)) == Some(d)
  {
  }

  lemma HexDigitOfValue(c: char)
    requires IsLowerHex(c)
    ensures HexValue(c).Some? && 0 <= HexValue(c).value < 16 && HexDigit(HexValue(c).value) == c
  {
  }

  /** `n.toString(16)` for a non-negative integer: no leading zeros, "0" for zero. */
  function ToString16(n: nat): (r: string)
    ensures |r| >= 1
  {
    if n < 16 then [HexDigit(n)] else ToString16(n / 16) + [HexDigit(n % 16)]
  }

  /** `s.padStart(width, pad)`. */
  function PadStart(s: string, width: nat, pad: char): (r: string)
    ensures |r| == if |s| >= width then |s| else width
  {
    if |s| >= width then s else seq(width - |s|, _ => pad) + s
  }

  /** One byte of `toHex`. */
  function ByteToHex(b: Byte): string {
    PadStart(ToString16(b), 2, '0')
  }

  /** Every byte prints as exactly two lowercase digits, high nibble first. */
  lemma ByteToHexDigits(b: Byte)
    ensures ByteToHex(b) == [HexDigit(b / 16), HexDigit(b % 16)]
  {
    if b >= 16 {
      assert ToString16(b / 16) == [HexDigit(b / 16)];
    }
  }

  /** `toHex`. */
  function ToHex(bytes: seq<Byte>): (r: string)
    ensures |r| == 2 * |bytes|
    ensures forall i :: 0 <= i < |r| ==> IsLowerHex(r[i])
  {
    if |bytes| == 0 then ""
    else
      ByteToHexDigits(bytes[0]);
      ByteToHex(bytes[0]) + ToHex(bytes[1..])
  }

  /** Characters `2i` and `2i+1` of `toHex(bytes)` are the two digits of byte `i`. */
  lemma {:induction false} ToHexAt(bytes: seq<Byte>, i: nat)
    requires i < |bytes|
    ensures ToHex(bytes)[2 * i] == HexDigit(bytes[i] / 16) && ToHex(bytes)[2 * i + 1] == HexDigit(bytes[i] % 16)
  {
    ByteToHexDigits(bytes[0]);
    var rest := ToHex(bytes[1..]);
    assert ToHex(bytes) == [HexDigit(bytes[0] / 16), HexDigit(bytes[0] % 16)] + rest;
    if i > 0 {
      ToHexAt(bytes[1..], i - 1);
      assert bytes[1..][i - 1] == bytes[i];
      assert ToHex(bytes)[2 * i] == rest[2 * (i - 1)];
      assert ToHex(bytes)[2 * i + 1] == rest[2 * (i - 1) + 1];
    }
  }

  /** The longest prefix of `s` made of hex digits. */
  function LeadingHexDigits(s: string): (r: string)
    ensures r <= s
    ensures forall i :: 0 <= i < |r| ==> HexValue(r[i]).Some?
  {
    if |s| > 0 && HexValue(s[0]).Some? then [s[0]] + LeadingHexDigits(s[1..]) else ""
  }

  /** The number written by a string of hex digits. */
  function DigitsValue(ds: string): nat
    requires forall i :: 0 <= i < |ds| ==> HexValue(ds[i]).Some?
  {
    if |ds| == 0 then 0
    else
      DigitsValue(ds[..|ds| - 1]) * 16 + HexValue(ds[|ds| - 1]).value
  }

  /**
   * `parseInt(s, 16)`: leading whitespace skipped, an optional sign, an optional
   * `0x`/`0X` prefix, then the longest run of hex digits; `None` stands for `NaN`.
   * Exact for the short pieces `fromHex` passes (JavaScript numbers lose precision
   * beyond 2^53).
   */
  function ParseIntHex(s: string): Option<int> {
    var t := Text.TrimStart(s);
    var negative := |t| > 0 && t[0] == '-';
    var u := if |t| > 0 && (t[0] == '-' || t[0] == '+') then t[1..] else t;
    var v := if |u| >= 2 && u[0] == '0' && (u[1] == 'x' || u[1] == 'X') then u[2..] else u;
    var ds := LeadingHexDigits(v);
    var n: int := if ds == "" then 0 else DigitsValue(ds);
    if ds == "" then None else if negative then Some(-n) else Some(n)
  }

  /** Storing a number into a `Uint8Array`: `NaN` becomes 0, others are taken modulo 256. */
  function ToUint8(x: Option<int>): (b: Byte)
    ensures x.Some? && 0 <= x.value < 256 ==> b == x.value
  {
    match x
    case None => 0
    case Some(v) => v % 256
  }

  /** A two-character piece of hex digits parses to its value. */
  lemma ParsePair(c1: char, c2: char)
    requires HexValue(c1).Some? && HexValue(c2).Some? && c1 != '-' && c1 != '+'
    requires c2 != 'x' && c2 != 'X'
    ensures ParseIntHex([c1, c2]) == Some(HexValue(c1).value * 16 + HexValue(c2).value)
  {
    var s := [c1, c2];
    assert !Text.IsJsWhitespace(c1);
    assert Text.TrimStart(s) == s;
    assert LeadingHexDigits(s[1..][1..]) == "";
    assert LeadingHexDigits(s[1..]) == [c2];
    assert LeadingHexDigits(s) == s;
    assert s[..1] == [c1];
    assert DigitsValue([c1]) == HexValue(c1).value;
  }

  /** Byte `k` of `fromHex(hex)`: characters `2k` and `2k+1` parsed as one hex number. */
  function DecodeByte(hex: string, k: nat): Byte
    requires 2 * k + 2 <= |hex|
  {
    ToUint8(ParseIntHex(hex[2 * k..2 * k + 2]))
  }

  /** A piece of two hex digits decodes to the byte they write. */
  lemma DecodePair(hex: string, k: nat)
    requires 2 * k + 2 <= |hex|
    requires IsLowerHex(hex[2 * k]) && IsLowerHex(hex[2 * k + 1])
    ensures DecodeByte(hex, k) == HexValue(hex[2 * k]).value * 16 + HexValue(hex[2 * k + 1]).value
  {
    var c1, c2 := hex[2 * k], hex[2 * k + 1];
    assert hex[2 * k..2 * k + 2] == [c1, c2];
    ParsePair(c1, c2);
  }

  /** What `fromHex(hex)` returns: `|hex| / 2` bytes (the last character of an odd-length string is ignored). */
  function HexDecode(hex: string): (r: seq<Byte>)
    ensures |r| == |hex| / 2
    ensures forall k :: 0 <= k < |r| ==> r[k] == DecodeByte(hex, k)
  {
    seq(|hex| / 2, k requires 0 <= k < |hex| / 2 => DecodeByte(hex, k))
  }

  /** `fromHex`: the index-stepping loop over a zero-filled `Uint8Array`. */
  method FromHex(hex: string) returns (bytes: array<Byte>)
    ensures fresh(bytes)
    ensures bytes[..] == HexDecode(hex)
  {
    bytes := new Byte[|hex| / 2](_ => 0);
    var i := 0;
    ghost var j := 0;
    while i < |hex|
      invariant 0 <= i <= |hex| + 1 && i == 2 * j
      invariant forall k :: 0 <= k < bytes.Length && k < j ==> bytes[k] == DecodeByte(hex, k)
      invariant forall k :: j <= k < bytes.Length ==> bytes[k] == 0
    {
      StorePiece(bytes, hex, i, j);
      i, j := i + 2, j + 1;
    }
  }

  /**
   * One step of `fromHex`: `bytes[i / 2] = parseInt(hex.substring(i, i + 2), 16)`,
   * a write past the end of the array being dropped.
   */
  method StorePiece(bytes: array<Byte>, hex: string, i: nat, ghost j: nat)
    requires i == 2 * j && i < |hex| && bytes.Length == |hex| / 2
    modifies bytes
    ensures j < bytes.Length ==> bytes[..] == old(bytes[..])[j := DecodeByte(hex, j)]
    ensures j >= bytes.Length ==> bytes[..] == old(bytes[..])
  {
    var end := if i + 2 <= |hex| then i + 2 else |hex|;
    var piece := hex[i..end];
    assert i / 2 == j;
    if i / 2 < bytes.Length {
      assert 2 * (|hex| / 2) <= |hex|;
      assert piece == hex[2 * j..2 * j + 2];
      bytes[i / 2] := ToUint8(ParseIntHex(piece));
    }
  }

  /** The two digits `toHex` prints for `b` decode back to `b`. */
  lemma DecodeDigitsOfByte(h: string, k: nat, b: Byte)
    requires 2 * k + 2 <= |h|
    requires h[2 * k] == HexDigit(b / 16) && h[2 * k + 1] == HexDigit(b % 16)
    ensures DecodeByte(h, k) == b
  {
    HexValueOfDigit(b / 16);
    HexValueOfDigit(b % 16);
    DecodePair(h, k);
  }

  /** A string holding the two digits of each byte, in order, decodes to those bytes. */
  lemma DecodeOfDigits(h: string, bytes: seq<Byte>)
    requires |h| == 2 * |bytes|
    requires forall k :: 0 <= k < |bytes| ==> h[2 * k] == HexDigit(bytes[k] / 16) && h[2 * k + 1] == HexDigit(bytes[k] % 16)
    ensures HexDecode(h) == bytes
  {
    forall k | 0 <= k < |bytes|
      ensures HexDecode(h)[k] == bytes[k]
    {
      DecodeDigitsOfByte(h, k, bytes[k]);
    }
  }

  /** `fromHex(toHex(b)) == b`. */
  lemma {:induction false} DecodeEncode(bytes: seq<Byte>)
    ensures HexDecode(ToHex(bytes)) == bytes
  {
    var h := ToHex(bytes);
    forall k | 0 <= k < |bytes|
      ensures h[2 * k] == HexDigit(bytes[k] / 16) && h[2 * k + 1] == HexDigit(bytes[k] % 16)
    {
      ToHexAt(bytes, k);
    }
    DecodeOfDigits(h, bytes);
  }

  /** A byte sequence whose digits are those of `h`, pair by pair, encodes to `h`. */
  lemma {:induction false} EncodeOfDigits(bytes: seq<Byte>, h: string)
    requires |h| == 2 * |bytes|
    requires forall k :: 0 <= k < |bytes| ==> h[2 * k] == HexDigit(bytes[k] / 16) && h[2 * k + 1] == HexDigit(bytes[k] % 16)
    ensures ToHex(bytes) == h
  {
    if |bytes| > 0 {
      ByteToHexDigits(bytes[0]);
      var tail := h[2..];
      forall k | 0 <= k < |bytes| - 1
        ensures tail[2 * k] == HexDigit(bytes[1..][k] / 16) && tail[2 * k + 1] == HexDigit(bytes[1..][k] % 16)
      {
        assert tail[2 * k] == h[2 * (k + 1)] && tail[2 * k + 1] == h[2 * (k + 1) + 1];
      }
      EncodeOfDigits(bytes[1..], tail);
      assert h == [h[0], h[1]] + tail;
    }
  }

  /** Each pair of lowercase digits decodes to the byte whose digits they are. */
  lemma DecodedDigits(h: string, k: nat)
    requires 2 * k + 2 <= |h|
    requires IsLowerHex(h[2 * k]) && IsLowerHex(h[2 * k + 1])
    ensures h[2 * k] == HexDigit(DecodeByte(h, k) / 16) && h[2 * k + 1] == HexDigit(DecodeByte(h, k) % 16)
  {
    HexDigitOfValue(h[2 * k]);
    HexDigitOfValue(h[2 * k + 1]);
    var hi, lo := HexValue(h[2 * k]).value, HexValue(h[2 * k + 1]).value;
    DecodePair(h, k);
    var b := DecodeByte(h, k);
    assert b == hi * 16 + lo;
    DivMod16(hi, lo);
    assert b / 16 == hi && b % 16 == lo;
  }

  lemma DivMod16(hi: nat, lo: nat)
    requires hi < 16 && lo < 16
    ensures (hi * 16 + lo) / 16 == hi && (hi * 16 + lo) % 16 == lo
  {
  }

  /** `toHex(fromHex(h)) == h` for an even-length lowercase hex string. */
  lemma {:induction false} EncodeDecode(h: string)
    requires |h| % 2 == 0
    requires forall i :: 0 <= i < |h| ==> IsLowerHex(h[i])
    ensures ToHex(HexDecode(h)) == h
  {
    var bytes := HexDecode(h);
    forall k | 0 <= k < |bytes|
      ensures h[2 * k] == HexDigit(bytes[k] / 16) && h[2 * k + 1] == HexDigit(bytes[k] % 16)
    {
      DecodedDigits(h, k);
    }
    EncodeOfDigits(bytes, h);
  }
}
