/** The `#RRGGBB` label drawn on each swatch: `uint8Hex` and `colorHex`. */
module Hex {

  /** An unsigned byte, as Go's `uint8`. */
  type Byte = x: int | 0 <= x < 0x100

  /** One channel as `color.Color.RGBA` returns it, Go's `uint32`. */
  type Channel = x: int | 0 <= x < 0x1_0000_0000

  /** The sixteen upper-case hexadecimal digits, by value. */
  const Digits := "0123456789ABCDEF"

  predicate IsHexDigit(ch: char)
  {
    '0' <= ch <= '9' || 'A' <= ch <= 'F'
  }

  /** The value of an upper-case hexadecimal digit, or -1 for any other
      character. */
  function DigitValue(ch: char): (r: int)
    ensures IsHexDigit(ch) <==> 0 <= r < 16
    ensures !IsHexDigit(ch) ==> r == -1
  {
    if '0' <= ch <= '9' then ch as int - '0' as int
    else if 'A' <= ch <= 'F' then ch as int - 'A' as int + 10
    else -1
  }

  lemma DigitsDecode(k: int)
    requires 0 <= k < 16
    ensures IsHexDigit(Digits[k]) && DigitValue(Digits[k]) == k
  {
  }

  /** The two digits of a byte, high nibble first. */
  function HexPair(b: Byte): (s: string)
    ensures |s| == 2 && IsHexDigit(s[0]) && IsHexDigit(s[1])
    ensures 16 * DigitValue(s[0]) + DigitValue(s[1]) == b
  {
    var hi, lo := b / 16, b % 16;
    DigitsDecode(hi);
    DigitsDecode(lo);
    [Digits[hi], Digits[lo]]
  }

  /** The value of a two-digit pair, or -1 when it is not one. */
  function PairValue(s: string): (r: int)
    requires |s| == 2
    ensures -1 <= r < 256
    ensures r >= 0 <==> IsHexDigit(s[0]) && IsHexDigit(s[1])
  {
    if IsHexDigit(s[0]) && IsHexDigit(s[1]) then 16 * DigitValue(s[0]) + DigitValue(s[1]) else -1
  }

  /** `uint8Hex`: splits the byte into nibbles and appends one character per
      nibble. On an unsigned byte the shift `b >> 4` is `b / 16` and the mask
      `b & 0xf` is `b % 16`. */
  method Uint8Hex(b: Byte) returns (str: string)
    ensures str == HexPair(b)
  {
    str := "";
    var b1 := b / 16;
    var b2 := b % 16;
    if b1 <= 9 {
      str := str + [(b1 + '0' as int) as char];
    } else {
      str := str + [(b1 - 0xa + 'A' as int) as char];
    }
    assert str == [Digits[b1]];
    if b2 <= 9 {
      str := str + [(b2 + '0' as int) as char];
    } else {
      str := str + [(b2 - 0xa + 'A' as int) as char];
    }
    assert str == [Digits[b1], Digits[b2]];
  }

  /** `uint8(c >> 8)`: the channel shifted down by a byte and truncated to
      8 bits as Go's conversion does. */
  function HighByte(c: Channel): (r: Byte)
    ensures 256 * r <= c % 0x1_0000 < 256 * (r + 1)
  {
    (c / 256) % 256
  }

  /** `colorHex`, over the channel values `RGBA()` returned. */
  function ColorHex(r: Channel, g: Channel, b: Channel): (s: string)
    ensures |s| == 7 && s[0] == '#'
    ensures s[1..3] == HexPair(HighByte(r))
    ensures s[3..5] == HexPair(HighByte(g))
    ensures s[5..7] == HexPair(HighByte(b))
  {
    "#" + HexPair(HighByte(r)) + HexPair(HighByte(g)) + HexPair(HighByte(b))
  }

  datatype Rgb = Rgb(red: int, green: int, blue: int)

  /** Reads a `#RRGGBB` label back into its three bytes. */
  function ParseColorHex(s: string): (r: Option<Rgb>)
    ensures r.Some? ==> 0 <= r.value.red < 256 && 0 <= r.value.green < 256 && 0 <= r.value.blue < 256
  {
    if |s| != 7 || s[0] != '#' then None
    else
      var red, green, blue := PairValue(s[1..3]), PairValue(s[3..5]), PairValue(s[5..7]);
      if red < 0 || green < 0 || blue < 0 then None else Some(Rgb(red, green, blue))
  }

  datatype Option<T> = None | Some(value: T)

  /** The label reads back as the three high bytes it was made from. */
  lemma ColorHexRoundTrip(r: Channel, g: Channel, b: Channel)
    ensures ParseColorHex(ColorHex(r, g, b))
         == Some(Rgb(HighByte(r), HighByte(g), HighByte(b)))
  {
  }

  /** Two labels agree exactly when the high bytes of all three channels do. */
  lemma ColorHexInjective(r1: Channel, g1: Channel, b1: Channel, r2: Channel, g2: Channel, b2: Channel)
    ensures ColorHex(r1, g1, b1) == ColorHex(r2, g2, b2)
        <==> HighByte(r1) == HighByte(r2) && HighByte(g1) == HighByte(g2) && HighByte(b1) == HighByte(b2)
  {
  }

  /** For the 16-bit channels `RGBA()` produces nothing is truncated: the
      label shows exactly the channel divided by 256. */
  lemma SixteenBitChannel(c: Channel)
    requires c < 0x1_0000
    ensures HighByte(c) == c / 256
  {
  }
}
