/** `System.Windows.Media.Color`, the named `Colors` the core uses, and `Color.ToString()`. */
module Colors {
  import opened Wrappers

  type Byte = x: int | 0 <= x < 256

  /** An sRGB colour with an alpha channel. `Color.Equals` compares all four channels. */
  datatype Color = Color(a: Byte, r: Byte, g: Byte, b: Byte)

  function Opaque(r: Byte, g: Byte, b: Byte): Color {
    Color(255, r, g, b)
  }

  /** `Color.FromArgb(alpha, c.R, c.G, c.B)`. */
  function WithAlpha(c: Color, alpha: Byte): (d: Color)
    ensures d.a == alpha && d.r == c.r && d.g == c.g && d.b == c.b
  {
    c.(a := alpha)
  }

  // The members of `System.Windows.Media.Colors` referred to by the core.
  const Purple: Color := Opaque(0x80, 0x00, 0x80)
  const Blue: Color := Opaque(0x00, 0x00, 0xFF)
  const Green: Color := Opaque(0x00, 0x80, 0x00)
  const Orange: Color := Opaque(0xFF, 0xA5, 0x00)
  const Red: Color := Opaque(0xFF, 0x00, 0x00)
  const DeepPink: Color := Opaque(0xFF, 0x14, 0x93)
  const Indigo: Color := Opaque(0x4B, 0x00, 0x82)
  const Teal: Color := Opaque(0x00, 0x80, 0x80)
  const LimeGreen: Color := Opaque(0x32, 0xCD, 0x32)
  const LightBlue: Color := Opaque(0xAD, 0xD8, 0xE6)
  const Black: Color := Opaque(0x00, 0x00, 0x00)
  const White: Color := Opaque(0xFF, 0xFF, 0xFF)

  /** An upper-case hexadecimal digit, as `Color.ToString()` writes them. */
  predicate IsHexDigit(ch: char) {
    '0' <= ch <= '9' || 'A' <= ch <= 'F'
  }

  /** The digit for a value below 16. */
  function HexDigit(v: nat): (ch: char)
    requires v < 16
    ensures IsHexDigit(ch)
  {
    if v < 10 then ('0' as int + v) as char else ('A' as int + v - 10) as char
  }

  /** The two upper-case hexadecimal digits of a byte, high digit first. */
  function HexByte(x: Byte): (s: string)
    ensures |s| == 2 && IsHexDigit(s[0]) && IsHexDigit(s[1])
  {
    [HexDigit(x / 16), HexDigit(x % 16)]
  }

  /** `Color.ToString()` of an sRGB colour: `#AARRGGBB` in upper-case hexadecimal. */
  function ToHexString(c: Color): (s: string)
    ensures |s| == 9 && s[0] == '#'
    ensures forall i :: 1 <= i < 9 ==> IsHexDigit(s[i])
  {
    "#" + HexByte(c.a) + HexByte(c.r) + HexByte(c.g) + HexByte(c.b)
  }

  /** The value of one upper-case hexadecimal digit. */
  function HexValue(ch: char): (v: Option<nat>)
    ensures v.Some? <==> IsHexDigit(ch)
    ensures v.Some? ==> v.value < 16 && HexDigit(v.value) == ch
  {
    if '0' <= ch <= '9' then Some(ch as int - '0' as int)
    else if 'A' <= ch <= 'F' then Some(ch as int - 'A' as int + 10)
    else None
  }

  /** Reads two hexadecimal digits back into a byte. */
  function ParseHexByte(hi: char, lo: char): Option<Byte> {
    match (HexValue(hi), HexValue(lo))
    case (Some(h), Some(l)) => Some(h * 16 + l)
    case _ => None
  }

  /** Reads a `#AARRGGBB` string back into a colour: the inverse of `ToHexString`. */
  function ParseArgbHex(s: string): Option<Color> {
    if |s| != 9 || s[0] != '#' then None
    else match (ParseHexByte(s[1], s[2]), ParseHexByte(s[3], s[4]), ParseHexByte(s[5], s[6]), ParseHexByte(s[7], s[8]))
      case (Some(a), Some(r), Some(g), Some(b)) => Some(Color(a, r, g, b))
      case _ => None
  }

  lemma HexByteRoundTrip(x: Byte)
    ensures var s := HexByte(x); ParseHexByte(s[0], s[1]) == Some(x)
  {
    var s := HexByte(x);
    assert HexValue(s[0]) == Some(x / 16);
    assert HexValue(s[1]) == Some(x % 16);
  }

  /** `Color.ToString()` loses nothing: the string determines the colour. */
  lemma ToHexStringRoundTrip(c: Color)
    ensures ParseArgbHex(ToHexString(c)) == Some(c)
  {
    var s := ToHexString(c);
    HexByteRoundTrip(c.a);
    HexByteRoundTrip(c.r);
    HexByteRoundTrip(c.g);
    HexByteRoundTrip(c.b);
    assert s[1..3] == HexByte(c.a) && s[3..5] == HexByte(c.r);
    assert s[5..7] == HexByte(c.g) && s[7..9] == HexByte(c.b);
  }

  lemma ToHexStringInjective(c: Color, d: Color)
    ensures ToHexString(c) == ToHexString(d) <==> c == d
  {
    ToHexStringRoundTrip(c);
    ToHexStringRoundTrip(d);
  }
}
