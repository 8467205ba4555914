/**
 * `adjustColorBrightness`: decode a `#RRGGBB` colour into three channels, scale each
 * channel by the brightness, cap it at 255 with `Math.min`, round it with `Math.round`,
 * and encode the result again as `#` and three zero-padded lower-case hex pairs.
 */
module Colors {
  import opened Numbers
  import Strings

  /** A colour channel. */
  type Byte = n: int | 0 <= n < 256

  /** A digit `parseInt(_, 16)` accepts. */
  predicate IsHexDigit(c: char) {
    '0' <= c <= '9' || 'a' <= c <= 'f' || 'A' <= c <= 'F'
  }

  /** A digit `Number.prototype.toString(16)` emits. */
  predicate IsLowerHexDigit(c: char) {
    '0' <= c <= '9' || 'a' <= c <= 'f'
  }

  /** The input form `adjustColorBrightness` handles: `#` and six hex digits, of either case. */
  predicate IsHexColor(s: string) {
    |s| == 7 && s[0] == '#' && forall i :: 1 <= i < 7 ==> IsHexDigit(s[i])
  }

  /** The output form: `#` and six lower-case hex digits. */
  predicate IsLowerHexColor(s: string) {
    |s| == 7 && s[0] == '#' && forall i :: 1 <= i < 7 ==> IsLowerHexDigit(s[i])
  }

  /** The value of one hex digit. */
  function DigitValue(c: char): (v: nat)
    requires IsHexDigit(c)
    ensures v < 16
  {
    if '0' <= c <= '9' then c as int - '0' as int
    else if 'a' <= c <= 'f' then c as int - 'a' as int + 10
    else c as int - 'A' as int + 10
  }

  /** The digit `toString(16)` writes for a value below 16. */
  function DigitChar(v: nat): (c: char)
    requires v < 16
    ensures IsLowerHexDigit(c) && DigitValue(c) == v
  {
    if v < 10 then ('0' as int + v) as char else ('a' as int + v - 10) as char
  }

  /** Reading a lower-case digit and writing its value gives the digit back. */
  lemma DigitCharValue(c: char)
    requires IsLowerHexDigit(c)
    ensures DigitChar(DigitValue(c)) == c
  {
  }

  /** `parseInt(s, 16)` on two hex digits: the first digit is the sixteens, the second the units. */
  function ParsePair(s: string): (n: Byte)
    requires |s| == 2 && IsHexDigit(s[0]) && IsHexDigit(s[1])
    ensures n / 16 == DigitValue(s[0]) && n % 16 == DigitValue(s[1])
  {
    16 * DigitValue(s[0]) + DigitValue(s[1])
  }

  /** `n.toString(16)` for a non-negative integer: base-16 digits without leading zeros. */
  function ToBase16(n: nat): (s: string)
    ensures |s| == 1 <==> n < 16
    ensures |s| >= 1 && s[|s| - 1] == DigitChar(n % 16)
    ensures n >= 1 ==> s[0] != '0'
    decreases n
  {
    if n < 16 then [DigitChar(n)] else ToBase16(n / 16) + [DigitChar(n % 16)]
  }

  /** `s.padStart(width, fill)`. */
  function PadStart(s: string, width: nat, fill: char): (r: string)
  {
    if |s| >= width then s else seq(width - |s|, _ => fill) + s
  }

  /** `padStart` fills on the left up to the width and keeps the string as its suffix. */
  lemma PadStartPads(s: string, width: nat, fill: char)
    ensures var r := PadStart(s, width, fill);
      && |r| == (if |s| >= width then |s| else width)
      && r[|r| - |s|..] == s
      && forall i :: 0 <= i < |r| - |s| ==> r[i] == fill
  {
  }

  /** The arrow `toHex` of `adjustColorBrightness`: `n.toString(16).padStart(2, "0")`. */
  function ToHex(n: Byte): (h: string)
    ensures |h| == 2 && IsLowerHexDigit(h[0]) && IsLowerHexDigit(h[1])
    ensures ParsePair(h) == n
  {
    var h := PadStart(ToBase16(n), 2, '0');
    assert h == [DigitChar(n / 16), DigitChar(n % 16)] by {
      if n < 16 {
        assert DigitChar(0) == '0';
      } else {
        assert ToBase16(n / 16) == [DigitChar(n / 16)];
      }
    }
    h
  }

  /** Encoding the value of two lower-case digits gives the digits back. */
  lemma ToHexParsePair(s: string)
    requires |s| == 2 && IsLowerHexDigit(s[0]) && IsLowerHexDigit(s[1])
    ensures ToHex(ParsePair(s)) == s
  {
    var n := ParsePair(s);
    assert n / 16 == DigitValue(s[0]) && n % 16 == DigitValue(s[1]);
    DigitCharValue(s[0]);
    DigitCharValue(s[1]);
  }

  /** The three channels of a colour. */
  datatype Rgb = Rgb(red: Byte, green: Byte, blue: Byte)

  /** The colour `color` denotes: `parseInt` on its three digit pairs. */
  function Decode(color: string): (c: Rgb)
    requires IsHexColor(color)
    ensures c.red / 16 == DigitValue(color[1]) && c.red % 16 == DigitValue(color[2])
    ensures c.green / 16 == DigitValue(color[3]) && c.green % 16 == DigitValue(color[4])
    ensures c.blue / 16 == DigitValue(color[5]) && c.blue % 16 == DigitValue(color[6])
  {
    Rgb(ParsePair(color[1..3]), ParsePair(color[3..5]), ParsePair(color[5..7]))
  }

  /** The template string `#${toHex(r)}${toHex(g)}${toHex(b)}`; decoding it gives the channels back. */
  function Encode(c: Rgb): (s: string)
    ensures IsLowerHexColor(s)
    ensures Decode(s) == c
  {
    var s := "#" + ToHex(c.red) + ToHex(c.green) + ToHex(c.blue);
    assert s[1..3] == ToHex(c.red) && s[3..5] == ToHex(c.green) && s[5..7] == ToHex(c.blue);
    s
  }

  /** Every lower-case colour is the encoding of what it decodes to. */
  lemma EncodeDecode(s: string)
    requires IsLowerHexColor(s)
    ensures Encode(Decode(s)) == s
  {
    ToHexParsePair(s[1..3]);
    ToHexParsePair(s[3..5]);
    ToHexParsePair(s[5..7]);
    assert s == s[..1] + s[1..3] + s[3..5] + s[5..7];
  }

  /** The product `c * brightness` of a channel and a non-negative brightness. */
  function Scale(c: Byte, brightness: real): (p: real)
    requires brightness >= 0.0
    ensures p >= 0.0
    ensures brightness <= 1.0 ==> p <= c as real
    ensures brightness >= 1.0 ==> p >= c as real
  {
    ScaleBounds(c as real, brightness);
    c as real * brightness
  }

  /** One channel after `Math.round(Math.min(255, c * brightness))`: dimming never raises it, brightening never lowers it. */
  function AdjustChannel(c: Byte, brightness: real): (r: Byte)
    requires brightness >= 0.0
    ensures brightness <= 1.0 ==> r <= c
    ensures brightness >= 1.0 ==> r >= c
  {
    var x := MinReal(255.0, Scale(c, brightness));
    if brightness <= 1.0 then
      RoundWithin(x, 0, c);
      Round(x)
    else
      RoundWithin(x, c, 255);
      Round(x)
  }

  /**
   * `adjustColorBrightness(color, brightness)`: the result is a lower-case `#RRGGBB`
   * colour whose every channel is the corresponding input channel scaled, capped and rounded.
   */
  function AdjustColorBrightness(color: string, brightness: real): (r: string)
    requires IsHexColor(color) && brightness >= 0.0
    ensures IsLowerHexColor(r)
    ensures Decode(r) == Rgb(AdjustChannel(Decode(color).red, brightness),
                             AdjustChannel(Decode(color).green, brightness),
                             AdjustChannel(Decode(color).blue, brightness))
  {
    var hex := Strings.RemoveFirst(color, "#");
    RemoveLeadingHash(color);
    assert hex[0..2] == color[1..3] && hex[2..4] == color[3..5] && hex[4..6] == color[5..7];
    var red := AdjustChannel(ParsePair(hex[0..2]), brightness);
    var green := AdjustChannel(ParsePair(hex[2..4]), brightness);
    var blue := AdjustChannel(ParsePair(hex[4..6]), brightness);
    Encode(Rgb(red, green, blue))
  }

  /** `color.replace("#", "")` on a colour that starts with `#` drops exactly that `#`. */
  lemma RemoveLeadingHash(color: string)
    requires |color| >= 1 && color[0] == '#'
    ensures Strings.RemoveFirst(color, "#") == color[1..]
  {
    assert Strings.FirstOccurrence(color, "#", 0);
  }

  /** Brightness 1.0 leaves every lower-case colour exactly as it was. */
  lemma AdjustIdentity(color: string)
    requires IsLowerHexColor(color)
    ensures AdjustColorBrightness(color, 1.0) == color
  {
    var r := AdjustColorBrightness(color, 1.0);
    assert Decode(r) == Decode(color);
    EncodeDecode(r);
    EncodeDecode(color);
  }

  /** Halving white: each channel 255 becomes `Math.round(127.5)`, which rounds the half up to 128. */
  lemma HalfBrightWhite()
    ensures AdjustColorBrightness("#ffffff", 0.5) == "#808080"
  {
    assert ParsePair("ff") == 255;
    assert Decode("#ffffff") == Rgb(255, 255, 255);
    assert AdjustChannel(255, 0.5) == 128;
    assert ToHex(128) == "80" by {
      assert ToBase16(128) == ToBase16(8) + [DigitChar(0)];
    }
    assert Encode(Rgb(128, 128, 128)) == "#808080";
  }
}
