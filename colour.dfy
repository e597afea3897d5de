/**
 * Colour arithmetic of the bots: reading `#RRGGBB` colours (section 5.2 of CSS Color Module
 * Level 4) the way the Python code does, with `int(pair, 16)`, the diagonal gradient mask of the
 * macOS bot and the per-row vertical interpolation of the enhanced bot.
 */
module Colour {
  import opened Wrappers
  import opened Strings

  datatype Rgb = Rgb(r: int, g: int, b: int)

  predicate InByteRange(c: Rgb) {
    0 <= c.r <= 255 && 0 <= c.g <= 255 && 0 <= c.b <= 255
  }

  predicate IsHexDigit(c: char) {
    '0' <= c <= '9' || 'a' <= c <= 'f' || 'A' <= c <= 'F'
  }

  function DigitValue(c: char): (v: nat)
    requires IsHexDigit(c)
    ensures v < 16
  {
    if c <= '9' then (c - '0') as nat
    else if c <= 'F' then (c - 'A') as nat + 10
    else (c - 'a') as nat + 10
  }

  /** The lower-case hexadecimal digit of `v`. */
  function DigitChar(v: nat): (c: char)
    requires v < 16
    ensures IsHexDigit(c) && DigitValue(c) == v
  {
    if v < 10 then '0' + v as char else 'a' + (v - 10) as char
  }

  function LowerDigit(c: char): (d: char)
    requires IsHexDigit(c)
    ensures IsHexDigit(d) && DigitValue(d) == DigitValue(c)
  {
    DigitChar(DigitValue(c))
  }

  /** The ASCII information separators U+001C to U+001F. `str.isspace` holds for them, but
      `int()` does not skip them around a number. */
  predicate IsInfoSeparator(c: char) {
    '\U{1c}' <= c <= '\U{1f}'
  }

  /** The whitespace `int()` skips around a number: tab, line feed, vertical tab, form feed,
      carriage return and space among the ASCII characters, and every non-ASCII character that
      `str.isspace` accepts. */
  predicate IntSpace(c: char) {
    IsSpace(c) && !IsInfoSeparator(c)
  }

  /**
   * Python's `int(t, 16)` on the slices of at most two characters that the bots pass: surrounding
   * whitespace is ignored, one sign is allowed, and at least one hexadecimal digit must follow;
   * anything else raises `ValueError` (here `None`), an information separator included.
   */
  function ParseHex(t: string): (v: Option<int>)
    requires |t| <= 2
    ensures v.Some? ==> -15 <= v.value <= 255
    ensures v.Some? && v.value < 0 ==> '-' in t
    ensures |t| == 0 ==> v == None
    ensures forall k :: 0 <= k < |t| && IsInfoSeparator(t[k]) ==> v == None
  {
    if |t| == 2 && IsHexDigit(t[0]) && IsHexDigit(t[1]) then Some(16 * DigitValue(t[0]) + DigitValue(t[1]))
    else ParseStripped(IntTrim(t))
  }

  /** `t` of at most two characters without the whitespace `int()` skips at either end. */
  function IntTrim(t: string): (u: string)
    requires |t| <= 2
    ensures |u| <= |t| && forall k :: 0 <= k < |u| ==> u[k] in t
    ensures forall k :: 0 <= k < |t| && !IntSpace(t[k]) ==> t[k] in u
  {
    if |t| == 0 then t
    else if IntSpace(t[0]) then
      if |t| == 2 && !IntSpace(t[1]) then t[1..] else ""
    else if |t| == 2 && IntSpace(t[1]) then t[..1]
    else t
  }

  /** Whitespace that `int()` skips, before or after a single digit, leaves the digit's value. */
  lemma SpaceAroundDigit(c: char, d: char)
    requires IntSpace(c) && IsHexDigit(d)
    ensures ParseHex([c, d]) == Some(DigitValue(d) as int)
    ensures ParseHex([d, c]) == Some(DigitValue(d) as int)
  {
    DigitNotSpace(c);
    DigitNotSpace(d);
    var before, after := [c, d], [d, c];
    assert IntTrim(before) == [d] by {
      assert before[0] == c && before[1] == d && before[1..] == [d];
    }
    assert IntTrim(after) == [d] by {
      assert after[0] == d && after[1] == c && after[..1] == [d];
    }
  }

  lemma DigitNotSpace(c: char)
    ensures IsHexDigit(c) ==> !IsSpace(c)
  {
  }

  /** An information separator next to a digit makes `int()` raise. */
  lemma SeparatorAroundDigit(c: char, d: char)
    requires IsInfoSeparator(c)
    ensures ParseHex([c, d]) == None && ParseHex([d, c]) == None
  {
    assert [c, d][0] == c && [d, c][1] == c;
  }

  /** `int(u, 16)` once the surrounding whitespace is gone. */
  function ParseStripped(u: string): (v: Option<int>)
    requires |u| <= 2
    ensures v.Some? ==> -15 <= v.value <= 255
    ensures v.Some? ==> forall k :: 0 <= k < |u| ==> IsHexDigit(u[k]) || u[k] == '+' || u[k] == '-'
    ensures v.Some? && v.value < 0 ==> '-' in u
    ensures |u| == 0 ==> v == None
  {
    if |u| == 0 then None
    else if u[0] == '+' || u[0] == '-' then
      if |u| == 2 && IsHexDigit(u[1]) then
        Some(if u[0] == '-' then -(DigitValue(u[1]) as int) else DigitValue(u[1]) as int)
      else None
    else if |u| == 1 && IsHexDigit(u[0]) then Some(DigitValue(u[0]) as int)
    else if |u| == 2 && IsHexDigit(u[0]) && IsHexDigit(u[1]) then Some(16 * DigitValue(u[0]) + DigitValue(u[1]))
    else None
  }

  /** The three components read from `h[start:start+2]`, `h[start+2:start+4]` and `h[start+4:start+6]`. */
  function Components(h: string, start: nat): (c: Option<Rgb>)
    ensures c.Some? ==> -15 <= c.value.r <= 255 && -15 <= c.value.g <= 255 && -15 <= c.value.b <= 255
  {
    var r := ParseHex(Slice(h, start, start + 2));
    var g := ParseHex(Slice(h, start + 2, start + 4));
    var b := ParseHex(Slice(h, start + 4, start + 6));
    if r.Some? && g.Some? && b.Some? then Some(Rgb(r.value, g.value, b.value)) else None
  }

  /** `hex_to_rgb`: every leading `#` is removed, then the pairs at offsets 0, 2 and 4 are read. */
  function HexToRgb(hex: string): (c: Option<Rgb>)
    ensures c.Some? ==> -15 <= c.value.r <= 255 && -15 <= c.value.g <= 255 && -15 <= c.value.b <= 255
  {
    Components(LStrip(hex, '#'), 0)
  }

  /** The six digits of `h` from `start` on are hexadecimal digits. */
  predicate SixDigitsAt(h: string, start: nat) {
    start + 6 <= |h| && forall k :: start <= k < start + 6 ==> IsHexDigit(h[k])
  }

  /** The canonical `#rrggbb` spelling of a colour. */
  function ToHex(c: Rgb): (s: string)
    requires InByteRange(c)
    ensures |s| == 7 && s[0] == '#' && SixDigitsAt(s, 1)
  {
    ['#', DigitChar(c.r / 16), DigitChar(c.r % 16), DigitChar(c.g / 16), DigitChar(c.g % 16),
     DigitChar(c.b / 16), DigitChar(c.b % 16)]
  }

  /** The value of the two hexadecimal digits `h[i]`, `h[i+1]`. */
  function PairValue(h: string, i: nat): (v: nat)
    requires i + 2 <= |h| && IsHexDigit(h[i]) && IsHexDigit(h[i + 1])
    ensures v <= 255
  {
    16 * DigitValue(h[i]) + DigitValue(h[i + 1])
  }

  lemma PairAt(h: string, i: nat)
    requires i + 2 <= |h| && IsHexDigit(h[i]) && IsHexDigit(h[i + 1])
    ensures ParseHex(Slice(h, i, i + 2)) == Some(PairValue(h, i) as int)
  {
    var t := h[i..i + 2];
    assert Slice(h, i, i + 2) == t;
    assert |t| == 2 && t[0] == h[i] && t[1] == h[i + 1];
    assert IsHexDigit(t[0]) && IsHexDigit(t[1]);
    var v := ParseHex(t);
    assert v == Some(16 * DigitValue(t[0]) + DigitValue(t[1]));
  }

  /** Six hexadecimal digits always read as a colour whose components are bytes, each the value
      of its digit pair. */
  lemma ComponentsOfDigits(h: string, start: nat)
    requires SixDigitsAt(h, start)
    ensures Components(h, start) == Some(Rgb(PairValue(h, start), PairValue(h, start + 2), PairValue(h, start + 4)))
  {
    PairAt(h, start);
    PairAt(h, start + 2);
    PairAt(h, start + 4);
  }

  /** A single leading `#` followed by something else is what `lstrip('#')` removes. */
  lemma StripOneHash(s: string)
    requires |s| >= 2 && s[0] == '#' && s[1] != '#'
    ensures LStrip(s, '#') == s[1..]
  {
    assert s[1..][0] != '#';
  }

  /** Reading back the canonical spelling gives the colour. */
  lemma HexRoundTrip(c: Rgb)
    requires InByteRange(c)
    ensures HexToRgb(ToHex(c)) == Some(c)
  {
    var s := ToHex(c);
    StripOneHash(s);
    var h := s[1..];
    assert HexToRgb(s) == Components(h, 0);
    assert SixDigitsAt(h, 0);
    ComponentsOfDigits(h, 0);
    DigitsOfByte(c.r);
    DigitsOfByte(c.g);
    DigitsOfByte(c.b);
    assert PairValue(h, 0) == c.r && PairValue(h, 2) == c.g && PairValue(h, 4) == c.b;
  }

  lemma DigitsOfByte(v: int)
    requires 0 <= v <= 255
    ensures 16 * DigitValue(DigitChar(v / 16)) + DigitValue(DigitChar(v % 16)) == v
  {
  }

  /** `#` and the six digits of `hex[1..7]` in lower case. */
  function LowerHex(hex: string): (s: string)
    requires |hex| == 7 && SixDigitsAt(hex, 1)
    ensures |s| == 7 && s[0] == '#'
    ensures forall k :: 1 <= k < 7 ==> s[k] == LowerDigit(hex[k])
  {
    ['#', LowerDigit(hex[1]), LowerDigit(hex[2]), LowerDigit(hex[3]), LowerDigit(hex[4]),
     LowerDigit(hex[5]), LowerDigit(hex[6])]
  }

  /** A `#RRGGBB` colour reads as byte components whose canonical spelling is the input up to
      the case of its letters. */
  lemma HexCanonical(hex: string)
    requires |hex| == 7 && hex[0] == '#' && SixDigitsAt(hex, 1)
    ensures HexToRgb(hex).Some? && InByteRange(HexToRgb(hex).value)
    ensures ToHex(HexToRgb(hex).value) == LowerHex(hex)
  {
    StripOneHash(hex);
    var h := hex[1..];
    assert SixDigitsAt(h, 0);
    ComponentsOfDigits(h, 0);
    assert h[0] == hex[1] && h[1] == hex[2] && h[2] == hex[3] && h[3] == hex[4] && h[4] == hex[5] && h[5] == hex[6];
    var c := Rgb(PairValue(hex, 1), PairValue(hex, 3), PairValue(hex, 5));
    assert HexToRgb(hex) == Some(c);
    PairCanonical(hex, 1);
    PairCanonical(hex, 3);
    PairCanonical(hex, 5);
  }

  /** The two digits spelling a pair's value are the pair's own digits in lower case. */
  lemma PairCanonical(h: string, i: nat)
    requires i + 2 <= |h| && IsHexDigit(h[i]) && IsHexDigit(h[i + 1])
    ensures DigitChar(PairValue(h, i) / 16) == LowerDigit(h[i])
    ensures DigitChar(PairValue(h, i) % 16) == LowerDigit(h[i + 1])
  {
    HighLow(h[i], h[i + 1]);
  }

  lemma HighLow(hi: char, lo: char)
    requires IsHexDigit(hi) && IsHexDigit(lo)
    ensures (16 * DigitValue(hi) + DigitValue(lo)) / 16 == DigitValue(hi)
    ensures (16 * DigitValue(hi) + DigitValue(lo)) % 16 == DigitValue(lo)
  {
  }

  /** A colour with fewer than six characters after its `#`s (the short `#rgb` form) cannot be
      read: the last slice is empty and `int("", 16)` raises. */
  lemma ShortHexFails(hex: string)
    requires |LStrip(hex, '#')| <= 4
    ensures HexToRgb(hex) == None
  {
    assert Slice(LStrip(hex, '#'), 4, 6) == "";
  }

  /** The mask value at pixel (x, y) of the diagonal gradient: `int(255 * (x + y) / (width + height))`. */
  function MaskValue(x: nat, y: nat, width: nat, height: nat): nat
    requires width + height > 0
  {
    255 * (x + y) / (width + height)
  }

  lemma FloorBounds(n: int, d: int)
    requires d > 0
    ensures (n / d) * d <= n < (n / d) * d + d
  {
  }

  lemma MulCancel(a: int, b: int, d: int)
    requires d > 0 && a * d < b * d
    ensures a < b
  {
  }

  lemma DivMonotone(a: nat, b: nat, d: nat)
    requires a <= b && d > 0
    ensures a / d <= b / d
  {
    FloorBounds(a, d);
    FloorBounds(b, d);
    assert (a / d) * d < (b / d + 1) * d;
    MulCancel(a / d, b / d + 1, d);
  }

  /** Floor division of `n` by `d` lies between `lo` and `hi` when `n` lies between `lo * d` and `hi * d`. */
  lemma DivBetween(n: int, d: int, lo: int, hi: int)
    requires d > 0 && lo * d <= n <= hi * d
    ensures lo <= n / d <= hi
  {
    FloorBounds(n, d);
    assert lo * d < (n / d + 1) * d;
    MulCancel(lo, n / d + 1, d);
    assert (n / d) * d < (hi + 1) * d;
    MulCancel(n / d, hi + 1, d);
  }

  /** The mask starts at 0 in the top-left pixel and never exceeds 254 on the image: the second
      colour is never fully reached. */
  lemma MaskRange(x: nat, y: nat, width: nat, height: nat)
    requires x < width && y < height
    ensures MaskValue(0, 0, width, height) == 0
    ensures MaskValue(x, y, width, height) <= 254
  {
    var n, d := 255 * (x + y), width + height;
    FloorBounds(n, d);
    MulCancel(n / d, 255, d);
  }

  /** The mask grows (weakly) to the right and downwards. */
  lemma MaskMonotone(x1: nat, y1: nat, x2: nat, y2: nat, width: nat, height: nat)
    requires x1 <= x2 && y1 <= y2 && width + height > 0
    ensures MaskValue(x1, y1, width, height) <= MaskValue(x2, y2, width, height)
  {
    DivMonotone(255 * (x1 + y1), 255 * (x2 + y2), width + height);
  }

  /** Python's `int()` of the rational `n / d`: truncation toward zero. */
  function TruncDiv(n: int, d: nat): int
    requires d > 0
  {
    if n >= 0 then n / d else -((-n) / d)
  }

  /**
   * One channel of row `y` of the vertical gradient, `int(c1 + (c2 - c1) * y / height)`, taken
   * in exact arithmetic: the rational `(c1 * height + (c2 - c1) * y) / height` truncated toward zero.
   */
  function RowChannel(c1: int, c2: int, y: nat, height: nat): int
    requires height > 0
  {
    TruncDiv(c1 * height + (c2 - c1) * y, height)
  }

  function RowColour(c1: Rgb, c2: Rgb, y: nat, height: nat): Rgb
    requires height > 0
  {
    Rgb(RowChannel(c1.r, c2.r, y, height), RowChannel(c1.g, c2.g, y, height), RowChannel(c1.b, c2.b, y, height))
  }

  lemma TruncBetween(n: int, d: nat, lo: int, hi: int)
    requires d > 0 && lo * d <= n <= hi * d
    ensures lo <= TruncDiv(n, d) <= hi
  {
    if n >= 0 {
      DivBetween(n, d, lo, hi);
    } else {
      assert (-hi) * d <= -n <= (-lo) * d;
      DivBetween(-n, d, -hi, -lo);
    }
  }

  lemma MulBetween(a: int, y: int, h: int)
    requires a >= 0 && 0 <= y <= h
    ensures 0 <= a * y <= a * h
  {
  }

  /** Row 0 has the first colour exactly. */
  lemma RowStart(c1: int, c2: int, height: nat)
    requires 0 < height
    ensures RowChannel(c1, c2, 0, height) == c1
  {
    assert c1 * height + (c2 - c1) * 0 == c1 * height;
    TruncBetween(c1 * height, height, c1, c1);
  }

  lemma RowRising(c1: int, c2: int, y: nat, height: nat)
    requires 0 < height && y <= height && c1 <= c2
    ensures c1 <= RowChannel(c1, c2, y, height) <= c2
  {
    var d := c2 - c1;
    MulBetween(d, y, height);
    assert c2 * height == c1 * height + d * height;
    TruncBetween(c1 * height + d * y, height, c1, c2);
  }

  lemma RowFalling(c1: int, c2: int, y: nat, height: nat)
    requires 0 < height && y <= height && c2 < c1
    ensures c2 <= RowChannel(c1, c2, y, height) <= c1
  {
    var d := c1 - c2;
    MulBetween(d, y, height);
    assert (c2 - c1) * y == -(d * y);
    assert c2 * height == c1 * height - d * height;
    TruncBetween(c1 * height - d * y, height, c2, c1);
  }

  /** Row 0 has the first colour exactly, and every row's channel lies between the two endpoints. */
  lemma RowChannelRange(c1: int, c2: int, y: nat, height: nat)
    requires 0 < height && y <= height
    ensures RowChannel(c1, c2, 0, height) == c1
    ensures (if c1 <= c2 then c1 else c2) <= RowChannel(c1, c2, y, height) <= (if c1 <= c2 then c2 else c1)
  {
    RowStart(c1, c2, height);
    if c1 <= c2 {
      RowRising(c1, c2, y, height);
    } else {
      RowFalling(c1, c2, y, height);
    }
  }
}
