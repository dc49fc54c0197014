/** Colour primitives shared by the three theme scripts: `hexToRgb`,
    `mixColors` and the `"R G B"` channel string that `generatePalette`
    writes into CSS custom properties. */
module Colors {
  import opened Wrappers
  import opened Decimal
  import opened Strings

  /** `{ r, g, b }`. Channels are integral Numbers. */
  datatype Rgb = Rgb(r: int, g: int, b: int)

  const White := Rgb(255, 255, 255)
  const Black := Rgb(0, 0, 0)

  predicate InGamut(c: Rgb) {
    0 <= c.r <= 255 && 0 <= c.g <= 255 && 0 <= c.b <= 255
  }

  // ---------------------------------------------------------------------
  // hexToRgb: /^#?([a-f\d]{2})([a-f\d]{2})([a-f\d]{2})$/i, then parseInt(_, 16)

  /** Value of a character of the class `[a-f\d]` under the `i` flag. */
  function HexValue(c: char): Option<nat> {
    if '0' <= c <= '9' then Some(c as int - '0' as int)
    else if 'a' <= c <= 'f' then Some(c as int - 'a' as int + 10)
    else if 'A' <= c <= 'F' then Some(c as int - 'A' as int + 10)
    else None
  }

  predicate IsHexDigit(c: char) {
    HexValue(c).Some?
  }

  predicate AllHex(s: string) {
    forall i :: 0 <= i < |s| ==> IsHexDigit(s[i])
  }

  /** The language the regular expression accepts: six hex digits, with or
      without one leading '#'. */
  predicate HexPattern(s: string) {
    (|s| == 6 && AllHex(s)) || (|s| == 7 && s[0] == '#' && AllHex(s[1..]))
  }

  /** `parseInt` of the two hex digits at `i`. */
  function ByteAt(s: string, i: nat): (v: nat)
    requires i + 1 < |s| && IsHexDigit(s[i]) && IsHexDigit(s[i + 1])
    ensures v <= 255
  {
    16 * HexValue(s[i]).value + HexValue(s[i + 1]).value
  }

  /** The input with one optional leading '#' removed. */
  function StripHash(s: string): (d: string)
    ensures d == if |s| > 0 && s[0] == '#' then s[1..] else s
  {
    if |s| > 0 && s[0] == '#' then s[1..] else s
  }

  /** The three captured digit pairs, `None` unless there are exactly six
      hex digits. */
  function ParseDigits(d: string): (c: Option<Rgb>)
    ensures c.Some? <==> |d| == 6 && AllHex(d)
    ensures c.Some? ==> InGamut(c.value)
  {
    if |d| == 6 && AllHex(d) then
      Some(Rgb(ByteAt(d, 0), ByteAt(d, 2), ByteAt(d, 4)))
    else
      None
  }

  /** The regular-expression match of `hexToRgb`, `None` when it fails. */
  function ParseHex(s: string): (c: Option<Rgb>)
    ensures c.Some? <==> HexPattern(s)
    ensures c.Some? ==> InGamut(c.value)
  {
    ParseDigits(StripHash(s))
  }

  /** `hexToRgb`: a failed match silently yields black. */
  function HexToRgb(s: string): (c: Rgb)
    ensures InGamut(c)
    ensures HexPattern(s) ==> ParseHex(s) == Some(c)
    ensures !HexPattern(s) ==> c == Black
  {
    ParseHex(s).GetOr(Black)
  }

  /** Lower-case hex digit of `d`, as a colour picker reports it. */
  function HexChar(d: nat): (c: char)
    requires d < 16
    ensures HexValue(c) == Some(d)
  {
    if d < 10 then ('0' as int + d) as char else ('a' as int + d - 10) as char
  }

  function Hex2(v: nat): (s: string)
    requires v <= 255
    ensures |s| == 2 && AllHex(s) && ByteAt(s, 0) == v
  {
    [HexChar(v / 16), HexChar(v % 16)]
  }

  /** `#rrggbb`, the value an `<input type="color">` hands to the scripts. */
  function RgbToHex(c: Rgb): (s: string)
    requires InGamut(c)
  {
    "#" + Hex2(c.r) + Hex2(c.g) + Hex2(c.b)
  }

  /** Parsing what a colour picker reports gives the colour back, with or
      without the '#'. */
  lemma HexRoundTrip(c: Rgb)
    requires InGamut(c)
    ensures ParseHex(RgbToHex(c)) == Some(c)
    ensures ParseHex(RgbToHex(c)[1..]) == Some(c)
  {
    var s := RgbToHex(c);
    var d := s[1..];
    assert d == Hex2(c.r) + Hex2(c.g) + Hex2(c.b);
    assert d[0..2] == Hex2(c.r) && d[2..4] == Hex2(c.g) && d[4..6] == Hex2(c.b);
    assert ByteAt(d, 0) == ByteAt(Hex2(c.r), 0);
    assert ByteAt(d, 2) == ByteAt(Hex2(c.g), 0);
    assert ByteAt(d, 4) == ByteAt(Hex2(c.b), 0);
  }

  lemma LowerHexValue(c: char)
    ensures HexValue(LowerChar(c)) == HexValue(c)
  {
    if 'A' <= c <= 'Z' {
      assert LowerChar(c) as int == c as int + 32;
    }
  }

  lemma ParseDigitsIgnoresCase(d: string)
    ensures ParseDigits(Lower(d)) == ParseDigits(d)
  {
    var t := Lower(d);
    forall i | 0 <= i < |d| ensures HexValue(t[i]) == HexValue(d[i]) {
      LowerHexValue(d[i]);
    }
  }

  /** The `i` flag: the match ignores the case of the input. */
  lemma ParseHexIgnoresCase(s: string)
    ensures ParseHex(Lower(s)) == ParseHex(s)
  {
    var d := StripHash(s);
    assert StripHash(Lower(s)) == Lower(d);
    ParseDigitsIgnoresCase(d);
  }

  // ---------------------------------------------------------------------
  // mixColors

  /** `Math.round` over exact reals: the nearest integer, halves upwards. */
  function Round(x: real): (n: int)
    ensures x - 0.5 < n as real <= x + 0.5
  {
    (x + 0.5).Floor
  }

  lemma RoundMonotone(x: real, y: real)
    requires x <= y
    ensures Round(x) <= Round(y)
  {
    assert (x + 0.5).Floor <= (y + 0.5).Floor;
  }

  lemma ScaleLe(a: real, b: real, k: real)
    requires a <= b && 0.0 <= k
    ensures a * k <= b * k
  {}

  /** The blend `x * (1 - w) + y * w` of two reals. */
  function Blend(x: real, y: real, w: real): real {
    x * (1.0 - w) + y * w
  }

  lemma BlendShift(x: real, y: real, w: real)
    ensures Blend(x, y, w) == x + (y - x) * w
  {}

  lemma ProductBounds(d: real, w: real)
    requires 0.0 <= w <= 1.0
    ensures 0.0 <= d ==> 0.0 <= d * w <= d
    ensures d <= 0.0 ==> d <= d * w <= 0.0
  {}

  /** For a weight in [0, 1] the blend lies between its ends. */
  lemma BlendBetween(x: real, y: real, w: real)
    requires 0.0 <= w <= 1.0
    ensures x <= y ==> x <= Blend(x, y, w) <= y
    ensures y <= x ==> y <= Blend(x, y, w) <= x
  {
    BlendShift(x, y, w);
    ProductBounds(y - x, w);
  }

  lemma ProductMonotone(d: real, w1: real, w2: real)
    requires w1 <= w2
    ensures 0.0 <= d ==> d * w1 <= d * w2
    ensures d <= 0.0 ==> d * w2 <= d * w1
  {}

  /** A heavier weight moves the blend further towards `y`. */
  lemma BlendMonotone(x: real, y: real, w1: real, w2: real)
    requires w1 <= w2
    ensures x <= y ==> Blend(x, y, w1) <= Blend(x, y, w2)
    ensures y <= x ==> Blend(x, y, w2) <= Blend(x, y, w1)
  {
    BlendShift(x, y, w1);
    BlendShift(x, y, w2);
    ProductMonotone(y - x, w1, w2);
  }

  /** One channel of `mixColors`: `round(a * (1 - w) + b * w)`. For a weight
      in [0, 1] the result lies between the two inputs. */
  function MixChannel(a: int, b: int, w: real): (v: int)
    ensures w == 0.0 ==> v == a
    ensures w == 1.0 ==> v == b
    ensures 0.0 <= w <= 1.0 ==> (if a <= b then a <= v <= b else b <= v <= a)
  {
    if 0.0 <= w <= 1.0 then BlendBetween(a as real, b as real, w); Round(Blend(a as real, b as real, w))
    else Round(Blend(a as real, b as real, w))
  }

  /** `mixColors(c1, c2, weight)`: `weight` is the share of `c2`. */
  function MixColors(c1: Rgb, c2: Rgb, w: real): (c: Rgb)
    ensures w == 0.0 ==> c == c1
    ensures w == 1.0 ==> c == c2
    ensures InGamut(c1) && InGamut(c2) && 0.0 <= w <= 1.0 ==> InGamut(c)
  {
    Rgb(MixChannel(c1.r, c2.r, w), MixChannel(c1.g, c2.g, w), MixChannel(c1.b, c2.b, w))
  }

  /** A heavier weight moves every channel further towards `b`. */
  lemma MixChannelMonotone(a: int, b: int, w1: real, w2: real)
    requires w1 <= w2
    ensures a <= b ==> MixChannel(a, b, w1) <= MixChannel(a, b, w2)
    ensures b <= a ==> MixChannel(a, b, w2) <= MixChannel(a, b, w1)
  {
    BlendMonotone(a as real, b as real, w1, w2);
    var x1, x2 := Blend(a as real, b as real, w1), Blend(a as real, b as real, w2);
    if a <= b {
      RoundMonotone(x1, x2);
    } else {
      RoundMonotone(x2, x1);
    }
  }

  // ---------------------------------------------------------------------
  // `${r} ${g} ${b}`

  /** The channel string written into a palette entry. */
  function Triplet(c: Rgb): string {
    IntToString(c.r) + " " + IntToString(c.g) + " " + IntToString(c.b)
  }

  /** Index of the first space in `s`, or `|s|` when there is none. */
  function FirstSpace(s: string): (i: nat)
    ensures i <= |s|
    ensures forall k :: 0 <= k < i ==> s[k] != ' '
    ensures i < |s| ==> s[i] == ' '
    decreases |s|
  {
    if s == [] then 0 else if s[0] == ' ' then 0 else 1 + FirstSpace(s[1..])
  }

  /** How a consumer such as `rgb(var(--brand-600))` reads a triplet back. */
  function DecodeTriplet(s: string): Option<Rgb> {
    var i := FirstSpace(s);
    if i == |s| then None
    else
      var rest := s[i + 1..];
      var j := FirstSpace(rest);
      if j == |rest| then None
      else
        var a, b, c := s[..i], rest[..j], rest[j + 1..];
        if IsIntNumeral(a) && IsIntNumeral(b) && IsIntNumeral(c) then
          Some(Rgb(ParseInt(a), ParseInt(b), ParseInt(c)))
        else
          None
  }

  lemma FirstSpaceOfJoin(a: string, b: string)
    requires forall k :: 0 <= k < |a| ==> a[k] != ' '
    ensures FirstSpace(a + " " + b) == |a|
    ensures (a + " " + b)[..|a|] == a && (a + " " + b)[|a| + 1..] == b
  {
    var s := a + " " + b;
    var i := FirstSpace(s);
    assert s[|a|] == ' ';
  }

  /** A palette entry decodes to exactly the colour it was written from. */
  lemma TripletRoundTrip(c: Rgb)
    ensures DecodeTriplet(Triplet(c)) == Some(c)
  {
    var r, g, b := IntToString(c.r), IntToString(c.g), IntToString(c.b);
    var rest := g + " " + b;
    assert Triplet(c) == r + " " + rest;
    FirstSpaceOfJoin(r, rest);
    FirstSpaceOfJoin(g, b);
    IntRoundTrip(c.r);
    IntRoundTrip(c.g);
    IntRoundTrip(c.b);
  }

  /** Distinct colours give distinct palette strings. */
  lemma TripletInjective(c1: Rgb, c2: Rgb)
    ensures Triplet(c1) == Triplet(c2) ==> c1 == c2
  {
    TripletRoundTrip(c1);
    TripletRoundTrip(c2);
  }
}
