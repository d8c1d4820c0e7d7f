/**
 * `_hexToRgb`: parses a CSS colour written as six or three hexadecimal digits,
 * case-insensitively, with an optional leading '#', into its red, green and blue
 * channels; any other string yields null (here `None`).
 */
module Colour {
  import opened Wrappers
  import Text

  datatype Rgb = Rgb(r: nat, g: nat, b: nat)

  predicate IsChannel(v: nat) {
    v < 256
  }

  predicate IsHexDigit(c: char) {
    '0' <= c <= '9' || 'a' <= c <= 'f' || 'A' <= c <= 'F'
  }

  predicate AllHex(s: string) {
    forall i :: 0 <= i < |s| ==> IsHexDigit(s[i])
  }

  function DigitValue(c: char): (v: nat)
    requires IsHexDigit(c)
    ensures v < 16
  {
    if '0' <= c <= '9' then c as nat - '0' as nat
    else if 'a' <= c <= 'f' then c as nat - 'a' as nat + 10
    else c as nat - 'A' as nat + 10
  }

  /** `parseInt(hi + lo, 16)` for two hexadecimal digits. */
  function PairValue(hi: char, lo: char): (v: nat)
    requires IsHexDigit(hi) && IsHexDigit(lo)
    ensures IsChannel(v)
  {
    16 * DigitValue(hi) + DigitValue(lo)
  }

  /** What the regular expressions see after the optional '#'. */
  function Digits(s: string): string {
    if |s| > 0 && s[0] == '#' then s[1..] else s
  }

  predicate IsLongForm(s: string) {
    |Digits(s)| == 6 && AllHex(Digits(s))
  }

  predicate IsShortForm(s: string) {
    |Digits(s)| == 3 && AllHex(Digits(s))
  }

  function HexToRgb(s: string): (c: Option<Rgb>)
    ensures c.Some? <==> IsLongForm(s) || IsShortForm(s)
    ensures c.Some? ==> IsChannel(c.value.r) && IsChannel(c.value.g) && IsChannel(c.value.b)
    ensures c.Some? ==> |s| in {3, 4, 6, 7}
    ensures IsLongForm(s) ==> c == Some(Rgb(PairValue(Digits(s)[0], Digits(s)[1]),
                                            PairValue(Digits(s)[2], Digits(s)[3]),
                                            PairValue(Digits(s)[4], Digits(s)[5])))
  {
    var d := Digits(s);
    if |d| == 6 && AllHex(d) then
      Some(Rgb(PairValue(d[0], d[1]), PairValue(d[2], d[3]), PairValue(d[4], d[5])))
    else if |d| == 3 && AllHex(d) then
      Some(Rgb(PairValue(d[0], d[0]), PairValue(d[1], d[1]), PairValue(d[2], d[2])))
    else
      None
  }

  // ---- the inverse direction: writing a colour as "#rrggbb" ----

  function HexChar(v: nat): (c: char)
    requires v < 16
    ensures IsHexDigit(c) && DigitValue(c) == v
  {
    if v < 10 then ('0' as nat + v) as char else ('a' as nat + v - 10) as char
  }

  function ChannelHex(v: nat): (s: string)
    requires IsChannel(v)
    ensures |s| == 2 && AllHex(s) && PairValue(s[0], s[1]) == v
  {
    [HexChar(v / 16), HexChar(v % 16)]
  }

  function ToHex(c: Rgb): (s: string)
    requires IsChannel(c.r) && IsChannel(c.g) && IsChannel(c.b)
    ensures |s| == 7 && s[0] == '#'
  {
    "#" + ChannelHex(c.r) + ChannelHex(c.g) + ChannelHex(c.b)
  }

  /** Writing a colour and parsing it back gives the colour again. */
  lemma RoundTrip(c: Rgb)
    requires IsChannel(c.r) && IsChannel(c.g) && IsChannel(c.b)
    ensures HexToRgb(ToHex(c)) == Some(c)
  {
    var s := ToHex(c);
    var d := Digits(s);
    assert d == ChannelHex(c.r) + ChannelHex(c.g) + ChannelHex(c.b);
    assert AllHex(d);
  }

  /** Each digit doubled: "abc" becomes "aabbcc". */
  function Doubled(d: string): (e: string)
    requires |d| == 3
    ensures |e| == 6
  {
    [d[0], d[0], d[1], d[1], d[2], d[2]]
  }

  /** The three-digit form means the same colour as the six-digit form with every digit doubled. */
  lemma ShortIsDoubledLong(d: string)
    requires |d| == 3 && AllHex(d)
    ensures HexToRgb(d).Some?
    ensures HexToRgb(d) == HexToRgb(Doubled(d))
    ensures HexToRgb("#" + d) == HexToRgb(d)
  {
    assert Digits("#" + d) == d;
    assert AllHex(Doubled(d));
  }

  /** The leading '#' is optional: with or without it the same colour is read. */
  lemma HashIsOptional(d: string)
    requires |d| > 0 ==> d[0] != '#'
    ensures HexToRgb("#" + d) == HexToRgb(d)
  {
    assert Digits("#" + d) == d;
    assert Digits(d) == d;
  }

  /** Lower-casing a character keeps it a digit or a non-digit, with the same value. */
  lemma LowerDigit(c: char)
    ensures IsHexDigit(Text.LowerChar(c)) <==> IsHexDigit(c)
    ensures IsHexDigit(c) ==> DigitValue(Text.LowerChar(c)) == DigitValue(c)
  {
  }

  /** Letters are read case-insensitively. */
  lemma CaseInsensitive(s: string)
    ensures HexToRgb(Text.ToLower(s)) == HexToRgb(s)
  {
    var t := Text.ToLower(s);
    var ds, dt := Digits(s), Digits(t);
    assert |ds| == |dt|;
    forall i | 0 <= i < |dt|
      ensures IsHexDigit(dt[i]) <==> IsHexDigit(ds[i])
      ensures IsHexDigit(ds[i]) ==> DigitValue(dt[i]) == DigitValue(ds[i])
    {
      assert dt[i] == Text.LowerChar(ds[i]);
      LowerDigit(ds[i]);
    }
    assert AllHex(dt) <==> AllHex(ds);
  }
}
