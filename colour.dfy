/**
 * The `hexToRgba` helper of the flood fill: a CSS hex colour string to the channel values the
 * fill compares against the canvas and writes into it. Channels are parsed with JavaScript's
 * `parseInt(s, 16)`, so a malformed colour yields NaN channels rather than an error.
 */
module Colour {
  import opened Common

  /** One pixel of canvas image data (each channel 0..255). */
  datatype Rgba = Rgba(r: int, g: int, b: int, a: int)

  /** The result of `parseInt`: a (possibly negative) integer or NaN. */
  datatype Channel = Value(v: int) | NotANumber

  /** `[r, g, b, 255]` as `hexToRgba` returns it. */
  datatype FillColor = FillColor(r: Channel, g: Channel, b: Channel)

  /** StrWhiteSpaceChar of the ECMAScript number grammar (white space and line terminators). */
  predicate IsStrWhiteSpace(c: char)
  {
    c == '\t' || c == '\n' || c == '\U{000B}' || c == '\U{000C}' || c == '\r' || c == ' '
    || c == '\U{00A0}' || c == '\U{1680}' || ('\U{2000}' <= c <= '\U{200A}') || c == '\U{2028}'
    || c == '\U{2029}' || c == '\U{202F}' || c == '\U{205F}' || c == '\U{3000}' || c == '\U{FEFF}'
  }

  /** Leading white space removed. */
  function TrimStart(s: string): (t: string)
    ensures |t| <= |s| && t == s[|s| - |t|..]
    ensures |t| > 0 ==> !IsStrWhiteSpace(t[0])
    ensures forall i :: 0 <= i < |s| - |t| ==> IsStrWhiteSpace(s[i])
  {
    if |s| > 0 && IsStrWhiteSpace(s[0]) then TrimStart(s[1..]) else s
  }

  function HexDigitValue(c: char): Option<int>
  {
    if '0' <= c <= '9' then Some(c as int - '0' as int)
    else if 'a' <= c <= 'f' then Some(c as int - 'a' as int + 10)
    else if 'A' <= c <= 'F' then Some(c as int - 'A' as int + 10)
    else None
  }

  predicate IsHexDigit(c: char)
  {
    HexDigitValue(c).Some?
  }

  /** Number of leading hexadecimal digits. */
  function HexRun(s: string): (n: nat)
    ensures n <= |s|
    ensures forall i :: 0 <= i < n ==> IsHexDigit(s[i])
    ensures n < |s| ==> !IsHexDigit(s[n])
  {
    if |s| > 0 && IsHexDigit(s[0]) then 1 + HexRun(s[1..]) else 0
  }

  /** The leading hexadecimal digits. */
  function HexPrefix(s: string): (z: string)
    ensures |z| == HexRun(s)
    ensures forall i :: 0 <= i < |z| ==> IsHexDigit(z[i])
  {
    var n := HexRun(s);
    assert forall i :: 0 <= i < n ==> s[..n][i] == s[i];
    s[..n]
  }

  /** Value of a string of hexadecimal digits, most significant first. */
  function HexValue(z: string): (v: nat)
    requires forall i :: 0 <= i < |z| ==> IsHexDigit(z[i])
  {
    if |z| == 0 then 0
    else
      assert IsHexDigit(z[|z| - 1]);
      HexValue(z[..|z| - 1]) * 16 + HexDigitValue(z[|z| - 1]).value
  }

  /** `parseInt(s, 16)`: white space, an optional sign, an optional `0x`/`0X`, then the longest
      run of hex digits; no digits at all gives NaN. */
  function ParseHex(s: string): Channel
  {
    var t := TrimStart(s);
    var negative := |t| > 0 && t[0] == '-';
    var u := if |t| > 0 && (t[0] == '-' || t[0] == '+') then t[1..] else t;
    var d := if |u| >= 2 && u[0] == '0' && (u[1] == 'x' || u[1] == 'X') then u[2..] else u;
    var z := HexPrefix(d);
    if |z| == 0 then NotANumber
    else Value(if negative then -(HexValue(z) as int) else HexValue(z))
  }

  /** `String.prototype.substring`: both ends clamped to the string, swapped when reversed. */
  function Substring(s: string, start: int, end: int): (r: string)
    ensures 0 <= start <= end <= |s| ==> r == s[start..end]
    ensures |r| <= |s|
  {
    var a := if start < 0 then 0 else if start > |s| then |s| else start;
    var b := if end < 0 then 0 else if end > |s| then |s| else end;
    if a <= b then s[a..b] else s[b..a]
  }

  /** `String.prototype.replace` with a one-character pattern: the first occurrence removed. */
  function RemoveFirst(s: string, c: char): (r: string)
    ensures c !in s ==> r == s
    ensures c in s ==> |r| == |s| - 1
  {
    if |s| == 0 then s
    else if s[0] == c then s[1..]
    else [s[0]] + RemoveFirst(s[1..], c)
  }

  /** `v.split('').map(c => c + c).join('')` for a three-character string. */
  function DoubleDigits(v: string): (r: string)
    requires |v| == 3
    ensures |r| == 6 && forall i :: 0 <= i < 6 ==> r[i] == v[i / 2]
  {
    [v[0], v[0], v[1], v[1], v[2], v[2]]
  }

  /** The six-digit body that `hexToRgba` slices into channels. */
  function ColourDigits(hex: string): (v: string)
  {
    var v := RemoveFirst(hex, '#');
    if |v| == 3 then DoubleDigits(v) else v
  }

  /** `hexToRgba(fillColor || '#000000')`. */
  function HexToRgba(fillColor: string): FillColor
  {
    var hex := if fillColor == "" then "#000000" else fillColor;
    var v := ColourDigits(hex);
    FillColor(ParseHex(Substring(v, 0, 2)), ParseHex(Substring(v, 2, 4)), ParseHex(Substring(v, 4, 6)))
  }

  /** What a Uint8ClampedArray stores when a channel is written: NaN becomes 0, others clamp. */
  function Stored(c: Channel): (b: int)
    ensures 0 <= b <= 255
    ensures c.Value? && 0 <= c.v <= 255 ==> b == c.v
  {
    match c
    case NotANumber => 0
    case Value(v) => if v < 0 then 0 else if v > 255 then 255 else v
  }

  /** The pixel value the fill writes. */
  function WrittenFill(f: FillColor): (p: Rgba)
    ensures p.a == 255
  {
    Rgba(Stored(f.r), Stored(f.g), Stored(f.b), 255)
  }

  /** The `===` comparison of the clicked pixel with the fill colour (NaN equals nothing). */
  predicate SameColour(target: Rgba, f: FillColor)
  {
    f.r == Value(target.r) && f.g == Value(target.g) && f.b == Value(target.b) && target.a == 255
  }

  /** When every channel parsed to a byte, the comparison agrees with comparing the written pixel. */
  lemma SameColourIsWrittenEquality(target: Rgba, f: FillColor)
    requires f.r.Value? && f.g.Value? && f.b.Value?
    requires 0 <= f.r.v <= 255 && 0 <= f.g.v <= 255 && 0 <= f.b.v <= 255
    ensures SameColour(target, f) <==> WrittenFill(f) == target
  {
  }

  // The colour picker's side: a byte as two lower-case hex digits.

  function HexDigit(n: int): (c: char)
    requires 0 <= n < 16
    ensures HexDigitValue(c) == Some(n)
  {
    if n < 10 then (48 + n) as char else (87 + n) as char
  }

  function ByteHex(n: int): (s: string)
    requires 0 <= n <= 255
    ensures |s| == 2
  {
    [HexDigit(n / 16), HexDigit(n % 16)]
  }

  /** `#rrggbb`. */
  function ToHex(r: int, g: int, b: int): (s: string)
    requires 0 <= r <= 255 && 0 <= g <= 255 && 0 <= b <= 255
    ensures |s| == 7 && s[0] == '#'
  {
    "#" + ByteHex(r) + ByteHex(g) + ByteHex(b)
  }

  lemma {:induction false} ParseByteHex(n: int)
    requires 0 <= n <= 255
    ensures ParseHex(ByteHex(n)) == Value(n)
  {
    var s := ByteHex(n);
    assert !IsStrWhiteSpace(s[0]);
    assert TrimStart(s) == s;
    assert s[1] != 'x' && s[1] != 'X';
    assert HexRun(s[1..]) == 1;
    assert HexRun(s) == 2;
    assert s[..2] == s;
    assert s[..1] == [s[0]];
    assert HexValue(s[..1]) == n / 16;
  }

  /** `hexToRgba` inverts the `#rrggbb` encoding. */
  lemma {:induction false} HexRoundTrip(r: int, g: int, b: int)
    requires 0 <= r <= 255 && 0 <= g <= 255 && 0 <= b <= 255
    ensures HexToRgba(ToHex(r, g, b)) == FillColor(Value(r), Value(g), Value(b))
  {
    var s := ToHex(r, g, b);
    var v := s[1..];
    assert RemoveFirst(s, '#') == v;
    assert ColourDigits(s) == v;
    assert Substring(v, 0, 2) == ByteHex(r);
    assert Substring(v, 2, 4) == ByteHex(g);
    assert Substring(v, 4, 6) == ByteHex(b);
    ParseByteHex(r);
    ParseByteHex(g);
    ParseByteHex(b);
  }

  /** The three-digit shorthand `#rgb` means `#rrggbb`. */
  lemma ShortFormDoubles(x: char, y: char, z: char)
    requires x != '#' && y != '#' && z != '#'
    ensures HexToRgba(['#', x, y, z]) == HexToRgba(['#', x, x, y, y, z, z])
  {
    assert RemoveFirst(['#', x, y, z], '#') == [x, y, z];
    assert RemoveFirst(['#', x, x, y, y, z, z], '#') == [x, x, y, y, z, z];
  }

  /** A digit that is not hexadecimal makes its channel NaN, which no pixel equals. */
  lemma BadDigitIsNaN(x: char, rest: string)
    requires !IsHexDigit(x) && !IsStrWhiteSpace(x) && x != '-' && x != '+' && x != '#'
    requires |rest| == 5
    ensures HexToRgba(['#', x] + rest).r == NotANumber
  {
    var s := ['#', x] + rest;
    assert s[0] == '#';
    var v := [x] + rest;
    assert s[1..] == v;
    assert RemoveFirst(s, '#') == v;
    assert ColourDigits(s) == v;
    var c := Substring(v, 0, 2);
    assert c == [x, rest[0]];
    assert TrimStart(c) == c;
    assert HexRun(c) == 0;
  }
}
