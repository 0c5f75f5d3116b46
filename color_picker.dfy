/** The colour picker's hex codec: `hexToRgb` reads `#rrggbb` in either
    case and falls back to black, `rgbToHex` writes a colour back as a
    lowercase, zero-padded `#rrggbb`, and the hex text box forwards only
    the entries that look like a 3- or 6-digit colour. */
module ColorPicker {
  import opened Wrappers

  datatype Rgb = Rgb(r: nat, g: nat, b: nat)

  const Black := Rgb(0, 0, 0)

  /** Every channel fits in one byte. */
  predicate InRange(c: Rgb) {
    c.r <= 255 && c.g <= 255 && c.b <= 255
  }

  // ---------------------------------------------------------------------
  // Hex digits
  // ---------------------------------------------------------------------

  predicate IsHexDigit(c: char) {
    '0' <= c <= '9' || 'a' <= c <= 'f' || 'A' <= c <= 'F'
  }

  predicate IsLowerHexDigit(c: char) {
    '0' <= c <= '9' || 'a' <= c <= 'f'
  }

  /** The value of one hex digit, either case. */
  function DigitValue(c: char): (v: nat)
    requires IsHexDigit(c)
    ensures v < 16
  {
    if '0' <= c <= '9' then c as nat - '0' as nat
    else if 'a' <= c <= 'f' then c as nat - 'a' as nat + 10
    else c as nat - 'A' as nat + 10
  }

  /** The lowercase digit `Number.prototype.toString(16)` writes for `v`. */
  function LowerDigit(v: nat): (c: char)
    requires v < 16
    ensures IsLowerHexDigit(c) && IsHexDigit(c) && DigitValue(c) == v
  {
    if v < 10 then ('0' as nat + v) as char else ('a' as nat + v - 10) as char
  }

  /** `String.prototype.toLowerCase` on ASCII letters. */
  function ToLower(c: char): char {
    if 'A' <= c <= 'Z' then (c as nat - 'A' as nat + 'a' as nat) as char else c
  }

  function LowerAll(s: string): (r: string)
    ensures |r| == |s| && forall i :: 0 <= i < |s| ==> r[i] == ToLower(s[i])
  {
    seq(|s|, i requires 0 <= i < |s| => ToLower(s[i]))
  }

  /** Writing the value of a digit gives back the digit in lower case. */
  lemma LowerDigitOfValue(c: char)
    requires IsHexDigit(c)
    ensures LowerDigit(DigitValue(c)) == ToLower(c)
  {
  }

  // ---------------------------------------------------------------------
  // hexToRgb
  // ---------------------------------------------------------------------

  predicate AllHexDigits(s: string) {
    forall i :: 0 <= i < |s| ==> IsHexDigit(s[i])
  }

  /** `/^#?([a-f\d]{2})([a-f\d]{2})([a-f\d]{2})$/i`: an optional `#` and
      exactly six hex digits in either case. */
  predicate IsHexColour(hex: string) {
    || (|hex| == 6 && AllHexDigits(hex))
    || (|hex| == 7 && hex[0] == '#' && AllHexDigits(hex[1..]))
  }

  /** The six digits of a hex colour, without its `#`. */
  function ColourDigits(hex: string): (d: string)
    requires IsHexColour(hex)
    ensures |d| == 6 && AllHexDigits(d)
  {
    if |hex| == 7 then hex[1..] else hex
  }

  /** `parseInt(pair, 16)` for a pair of hex digits. */
  function PairValue(hi: char, lo: char): (v: nat)
    requires IsHexDigit(hi) && IsHexDigit(lo)
    ensures v <= 255
  {
    16 * DigitValue(hi) + DigitValue(lo)
  }

  /** `hexToRgb`: each channel is the value of its digit pair; anything
      that is not a 6-digit hex colour, 3-digit shorthand included, reads
      as black. */
  function HexToRgb(hex: string): (c: Rgb)
    ensures InRange(c)
    ensures !IsHexColour(hex) ==> c == Black
  {
    if IsHexColour(hex) then
      var d := ColourDigits(hex);
      Rgb(PairValue(d[0], d[1]), PairValue(d[2], d[3]), PairValue(d[4], d[5]))
    else
      Black
  }

  /** Shorthand such as `#abc` is not understood and reads as black. */
  lemma ShorthandReadsBlack(hex: string)
    requires |hex| == 3 || (|hex| == 4 && hex[0] == '#')
    ensures HexToRgb(hex) == Black
  {
  }

  // ---------------------------------------------------------------------
  // rgbToHex
  // ---------------------------------------------------------------------

  /** `n.toString(16)` for a non-negative integer. */
  function ToHexString(n: nat): string {
    if n < 16 then [LowerDigit(n)] else ToHexString(n / 16) + [LowerDigit(n % 16)]
  }

  /** `toString(16)` writes at least one digit, all of them lowercase, and
      the digits spell out `n` in base sixteen. */
  lemma {:induction false} ToHexStringDigits(n: nat)
    ensures |ToHexString(n)| > 0 && AllHexDigits(ToHexString(n))
    ensures forall i :: 0 <= i < |ToHexString(n)| ==> IsLowerHexDigit(ToHexString(n)[i])
    ensures DigitsValue(ToHexString(n)) == n
  {
    if n >= 16 {
      ToHexStringDigits(n / 16);
      var s := ToHexString(n / 16);
      DigitsValueSnoc(s, LowerDigit(n % 16));
    }
  }

  /** The number a string of hex digits spells, most significant first. */
  function DigitsValue(s: string): nat
    requires AllHexDigits(s)
  {
    if s == [] then 0 else 16 * DigitsValue(s[..|s| - 1]) + DigitValue(s[|s| - 1])
  }

  lemma DigitsValueSnoc(s: string, c: char)
    requires AllHexDigits(s)
    requires IsHexDigit(c)
    ensures DigitsValue(s + [c]) == 16 * DigitsValue(s) + DigitValue(c)
  {
    assert (s + [c])[..|s|] == s;
  }

  /** `s.padStart(width, fill)` with a one-character `fill`. */
  function PadStart(s: string, width: nat, fill: char): string
    decreases width - |s|
  {
    if |s| >= width then s else PadStart([fill] + s, width, fill)
  }

  /** `padStart` adds fill characters in front until the string is `width`
      long, and leaves a string that is already that long alone. */
  lemma {:induction false} PadStartSpec(s: string, width: nat, fill: char)
    ensures var r := PadStart(s, width, fill);
            && |r| == (if |s| >= width then |s| else width)
            && r[|r| - |s|..] == s
            && forall i :: 0 <= i < |r| - |s| ==> r[i] == fill
    decreases width - |s|
  {
    if |s| < width {
      PadStartSpec([fill] + s, width, fill);
      var r := PadStart(s, width, fill);
      assert r[|r| - |s|..] == r[|r| - |s| - 1..][1..];
    }
  }

  /** `toHex(n)` inside `rgbToHex`. */
  function ChannelHex(n: nat): string {
    PadStart(ToHexString(n), 2, '0')
  }

  /** `rgbToHex`. */
  function RgbToHex(c: Rgb): string {
    "#" + ChannelHex(c.r) + ChannelHex(c.g) + ChannelHex(c.b)
  }

  /** A byte is written as exactly two lowercase digits, high one first. */
  lemma {:induction false} ChannelHexOfByte(n: nat)
    requires n <= 255
    ensures ChannelHex(n) == [LowerDigit(n / 16), LowerDigit(n % 16)]
  {
    var lo := LowerDigit(n % 16);
    if n < 16 {
      assert n % 16 == n && n / 16 == 0;
      assert ToHexString(n) == [lo];
      assert PadStart([lo], 2, '0') == PadStart(['0', lo], 2, '0') by {
        assert ['0'] + [lo] == ['0', lo];
      }
    } else {
      var hi := LowerDigit(n / 16);
      assert n / 16 < 16;
      assert ToHexString(n / 16) == [hi];
      assert ToHexString(n) == [hi, lo];
    }
  }

  /** For a colour with byte channels, `rgbToHex` gives `#` and six
      lowercase digits, two per channel, high digit first. */
  lemma RgbToHexShape(c: Rgb)
    requires InRange(c)
    ensures RgbToHex(c) == ['#', LowerDigit(c.r / 16), LowerDigit(c.r % 16),
                                 LowerDigit(c.g / 16), LowerDigit(c.g % 16),
                                 LowerDigit(c.b / 16), LowerDigit(c.b % 16)]
  {
    var r1, r2 := LowerDigit(c.r / 16), LowerDigit(c.r % 16);
    var g1, g2 := LowerDigit(c.g / 16), LowerDigit(c.g % 16);
    var b1, b2 := LowerDigit(c.b / 16), LowerDigit(c.b % 16);
    ChannelHexOfByte(c.r);
    ChannelHexOfByte(c.g);
    ChannelHexOfByte(c.b);
    calc {
      RgbToHex(c);
      "#" + ChannelHex(c.r) + ChannelHex(c.g) + ChannelHex(c.b);
      "#" + [r1, r2] + [g1, g2] + [b1, b2];
      ['#', r1, r2, g1, g2, b1, b2];
    }
  }

  /** Splitting a pair value by sixteen gives back its two digits. */
  lemma PairDigits(hi: char, lo: char)
    requires IsHexDigit(hi) && IsHexDigit(lo)
    ensures PairValue(hi, lo) / 16 == DigitValue(hi)
    ensures PairValue(hi, lo) % 16 == DigitValue(lo)
  {
  }

  /** Reading the two digits written for a byte gives the byte back. */
  lemma PairOfByteDigits(n: nat)
    requires n <= 255
    ensures PairValue(LowerDigit(n / 16), LowerDigit(n % 16)) == n
  {
  }

  /** `hexToRgb` on a string of six hex digits behind a `#`. */
  lemma ReadHashDigits(d: string)
    requires |d| == 6 && AllHexDigits(d)
    ensures IsHexColour("#" + d) && ColourDigits("#" + d) == d
    ensures HexToRgb("#" + d) == Rgb(PairValue(d[0], d[1]), PairValue(d[2], d[3]), PairValue(d[4], d[5]))
  {
    assert ("#" + d)[1..] == d;
  }

  /** Reading back what `rgbToHex` wrote gives the same colour. */
  lemma HexRoundTrip(c: Rgb)
    requires InRange(c)
    ensures HexToRgb(RgbToHex(c)) == c
  {
    ChannelHexOfByte(c.r);
    ChannelHexOfByte(c.g);
    ChannelHexOfByte(c.b);
    var d := ChannelHex(c.r) + ChannelHex(c.g) + ChannelHex(c.b);
    assert RgbToHex(c) == "#" + d;
    ReadHashDigits(d);
    PairOfByteDigits(c.r);
    PairOfByteDigits(c.g);
    PairOfByteDigits(c.b);
  }

  /** Writing the value of a digit pair gives the pair in lower case. */
  lemma WritePair(hi: char, lo: char)
    requires IsHexDigit(hi) && IsHexDigit(lo)
    ensures ChannelHex(PairValue(hi, lo)) == [ToLower(hi), ToLower(lo)]
  {
    PairDigits(hi, lo);
    ChannelHexOfByte(PairValue(hi, lo));
    LowerDigitOfValue(hi);
    LowerDigitOfValue(lo);
  }

  /** Writing out a parsed 6-digit colour gives its digits in lower case
      behind a `#`, whether or not the input had one. */
  lemma RgbRoundTrip(hex: string)
    requires IsHexColour(hex)
    ensures RgbToHex(HexToRgb(hex)) == "#" + LowerAll(ColourDigits(hex))
  {
    var d := ColourDigits(hex);
    assert HexToRgb(hex) == Rgb(PairValue(d[0], d[1]), PairValue(d[2], d[3]), PairValue(d[4], d[5]));
    WritePair(d[0], d[1]);
    WritePair(d[2], d[3]);
    WritePair(d[4], d[5]);
    var lower := LowerAll(d);
    assert lower == [lower[0], lower[1]] + [lower[2], lower[3]] + [lower[4], lower[5]];
  }

  // ---------------------------------------------------------------------
  // The hex text box
  // ---------------------------------------------------------------------

  /** `/^([a-fA-F0-9]{3}|[a-fA-F0-9]{6})$/`: what the box forwards. */
  predicate IsHexEntry(val: string) {
    (|val| == 3 || |val| == 6) && AllHexDigits(val)
  }

  /** `s.replace('#', '')`: drops the first `#`, if any. */
  function RemoveFirstHash(s: string): (r: string)
    ensures '#' !in s ==> r == s
  {
    if s == [] then []
    else if s[0] == '#' then s[1..]
    else [s[0]] + RemoveFirstHash(s[1..])
  }

  /** `replace('#', '')` removes the first `#` and only that one: the text
      before it and everything after it are kept, later `#`s included. */
  lemma {:induction false} RemoveFirstHashDropsFirst(s: string, k: nat)
    requires k < |s| && s[k] == '#' && '#' !in s[..k]
    ensures RemoveFirstHash(s) == s[..k] + s[k + 1..]
  {
    if k > 0 {
      assert s[0] in s[..k];
      var t := s[1..];
      assert t[k - 1] == s[k];
      assert t[..k - 1] == s[1..k];
      RemoveFirstHashDropsFirst(t, k - 1);
      assert s[..k] == [s[0]] + t[..k - 1];
      assert t[k..] == s[k + 1..];
    }
  }

  /** The text box as the picker keeps it: `hexInput` is what it shows
      (behind a fixed `#`). */
  class HexField {
    var hexInput: string

    /** The picker starts with the colour it was given. */
    constructor (color: string)
      ensures hexInput == color
    {
      hexInput := color;
    }

    /** The text shown in the box. */
    function Shown(): string
      reads this
    {
      RemoveFirstHash(hexInput)
    }

    /** The box's change handler: it always remembers `#` + the typed
        text, and passes that colour on (returned here in place of the
        `onChange` call) only when the text is 3 or 6 hex digits. */
    method OnTextChange(val: string) returns (emitted: Option<string>)
      modifies this
      ensures hexInput == "#" + val
      ensures Shown() == val
      ensures emitted == if IsHexEntry(val) then Some("#" + val) else None
    {
      hexInput := "#" + val;
      EditIsEchoed(val);
      if IsHexEntry(val) {
        emitted := Some("#" + val);
      } else {
        emitted := None;
      }
    }
  }

  /** The box shows exactly what was typed after an edit. */
  lemma EditIsEchoed(val: string)
    ensures RemoveFirstHash("#" + val) == val
  {
    assert ("#" + val)[1..] == val;
  }

  /** A forwarded 6-digit entry is a colour `hexToRgb` reads and that
      `rgbToHex` writes back as the lower-cased entry. */
  lemma SixDigitEntryReadable(val: string)
    requires IsHexEntry(val) && |val| == 6
    ensures IsHexColour("#" + val)
    ensures RgbToHex(HexToRgb("#" + val)) == "#" + LowerAll(val)
  {
    assert ("#" + val)[1..] == val;
    RgbRoundTrip("#" + val);
  }

  /** A forwarded 3-digit entry is passed on, yet `hexToRgb` reads it as black. */
  lemma ShortEntryReadsBlack(val: string)
    requires IsHexEntry(val) && |val| == 3
    ensures HexToRgb("#" + val) == Black
  {
  }
}
