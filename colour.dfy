/** `hexToRgb`: the background colour parser.  It accepts exactly the strings
    matched by `/^#?([a-f\d]{2})([a-f\d]{2})([a-f\d]{2})$/i` and reads each
    digit pair as a byte; every other string gives the default background. */
module Colour {

  datatype Rgb = Rgb(r: int, g: int, b: int)

  /** The fallback `{ r: 250, g: 248, b: 245 }`. */
  const DefaultBackground: Rgb := Rgb(250, 248, 245)

  predicate IsByte(v: int) { 0 <= v <= 255 }

  predicate IsRgb(c: Rgb) { IsByte(c.r) && IsByte(c.g) && IsByte(c.b) }

  /** `[a-f\d]` under the `i` flag: an ASCII digit, or a letter a to f in
      either case. */
  predicate IsHexDigit(ch: char) {
    '0' <= ch <= '9' || 'a' <= ch <= 'f' || 'A' <= ch <= 'F'
  }

  predicate AllHex(s: string) {
    forall i :: 0 <= i < |s| ==> IsHexDigit(s[i])
  }

  /** The strings the regular expression matches: six hex digits, optionally
      after one `#`. */
  predicate IsHexColour(s: string) {
    (|s| == 6 && AllHex(s)) || (|s| == 7 && s[0] == '#' && AllHex(s[1..]))
  }

  /** The value of one hex digit. */
  function HexValue(ch: char): (v: nat)
    requires IsHexDigit(ch)
    ensures v < 16
  {
    if '0' <= ch <= '9' then ch as int - '0' as int
    else if 'a' <= ch <= 'f' then ch as int - 'a' as int + 10
    else ch as int - 'A' as int + 10
  }

  /** `parseInt(d.substr(i, 2), 16)` for a pair of hex digits. */
  function PairValue(d: string, i: nat): (v: int)
    requires i + 2 <= |d| && IsHexDigit(d[i]) && IsHexDigit(d[i + 1])
    ensures IsByte(v)
    ensures v / 16 == HexValue(d[i]) && v % 16 == HexValue(d[i + 1])
  {
    16 * HexValue(d[i]) + HexValue(d[i + 1])
  }

  /** `hexToRgb(hex)`: the three digit pairs of a well-formed colour, or the
      default background for any other string. */
  function HexToRgb(hex: string): (c: Rgb)
    ensures IsRgb(c)
    ensures !IsHexColour(hex) ==> c == DefaultBackground
  {
    if IsHexColour(hex) then
      var d := if |hex| == 7 then hex[1..] else hex;
      Rgb(PairValue(d, 0), PairValue(d, 2), PairValue(d, 4))
    else
      DefaultBackground
  }

  // The inverse of the parser: printing a colour as lower-case hex.

  function HexDigit(v: nat): (ch: char)
    requires v < 16
    ensures IsHexDigit(ch) && HexValue(ch) == v
  {
    if v < 10 then ('0' as int + v) as char else ('a' as int + v - 10) as char
  }

  function ByteToHex(v: int): (s: string)
    requires IsByte(v)
  {
    [HexDigit(v / 16), HexDigit(v % 16)]
  }

  /** The six-digit lower-case form of a colour, as `#rrggbb` without the `#`. */
  function RgbToHex(c: Rgb): (s: string)
    requires IsRgb(c)
    ensures |s| == 6 && AllHex(s)
  {
    ByteToHex(c.r) + ByteToHex(c.g) + ByteToHex(c.b)
  }

  function LowerChar(ch: char): char {
    if 'A' <= ch <= 'Z' then (ch as int + 32) as char else ch
  }

  /** ASCII lower-casing, which is all the `i` flag does to these characters. */
  function Lower(s: string): (t: string)
    ensures |t| == |s|
  {
    seq(|s|, i requires 0 <= i < |s| => LowerChar(s[i]))
  }

  /** Lower-casing a hex digit gives the printed form of its value. */
  lemma LowerHexDigit(ch: char)
    requires IsHexDigit(ch)
    ensures LowerChar(ch) == HexDigit(HexValue(ch))
  {
  }

  /** A character that lower-cases to the printed form of v is a hex digit of
      value v. */
  lemma LowerToHexDigit(ch: char, v: nat)
    requires v < 16 && LowerChar(ch) == HexDigit(v)
    ensures IsHexDigit(ch) && HexValue(ch) == v
  {
  }

  /** Every well-formed string parses to the colour it spells: lower-cased,
      it is that colour printed, with the `#` if it had one. */
  lemma HexToRgbSound(hex: string)
    requires IsHexColour(hex)
    ensures Lower(hex) == (if |hex| == 7 then "#" else "") + RgbToHex(HexToRgb(hex))
  {
    var d := if |hex| == 7 then hex[1..] else hex;
    DigitsPrint(d);
    if |hex| == 7 {
      var low := Lower(d);
      forall i | 0 <= i < 7
        ensures Lower(hex)[i] == ("#" + low)[i]
      {
        if i > 0 {
          assert hex[i] == d[i - 1];
        }
      }
    }
  }

  /** Six hex digits, lower-cased, are the colour they spell printed. */
  lemma DigitsPrint(d: string)
    requires |d| == 6 && AllHex(d)
    ensures Lower(d) == RgbToHex(Rgb(PairValue(d, 0), PairValue(d, 2), PairValue(d, 4)))
  {
    PairPrints(d, 0);
    PairPrints(d, 2);
    PairPrints(d, 4);
    var low := Lower(d);
    assert low == low[..2] + low[2..4] + low[4..];
  }

  /** A pair of hex digits, lower-cased, is its value printed. */
  lemma PairPrints(d: string, i: nat)
    requires i + 2 <= |d| && IsHexDigit(d[i]) && IsHexDigit(d[i + 1])
    ensures Lower(d)[i..i + 2] == ByteToHex(PairValue(d, i))
  {
    LowerHexDigit(d[i]);
    LowerHexDigit(d[i + 1]);
  }

  /** Every string that is, up to letter case, a colour printed in hex, with
      or without a `#`, is well-formed and parses to exactly that colour. */
  lemma HexToRgbComplete(hex: string, c: Rgb)
    requires IsRgb(c)
    requires Lower(hex) == RgbToHex(c) || Lower(hex) == "#" + RgbToHex(c)
    ensures IsHexColour(hex) && HexToRgb(hex) == c
  {
    var printed := RgbToHex(c);
    var hashed := Lower(hex) != printed;
    var d := if hashed then hex[1..] else hex;
    assert |d| == 6;
    assert Lower(d) == printed by {
      if hashed {
        forall i | 0 <= i < 6
          ensures Lower(d)[i] == printed[i]
        {
          assert Lower(hex)[i + 1] == printed[i];
        }
      }
    }
    assert printed[..2] == ByteToHex(c.r) && printed[2..4] == ByteToHex(c.g) && printed[4..] == ByteToHex(c.b);
    PairFromPrinted(d, 0, c.r);
    PairFromPrinted(d, 2, c.g);
    PairFromPrinted(d, 4, c.b);
    if hashed {
      assert Lower(hex)[0] == '#';
    }
  }

  /** A digit pair that lower-cases to the printed form of the byte v is a
      pair of hex digits that reads as v. */
  lemma PairFromPrinted(d: string, i: nat, v: int)
    requires IsByte(v) && i + 2 <= |d|
    requires Lower(d)[i..i + 2] == ByteToHex(v)
    ensures IsHexDigit(d[i]) && IsHexDigit(d[i + 1]) && PairValue(d, i) == v
  {
    assert Lower(d)[i] == Lower(d)[i..i + 2][0] == HexDigit(v / 16);
    assert Lower(d)[i + 1] == Lower(d)[i..i + 2][1] == HexDigit(v % 16);
    LowerToHexDigit(d[i], v / 16);
    LowerToHexDigit(d[i + 1], v % 16);
  }

  /** Printing a colour and parsing it back, with or without the `#`, gives
      the colour back. */
  lemma HexToRgbRoundTrip(c: Rgb)
    requires IsRgb(c)
    ensures HexToRgb(RgbToHex(c)) == c && HexToRgb("#" + RgbToHex(c)) == c
  {
    var s := RgbToHex(c);
    assert Lower(s) == s by {
      forall i | 0 <= i < 6 ensures LowerChar(s[i]) == s[i] {
        LowerHexDigit(s[i]);
      }
    }
    HexToRgbComplete(s, c);
    assert Lower("#" + s) == "#" + s by {
      forall i | 0 <= i < 7 ensures Lower("#" + s)[i] == ("#" + s)[i] {
        if i > 0 {
          LowerHexDigit(s[i - 1]);
        }
      }
    }
    HexToRgbComplete("#" + s, c);
  }
}
