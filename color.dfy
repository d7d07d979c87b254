/**
 * The border-colour check of the test page: a colour code is accepted when
 * it is "#" followed by exactly six lower-case hexadecimal digits, and the
 * page keeps a new border colour only when it is accepted.
 */
module Color {

  const CodeLength := 7

  /** A character in '0'..'9' or 'a'..'f'. */
  predicate IsLowerHexDigit(c: char)
  {
    ('0' <= c <= '9') || ('a' <= c <= 'f')
  }

  /** The colour codes the check accepts. */
  predicate IsValidColorCode(color: string)
  {
    |color| == CodeLength && color[0] == '#' && forall i :: 1 <= i < CodeLength ==> IsLowerHexDigit(color[i])
  }

  /**
   * `checkValidColorCode`: reject a code of the wrong length or without a
   * leading '#', then scan positions 1 to 6 and reject at the first
   * character that is not a lower-case hexadecimal digit.
   */
  method CheckValidColorCode(color: string) returns (ok: bool)
    ensures ok <==> IsValidColorCode(color)
  {
    if |color| != CodeLength || color[0] != '#' {
      return false;
    }
    for i := 1 to CodeLength
      invariant forall j :: 1 <= j < i ==> IsLowerHexDigit(color[j])
    {
      if !('0' <= color[i] <= '9') && !('a' <= color[i] <= 'f') {
        return false;
      }
    }
    return true;
  }

  // ---------------------------------------------------------------------------
  // The accepted codes are exactly the renderings of the 24-bit colours
  // ---------------------------------------------------------------------------

  const ColorCount := 0x100_0000

  /** The lower-case digit of a value below 16. */
  function HexDigit(d: nat): (c: char)
    requires d < 16
    ensures IsLowerHexDigit(c)
  {
    if d < 10 then ('0' as int + d) as char else ('a' as int + d - 10) as char
  }

  /** The value of a lower-case digit. */
  function DigitValue(c: char): (d: nat)
    requires IsLowerHexDigit(c)
    ensures d < 16 && HexDigit(d) == c
  {
    if c <= '9' then c as int - '0' as int else c as int - 'a' as int + 10
  }

  lemma DigitValueOfHexDigit(d: nat)
    requires d < 16
    ensures DigitValue(HexDigit(d)) == d
  {
  }

  /** `k` lower-case digits of `v`, most significant first. */
  function Hex(v: nat, k: nat): (s: string)
    ensures |s| == k && forall i :: 0 <= i < k ==> IsLowerHexDigit(s[i])
  {
    if k == 0 then "" else Hex(v / 16, k - 1) + [HexDigit(v % 16)]
  }

  /** The value of a string of lower-case digits. */
  function HexValue(s: string): nat
    requires forall i :: 0 <= i < |s| ==> IsLowerHexDigit(s[i])
  {
    if s == "" then 0 else 16 * HexValue(s[..|s| - 1]) + DigitValue(s[|s| - 1])
  }

  function Pow16(k: nat): (p: nat)
    ensures p > 0
  {
    if k == 0 then 1 else 16 * Pow16(k - 1)
  }

  /** Reading back `k` digits of `v` gives `v` when it fits in `k` digits. */
  lemma {:induction false} HexValueOfHex(v: nat, k: nat)
    requires v < Pow16(k)
    ensures HexValue(Hex(v, k)) == v
  {
    if k > 0 {
      var s := Hex(v, k);
      assert s[..k - 1] == Hex(v / 16, k - 1);
      HexValueOfHex(v / 16, k - 1);
      DigitValueOfHexDigit(v % 16);
    }
  }

  /** Writing out the value of a digit string gives the string back. */
  lemma {:induction false} HexOfHexValue(s: string)
    requires forall i :: 0 <= i < |s| ==> IsLowerHexDigit(s[i])
    ensures HexValue(s) < Pow16(|s|) && Hex(HexValue(s), |s|) == s
  {
    if s != "" {
      var init := s[..|s| - 1];
      HexOfHexValue(init);
      var v := HexValue(s);
      assert v / 16 == HexValue(init) && v % 16 == DigitValue(s[|s| - 1]);
      assert s == init + [s[|s| - 1]];
    }
  }

  /** The code of a 24-bit colour. */
  function Render(v: nat): string
    requires v < ColorCount
  {
    "#" + Hex(v, 6)
  }

  /** The colour a valid code stands for. */
  function Parse(color: string): nat
    requires IsValidColorCode(color)
  {
    HexValue(color[1..])
  }

  /** Every colour renders to an accepted code that parses back to it. */
  lemma RenderIsValid(v: nat)
    requires v < ColorCount
    ensures IsValidColorCode(Render(v)) && Parse(Render(v)) == v
  {
    assert Render(v)[1..] == Hex(v, 6);
    assert Pow16(6) == ColorCount;
    HexValueOfHex(v, 6);
  }

  /** Every accepted code is the rendering of exactly the colour it parses to. */
  lemma ValidIsRendered(color: string)
    requires IsValidColorCode(color)
    ensures Parse(color) < ColorCount && Render(Parse(color)) == color
  {
    HexOfHexValue(color[1..]);
    assert Pow16(6) == ColorCount;
    assert color == "#" + color[1..];
  }

  /** A code of the wrong length is rejected. */
  lemma WrongLengthRejected(color: string)
    requires |color| != CodeLength
    ensures !IsValidColorCode(color)
  {
  }

  /** A code that does not start with '#' is rejected. */
  lemma MissingHashRejected(color: string)
    requires |color| > 0 && color[0] != '#'
    ensures !IsValidColorCode(color)
  {
  }

  /** Upper-case digits are rejected: "#FFFFFF" is not accepted, "#ffffff" is. */
  lemma UpperCaseRejected()
    ensures !IsValidColorCode("#FFFFFF")
    ensures IsValidColorCode("#ffffff")
  {
    assert "#FFFFFF"[1] == 'F';
  }

  /** The page's border-colour state and its watcher. */
  class BorderColorPage {
    var borderColor: string

    constructor(initial: string)
      ensures borderColor == initial
    {
      borderColor := initial;
    }

    /** `onBorderColorChange`: take the new value only when it is an accepted code. */
    method OnBorderColorChange(val: string)
      modifies this
      ensures IsValidColorCode(val) ==> borderColor == val
      ensures !IsValidColorCode(val) ==> borderColor == old(borderColor)
    {
      var ok := CheckValidColorCode(val);
      if ok {
        borderColor := val;
      }
    }
  }
}
