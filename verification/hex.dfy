/**
 * The decoding `bytearray.fromhex` performs on a colour string: consecutive
 * pairs of hexadecimal digits (either case) become one byte each; an odd
 * number of digits or a character that is not a hex digit is an error.
 */
module Hex {
  import opened Wrappers
  import opened CommandUtils

  predicate IsHexDigit(c: char) {
    '0' <= c <= '9' || 'a' <= c <= 'f' || 'A' <= c <= 'F'
  }

  /** The value 0..15 of one hex digit. */
  function DigitValue(c: char): (v: nat)
    requires IsHexDigit(c)
    ensures v < 16
  {
    if '0' <= c <= '9' then c as int - '0' as int
    else if 'a' <= c <= 'f' then c as int - 'a' as int + 10
    else c as int - 'A' as int + 10
  }

  /** The lower-case digit for a value 0..15. */
  function Digit(v: nat): (c: char)
    requires v < 16
    ensures IsHexDigit(c) && DigitValue(c) == v
  {
    if v < 10 then ('0' as int + v) as char else ('a' as int + v - 10) as char
  }

  /** True when `s` is made of hex digits only and has an even length. */
  predicate IsHexString(s: string) {
    |s| % 2 == 0 && forall i :: 0 <= i < |s| ==> IsHexDigit(s[i])
  }

  /** bytearray.fromhex without the whitespace it tolerates between pairs. */
  function FromHex(s: string): (r: Option<seq<Byte>>)
    ensures r.Some? ==> 2 * |r.value| == |s|
    decreases |s|
  {
    if |s| == 0 then Some([])
    else if |s| == 1 || !IsHexDigit(s[0]) || !IsHexDigit(s[1]) then None
    else
      match FromHex(s[2..])
      case None => None
      case Some(rest) => Some([16 * DigitValue(s[0]) + DigitValue(s[1])] + rest)
  }

  /** The lower-case two-digit-per-byte spelling of a byte string, as a colour function returns it. */
  function ToHex(b: seq<Byte>): (s: string)
    ensures |s| == 2 * |b|
  {
    if b == [] then "" else [Digit(b[0] / 16), Digit(b[0] % 16)] + ToHex(b[1..])
  }

  /** Decoding succeeds exactly on strings of an even number of hex digits. */
  lemma {:induction false} FromHexSucceedsIff(s: string)
    ensures FromHex(s).Some? <==> IsHexString(s)
    decreases |s|
  {
    if |s| >= 2 {
      FromHexSucceedsIff(s[2..]);
      assert forall i :: 2 <= i < |s| ==> s[i] == s[2..][i - 2];
    }
  }

  /** Decoding the spelling of a byte string gives the byte string back. */
  lemma {:induction false} FromHexToHex(b: seq<Byte>)
    ensures FromHex(ToHex(b)) == Some(b)
  {
    if b != [] {
      var s := ToHex(b);
      assert s[2..] == ToHex(b[1..]);
      FromHexToHex(b[1..]);
      assert [b[0]] + b[1..] == b;
    }
  }

  /**
   * Byte i of the decoded string is the value of digits 2i and 2i+1, so a six-digit
   * colour string `rrggbb` decodes to its red, green and blue bytes in that order.
   */
  lemma {:induction false} FromHexAt(s: string, i: nat)
    requires FromHex(s).Some? && i < |FromHex(s).value|
    ensures IsHexDigit(s[2 * i]) && IsHexDigit(s[2 * i + 1])
    ensures FromHex(s).value[i] == 16 * DigitValue(s[2 * i]) + DigitValue(s[2 * i + 1])
    decreases |s|
  {
    if i > 0 {
      FromHexAt(s[2..], i - 1);
    }
  }

  /**
   * A six-digit colour string `rrggbb` yields exactly the frame create_color_command
   * builds from its red, green and blue bytes.
   */
  lemma SixDigitColor(hex: string)
    requires |hex| == 6 && IsHexString(hex)
    ensures FromHex(hex).Some? && |FromHex(hex).value| == 3
    ensures var b := FromHex(hex).value;
      && b[0] == 16 * DigitValue(hex[0]) + DigitValue(hex[1])
      && b[1] == 16 * DigitValue(hex[2]) + DigitValue(hex[3])
      && b[2] == 16 * DigitValue(hex[4]) + DigitValue(hex[5])
      && Some(ColorCommandBytes(b)) == ColorCommand(b[0], b[1], b[2])
  {
    FromHexSucceedsIff(hex);
    FromHexAt(hex, 0);
    FromHexAt(hex, 1);
    FromHexAt(hex, 2);
  }
}
