/**
 * The `%#x` verb of Go's formatter applied to one unsigned byte: "0x"
 * followed by the value in lower-case hexadecimal with no leading zeros.
 */
module Fmt {

  predicate IsHexDigit(c: char)
  {
    '0' <= c <= '9' || 'a' <= c <= 'f'
  }

  /** The lower-case hexadecimal digit for d. */
  function HexDigit(d: nat): (c: char)
    requires d < 16
    ensures IsHexDigit(c) && DigitValue(c) == d
  {
    if d < 10 then ('0' as int + d) as char else ('a' as int + d - 10) as char
  }

  /** Value of one hexadecimal digit (0 for any other character). */
  function DigitValue(c: char): nat
  {
    if '0' <= c <= '9' then c as int - '0' as int
    else if 'a' <= c <= 'f' then c as int - 'a' as int + 10
    else 0
  }

  /** The number a string of hexadecimal digits denotes, most significant first. */
  function HexValue(ds: string): nat
  {
    if ds == [] then 0 else 16 * HexValue(ds[..|ds| - 1]) + DigitValue(ds[|ds| - 1])
  }

  /** `%#x` of a byte value. */
  function HashX(v: nat): (s: string)
    requires v < 256
    ensures |s| == if v < 16 then 3 else 4
    ensures s[..2] == "0x"
    ensures forall i | 2 <= i < |s| :: IsHexDigit(s[i])
    ensures s[2] == '0' ==> v == 0
    ensures HexValue(s[2..]) == v
  {
    var digits := if v < 16 then [HexDigit(v)] else [HexDigit(v / 16), HexDigit(v % 16)];
    assert ("0x" + digits)[2..] == digits;
    assert HexValue(digits) == v by {
      var hi := [HexDigit(v / 16)];
      assert HexValue(hi) == v / 16 by { assert hi[..0] == []; }
      if v < 16 {
        assert digits[..0] == [];
      } else {
        assert digits[..1] == hi;
        assert HexValue(digits) == 16 * (v / 16) + v % 16;
      }
    }
    "0x" + digits
  }

  /** Different bytes are never formatted alike. */
  lemma HashXInjective(a: nat, b: nat)
    requires a < 256 && b < 256
    requires HashX(a) == HashX(b)
    ensures a == b
  {
  }
}
