/** Decimal digits as Python's `\d` and `int` read them: Unicode 15.0 category Nd, in blocks of ten from each zero. */
module Decimals {
  import opened Options

  /** The zeros outside ASCII. */
  const ZEROS: set<int> := {
    0x0660, 0x06F0, 0x07C0, 0x0966, 0x09E6, 0x0A66, 0x0AE6, 0x0B66, 0x0BE6, 0x0C66, 0x0CE6, 0x0D66,
    0x0DE6, 0x0E50, 0x0ED0, 0x0F20, 0x1040, 0x1090, 0x17E0, 0x1810, 0x1946, 0x19D0, 0x1A80, 0x1A90,
    0x1B50, 0x1BB0, 0x1C40, 0x1C50, 0xA620, 0xA8D0, 0xA900, 0xA9D0, 0xA9F0, 0xAA50, 0xABF0, 0xFF10,
    0x104A0, 0x10D30, 0x11066, 0x110F0, 0x11136, 0x111D0, 0x112F0, 0x11450, 0x114D0, 0x11650, 0x116C0, 0x11730,
    0x118E0, 0x11950, 0x11C50, 0x11D50, 0x11DA0, 0x11F50, 0x16A60, 0x16AC0, 0x16B50, 0x1D7CE, 0x1D7D8, 0x1D7E2,
    0x1D7EC, 0x1D7F6, 0x1E140, 0x1E2F0, 0x1E4F0, 0x1E950, 0x1FBF0
  }

  predicate ZeroBelow(n: int, v: nat) { n - v in ZEROS }

  /** How far below code point `n` its zero lies, at most `v`. */
  function ValueUpTo(n: int, v: nat): (r: Option<nat>)
    ensures r.Some? ==> r.value <= v && ZeroBelow(n, r.value)
    ensures r == None ==> forall u: nat | u <= v :: !ZeroBelow(n, u)
  {
    if ZeroBelow(n, v) then Some(v) else if v == 0 then None else ValueUpTo(n, v - 1)
  }

  /** Below U+0660 only the ASCII digits. */
  function DigitValue(c: char): (r: Option<nat>)
    ensures r.Some? ==> r.value < 10
    ensures '0' <= c <= '9' ==> r == Some(c as int - '0' as int)
  {
    if '0' <= c <= '9' then Some(c as int - '0' as int)
    else if c as int < 0x0660 then None
    else ValueUpTo(c as int, 9)
  }

  predicate Digit(c: char) { DigitValue(c).Some? }
}
