/** Decimal and hexadecimal digits. */
module Digits {
  import opened Wrappers

  predicate IsDigit(c: char) {
    '0' <= c <= '9'
  }

  function Digit(d: nat): (c: char)
    requires d < 10
    ensures IsDigit(c) && DigitValue(c) == d
  {
    ('0' as int + d) as char
  }

  function DigitValue(c: char): nat
    requires IsDigit(c)
  {
    c as int - '0' as int
  }

  /** Hexadecimal letters may have either case. */
  function HexValue(c: char): (v: Option<nat>)
    ensures v.Some? ==> v.value < 16
  {
    if IsDigit(c) then Some(DigitValue(c))
    else if 'a' <= c <= 'f' then Some(c as int - 'a' as int + 10)
    else if 'A' <= c <= 'F' then Some(c as int - 'A' as int + 10)
    else None
  }

  /** Digits count up from `0`, and hexadecimal letters of both cases from ten; there are no other digits. */
  lemma HexAlphabet(c: char)
    ensures HexValue('0') == Some(0) && HexValue('A') == HexValue('a') == Some(10)
    ensures '0' < c <= '9' || 'A' < c <= 'F' || 'a' < c <= 'f' ==>
              var before := HexValue((c as int - 1) as char);
              before.Some? && HexValue(c) == Some(before.value + 1)
    ensures c < '0' || '9' < c < 'A' || 'F' < c < 'a' || 'f' < c ==> HexValue(c).None?
  {
  }

  function HexDigit(v: nat): (c: char)
    requires v < 16
    ensures HexValue(c) == Some(v)
  {
    if v < 10 then ('0' as int + v) as char else ('a' as int + v - 10) as char
  }
}
