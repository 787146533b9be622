/** The pieces of the C and C++ libraries the lexer relies on: the C-locale
    character classes of <cctype>, the width of `int`, and `std::stoi`
    reduced to what it does on a run that starts with a digit. */
module CLib {
  import opened Wrappers

  const INT_MAX: int := 0x7fff_ffff

  /** The 32-bit `int` of the source. */
  newtype int32 = x: int | -0x8000_0000 <= x <= 0x7fff_ffff

  /** `isspace`: space, and the five controls tab, newline, vertical tab,
      form feed and carriage return. */
  predicate IsSpace(c: char) {
    c == ' ' || '\t' <= c <= '\r'
  }

  predicate IsDigit(c: char) {
    '0' <= c <= '9'
  }

  predicate IsAlpha(c: char) {
    'a' <= c <= 'z' || 'A' <= c <= 'Z'
  }

  predicate IsAlnum(c: char) {
    IsAlpha(c) || IsDigit(c)
  }

  predicate AllDigits(s: string) {
    forall i :: 0 <= i < |s| ==> IsDigit(s[i])
  }

  /** The length of the longest prefix of `s` made of digits. */
  function DigitRun(s: string): (k: nat)
    ensures k <= |s| && AllDigits(s[..k])
    ensures k < |s| ==> !IsDigit(s[k])
  {
    if s == [] || !IsDigit(s[0]) then 0 else 1 + DigitRun(s[1..])
  }

  /** The value of a string of decimal digits, most significant first. */
  function DecimalValue(ds: string): nat
    requires AllDigits(ds)
  {
    if ds == [] then 0
    else 10 * DecimalValue(ds[..|ds| - 1]) + (ds[|ds| - 1] as int - '0' as int)
  }

  /** `std::stoi(s)`: the value of the leading digits of `s`; anything from
      the first non-digit on is ignored. None stands for the two exceptions
      stoi throws: no digit at all, or a value beyond `int`. */
  function Stoi(s: string): Option<int32> {
    var k := DigitRun(s);
    if k == 0 then None
    else
      var v := DecimalValue(s[..k]);
      if v <= INT_MAX then Some(v as int32) else None
  }

  /** The decimal rendering of a natural number, without leading zeros. */
  function DecimalString(n: nat): (s: string)
    ensures s != [] && AllDigits(s)
  {
    var d := ['0' + (n % 10) as char];
    if n < 10 then d else DecimalString(n / 10) + d
  }

  lemma {:induction false} DecimalValueOfString(n: nat)
    ensures DecimalValue(DecimalString(n)) == n
  {
    var s := DecimalString(n);
    if n >= 10 {
      DecimalValueOfString(n / 10);
      assert s[..|s| - 1] == DecimalString(n / 10);
    }
  }

  lemma {:induction false} DigitRunOfDigits(ds: string, tail: string)
    requires AllDigits(ds)
    requires tail == [] || !IsDigit(tail[0])
    ensures DigitRun(ds + tail) == |ds|
  {
    if ds != [] {
      assert (ds + tail)[1..] == ds[1..] + tail;
      DigitRunOfDigits(ds[1..], tail);
    }
  }

  /** `stoi` reads back the decimal rendering of any number up to INT_MAX,
      whatever non-digit text follows it, and refuses every larger one. */
  lemma StoiOfDecimal(n: nat, tail: string)
    requires tail == [] || !IsDigit(tail[0])
    ensures Stoi(DecimalString(n) + tail) == if n <= INT_MAX then Some(n as int32) else None
  {
    var s := DecimalString(n);
    DigitRunOfDigits(s, tail);
    assert (s + tail)[..|s|] == s;
    DecimalValueOfString(n);
  }
}
