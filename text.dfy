/** String operations: `toLowerCase`, `includes`, and the decimal `toString` used for record ids. */
module Text {

  /** `toLowerCase` on one character, for the ASCII letters. */
  function LowerChar(c: char): char {
    if 'A' <= c <= 'Z' then (c as int + 32) as char else c
  }

  function ToLower(s: string): string {
    seq(|s|, i requires 0 <= i < |s| => LowerChar(s[i]))
  }

  predicate IsPrefix(p: string, s: string) {
    |p| <= |s| && s[..|p|] == p
  }

  /** `hay.includes(needle)`: `needle` occurs in `hay` at some position. */
  predicate Includes(hay: string, needle: string)
    decreases |hay|
  {
    IsPrefix(needle, hay) || (hay != [] && Includes(hay[1..], needle))
  }

  /** `hay.toLowerCase().includes(needle.toLowerCase())`. */
  predicate IncludesIgnoreCase(hay: string, needle: string) {
    Includes(ToLower(hay), ToLower(needle))
  }

  /** Every string includes the empty string, so an empty search term matches everything. */
  lemma IncludesEmpty(hay: string)
    ensures IncludesIgnoreCase(hay, "")
  {
    assert ToLower("") == "";
    assert IsPrefix("", ToLower(hay));
  }

  /** The definition by recursion agrees with "occurs at some index". */
  lemma {:induction false} IncludesAt(hay: string, needle: string)
    ensures Includes(hay, needle) <==>
            exists i :: 0 <= i <= |hay| - |needle| && IsPrefix(needle, hay[i..])
  {
    assert hay[0..] == hay;
    if hay != [] {
      IncludesAt(hay[1..], needle);
      if Includes(hay[1..], needle) {
        var i :| 0 <= i <= |hay[1..]| - |needle| && IsPrefix(needle, hay[1..][i..]);
        assert hay[1..][i..] == hay[i + 1..];
      }
      if i :| 0 < i <= |hay| - |needle| && IsPrefix(needle, hay[i..]) {
        assert hay[1..][i - 1..] == hay[i..];
      }
    }
  }

  predicate IsDigit(c: char) {
    '0' <= c <= '9'
  }

  predicate AllDigits(s: string) {
    forall i :: 0 <= i < |s| ==> IsDigit(s[i])
  }

  function DigitChar(d: nat): (c: char)
    requires d < 10
    ensures IsDigit(c)
  {
    ('0' as int + d) as char
  }

  function DigitValue(c: char): (d: nat)
    requires IsDigit(c)
    ensures d < 10
  {
    c as int - '0' as int
  }

  /** `n.toString()` for a natural number: its decimal digits without leading zeros. */
  function DecimalString(n: nat): (r: string)
    ensures |r| >= 1 && AllDigits(r)
    ensures r[0] == '0' ==> n == 0
  {
    if n < 10 then [DigitChar(n)] else DecimalString(n / 10) + [DigitChar(n % 10)]
  }

  /** The number a string of decimal digits denotes. */
  function DecimalValue(s: string): nat
    requires AllDigits(s)
  {
    if s == [] then 0 else DecimalValue(s[..|s| - 1]) * 10 + DigitValue(s[|s| - 1])
  }

  /** Reading back a number's decimal string gives the number. */
  lemma {:induction false} DecimalRoundTrip(n: nat)
    ensures DecimalValue(DecimalString(n)) == n
  {
    var s := DecimalString(n);
    if n >= 10 {
      DecimalRoundTrip(n / 10);
      assert s[..|s| - 1] == DecimalString(n / 10);
    }
  }

  /** Distinct numbers have distinct decimal strings, so `(length + 1).toString()` never repeats an id. */
  lemma DecimalStringInjective(m: nat, n: nat)
    ensures DecimalString(m) == DecimalString(n) ==> m == n
  {
    DecimalRoundTrip(m);
    DecimalRoundTrip(n);
  }
}
