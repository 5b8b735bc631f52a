/** Text helpers over ASCII: case folding for `iexact`/`icontains`, substring search,
    digit strings for `str.isdigit`, and decimal rendering of integers for f-strings. */
module Text {

  predicate IsDigit(c: char) {
    '0' <= c <= '9'
  }

  /** `str.isdigit` restricted to ASCII: non-empty and made of digits only. */
  predicate IsDigits(s: string) {
    |s| > 0 && forall i :: 0 <= i < |s| ==> IsDigit(s[i])
  }

  function LowerChar(c: char): (r: char)
    ensures !('A' <= r <= 'Z')
    ensures r == c || ('A' <= c <= 'Z' && r as int == c as int + 32)
  {
    if 'A' <= c <= 'Z' then (c as int + 32) as char else c
  }

  function Lower(s: string): (r: string)
    ensures |r| == |s|
    ensures forall i :: 0 <= i < |s| ==> r[i] == LowerChar(s[i])
  {
    if s == [] then [] else [LowerChar(s[0])] + Lower(s[1..])
  }

  /** Django's `iexact` lookup, over ASCII. */
  predicate EqualsIgnoreCase(a: string, b: string) {
    Lower(a) == Lower(b)
  }

  predicate StartsWith(s: string, prefix: string) {
    |prefix| <= |s| && s[..|prefix|] == prefix
  }

  /** Substring search, scanning the haystack from the left. */
  predicate Contains(hay: string, needle: string)
    decreases |hay|
  {
    StartsWith(hay, needle) || (|hay| > 0 && Contains(hay[1..], needle))
  }

  /** The scan finds the needle exactly when it occurs at some offset. */
  lemma {:induction false} ContainsIffOccurs(hay: string, needle: string)
    ensures Contains(hay, needle) <==> exists i :: 0 <= i <= |hay| && StartsWith(hay[i..], needle)
    decreases |hay|
  {
    assert hay[0..] == hay;
    if !StartsWith(hay, needle) && |hay| > 0 {
      ContainsIffOccurs(hay[1..], needle);
      if Contains(hay[1..], needle) {
        var i :| 0 <= i <= |hay| - 1 && StartsWith(hay[1..][i..], needle);
        assert hay[1..][i..] == hay[i + 1..];
      }
      if exists i :: 0 <= i <= |hay| && StartsWith(hay[i..], needle) {
        var i :| 0 <= i <= |hay| && StartsWith(hay[i..], needle);
        assert hay[1..][i - 1..] == hay[i..];
      }
    }
  }

  /** Django's `icontains` lookup, over ASCII. */
  predicate ContainsIgnoreCase(hay: string, needle: string) {
    Contains(Lower(hay), Lower(needle))
  }

  function DigitChar(d: nat): (c: char)
    requires d < 10
    ensures IsDigit(c)
    ensures d != 0 ==> c != '0'
  {
    (48 + d) as char
  }

  function DigitValue(c: char): (d: nat)
    requires IsDigit(c)
    ensures d < 10
  {
    c as int - 48
  }

  /** Decimal rendering of a natural number, as `str(n)` gives it: no leading zero. */
  function NatToDecimal(n: nat): (s: string)
    ensures IsDigits(s)
    ensures s[0] == '0' ==> n == 0
    ensures |s| > 1 ==> s[0] != '0'
    decreases n
  {
    if n < 10 then [DigitChar(n)] else NatToDecimal(n / 10) + [DigitChar(n % 10)]
  }

  /** The number a digit string denotes. */
  function DecimalValue(s: string): nat
    requires forall i :: 0 <= i < |s| ==> IsDigit(s[i])
  {
    if s == [] then 0 else 10 * DecimalValue(s[..|s| - 1]) + DigitValue(s[|s| - 1])
  }

  lemma {:induction false} DecimalRoundTrip(n: nat)
    ensures DecimalValue(NatToDecimal(n)) == n
    decreases n
  {
    if n >= 10 {
      var s := NatToDecimal(n / 10);
      DecimalRoundTrip(n / 10);
      assert (s + [DigitChar(n % 10)])[..|s|] == s;
    }
  }

  /** Decimal rendering of an integer, as `str(i)` gives it. */
  function IntToDecimal(i: int): (r: string)
    ensures i >= 0 ==> IsDigits(r) && DecimalValue(r) == i && (|r| > 1 ==> r[0] != '0')
    ensures i < 0 ==> |r| >= 2 && r[0] == '-' && IsDigits(r[1..]) && DecimalValue(r[1..]) == -i
  {
    if i < 0 then
      DecimalRoundTrip(-i);
      assert ("-" + NatToDecimal(-i))[1..] == NatToDecimal(-i);
      "-" + NatToDecimal(-i)
    else
      DecimalRoundTrip(i);
      NatToDecimal(i)
  }
}
