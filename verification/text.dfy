/** Character-level helpers used by the pages' search boxes and by the
    mock session store: ASCII lower-casing, substring search, the first
    piece of a `split`, and decimal rendering of naturals. */
module Text {

  /** ASCII lower-casing of one character; everything outside 'A'..'Z' is kept. */
  function LowerChar(c: char): char {
    if 'A' <= c <= 'Z' then (c as int + 32) as char else c
  }

  /** `s.toLowerCase()`, restricted to ASCII letters: no capital is left, and
      every character that is not a capital is kept where it was. */
  function Lower(s: string): (r: string)
    ensures |r| == |s|
    ensures forall i :: 0 <= i < |s| ==> r[i] == LowerChar(s[i])
    ensures forall i :: 0 <= i < |r| ==> !('A' <= r[i] <= 'Z')
    ensures forall i :: 0 <= i < |s| && !('A' <= s[i] <= 'Z') ==> r[i] == s[i]
  {
    seq(|s|, i requires 0 <= i < |s| => LowerChar(s[i]))
  }

  /** `hay.includes(needle)`: `needle` occurs as a contiguous block of `hay`.
      The empty string is contained in everything; nothing longer than `hay` is. */
  function Contains(hay: string, needle: string): (b: bool)
    ensures |needle| == 0 ==> b
    ensures b ==> |needle| <= |hay|
    decreases |hay|
  {
    if |needle| > |hay| then false
    else if hay[..|needle|] == needle then true
    else |hay| > 0 && Contains(hay[1..], needle)
  }

  /** `needle` occurs in `hay` starting at position `i`. */
  predicate OccursAt(hay: string, needle: string, i: int) {
    0 <= i && i + |needle| <= |hay| && hay[i..i + |needle|] == needle
  }

  /** The recursive search finds `needle` exactly when it occurs at some
      position of `hay`. */
  lemma {:induction false} ContainsIffOccurs(hay: string, needle: string)
    ensures Contains(hay, needle) <==> exists i :: OccursAt(hay, needle, i)
    decreases |hay|
  {
    if |needle| > |hay| {
    } else if hay[..|needle|] == needle {
      assert OccursAt(hay, needle, 0);
    } else {
      ContainsIffOccurs(hay[1..], needle);
      if Contains(hay[1..], needle) {
        var i :| OccursAt(hay[1..], needle, i);
        assert hay[i + 1..i + 1 + |needle|] == hay[1..][i..i + |needle|];
        assert OccursAt(hay, needle, i + 1);
      }
      if exists i :: OccursAt(hay, needle, i) {
        var i :| OccursAt(hay, needle, i);
        assert i != 0;
        assert hay[1..][i - 1..i - 1 + |needle|] == hay[i..i + |needle|];
        assert OccursAt(hay[1..], needle, i - 1);
      }
    }
  }

  /** `s.split(sep)[0]`: the text before the first `sep`, or all of `s`
      when `sep` does not occur. */
  function BeforeFirst(s: string, sep: char): (r: string)
    ensures r <= s
    ensures sep !in r
    ensures |r| < |s| ==> s[|r|] == sep
  {
    if |s| == 0 then ""
    else if s[0] == sep then ""
    else [s[0]] + BeforeFirst(s[1..], sep)
  }

  /** The character for a decimal digit. */
  function DigitChar(d: nat): char
    requires d < 10
  {
    ('0' as int + d) as char
  }

  predicate IsDigit(c: char) {
    '0' <= c <= '9'
  }

  /** The numeric value of a decimal digit character. */
  function DigitValue(c: char): (d: nat)
    requires IsDigit(c)
    ensures d < 10
  {
    c as int - '0' as int
  }

  /** JavaScript's rendering of a non-negative integer as a decimal string
      (`${n}`): most significant digit first, no leading zero. */
  function Digits(n: nat): (r: string)
    ensures |r| >= 1
    ensures forall i :: 0 <= i < |r| ==> IsDigit(r[i])
    ensures n > 0 ==> r[0] != '0'
  {
    if n < 10 then [DigitChar(n)] else Digits(n / 10) + [DigitChar(n % 10)]
  }

  /** The number a string of decimal digits denotes. */
  function DecimalValue(s: string): nat
    requires forall i :: 0 <= i < |s| ==> IsDigit(s[i])
  {
    if |s| == 0 then 0 else 10 * DecimalValue(s[..|s| - 1]) + DigitValue(s[|s| - 1])
  }

  /** Reading back the digits of `n` gives `n`. */
  lemma {:induction false} DecimalRoundTrip(n: nat)
    ensures DecimalValue(Digits(n)) == n
  {
    if n >= 10 {
      var s := Digits(n);
      assert s[..|s| - 1] == Digits(n / 10);
      DecimalRoundTrip(n / 10);
    }
  }

  /** Four-digit numbers render as exactly four characters. */
  lemma FourDigits(n: nat)
    requires 1000 <= n <= 9999
    ensures |Digits(n)| == 4
  {
    assert |Digits(n / 1000)| == 1;
    assert |Digits(n / 100)| == 2;
    assert |Digits(n / 10)| == 3;
  }
}
