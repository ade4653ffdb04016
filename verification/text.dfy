/**
 * The JavaScript string operations the barcode code relies on, over `string`
 * (`seq<char>`, one `char` per Unicode scalar value). JavaScript's `length`,
 * indexing, `charAt` and `substring` count UTF-16 code units instead; the two
 * agree on every string without characters beyond U+FFFF.
 */
module Text {

  /** The regular-expression class `\d`: an ASCII decimal digit only. */
  predicate IsDigit(c: char) {
    '0' <= c <= '9'
  }

  /** Every character of `s` is an ASCII digit. */
  predicate IsDigits(s: string) {
    forall i | 0 <= i < |s| :: IsDigit(s[i])
  }

  /** The test `/^\d{n}$/.test(s)`: exactly `n` ASCII digits and nothing else. */
  predicate IsDigitString(s: string, n: nat) {
    |s| == n && IsDigits(s)
  }

  /** Joining two digit strings gives a digit string. */
  lemma DigitsConcat(a: string, b: string)
    requires IsDigits(a) && IsDigits(b)
    ensures IsDigits(a + b)
  {
    forall k | 0 <= k < |a + b|
      ensures IsDigit((a + b)[k])
    {
      if k < |a| {
        assert (a + b)[k] == a[k];
      } else {
        assert (a + b)[k] == b[k - |a|];
      }
    }
  }

  /** Every slice of a digit string is a digit string. */
  lemma DigitsSlice(s: string, i: nat, j: nat)
    requires IsDigits(s) && i <= j <= |s|
    ensures IsDigits(s[i..j]) && IsDigits(s[..j])
  {
    assert forall k | 0 <= k < j - i :: s[i..j][k] == s[i + k];
    assert forall k | 0 <= k < j :: s[..j][k] == s[k];
  }

  /** `parseInt` of a one-digit string. */
  function DigitValue(c: char): int {
    c as int - '0' as int
  }

  function DigitChar(d: int): (c: char)
    requires 0 <= d <= 9
    ensures IsDigit(c) && DigitValue(c) == d
  {
    ('0' as int + d) as char
  }

  /** `s.charAt(i)`: the one-character string at `i`, or "" when `i` is out of range. */
  function CharAt(s: string, i: int): string {
    if 0 <= i < |s| then [s[i]] else ""
  }

  function Clamp(i: int, n: nat): (r: nat)
    ensures r <= n
  {
    if i < 0 then 0 else if i > n then n else i
  }

  /**
   * `s.substring(start, end)`: both bounds are clamped to `[0, |s|]` and
   * swapped when the start lies after the end.
   */
  function Substring(s: string, start: int, end: int): string {
    var a := Clamp(start, |s|);
    var b := Clamp(end, |s|);
    if a <= b then s[a..b] else s[b..a]
  }

  /** Within range, `substring` is the plain slice. */
  lemma SubstringInRange(s: string, start: int, end: int)
    requires 0 <= start <= end <= |s|
    ensures Substring(s, start, end) == s[start..end]
  {
  }

  /** A `substring` of a slice, in range, is a slice of the whole. */
  lemma SubstringOfSlice(s: string, i: nat, j: nat, start: nat, end: nat)
    requires i <= j <= |s| && start <= end <= j - i
    ensures Substring(s[i..j], start, end) == s[i + start..i + end]
  {
    var m := s[i..j];
    SubstringInRange(m, start, end);
    assert |m[start..end]| == |s[i + start..i + end]|;
    forall k | 0 <= k < end - start
      ensures m[start..end][k] == s[i + start..i + end][k]
    {
      assert m[start..end][k] == m[start + k] == s[i + start + k];
    }
  }

  /** `s.startsWith(p)`. */
  predicate StartsWith(s: string, p: string) {
    |p| <= |s| && s[..|p|] == p
  }

  /**
   * The decimal text of a non-negative integer, as a template literal
   * `${n}` writes it: digits only, no sign, no leading zero.
   */
  function NatToString(n: nat): (r: string)
    ensures |r| >= 1 && IsDigits(r)
    ensures r[0] == '0' <==> n == 0
    decreases n
  {
    if n < 10 then [DigitChar(n)] else NatToString(n / 10) + [DigitChar(n % 10)]
  }

  /** The number a string of decimal digits denotes (most significant digit first). */
  function DecimalValue(s: string): nat
    requires IsDigits(s)
    decreases |s|
  {
    if |s| == 0 then 0 else 10 * DecimalValue(s[..|s| - 1]) + DigitValue(s[|s| - 1])
  }

  /** Reading the decimal text of `n` back gives `n`. */
  lemma {:induction false} DecimalRoundTrip(n: nat)
    ensures DecimalValue(NatToString(n)) == n
    decreases n
  {
    var r := NatToString(n);
    if n >= 10 {
      DecimalRoundTrip(n / 10);
      assert r[..|r| - 1] == NatToString(n / 10);
    }
  }

  /** The number a three-digit string denotes, digit by digit. */
  lemma DecimalValueOfThreeDigits(s: string)
    requires IsDigitString(s, 3)
    ensures DecimalValue(s) == 100 * DigitValue(s[0]) + 10 * DigitValue(s[1]) + DigitValue(s[2])
  {
    assert s[..2][..1] == s[..1] && s[..1][..0] == [];
    calc {
      DecimalValue(s);
      10 * DecimalValue(s[..2]) + DigitValue(s[2]);
      10 * (10 * DecimalValue(s[..1]) + DigitValue(s[1])) + DigitValue(s[2]);
      10 * (10 * DigitValue(s[0]) + DigitValue(s[1])) + DigitValue(s[2]);
    }
  }
}
