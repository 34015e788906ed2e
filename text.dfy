/** The string operations the JavaScript code leans on: `toLowerCase` (ASCII
 *  letters only), `includes`, `String(n)` for whole numbers, `split('/').pop()`,
 *  and `parseFloat` applied to a string that holds only digits and dots. */
module Text {
  import opened Base

  predicate IsDigit(c: char) {
    '0' <= c <= '9'
  }

  /** Kept by `replace(/[^0-9.]/g, '')`. */
  predicate IsNumericChar(c: char) {
    IsDigit(c) || c == '.'
  }

  function LowerChar(c: char): char {
    if 'A' <= c <= 'Z' then (c as int + 32) as char else c
  }

  /** `s.toLowerCase()`, restricted to ASCII letters. */
  function Lower(s: string): (r: string)
    ensures |r| == |s| && forall i :: 0 <= i < |s| ==> r[i] == LowerChar(s[i])
  {
    seq(|s|, i requires 0 <= i < |s| => LowerChar(s[i]))
  }

  /** `s.includes(q)`: `q` occurs in `s` as a contiguous run. */
  predicate Contains(s: string, q: string) {
    exists i :: 0 <= i <= |s| && q <= s[i..]
  }

  lemma ContainsChar(s: string, c: char)
    ensures Contains(s, [c]) <==> c in s
  {
    if Contains(s, [c]) {
      var i :| 0 <= i <= |s| && [c] <= s[i..];
      assert s[i] == c;
    }
    if c in s {
      var i :| 0 <= i < |s| && s[i] == c;
      assert [c] <= s[i..];
    }
  }

  /** Every character of an occurring run is a character of the text. */
  lemma ContainsMember(s: string, q: string, i: nat)
    requires Contains(s, q) && i < |q|
    ensures q[i] in s
  {
    var k :| 0 <= k <= |s| && q <= s[k..];
    assert s[k + i] == q[i];
  }

  function DigitChar(d: nat): (c: char)
    requires d < 10
    ensures IsDigit(c)
  {
    ('0' as int + d) as char
  }

  function DigitValue(c: char): (d: nat)
    requires IsDigit(c)
    ensures d < 10 && DigitChar(d) == c
  {
    c as int - '0' as int
  }

  predicate AllDigits(s: string) {
    forall i :: 0 <= i < |s| ==> IsDigit(s[i])
  }

  /** `String(n)` for a whole number: its decimal digits, without leading zeros. */
  function NatToString(n: nat): (r: string)
    ensures |r| >= 1 && AllDigits(r)
    ensures n >= 10 ==> r[0] != '0'
    decreases n
  {
    if n < 10 then [DigitChar(n)] else NatToString(n / 10) + [DigitChar(n % 10)]
  }

  /** `String(n)` for an integer that may be negative. */
  function IntToString(n: int): (r: string)
    ensures |r| >= 1 && (n < 0 <==> r[0] == '-')
  {
    if n < 0 then "-" + NatToString(-n) else NatToString(n)
  }

  /** The number a run of decimal digits denotes. */
  function DigitsValue(s: string): nat
    requires AllDigits(s)
  {
    if s == [] then 0 else DigitsValue(s[..|s| - 1]) * 10 + DigitValue(s[|s| - 1])
  }

  /** Reading back what `String(n)` wrote gives `n`. */
  lemma {:induction false} DigitsValueOfNatToString(n: nat)
    ensures DigitsValue(NatToString(n)) == n
    decreases n
  {
    if n >= 10 {
      DigitsValueOfNatToString(n / 10);
      var s := NatToString(n);
      assert s[..|s| - 1] == NatToString(n / 10);
    }
  }

  /** The longest prefix of `s` that is made of digits. */
  function DigitPrefix(s: string): (r: string)
    ensures r <= s && AllDigits(r)
    ensures |r| < |s| ==> !IsDigit(s[|r|])
  {
    if s != [] && IsDigit(s[0]) then [s[0]] + DigitPrefix(s[1..]) else []
  }

  function Pow10(k: nat): (p: nat)
    ensures p >= 1
  {
    if k == 0 then 1 else 10 * Pow10(k - 1)
  }

  /** `parseFloat(s)` for a string of digits and dots: the digits before the
   *  first dot, then the digits after it up to the next non-digit. `None` is
   *  NaN: neither part holds a digit. */
  function ParseDecimal(s: string): Option<real>
  {
    var whole := DigitPrefix(s);
    var rest := s[|whole|..];
    var frac := if rest != [] && rest[0] == '.' then DigitPrefix(rest[1..]) else [];
    if whole == [] && frac == [] then None
    else Some(DigitsValue(whole) as real + DigitsValue(frac) as real / Pow10(|frac|) as real)
  }

  lemma {:induction false} DigitPrefixStops(s: string, t: string)
    requires AllDigits(s)
    requires t == [] || !IsDigit(t[0])
    ensures DigitPrefix(s + t) == s
    decreases |s|
  {
    if s != [] {
      assert (s + t)[1..] == s[1..] + t;
      DigitPrefixStops(s[1..], t);
    } else {
      assert s + t == t;
    }
  }

  /** `parseFloat(String(n)) === n`. */
  lemma ParseNatString(n: nat)
    ensures ParseDecimal(NatToString(n)) == Some(n as real)
  {
    var s := NatToString(n);
    DigitPrefixStops(s, []);
    assert s + [] == s;
    DigitsValueOfNatToString(n);
    assert s[|DigitPrefix(s)|..] == [];
    assert DigitsValue([]) == 0 && Pow10(0) == 1;
  }

  /** Reading back a number written with one decimal, `w.d`. */
  lemma ParseOneDecimal(w: nat, d: nat)
    requires d < 10
    ensures ParseDecimal(NatToString(w) + "." + [DigitChar(d)]) == Some(w as real + d as real / 10.0)
  {
    var s := NatToString(w);
    var t := "." + [DigitChar(d)];
    assert s + "." + [DigitChar(d)] == s + t;
    DigitPrefixStops(s, t);
    DigitsValueOfNatToString(w);
    assert (s + t)[|s|..] == t;
    DigitPrefixStops([DigitChar(d)], []);
    assert [DigitChar(d)] + [] == [DigitChar(d)];
    assert DigitsValue([DigitChar(d)]) == d by {
      assert [DigitChar(d)][..0] == [];
    }
    assert DigitPrefix(s + t) == s;
    assert t[1..] == [DigitChar(d)];
    assert DigitPrefix(t[1..]) == [DigitChar(d)];
    assert Pow10(1) == 10;
  }

  /** `s.split('/').pop()`: what follows the last slash, or all of `s`. */
  function LastSegment(s: string): (r: string)
    ensures '/' !in r && |r| <= |s| && r == s[|s| - |r|..]
    ensures |r| < |s| ==> s[|s| - |r| - 1] == '/'
  {
    if s == [] then []
    else if s[|s| - 1] == '/' then []
    else LastSegment(s[..|s| - 1]) + [s[|s| - 1]]
  }
}
