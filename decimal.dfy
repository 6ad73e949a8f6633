/** Decimal text of integers: JavaScript's `parseInt(s)` (radix 10) and `n.toString()`
    for natural numbers. */
module Decimal {
  import opened Wrappers

  predicate IsDigit(c: char) {
    '0' <= c <= '9'
  }

  predicate AllDigits(s: string) {
    forall i :: 0 <= i < |s| ==> IsDigit(s[i])
  }

  /** The white space `parseInt` skips before the number (ASCII part). */
  predicate IsSpace(c: char) {
    c == ' ' || c == '\t' || c == '\n' || c == '\r' || c == '\U{000B}' || c == '\U{000C}'
  }

  function DigitValue(c: char): (d: nat)
    requires IsDigit(c)
    ensures d < 10
  {
    (c as int - '0' as int) as nat
  }

  function DigitChar(d: nat): (c: char)
    requires d < 10
    ensures IsDigit(c) && DigitValue(c) == d
  {
    ('0' as int + d) as char
  }

  /** `n.toString()`: the shortest decimal numeral of `n`. */
  function Show(n: nat): (s: string)
    ensures |s| >= 1 && AllDigits(s)
    ensures (|s| > 1) == (n >= 10)
    ensures (s[0] == '0') == (n == 0)
    decreases n
  {
    if n < 10 then [DigitChar(n)] else Show(n / 10) + [DigitChar(n % 10)]
  }

  /** The number a string of decimal digits denotes, most significant digit first. */
  function Value(digits: string): nat
    requires AllDigits(digits)
  {
    if |digits| == 0 then 0
    else Value(digits[..|digits| - 1]) * 10 + DigitValue(digits[|digits| - 1])
  }

  /** The longest run of digits at the start of `s`. */
  function LeadingDigits(s: string): (d: string)
    ensures d <= s && AllDigits(d)
    ensures |d| < |s| ==> !IsDigit(s[|d|])
  {
    if |s| > 0 && IsDigit(s[0]) then [s[0]] + LeadingDigits(s[1..]) else []
  }

  /** `s` without its leading white space. */
  function TrimStart(s: string): (t: string)
    ensures |t| <= |s| && t == s[|s| - |t|..]
    ensures |t| > 0 ==> !IsSpace(t[0])
    ensures forall i :: 0 <= i < |s| - |t| ==> IsSpace(s[i])
  {
    if |s| > 0 && IsSpace(s[0]) then TrimStart(s[1..]) else s
  }

  /** `t` without one leading sign character. */
  function Unsigned(t: string): (u: string)
    ensures |u| <= |t| && |t| - |u| <= 1 && u == t[|t| - |u|..]
  {
    if |t| > 0 && (t[0] == '-' || t[0] == '+') then t[1..] else t
  }

  /** `parseInt(s)`: skip leading white space, read an optional sign, then as many
      decimal digits as there are; no digit at all gives NaN, here `None`. A plain
      numeral reads as its value, and text without any digit reads as NaN. */
  function ParseInt(s: string): (r: Option<int>)
    ensures |s| > 0 && AllDigits(s) ==> r == Some(Value(s))
    ensures (forall i :: 0 <= i < |s| ==> !IsDigit(s[i])) ==> r == None
  {
    var t := TrimStart(s);
    var digits := LeadingDigits(Unsigned(t));
    NumeralParses(s);
    DigitlessParses(s);
    if |digits| == 0 then None
    else if |t| > 0 && t[0] == '-' then Some(-(Value(digits) as int))
    else Some(Value(digits))
  }

  lemma NumeralParses(s: string)
    ensures |s| > 0 && AllDigits(s) ==>
      TrimStart(s) == s && Unsigned(s) == s && s[0] != '-' && LeadingDigits(s) == s
  {
    if |s| > 0 && AllDigits(s) {
      NumeralIsTrimmed(s);
      LeadingDigitsOfNumeral(s, []);
      assert s + [] == s;
    }
  }

  lemma NumeralIsTrimmed(s: string)
    requires |s| > 0 && IsDigit(s[0])
    ensures TrimStart(s) == s && Unsigned(s) == s && s[0] != '-'
  {
    assert !IsSpace(s[0]);
    assert s[0] != '-' && s[0] != '+';
  }

  lemma DigitlessParses(s: string)
    ensures (forall i :: 0 <= i < |s| ==> !IsDigit(s[i])) ==> LeadingDigits(Unsigned(TrimStart(s))) == []
  {
    var u := Unsigned(TrimStart(s));
    if |u| > 0 {
      assert u[0] == s[|s| - |u|];
    }
  }

  lemma {:induction false} ValueShow(n: nat)
    ensures Value(Show(n)) == n
    decreases n
  {
    if n >= 10 {
      var s := Show(n);
      assert s[..|s| - 1] == Show(n / 10);
      ValueShow(n / 10);
    }
  }

  lemma {:induction false} LeadingDigitsOfNumeral(d: string, rest: string)
    requires AllDigits(d)
    requires rest == [] || !IsDigit(rest[0])
    ensures LeadingDigits(d + rest) == d
  {
    if |d| > 0 {
      assert (d + rest)[1..] == d[1..] + rest;
      LeadingDigitsOfNumeral(d[1..], rest);
    } else {
      assert d + rest == rest;
    }
  }

  /** `parseInt` reads back what `toString` wrote, whatever non-digit text follows:
      `parseInt(String(n) + " hours") == n`. */
  lemma ParseShow(n: nat, rest: string)
    requires rest == [] || !IsDigit(rest[0])
    ensures ParseInt(Show(n) + rest) == Some(n)
  {
    var s := Show(n) + rest;
    assert s[0] == Show(n)[0];
    NumeralIsTrimmed(s);
    LeadingDigitsOfNumeral(Show(n), rest);
    ValueShow(n);
  }
}
