/** Decimal text as the driver reads it with `atoi` and writes it with the
    `%zu` and `%d` conversions of `snprintf`. */
module Decimal {
  import opened CInt

  predicate IsDigit(c: char) {
    '0' <= c <= '9'
  }

  /** The characters `isspace` accepts in the C locale: space, and tab
      through carriage return. */
  predicate IsCSpace(c: char) {
    c == ' ' || '\t' <= c <= '\r'
  }

  predicate AllDigits(s: string) {
    forall i :: 0 <= i < |s| ==> IsDigit(s[i])
  }

  function DigitValue(c: char): (d: nat)
    requires IsDigit(c)
    ensures d < 10
  {
    (c as int) - ('0' as int)
  }

  function DigitChar(d: nat): (c: char)
    requires d < 10
    ensures IsDigit(c) && DigitValue(c) == d
  {
    ('0' as int + d) as char
  }

  /** Length of the run of digits that starts `s`. */
  function DigitSpan(s: string): (n: nat)
    ensures n <= |s|
    ensures forall i :: 0 <= i < n ==> IsDigit(s[i])
    ensures n < |s| ==> !IsDigit(s[n])
  {
    if |s| > 0 && IsDigit(s[0]) then 1 + DigitSpan(s[1..]) else 0
  }

  /** The number a string of digits denotes, most significant first. */
  function DigitsValue(s: string): nat
    requires AllDigits(s)
  {
    if |s| == 0 then 0 else DigitsValue(s[..|s| - 1]) * 10 + DigitValue(s[|s| - 1])
  }

  /** The value of the longest leading digit run of `s` (0 when there is none). */
  function LeadingValue(s: string): nat {
    DigitsValue(s[..DigitSpan(s)])
  }

  /** What `strtol(s, NULL, 10)` computes before range reduction: leading
      white space skipped, an optional sign, then the longest digit run. */
  function ParseLong(s: string): int
  {
    if |s| > 0 && IsCSpace(s[0]) then ParseLong(s[1..])
    else if |s| > 0 && s[0] == '-' then -(LeadingValue(s[1..]) as int)
    else if |s| > 0 && s[0] == '+' then LeadingValue(s[1..])
    else LeadingValue(s)
  }

  /** `atoi(s)`. C leaves an out-of-range value undefined; the model
      saturates it into `int`. */
  function Atoi(s: string): (r: int)
    ensures IsInt(r)
  {
    ClampInt(ParseLong(s))
  }

  /** The text `%zu` / `%d` prints for a non-negative value: no sign, no
      leading zero except for 0 itself. */
  function NatToString(n: nat): (s: string)
    ensures |s| > 0 && AllDigits(s)
    ensures s[0] == '0' ==> n == 0
  {
    if n < 10 then [DigitChar(n)] else NatToString(n / 10) + [DigitChar(n % 10)]
  }

  lemma {:induction false} DigitsValueOfNatToString(n: nat)
    ensures DigitsValue(NatToString(n)) == n
    decreases n
  {
    var s := NatToString(n);
    if n >= 10 {
      var p := NatToString(n / 10);
      assert s == p + [DigitChar(n % 10)];
      assert s[..|s| - 1] == p;
      DigitsValueOfNatToString(n / 10);
    }
  }

  /** Reading back what was printed: `atoi` of the decimal text of `n` is
      `n` whenever `n` fits in an `int`, and saturates above. */
  lemma AtoiOfNatToString(n: nat)
    ensures Atoi(NatToString(n)) == ClampInt(n)
    ensures n <= INT_MAX ==> Atoi(NatToString(n)) == n
  {
    var s := NatToString(n);
    assert !IsCSpace(s[0]) && s[0] != '-' && s[0] != '+';
    assert DigitSpan(s) == |s|;
    assert s[..|s|] == s;
    DigitsValueOfNatToString(n);
  }
}
