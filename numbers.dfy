/** Decimal text and integers as the storefront converts them: `String(n)`
    for a page number written into the URL, and `parseInt(s, 10)` for every
    number read back from the URL or from an amount input. `parseInt`'s NaN
    is `None`. */
module Numbers {
  import opened Seqs
  import Text

  predicate IsDigit(c: char) {
    '0' <= c <= '9'
  }

  function DigitChar(n: nat): (c: char)
    requires n < 10
    ensures IsDigit(c)
  {
    ('0' as int + n) as char
  }

  function DigitValue(c: char): nat
    requires IsDigit(c)
  {
    c as int - '0' as int
  }

  /** The decimal digits of `n`, most significant first, without leading zeros. */
  function NatToString(n: nat): (s: string)
    ensures s != [] && forall i :: 0 <= i < |s| ==> IsDigit(s[i])
  {
    if n < 10 then [DigitChar(n)] else NatToString(n / 10) + [DigitChar(n % 10)]
  }

  /** `String(n)` for an integer `n`. */
  function IntToString(n: int): string {
    if n < 0 then "-" + NatToString(-n) else NatToString(n)
  }

  /** The value of a string of decimal digits. */
  function DigitsValue(ds: string): nat
    requires forall i :: 0 <= i < |ds| ==> IsDigit(ds[i])
  {
    if ds == [] then 0 else DigitsValue(ds[..|ds| - 1]) * 10 + DigitValue(ds[|ds| - 1])
  }

  /** The longest prefix of `s` made of decimal digits. */
  function LeadingDigits(s: string): (ds: string)
    ensures ds <= s
    ensures forall i :: 0 <= i < |ds| ==> IsDigit(ds[i])
    ensures |ds| < |s| ==> !IsDigit(s[|ds|])
  {
    if s != [] && IsDigit(s[0]) then [s[0]] + LeadingDigits(s[1..]) else []
  }

  /** `parseInt(s, 10)`: leading whitespace is skipped, one optional sign is read, then the
      longest run of digits; with no digit the result is NaN. */
  function ParseInt(s: string): Option<int> {
    var t := Text.SkipSpaces(s);
    var negative := t != [] && t[0] == '-';
    var body := if t != [] && (t[0] == '-' || t[0] == '+') then t[1..] else t;
    var ds := LeadingDigits(body);
    if ds == [] then None
    else
      var v: int := DigitsValue(ds);
      Some(if negative then -v else v)
  }

  lemma {:induction false} NatToStringValue(n: nat)
    ensures DigitsValue(NatToString(n)) == n
  {
    if n >= 10 {
      NatToStringValue(n / 10);
      var s := NatToString(n);
      assert s[..|s| - 1] == NatToString(n / 10);
    }
  }

  lemma {:induction false} LeadingDigitsAll(s: string)
    requires forall i :: 0 <= i < |s| ==> IsDigit(s[i])
    ensures LeadingDigits(s) == s
  {
    if s != [] {
      LeadingDigitsAll(s[1..]);
    }
  }

  /** `parseInt` of an optional minus sign followed by digits reads exactly those digits. */
  lemma {:induction false} ParseIntOfDigits(negative: bool, ds: string)
    requires ds != [] && forall i :: 0 <= i < |ds| ==> IsDigit(ds[i])
    ensures ParseInt(if negative then "-" + ds else ds) ==
            Some(if negative then -(DigitsValue(ds) as int) else DigitsValue(ds))
  {
    var s := if negative then "-" + ds else ds;
    assert s[0] == (if negative then '-' else ds[0]);
    assert !Text.IsSpace(s[0]);
    assert Text.SkipSpaces(s) == s;
    var body := if negative then s[1..] else s;
    assert body == ds;
    LeadingDigitsAll(ds);
    assert LeadingDigits(body) == ds;
  }

  /** Text starting with a character that is no whitespace, sign or digit is NaN. */
  lemma ParseIntNoNumber(s: string)
    requires s != [] && !Text.IsSpace(s[0]) && s[0] != '-' && s[0] != '+' && !IsDigit(s[0])
    ensures ParseInt(s).None?
  {
    assert Text.SkipSpaces(s) == s;
  }

  /** Reading back a number the storefront wrote gives the same number. */
  lemma ParseIntToString(n: int)
    ensures ParseInt(IntToString(n)) == Some(n)
  {
    var m: nat := if n < 0 then -n else n;
    NatToStringValue(m);
    ParseIntOfDigits(n < 0, NatToString(m));
  }
}
