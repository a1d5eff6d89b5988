/**
 * The few string operations of the JavaScript runtime the model relies on:
 * `String.prototype.startsWith`, the decimal rendering of an integer
 * (`String(n)`, `n.toString()`) and `parseInt(s, 10)`.
 */
module Text {
  import opened Wrappers

  /** JavaScript truthiness of a possibly missing string: absent and "" are both falsy. */
  predicate Present(s: Option<string>) {
    s.Some? && s.value != ""
  }

  predicate StartsWith(s: string, prefix: string) {
    |prefix| <= |s| && s[..|prefix|] == prefix
  }

  predicate IsDigit(c: char) {
    '0' <= c <= '9'
  }

  predicate AllDigits(s: string) {
    forall i :: 0 <= i < |s| ==> IsDigit(s[i])
  }

  function DigitChar(d: nat): (c: char)
    requires d < 10
    ensures IsDigit(c) && DigitValue(c) == d
  {
    (48 + d) as char
  }

  function DigitValue(c: char): (d: nat)
    requires IsDigit(c)
    ensures d < 10
  {
    (c as int) - 48
  }

  /** Decimal rendering of a natural number, most significant digit first, no leading zeros. */
  function NatToDecimal(n: nat): (s: string)
    ensures |s| > 0 && AllDigits(s)
    ensures DigitsValue(s) == n
    ensures s[0] == '0' <==> n == 0
    ensures n < 10 <==> |s| == 1
  {
    if n < 10 then [DigitChar(n)]
    else
      var p := NatToDecimal(n / 10);
      var s := p + [DigitChar(n % 10)];
      assert s[..|s| - 1] == p;
      s
  }

  /** `n.toString()` for an integral JavaScript number below 1e21, where no exponent form is printed. */
  function IntToDecimal(n: int): (s: string)
    ensures |s| > 0
    ensures s[0] == '-' <==> n < 0
    ensures s[0] == '-' || IsDigit(s[0])
  {
    if n < 0 then "-" + NatToDecimal(-n) else NatToDecimal(n)
  }

  /** The value of a string of decimal digits, read left to right. */
  function DigitsValue(s: string): nat
    requires AllDigits(s)
  {
    if |s| == 0 then 0 else DigitsValue(s[..|s| - 1]) * 10 + DigitValue(s[|s| - 1])
  }

  /** The longest prefix of `s` made of decimal digits. */
  function LeadingDigits(s: string): (p: string)
    ensures |p| <= |s| && p == s[..|p|] && AllDigits(p)
    ensures |p| < |s| ==> !IsDigit(s[|p|])
  {
    if |s| == 0 || !IsDigit(s[0]) then [] else [s[0]] + LeadingDigits(s[1..])
  }

  /**
   * The white space and line terminators `parseInt` skips before the number:
   * tab, vertical tab, form feed, the byte order mark, every Unicode space
   * separator (category Zs) and the four line terminators.
   */
  predicate IsJsWhiteSpace(c: char) {
    c == '\t' || c == '\U{000B}' || c == '\U{000C}' || c == '\U{FEFF}'
    || c == ' ' || c == '\U{00A0}' || c == '\U{1680}' || '\U{2000}' <= c <= '\U{200A}'
    || c == '\U{202F}' || c == '\U{205F}' || c == '\U{3000}'
    || c == '\n' || c == '\r' || c == '\U{2028}' || c == '\U{2029}'
  }

  function TrimStart(s: string): (t: string)
    ensures |t| <= |s| && t == s[|s| - |t|..]
    ensures |t| > 0 ==> !IsJsWhiteSpace(t[0])
  {
    if |s| > 0 && IsJsWhiteSpace(s[0]) then TrimStart(s[1..]) else s
  }

  /**
   * `parseInt(s, 10)`, with NaN as None: leading white space is skipped, one
   * sign is accepted, and the number is the longest run of digits that
   * follows; anything after it is ignored.
   */
  function ParseInt(s: string): (r: Option<int>)
    ensures r.None? <==> LeadingDigits(SignStripped(TrimStart(s))) == []
  {
    var t := TrimStart(s);
    var digits := LeadingDigits(SignStripped(t));
    if |digits| == 0 then None
    else if |t| > 0 && t[0] == '-' then Some(-(DigitsValue(digits) as int))
    else Some(DigitsValue(digits))
  }

  function SignStripped(t: string): string {
    if |t| > 0 && (t[0] == '-' || t[0] == '+') then t[1..] else t
  }

  /** A string that starts with a digit or a minus sign has no white space to skip. */
  lemma NothingToTrim(s: string)
    requires |s| > 0 && (s[0] == '-' || IsDigit(s[0]))
    ensures TrimStart(s) == s
  {
    assert !IsJsWhiteSpace(s[0]);
  }

  lemma {:induction false} LeadingDigitsOfDigits(s: string)
    requires AllDigits(s)
    ensures LeadingDigits(s) == s
  {
    if |s| > 0 {
      LeadingDigitsOfDigits(s[1..]);
    }
  }

  /** Reading back what `toString` wrote gives the same integer. */
  lemma ParseIntOfDecimal(n: int)
    ensures ParseInt(IntToDecimal(n)) == Some(n)
  {
    var s := IntToDecimal(n);
    var d := NatToDecimal(if n < 0 then -n else n);
    NothingToTrim(s);
    if n < 0 {
      assert SignStripped(s) == d;
    } else {
      assert d[0] != '-' && d[0] != '+';
      assert SignStripped(s) == d;
    }
    LeadingDigitsOfDigits(d);
  }

  /** White space before a printed integer, such as U+3000, is skipped and the integer read back. */
  lemma ParseIntSkipsWhiteSpace(c: char, n: int)
    requires IsJsWhiteSpace(c)
    ensures ParseInt([c] + IntToDecimal(n)) == Some(n)
  {
    var s := IntToDecimal(n);
    assert ([c] + s)[1..] == s;
    assert TrimStart([c] + s) == TrimStart(s);
    NothingToTrim(s);
    ParseIntOfDecimal(n);
  }
}
