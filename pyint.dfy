/**
 * Python's `int(text)` on a string, restricted to ASCII: surrounding whitespace
 * is stripped, one optional sign is allowed, and the digits may be separated by
 * single underscores ("1_000"). Anything else raises ValueError, modelled as None.
 */
module PyInt {
  import opened Opt

  /** The ASCII whitespace `int` strips from ASCII text: space, \t \n \v \f \r. */
  predicate IsSpace(c: char) {
    c == ' ' || 9 <= c as int <= 13
  }

  predicate IsDigit(c: char) {
    '0' <= c <= '9'
  }

  function DigitValue(c: char): nat {
    if IsDigit(c) then c as int - '0' as int else 0
  }

  function StripLeft(s: string): (r: string)
    ensures r == [] || !IsSpace(r[0])
    ensures |r| <= |s| && r == s[|s| - |r|..]
  {
    if s != [] && IsSpace(s[0]) then StripLeft(s[1..]) else s
  }

  function StripRight(s: string): (r: string)
    ensures r == [] || !IsSpace(r[|r| - 1])
    ensures |r| <= |s| && r == s[..|r|]
  {
    if s != [] && IsSpace(s[|s| - 1]) then StripRight(s[..|s| - 1]) else s
  }

  function Strip(s: string): string {
    StripRight(StripLeft(s))
  }

  /** Digits, possibly separated by single underscores, starting and ending with a digit. */
  predicate Grouped(s: string) {
    && |s| > 0
    && IsDigit(s[0])
    && IsDigit(s[|s| - 1])
    && (forall i :: 0 <= i < |s| ==> IsDigit(s[i]) || s[i] == '_')
    && (forall i :: 0 <= i < |s| - 1 ==> s[i] == '_' ==> s[i + 1] != '_')
  }

  /** The decimal value of the digits of `s`, skipping underscores. */
  function Value(s: string): nat {
    if s == [] then 0
    else if s[|s| - 1] == '_' then Value(s[..|s| - 1])
    else 10 * Value(s[..|s| - 1]) + DigitValue(s[|s| - 1])
  }

  /**
   * Python refuses to convert decimal text with more digits than
   * `sys.get_int_max_str_digits()`, whose default is 4300.
   */
  const MAX_STR_DIGITS := 4300

  /** The number of digits in `s`; leading zeros count, underscores do not. */
  function DigitCount(s: string): nat {
    if s == [] then 0
    else DigitCount(s[..|s| - 1]) + (if IsDigit(s[|s| - 1]) then 1 else 0)
  }

  /** The digits after the sign that `int` accepts: well grouped and not too many. */
  predicate Accepted(s: string) {
    Grouped(s) && DigitCount(s) <= MAX_STR_DIGITS
  }

  /** `int(s)`: None stands for the ValueError Python raises. */
  function ParseInt(s: string): Option<int> {
    var t := Strip(s);
    if t != [] && (t[0] == '+' || t[0] == '-') then
      if Accepted(t[1..]) then
        var magnitude: int := Value(t[1..]);
        Some(if t[0] == '-' then -magnitude else magnitude)
      else None
    else if Accepted(t) then Some(Value(t))
    else None
  }

  function Digit(d: nat): (c: char)
    requires d < 10
    ensures IsDigit(c) && DigitValue(c) == d
  {
    ('0' as int + d) as char
  }

  /** `str(n)` for a natural number. */
  function Decimal(n: nat): (s: string)
    decreases n
  {
    if n < 10 then [Digit(n)] else Decimal(n / 10) + [Digit(n % 10)]
  }

  /** Every character of `str(n)` is a digit, and reading it back gives `n`. */
  lemma {:induction false} DecimalDigits(n: nat)
    ensures |Decimal(n)| > 0
    ensures forall i :: 0 <= i < |Decimal(n)| ==> IsDigit(Decimal(n)[i])
    ensures Value(Decimal(n)) == n
    ensures DigitCount(Decimal(n)) == |Decimal(n)|
    decreases n
  {
    if n >= 10 {
      DecimalDigits(n / 10);
      var s := Decimal(n);
      assert s[..|s| - 1] == Decimal(n / 10);
    }
  }

  /** A string with no whitespace at either end is left alone by `strip`. */
  lemma StripUnpadded(s: string)
    requires s != [] && !IsSpace(s[0]) && !IsSpace(s[|s| - 1])
    ensures Strip(s) == s
  {
  }

  /** `int(str(n)) == n`: the round trip between rendering and parsing. */
  lemma ParseDecimal(n: nat)
    requires |Decimal(n)| <= MAX_STR_DIGITS
    ensures ParseInt(Decimal(n)) == Some(n)
  {
    DecimalDigits(n);
    var s := Decimal(n);
    assert IsDigit(s[0]) && IsDigit(s[|s| - 1]);
    StripUnpadded(s);
    assert Grouped(s);
    assert Accepted(s);
    assert !(s[0] == '+' || s[0] == '-');
  }

  /** Decimal text longer than the limit is refused, however small its value. */
  lemma ParseTooLong(n: nat)
    requires |Decimal(n)| > MAX_STR_DIGITS
    ensures ParseInt(Decimal(n)) == None
  {
    DecimalDigits(n);
    var s := Decimal(n);
    assert IsDigit(s[0]) && IsDigit(s[|s| - 1]);
    StripUnpadded(s);
  }

  /** `int("30") == 30`, the text the manual duration falls back to. */
  lemma ParseThirty()
    ensures ParseInt("30") == Some(30)
  {
    assert Decimal(3) == "3";
    assert Decimal(30) == "30";
    ParseDecimal(30);
  }

  /** `int("-" + str(n)) == -n`. */
  lemma ParseNegativeDecimal(n: nat)
    requires |Decimal(n)| <= MAX_STR_DIGITS
    ensures ParseInt("-" + Decimal(n)) == Some(-(n as int))
  {
    DecimalDigits(n);
    var d := Decimal(n);
    var s := "-" + d;
    assert s[|s| - 1] == d[|d| - 1];
    assert IsDigit(d[|d| - 1]);
    StripUnpadded(s);
    assert s[1..] == d;
    assert Grouped(d);
  }
}
