/** The slice of JavaScript number handling the budget estimators rely on:
    `Number.parseInt` with no radix (section 19.2.5 of ECMA-262), integer
    arithmetic that propagates NaN, the `s || "0"` default for an empty
    field, and the "₹"-prefixed display text. */
module JsNumber {
  import opened Text

  /** A Number as the estimators can produce it: NaN or an integer. */
  datatype Num = NaN | Int(value: int)

  // ---------------------------------------------------------------------
  // Digits

  /** The value of `c` as a digit of base 36 (0-9, then a-z or A-Z), or -1. */
  function DigitValue(c: char): int {
    if '0' <= c <= '9' then c as int - '0' as int
    else if 'a' <= c <= 'z' then c as int - 'a' as int + 10
    else if 'A' <= c <= 'Z' then c as int - 'A' as int + 10
    else -1
  }

  predicate IsDigit(c: char, radix: nat) {
    0 <= DigitValue(c) < radix
  }

  /** The length of the longest prefix of `s` made of digits of `radix`. */
  function DigitPrefix(s: string, radix: nat): (r: nat)
    ensures r <= |s|
    ensures forall i :: 0 <= i < r ==> IsDigit(s[i], radix)
    ensures r < |s| ==> !IsDigit(s[r], radix)
  {
    if |s| == 0 || !IsDigit(s[0], radix) then 0 else 1 + DigitPrefix(s[1..], radix)
  }

  /** The number written by the digits `s` in base `radix`, most significant first. */
  function DigitsValue(s: string, radix: nat): nat
    requires forall i :: 0 <= i < |s| ==> IsDigit(s[i], radix)
  {
    if |s| == 0 then 0
    else
      assert IsDigit(s[|s| - 1], radix);
      DigitsValue(s[..|s| - 1], radix) * radix + DigitValue(s[|s| - 1])
  }

  // ---------------------------------------------------------------------
  // Number.parseInt(string) with the radix left undefined

  /** The unsigned part: base 16 after a "0x" or "0X" prefix, otherwise
      base 10, and the longest run of digits; no digits at all gives NaN. */
  function ParseDigits(u: string): (r: Num)
    ensures r.Int? ==> r.value >= 0
    ensures r.Int? ==> |u| > 0 && IsDigit(u[0], 10)
  {
    var hex := |u| >= 2 && u[0] == '0' && (u[1] == 'x' || u[1] == 'X');
    var radix := if hex then 16 else 10;
    var digits := if hex then u[2..] else u;
    var n := DigitPrefix(digits, radix);
    if n == 0 then NaN else Int(DigitsValue(digits[..n], radix))
  }

  /** The text after one leading sign, if there is one. */
  function Unsigned(t: string): string {
    if |t| > 0 && (t[0] == '-' || t[0] == '+') then t[1..] else t
  }

  /** Skip leading white space and line terminators, read an optional sign,
      then the unsigned part. A number comes out only when a decimal digit
      follows the white space and the sign, and a negative one only after a
      minus sign. */
  function ParseInt(s: string): (r: Num)
    ensures r.Int? ==> |Unsigned(TrimStart(s))| > 0 && IsDigit(Unsigned(TrimStart(s))[0], 10)
    ensures r.Int? && r.value < 0 ==> |TrimStart(s)| > 0 && TrimStart(s)[0] == '-'
  {
    var t := TrimStart(s);
    if |t| > 0 && t[0] == '-' then Times(ParseDigits(t[1..]), -1)
    else if |t| > 0 && t[0] == '+' then ParseDigits(t[1..])
    else ParseDigits(t)
  }

  /** The decimal numeral of `n` with no leading zeros. */
  function DecimalString(n: nat): (r: string)
    ensures |r| > 0
    ensures forall i :: 0 <= i < |r| ==> IsDigit(r[i], 10)
    ensures DigitsValue(r, 10) == n
    ensures r[0] == '0' ==> n == 0
  {
    var last := ['0' + (n % 10) as char];
    if n < 10 then last
    else
      var r := DecimalString(n / 10) + last;
      assert r[..|r| - 1] == DecimalString(n / 10);
      r
  }

  /** The numeral of any integer, with a minus sign when negative. */
  function IntString(n: int): (r: string)
    ensures |r| > 0
  {
    if n < 0 then "-" + DecimalString(-n) else DecimalString(n)
  }

  /** A run of digits followed by anything that does not extend it reads as
      exactly those digits. */
  lemma DigitPrefixOfRun(a: string, b: string, radix: nat)
    requires forall i :: 0 <= i < |a| ==> IsDigit(a[i], radix)
    requires |b| == 0 || !IsDigit(b[0], radix)
    ensures DigitPrefix(a + b, radix) == |a|
    ensures (a + b)[..|a|] == a
  {
    assert forall i :: 0 <= i < |a| ==> (a + b)[i] == a[i];
    assert |b| > 0 ==> (a + b)[|a|] == b[0];
  }

  /** The unsigned part reads back a decimal numeral and stops where it ends. */
  lemma ParseDigitsReadsNumeral(m: nat, rest: string)
    requires |rest| == 0 || !IsDigit(rest[0], 10)
    requires m == 0 ==> |rest| == 0 || (rest[0] != 'x' && rest[0] != 'X')
    ensures ParseDigits(DecimalString(m) + rest) == Int(m)
  {
    var d := DecimalString(m);
    var u := d + rest;
    assert u[0] == d[0];
    if |d| == 1 && |rest| > 0 {
      assert u[1] == rest[0];
    }
    if |d| > 1 {
      assert u[1] == d[1];
      assert IsDigit(d[1], 10);
    }
    DigitPrefixOfRun(d, rest, 10);
  }

  /** Text that starts with neither white space nor a sign is read by the
      unsigned part alone; a leading "-" negates it. */
  lemma ParseIntSign(u: string)
    requires |u| > 0 && IsDigit(u[0], 10)
    ensures ParseInt(u) == ParseDigits(u)
    ensures ParseInt("-" + u) == Times(ParseDigits(u), -1)
  {
    assert !IsWhiteSpace(u[0]);
    var v := "-" + u;
    assert v[0] == '-' && !IsWhiteSpace(v[0]);
    assert v[1..] == u;
  }

  lemma ParseIntNegativeNumeral(m: nat, rest: string)
    requires |rest| == 0 || !IsDigit(rest[0], 10)
    requires m == 0 ==> |rest| == 0 || (rest[0] != 'x' && rest[0] != 'X')
    ensures ParseInt("-" + (DecimalString(m) + rest)) == Int(-(m as int))
  {
    var u := DecimalString(m) + rest;
    ParseDigitsReadsNumeral(m, rest);
    assert u[0] == DecimalString(m)[0];
    ParseIntSign(u);
  }

  lemma ParseIntNonNegativeNumeral(m: nat, rest: string)
    requires |rest| == 0 || !IsDigit(rest[0], 10)
    requires m == 0 ==> |rest| == 0 || (rest[0] != 'x' && rest[0] != 'X')
    ensures ParseInt(DecimalString(m) + rest) == Int(m)
  {
    var u := DecimalString(m) + rest;
    ParseDigitsReadsNumeral(m, rest);
    assert u[0] == DecimalString(m)[0];
    ParseIntSign(u);
  }

  lemma NegativeNumeral(n: int, rest: string)
    requires n < 0
    ensures IntString(n) + rest == "-" + (DecimalString(-n) + rest)
  {
    var d := DecimalString(-n);
    assert IntString(n) == "-" + d;
    assert ("-" + d) + rest == "-" + (d + rest);
  }

  /** `parseInt` reads back the numeral of any integer, and it stops at the
      first character that cannot continue the numeral, so "12abc" or "3.7"
      give 12 and 3. */
  lemma ParseIntReadsNumeral(n: int, rest: string)
    requires |rest| == 0 || !IsDigit(rest[0], 10)
    requires n == 0 ==> |rest| == 0 || (rest[0] != 'x' && rest[0] != 'X')
    ensures ParseInt(IntString(n) + rest) == Int(n)
  {
    if n < 0 {
      NegativeNumeral(n, rest);
      ParseIntNegativeNumeral(-n, rest);
    } else {
      assert IntString(n) == DecimalString(n);
      ParseIntNonNegativeNumeral(n, rest);
    }
  }

  /** The round trip without trailing text. */
  lemma ParseIntRoundTrip(n: int)
    ensures ParseInt(IntString(n)) == Int(n)
  {
    ParseIntReadsNumeral(n, "");
    assert IntString(n) + "" == IntString(n);
  }

  /** Leading white space never changes the result. */
  lemma {:induction false} ParseIntSkipsLeadingSpace(space: string, s: string)
    requires IsBlank(space)
    ensures ParseInt(space + s) == ParseInt(s)
  {
    TrimStartBlankPrefix(space, s);
  }

  lemma {:induction false} TrimStartBlankPrefix(space: string, s: string)
    requires IsBlank(space)
    ensures TrimStart(space + s) == TrimStart(s)
  {
    if space != [] {
      assert (space + s)[0] == space[0];
      assert (space + s)[1..] == space[1..] + s;
      TrimStartBlankPrefix(space[1..], s);
    } else {
      assert space + s == s;
    }
  }

  /** Text with no digits where the numeral should start gives NaN: the empty
      string, a blank string, a lone sign. */
  lemma ParseIntNoDigits(s: string)
    requires IsBlank(s) || s == "-" || s == "+"
    ensures ParseInt(s) == NaN
  {
    TrimStartEmptyIffBlank(s);
  }

  /** A number field can hold an exponent or a fraction; `parseInt` cuts
      it off. */
  lemma ParseIntStopsAtExponentOrPoint()
    ensures ParseInt("1e3") == Int(1)
    ensures ParseInt("2.5") == Int(2)
  {
    ParseIntReadsNumeral(1, "e3");
    assert DecimalString(1) == "1";
    assert IntString(1) + "e3" == "1e3";
    ParseIntReadsNumeral(2, ".5");
    assert DecimalString(2) == "2";
    assert IntString(2) + ".5" == "2.5";
  }

  lemma ParseIntSignedWithSpace()
    ensures ParseInt(" -42") == Int(-42)
  {
    ParseIntRoundTrip(-42);
    assert DecimalString(4) == "4";
    assert DecimalString(42) == "42";
    assert IntString(-42) == "-42";
    ParseIntSkipsLeadingSpace(" ", "-42");
    assert " " + "-42" == " -42";
  }

  lemma ParseIntLetters()
    ensures ParseInt("abc") == NaN
  {
    assert !IsWhiteSpace("abc"[0]);
    assert DigitPrefix("abc", 10) == 0;
  }

  /** A "0x" prefix switches to base 16. */
  lemma ParseIntHex()
    ensures ParseInt("0x1F") == Int(31)
  {
    assert !IsWhiteSpace("0x1F"[0]);
    assert "0x1F"[2..] == "1F";
    assert DigitPrefix("1F", 16) == 2;
    assert "1F"[..2] == "1F";
    assert "1F"[..1] == "1";
    assert "1"[..0] == "";
    assert DigitsValue("1F", 16) == 31;
  }

  // ---------------------------------------------------------------------
  // Arithmetic and display

  /** `a * k`: NaN stays NaN. */
  function Times(a: Num, k: int): (r: Num)
    ensures r.NaN? <==> a.NaN?
    ensures a.Int? ==> r == Int(a.value * k)
  {
    match a
    case NaN => NaN
    case Int(v) => Int(v * k)
  }

  /** `a + b`: NaN if either operand is NaN. */
  function Plus(a: Num, b: Num): (r: Num)
    ensures r.NaN? <==> a.NaN? || b.NaN?
    ensures a.Int? && b.Int? ==> r == Int(a.value + b.value)
  {
    if a.Int? && b.Int? then Int(a.value + b.value) else NaN
  }

  /** `s || fallback`: the empty string is falsy. */
  function OrDefault(s: string, fallback: string): (r: string)
    ensures s == "" ==> r == fallback
    ensures s != "" ==> r == s
  {
    if s == "" then fallback else s
  }

  /** `` `₹${total.toLocaleString()}` ``: NaN prints as "NaN"; the locale's
      grouping of an integer is the `format` parameter. */
  function EstimateText(total: Num, format: int -> string): (r: string)
    ensures |r| > 0 && r[0] == '₹'
    ensures total.NaN? ==> r == "₹NaN"
    ensures total.Int? ==> r[1..] == format(total.value)
  {
    "₹" + (match total case NaN => "NaN" case Int(v) => format(v))
  }
}
