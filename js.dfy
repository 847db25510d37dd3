/**
 * The JavaScript values the handlers compute with, and the built-ins they
 * call on them: parseInt (with no radix argument), the conversion of an
 * integer to its decimal text, and String.prototype.toLowerCase.
 */
module Js {
  import opened Wrappers

  /** A JavaScript number as the handlers see it: an integer, or NaN. */
  datatype Num = Finite(n: int) | NaN

  /**
   * A field value of a record, a request body or a query filter.
   * `Undefined` is what reading an attribute that a record does not have
   * yields.
   */
  datatype Value = Str(s: string) | Int(i: int) | Bool(b: bool) | Date(t: Num) | Undefined

  /**
   * A property of a body after `_.pick`: not sent, sent as JSON null (which
   * `_.pick` keeps and `hasOwnProperty` reports), or sent with a value.
   */
  datatype Field<+T> = Missing | Null | Given(value: T) {
    /** The value, or `default` when the property holds none. */
    function GetOr(default: T): T {
      match this
      case Given(v) => v
      case _ => default
    }
  }

  /** The text `"" + undefined` produces. */
  const UndefinedText: string := "undefined"

  // ----- digits -----

  predicate IsDigit(c: char) {
    '0' <= c <= '9'
  }

  /** The value of `c` as a digit in `radix` (10 or 16), if it is one. */
  function DigitIn(c: char, radix: nat): Option<nat> {
    if '0' <= c <= '9' then Some(c as int - '0' as int)
    else if radix == 16 && 'a' <= c <= 'f' then Some(c as int - 'a' as int + 10)
    else if radix == 16 && 'A' <= c <= 'F' then Some(c as int - 'A' as int + 10)
    else None
  }

  /** The length of the longest prefix of `s` made of digits in `radix`. */
  function DigitRun(s: string, radix: nat): (k: nat)
    ensures k <= |s|
    ensures forall i :: 0 <= i < k ==> DigitIn(s[i], radix).Some?
    ensures k < |s| ==> DigitIn(s[k], radix).None?
  {
    if |s| == 0 || DigitIn(s[0], radix).None? then 0 else 1 + DigitRun(s[1..], radix)
  }

  /** The number that the digit string `ds` denotes in `radix`, most significant digit first. */
  function DigitsValue(ds: string, radix: nat): nat
    requires forall i :: 0 <= i < |ds| ==> DigitIn(ds[i], radix).Some?
  {
    if |ds| == 0 then 0
    else DigitsValue(ds[..|ds| - 1], radix) * radix + DigitIn(ds[|ds| - 1], radix).value
  }

  // ----- parseInt -----

  /**
   * The white space parseInt skips: the ASCII white space characters,
   * no-break space, the byte order mark and the two Unicode line terminators.
   */
  predicate IsJsWhitespace(c: char) {
    c == ' ' || c == '\t' || c == '\n' || c == '\r' || c == '\U{000B}' || c == '\U{000C}'
    || c == '\U{00A0}' || c == '\U{FEFF}' || c == '\U{2028}' || c == '\U{2029}'
  }

  /** `s` without its leading white space. */
  function TrimStart(s: string): (r: string)
    ensures |r| <= |s| && r == s[|s| - |r|..]
    ensures |r| > 0 ==> !IsJsWhitespace(r[0])
    ensures |s| > 0 && !IsJsWhitespace(s[0]) ==> r == s
  {
    if |s| > 0 && IsJsWhitespace(s[0]) then TrimStart(s[1..]) else s
  }

  /**
   * The magnitude parseInt reads after the sign: a "0x"/"0X" prefix selects
   * radix 16 (radix 10 otherwise), then the longest run of digits counts;
   * None when that run is empty. What follows the run is ignored.
   */
  function ParseMagnitude(u: string): Option<nat> {
    var hex := |u| >= 2 && u[0] == '0' && (u[1] == 'x' || u[1] == 'X');
    var radix := if hex then 16 else 10;
    var digits := if hex then u[2..] else u;
    var k := DigitRun(digits, radix);
    if k == 0 then None else Some(DigitsValue(digits[..k], radix))
  }

  /**
   * parseInt(s) with no radix: skip leading white space, read an optional
   * sign, then the magnitude; NaN when there are no digits.
   */
  function ParseInt(s: string): Num {
    var t := TrimStart(s);
    var negative := |t| > 0 && t[0] == '-';
    var unsigned := if |t| > 0 && (t[0] == '-' || t[0] == '+') then t[1..] else t;
    match ParseMagnitude(unsigned)
    case None => NaN
    case Some(m) => Finite(if negative then -(m as int) else m)
  }

  /** `x < bound` in JavaScript, where every comparison with NaN is false. */
  predicate LessThan(x: Num, bound: int) {
    x.Finite? && x.n < bound
  }

  // ----- integer to text -----

  function DigitChar(d: nat): char
    requires d < 10
  {
    ('0' as int + d) as char
  }

  function NatToDecimal(n: nat): string {
    if n < 10 then [DigitChar(n)] else NatToDecimal(n / 10) + [DigitChar(n % 10)]
  }

  /** The decimal text of an integer, as `"" + n` writes it. */
  function ToDecimal(n: int): string {
    if n < 0 then "-" + NatToDecimal(-n) else NatToDecimal(n)
  }

  lemma {:induction false} NatToDecimalDigits(n: nat)
    ensures |NatToDecimal(n)| >= 1
    ensures forall i :: 0 <= i < |NatToDecimal(n)| ==> DigitIn(NatToDecimal(n)[i], 10).Some?
    ensures DigitsValue(NatToDecimal(n), 10) == n
    ensures NatToDecimal(n)[0] == '0' ==> n == 0
  {
    if n >= 10 {
      NatToDecimalDigits(n / 10);
      var s := NatToDecimal(n / 10);
      var t := NatToDecimal(n);
      assert t == s + [DigitChar(n % 10)];
      assert t[..|t| - 1] == s;
    }
  }

  /** The decimal text of an integer never contains a character outside '-' and the digits. */
  lemma DecimalAlphabet(n: int)
    ensures forall i :: 0 <= i < |ToDecimal(n)| ==> ToDecimal(n)[i] == '-' || IsDigit(ToDecimal(n)[i])
  {
    NatToDecimalDigits(if n < 0 then -n else n);
  }

  lemma MagnitudeOfDecimal(m: nat)
    ensures ParseMagnitude(NatToDecimal(m)) == Some(m)
  {
    NatToDecimalDigits(m);
    var ds := NatToDecimal(m);
    assert DigitRun(ds, 10) == |ds|;
    assert ds[..|ds|] == ds;
  }

  /** parseInt of a string whose first character is neither white space nor a sign. */
  lemma ParseIntUnsigned(s: string)
    requires |s| > 0 && !IsJsWhitespace(s[0]) && s[0] != '-' && s[0] != '+'
    ensures ParseInt(s) == match ParseMagnitude(s) case None => NaN case Some(m) => Finite(m)
  {
    assert TrimStart(s) == s;
  }

  /** parseInt of a string that starts with a minus sign. */
  lemma ParseIntNegative(s: string)
    requires |s| > 0 && s[0] == '-'
    ensures ParseInt(s) == match ParseMagnitude(s[1..]) case None => NaN case Some(m) => Finite(-(m as int))
  {
    assert TrimStart(s) == s;
  }

  /** parseInt reads back the decimal text of every integer. */
  lemma ParseIntOfDecimal(n: int)
    ensures ParseInt(ToDecimal(n)) == Finite(n)
  {
    var m: nat := if n < 0 then -n else n;
    NatToDecimalDigits(m);
    MagnitudeOfDecimal(m);
    var ds := NatToDecimal(m);
    if n < 0 {
      var s := "-" + ds;
      assert s[1..] == ds;
      ParseIntNegative(s);
    } else {
      assert DigitIn(ds[0], 10).Some?;
      ParseIntUnsigned(ds);
    }
  }

  /** Distinct integers have distinct decimal texts. */
  lemma ToDecimalInjective(m: int, n: int)
    requires ToDecimal(m) == ToDecimal(n)
    ensures m == n
  {
    ParseIntOfDecimal(m);
    ParseIntOfDecimal(n);
  }

  // ----- objects -----

  /** `_.pick(json, keys...)`: the entries of `json` whose key is listed. */
  function Pick(json: map<string, Value>, keys: set<string>): (r: map<string, Value>)
    ensures r.Keys == json.Keys * keys
    ensures forall k :: k in r ==> r[k] == json[k]
  {
    map k | k in json && k in keys :: json[k]
  }

  // ----- case -----

  function LowerChar(c: char): char {
    if 'A' <= c <= 'Z' then (c as int + 32) as char else c
  }

  /** String.prototype.toLowerCase, on the ASCII letters. */
  function ToLower(s: string): string {
    seq(|s|, i requires 0 <= i < |s| => LowerChar(s[i]))
  }

  /** No upper-case ASCII letter occurs in `s`. */
  predicate IsLower(s: string) {
    forall i :: 0 <= i < |s| ==> !('A' <= s[i] <= 'Z')
  }

  lemma ToLowerNormalises(s: string)
    ensures |ToLower(s)| == |s|
    ensures IsLower(ToLower(s))
    ensures ToLower(ToLower(s)) == ToLower(s)
    ensures IsLower(s) ==> ToLower(s) == s
  {
  }
}
