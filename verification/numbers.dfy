/**
 * JavaScript's `parseInt(s, 10)` and `parseFloat(s)` (sections 19.2.5 and
 * 19.2.4 of ECMA-262). Both skip leading whitespace, read the longest
 * numeric prefix and ignore whatever follows; both give NaN, modelled as
 * `None`, when there is no numeric prefix at all.
 */
module JsNumbers {
  import opened Wrappers
  import opened Strings

  /** A JavaScript number other than NaN. Finite values are kept exact. */
  datatype Num = Finite(value: real) | PosInfinity | NegInfinity

  predicate IsDigit(c: char) {
    '0' <= c <= '9'
  }

  predicate AllDigits(s: string) {
    forall i :: 0 <= i < |s| ==> IsDigit(s[i])
  }

  /** Digits and the minus sign are not whitespace. */
  lemma {:induction false} DigitNotWhitespace(c: char)
    requires IsDigit(c) || c == '-'
    ensures !IsWhitespace(c)
  {
  }

  function DigitValue(c: char): nat
    requires IsDigit(c)
  {
    (c as int) - ('0' as int)
  }

  function DigitChar(d: nat): (c: char)
    requires d < 10
    ensures IsDigit(c) && DigitValue(c) == d
  {
    ((d + '0' as int) as char)
  }

  /** The decimal value of a digit string; the empty string reads as 0. */
  function DigitsValue(ds: string): nat
    requires AllDigits(ds)
  {
    if |ds| == 0 then 0 else 10 * DigitsValue(ds[..|ds| - 1]) + DigitValue(ds[|ds| - 1])
  }

  /** The longest prefix of `s` made of decimal digits. */
  function LeadingDigits(s: string): (ds: string)
    ensures |ds| <= |s| && ds == s[..|ds|]
    ensures AllDigits(ds)
    ensures |ds| == |s| || !IsDigit(s[|ds|])
  {
    if |s| > 0 && IsDigit(s[0]) then [s[0]] + LeadingDigits(s[1..]) else ""
  }

  /** An optional leading `+` or `-`: whether it was `-`, and the rest. */
  function SplitSign(t: string): (r: (bool, string))
    ensures r.0 <==> |t| > 0 && t[0] == '-'
    ensures |t| > 0 && (t[0] == '+' || t[0] == '-') ==> r.1 == t[1..]
    ensures !(|t| > 0 && (t[0] == '+' || t[0] == '-')) ==> r.1 == t
  {
    if |t| > 0 && (t[0] == '-' || t[0] == '+') then (t[0] == '-', t[1..]) else (false, t)
  }

  /** `v`, negated when `negative` holds. */
  function Signed(negative: bool, v: nat): int {
    if negative then -(v as int) else v
  }

  /** `parseInt` has a result exactly when, after leading whitespace and at
      most one sign, a digit follows. */
  predicate StartsInteger(t: string) {
    || (|t| > 0 && IsDigit(t[0]))
    || (|t| > 1 && (t[0] == '+' || t[0] == '-') && IsDigit(t[1]))
  }

  /** `parseInt(s, 10)`. */
  function ParseInt(s: string): (r: Option<int>)
    ensures r.None? <==> !StartsInteger(TrimStart(s))
  {
    var (negative, u) := SplitSign(TrimStart(s));
    var ds := LeadingDigits(u);
    if |ds| == 0 then None
    else Some(Signed(negative, DigitsValue(ds)))
  }

  /** `n / 10`, by repeated subtraction. */
  function Div10(n: nat): (q: nat)
    ensures 10 * q <= n < 10 * q + 10
  {
    if n < 10 then 0 else 1 + Div10(n - 10)
  }

  /** The shortest decimal numeral of a natural number: no leading zero
      unless the number is 0. */
  function FormatNat(n: nat): (s: string)
    ensures |s| >= 1 && AllDigits(s)
    ensures DigitsValue(s) == n
    ensures n > 0 ==> s[0] != '0'
  {
    var q := Div10(n);
    var init := if n < 10 then "" else FormatNat(q);
    var s := init + [DigitChar(n - 10 * q)];
    assert s[..|s| - 1] == init;
    s
  }

  /** A digit string, after a `-` when `negative` holds. */
  function SignedNumeral(negative: bool, digits: string): string {
    (if negative then "-" else "") + digits
  }

  /** The decimal numeral of an integer, with a `-` when it is negative. */
  function FormatInt(n: int): string {
    SignedNumeral(n < 0, FormatNat(if n < 0 then -n else n))
  }

  /** A signed numeral has no whitespace at either end and no newline. */
  lemma {:induction false} NumeralPlain(negative: bool, digits: string)
    requires |digits| >= 1 && AllDigits(digits)
    ensures Trim(SignedNumeral(negative, digits)) == SignedNumeral(negative, digits)
    ensures '\n' !in SignedNumeral(negative, digits)
  {
  }

  /** A written numeral has no whitespace at either end and no newline. */
  lemma {:induction false} FormatIntPlain(n: int)
    ensures Trim(FormatInt(n)) == FormatInt(n)
    ensures '\n' !in FormatInt(n)
  {
    var digits := FormatNat(if n < 0 then -n else n);
    NumeralPlain(n < 0, digits);
    assert FormatInt(n) == SignedNumeral(n < 0, digits);
  }

  /** A digit string followed by something that is not a digit is read up to
      where the digits end. */
  lemma {:induction false} LeadingDigitsAppend(ds: string, suffix: string)
    requires AllDigits(ds)
    requires suffix == [] || !IsDigit(suffix[0])
    ensures LeadingDigits(ds + suffix) == ds
  {
    if |ds| > 0 {
      var s := ds + suffix;
      assert s[0] == ds[0] && s[1..] == ds[1..] + suffix;
      LeadingDigitsAppend(ds[1..], suffix);
      assert ds == [ds[0]] + ds[1..];
    } else {
      assert ds + suffix == suffix;
    }
  }

  /** A signed numeral followed by anything has no leading whitespace and
      splits into its sign and the digits with what follows them. */
  lemma {:induction false} NumeralSign(negative: bool, digits: string, suffix: string)
    requires |digits| >= 1 && IsDigit(digits[0])
    ensures TrimStart(SignedNumeral(negative, digits) + suffix) == SignedNumeral(negative, digits) + suffix
    ensures SplitSign(SignedNumeral(negative, digits) + suffix) == (negative, digits + suffix)
  {
    var s := SignedNumeral(negative, digits) + suffix;
    if negative {
      assert s[0] == '-' && s[1..] == digits + suffix;
    } else {
      assert s == digits + suffix;
      assert s[0] == digits[0];
    }
    DigitNotWhitespace(s[0]);
    TrimStartUnchanged(s);
  }

  /** `parseInt` reads a signed numeral back as its value, whatever
      non-digit text follows it. */
  lemma {:induction false} ParseIntNumeral(negative: bool, digits: string, suffix: string)
    requires |digits| >= 1 && AllDigits(digits)
    requires suffix == [] || !IsDigit(suffix[0])
    ensures ParseInt(SignedNumeral(negative, digits) + suffix) == Some(Signed(negative, DigitsValue(digits)))
  {
    NumeralSign(negative, digits, suffix);
    LeadingDigitsAppend(digits, suffix);
  }

  /** A `+` sign is dropped and leaves the value positive:
      `parseInt("+5")` is 5. */
  lemma {:induction false} ParseIntPlusNumeral(digits: string, suffix: string)
    requires |digits| >= 1 && AllDigits(digits)
    requires suffix == [] || !IsDigit(suffix[0])
    ensures ParseInt("+" + digits + suffix) == Some(DigitsValue(digits))
  {
    var s := "+" + digits + suffix;
    assert s[0] == '+' && s[1..] == digits + suffix;
    TrimStartUnchanged(s);
    LeadingDigitsAppend(digits, suffix);
  }

  /** `parseInt` reads back the numeral `FormatInt` writes, whatever
      non-digit text follows it: `parseInt("3abc")` is 3. */
  lemma {:induction false} ParseIntFormatInt(n: int, suffix: string)
    requires suffix == [] || !IsDigit(suffix[0])
    ensures ParseInt(FormatInt(n) + suffix) == Some(n)
  {
    ParseIntNumeral(n < 0, FormatNat(if n < 0 then -n else n), suffix);
  }

  /** Whether `s` starts with `prefix`. */
  predicate HasPrefix(s: string, prefix: string) {
    |prefix| <= |s| && s[..|prefix|] == prefix
  }

  /** `parseFloat` has a result exactly when, after leading whitespace and at
      most one sign, there is `Infinity`, a digit, or a `.` and a digit. */
  predicate StartsDecimal(t: string) {
    var u := SplitSign(t).1;
    HasPrefix(u, "Infinity") || StartsUnsignedDecimal(u)
  }

  /** 10 to the power `k`. */
  function Pow10(k: nat): (p: nat)
    ensures p >= 1
  {
    if k == 0 then 1 else 10 * Pow10(k - 1)
  }

  /** Multiplication by 10 to the power `k`, for any integer `k`. */
  function Scale(m: real, k: int): real {
    if k >= 0 then m * (Pow10(k) as real) else m / (Pow10(-k) as real)
  }

  /** The exponent of an `ExponentPart` (`e` or `E`, an optional sign, and at
      least one digit) at the start of `s`; 0 when there is none, as in
      `"1e"` or `"1e+"`, which read as 1. */
  function ExponentOf(s: string): int {
    if |s| > 0 && (s[0] == 'e' || s[0] == 'E') then
      var (negative, v) := SplitSign(s[1..]);
      var ds := LeadingDigits(v);
      if |ds| == 0 then 0 else Signed(negative, DigitsValue(ds))
    else 0
  }

  /** Whether an unsigned decimal literal without `Infinity` starts `u`: a
      digit, or a `.` followed by a digit. */
  predicate StartsUnsignedDecimal(u: string) {
    || (|u| > 0 && IsDigit(u[0]))
    || (|u| > 1 && u[0] == '.' && IsDigit(u[1]))
  }

  /** The value of the longest prefix of `u` of the form `digits [. digits]
      [exponent]` or `. digits [exponent]`, read exactly. */
  function UnsignedDecimal(u: string): (r: Option<real>)
    ensures r.None? <==> !StartsUnsignedDecimal(u)
  {
    var intDigits := LeadingDigits(u);
    var afterInt := u[|intDigits|..];
    var hasPoint := |afterInt| > 0 && afterInt[0] == '.';
    var fracDigits := if hasPoint then LeadingDigits(afterInt[1..]) else "";
    if |intDigits| == 0 && |fracDigits| == 0 then None
    else
      var afterMantissa := if hasPoint then afterInt[1 + |fracDigits|..] else afterInt;
      Some(Scale(DigitsValue(intDigits + fracDigits) as real,
                 ExponentOf(afterMantissa) - |fracDigits|))
  }

  /** `parseFloat(s)`: the longest prefix of the trimmed string that is a
      `StrDecimalLiteral`, read exactly. */
  function ParseFloat(s: string): (r: Option<Num>)
    ensures r.None? <==> !StartsDecimal(TrimStart(s))
  {
    var (negative, u) := SplitSign(TrimStart(s));
    if HasPrefix(u, "Infinity") then Some(if negative then NegInfinity else PosInfinity)
    else
      match UnsignedDecimal(u)
      case None => None
      case Some(m) => Some(Finite(if negative then -m else m))
  }

  /** A digit string followed by something that cannot continue a decimal
      literal reads as its integer value. */
  lemma {:induction false} UnsignedDecimalOfDigits(digits: string, suffix: string)
    requires |digits| >= 1 && AllDigits(digits)
    requires suffix == [] || !(IsDigit(suffix[0]) || suffix[0] in ".eE")
    ensures UnsignedDecimal(digits + suffix) == Some(DigitsValue(digits) as real)
  {
    var u := digits + suffix;
    LeadingDigitsAppend(digits, suffix);
    assert u[|digits|..] == suffix;
    assert digits + "" == digits;
    assert ExponentOf(suffix) == 0;
    ScaleByZero(DigitsValue(digits) as real);
  }

  /** Scaling by 10 to the power 0 changes nothing. */
  lemma {:induction false} ScaleByZero(m: real)
    ensures Scale(m, 0) == m
  {
    assert Pow10(0) == 1;
  }

  /** Text starting with a digit does not start with `Infinity`. */
  lemma {:induction false} DigitNotInfinity(u: string)
    requires |u| > 0 && IsDigit(u[0])
    ensures !HasPrefix(u, "Infinity")
  {
  }

  /** After whitespace and the sign, a decimal literal that is not
      `Infinity` is read by `UnsignedDecimal` and then signed. */
  lemma {:induction false} ParseFloatDecimal(s: string, negative: bool, u: string)
    requires SplitSign(TrimStart(s)) == (negative, u)
    requires !HasPrefix(u, "Infinity") && UnsignedDecimal(u).Some?
    ensures ParseFloat(s) == Some(Finite(if negative then -UnsignedDecimal(u).value else UnsignedDecimal(u).value))
  {
  }

  /** `parseFloat` reads a signed numeral as its integer value, whatever
      follows it that cannot continue a decimal literal. */
  lemma {:induction false} ParseFloatNumeral(negative: bool, digits: string, suffix: string)
    requires |digits| >= 1 && AllDigits(digits)
    requires suffix == [] || !(IsDigit(suffix[0]) || suffix[0] in ".eE")
    ensures ParseFloat(SignedNumeral(negative, digits) + suffix)
            == Some(Finite(Signed(negative, DigitsValue(digits)) as real))
  {
    var s := SignedNumeral(negative, digits) + suffix;
    var v := DigitsValue(digits);
    NumeralSign(negative, digits, suffix);
    UnsignedDecimalOfDigits(digits, suffix);
    assert (digits + suffix)[0] == digits[0];
    DigitNotInfinity(digits + suffix);
    ParseFloatDecimal(s, negative, digits + suffix);
    assert Signed(negative, v) as real == (if negative then -(v as real) else v as real);
  }

  /** `parseFloat` reads an integer numeral as that integer, whatever follows
      it that cannot continue a decimal literal. */
  lemma {:induction false} ParseFloatFormatInt(n: int, suffix: string)
    requires suffix == [] || !(IsDigit(suffix[0]) || suffix[0] in ".eE")
    ensures ParseFloat(FormatInt(n) + suffix) == Some(Finite(n as real))
  {
    ParseFloatNumeral(n < 0, FormatNat(if n < 0 then -n else n), suffix);
  }
}
