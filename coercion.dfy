/**
 Numeric coercion of the screen's text fields, as in `parseInt(s, 10) || 0`
 and `parseFloat(s) || 0`.

 `parseInt` with radix 10 is modelled exactly as section 19.2.5 of ECMA-262
 defines it, up to the final rounding to a double: skip leading white space
 and line terminators, read at most one sign, read the longest run of decimal
 digits; no digits means NaN. `parseFloat` (section 19.2.4) is abstract: only
 WHEN it yields NaN is pinned down, which is all `|| 0` needs.
 */
module Coercion {
  import opened Wrappers

  /** A JavaScript Number: NaN, an infinity or a finite value. The sign of
      zero is not modelled (both zeros are falsy and `|| 0` maps them to 0). */
  datatype JsNumber = NaN | PositiveInfinity | NegativeInfinity | Finite(value: real)

  /** Falsy Numbers, the ones that `x || 0` replaces by 0. */
  predicate IsFalsy(n: JsNumber) {
    n.NaN? || n == Finite(0.0)
  }

  /** `n || 0` on a Number. */
  function OrZero(n: JsNumber): (r: JsNumber)
    ensures !r.NaN?
    ensures IsFalsy(n) ==> r == Finite(0.0)
    ensures !IsFalsy(n) ==> r == n
  {
    if IsFalsy(n) then Finite(0.0) else n
  }

  /** The code points that TrimString removes: WhiteSpace (section 12.2 of
      ECMA-262, including every Unicode "Zs" space separator) and
      LineTerminator (section 12.3). */
  predicate IsStrWhiteSpaceChar(c: char) {
    || c == '\t' || c == '\U{000B}' || c == '\U{000C}' || c == ' '
    || c == '\U{00A0}' || c == '\U{FEFF}' || c == '\U{1680}'
    || ('\U{2000}' <= c <= '\U{200A}')
    || c == '\U{202F}' || c == '\U{205F}' || c == '\U{3000}'
    || c == '\n' || c == '\r' || c == '\U{2028}' || c == '\U{2029}'
  }

  predicate IsDecimalDigit(c: char) {
    '0' <= c <= '9'
  }

  predicate AllDigits(z: string) {
    forall i :: 0 <= i < |z| ==> IsDecimalDigit(z[i])
  }

  predicate AllWhiteSpace(w: string) {
    forall i :: 0 <= i < |w| ==> IsStrWhiteSpaceChar(w[i])
  }

  /** TrimString(s, start) as an index: the first position at or after `i`
      that does not hold white space, or |s|. */
  function SkipWhiteSpace(s: string, i: nat): (k: nat)
    requires i <= |s|
    ensures i <= k <= |s|
    ensures forall j :: i <= j < k ==> IsStrWhiteSpaceChar(s[j])
    ensures k < |s| ==> !IsStrWhiteSpaceChar(s[k])
    decreases |s| - i
  {
    if i < |s| && IsStrWhiteSpaceChar(s[i]) then SkipWhiteSpace(s, i + 1) else i
  }

  /** The position of the first non-white-space character (or |s|). */
  function TrimmedStart(s: string): (k: nat)
    ensures k <= |s|
  {
    SkipWhiteSpace(s, 0)
  }

  /** Steps 3 and 4 of parseInt: the sign is -1 when the trimmed text starts
      with '-'. */
  function SignOf(s: string): int {
    var k := TrimmedStart(s);
    if k < |s| && s[k] == '-' then -1 else 1
  }

  /** The position after the white space and at most one '+' or '-'. */
  function DigitsStart(s: string): (k: nat)
    ensures TrimmedStart(s) <= k <= |s|
  {
    var k := TrimmedStart(s);
    if k < |s| && (s[k] == '-' || s[k] == '+') then k + 1 else k
  }

  /** Step 11 of parseInt: the end of the run of decimal digits starting at `i`. */
  function DigitsEnd(s: string, i: nat): (k: nat)
    requires i <= |s|
    ensures i <= k <= |s|
    ensures forall j :: i <= j < k ==> IsDecimalDigit(s[j])
    ensures k < |s| ==> !IsDecimalDigit(s[k])
    decreases |s| - i
  {
    if i < |s| && IsDecimalDigit(s[i]) then DigitsEnd(s, i + 1) else i
  }

  /** The digit run Z of step 12 of parseInt. */
  function LeadingDigits(s: string): (z: string)
    ensures AllDigits(z)
  {
    s[DigitsStart(s)..DigitsEnd(s, DigitsStart(s))]
  }

  /** True when parseInt can read at least one digit, i.e. does not give NaN. */
  predicate HasLeadingDigits(s: string) {
    var k := DigitsStart(s);
    k < |s| && IsDecimalDigit(s[k])
  }

  function DigitValue(c: char): (d: nat)
    requires IsDecimalDigit(c)
    ensures d < 10
  {
    (c as int) - ('0' as int)
  }

  /** The integer a run of decimal digits denotes (most significant first). */
  function DigitsValue(z: string): (v: nat)
    requires AllDigits(z)
  {
    if z == [] then 0 else DigitsValue(z[..|z| - 1]) * 10 + DigitValue(z[|z| - 1])
  }

  /** parseInt(s, 10), with None for NaN. */
  function ParseIntDecimal(s: string): (r: Option<int>)
    ensures r.None? <==> !HasLeadingDigits(s)
    ensures r.Some? ==> SignOf(s) * r.value >= 0
  {
    var z := LeadingDigits(s);
    if z == [] then None else Some(SignOf(s) * DigitsValue(z))
  }

  /** `parseInt(s, 10) || 0`: the amount that goes into a request body. */
  function CoerceAmount(s: string): (n: int)
    ensures !HasLeadingDigits(s) ==> n == 0
    ensures HasLeadingDigits(s) ==> Some(n) == ParseIntDecimal(s)
  {
    match ParseIntDecimal(s)
    case None => 0
    case Some(v) => v
  }

  /** Decimal digits of a natural number, as Number.prototype.toString gives
      them for an integer. */
  function NatText(n: nat): (z: string)
    ensures z != [] && AllDigits(z)
    ensures DigitsValue(z) == n
    decreases n
  {
    var d := ['0' + (n % 10) as char];
    if n < 10 then d
    else
      var prefix := NatText(n / 10);
      assert (prefix + d)[..|prefix + d| - 1] == prefix;
      prefix + d
  }

  /** `amount.toString()` for an integer amount. */
  function AmountText(n: int): (z: string)
    ensures z != []
  {
    if n < 0 then "-" + NatText(-n) else NatText(n)
  }

  /** True when the text has a prefix that is a StrDecimalLiteral (section
      7.1.4.1 of ECMA-262) after trimming: "Infinity", a digit, or a '.'
      followed by a digit, each after at most one sign. parseFloat gives NaN
      exactly when there is no such prefix. */
  predicate HasFloatPrefix(s: string) {
    var k := DigitsStart(s);
    || (k + 8 <= |s| && s[k..k + 8] == "Infinity")
    || (k < |s| && IsDecimalDigit(s[k]))
    || (k + 1 < |s| && s[k] == '.' && IsDecimalDigit(s[k + 1]))
  }

  /** The engine's number conversions the screen relies on. Their exact
      values involve binary floating point, which this model leaves out. */
  datatype NumberRuntime = NumberRuntime(parseFloat: string -> JsNumber, toString: JsNumber -> string)

  /** parseFloat as section 19.2.4 of ECMA-262 defines it gives NaN on exactly
      the texts without a StrDecimalLiteral prefix. */
  ghost predicate ParsesPer262(rt: NumberRuntime) {
    forall s :: rt.parseFloat(s).NaN? <==> !HasFloatPrefix(s)
  }

  /** `parseFloat(s) || 0`: the price that goes into a request body. */
  function CoercePrice(rt: NumberRuntime, s: string): (p: JsNumber)
    requires ParsesPer262(rt)
    ensures !p.NaN?
    ensures !HasFloatPrefix(s) ==> p == Finite(0.0)
    ensures HasFloatPrefix(s) ==> p == rt.parseFloat(s)
  {
    OrZero(rt.parseFloat(s))
  }

  // ---- Lemmas about parseInt ----

  /** The contract of SkipWhiteSpace fixes its result: the position whose
      prefix from `i` is all white space and which does not hold white space. */
  lemma SkipWhiteSpaceTo(s: string, i: nat, k: nat)
    requires i <= k <= |s|
    requires forall j :: i <= j < k ==> IsStrWhiteSpaceChar(s[j])
    requires k < |s| ==> !IsStrWhiteSpaceChar(s[k])
    ensures SkipWhiteSpace(s, i) == k
  {
  }

  /** Likewise for DigitsEnd and runs of decimal digits. */
  lemma DigitsEndAt(s: string, i: nat, k: nat)
    requires i <= k <= |s|
    requires forall j :: i <= j < k ==> IsDecimalDigit(s[j])
    requires k < |s| ==> !IsDecimalDigit(s[k])
    ensures DigitsEnd(s, i) == k
  {
  }

  lemma SignAndDigitsAreNotWhiteSpace(c: char)
    requires c == '+' || c == '-' || IsDecimalDigit(c)
    ensures !IsStrWhiteSpaceChar(c)
  {
  }

  /** The full meaning of `parseInt(s, 10) || 0` in terms of positions:
      white space up to `a`, a sign or nothing up to `b`, digits up to `c`
      and no digit at `c`. */
  lemma {:induction false} CoerceAmountAt(s: string, a: nat, b: nat, c: nat)
    requires a <= b < c <= |s|
    requires forall j :: 0 <= j < a ==> IsStrWhiteSpaceChar(s[j])
    requires b == a || (b == a + 1 && (s[a] == '+' || s[a] == '-'))
    requires forall j :: b <= j < c ==> IsDecimalDigit(s[j])
    requires c < |s| ==> !IsDecimalDigit(s[c])
    ensures CoerceAmount(s) == (if b > a && s[a] == '-' then -1 else 1) * DigitsValue(s[b..c])
  {
    SignAndDigitsAreNotWhiteSpace(s[a]);
    SkipWhiteSpaceTo(s, 0, a);
    assert DigitsStart(s) == b;
    DigitsEndAt(s, b, c);
  }

  /** The same, for a text written as white space, an optional sign, a run
      of digits, then anything that does not start with a digit. */
  lemma {:induction false} CoerceAmountOfDecimalText(ws: string, sign: string, digits: string, rest: string)
    requires AllWhiteSpace(ws)
    requires sign == "" || sign == "+" || sign == "-"
    requires digits != [] && AllDigits(digits)
    requires rest == [] || !IsDecimalDigit(rest[0])
    ensures CoerceAmount(ws + sign + digits + rest) == (if sign == "-" then -1 else 1) * DigitsValue(digits)
  {
    var s := ws + sign + digits + rest;
    var a, b := |ws|, |ws| + |sign|;
    var c := b + |digits|;
    assert s[..a] == ws;
    assert s[a..b] == sign;
    assert s[b..c] == digits;
    assert s[c..] == rest;
    assert forall j :: 0 <= j < a ==> s[j] == s[..a][j];
    assert forall j :: b <= j < c ==> s[j] == s[b..c][j - b];
    assert c < |s| ==> s[c] == s[c..][0];
    CoerceAmountAt(s, a, b, c);
  }

  /** A bare run of digits, or one after a single '-', reads as its value. */
  lemma {:induction false} CoerceAmountOfSignedDigits(neg: bool, z: string)
    requires z != [] && AllDigits(z)
    ensures CoerceAmount(if neg then "-" + z else z) == (if neg then -1 else 1) * DigitsValue(z)
  {
    var s := if neg then "-" + z else z;
    var b := if neg then 1 else 0;
    assert forall j :: b <= j < |s| ==> s[j] == z[j - b];
    SignAndDigitsAreNotWhiteSpace(s[0]);
    SkipWhiteSpaceTo(s, 0, 0);
    assert DigitsStart(s) == b;
    DigitsEndAt(s, b, |s|);
    assert s[b..|s|] == z;
  }

  /** Amount text produced by toString parses back to the same integer. */
  lemma {:induction false} AmountRoundTrip(n: int)
    ensures CoerceAmount(AmountText(n)) == n
  {
    CoerceAmountOfSignedDigits(n < 0, NatText(if n < 0 then -n else n));
  }

  /** Texts without leading digits give 0: the empty field, a word, and
      "0x1A", where radix 10 reads only the "0" since no hexadecimal prefix
      is stripped. */
  lemma AmountFallbackExamples()
    ensures CoerceAmount("") == 0
    ensures CoerceAmount("abc") == 0
    ensures CoerceAmount("0x1A") == 0
  {
  }

  /** A text with leading digits gives their value: "12abc" gives 12. */
  lemma AmountOfDigitsThenLetters()
    ensures CoerceAmount("12abc") == 12
  {
    assert "12"[..1] == "1";
    assert DigitsValue("12") == 12;
  }

  /** A lone digit gives its value: "2" gives 2. */
  lemma AmountOfSingleDigit()
    ensures CoerceAmount("2") == 2
  {
  }

  /** White space is skipped and the sign applies: " -7" gives -7. */
  lemma AmountOfSpacedNegative()
    ensures CoerceAmount(" -7") == -7
  {
  }

  /** An empty price field, or one without a numeric prefix, is sent as 0. */
  lemma PriceFallback(rt: NumberRuntime, s: string)
    requires ParsesPer262(rt)
    requires !HasFloatPrefix(s)
    ensures CoercePrice(rt, s) == Finite(0.0)
    ensures rt.parseFloat(s) == NaN
  {
  }
}
