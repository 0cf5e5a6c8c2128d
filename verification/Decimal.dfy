/** Fixed-point currency amounts: int64 counts of one billionth of a unit, and their text form. */
module Decimal {
  import opened Text
  import opened Wrappers

  const SCALE: int := 1_000_000_000
  const FRACTION_DIGITS: nat := 9
  const MAX_INT64: int := 0x7FFF_FFFF_FFFF_FFFF
  const MIN_INT64: int := -0x8000_0000_0000_0000

  predicate IsInt64(x: int) {
    MIN_INT64 <= x <= MAX_INT64
  }

  /** The two's-complement value kept by a 64-bit register. */
  function Wrap64(x: int): (r: int)
    ensures IsInt64(r)
    ensures IsInt64(x) ==> r == x
    ensures (r - x) % 0x1_0000_0000_0000_0000 == 0
  {
    (x + 0x8000_0000_0000_0000) % 0x1_0000_0000_0000_0000 - 0x8000_0000_0000_0000
  }

  /** Wrapping early or late makes no difference to a sum. */
  lemma WrapSum(x: int, y: int)
    ensures Wrap64(Wrap64(x) + y) == Wrap64(x + y)
  {
  }

  // ---------------------------------------------------------------- digits

  predicate IsDigit(c: char) {
    '0' <= c <= '9'
  }

  predicate AllDigits(s: string) {
    forall i :: 0 <= i < |s| ==> IsDigit(s[i])
  }

  function DigitChar(d: int): (c: char)
    requires 0 <= d < 10
    ensures IsDigit(c) && c as int - '0' as int == d
  {
    ('0' as int + d) as char
  }

  function Pow10(n: nat): (p: nat)
    ensures p >= 1
  {
    if n == 0 then 1 else 10 * Pow10(n - 1)
  }

  /** The number a digit string denotes; the empty string denotes zero. */
  function DigitsValue(s: string): (v: nat)
    requires AllDigits(s)
    ensures v < Pow10(|s|)
  {
    if s == "" then 0 else DigitsValue(s[..|s| - 1]) * 10 + (s[|s| - 1] as int - '0' as int)
  }

  function Zeros(n: nat): (s: string)
    ensures |s| == n && AllDigits(s)
  {
    if n == 0 then "" else Zeros(n - 1) + "0"
  }

  /** The shortest decimal numeral of `n`. */
  function Numeral(n: nat): (s: string)
    ensures s != "" && AllDigits(s)
  {
    if n < 10 then [DigitChar(n)] else Numeral(n / 10) + [DigitChar(n % 10)]
  }

  /** The last `width` digits of `n`, zero padded. */
  function Padded(n: nat, width: nat): (s: string)
    ensures |s| == width && AllDigits(s)
  {
    if width == 0 then "" else Padded(n / 10, width - 1) + [DigitChar(n % 10)]
  }

  lemma {:induction false} NumeralValue(n: nat)
    ensures DigitsValue(Numeral(n)) == n
  {
    if n >= 10 {
      NumeralValue(n / 10);
      assert Numeral(n)[..|Numeral(n)| - 1] == Numeral(n / 10);
    }
  }

  lemma {:induction false} PaddedValue(n: nat, width: nat)
    requires n < Pow10(width)
    ensures DigitsValue(Padded(n, width)) == n
  {
    if width > 0 {
      PaddedValue(n / 10, width - 1);
      assert Padded(n, width)[..width - 1] == Padded(n / 10, width - 1);
    }
  }

  /** A value followed by `n` zeros. */
  function Scaled(v: nat, n: nat): nat {
    if n == 0 then v else 10 * Scaled(v, n - 1)
  }

  lemma LastZero(s: string, n: nat)
    requires n > 0 && AllDigits(s)
    ensures AllDigits(s + Zeros(n)) && AllDigits(s + Zeros(n - 1))
    ensures DigitsValue(s + Zeros(n)) == 10 * DigitsValue(s + Zeros(n - 1))
  {
    var t := s + Zeros(n);
    assert t[..|t| - 1] == s + Zeros(n - 1);
    assert t[|t| - 1] == '0';
  }

  /** Appending zeros multiplies the value by the matching power of ten. */
  lemma {:induction false} ZerosShift(s: string, n: nat)
    requires AllDigits(s)
    ensures AllDigits(s + Zeros(n))
    ensures DigitsValue(s + Zeros(n)) == Scaled(DigitsValue(s), n)
  {
    hide DigitsValue;
    if n == 0 {
      assert s + Zeros(0) == s;
    } else {
      ZerosShift(s, n - 1);
      LastZero(s, n);
    }
  }

  // ---------------------------------------------------------------- parsing

  /** Position of the first dot, or the length when there is none. */
  function DotIndex(s: string): (i: nat)
    ensures i <= |s|
    ensures i < |s| ==> s[i] == '.'
    ensures forall j :: 0 <= j < i ==> s[j] != '.'
  {
    if s == "" || s[0] == '.' then 0 else 1 + DotIndex(s[1..])
  }

  /** Base-ten 64-bit integer syntax: an optional sign and at least one digit, within range. */
  function ParseInt64(s: string): (r: Option<int>)
    ensures r.Some? ==> IsInt64(r.value)
  {
    if s == "" then None else
    var body := if s[0] == '+' || s[0] == '-' then s[1..] else s;
    if body == "" || !AllDigits(body) then None else
    var v: int := DigitsValue(body);
    if s[0] == '-' then (if v <= MAX_INT64 + 1 then Some(-v) else None)
    else if v <= MAX_INT64 then Some(v) else None
  }

  /** Nanos of a fraction of at most nine digits, zero filled on the right. */
  function FractionNanos(fractionText: string): (n: nat)
    requires AllDigits(fractionText) && |fractionText| <= FRACTION_DIGITS
    ensures n < SCALE
  {
    NinePlaces();
    DigitsValue(fractionText + Zeros(FRACTION_DIGITS - |fractionText|))
  }

  /** Combines the two halves of a number split at its dot. */
  function Combine(wholeText: string, fractionText: string): (r: Result<int>) {
    match ParseInt64(if wholeText == "" then "0" else wholeText)
    case None => Err("invalid decimal")
    case Some(whole) =>
      if |fractionText| > FRACTION_DIGITS then Err("more than 9 fractional digits")
      else if !AllDigits(fractionText) then Err("invalid decimal")
      else
        var fraction := FractionNanos(fractionText);
        if whole > (MAX_INT64 - fraction) / SCALE then Err("overflow")
        else Ok(Wrap64(whole * SCALE + fraction))
  }

  /** The part of a text after its first dot. */
  function AfterDot(u: string): string {
    if DotIndex(u) < |u| then u[DotIndex(u) + 1..] else ""
  }

  /** The body of a number after blanks and one leading plus were removed. */
  function ParseUnsigned(u: string): (r: Result<int>) {
    if '.' in AfterDot(u) then Err("invalid decimal")
    else Combine(u[..DotIndex(u)], AfterDot(u))
  }

  function WithoutPlus(v: string): string {
    if v != "" && v[0] == '+' then v[1..] else v
  }

  /** The amount in billionths denoted by a text, or an error. */
  function ParseDecimal(text: string): (r: Result<int>)
  {
    var v := Trim(text);
    if v == "" then Err("amount is empty")
    else if v[0] == '-' then Err("negative amounts are not supported")
    else ParseUnsigned(WithoutPlus(v))
  }

  predicate Readable(text: string) {
    ParseDecimal(text).Ok?
  }

  /** The amount a text denotes; one that cannot be read is worth nothing. */
  function Worth(text: string): int {
    if Readable(text) then ParseDecimal(text).value else 0
  }

  /** The text reads back as an amount that is not negative. */
  /** An amount that cannot be read counts for nothing. */
  lemma WorthExactly(text: string)
    ensures ParseDecimal(text).Ok? ==> Ok(Worth(text)) == ParseDecimal(text)
    ensures ParseDecimal(text).Err? ==> Worth(text) == 0
    ensures ReadsBack(text) <==> ParseDecimal(text).Ok? && 0 <= ParseDecimal(text).value
  {
    hide ParseDecimal;
  }

  predicate ReadsBack(text: string) {
    ParseDecimal(text).Ok? && ParseDecimal(text).value >= 0
  }

  function TruncDiv(a: int, b: int): int
    requires b > 0
  {
    if a >= 0 then a / b else -(-a / b)
  }

  function TruncMod(a: int, b: int): int
    requires b > 0
  {
    if a >= 0 then a % b else -(-a % b)
  }

  /** A signed integer, zero padded to `width` characters, the sign included. */
  function Signed(n: int, width: nat): string {
    var magnitude: nat := if n < 0 then -n else n;
    var digits := width - (if n < 0 && width > 0 then 1 else 0);
    (if n < 0 then "-" else "")
    + if magnitude < Pow10(digits) && digits > 0 then Padded(magnitude, digits) else Numeral(magnitude)
  }

  /** The printed form of an amount: whole part, dot, nine-column remainder. */
  function Print(nanos: int): string {
    Signed(TruncDiv(nanos, SCALE), 0) + "." + Signed(TruncMod(nanos, SCALE), FRACTION_DIGITS)
  }

  function Add(left: int, right: int): Result<int> {
    if right > 0 && left > MAX_INT64 - right then Err("amount addition overflows")
    else Ok(Wrap64(left + right))
  }

  // ---------------------------------------------------------------- laws

  /** Division that truncates toward zero. */
  lemma TruncExactly(a: int, b: int)
    requires b > 0
    ensures a == TruncDiv(a, b) * b + TruncMod(a, b)
    ensures -b < TruncMod(a, b) < b && (a >= 0 ==> TruncMod(a, b) >= 0) && (a <= 0 ==> TruncMod(a, b) <= 0)
  {
  }

  lemma NinePlaces()
    ensures Pow10(FRACTION_DIGITS) == SCALE
  {
    assert Pow10(3) == 1000;
    assert Pow10(6) == 1_000_000;
  }

  lemma SplitAtDot(w: string, rest: string)
    requires AllDigits(w)
    requires rest == "" || rest[0] == '.'
    ensures DotIndex(w + rest) == |w|
    ensures (w + rest)[..|w|] == w
    ensures AfterDot(w + rest) == if rest == "" then "" else rest[1..]
  {
    var u := w + rest;
    assert forall k :: 0 <= k < |w| ==> u[k] == w[k] && w[k] != '.';
    if rest != "" {
      assert u[|w|] == '.';
      assert u[|w| + 1..] == rest[1..];
    }
  }

  /** A grammar text: digits, and optionally a dot and more digits. */
  ghost function GrammarText(w: string, f: Option<string>): string {
    w + if f.Some? then "." + f.value else ""
  }

  /** The exact amount a grammar text denotes, in billionths, when it has at most nine fraction digits. */
  ghost function GrammarValue(w: string, f: Option<string>): nat
    requires AllDigits(w)
    requires f.Some? ==> AllDigits(f.value) && |f.value| <= FRACTION_DIGITS
  {
    DigitsValue(w) * SCALE + if f.Some? then FractionNanos(f.value) else 0
  }

  /** A fraction of k digits counts units of 10^(9 - k) billionths. */
  lemma FractionValue(ft: string)
    requires AllDigits(ft) && |ft| <= FRACTION_DIGITS
    ensures FractionNanos(ft) == Scaled(DigitsValue(ft), FRACTION_DIGITS - |ft|)
  {
    hide Zeros, Pow10, DigitsValue, Scaled, AllDigits;
    ZerosShift(ft, FRACTION_DIGITS - |ft|);
  }

  lemma WholePart(w: string)
    requires AllDigits(w)
    ensures ParseInt64(if w == "" then "0" else w)
         == if DigitsValue(w) <= MAX_INT64 then Some(DigitsValue(w)) else None
  {
    if w != "" {
      assert IsDigit(w[0]);
    } else {
      assert "0"[..0] == "";
      assert DigitsValue("0") == 0;
    }
  }

  /** The guard of the parser rejects exactly the amounts that do not fit, without overflowing itself. */
  lemma FitsExactly(whole: int, fraction: nat)
    requires fraction < SCALE
    ensures whole > (MAX_INT64 - fraction) / SCALE <==> whole * SCALE + fraction > MAX_INT64
  {
    var q := (MAX_INT64 - fraction) / SCALE;
    assert q * SCALE <= MAX_INT64 - fraction < (q + 1) * SCALE;
  }

  lemma CombineGrammar(w: string, ft: string)
    requires AllDigits(w) && AllDigits(ft)
    ensures Combine(w, ft).Ok?
       <==> |ft| <= FRACTION_DIGITS && DigitsValue(w) * SCALE + FractionNanos(ft) <= MAX_INT64
    ensures Combine(w, ft).Ok? ==> Combine(w, ft).value == DigitsValue(w) * SCALE + FractionNanos(ft)
  {
    WholePart(w);
    if |ft| <= FRACTION_DIGITS {
      FitsExactly(DigitsValue(w), FractionNanos(ft));
    }
  }

  lemma NoDotInDigits(s: string)
    requires AllDigits(s)
    ensures '.' !in s
  {
  }

  lemma UnsignedGrammar(w: string, f: Option<string>)
    requires AllDigits(w) && (f.Some? ==> AllDigits(f.value))
    ensures ParseUnsigned(GrammarText(w, f)).Ok?
       <==> (f.Some? ==> |f.value| <= FRACTION_DIGITS) && GrammarValue(w, f) <= MAX_INT64
    ensures ParseUnsigned(GrammarText(w, f)).Ok? ==> ParseUnsigned(GrammarText(w, f)).value == GrammarValue(w, f)
  {
    hide Combine, FractionNanos, DigitsValue;
    var rest := if f.Some? then "." + f.value else "";
    var ft := if f.Some? then f.value else "";
    SplitAtDot(w, rest);
    assert rest == "" || rest[1..] == ft;
    assert AfterDot(w + rest) == ft;
    NoDotInDigits(ft);
    CombineGrammar(w, ft);
    if f.None? {
      FractionValue("");
    }
  }

  /** On the decimal grammar the parser accepts exactly the amounts that fit and returns them exactly. */
  lemma ParseDecimalExact(plus: bool, w: string, f: Option<string>)
    requires AllDigits(w) && (f.Some? ==> AllDigits(f.value))
    requires plus || GrammarText(w, f) != ""
    ensures var r := ParseDecimal((if plus then "+" else "") + GrammarText(w, f));
            && (r.Ok? <==> (f.Some? ==> |f.value| <= FRACTION_DIGITS) && GrammarValue(w, f) <= MAX_INT64)
            && (r.Ok? ==> r.value == GrammarValue(w, f))
  {
    var u := GrammarText(w, f);
    var s := (if plus then "+" else "") + u;
    GrammarChars(w, f);
    assert s[0] == (if plus then '+' else u[0]);
    assert s[|s| - 1] == (if u == "" then '+' else u[|u| - 1]);
    ParseTrimmed(s);
    assert WithoutPlus(s) == u;
    UnsignedGrammar(w, f);
  }

  /** A whole part that combines is a numeral, with at most one sign. */
  lemma CombineShape(whole: string, ft: string) returns (sign: string, w: string)
    requires Combine(whole, ft).Ok?
    ensures whole == sign + w && sign in {"", "+", "-"} && AllDigits(w) && (sign != "" ==> w != "")
    ensures AllDigits(ft) && |ft| <= 9
  {
    hide FractionNanos, DigitsValue;
    var signed := whole != "" && (whole[0] == '+' || whole[0] == '-');
    sign, w := if signed then [whole[0]] else "", if signed then whole[1..] else whole;
  }

  lemma CutAtDot(u: string) returns (whole: string, f: Option<string>)
    ensures whole == u[..DotIndex(u)] && AfterDot(u) == (if f.Some? then f.value else "")
    ensures u == whole + if f.Some? then "." + f.value else ""
  {
    whole := u[..DotIndex(u)];
    f := if DotIndex(u) < |u| then Some(AfterDot(u)) else None;
  }

  lemma UnsignedShape(u: string) returns (sign: string, w: string, f: Option<string>)
    requires ParseUnsigned(u).Ok?
    ensures u == sign + GrammarText(w, f) && sign in {"", "+", "-"} && (sign != "" ==> w != "")
    ensures AllDigits(w) && (f.Some? ==> AllDigits(f.value) && |f.value| <= 9)
  {
    hide Combine, DotIndex, AfterDot;
    var whole;
    whole, f := CutAtDot(u);
    sign, w := CombineShape(whole, AfterDot(u));
    hide AllDigits;
    var rest := if f.Some? then "." + f.value else "";
    assert (sign + w) + rest == sign + (w + rest);
  }

  /** The accepted texts have at most two signs, the first one a plus, then digits, and at most nine behind a dot. */
  lemma AcceptedShape(text: string) returns (sign: string, w: string, f: Option<string>)
    requires ParseDecimal(text).Ok?
    ensures Trim(text) == sign + GrammarText(w, f) && sign in {"", "+", "++", "+-"}
    ensures AllDigits(w) && (f.Some? ==> AllDigits(f.value) && |f.value| <= 9)
    ensures Trim(text) != "" && (sign in {"++", "+-"} ==> w != "")
  {
    hide Trim, ParseUnsigned, AllDigits, GrammarText;
    var v := Trim(text);
    sign, w, f := UnsignedShape(WithoutPlus(v));
    if v[0] == '+' {
      assert v == "+" + WithoutPlus(v);
      assert v == "+" + (sign + GrammarText(w, f)) == ("+" + sign) + GrammarText(w, f);
      assert "+" + "+" == "++" && "+" + "-" == "+-" && "+" + "" == "+";
      sign := "+" + sign;
    } else {
      assert v == sign + GrammarText(w, f);
      assert sign <= v;
    }
  }

  lemma ParseTrimmed(s: string)
    requires s != "" && !IsSpace(s[0]) && !IsSpace(s[|s| - 1]) && s[0] != '-'
    ensures ParseDecimal(s) == ParseUnsigned(WithoutPlus(s))
  {
    TrimIdentity(s);
  }

  lemma GrammarChars(w: string, f: Option<string>)
    requires AllDigits(w) && (f.Some? ==> AllDigits(f.value))
    ensures forall i :: 0 <= i < |GrammarText(w, f)| ==>
              IsDigit(GrammarText(w, f)[i]) || GrammarText(w, f)[i] == '.'
  {
  }

  /** Printing then parsing gives the amount back exactly when it is not negative. */
  lemma PrintParse(nanos: int)
    requires IsInt64(nanos)
    ensures ParseDecimal(Print(nanos)) == Ok(nanos) <==> nanos >= 0
    ensures nanos < 0 ==> ParseDecimal(Print(nanos)).Err?
  {
    hide Print, ParseDecimal, GrammarText, Numeral, Padded;
    if nanos >= 0 {
      assert nanos / SCALE * SCALE + nanos % SCALE == nanos;
      PrintParseNonNegative(nanos / SCALE, nanos % SCALE);
      PrintedText(nanos);
    } else {
      PrintNegativeRejected(nanos);
    }
  }

  lemma PrintParseNonNegative(whole: nat, rest: nat)
    requires rest < SCALE && whole * SCALE + rest <= MAX_INT64
    ensures ParseDecimal(GrammarText(Numeral(whole), Some(Padded(rest, FRACTION_DIGITS)))) == Ok(whole * SCALE + rest)
  {
    hide Numeral, Padded, DigitsValue, FractionNanos, ParseUnsigned, ParseDecimal, GrammarText;
    NumeralValue(whole);
    PaddedFraction(rest);
    ParsePlainGrammar(Numeral(whole), Padded(rest, FRACTION_DIGITS));
  }

  lemma ParsePlainGrammar(w: string, ft: string)
    requires w != "" && AllDigits(w) && AllDigits(ft) && |ft| <= FRACTION_DIGITS
    requires DigitsValue(w) * SCALE + FractionNanos(ft) <= MAX_INT64
    ensures ParseDecimal(GrammarText(w, Some(ft))) == Ok(DigitsValue(w) * SCALE + FractionNanos(ft))
  {
    hide DigitsValue, FractionNanos, ParseUnsigned;
    var s := GrammarText(w, Some(ft));
    GrammarChars(w, Some(ft));
    ParseTrimmed(s);
    assert s[0] == w[0];
    assert WithoutPlus(s) == s;
    UnsignedGrammar(w, Some(ft));
  }

  lemma PaddedFraction(rest: nat)
    requires rest < SCALE
    ensures FractionNanos(Padded(rest, FRACTION_DIGITS)) == rest
  {
    NinePlaces();
    PaddedValue(rest, FRACTION_DIGITS);
    FractionValue(Padded(rest, FRACTION_DIGITS));
  }

  lemma PrintedText(nanos: nat)
    ensures Print(nanos) == GrammarText(Numeral(nanos / SCALE), Some(Padded(nanos % SCALE, FRACTION_DIGITS)))
  {
    NinePlaces();
  }

  lemma SignedShape(n: int, width: nat)
    ensures var s := Signed(n, width);
            && s != "" && IsDigit(s[|s| - 1])
            && (n < 0 ==> s[0] == '-')
            && (n >= 0 ==> AllDigits(s))
  {
  }

  lemma PrintNegativeRejected(nanos: int)
    requires IsInt64(nanos) && nanos < 0
    ensures ParseDecimal(Print(nanos)).Err?
  {
    var whole, rest := TruncDiv(nanos, SCALE), TruncMod(nanos, SCALE);
    SignedShape(whole, 0);
    SignedShape(rest, FRACTION_DIGITS);
    assert whole == 0 ==> rest < 0;
    RejectedText(Signed(whole, 0), Signed(rest, FRACTION_DIGITS));
  }

  /** A minus sign in front of either half makes the text unreadable. */
  lemma RejectedText(left: string, right: string)
    requires left != "" && right != "" && IsDigit(right[|right| - 1])
    requires left[0] == '-' || (AllDigits(left) && right[0] == '-')
    ensures ParseDecimal(left + "." + right).Err?
  {
    var s := left + "." + right;
    assert s[|s| - 1] == right[|right| - 1];
    assert s[0] == left[0];
    TrimIdentity(s);
    if left[0] != '-' {
      assert s == left + ("." + right);
      SplitAtDot(left, "." + right);
      assert ("." + right)[1..] == right;
      assert !AllDigits(right);
      assert IsDigit(left[0]);
    }
  }

  /** Behind a stripped plus another sign reaches the integer parser. */
  lemma SecondSigned(digits: string)
    requires digits != "" && AllDigits(digits)
    ensures ParseDecimal("+-" + digits) == Combine("-" + digits, "")
  {
    var text, u := "+-" + digits, "-" + digits;
    hide Combine;
    assert text[0] == '+' && text[|text| - 1] == digits[|digits| - 1];
    TrimIdentity(text);
    hide Trim;
    assert text[1..] == u;
    assert forall i :: 0 <= i < |u| ==> u[i] != '.';
    assert u[..|u|] == u;
  }

  lemma NegativeParses(digits: string)
    requires digits != "" && AllDigits(digits) && DigitsValue(digits) <= MAX_INT64
    ensures ParseInt64("-" + digits).Some? && ParseInt64("-" + digits).value == 0 - DigitsValue(digits)
  {
    hide DigitsValue;
    assert ("-" + digits)[1..] == digits;
  }

  lemma NegativeCombines(digits: string)
    requires digits != "" && AllDigits(digits) && DigitsValue(digits) <= MAX_INT64
    ensures Combine("-" + digits, "").Ok?
  {
    hide DigitsValue, FractionNanos, ParseInt64, Wrap64;
    NegativeParses(digits);
    NoFraction();
  }

  /** So the parser can return a negative amount, and a wrapped one. */
  lemma SecondSignValue(n: nat)
    requires n <= MAX_INT64
    ensures ParseDecimal("+-" + Numeral(n)).Ok? && ParseDecimal("+-" + Numeral(n)).value == Wrap64(0 - n * SCALE)
  {
    hide ParseDecimal, Combine, Numeral, DigitsValue, FractionNanos, Wrap64;
    var digits := Numeral(n);
    NumeralValue(n);
    SecondSigned(digits);
    NoFraction();
    NegativeCombines(digits);
    CombineSign("-" + digits, "");
    assert ("-" + digits)[1..] == digits;
  }

  lemma SecondSignIsAccepted()
    ensures ParseDecimal("+-1").Ok? && ParseDecimal("+-1").value == -SCALE
  {
    assert Numeral(1) == "1" && "+-" + "1" == "+-1";
    hide ParseDecimal;
    SecondSignValue(1);
  }

  /** Even a whole part that is not zero can wrap to a positive amount. */
  lemma LargeSecondSignIsPositive()
    ensures ParseDecimal("+-" + Numeral(9_223_372_037)).Ok?
    ensures ParseDecimal("+-" + Numeral(9_223_372_037)).value > 0
  {
    hide ParseDecimal, Numeral;
    SecondSignValue(9_223_372_037);
  }

  /** The most negative amount in whole units. */
  const LARGE_NEGATIVE := "+-9223372036"

  lemma LargeNegativeParses()
    ensures ParseDecimal(LARGE_NEGATIVE) == Ok(-9_223_372_036_000_000_000)
  {
    hide ParseDecimal, Numeral;
    SecondSignValue(9_223_372_036);
    TenDigits();
    assert LARGE_NEGATIVE == "+-" + Numeral(9_223_372_036);
  }

  lemma NextDigit(n: nat, d: nat, text: string)
    requires n > 0 && d < 10 && Numeral(n) == text
    ensures Numeral(10 * n + d) == text + [DigitChar(d)]
  {
  }

  lemma TenDigits()
    ensures Numeral(9_223_372_036) == "9223372036"
  {
    assert Numeral(9) == "9";
    hide Numeral;
    NextDigit(9, 2, "9");
    NextDigit(92, 2, "92");
    NextDigit(922, 3, "922");
    NextDigit(9_223, 3, "9223");
    NextDigit(92_233, 7, "92233");
    NextDigit(922_337, 2, "922337");
    NextDigit(9_223_372, 0, "9223372");
    NextDigit(92_233_720, 3, "92233720");
    NextDigit(922_337_203, 6, "922337203");
  }

  /** A text whose trimmed form starts with a plus and a minus. */
  predicate SecondSign(text: string) {
    "+-" <= Trim(text)
  }

  /** What follows the two signs, up to the dot and behind it. */
  ghost function SignedWhole(text: string): string
    requires SecondSign(text)
  {
    Trim(text)[2..][..DotIndex(Trim(text)[2..])]
  }

  ghost function SignedFraction(text: string): string
    requires SecondSign(text)
  {
    AfterDot(Trim(text)[2..])
  }

  /** The billionths by which the whole part exceeds the fraction. */
  ghost function Debt(whole: string, fraction: string): int
    requires AllDigits(whole) && AllDigits(fraction) && |fraction| <= FRACTION_DIGITS
  {
    DigitsValue(whole) * SCALE - FractionNanos(fraction)
  }

  /** The wrapped debt is negative in one half of the 64-bit circle. */
  predicate Owes(debt: int) {
    1 <= debt % 0x1_0000_0000_0000_0000 <= 0x8000_0000_0000_0000
  }

  lemma WrapSign(debt: int)
    ensures Wrap64(-debt) < 0 <==> Owes(debt)
  {
  }

  /**
    The sign of every accepted text. A text without a second sign denotes an amount that is not negative. With one,
    the amount is the fraction minus the whole part, wrapped to 64 bits, and it is negative exactly when the wrapped
    debt lies in the negative half.
  */
  lemma NegativeExactly(text: string)
    requires ParseDecimal(text).Ok?
    ensures !SecondSign(text) ==> ParseDecimal(text).value >= 0
    ensures SecondSign(text) ==>
              var w, f := SignedWhole(text), SignedFraction(text);
              && w != "" && AllDigits(w) && AllDigits(f) && |f| <= FRACTION_DIGITS
              && ParseDecimal(text).value == Wrap64(-Debt(w, f))
              && (ParseDecimal(text).value < 0 <==> Owes(Debt(w, f)))
  {
    hide Combine, DigitsValue, Trim, FractionNanos, Wrap64;
    var v := Trim(text);
    var u := WithoutPlus(v);
    var whole := u[..DotIndex(u)];
    assert ParseDecimal(text) == Combine(whole, AfterDot(u));
    CombineSign(whole, AfterDot(u));
    if SecondSign(text) {
      assert v[0] == '+' && v[1] == '-';
      assert u[0] == '-' && u[1..] == v[2..];
      assert DotIndex(u) == 1 + DotIndex(v[2..]);
      assert whole[1..] == SignedWhole(text) && AfterDot(u) == SignedFraction(text);
      WrapSign(Debt(whole[1..], AfterDot(u)));
    } else if whole != "" && whole[0] == '-' {
      assert false;
    }
  }

  /** The combined amount follows the sign character of its whole part. */
  lemma CombineSign(w: string, ft: string)
    requires Combine(w, ft).Ok?
    ensures AllDigits(ft) && |ft| <= FRACTION_DIGITS
    ensures w == "" || w[0] != '-' ==> Combine(w, ft).value >= 0
    ensures w != "" && w[0] == '-' ==>
              w[1..] != "" && AllDigits(w[1..]) && Combine(w, ft).value == Wrap64(-Debt(w[1..], ft))
  {
    hide DigitsValue, FractionNanos;
    var fraction := FractionNanos(ft);
    if w == "" || w[0] != '-' {
      var whole := ParseInt64(if w == "" then "0" else w).value;
      FitsExactly(whole, fraction);
      PlainFits(w, fraction);
    } else {
      var digits: int := DigitsValue(w[1..]);
      assert ParseInt64(w) == Some(-digits);
    }
  }

  lemma PlainFits(w: string, fraction: nat)
    requires ParseInt64(if w == "" then "0" else w).Some? && (w == "" || w[0] != '-')
    ensures ParseInt64(if w == "" then "0" else w).value >= 0
  {
    hide DigitsValue;
  }

  lemma NoFraction()
    ensures FractionNanos("") == 0
  {
    hide Scaled, FractionNanos;
    FractionValue("");
    ZeroScaled(FRACTION_DIGITS);
    assert DigitsValue("") == 0;
  }

  lemma {:induction false} ZeroScaled(n: nat)
    ensures Scaled(0, n) == 0
  {
    if n > 0 {
      ZeroScaled(n - 1);
    }
  }

  lemma ReadsBackFits(text: string)
    requires ReadsBack(text)
    ensures 0 <= Worth(text) <= MAX_INT64
  {
  }

  /** Adding two non-negative amounts fails exactly when the sum does not fit, and is exact otherwise. */
  lemma AddExact(left: int, right: int)
    requires 0 <= left <= MAX_INT64 && right >= 0
    ensures Add(left, right).Ok? <==> left + right <= MAX_INT64
    ensures Add(left, right).Ok? ==> Add(left, right).value == left + right
  {
  }
}
