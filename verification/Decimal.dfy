/**
 Decimal notation of floats (src/system_one/json.rs:204-261). A float arrives as the
 shortest decimal text of its absolute value; `FloatText` rewrites that text in Python's
 notation. The digits themselves are foreign: any text of the grammar is covered.
 */
module Decimal {
  import opened Wrappers

  /** A binary64 value: its class, its sign and, if it is finite and not zero, the shortest
      decimal text of its absolute value. */
  datatype Double = Infinite(negative: bool) | Zero(negative: bool) | Finite(negative: bool, shortest: string)

  // ---- Reading decimal text ----

  predicate IsDigit(c: char) {
    '0' <= c <= '9'
  }

  predicate AllDigits(s: string) {
    forall k | 0 <= k < |s| :: IsDigit(s[k])
  }

  function Digit(c: char): int {
    c as int - '0' as int
  }

  /** The number the first n digits denote. */
  function NumTo(s: string, n: nat): int
    requires n <= |s|
  {
    if n == 0 then 0 else 10 * NumTo(s, n - 1) + Digit(s[n - 1])
  }

  /** The number a string of digits denotes. */
  function Num(s: string): int {
    NumTo(s, |s|)
  }

  /** The position of the first c from i on, or the length. */
  function FindFrom(s: string, c: char, i: nat): (k: nat)
    requires i <= |s|
    ensures i <= k <= |s| && (forall j | i <= j < k :: s[j] != c) && (k < |s| ==> s[k] == c)
    decreases |s| - i
  {
    if i == |s| || s[i] == c then i else FindFrom(s, c, i + 1)
  }

  function Find(s: string, c: char): (k: nat)
    ensures k <= |s|
  {
    FindFrom(s, c, 0)
  }

  function RemoveTo(s: string, c: char, n: nat): (r: string)
    requires n <= |s|
    ensures |r| <= n
  {
    if n == 0 then "" else RemoveTo(s, c, n - 1) + (if s[n - 1] == c then "" else [s[n - 1]])
  }

  function Remove(s: string, c: char): string {
    RemoveTo(s, c, |s|)
  }

  /** An optional sign and digits. */
  predicate IsInteger(s: string) {
    var d := if s != "" && (s[0] == '-' || s[0] == '+') then s[1..] else s;
    d != "" && AllDigits(d)
  }

  function Integer(s: string): int {
    if s == "" then 0
    else if s[0] == '-' then -Num(s[1..])
    else if s[0] == '+' then Num(s[1..])
    else Num(s)
  }

  function Mantissa(text: string): string {
    text[..Find(text, 'e')]
  }

  function ExponentText(text: string): string {
    var k := Find(text, 'e');
    if k < |text| then text[k + 1..] else "0"
  }

  /** Digits with at most one point, and perhaps an exponent. */
  predicate IsDecimal(text: string) {
    var m := Mantissa(text);
    var p := Find(m, '.');
    && AllDigits(m[..p]) && (p < |m| ==> AllDigits(m[p + 1..]))
    && IsInteger(ExponentText(text))
  }

  /** n * 10^e */
  function Scaled(n: int, e: int): real
    decreases if e < 0 then -e else e
  {
    if e == 0 then n as real else if e > 0 then 10.0 * Scaled(n, e - 1) else Scaled(n, e + 1) / 10.0
  }

  /** The number of digits behind the point. */
  function Fraction(m: string): int {
    var p := Find(m, '.');
    if p < |m| then |m| - p - 1 else 0
  }

  /** The number digits * 10^exponent. */
  datatype Number = Number(digits: string, exponent: int)

  /** A decimal text: its digits, and the exponent moved by the digits behind the point. */
  function Parse(text: string): Number {
    Number(Remove(Mantissa(text), '.'), Integer(ExponentText(text)) - Fraction(Mantissa(text)))
  }

  function Denotes(n: Number): real {
    Scaled(Num(n.digits), n.exponent)
  }

  /** What a decimal text denotes. */
  function Value(text: string): real {
    Denotes(Parse(text))
  }

  // ---- The rewriting ----

  /** The number of leading zeros, and the length without the trailing ones. */
  function Lead(s: string, i: nat): (k: nat)
    requires i <= |s|
    ensures i <= k <= |s| && (forall j | i <= j < k :: s[j] == '0') && (k < |s| ==> s[k] != '0')
    decreases |s| - i
  {
    if i < |s| && s[i] == '0' then Lead(s, i + 1) else i
  }

  function Trail(s: string, n: nat): (k: nat)
    requires n <= |s|
    ensures k <= n && (forall j | k <= j < n :: s[j] == '0') && (k > 0 ==> s[k - 1] != '0')
  {
    if n > 0 && s[n - 1] == '0' then Trail(s, n - 1) else n
  }

  function TrimStart(s: string): string {
    s[Lead(s, 0)..]
  }

  function TrimEnd(s: string): string {
    s[..Trail(s, |s|)]
  }

  function Zeros(n: nat): string {
    seq(n, i => '0')
  }

  function NatText(n: nat): (s: string)
    ensures s != "" && AllDigits(s) && Num(s) == n
  {
    var d := ['0' + (n % 10) as char];
    if n < 10 then
      assert NumTo(d, 0) == 0;
      d
    else
      var s := NatText(n / 10);
      NumPrefix(s, d, |s|);
      s + d
  }

  /** `{:+03}`: a sign and at least two digits. */
  function SignedExponent(e: int): string {
    var n := if e < 0 then -e else e;
    (if e < 0 then "-" else "+") + (if n < 10 then "0" else "") + NatText(n)
  }

  /** `append_decimal`; e is the exponent of the leading digit. */
  function DecimalText(digits: string, e: int): string
    requires digits != ""
  {
    if !(-4 <= e < 16) then
      digits[..1] + (if |digits| > 1 then "." + digits[1..] else "") + "e" + SignedExponent(e)
    else if e < 0 then "0." + Zeros(-e - 1) + digits
    else if e + 1 < |digits| then digits[..e + 1] + "." + digits[e + 1..]
    else digits + Zeros(e + 1 - |digits|) + ".0"
  }

  /** The significant digits of the shortest text. */
  function Significant(shortest: string): string {
    TrimEnd(TrimStart(Remove(Mantissa(shortest), '.')))
  }

  /** The exponent of the leading significant digit. */
  function Exponent(shortest: string): int {
    var m := Mantissa(shortest);
    var digits := Remove(m, '.');
    Integer(ExponentText(shortest)) + Find(m, '.') - (|digits| - |TrimStart(digits)|) - 1
  }

  predicate IsShortest(text: string) {
    IsDecimal(text) && Significant(text) != ""
  }

  predicate IsDouble(d: Double) {
    d.Finite? ==> IsShortest(d.shortest)
  }

  /** `float_text` */
  function FloatText(d: Double): string
    requires IsDouble(d)
  {
    var sign := if d.negative then "-" else "";
    match d
    case Infinite(_) => sign + "Infinity"
    case Zero(_) => sign + "0.0"
    case Finite(_, s) => sign + DecimalText(Significant(s), Exponent(s))
  }

  // ---- Powers of ten and strings of digits ----

  lemma {:induction false} ScaledNext(n: int, e: int)
    ensures Scaled(n, e + 1) == 10.0 * Scaled(n, e)
  {
  }

  lemma {:induction false} ScaledTen(n: int, e: int)
    ensures Scaled(10 * n, e) == Scaled(n, e + 1)
    decreases if e < 0 then -e else e
  {
    if e == 0 {
    } else if e > 0 {
      ScaledTen(n, e - 1);
    } else {
      ScaledTen(n, e + 1);
    }
  }

  lemma {:induction false} ScaledOrder(a: int, b: int, e: int)
    requires a < b
    ensures Scaled(a, e) < Scaled(b, e)
    decreases if e < 0 then -e else e
  {
    if e == 0 {
    } else if e > 0 {
      ScaledOrder(a, b, e - 1);
    } else {
      ScaledOrder(a, b, e + 1);
    }
  }

  lemma {:induction false} ScaledZero(e: int)
    ensures Scaled(0, e) == 0.0
    decreases if e < 0 then -e else e
  {
    if e == 0 {
    } else if e > 0 {
      ScaledZero(e - 1);
    } else {
      ScaledZero(e + 1);
    }
  }

  lemma {:induction false} PowerOrder(a: int, b: int)
    requires a <= b
    ensures Scaled(1, a) <= Scaled(1, b)
    decreases b - a
  {
    if a == b {
    } else {
      PowerOrder(a, b - 1);
      ScaledNext(1, b - 1);
      ScaledZero(b - 1);
      ScaledOrder(0, 1, b - 1);
    }
  }

  predicate AllZeros(s: string) {
    forall k | 0 <= k < |s| :: s[k] == '0'
  }

  lemma {:induction false} NumPrefix(a: string, b: string, n: nat)
    requires n <= |a|
    ensures NumTo(a + b, n) == NumTo(a, n)
  {
    if n == 0 {
    } else {
      NumPrefix(a, b, n - 1);
    }
  }

  /** Zeros after the digits scale the number, zeros before them do nothing. */
  lemma {:induction false} ZerosAfterTo(a: string, z: string, n: nat, e: int)
    requires AllZeros(z) && n <= |z|
    ensures Scaled(NumTo(a + z, |a| + n), e) == Scaled(Num(a), e + n)
  {
    if n == 0 {
      NumPrefix(a, z, |a|);
    } else {
      ScaledTen(NumTo(a + z, |a| + n - 1), e);
      ZerosAfterTo(a, z, n - 1, e + 1);
    }
  }

  lemma ZerosAfter(a: string, z: string, e: int)
    requires AllZeros(z)
    ensures Scaled(Num(a + z), e) == Scaled(Num(a), e + |z|)
  {
    ZerosAfterTo(a, z, |z|, e);
  }

  lemma {:induction false} ZerosBeforeTo(z: string, a: string, n: nat)
    requires AllZeros(z) && n <= |z + a|
    ensures NumTo(z + a, n) == if n <= |z| then 0 else NumTo(a, n - |z|)
  {
    if n == 0 {
    } else {
      ZerosBeforeTo(z, a, n - 1);
    }
  }

  lemma ZerosBefore(z: string, a: string)
    requires AllZeros(z)
    ensures Num(z + a) == Num(a)
  {
    ZerosBeforeTo(z, a, |z + a|);
  }

  lemma {:induction false} RemoveNone(s: string, c: char, n: nat)
    requires n <= |s| && forall j | 0 <= j < n :: s[j] != c
    ensures RemoveTo(s, c, n) == s[..n]
  {
    if n == 0 {
    } else {
      RemoveNone(s, c, n - 1);
    }
  }

  lemma {:induction false} RemoveOne(a: string, b: string, c: char, n: nat)
    requires (forall j | 0 <= j < |a| :: a[j] != c) && (forall j | 0 <= j < |b| :: b[j] != c) && n <= |b|
    ensures RemoveTo(a + [c] + b, c, |a| + 1 + n) == a + b[..n]
  {
    var s := a + [c] + b;
    if n == 0 {
      assert forall j | 0 <= j < |a| :: s[j] == a[j];
      RemoveNone(s, c, |a|);
      assert s[..|a|] == a;
    } else {
      RemoveOne(a, b, c, n - 1);
      assert s[|a| + n] == b[n - 1];
    }
  }

  lemma FindAt(s: string, c: char, k: nat)
    requires k <= |s| && (forall j | 0 <= j < k :: s[j] != c) && (k < |s| ==> s[k] == c)
    ensures Find(s, c) == k
  {
  }

  // ---- The rewriting keeps the value ----

  /** The text made of the digits a, perhaps a point and the digits b, and an exponent. */
  function Compose(a: string, point: bool, b: string, exponent: Option<string>): string {
    a + (if point then "." + b else "") + (if exponent.Some? then "e" + exponent.value else "")
  }

  lemma ComposeMantissa(a: string, point: bool, b: string, exponent: Option<string>)
    requires AllDigits(a) && AllDigits(b) && (!point ==> b == "")
    requires exponent.Some? ==> IsInteger(exponent.value)
    ensures var text := Compose(a, point, b, exponent);
            && Mantissa(text) == a + (if point then "." + b else "")
            && ExponentText(text) == (if exponent.Some? then exponent.value else "0")
            && ('e' in text <==> exponent.Some?)
  {
    var m := a + (if point then "." + b else "");
    var text := Compose(a, point, b, exponent);
    assert text == m + (if exponent.Some? then "e" + exponent.value else "");
    FindAt(text, 'e', |m|);
    assert text[..|m|] == m;
    assert exponent.Some? ==> text[|m|] == 'e' && text[|m| + 1..] == exponent.value;
  }

  lemma ComposePoint(a: string, point: bool, b: string)
    requires AllDigits(a) && AllDigits(b) && (!point ==> b == "")
    ensures var m := a + (if point then "." + b else "");
            Find(m, '.') == |a| && Fraction(m) == |b| && m[..|a|] == a && Remove(m, '.') == a + b && (point ==> m[|a| + 1..] == b)
  {
    var m := a + (if point then "." + b else "");
    FindAt(m, '.', |a|);
    if point {
      assert m == a + ['.'] + b;
      RemoveOne(a, b, '.', |b|);
      assert b[..|b|] == b;
    } else {
      assert a + b == a == m == m[..|m|];
      RemoveNone(a, '.', |a|);
    }
  }

  lemma ComposeParse(a: string, point: bool, b: string, exponent: Option<string>)
    requires AllDigits(a) && AllDigits(b) && (!point ==> b == "")
    requires exponent.Some? ==> IsInteger(exponent.value)
    ensures var text := Compose(a, point, b, exponent);
            && IsDecimal(text)
            && Parse(text) == Number(a + b, (if exponent.Some? then Integer(exponent.value) else 0) - |b|)
  {
    ComposeMantissa(a, point, b, exponent);
    ZeroExponent();
    MantissaParse(Compose(a, point, b, exponent), a, point, b);
  }

  /** Digits with a point, read off a text whose mantissa they are. */
  lemma MantissaParse(text: string, a: string, point: bool, b: string)
    requires AllDigits(a) && AllDigits(b) && (!point ==> b == "")
    requires Mantissa(text) == a + (if point then "." + b else "") && IsInteger(ExponentText(text))
    ensures IsDecimal(text) && Parse(text) == Number(a + b, Integer(ExponentText(text)) - |b|)
  {
    ComposePoint(a, point, b);
  }

  lemma ZeroExponent()
    ensures IsInteger("0") && Integer("0") == 0
  {
    assert NumTo("0", 1) == 0;
  }

  lemma SignedExponentValue(e: int)
    ensures var t := SignedExponent(e); IsInteger(t) && Integer(t) == e && |t| >= 3 && (t[0] == '+' || t[0] == '-')
  {
    var n := if e < 0 then -e else e;
    var t := SignedExponent(e);
    var zero := if n < 10 then "0" else "";
    assert t[1..] == zero + NatText(n);
    ZerosBefore(zero, NatText(n));
    TwoDigits(n);
  }

  lemma TwoDigits(n: nat)
    ensures n >= 10 ==> |NatText(n)| >= 2
  {
  }

  /** How `append_decimal` composes its text: the digits before and behind the point. */
  function Whole(digits: string, e: int): string
    requires digits != ""
  {
    if !(-4 <= e < 16) then digits[..1]
    else if e < 0 then "0"
    else if e + 1 < |digits| then digits[..e + 1]
    else digits + Zeros(e + 1 - |digits|)
  }

  function Behind(digits: string, e: int): string
    requires digits != ""
  {
    if !(-4 <= e < 16) then digits[1..]
    else if e < 0 then Zeros(-e - 1) + digits
    else if e + 1 < |digits| then digits[e + 1..]
    else "0"
  }

  function Scientific(e: int): Option<string> {
    if -4 <= e < 16 then None else Some(SignedExponent(e))
  }

  lemma DecimalTextParts(digits: string, e: int)
    requires digits != "" && AllDigits(digits)
    ensures var a, b := Whole(digits, e), Behind(digits, e);
            && AllDigits(a) && AllDigits(b) && a != "" && (-4 <= e < 16 ==> b != "")
            && DecimalText(digits, e) == Compose(a, b != "", b, Scientific(e))
  {
    if -4 <= e < 16 { FixedParts(digits, e); } else { ScientificParts(digits, e); }
  }

  lemma FixedParts(digits: string, e: int)
    requires digits != "" && AllDigits(digits) && -4 <= e < 16
    ensures var a, b := Whole(digits, e), Behind(digits, e);
            AllDigits(a) && AllDigits(b) && a != "" && b != "" && DecimalText(digits, e) == Compose(a, true, b, None)
  {
    if e < 0 { SmallParts(digits, e); }
    else if e + 1 < |digits| { MiddleParts(digits, e); }
    else { LargeParts(digits, e); }
  }

  lemma SmallParts(digits: string, e: int)
    requires digits != "" && AllDigits(digits) && -4 <= e < 0
    ensures var a, b := Whole(digits, e), Behind(digits, e);
            AllDigits(a) && AllDigits(b) && a != "" && b != "" && DecimalText(digits, e) == Compose(a, true, b, None)
  {
    var z := Zeros(-e - 1);
    assert "0." + z + digits == "0" + ("." + (z + digits)) + "";
  }

  lemma MiddleParts(digits: string, e: int)
    requires digits != "" && AllDigits(digits) && 0 <= e < 16 && e + 1 < |digits|
    ensures var a, b := Whole(digits, e), Behind(digits, e);
            AllDigits(a) && AllDigits(b) && a != "" && b != "" && DecimalText(digits, e) == Compose(a, true, b, None)
  {
    var a, b := digits[..e + 1], digits[e + 1..];
    assert a + "." + b == a + ("." + b) + "";
  }

  lemma LargeParts(digits: string, e: int)
    requires digits != "" && AllDigits(digits) && 0 <= e < 16 && e + 1 >= |digits|
    ensures var a, b := Whole(digits, e), Behind(digits, e);
            AllDigits(a) && AllDigits(b) && a != "" && b != "" && DecimalText(digits, e) == Compose(a, true, b, None)
  {
    var z := Zeros(e + 1 - |digits|);
    assert digits + z + ".0" == (digits + z) + ("." + "0") + "";
  }

  lemma ScientificParts(digits: string, e: int)
    requires digits != "" && AllDigits(digits) && !(-4 <= e < 16)
    ensures var a, b := Whole(digits, e), Behind(digits, e);
            && AllDigits(a) && AllDigits(b) && a != ""
            && DecimalText(digits, e) == Compose(a, b != "", b, Some(SignedExponent(e)))
  {
  }

  lemma DecimalTextNumber(digits: string, e: int)
    requires digits != "" && AllDigits(digits)
    ensures var a, b := Whole(digits, e), Behind(digits, e);
            Denotes(Number(a + b, (if -4 <= e < 16 then 0 else e) - |b|)) == Denotes(Number(digits, e + 1 - |digits|))
  {
    var a, b := Whole(digits, e), Behind(digits, e);
    if -4 <= e < 0 {
      assert a + b == ("0" + Zeros(-e - 1)) + digits;
      ZerosBefore("0" + Zeros(-e - 1), digits);
    } else if 0 <= e < 16 && e + 1 >= |digits| {
      var z := Zeros(e + 1 - |digits|) + "0";
      assert a + b == digits + z;
      ZerosAfter(digits, z, -1);
    } else {
      assert a + b == digits;
    }
  }

  lemma DecimalTextParse(digits: string, e: int)
    requires digits != "" && AllDigits(digits)
    ensures var t, a, b := DecimalText(digits, e), Whole(digits, e), Behind(digits, e);
            && IsDecimal(t) && ('e' in t <==> !(-4 <= e < 16))
            && Parse(t) == Number(a + b, (if -4 <= e < 16 then 0 else e) - |b|)
  {
    var a, b := Whole(digits, e), Behind(digits, e);
    DecimalTextParts(digits, e);
    SignedExponentValue(e);
    ComposeMantissa(a, b != "", b, Scientific(e));
    ComposeParse(a, b != "", b, Scientific(e));
  }

  lemma SignificantDigits(s: string)
    requires AllDigits(s) && TrimEnd(TrimStart(s)) != ""
    ensures var t, d := TrimStart(s), TrimEnd(TrimStart(s));
            && AllDigits(d) && d[0] != '0' && d[|d| - 1] != '0'
            && s == s[..|s| - |t|] + t && AllZeros(s[..|s| - |t|]) && t == d + t[|d|..] && AllZeros(t[|d|..])
  {
  }

  lemma SignificantValue(s: string, e: int)
    requires AllDigits(s) && TrimEnd(TrimStart(s)) != ""
    ensures var t, d := TrimStart(s), TrimEnd(TrimStart(s));
            Denotes(Number(s, e)) == Denotes(Number(d, e + |t| - |d|))
  {
    var t := TrimStart(s);
    var d := TrimEnd(t);
    SignificantDigits(s);
    ZerosBefore(s[..|s| - |t|], t);
    ZerosAfter(d, t[|d|..], e);
  }

  lemma MantissaDigits(s: string)
    requires IsDecimal(s)
    ensures var m := Mantissa(s);
            AllDigits(Remove(m, '.')) && Find(m, '.') + Fraction(m) == |Remove(m, '.')|
  {
    PointedDigits(Mantissa(s));
  }

  lemma PointedDigits(m: string)
    requires var p := Find(m, '.'); AllDigits(m[..p]) && (p < |m| ==> AllDigits(m[p + 1..]))
    ensures AllDigits(Remove(m, '.')) && Find(m, '.') + Fraction(m) == |Remove(m, '.')|
  {
    var p := Find(m, '.');
    var b := if p < |m| then m[p + 1..] else "";
    assert p < |m| ==> m[p] == '.';
    assert m == m[..p] + (if p < |m| then "." + b else "");
    ComposePoint(m[..p], p < |m|, b);
  }

  lemma ShortestDigits(s: string)
    requires IsShortest(s)
    ensures var d := Significant(s); AllDigits(d) && d[0] != '0' && d[|d| - 1] != '0'
  {
    MantissaDigits(s);
    SignificantDigits(Remove(Mantissa(s), '.'));
  }

  lemma ExponentParts(s: string)
    requires IsShortest(s)
    ensures var digits := Remove(Mantissa(s), '.');
            Parse(s).exponent + |TrimStart(digits)| - |Significant(s)| == Exponent(s) + 1 - |Significant(s)|
  {
    MantissaDigits(s);
  }

  lemma ShortestValue(s: string)
    requires IsShortest(s)
    ensures Value(s) == Denotes(Number(Significant(s), Exponent(s) + 1 - |Significant(s)|))
  {
    MantissaDigits(s);
    ExponentParts(s);
    SignificantValue(Remove(Mantissa(s), '.'), Parse(s).exponent);
  }

  /**
   Rewriting keeps the value: the text written for a float denotes the same rational as its
   shortest text. It is fixed notation exactly for values from 10^-4 on and below 10^16.
   */
  lemma FloatTextValue(s: string)
    requires IsShortest(s)
    ensures var t := DecimalText(Significant(s), Exponent(s));
            && IsDecimal(t) && Value(t) == Value(s)
            && ('e' !in t <==> Scaled(1, -4) <= Value(s) < Scaled(1, 16))
  {
    ShortestDigits(s);
    ShortestValue(s);
    RewrittenValue(Significant(s), Exponent(s), Value(s));
  }

  lemma RewrittenValue(d: string, e: int, v: real)
    requires d != "" && AllDigits(d) && d[0] != '0' && v == Denotes(Number(d, e + 1 - |d|))
    ensures var t := DecimalText(d, e);
            && IsDecimal(t) && Value(t) == v
            && ('e' !in t <==> Scaled(1, -4) <= v < Scaled(1, 16))
  {
    DecimalTextValue(d, e);
    Notation(d, e);
  }

  lemma DecimalTextValue(d: string, e: int)
    requires d != "" && AllDigits(d)
    ensures var t := DecimalText(d, e);
            IsDecimal(t) && Value(t) == Denotes(Number(d, e + 1 - |d|)) && ('e' in t <==> !(-4 <= e < 16))
  {
    DecimalTextParse(d, e);
    DecimalTextNumber(d, e);
  }

  lemma Notation(d: string, e: int)
    requires d != "" && AllDigits(d) && d[0] != '0'
    ensures -4 <= e < 16 <==> Scaled(1, -4) <= Denotes(Number(d, e + 1 - |d|)) < Scaled(1, 16)
  {
    Leading(d, e);
    if e < -4 { PowerOrder(e + 1, -4); } else { PowerOrder(-4, e); }
    if e < 16 { PowerOrder(e + 1, 16); } else { PowerOrder(16, e); }
  }

  /** Without leading zero, the value lies between the powers of ten that the exponent of
      the leading digit names. */
  lemma Leading(d: string, e: int)
    requires d != "" && AllDigits(d) && d[0] != '0'
    ensures Scaled(1, e) <= Scaled(Num(d), e + 1 - |d|) < Scaled(1, e + 1)
  {
    LeadingBounds(d, |d|, e);
    ScaledOrder(Num(d), Num(d) + 1, e + 1 - |d|);
  }

  lemma {:induction false} LeadingBounds(d: string, n: nat, e: int)
    requires 0 < n <= |d| && AllDigits(d) && d[0] != '0'
    ensures Scaled(1, e) <= Scaled(NumTo(d, n), e + 1 - n)
    ensures Scaled(NumTo(d, n) + 1, e + 1 - n) <= Scaled(1, e + 1)
  {
    var t, c := NumTo(d, n - 1), Digit(d[n - 1]);
    var u := e + 1 - n;
    if n == 1 {
      ScaledAtMost(1, c, u);
      ScaledAtMost(c + 1, 10, u);
      ScaledTen(1, u);
    } else {
      LeadingBounds(d, n - 1, e);
      ScaledTen(t, u);
      ScaledTen(t + 1, u);
      ScaledAtMost(10 * t, NumTo(d, n), u);
      ScaledAtMost(NumTo(d, n) + 1, 10 * (t + 1), u);
    }
  }

  lemma ScaledAtMost(a: int, b: int, e: int)
    requires a <= b
    ensures Scaled(a, e) <= Scaled(b, e)
  {
    if a < b { ScaledOrder(a, b, e); }
  }

  /**
   The two notations. Fixed notation has a digit on both sides of one point and nothing
   else. The other one has a single nonzero leading digit, no trailing zero behind the
   point, and a signed exponent of at least two digits.
   */
  lemma FloatTextShape(s: string)
    requires IsShortest(s)
    ensures var d, e := Significant(s), Exponent(s);
            var a, b := Whole(d, e), Behind(d, e);
            && DecimalText(d, e) == Compose(a, b != "", b, Scientific(e)) && AllDigits(a) && AllDigits(b)
            && (Scientific(e).None? ==> a != "" && b != "")
            && (Scientific(e).Some? ==>
                  && |a| == 1 && a[0] != '0' && (b != "" ==> b[|b| - 1] != '0')
                  && |Scientific(e).value| >= 3 && Integer(Scientific(e).value) == e)
  {
    ShortestDigits(s);
    DecimalTextParts(Significant(s), Exponent(s));
    SignedExponentValue(Exponent(s));
  }

  /** A character of a JSON number, or of the two infinities. */
  predicate IsNumberChar(c: char) {
    IsDigit(c) || c in "+-.eE" || c in "Infity"
  }

  predicate IsNumberText(s: string) {
    s != "" && (IsDigit(s[0]) || s[0] == '-' || s[0] == 'I') && forall k | 0 <= k < |s| :: IsNumberChar(s[k])
  }

  lemma NumberChars(a: string, point: bool, b: string, e: int)
    requires AllDigits(a) && AllDigits(b) && a != ""
    ensures IsNumberText(Compose(a, point, b, Scientific(e)))
  {
    SignedExponentValue(e);
    var t := SignedExponent(e);
    assert forall k | 0 <= k < |t[1..]| :: IsDigit(t[1..][k]) && t[k + 1] == t[1..][k];
  }

  lemma FloatTextIsNumber(d: Double)
    requires IsDouble(d)
    ensures IsNumberText(FloatText(d))
  {
    if d.Finite? {
      ShortestDigits(d.shortest);
      var digits, e := Significant(d.shortest), Exponent(d.shortest);
      DecimalTextParts(digits, e);
      NumberChars(Whole(digits, e), Behind(digits, e) != "", Behind(digits, e), e);
    }
  }

  // ---- Signed texts ----

  /** What a float text stands for. */
  datatype Amount = Exactly(v: real) | Endless(negative: bool)

  function UnsignedAmount(text: string): Amount {
    if text == "Infinity" then Endless(false) else Exactly(Value(text))
  }

  function Negated(a: Amount): Amount {
    match a
    case Exactly(v) => Exactly(-v)
    case Endless(negative) => Endless(!negative)
  }

  /** A text with a sign in front, or without one. */
  function AmountOf(text: string): Amount {
    if text != "" && text[0] == '-' then Negated(UnsignedAmount(text[1..])) else UnsignedAmount(text)
  }

  /** The binary64 value that a float stands for. */
  function Meaning(d: Double): Amount {
    match d
    case Infinite(negative) => Endless(negative)
    case Zero(_) => Exactly(0.0)
    case Finite(negative, shortest) => Exactly(if negative then -Value(shortest) else Value(shortest))
  }

  lemma AmountOfSigned(text: string, negative: bool)
    requires text != "" && text[0] != '-'
    ensures AmountOf((if negative then "-" else "") + text)
         == if negative then Negated(UnsignedAmount(text)) else UnsignedAmount(text)
  {
    if negative { assert ("-" + text)[1..] == text; } else { assert "" + text == text; }
  }

  lemma ZeroAmount()
    ensures UnsignedAmount("0.0") == Exactly(0.0)
  {
    var none: Option<string> := None;
    var z := "0";
    assert Compose(z, true, z, none) == "0.0";
    ComposeParse(z, true, z, none);
    var two := z + z;
    assert NumTo(two, 0) == 0 && NumTo(two, 1) == 0 && NumTo(two, 2) == 0;
    ScaledZero(-1);
    ZeroExponent();
  }

  lemma DecimalTextStarts(digits: string, e: int)
    requires digits != "" && AllDigits(digits)
    ensures DecimalText(digits, e) != "" && IsDigit(DecimalText(digits, e)[0])
  {
    DecimalTextParts(digits, e);
    var a, b := Whole(digits, e), Behind(digits, e);
    assert Compose(a, b != "", b, Scientific(e))[0] == a[0];
  }

  /** The text without its sign. */
  function Unsigned(d: Double): string
    requires IsDouble(d)
  {
    match d
    case Infinite(_) => "Infinity"
    case Zero(_) => "0.0"
    case Finite(_, s) => DecimalText(Significant(s), Exponent(s))
  }

  function Magnitude(d: Double): Amount {
    match d
    case Infinite(_) => Endless(false)
    case Zero(_) => Exactly(0.0)
    case Finite(_, s) => Exactly(Value(s))
  }

  lemma SignAndText(d: Double)
    requires IsDouble(d)
    ensures FloatText(d) == (if d.negative then "-" else "") + Unsigned(d)
    ensures Unsigned(d) != "" && Unsigned(d)[0] != '-'
    ensures d.Finite? ==> IsDigit(Unsigned(d)[0])
  {
    if d.Finite? {
      ShortestDigits(d.shortest);
      DecimalTextStarts(Significant(d.shortest), Exponent(d.shortest));
    }
  }

  lemma UnsignedDenotes(d: Double)
    requires IsDouble(d)
    ensures UnsignedAmount(Unsigned(d)) == Magnitude(d)
  {
    SignAndText(d);
    match d
    case Infinite(_) =>
    case Zero(_) => ZeroAmount();
    case Finite(_, s) => FloatTextValue(s);
  }

  lemma MeaningOfMagnitude(d: Double)
    ensures Meaning(d) == if d.negative then Negated(Magnitude(d)) else Magnitude(d)
  {
  }

  /**
   The text of a float denotes the float, with its sign: a finite one its rational value, zero
   zero, an infinity itself; and it begins with a minus exactly if the float is negative, zero
   included.
   */
  lemma FloatTextDenotes(d: Double)
    requires IsDouble(d)
    ensures AmountOf(FloatText(d)) == Meaning(d)
    ensures FloatText(d) != "" && (FloatText(d)[0] == '-' <==> d.negative)
  {
    SignAndText(d);
    AmountOfSigned(Unsigned(d), d.negative);
    UnsignedDenotes(d);
    MeaningOfMagnitude(d);
  }

  /** Behind the sign stands the decimal text, whose shape `FloatTextShape` gives. */
  lemma FloatTextParts(d: Double)
    requires IsDouble(d) && d.Finite?
    ensures FloatText(d) == (if d.negative then ['-'] else []) + DecimalText(Significant(d.shortest), Exponent(d.shortest))
  {
  }
}
