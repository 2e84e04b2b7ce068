/** The JavaScript value semantics the front-end components rely on: numbers that may be
    NaN, `parseFloat`, `parseInt` and `Number()` applied to strings, `trim()`,
    `toLowerCase()`, truthiness and `||` defaults, and the decimal rendering of a
    millisecond clock reading. */
module JsValues {
  import opened Wrappers

  /** A JavaScript number: NaN, or a finite value held exactly (no floating-point rounding). */
  datatype Number = NaN | Finite(value: real)

  /** `x < y`: every comparison with NaN is false. */
  predicate Less(x: Number, y: real) {
    x.Finite? && x.value < y
  }

  /** `x > y`: every comparison with NaN is false. */
  predicate Greater(x: Number, y: real) {
    x.Finite? && x.value > y
  }

  /** A form field: the number a component starts with (`useState(1)`), or the text an
      input element reported through `e.target.value`. */
  datatype Input = Preset(n: int) | Typed(text: string)

  /** Truthiness of a form field: 0 and "" are falsy. */
  predicate Truthy(v: Input) {
    match v
    case Preset(n) => n != 0
    case Typed(s) => s != ""
  }

  /** `o || fallback` for a value that may be null or undefined. */
  function OrDefault(o: Option<string>, fallback: string): (r: string)
    ensures o.Some? && o.value != "" ==> r == o.value
    ensures o.None? || o.value == "" ==> r == fallback
    ensures fallback != "" ==> r != ""
  {
    if o.Some? && o.value != "" then o.value else fallback
  }

  /** `s || undefined`: the empty string is dropped from a JSON payload. */
  function NonEmpty(s: string): (r: Option<string>)
    ensures r.None? <==> s == ""
    ensures r.Some? ==> r.value == s
  {
    if s == "" then None else Some(s)
  }

  // ---------------------------------------------------------------- characters

  predicate IsDigit(c: char) {
    '0' <= c <= '9'
  }

  /** ECMAScript WhiteSpace and LineTerminator: what `trim()` removes and what the number
      parsers skip. */
  predicate IsWhitespace(c: char) {
    || c == '\t' || c == '\n' || c == '\U{000B}' || c == '\U{000C}' || c == '\r' || c == ' '
    || c == '\U{00A0}' || c == '\U{1680}' || '\U{2000}' <= c <= '\U{200A}'
    || c == '\U{2028}' || c == '\U{2029}' || c == '\U{202F}' || c == '\U{205F}'
    || c == '\U{3000}' || c == '\U{FEFF}'
  }

  predicate IsUpper(c: char) {
    'A' <= c <= 'Z'
  }

  function LowerChar(c: char): (r: char)
    ensures IsUpper(c) ==> 'a' <= r <= 'z' && r as int == c as int + 32
    ensures !IsUpper(c) ==> r == c
  {
    if IsUpper(c) then (c as int + 32) as char else c
  }

  // ---------------------------------------------------------------- trim

  /** `s` without its leading whitespace. */
  function TrimStart(s: string): string {
    if s != [] && IsWhitespace(s[0]) then TrimStart(s[1..]) else s
  }

  /** `s` without its trailing whitespace. */
  function TrimEnd(s: string): string {
    if s != [] && IsWhitespace(s[|s| - 1]) then TrimEnd(s[..|s| - 1]) else s
  }

  /** `s.trim()`: the part of `s` between its leading and its trailing whitespace. */
  function Trim(s: string): string {
    TrimEnd(TrimStart(s))
  }

  /** `TrimStart` drops a prefix made only of whitespace, and stops at the first
      character that is not whitespace. */
  lemma {:induction false} TrimStartFacts(s: string)
    ensures var r := TrimStart(s);
      && |r| <= |s| && r == s[|s| - |r|..]
      && (forall i :: 0 <= i < |s| - |r| ==> IsWhitespace(s[i]))
      && (r == [] || !IsWhitespace(r[0]))
  {
    if s != [] && IsWhitespace(s[0]) {
      TrimStartFacts(s[1..]);
      var r := TrimStart(s);
      assert r == TrimStart(s[1..]);
      assert s[1..][|s| - 1 - |r|..] == s[|s| - |r|..];
      forall i | 0 <= i < |s| - |r|
        ensures IsWhitespace(s[i])
      {
        if i > 0 {
          assert s[i] == s[1..][i - 1];
        }
      }
    }
  }

  /** `TrimEnd` drops a suffix made only of whitespace, and stops at the last character
      that is not whitespace. */
  lemma {:induction false} TrimEndFacts(s: string)
    ensures var r := TrimEnd(s);
      && |r| <= |s| && r == s[..|r|]
      && (forall i :: |r| <= i < |s| ==> IsWhitespace(s[i]))
      && (r == [] || !IsWhitespace(r[|r| - 1]))
  {
    if s != [] && IsWhitespace(s[|s| - 1]) {
      var p := s[..|s| - 1];
      TrimEndFacts(p);
      var r := TrimEnd(s);
      assert r == TrimEnd(p);
      assert p[..|r|] == s[..|r|];
      forall i | |r| <= i < |s|
        ensures IsWhitespace(s[i])
      {
        if i < |s| - 1 {
          assert s[i] == p[i];
        }
      }
    }
  }

  /** `trim()` keeps a middle slice of `s`: only whitespace lies before and after it,
      and it neither starts nor ends with whitespace. */
  lemma {:induction false} TrimFacts(s: string)
    ensures var (r, k) := (Trim(s), |s| - |TrimStart(s)|);
      && 0 <= k && k + |r| <= |s| && r == s[k..k + |r|]
      && (forall i :: 0 <= i < k ==> IsWhitespace(s[i]))
      && (forall i :: k + |r| <= i < |s| ==> IsWhitespace(s[i]))
      && (r == [] || (!IsWhitespace(r[0]) && !IsWhitespace(r[|r| - 1])))
  {
    var t := TrimStart(s);
    TrimStartFacts(s);
    TrimEndFacts(t);
    var r := Trim(s);
    var k := |s| - |t|;
    assert r == t[..|r|];
    assert t[..|r|] == s[k..k + |r|];
    forall i | k + |r| <= i < |s|
      ensures IsWhitespace(s[i])
    {
      assert s[i] == t[i - k];
    }
    if r != [] {
      assert r[0] == t[0];
    }
  }

  /** Trimming twice is trimming once. */
  lemma {:induction false} TrimIdempotent(s: string)
    ensures Trim(Trim(s)) == Trim(s)
  {
    TrimFacts(s);
    var r := Trim(s);
    if r != [] {
      assert TrimStart(r) == r;
      assert TrimEnd(r) == r;
    }
  }

  /** A string trims to "" exactly when every character of it is whitespace. */
  lemma {:induction false} TrimEmptyIff(s: string)
    ensures Trim(s) == [] <==> forall i :: 0 <= i < |s| ==> IsWhitespace(s[i])
  {
    TrimFacts(s);
    if forall i :: 0 <= i < |s| ==> IsWhitespace(s[i]) {
      AllWhitespaceTrimsAway(s);
    }
  }

  /** A string of whitespace only loses all of it to `TrimStart`. */
  lemma {:induction false} AllWhitespaceTrimsAway(s: string)
    requires forall i :: 0 <= i < |s| ==> IsWhitespace(s[i])
    ensures TrimStart(s) == []
  {
    if s != [] {
      AllWhitespaceTrimsAway(s[1..]);
    }
  }

  // ---------------------------------------------------------------- lower case

  /** `s.toLowerCase()` on the ASCII letters. */
  function ToLower(s: string): (r: string)
    ensures |r| == |s|
    ensures forall i :: 0 <= i < |s| && IsUpper(s[i]) ==> 'a' <= r[i] <= 'z' && r[i] as int == s[i] as int + 32
    ensures forall i :: 0 <= i < |s| && !IsUpper(s[i]) ==> r[i] == s[i]
  {
    seq(|s|, i requires 0 <= i < |s| => LowerChar(s[i]))
  }

  /** Lower-casing twice is lower-casing once. */
  lemma ToLowerIdempotent(s: string)
    ensures ToLower(ToLower(s)) == ToLower(s)
  {
    var r := ToLower(s);
    assert forall i :: 0 <= i < |r| ==> ToLower(r)[i] == r[i];
  }

  // ---------------------------------------------------------------- digits

  predicate AllDigits(s: string) {
    forall i :: 0 <= i < |s| ==> IsDigit(s[i])
  }

  function DigitValue(c: char): (d: nat)
    requires IsDigit(c)
    ensures d < 10
  {
    c as int - '0' as int
  }

  function DigitChar(d: nat): (c: char)
    requires d < 10
    ensures IsDigit(c) && DigitValue(c) == d
  {
    ('0' as int + d) as char
  }

  /** The length of the longest prefix of `s` made of decimal digits. */
  function DigitRun(s: string): (k: nat)
    ensures k <= |s| && AllDigits(s[..k])
    ensures k == |s| || !IsDigit(s[k])
  {
    if s != [] && IsDigit(s[0]) then
      var k := 1 + DigitRun(s[1..]);
      assert forall i :: 1 <= i < k ==> s[..k][i] == s[1..][..k - 1][i - 1];
      k
    else 0
  }

  /** The value of a string of decimal digits ("" is 0). */
  function DigitsValue(d: string): nat
    requires AllDigits(d)
  {
    if d == [] then 0 else 10 * DigitsValue(d[..|d| - 1]) + DigitValue(d[|d| - 1])
  }

  function Pow10(n: nat): (p: nat)
    ensures p >= 1
  {
    if n == 0 then 1 else 10 * Pow10(n - 1)
  }

  /** The value of the digits after a decimal point. */
  function Fraction(d: string): (f: real)
    requires AllDigits(d)
  {
    DigitsValue(d) as real / Pow10(|d|) as real
  }

  /** The decimal rendering of a natural number: `${n}` for a whole, non-negative number. */
  function NatToString(n: nat): (r: string)
    ensures |r| >= 1 && AllDigits(r)
    ensures r[0] == '0' ==> n == 0
  {
    if n < 10 then [DigitChar(n)] else NatToString(n / 10) + [DigitChar(n % 10)]
  }

  /** Reading the rendering of `n` back as digits gives `n`. */
  lemma {:induction false} NatToStringRoundTrip(n: nat)
    ensures DigitsValue(NatToString(n)) == n
  {
    var r := NatToString(n);
    if n >= 10 {
      NatToStringRoundTrip(n / 10);
      assert r[..|r| - 1] == NatToString(n / 10);
      assert DigitValue(r[|r| - 1]) == n % 10;
    } else {
      assert r[..0] == [];
    }
  }

  // ---------------------------------------------------------------- number parsing

  /** The longest prefix of `u` of the form digits [. digits] that holds at least one
      digit, read as a decimal: its value and its length, or (0, 0) when there is none. */
  function UnsignedDecimal(u: string): (r: (real, nat))
    ensures r.1 <= |u|
  {
    var k := DigitRun(u);
    var dot := k < |u| && u[k] == '.';
    var f := if dot then DigitRun(u[k + 1..]) else 0;
    if k == 0 && f == 0 then (0.0, 0)
    else
      (DigitsValue(u[..k]) as real + (if dot then Fraction(u[k + 1..][..f]) else 0.0),
       k + (if dot then 1 + f else 0))
  }

  /** The longest prefix of `t` of the form [+-] digits [. digits] that holds at least one
      digit, read as a decimal: its value and its length, or (NaN, 0) when there is none. */
  function DecimalPrefix(t: string): (r: (Number, nat))
    ensures r.1 <= |t|
    ensures r.0 == NaN <==> r.1 == 0
  {
    var sign := if t != [] && (t[0] == '+' || t[0] == '-') then 1 else 0;
    var (magnitude, len) := UnsignedDecimal(t[sign..]);
    if len == 0 then (NaN, 0)
    else (Finite(if sign == 1 && t[0] == '-' then -magnitude else magnitude), sign + len)
  }

  /** `parseFloat(s)`: leading whitespace skipped, the longest decimal prefix read. */
  function ParseFloat(s: string): Number {
    DecimalPrefix(TrimStart(s)).0
  }

  /** `parseInt(s)` in base 10: leading whitespace skipped, an optional sign, then the
      longest run of digits; NaN when there is no digit. */
  function ParseInt(s: string): Number {
    var t := TrimStart(s);
    var sign := if t != [] && (t[0] == '+' || t[0] == '-') then 1 else 0;
    var rest := t[sign..];
    var k := DigitRun(rest);
    if k == 0 then NaN
    else
      var magnitude := DigitsValue(rest[..k]) as real;
      Finite(if sign == 1 && t[0] == '-' then -magnitude else magnitude)
  }

  /** `Number(s)`, the coercion a relational operator applies to a string: surrounding
      whitespace ignored, "" is 0, anything but a whole decimal literal is NaN. */
  function ToNumber(s: string): Number {
    var t := Trim(s);
    if t == [] then Finite(0.0)
    else
      var (n, len) := DecimalPrefix(t);
      if len == |t| then n else NaN
  }

  /** The number a relational operator sees for a form field. */
  function NumberOf(v: Input): Number {
    match v
    case Preset(n) => Finite(n as real)
    case Typed(s) => ToNumber(s)
  }

  /** `parseInt(v)` for a form field (a preset whole number parses to itself). */
  function ParseIntOf(v: Input): Number {
    match v
    case Preset(n) => Finite(n as real)
    case Typed(s) => ParseInt(s)
  }

  /** A non-empty run of digits is a decimal prefix of itself. */
  lemma DecimalPrefixOfDigits(t: string)
    requires |t| >= 1 && AllDigits(t)
    ensures DecimalPrefix(t) == (Finite(DigitsValue(t) as real), |t|)
  {
    assert IsDigit(t[0]);
    assert t[0..] == t;
    assert DigitRun(t) == |t|;
    assert t[..|t|] == t;
  }

  /** A run of digits has no whitespace to trim. */
  lemma TrimOfDigits(t: string)
    requires |t| >= 1 && AllDigits(t)
    ensures TrimStart(t) == t && Trim(t) == t
  {
    assert IsDigit(t[0]);
    assert !IsWhitespace(t[0]);
    assert TrimStart(t) == t;
    assert IsDigit(t[|t| - 1]);
    assert !IsWhitespace(t[|t| - 1]);
    assert TrimEnd(t) == t;
  }

  /** `parseInt` reads back the rendering of a natural number. */
  lemma ParseIntOfNatToString(n: nat)
    ensures ParseInt(NatToString(n)) == Finite(n as real)
  {
    var t := NatToString(n);
    TrimOfDigits(t);
    assert IsDigit(t[0]);
    assert t[0..] == t;
    assert DigitRun(t) == |t|;
    assert t[..|t|] == t;
    NatToStringRoundTrip(n);
  }

  /** `parseFloat` reads back the rendering of a natural number. */
  lemma ParseFloatOfNatToString(n: nat)
    ensures ParseFloat(NatToString(n)) == Finite(n as real)
  {
    var t := NatToString(n);
    TrimOfDigits(t);
    DecimalPrefixOfDigits(t);
    NatToStringRoundTrip(n);
  }

  /** `Number()` reads back the rendering of a natural number. */
  lemma ToNumberOfNatToString(n: nat)
    ensures ToNumber(NatToString(n)) == Finite(n as real)
  {
    var t := NatToString(n);
    TrimOfDigits(t);
    DecimalPrefixOfDigits(t);
    NatToStringRoundTrip(n);
  }

  /** Text with no digit at all is NaN to `parseFloat`. */
  lemma {:induction false} ParseFloatWithoutDigits(s: string)
    requires forall i :: 0 <= i < |s| ==> !IsDigit(s[i])
    ensures ParseFloat(s) == NaN
  {
    TrimStartFacts(s);
    var t := TrimStart(s);
    var sign := if t != [] && (t[0] == '+' || t[0] == '-') then 1 else 0;
    var rest := t[sign..];
    if rest != [] {
      assert rest[0] == s[|s| - |t| + sign];
    }
    assert DigitRun(rest) == 0;
    if 1 <= |rest| {
      var after := rest[1..];
      if after != [] {
        assert after[0] == s[|s| - |t| + sign + 1];
      }
      assert DigitRun(after) == 0;
    }
  }

  /** The digit run of digits followed by a non-digit stops exactly at the non-digit. */
  lemma {:induction false} DigitRunOfDigitsThen(w: string, x: string)
    requires AllDigits(w) && (x == [] || !IsDigit(x[0]))
    ensures DigitRun(w + x) == |w|
  {
    if w != [] {
      assert (w + x)[1..] == w[1..] + x;
      DigitRunOfDigitsThen(w[1..], x);
    } else {
      assert w + x == x;
    }
  }

  /** The text an optional '-', whole digits, a point and fraction digits is read whole,
      as its signed decimal value: "3.99" is 3.99, "-0.5" is -0.5, ".25" is 0.25. */
  lemma DecimalPrefixOfFraction(negative: bool, w: string, d: string)
    requires AllDigits(w) && AllDigits(d) && |d| >= 1
    ensures var t := (if negative then "-" else "") + w + "." + d;
      var magnitude := DigitsValue(w) as real + Fraction(d);
      && DecimalPrefix(t).0 == Finite(if negative then -magnitude else magnitude)
      && DecimalPrefix(t).1 == |t|
  {
    var u := w + "." + d;
    UnsignedDecimalOfFraction(u, w, d);
    var t := (if negative then "-" else "") + w + "." + d;
    var sign := if negative then 1 else 0;
    assert t == (if negative then "-" else "") + u;
    assert t[sign..] == u;
    assert t[0] == '-' <==> negative;
    assert DecimalPrefix(t).1 == sign + UnsignedDecimal(u).1;
  }

  /** Digits, a point and digits are read whole, as their value. */
  lemma UnsignedDecimalOfFraction(u: string, w: string, d: string)
    requires AllDigits(w) && AllDigits(d) && |d| >= 1 && u == w + "." + d
    ensures UnsignedDecimal(u).0 == DigitsValue(w) as real + Fraction(d)
    ensures UnsignedDecimal(u).1 == |u|
    ensures u[0] != '+' && u[0] != '-'
  {
    var tail := "." + d;
    assert u == w + tail;
    DigitRunOfDigitsThen(w, tail);
    var k := DigitRun(u);
    assert u[..k] == w;
    assert u[k] == '.';
    var rest := u[k + 1..];
    assert rest == d + [];
    DigitRunOfDigitsThen(d, []);
    assert rest[..|d|] == d;
  }

  /** The text an optional '-' and whole digits is read whole, as its signed value. */
  lemma DecimalPrefixOfWhole(negative: bool, w: string)
    requires AllDigits(w) && |w| >= 1
    ensures var t := (if negative then "-" else "") + w;
      && DecimalPrefix(t).0 == Finite(if negative then -(DigitsValue(w) as real) else DigitsValue(w) as real)
      && DecimalPrefix(t).1 == |t|
  {
    DigitRunOfDigitsThen(w, []);
    assert w + [] == w && w[..|w|] == w;
    if negative {
      var t := "-" + w;
      assert t[1..] == w;
    } else {
      assert w[0..] == w;
    }
  }

  /** The digits after a point are worth less than one. */
  lemma {:induction false} DigitsValueBelowPow10(d: string)
    requires AllDigits(d)
    ensures DigitsValue(d) < Pow10(|d|)
    ensures 0.0 <= Fraction(d) < 1.0
    ensures DigitsValue(d) > 0 ==> Fraction(d) > 0.0
  {
    if d != [] {
      var front := d[..|d| - 1];
      DigitsValueBelowPow10(front);
      assert DigitsValue(d) == 10 * DigitsValue(front) + DigitValue(d[|d| - 1]);
      assert Pow10(|d|) == 10 * Pow10(|front|);
    }
    QuotientBelowOne(DigitsValue(d) as real, Pow10(|d|) as real);
  }

  /** A whole number m plus or minus a fraction below one is whole only when the fraction
      is 0. */
  lemma WholeHasNoFraction(x: real, m: nat, frac: real)
    requires 0.0 <= frac < 1.0 && (x == m as real + frac || x == -(m as real + frac))
    ensures x.Floor as real == x <==> frac == 0.0
  {
    if x == m as real + frac {
      FloorBetween(x, m);
    } else if frac == 0.0 {
      FloorBetween(x, -(m as int));
    } else {
      FloorBetween(x, -(m as int) - 1);
    }
  }

  lemma FloorBetween(y: real, n: int)
    requires n as real <= y < n as real + 1.0
    ensures y.Floor == n
  {
  }

  lemma QuotientBelowOne(a: real, b: real)
    requires 0.0 <= a < b
    ensures 0.0 <= a / b < 1.0
    ensures 0.0 < a ==> 0.0 < a / b
  {
    var q := a / b;
    assert q * b == a;
  }

  /** A decimal prefix is worth its whole digits plus less than one. */
  lemma UnsignedDecimalWholePart(u: string)
    requires UnsignedDecimal(u).1 > 0
    ensures var m := DigitsValue(u[..DigitRun(u)]) as real;
      m <= UnsignedDecimal(u).0 < m + 1.0
    ensures DigitRun(u) == 0 ==> DigitsValue(u[..DigitRun(u)]) == 0
  {
    var k := DigitRun(u);
    if k < |u| && u[k] == '.' {
      DigitsValueBelowPow10(u[k + 1..][..DigitRun(u[k + 1..])]);
    }
    assert u[..0] == [];
  }

  /** A decimal text whose value is a whole number other than 0 ("3", "3.00", "-2.0") has
      no fraction digits but zeros and whole digits before its point, so `parseInt` reads
      it as that same number. */
  lemma ParseIntOfWholeDecimal(s: string)
    requires DecimalPrefix(s).1 > 0
    requires DecimalPrefix(s).0.value.Floor as real == DecimalPrefix(s).0.value
    requires DecimalPrefix(s).0.value != 0.0
    ensures ParseInt(s) == DecimalPrefix(s).0
  {
    NumericTextParses(s);
    var sign := if s[0] == '+' || s[0] == '-' then 1 else 0;
    var u := s[sign..];
    UnsignedDecimalWholePart(u);
    var m := DigitsValue(u[..DigitRun(u)]);
    var v := UnsignedDecimal(u).0;
    WholeHasNoFraction(DecimalPrefix(s).0.value, m, v - m as real);
  }

  /** A decimal prefix ends in a digit or a point. */
  lemma DecimalPrefixLastChar(t: string)
    requires DecimalPrefix(t).1 > 0
    ensures IsDigit(t[DecimalPrefix(t).1 - 1]) || t[DecimalPrefix(t).1 - 1] == '.'
  {
    var sign := if t != [] && (t[0] == '+' || t[0] == '-') then 1 else 0;
    var u := t[sign..];
    var k := DigitRun(u);
    var dot := k < |u| && u[k] == '.';
    var f := if dot then DigitRun(u[k + 1..]) else 0;
    assert DecimalPrefix(t).1 == sign + k + (if dot then 1 + f else 0);
    if dot && f > 0 {
      assert u[k + 1..][..f][f - 1] == t[sign + k + f];
    } else if !dot {
      assert u[..k][k - 1] == t[sign + k - 1];
    }
  }

  /** A text made whole of a decimal that ends in a digit has no whitespace to trim, so
      the coercion `Number(s)` reads it as `parseFloat` does. */
  lemma DecimalTextCoerces(s: string)
    requires DecimalPrefix(s).1 == |s| > 0 && s[|s| - 1] != '.'
    ensures Trim(s) == s && ToNumber(s) == DecimalPrefix(s).0
  {
    NumericTextParses(s);
    DecimalPrefixLastChar(s);
    assert !IsWhitespace(s[|s| - 1]);
  }

  /** A text whose decimal prefix is not empty starts with no whitespace, so `parseFloat`
      reads that prefix. */
  lemma NumericTextParses(s: string)
    requires DecimalPrefix(s).1 > 0
    ensures TrimStart(s) == s && ParseFloat(s) == DecimalPrefix(s).0
  {
    assert s != [];
  }
}
