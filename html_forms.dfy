/** What the browser does with a form's inputs before a component's handler sees them,
    following the HTML standard: an `<input type="number">` reports "" for text that is
    not a valid number, and a `<form>` whose inputs break their `required`, `min`, `max`
    or `step` attributes, or hold text that is not a number, fires no `submit` event at
    all, so its `onSubmit` handler never runs. */
module HtmlForms {
  import opened Wrappers
  import opened JsValues

  /** A valid floating-point number in the HTML standard's sense, without the exponent
      part: an optional '-', then digits, or a point and digits, or both, and nothing
      else. */
  predicate IsNumberText(s: string) {
    && s != [] && s[0] != '+' && s[|s| - 1] != '.'
    && DecimalPrefix(s).1 == |s|
  }

  /** `e.target.value` of a number input holding the typed text: the value sanitization
      algorithm reports anything that is not a valid number as "". */
  function ReportedNumber(typed: string): string {
    if IsNumberText(typed) then typed else ""
  }

  /** The input's `badInput` state: text was typed that is not a number. */
  predicate IsBadInput(typed: string) {
    typed != "" && !IsNumberText(typed)
  }

  /** What a number input reports is the typed text or "", and "" exactly when nothing
      was typed or the text is bad input; a reported text is a number `parseFloat` reads
      whole. */
  lemma ReportedNumberFacts(typed: string)
    ensures ReportedNumber(typed) == typed || ReportedNumber(typed) == ""
    ensures ReportedNumber(typed) == "" <==> typed == "" || IsBadInput(typed)
    ensures ReportedNumber(typed) != "" ==>
      ParseFloat(typed).Finite? && ParseFloat(typed) == DecimalPrefix(typed).0
  {
    if IsNumberText(typed) {
      NumericTextParses(typed);
    }
  }

  /** Text without a digit ("abc", "-", ".") is never a number: the input reports "". */
  lemma DigitFreeTextReportsEmpty(typed: string)
    requires forall i :: 0 <= i < |typed| ==> !IsDigit(typed[i])
    ensures ReportedNumber(typed) == ""
    ensures typed != "" ==> IsBadInput(typed)
  {
    ParseFloatWithoutDigits(typed);
    if IsNumberText(typed) {
      NumericTextParses(typed);
    }
  }

  /** A typed whole number is reported as typed. */
  lemma WholeNumberReported(n: nat)
    ensures ReportedNumber(NatToString(n)) == NatToString(n)
  {
    DecimalPrefixOfDigits(NatToString(n));
  }

  /** A typed decimal such as "3.99" or "-0.5" is reported as typed. */
  lemma DecimalNumberReported(negative: bool, w: string, d: string)
    requires AllDigits(w) && AllDigits(d) && |d| >= 1
    ensures var t := (if negative then "-" else "") + w + "." + d;
      ReportedNumber(t) == t
  {
    DecimalPrefixOfFraction(negative, w, d);
    var t := (if negative then "-" else "") + w + "." + d;
    assert t[|t| - 1] == d[|d| - 1];
    assert t[0] == (if negative then '-' else if w != [] then w[0] else '.');
  }

  /** The rendering of a natural number holds that number. */
  lemma ValueOfWholeText(n: nat)
    ensures InputValue(Typed(NatToString(n))) == Finite(n as real)
  {
    WholeNumberReported(n);
    DecimalPrefixOfDigits(NatToString(n));
    NatToStringRoundTrip(n);
  }

  /** "-" and digits that are not all zeros ("-1", "-0.5" aside) hold a number below 0. */
  lemma NegativeTextBelowZero(w: string)
    requires AllDigits(w) && DigitsValue(w) > 0
    ensures var t := "-" + w;
      IsNumberText(t) && InputValue(Typed(t)).Finite? && InputValue(Typed(t)).value < 0.0
  {
    DecimalPrefixOfWhole(true, w);
    var t := "-" + w;
    assert w != [];
    assert t[|t| - 1] == w[|w| - 1];
  }

  /** Digits, a point and fraction digits are a number text holding their value. */
  lemma FractionText(w: string, d: string)
    requires AllDigits(w) && AllDigits(d) && |d| >= 1
    ensures IsNumberText(w + "." + d)
    ensures InputValue(Typed(w + "." + d)) == Finite(DigitsValue(w) as real + Fraction(d))
  {
    var t := w + "." + d;
    assert (if false then "-" else "") + w + "." + d == t;
    assert IsNumberText(t) by {
      DecimalNumberReported(false, w, d);
    }
    assert DecimalPrefix(t).0 == Finite(DigitsValue(w) as real + Fraction(d)) by {
      DecimalPrefixOfFraction(false, w, d);
    }
  }

  /** Digits, a point and fraction digits that are not all zeros ("2.5", "0.25") hold a
      number that is not whole. */
  lemma FractionalTextNotWhole(w: string, d: string)
    requires AllDigits(w) && AllDigits(d) && |d| >= 1 && DigitsValue(d) > 0
    ensures IsNumberText(w + "." + d) && InputValue(Typed(w + "." + d)).Finite?
    ensures InputValue(Typed(w + "." + d)).value.Floor as real != InputValue(Typed(w + "." + d)).value
  {
    FractionText(w, d);
    DigitsValueBelowPow10(d);
    var x := DigitsValue(w) as real + Fraction(d);
    assert Fraction(d) > 0.0;
    WholeHasNoFraction(x, DigitsValue(w), Fraction(d));
    assert x.Floor as real != x;
    assert InputValue(Typed(w + "." + d)).value == x;
  }

  /** Digits, a point and three decimals the last of which is not 0 ("1.005") hold a number
      off the 0.01 grid, whether it starts from 0 or from 0.01. */
  lemma ThousandthsOffCentGrid(w: string, d: string)
    requires AllDigits(w) && AllDigits(d) && |d| == 3 && d[2] != '0'
    ensures IsNumberText(w + "." + d) && InputValue(Typed(w + "." + d)).Finite?
    ensures !OnStep(InputValue(Typed(w + "." + d)).value, 0.0, 0.01)
    ensures !OnStep(InputValue(Typed(w + "." + d)).value, 0.01, 0.01)
  {
    FractionText(w, d);
    var x := DigitsValue(w) as real + Fraction(d);
    ThousandthsInCents(w, d);
    CentsWithRemainder(x, 100 * DigitsValue(w) + DigitsValue(d[..2]), DigitValue(d[2]));
    assert InputValue(Typed(w + "." + d)).value == x;
  }

  lemma ThousandthsInCents(w: string, d: string)
    requires AllDigits(w) && AllDigits(d) && |d| == 3
    ensures (DigitsValue(w) as real + Fraction(d)) / 0.01
      == (100 * DigitsValue(w) + DigitsValue(d[..2])) as real + DigitValue(d[2]) as real / 10.0
  {
    assert DigitsValue(d) == 10 * DigitsValue(d[..2]) + DigitValue(d[2]);
    assert Pow10(|d|) == 1000;
  }

  lemma CentsWithRemainder(x: real, cents: int, r: int)
    requires 1 <= r <= 9 && x / 0.01 == cents as real + r as real / 10.0
    ensures !OnStep(x, 0.0, 0.01) && !OnStep(x, 0.01, 0.01)
  {
    FloorBetween(x / 0.01, cents);
    FloorBetween((x - 0.01) / 0.01, cents - 1);
  }

  /** Digits, a point and two decimals the last of which is not 0 ("0.25") hold a number
      off the 0.1 grid from 0. */
  lemma HundredthsOffTenthGrid(w: string, d: string)
    requires AllDigits(w) && AllDigits(d) && |d| == 2 && d[1] != '0'
    ensures IsNumberText(w + "." + d) && InputValue(Typed(w + "." + d)).Finite?
    ensures !OnStep(InputValue(Typed(w + "." + d)).value, 0.0, 0.1)
  {
    FractionText(w, d);
    var x := DigitsValue(w) as real + Fraction(d);
    HundredthsInTenths(w, d);
    TenthsWithRemainder(x, 10 * DigitsValue(w) + DigitsValue(d[..1]), DigitValue(d[1]));
    assert InputValue(Typed(w + "." + d)).value == x;
  }

  lemma HundredthsInTenths(w: string, d: string)
    requires AllDigits(w) && AllDigits(d) && |d| == 2
    ensures (DigitsValue(w) as real + Fraction(d)) / 0.1
      == (10 * DigitsValue(w) + DigitsValue(d[..1])) as real + DigitValue(d[1]) as real / 10.0
  {
    assert DigitsValue(d) == 10 * DigitsValue(d[..1]) + DigitValue(d[1]);
    assert Pow10(|d|) == 100;
  }

  lemma TenthsWithRemainder(x: real, tenths: int, r: int)
    requires 1 <= r <= 9 && x / 0.1 == tenths as real + r as real / 10.0
    ensures !OnStep(x, 0.0, 0.1)
  {
    FloorBetween(x / 0.1, tenths);
  }

  /** The attributes of a number input that constraint validation reads. Every number
      input of these forms has a `min`, which is then also the step base. */
  datatype NumberRules = NumberRules(required: bool, min: real, max: Option<real>, step: real)

  /** `step` compliance: the value lies a whole number of steps above the step base. */
  predicate OnStep(x: real, base: real, step: real) {
    step > 0.0 && ((x - base) / step).Floor as real == (x - base) / step
  }

  /** The number a number input holds: the number the component started it with, or the
      reported text read as a number. */
  function InputValue(v: Input): Number {
    match v
    case Preset(n) => Finite(n as real)
    case Typed(s) => if IsNumberText(s) then DecimalPrefix(s).0 else NaN
  }

  /** The input suffers from none of valueMissing, rangeUnderflow, rangeOverflow and
      stepMismatch. */
  predicate NumberInputValid(v: Input, rules: NumberRules) {
    if v == Typed("") then !rules.required
    else
      var x := InputValue(v);
      && x.Finite? && rules.min <= x.value
      && (rules.max.None? || x.value <= rules.max.value)
      && OnStep(x.value, rules.min, rules.step)
  }

  /** A required text input is missing its value only when it is empty: whitespace counts
      as a value. */
  predicate TextInputValid(s: string, required: bool) {
    !required || s != ""
  }

  /** With `step` 1 from a whole `min`, the valid values are exactly the whole numbers from
      `min` up. */
  lemma OnWholeSteps(x: real, min: int)
    ensures OnStep(x, min as real, 1.0) <==> x.Floor as real == x
  {
    assert (x - min as real) / 1.0 == x - min as real;
    assert (x - min as real).Floor == x.Floor - min;
  }

  /** A filled-in valid value of a number input with a whole positive `min` and step 1 is a
      whole number from `min` up, and `parseInt` reads it as that number. */
  lemma WholeInputParsesAsInt(v: Input, rules: NumberRules)
    requires v != Typed("") && NumberInputValid(v, rules)
    requires rules.step == 1.0 && rules.min.Floor as real == rules.min && rules.min > 0.0
    ensures InputValue(v).Finite? && ParseIntOf(v) == InputValue(v)
    ensures rules.min <= InputValue(v).value && InputValue(v).value.Floor as real == InputValue(v).value
  {
    var x := InputValue(v).value;
    OnWholeSteps(x, rules.min.Floor);
    if v.Typed? {
      ParseIntOfWholeDecimal(v.text);
    }
  }

  /** A number text is what the coercion `Number(s)` of a comparison reads too. */
  lemma NumberTextCoerces(s: string)
    requires IsNumberText(s)
    ensures ToNumber(s) == InputValue(Typed(s))
  {
    DecimalTextCoerces(s);
  }

  /** A non-empty valid value of a number input is a number at least `min`, at most
      `max`, that `parseFloat` reads as itself. */
  lemma ValidNumberParses(s: string, rules: NumberRules)
    requires s != "" && NumberInputValid(Typed(s), rules)
    ensures ParseFloat(s) == InputValue(Typed(s)) && ParseFloat(s).Finite?
    ensures rules.min <= ParseFloat(s).value
    ensures rules.max.Some? ==> ParseFloat(s).value <= rules.max.value
  {
    NumericTextParses(s);
  }
}
