/** The portion tracker (frontend/src/components/PortionTracker.js): the expiry badge of
    each pantry item, and the "use portion" dialog with its validation and submission.
    The clock and the answer of `POST /use-portion` are parameters; the requests the
    dialog sends are appended to `requests`. */
module PortionTracker {
  import opened Wrappers
  import opened JsValues
  import opened HtmlForms

  const MsPerDay: int := 1000 * 60 * 60 * 24

  /** `item.expiry_date`: missing, a date `new Date` cannot read (NaN), or an instant in
      milliseconds since the epoch. */
  datatype Expiry = NoDate | Unparseable | At(ms: int)

  datatype ExpiryStatus = NoExpiry | Expired | ExpiringSoon | ExpiringWeek | Good

  /** `Math.ceil(a / d)` for a positive divisor. */
  function CeilDiv(a: int, d: int): (q: int)
    requires d > 0
    ensures (q - 1) * d < a <= q * d
  {
    if a % d == 0 then a / d else a / d + 1
  }

  /** Multiplying by a positive number keeps the order. */
  lemma MulMonotone(x: int, y: int, d: int)
    requires x <= y && d > 0
    ensures x * d <= y * d
  {
    assert y * d - x * d == (y - x) * d;
  }

  /** Rounding up to whole divisors: `ceil(a / d) <= k` exactly when `a <= k * d`. */
  lemma CeilDivAtMost(a: int, d: int, k: int)
    requires d > 0
    ensures CeilDiv(a, d) <= k <==> a <= k * d
  {
    var q := CeilDiv(a, d);
    if q <= k {
      MulMonotone(q, k, d);
    } else {
      MulMonotone(k, q - 1, d);
    }
  }

  /** The status for a whole number of days left. */
  function StatusForDays(days: int): (r: ExpiryStatus)
    ensures r != NoExpiry
    ensures r == Expired <==> days < 0
    ensures r == ExpiringSoon <==> 0 <= days <= 3
    ensures r == ExpiringWeek <==> 4 <= days <= 7
    ensures r == Good <==> days > 7
  {
    if days < 0 then Expired
    else if days <= 3 then ExpiringSoon
    else if days <= 7 then ExpiringWeek
    else Good
  }

  /** `getExpiryStatus(expiryDate)` at clock reading `now` (milliseconds). */
  function GetExpiryStatus(expiry: Expiry, now: int): ExpiryStatus {
    match expiry
    case NoDate => NoExpiry
    case Unparseable => Good
    case At(ms) => StatusForDays(CeilDiv(ms - now, MsPerDay))
  }

  /** The five statuses by time left: an item is expired only a full day after its
      expiry instant; the other bands are "at most 3 days", "at most 7 days" and beyond.
      A date that cannot be read compares false with everything and is shown as good. */
  lemma {:induction false} ExpiryStatusByTimeLeft(expiry: Expiry, now: int)
    ensures expiry.NoDate? <==> GetExpiryStatus(expiry, now) == NoExpiry
    ensures expiry.Unparseable? ==> GetExpiryStatus(expiry, now) == Good
    ensures expiry.At? ==> var left := expiry.ms - now;
      && (GetExpiryStatus(expiry, now) == Expired <==> left <= -MsPerDay)
      && (GetExpiryStatus(expiry, now) == ExpiringSoon <==> -MsPerDay < left <= 3 * MsPerDay)
      && (GetExpiryStatus(expiry, now) == ExpiringWeek <==> 3 * MsPerDay < left <= 7 * MsPerDay)
      && (GetExpiryStatus(expiry, now) == Good <==> 7 * MsPerDay < left)
  {
    if expiry.At? {
      var left := expiry.ms - now;
      CeilDivAtMost(left, MsPerDay, -1);
      CeilDivAtMost(left, MsPerDay, 3);
      CeilDivAtMost(left, MsPerDay, 7);
    }
  }

  /** How urgent a status is: expired first, good last. */
  function Urgency(s: ExpiryStatus): nat {
    match s
    case Expired => 0
    case ExpiringSoon => 1
    case ExpiringWeek => 2
    case Good => 3
    case NoExpiry => 4
  }

  /** An item that expires later is never more urgent. */
  lemma {:induction false} ExpiryStatusMonotone(ms1: int, ms2: int, now: int)
    requires ms1 <= ms2
    ensures Urgency(GetExpiryStatus(At(ms1), now)) <= Urgency(GetExpiryStatus(At(ms2), now))
  {
    ExpiryStatusByTimeLeft(At(ms1), now);
    ExpiryStatusByTimeLeft(At(ms2), now);
  }

  /** `formatQuantity(quantity, unit)`, with the quantity already rendered as text. */
  function FormatQuantity(quantity: string, unit: string): string {
    quantity + " " + unit
  }

  /** Reading a shown quantity back: the text before the first space, and the text
      after it. */
  function SplitAtSpace(s: string): (string, string) {
    if s == [] then ([], [])
    else if s[0] == ' ' then ([], s[1..])
    else
      var (before, after) := SplitAtSpace(s[1..]);
      ([s[0]] + before, after)
  }

  /** The shown text gives back the quantity and the unit as long as the quantity itself
      has no space, as a rendered number never has. */
  lemma {:induction false} FormatQuantitySplits(quantity: string, unit: string)
    requires forall i :: 0 <= i < |quantity| ==> quantity[i] != ' '
    ensures SplitAtSpace(FormatQuantity(quantity, unit)) == (quantity, unit)
  {
    if quantity != [] {
      assert FormatQuantity(quantity, unit)[1..] == FormatQuantity(quantity[1..], unit);
      FormatQuantitySplits(quantity[1..], unit);
      assert [quantity[0]] + quantity[1..] == quantity;
    } else {
      assert FormatQuantity(quantity, unit)[1..] == unit;
    }
  }

  /** `calculateUsagePercentage(item)` before its `toFixed(1)` rounding: the share of
      the item already used, in percent. An item with no total gives NaN. */
  function UsagePercentage(total: real, remaining: real): (r: Number)
    ensures total == 0.0 <==> r == NaN
    ensures total > 0.0 && 0.0 <= remaining <= total ==> 0.0 <= r.value <= 100.0
    ensures total != 0.0 && remaining == total ==> r == Finite(0.0)
    ensures total != 0.0 && remaining == 0.0 ==> r == Finite(100.0)
  {
    if total == 0.0 then NaN
    else
      assert total > 0.0 && 0.0 <= remaining <= total ==> 0.0 <= (total - remaining) / total * 100.0 <= 100.0 by {
        if total > 0.0 && 0.0 <= remaining <= total {
          ShareAtMostWhole(total - remaining, total);
        }
      }
      assert remaining == 0.0 ==> (total - remaining) / total == 1.0;
      Finite((total - remaining) / total * 100.0)
  }

  /** A part of a positive whole is between 0 and 100 percent of it. */
  lemma ShareAtMostWhole(part: real, whole: real)
    requires whole > 0.0 && 0.0 <= part <= whole
    ensures 0.0 <= part / whole * 100.0 <= 100.0
  {
    var f := part / whole;
    assert f * whole == part;
  }

  /** A pantry item as the dialog uses it. */
  datatype PantryEntry = PantryEntry(id: int, name: string, unit: string, remainingQuantity: real)

  /** `portionForm`: `servings_made` starts as the number 1. */
  datatype PortionForm = PortionForm(quantityUsed: string, mealName: string, servingsMade: Input, notes: string)

  const InitialForm := PortionForm("", "", Preset(1), "")

  datatype PortionField = QuantityUsedField | MealNameField | ServingsMadeField | NotesField

  /** The value a form field holds, as its input element shows it. */
  function FieldValue(f: PortionForm, field: PortionField): Input {
    match field
    case QuantityUsedField => Typed(f.quantityUsed)
    case MealNameField => Typed(f.mealName)
    case ServingsMadeField => f.servingsMade
    case NotesField => Typed(f.notes)
  }

  /** `setPortionForm({...portionForm, <field>: e.target.value})`: that field takes the
      value its input reports, every other field keeps its own. */
  function WithPortionField(f: PortionForm, field: PortionField, value: string): (r: PortionForm)
    ensures FieldValue(r, field) == Typed(value)
    ensures forall g :: g != field ==> FieldValue(r, g) == FieldValue(f, g)
  {
    match field
    case QuantityUsedField => f.(quantityUsed := value)
    case MealNameField => f.(mealName := value)
    case ServingsMadeField => f.(servingsMade := Typed(value))
    case NotesField => f.(notes := value)
  }

  /** The body of `POST /use-portion`. */
  datatype PortionUsage = PortionUsage(itemId: int, quantityUsed: Number, mealName: string, servingsMade: Number, notes: string)

  /** The request `submitPortionUsage` sends for a form and the selected item. */
  function UsageRequest(item: PantryEntry, f: PortionForm): PortionUsage {
    PortionUsage(item.id, ParseFloat(f.quantityUsed), f.mealName, ParseIntOf(f.servingsMade), f.notes)
  }

  /** A whole quantity typed as text arrives as that number, and servings typed as a whole
      number, or left at the initial 1, arrive as that number; the meal name and the
      notes go as typed, with the selected item's id. */
  lemma UsageRequestOfWholeNumbers(item: PantryEntry, f: PortionForm, quantity: nat, servings: nat)
    requires f.quantityUsed == NatToString(quantity)
    requires f.servingsMade == Typed(NatToString(servings)) || (f.servingsMade == Preset(1) && servings == 1)
    ensures UsageRequest(item, f) ==
      PortionUsage(item.id, Finite(quantity as real), f.mealName, Finite(servings as real), f.notes)
  {
    ParseFloatOfNatToString(quantity);
    if f.servingsMade.Typed? {
      ParseIntOfNatToString(servings);
    }
  }

  /** The inputs of type `number`: quantity used and servings made. */
  predicate IsNumberField(field: PortionField) {
    field == QuantityUsedField || field == ServingsMadeField
  }

  /** What an input's `onChange` passes on for the typed text. */
  function Reported(field: PortionField, typed: string): string {
    if IsNumberField(field) then ReportedNumber(typed) else typed
  }

  /** The quantity input: required, `min="0"`, `max` the item's remaining quantity,
      `step="0.1"`. */
  function QuantityUsedRules(item: PantryEntry): NumberRules {
    NumberRules(true, 0.0, Some(item.remainingQuantity), 0.1)
  }

  /** The servings input: `min="1"`, the default step 1, not required. */
  const ServingsRules := NumberRules(false, 1.0, None, 1.0)

  /** The browser lets the dialog's form for `item` submit: no number input holds bad
      input, the meal name is filled in, and quantity and servings keep to their
      attributes. */
  predicate Submittable(f: PortionForm, item: PantryEntry, badInput: set<PortionField>) {
    && badInput == {}
    && NumberInputValid(Typed(f.quantityUsed), QuantityUsedRules(item))
    && TextInputValid(f.mealName, true)
    && NumberInputValid(f.servingsMade, ServingsRules)
  }

  /** Once the browser lets the form submit, `submitPortionUsage`'s own check passes, and
      the request uses between 0 and the remaining quantity, on the 0.1 grid, and, unless
      the servings were cleared, makes a whole number of servings of at least 1. */
  lemma SubmittedUsageInRange(item: PantryEntry, f: PortionForm, badInput: set<PortionField>)
    requires Submittable(f, item, badInput)
    ensures f.quantityUsed != "" && f.mealName != ""
    ensures var used := UsageRequest(item, f).quantityUsed;
      used.Finite? && 0.0 <= used.value <= item.remainingQuantity && OnStep(used.value, 0.0, 0.1)
    ensures f.servingsMade != Typed("") ==>
      var servings := UsageRequest(item, f).servingsMade;
      servings.Finite? && servings.value >= 1.0 && servings.value.Floor as real == servings.value
    ensures f.servingsMade == Typed("") ==> UsageRequest(item, f).servingsMade == NaN
  {
    ValidNumberParses(f.quantityUsed, QuantityUsedRules(item));
    if f.servingsMade != Typed("") {
      WholeInputParsesAsInt(f.servingsMade, ServingsRules);
    }
  }

  /** Using more than the item has left, or a quantity with a second decimal other than 0
      ("0.25"), breaks the quantity input's attributes; 0 servings, or a fractional number
      of them ("1.5"), breaks the servings input's: the browser keeps the form from
      submitting. */
  lemma OutOfRangeValuesBlock(item: PantryEntry, f: PortionForm, badInput: set<PortionField>, n: nat, w: string, d: string)
    requires n as real > item.remainingQuantity
    requires AllDigits(w) && AllDigits(d) && |d| == 2 && d[1] != '0'
    ensures !Submittable(f.(quantityUsed := NatToString(n)), item, badInput)
    ensures !Submittable(f.(quantityUsed := w + "." + d), item, badInput)
    ensures !Submittable(f.(servingsMade := Typed(NatToString(0))), item, badInput)
    ensures !Submittable(f.(servingsMade := Typed(w + "." + d)), item, badInput)
  {
    ValueOfWholeText(n);
    HundredthsOffTenthGrid(w, d);
    ValueOfWholeText(0);
    assert DigitsValue(d) == 10 * DigitsValue(d[..1]) + DigitValue(d[1]);
    FractionalTextNotWhole(w, d);
    OnWholeSteps(InputValue(Typed(w + "." + d)).value, 1);
  }

  /** Text without a digit ("some") typed as the quantity reaches the form as "", and
      leaves the input in bad input: the browser keeps the form from submitting, so no
      NaN quantity is ever sent. */
  lemma DigitFreeQuantityBlocks(item: PantryEntry, f: PortionForm, badInput: set<PortionField>, typed: string)
    requires typed != "" && forall i :: 0 <= i < |typed| ==> !IsDigit(typed[i])
    ensures Reported(QuantityUsedField, typed) == "" && IsBadInput(typed)
    ensures !Submittable(WithPortionField(f, QuantityUsedField, Reported(QuantityUsedField, typed)), item, badInput + {QuantityUsedField})
  {
    DigitFreeTextReportsEmpty(typed);
  }

  class Tracker {
    var selectedItem: Option<PantryEntry>
    var portionForm: PortionForm
    var modalOpen: bool
    /** The dialog's number inputs whose text is not a number. */
    var badInput: set<PortionField>
    var requests: seq<PortionUsage>

    constructor ()
      ensures selectedItem == None && portionForm == InitialForm && !modalOpen && badInput == {}
      ensures requests == []
    {
      selectedItem := None;
      portionForm := InitialForm;
      modalOpen := false;
      badInput := {};
      requests := [];
    }

    /** The dialog, and with it its form, is on screen. */
    predicate FormShown()
      reads this
    {
      modalOpen && selectedItem.Some?
    }

    /** `handleUsePortion(item)`: selects the item, resets the form, opens the dialog with
        fresh inputs. */
    method HandleUsePortion(item: PantryEntry)
      modifies this
      ensures selectedItem == Some(item) && portionForm == InitialForm && modalOpen && badInput == {}
      ensures requests == old(requests)
    {
      selectedItem := Some(item);
      portionForm := InitialForm;
      modalOpen := true;
      badInput := {};
    }

    /** The `onChange` handlers of the dialog's four inputs, given the text now in the
        input: a number input passes on what it reports and keeps whether that text is
        bad input. */
    method EditForm(field: PortionField, typed: string)
      modifies this
      ensures portionForm == WithPortionField(old(portionForm), field, Reported(field, typed))
      ensures badInput == if IsNumberField(field) && IsBadInput(typed)
        then old(badInput) + {field} else old(badInput) - {field}
      ensures selectedItem == old(selectedItem) && modalOpen == old(modalOpen) && requests == old(requests)
    {
      portionForm := WithPortionField(portionForm, field, Reported(field, typed));
      if IsNumberField(field) && IsBadInput(typed) {
        badInput := badInput + {field};
      } else {
        badInput := badInput - {field};
      }
    }

    /** The close and cancel buttons: the dialog closes and its inputs go; the selection
        stays. */
    method CloseModal()
      modifies this
      ensures !modalOpen && badInput == {}
      ensures selectedItem == old(selectedItem) && portionForm == old(portionForm) && requests == old(requests)
    {
      modalOpen := false;
      badInput := {};
    }

    /** Submitting the dialog's form; `postOk` says whether `POST /use-portion` succeeded.
        Without the dialog on screen there is no form, and a form the browser holds back
        does not submit: nothing changes. Otherwise `submitPortionUsage` sends the request;
        a successful post closes the dialog and clears the selection, a failed one leaves
        both. */
    method SubmitPortionUsage(postOk: bool)
      modifies this
      ensures !old(FormShown()) || !Submittable(old(portionForm), old(selectedItem).value, old(badInput)) ==>
        && requests == old(requests) && modalOpen == old(modalOpen) && selectedItem == old(selectedItem)
        && badInput == old(badInput)
      ensures old(FormShown()) && Submittable(old(portionForm), old(selectedItem).value, old(badInput)) ==>
        && requests == old(requests) + [UsageRequest(old(selectedItem).value, old(portionForm))]
        && (postOk ==> !modalOpen && selectedItem == None && badInput == {})
        && (!postOk ==> modalOpen == old(modalOpen) && selectedItem == old(selectedItem) && badInput == old(badInput))
      ensures portionForm == old(portionForm)
    {
      if !FormShown() || !Submittable(portionForm, selectedItem.value, badInput)
        || portionForm.quantityUsed == "" || portionForm.mealName == ""
      {
        return;
      }
      requests := requests + [UsageRequest(selectedItem.value, portionForm)];
      if postOk {
        modalOpen := false;
        selectedItem := None;
      }
    }
  }
}
