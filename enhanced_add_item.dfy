/** The manual "add item" form (frontend/src/components/EnhancedAddItem.js). The answer
    of `POST /inventory` is a parameter; the bodies sent are appended to `posts` and the
    `onItemAdded` calls are counted. */
module EnhancedAddItem {
  import opened Wrappers
  import opened JsValues
  import opened Items
  import opened HtmlForms

  /** The six inputs; `quantity` starts as the number 1 and becomes text once edited. */
  datatype AddForm = AddForm(upc: string, name: string, price: string, store: string, quantity: Input, category: string)

  const EmptyForm := AddForm("", "", "", "", Preset(1), "")

  datatype Field = UpcField | NameField | PriceField | StoreField | QuantityField | CategoryField

  /** The value an input shows. */
  function Get(f: AddForm, field: Field): Input {
    match field
    case UpcField => Typed(f.upc)
    case NameField => Typed(f.name)
    case PriceField => Typed(f.price)
    case StoreField => Typed(f.store)
    case QuantityField => f.quantity
    case CategoryField => Typed(f.category)
  }

  /** An input's `onChange`: that input takes the typed text, the others keep theirs. */
  function WithField(f: AddForm, field: Field, value: string): (r: AddForm)
    ensures Get(r, field) == Typed(value)
    ensures forall g :: g != field ==> Get(r, g) == Get(f, g)
  {
    match field
    case UpcField => f.(upc := value)
    case NameField => f.(name := value)
    case PriceField => f.(price := value)
    case StoreField => f.(store := value)
    case QuantityField => f.(quantity := Typed(value))
    case CategoryField => f.(category := value)
  }

  /** The inputs of type `number`: price and quantity. */
  predicate IsNumberField(field: Field) {
    field == PriceField || field == QuantityField
  }

  /** What an input's `onChange` passes on for the typed text. */
  function Reported(field: Field, typed: string): string {
    if IsNumberField(field) then ReportedNumber(typed) else typed
  }

  /** The three required inputs of `handleSubmit` are filled in. */
  predicate Complete(f: AddForm) {
    f.upc != "" && f.price != "" && f.store != ""
  }

  /** The price input: required, `min="0"`, `step="0.01"`. */
  const PriceRules := NumberRules(true, 0.0, None, 0.01)

  /** The quantity input: `min="1"`, the default step 1, not required. */
  const QuantityRules := NumberRules(false, 1.0, None, 1.0)

  /** The browser lets the form submit: no number input holds bad input, UPC and store
      are filled in, and price and quantity keep to their attributes. */
  predicate Submittable(f: AddForm, badInput: set<Field>) {
    && badInput == {}
    && TextInputValid(f.upc, true)
    && NumberInputValid(Typed(f.price), PriceRules)
    && TextInputValid(f.store, true)
    && NumberInputValid(f.quantity, QuantityRules)
  }

  /** Once the browser lets the form submit, `handleSubmit`'s own check passes, and the
      body posts a price of at least 0 on the 0.01 grid and, unless the quantity was
      cleared, a whole quantity of at least 1. */
  lemma SubmittedRequest(f: AddForm, badInput: set<Field>)
    requires Submittable(f, badInput)
    ensures Complete(f)
    ensures Request(f).purchasePrice.Finite? && Request(f).purchasePrice.value >= 0.0
    ensures OnStep(Request(f).purchasePrice.value, 0.0, 0.01)
    ensures f.quantity != Typed("") ==>
      && Request(f).quantity.Finite? && Request(f).quantity.value >= 1.0
      && Request(f).quantity.value.Floor as real == Request(f).quantity.value
    ensures f.quantity == Typed("") ==> Request(f).quantity == NaN
  {
    ValidNumberParses(f.price, PriceRules);
    if f.quantity != Typed("") {
      WholeInputParsesAsInt(f.quantity, QuantityRules);
    }
  }

  /** A price with a third decimal other than 0 ("1.005") is off the 0.01 grid: the
      browser keeps the form from submitting. */
  lemma OffGridPriceBlocks(f: AddForm, badInput: set<Field>, w: string, d: string)
    requires AllDigits(w) && AllDigits(d) && |d| == 3 && d[2] != '0'
    ensures !Submittable(f.(price := w + "." + d), badInput)
  {
    ThousandthsOffCentGrid(w, d);
  }

  /** A negative price ("-1") is below `min`: the browser keeps the form from
      submitting. */
  lemma NegativePriceBlocks(f: AddForm, badInput: set<Field>, w: string)
    requires AllDigits(w) && DigitsValue(w) > 0
    ensures !Submittable(f.(price := "-" + w), badInput)
  {
    NegativeTextBelowZero(w);
  }

  /** A quantity of 0 is below `min`, and a fractional one ("2.5") is off the whole
      steps: the browser keeps the form from submitting. */
  lemma BadQuantityBlocks(f: AddForm, badInput: set<Field>, w: string, d: string)
    requires AllDigits(w) && AllDigits(d) && |d| >= 1 && DigitsValue(d) > 0
    ensures !Submittable(f.(quantity := Typed(NatToString(0))), badInput)
    ensures !Submittable(f.(quantity := Typed(w + "." + d)), badInput)
  {
    ValueOfWholeText(0);
    FractionalTextNotWhole(w, d);
    var x := InputValue(Typed(w + "." + d)).value;
    OnWholeSteps(x, 1);
  }

  /** Text without a digit ("abc") typed into a number input reaches the component as ""
      and leaves the input in bad input, so the browser keeps the form from submitting. */
  lemma DigitFreeNumberBlocks(f: AddForm, badInput: set<Field>, field: Field, typed: string)
    requires IsNumberField(field) && typed != ""
    requires forall i :: 0 <= i < |typed| ==> !IsDigit(typed[i])
    ensures Get(WithField(f, field, Reported(field, typed)), field) == Typed("")
    ensures IsBadInput(typed)
    ensures !Submittable(WithField(f, field, Reported(field, typed)), badInput + {field})
  {
    DigitFreeTextReportsEmpty(typed);
  }

  /** The body `handleSubmit` posts: an empty name or category is left out. */
  function Request(f: AddForm): (r: NewItem)
    ensures r.upc == f.upc && r.store == f.store
    ensures r.name.None? <==> f.name == ""
    ensures r.name.Some? ==> r.name.value == f.name
    ensures r.category.None? <==> f.category == ""
    ensures r.category.Some? ==> r.category.value == f.category
    ensures r.purchasePrice == ParseFloat(f.price) && r.quantity == ParseIntOf(f.quantity)
    ensures r.notes.None? && r.nutrition.None? && r.image.None?
  {
    NewItem(
      upc := f.upc,
      name := NonEmpty(f.name),
      category := NonEmpty(f.category),
      purchasePrice := ParseFloat(f.price),
      store := f.store,
      quantity := ParseIntOf(f.quantity),
      notes := None,
      nutrition := None,
      image := None)
  }

  /** Whole numbers typed as price and quantity arrive as those numbers; an untouched
      quantity arrives as 1. */
  lemma {:induction false} RequestOfWholeNumbers(f: AddForm, price: nat, quantity: nat)
    requires f.price == NatToString(price)
    requires f.quantity == Typed(NatToString(quantity)) || (f.quantity == Preset(1) && quantity == 1)
    ensures Request(f).purchasePrice == Finite(price as real)
    ensures Request(f).quantity == Finite(quantity as real)
  {
    ParseFloatOfNatToString(price);
    if f.quantity.Typed? {
      ParseIntOfNatToString(quantity);
    }
  }

  class AddItemForm {
    var form: AddForm
    /** The number inputs whose text is not a number. */
    var badInput: set<Field>
    var posts: seq<NewItem>
    var itemsAdded: nat

    constructor ()
      ensures form == EmptyForm && badInput == {} && posts == [] && itemsAdded == 0
    {
      form := EmptyForm;
      badInput := {};
      posts := [];
      itemsAdded := 0;
    }

    /** The inputs' `onChange` handlers, given the text now in the input: a number input
        passes on what it reports and keeps whether that text is bad input. */
    method Edit(field: Field, typed: string)
      modifies this
      ensures form == WithField(old(form), field, Reported(field, typed))
      ensures badInput == if IsNumberField(field) && IsBadInput(typed)
        then old(badInput) + {field} else old(badInput) - {field}
      ensures posts == old(posts) && itemsAdded == old(itemsAdded)
    {
      form := WithField(form, field, Reported(field, typed));
      if IsNumberField(field) && IsBadInput(typed) {
        badInput := badInput + {field};
      } else {
        badInput := badInput - {field};
      }
    }

    /** Submitting the form; `postOk` says whether `POST /inventory` succeeded. A form the
        browser holds back changes nothing, as does an incomplete one; a failed post
        keeps what was typed. */
    method HandleSubmit(postOk: bool)
      modifies this
      ensures !Submittable(old(form), old(badInput)) || !Complete(old(form)) ==>
        form == old(form) && posts == old(posts) && itemsAdded == old(itemsAdded)
      ensures Submittable(old(form), old(badInput)) ==> posts == old(posts) + [Request(old(form))]
      ensures Submittable(old(form), old(badInput)) && postOk ==>
        form == EmptyForm && itemsAdded == old(itemsAdded) + 1
      ensures Submittable(old(form), old(badInput)) && !postOk ==>
        form == old(form) && itemsAdded == old(itemsAdded)
      ensures badInput == old(badInput)
    {
      if !Submittable(form, badInput) || !Complete(form) {
        return;
      }
      posts := posts + [Request(form)];
      if postOk {
        form := EmptyForm;
        itemsAdded := itemsAdded + 1;
      }
    }
  }
}
