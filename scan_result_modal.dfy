/** The dialog shown after a barcode scan (frontend/src/components/ScanResultModal.js):
    the product lookup that pre-fills it, the form validation, and the item handed to
    `onSave`. The answer of `GET /product/{upc}` (or its failure or time-out) is a
    parameter; what the dialog hands to its parent is appended to `notices`. */
module ScanResultModal {
  import opened Wrappers
  import opened JsValues
  import opened Items
  import opened HtmlForms

  datatype FormField = PriceField | StoreField | QuantityField

  const PriceMessage := "Please enter a valid price greater than 0"
  const StoreMessage := "Please enter a store name"
  const QuantityMessage := "Quantity must be at least 1"

  const NotFoundMessage := "Product not found in database"
  const TimeoutMessage := "Request timed out. Please try again."
  const FetchFailedMessage := "Failed to fetch product information. Please check your internet connection."

  /** `!price || parseFloat(price) <= 0`. A comparison with NaN is false, but the price
      input never reports text that is not a number: it reports "" instead. */
  predicate PriceInvalid(price: string) {
    price == "" || (ParseFloat(price).Finite? && ParseFloat(price).value <= 0.0)
  }

  /** `!store.trim()` */
  predicate StoreInvalid(store: string) {
    Trim(store) == ""
  }

  /** `!quantity || quantity < 1`, with `<` coercing text to a number. */
  predicate QuantityInvalid(quantity: Input) {
    !Truthy(quantity) || Less(NumberOf(quantity), 1.0)
  }

  /** A whole number typed as the price is rejected exactly when it is 0. */
  lemma WholePriceInvalidIff(n: nat)
    ensures PriceInvalid(NatToString(n)) <==> n == 0
  {
    ParseFloatOfNatToString(n);
  }

  /** Text without a digit ("abc") typed as the price reaches the dialog as "", which
      `validateForm` rejects, and it leaves the input in bad input. */
  lemma DigitFreePriceRejected(typed: string)
    requires typed != "" && forall i :: 0 <= i < |typed| ==> !IsDigit(typed[i])
    ensures ReportedNumber(typed) == "" && PriceInvalid(ReportedNumber(typed))
    ensures IsBadInput(typed)
  {
    DigitFreeTextReportsEmpty(typed);
  }

  /** The store is rejected exactly when it is blank. */
  lemma StoreInvalidIff(store: string)
    ensures StoreInvalid(store) <==> forall i :: 0 <= i < |store| ==> IsWhitespace(store[i])
  {
    TrimEmptyIff(store);
  }

  /** A typed whole quantity is rejected exactly when it is 0. */
  lemma WholeQuantityInvalidIff(n: nat)
    ensures QuantityInvalid(Typed(NatToString(n))) <==> n == 0
  {
    ToNumberOfNatToString(n);
  }

  /** The price input: required, `min="0.01"`, `step="0.01"`. */
  const PriceRules := NumberRules(true, 0.01, None, 0.01)

  /** The quantity input: `min="1"`, the default step 1, not required. */
  const QuantityRules := NumberRules(false, 1.0, None, 1.0)

  /** The browser lets the form submit: no number input holds bad input, the store is
      filled in, and price and quantity keep to their attributes. */
  predicate Submittable(price: string, store: string, quantity: Input, badInput: set<DialogInput>) {
    && badInput == {}
    && NumberInputValid(Typed(price), PriceRules)
    && TextInputValid(store, true)
    && NumberInputValid(quantity, QuantityRules)
  }

  /** Once the browser lets the form submit, `validateForm` never rejects the price; it
      rejects the store only when it is whitespace, and the quantity only when it was
      cleared. */
  lemma ValidationAfterGate(price: string, store: string, quantity: Input, badInput: set<DialogInput>)
    requires Submittable(price, store, quantity, badInput)
    ensures !PriceInvalid(price)
    ensures StoreInvalid(store) <==> forall i :: 0 <= i < |store| ==> IsWhitespace(store[i])
    ensures QuantityInvalid(quantity) <==> quantity == Typed("")
  {
    ValidNumberParses(price, PriceRules);
    TrimEmptyIff(store);
    if quantity.Typed? && quantity.text != "" {
      NumberTextCoerces(quantity.text);
    }
  }

  /** An item the dialog hands on after the browser's checks carries a price of at least
      0.01 on the 0.01 grid and a whole quantity of at least 1. */
  lemma SavedItemInRange(upc: string, name: string, price: string, store: string, quantity: Input, category: string, badInput: set<DialogInput>)
    requires Submittable(price, store, quantity, badInput) && !QuantityInvalid(quantity)
    ensures var item := SubmittedItem(upc, name, price, store, quantity, category);
      && item.purchasePrice.Finite? && item.purchasePrice.value >= 0.01
      && OnStep(item.purchasePrice.value, 0.01, 0.01)
      && item.quantity.Finite? && item.quantity.value >= 1.0
      && item.quantity.value.Floor as real == item.quantity.value
  {
    ValidationAfterGate(price, store, quantity, badInput);
    ValidNumberParses(price, PriceRules);
    WholeInputParsesAsInt(quantity, QuantityRules);
  }

  /** A price with a third decimal other than 0 ("1.005") or a price of 0 breaks the price
      input's attributes, and a fractional quantity ("2.5") or a quantity of 0 breaks the
      quantity input's: the browser keeps the form from submitting. */
  lemma OutOfRangeValuesBlock(price: string, store: string, quantity: Input, badInput: set<DialogInput>, w: string, d: string)
    requires AllDigits(w) && AllDigits(d) && |d| == 3 && d[2] != '0'
    ensures !Submittable(w + "." + d, store, quantity, badInput)
    ensures !Submittable(NatToString(0), store, quantity, badInput)
    ensures !Submittable(price, store, Typed(w + "." + d), badInput)
    ensures !Submittable(price, store, Typed(NatToString(0)), badInput)
  {
    ThousandthsOffCentGrid(w, d);
    ValueOfWholeText(0);
    assert DigitsValue(d) == 10 * DigitsValue(d[..2]) + DigitValue(d[2]);
    FractionalTextNotWhole(w, d);
    OnWholeSteps(InputValue(Typed(w + "." + d)).value, 1);
  }

  /** The `newErrors` object of `validateForm`, filled field by field from the three
      checks. */
  method CollectErrors(priceBad: bool, storeBad: bool, quantityBad: bool) returns (newErrors: map<FormField, string>)
    ensures PriceField in newErrors <==> priceBad
    ensures StoreField in newErrors <==> storeBad
    ensures QuantityField in newErrors <==> quantityBad
    ensures |newErrors.Keys| == 0 <==> !priceBad && !storeBad && !quantityBad
    ensures |newErrors.Keys| == 0 <==> newErrors == map[]
  {
    newErrors := map[];
    if priceBad {
      newErrors := newErrors[PriceField := PriceMessage];
    }
    if storeBad {
      newErrors := newErrors[StoreField := StoreMessage];
    }
    if quantityBad {
      newErrors := newErrors[QuantityField := QuantityMessage];
    }
    if priceBad || storeBad || quantityBad {
      assert PriceField in newErrors.Keys || StoreField in newErrors.Keys || QuantityField in newErrors.Keys;
    } else {
      assert newErrors.Keys == {};
    }
  }

  /** The product lookup as the dialog sees it. */
  datatype ProductData = ProductData(name: Option<string>, category: Option<string>)
  datatype Lookup = Found(data: ProductData) | NotFound | TimedOut | Failed

  /** `productInfo`: the back end's answer, or the placeholder built when there is none. */
  datatype ProductInfo =
    | Fetched(data: ProductData)
    | Missing(error: string, name: string, category: string, upc: string)

  /** The placeholder `productInfo` for a product that was not found or could not be
      fetched. */
  function MissingProductInfo(upc: string, outcome: Lookup): (r: ProductInfo)
    requires !outcome.Found?
    ensures r.Missing? && r.name == "Product (UPC: " + upc + ")" && r.category == "food" && r.upc == upc
    ensures r.error == TimeoutMessage <==> outcome == TimedOut
    ensures r.error == NotFoundMessage <==> outcome == NotFound
  {
    var message := match outcome
      case NotFound => NotFoundMessage
      case TimedOut => TimeoutMessage
      case Failed => FetchFailedMessage;
    Missing(message, "Product (UPC: " + upc + ")", "food", upc)
  }

  /** The `itemData` that `handleSubmit` hands to `onSave`. */
  function SubmittedItem(upc: string, name: string, price: string, store: string, quantity: Input, category: string): (r: NewItem)
    ensures r.upc == upc
    ensures r.store == Trim(store)
    ensures r.name.None? <==> forall i :: 0 <= i < |name| ==> IsWhitespace(name[i])
    ensures r.name.Some? ==> r.name.value == Trim(name)
    ensures r.category.None? <==> forall i :: 0 <= i < |category| ==> IsWhitespace(category[i])
    ensures r.category.Some? ==> r.category.value == Trim(category)
    ensures r.purchasePrice == ParseFloat(price) && r.quantity == ParseIntOf(quantity)
    ensures r.notes.None? && r.nutrition.None? && r.image.None?
  {
    TrimEmptyIff(name);
    TrimEmptyIff(category);
    NewItem(
      upc := upc,
      name := NonEmpty(Trim(name)),
      category := NonEmpty(Trim(category)),
      purchasePrice := ParseFloat(price),
      store := Trim(store),
      quantity := ParseIntOf(quantity),
      notes := None,
      nutrition := None,
      image := None)
  }

  /** What the dialog hands to its parent. */
  datatype Notice = Saved(item: NewItem) | Cancelled

  /** The dialog's five inputs. */
  datatype DialogInput = NameInput | PriceInput | StoreInput | QuantityInput | CategoryInput

  class Dialog {
    var name: string
    var price: string
    var store: string
    var quantity: Input
    var category: string
    /** The number inputs whose text is not a number. */
    var badInput: set<DialogInput>
    var errors: map<FormField, string>
    var loading: bool
    var productInfo: Option<ProductInfo>
    var foundInstantly: bool
    var notices: seq<Notice>

    /** The form holds what it holds right after opening. */
    ghost predicate Pristine()
      reads this
    {
      && name == "" && price == "" && store == "" && quantity == Preset(1) && category == ""
      && errors == map[] && productInfo == None && !foundInstantly
    }

    constructor ()
      ensures Pristine() && badInput == {} && !loading && notices == []
    {
      name, price, store, quantity, category := "", "", "", Preset(1), "";
      badInput := {};
      errors := map[];
      loading := false;
      productInfo := None;
      foundInstantly := false;
      notices := [];
    }

    /** The effect that runs when the dialog opens: every field back to its start value.
        A closed dialog renders nothing, so the inputs it opens with are fresh ones. */
    method Open()
      modifies this
      ensures Pristine() && badInput == {}
      ensures loading == old(loading) && notices == old(notices)
    {
      badInput := {};
      name := "";
      price := "";
      store := "";
      quantity := Preset(1);
      category := "";
      errors := map[];
      productInfo := None;
      foundInstantly := false;
    }

    /** The `onChange` handlers of the five inputs, given the text now in the input: a text
        input passes it on, a number input passes on what it reports and keeps whether
        the text is bad input (the quantity stops being the preset number 1); the errors
        shown stay as they are until the next validation. */
    method Edit(input: DialogInput, typed: string)
      modifies this
      ensures name == if input == NameInput then typed else old(name)
      ensures price == if input == PriceInput then ReportedNumber(typed) else old(price)
      ensures store == if input == StoreInput then typed else old(store)
      ensures quantity == if input == QuantityInput then Typed(ReportedNumber(typed)) else old(quantity)
      ensures category == if input == CategoryInput then typed else old(category)
      ensures badInput == if (input == PriceInput || input == QuantityInput) && IsBadInput(typed)
        then old(badInput) + {input} else old(badInput) - {input}
      ensures errors == old(errors) && loading == old(loading) && productInfo == old(productInfo)
      ensures foundInstantly == old(foundInstantly) && notices == old(notices)
    {
      match input {
        case NameInput => name := typed;
        case PriceInput => price := ReportedNumber(typed);
        case StoreInput => store := typed;
        case QuantityInput => quantity := Typed(ReportedNumber(typed));
        case CategoryInput => category := typed;
      }
      if (input == PriceInput || input == QuantityInput) && IsBadInput(typed) {
        badInput := badInput + {input};
      } else {
        badInput := badInput - {input};
      }
    }

    /** `fetchProductInfo` for `upc`, with the lookup's outcome given. */
    method FetchProductInfo(upc: string, outcome: Lookup)
      modifies this
      ensures upc == "" ==>
        && productInfo == old(productInfo) && loading == old(loading)
        && name == old(name) && category == old(category) && foundInstantly == old(foundInstantly)
      ensures upc != "" && outcome.Found? ==>
        && productInfo == Some(Fetched(outcome.data)) && !loading && foundInstantly
        && name == OrDefault(outcome.data.name, "") && category == OrDefault(outcome.data.category, "")
      ensures upc != "" && !outcome.Found? ==>
        && productInfo == Some(MissingProductInfo(upc, outcome)) && !loading
        && name == old(name) && category == old(category) && foundInstantly == old(foundInstantly)
      ensures price == old(price) && store == old(store) && quantity == old(quantity)
      ensures errors == old(errors) && notices == old(notices) && badInput == old(badInput)
    {
      if upc == "" {
        return;
      }
      loading := true;
      productInfo := None;
      if outcome.Found? {
        productInfo := Some(Fetched(outcome.data));
        name := OrDefault(outcome.data.name, "");
        category := OrDefault(outcome.data.category, "");
        foundInstantly := true;
      } else {
        productInfo := Some(MissingProductInfo(upc, outcome));
      }
      loading := false;
    }

    /** `validateForm`: collects one message per invalid field into `errors`; the form is
        valid when there is none. */
    method ValidateForm() returns (valid: bool)
      modifies this
      ensures PriceField in errors <==> PriceInvalid(price)
      ensures StoreField in errors <==> StoreInvalid(store)
      ensures QuantityField in errors <==> QuantityInvalid(quantity)
      ensures valid <==> errors == map[]
      ensures valid <==> !PriceInvalid(price) && !StoreInvalid(store) && !QuantityInvalid(quantity)
      ensures name == old(name) && price == old(price) && store == old(store)
      ensures quantity == old(quantity) && category == old(category) && loading == old(loading)
      ensures productInfo == old(productInfo) && foundInstantly == old(foundInstantly)
      ensures notices == old(notices) && badInput == old(badInput)
    {
      var newErrors := CollectErrors(PriceInvalid(price), StoreInvalid(store), QuantityInvalid(quantity));
      errors := newErrors;
      valid := |newErrors.Keys| == 0;
    }

    /** Submitting the form for the scanned `upc`. A form the browser holds back changes
        nothing; otherwise `handleSubmit` validates, then hands the item to `onSave` only
        when the form is valid. */
    method HandleSubmit(upc: string)
      modifies this
      ensures !Submittable(old(price), old(store), old(quantity), old(badInput)) ==>
        errors == old(errors) && notices == old(notices)
      ensures Submittable(old(price), old(store), old(quantity), old(badInput)) ==>
        && (PriceField in errors <==> PriceInvalid(price))
        && (StoreField in errors <==> StoreInvalid(store))
        && (QuantityField in errors <==> QuantityInvalid(quantity))
        && (errors == map[] ==>
          notices == old(notices) + [Saved(SubmittedItem(upc, name, price, store, quantity, category))])
        && (errors != map[] ==> notices == old(notices))
      ensures name == old(name) && price == old(price) && store == old(store)
      ensures quantity == old(quantity) && category == old(category) && loading == old(loading)
      ensures productInfo == old(productInfo) && foundInstantly == old(foundInstantly)
      ensures badInput == old(badInput)
    {
      if !Submittable(price, store, quantity, badInput) {
        return;
      }
      var valid := ValidateForm();
      if !valid {
        return;
      }
      notices := notices + [Saved(SubmittedItem(upc, name, price, store, quantity, category))];
    }

    /** `handleCancel` */
    method HandleCancel()
      modifies this
      ensures notices == old(notices) + [Cancelled]
      ensures name == old(name) && price == old(price) && store == old(store)
      ensures quantity == old(quantity) && category == old(category) && errors == old(errors)
      ensures loading == old(loading) && productInfo == old(productInfo)
      ensures foundInstantly == old(foundInstantly) && badInput == old(badInput)
    {
      notices := notices + [Cancelled];
    }
  }
}
