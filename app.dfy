/** The application shell (frontend/src/App.js): the refresh key that makes the other
    components fetch again, the scanner toggle, and the handling of a barcode read by the
    inline scanner, which asks for name, price and store in three prompts. The prompts'
    answers (`None` for a cancelled prompt) and the answer of `POST /inventory` are
    parameters; the bodies sent are appended to `posts`. */
module App {
  import opened Wrappers
  import opened JsValues
  import opened Items

  const UnknownStore := "Unknown Store"

  /** `parseFloat(prompt("Purchase price:") || "0")` */
  function PromptedPrice(priceAnswer: Option<string>): Number {
    ParseFloat(OrDefault(priceAnswer, "0"))
  }

  /** The body `handleDetected` posts for the scanned `upc`, or `None` when the price is
      not above zero (a cancelled or empty price prompt reads as 0; text that is not a
      number reads as NaN). */
  function DetectedRequest(upc: string, nameAnswer: Option<string>, priceAnswer: Option<string>, storeAnswer: Option<string>): Option<NewItem>
  {
    var price := PromptedPrice(priceAnswer);
    var store := OrDefault(storeAnswer, UnknownStore);
    var name := NonEmpty(OrDefault(nameAnswer, ""));
    if Greater(price, 0.0) then
      Some(NewItem(
        upc := upc,
        name := name,
        category := None,
        purchasePrice := price,
        store := store,
        quantity := Finite(1.0),
        notes := None,
        nutrition := None,
        image := None))
    else
      None
  }

  /** An item is posted exactly when the prompted price is above zero; it carries the
      scanned UPC, that price, quantity 1, a store (the answer, or "Unknown Store"),
      and a name only when one was typed. */
  lemma {:induction false} DetectedRequestFields(upc: string, nameAnswer: Option<string>, priceAnswer: Option<string>, storeAnswer: Option<string>)
    ensures var r := DetectedRequest(upc, nameAnswer, priceAnswer, storeAnswer);
      && (r.Some? <==> Greater(PromptedPrice(priceAnswer), 0.0))
      && (r.Some? ==>
            && r.value.upc == upc
            && r.value.purchasePrice == PromptedPrice(priceAnswer)
            && r.value.purchasePrice.value > 0.0
            && r.value.quantity == Finite(1.0)
            && r.value.store != ""
            && (r.value.store != UnknownStore ==> storeAnswer == Some(r.value.store))
            && (r.value.name.None? <==> nameAnswer.None? || nameAnswer.value == "")
            && (r.value.name.Some? ==> nameAnswer == r.value.name)
            && r.value.category.None? && r.value.notes.None?
            && r.value.nutrition.None? && r.value.image.None?)
  {
  }

  /** A cancelled or empty price prompt never adds an item. */
  lemma {:induction false} NoPriceNoItem(upc: string, nameAnswer: Option<string>, priceAnswer: Option<string>, storeAnswer: Option<string>)
    requires priceAnswer.None? || priceAnswer.value == ""
    ensures DetectedRequest(upc, nameAnswer, priceAnswer, storeAnswer).None?
  {
    assert OrDefault(priceAnswer, "0") == NatToString(0);
    ParseFloatOfNatToString(0);
  }

  /** A whole-number price adds the item exactly when it is not 0, at that price. */
  lemma {:induction false} WholePriceItem(upc: string, nameAnswer: Option<string>, n: nat, storeAnswer: Option<string>)
    ensures DetectedRequest(upc, nameAnswer, Some(NatToString(n)), storeAnswer).Some? <==> n > 0
    ensures n > 0 ==> DetectedRequest(upc, nameAnswer, Some(NatToString(n)), storeAnswer).value.purchasePrice == Finite(n as real)
  {
    assert OrDefault(Some(NatToString(n)), "0") == NatToString(n);
    ParseFloatOfNatToString(n);
  }

  class Shell {
    var refreshKey: bool
    var showScanner: bool
    var posts: seq<NewItem>

    constructor ()
      ensures !refreshKey && !showScanner && posts == []
    {
      refreshKey := false;
      showScanner := false;
      posts := [];
    }

    /** `triggerRefresh`: flips the key every data component watches. */
    method TriggerRefresh()
      modifies this
      ensures refreshKey == !old(refreshKey)
      ensures showScanner == old(showScanner) && posts == old(posts)
    {
      refreshKey := !refreshKey;
    }

    /** The "Scan Barcode" / "Stop Scanning" button. */
    method ToggleScanner()
      modifies this
      ensures showScanner == !old(showScanner)
      ensures refreshKey == old(refreshKey) && posts == old(posts)
    {
      showScanner := !showScanner;
    }

    /** `handleDetected(upc)` with the three prompt answers; `postOk` says whether
        `POST /inventory` succeeded. Only a successful post refreshes and hides the
        scanner. */
    method HandleDetected(upc: string, nameAnswer: Option<string>, priceAnswer: Option<string>, storeAnswer: Option<string>, postOk: bool)
      modifies this
      ensures DetectedRequest(upc, nameAnswer, priceAnswer, storeAnswer).None? ==>
        posts == old(posts) && refreshKey == old(refreshKey) && showScanner == old(showScanner)
      ensures DetectedRequest(upc, nameAnswer, priceAnswer, storeAnswer).Some? ==>
        posts == old(posts) + [DetectedRequest(upc, nameAnswer, priceAnswer, storeAnswer).value]
      ensures DetectedRequest(upc, nameAnswer, priceAnswer, storeAnswer).Some? && postOk ==>
        refreshKey == !old(refreshKey) && !showScanner
      ensures DetectedRequest(upc, nameAnswer, priceAnswer, storeAnswer).Some? && !postOk ==>
        refreshKey == old(refreshKey) && showScanner == old(showScanner)
    {
      var request := DetectedRequest(upc, nameAnswer, priceAnswer, storeAnswer);
      if request.None? {
        return;
      }
      posts := posts + [request.value];
      if postOk {
        refreshKey := !refreshKey;
        showScanner := false;
      }
    }
  }
}
