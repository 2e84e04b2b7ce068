/** The item shapes the front-end sends and receives: the body of `POST /inventory`
    (and of the parent's `onFoodDetected`/`onSave` callbacks), and the result of the
    AI packaging analysis. */
module Items {
  import opened Wrappers
  import opened JsValues

  /** Nutrition facts, per nutrient name. */
  type Nutrition = map<string, real>

  /** A new pantry item as the components build it. `None` is a key that is left
      undefined (and so absent from the JSON body); NaN is what `parseFloat`/`parseInt`
      give for text that is not a number. */
  datatype NewItem = NewItem(
    upc: string,
    name: Option<string>,
    category: Option<string>,
    purchasePrice: Number,
    store: string,
    quantity: Number,
    notes: Option<string>,
    nutrition: Option<Nutrition>,
    image: Option<string>)

  /** What `POST /analyze-food` answers for a photo of a package: any key may be missing. */
  datatype ScannedFood = ScannedFood(
    name: Option<string>,
    category: Option<string>,
    upc: Option<string>,
    nutrition: Option<Nutrition>)

  /** The identifier given to an item that has no UPC: `food_${Date.now()}`. */
  function GeneratedUpc(now: nat): string {
    "food_" + NatToString(now)
  }

  /** The generated identifier is never empty, starts with "food_", and `parseInt` of
      the rest gives back the clock reading; so readings that differ give identifiers
      that differ. */
  lemma GeneratedUpcReadsBack(now: nat)
    ensures var r := GeneratedUpc(now);
      |r| > 5 && r[..5] == "food_" && ParseInt(r[5..]) == Finite(now as real)
  {
    var r := GeneratedUpc(now);
    assert r[5..] == NatToString(now);
    ParseIntOfNatToString(now);
  }
}
