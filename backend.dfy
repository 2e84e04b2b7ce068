/** The back end's in-memory pantry and budget store (backend/main.py): the module-level
    `inventory` list and `budget_state` dict, and the endpoints that read and change them.
    Request bodies and query parameters arrive already parsed; FastAPI's validation of
    the pydantic field constraints is modelled as a 422 answer. The Open Food Facts lookup
    and the clock are parameters. */
module Backend {
  import opened Wrappers

  /** Seconds since the epoch, UTC. */
  type Timestamp = int

  const SecondsPerDay: int := 86400
  /** `add_inventory` stamps every item to expire 180 days after it is added. */
  const ShelfLifeDays: int := 180

  /** A value of a `nutrition` dictionary: a number, or any other JSON value (an Open
      Food Facts unit such as "kcal", say) that `float` validation refuses. */
  datatype Nutriment = Amount(value: real) | NotAFloat

  datatype InventoryItem = InventoryItem(
    upc: string,
    name: Option<string>,
    purchasePrice: Option<real>,
    store: Option<string>,
    quantity: int,
    expiry: Option<Timestamp>,
    nutrition: map<string, Nutriment>)

  /** `quantity: int = Field(1, ge=1)` */
  predicate ValidItem(item: InventoryItem) {
    item.quantity >= 1
  }

  /** `nutrition: Dict[str, float]`: every value is a number. */
  predicate NumericNutrition(item: InventoryItem) {
    forall k :: k in item.nutrition ==> item.nutrition[k].Amount?
  }

  /** What the request body must satisfy to reach `add_inventory` at all. */
  predicate ValidBody(item: InventoryItem) {
    ValidItem(item) && NumericNutrition(item)
  }

  /** What `response_model` validation needs to serialise a list of items. */
  predicate Serialisable(items: seq<InventoryItem>) {
    forall i :: 0 <= i < |items| ==> NumericNutrition(items[i])
  }

  datatype MealPlanRequest = MealPlanRequest(days: int, members: int)

  datatype HttpError = HttpError(status: int, detail: string)

  /** An endpoint's answer: its JSON body, or an `HTTPException`. */
  datatype Response<T> = Ok(value: T) | Fail(error: HttpError)

  /** FastAPI's answer to a body or query parameter that breaks a field constraint. */
  const ValidationFailed := HttpError(422, "Unprocessable Entity")
  const ProductNotFound := HttpError(404, "Product not found")
  const NothingToRemove := HttpError(404, "No such item to remove")
  const UnknownProduct := "Unknown product"
  /** The answer to an exception the endpoint does not catch, or to a response that does
      not validate against `response_model`. */
  const InternalError := HttpError(500, "Internal Server Error")

  /** The `product_name` key of a product: missing, JSON null, or a string. */
  datatype NameField = Absent | Null | Text(s: string)

  /** The `product` object of an Open Food Facts answer (`{}` when the answer has none):
      its `product_name`, its `nutriments`, and whether it holds any other key. */
  datatype Product = Product(productName: NameField, nutriments: Option<map<string, Nutriment>>, otherKeys: bool)

  /** The Open Food Facts request: its `product` object, or a failure (a connection error,
      the 10-second time-out, a body that is not JSON) that raises out of the endpoint. */
  datatype Lookup = Answered(product: Product) | LookupFailed

  /** `not data`: the product object has no key at all. */
  predicate IsEmptyProduct(p: Product) {
    p.productName.Absent? && p.nutriments.None? && !p.otherKeys
  }

  // ---------------------------------------------------------------- validation

  /** `Budget.monthly_budget = Field(..., gt=0)` */
  function CheckBudget(b: real): (r: Response<real>)
    ensures r.Ok? <==> b > 0.0
    ensures r.Ok? ==> r.value == b
    ensures r.Fail? ==> r.error == ValidationFailed
  {
    if b > 0.0 then Ok(b) else Fail(ValidationFailed)
  }

  /** `MealPlanRequest`: `days` in 1..14 and `members` at least 1. */
  function CheckMealPlanRequest(req: MealPlanRequest): (r: Response<MealPlanRequest>)
    ensures r.Ok? <==> 1 <= req.days <= 14 && 1 <= req.members
    ensures r.Ok? ==> r.value == req
    ensures r.Fail? ==> r.error == ValidationFailed
  {
    if 0 < req.days <= 14 && 0 < req.members then Ok(req) else Fail(ValidationFailed)
  }

  // ---------------------------------------------------------------- add_inventory

  /** `data.get("product_name", item.name) or "Unknown product"`. */
  function StoredName(p: Product, clientName: Option<string>): (r: string)
    ensures r != ""
    ensures p.productName.Text? && p.productName.s != "" ==> r == p.productName.s
    ensures p.productName.Absent? && clientName.Some? && clientName.value != "" ==> r == clientName.value
    ensures r == UnknownProduct || p.productName == Text(r) || (p.productName.Absent? && clientName == Some(r))
  {
    var candidate := match p.productName
      case Absent => clientName
      case Null => None
      case Text(s) => Some(s);
    if candidate.Some? && candidate.value != "" then candidate.value else UnknownProduct
  }

  /** The item `add_inventory` stores for a non-empty product, looked up at time `now`. */
  function StoredItem(item: InventoryItem, p: Product, now: Timestamp): (r: InventoryItem)
    ensures r.upc == item.upc && r.purchasePrice == item.purchasePrice
    ensures r.store == item.store && r.quantity == item.quantity
    ensures r.name.Some? && r.name.value != ""
    ensures r.nutrition == if p.nutriments.Some? then p.nutriments.value else map[]
    ensures r.expiry == Some(now + ShelfLifeDays * SecondsPerDay)
  {
    item.(name := Some(StoredName(p, item.name)),
          nutrition := p.nutriments.GetOr(map[]),
          expiry := Some(now + ShelfLifeDays * SecondsPerDay))
  }

  // ---------------------------------------------------------------- remove_inventory

  /** The items whose UPC is `upc`, in list order. */
  function Matching(items: seq<InventoryItem>, upc: string): (r: seq<InventoryItem>)
    ensures forall x :: x in r ==> x.upc == upc
  {
    if items == [] then []
    else
      var last := items[|items| - 1];
      Matching(items[..|items| - 1], upc) + (if last.upc == upc then [last] else [])
  }

  /** The items whose UPC is not `upc`, in list order. */
  function Others(items: seq<InventoryItem>, upc: string): (r: seq<InventoryItem>)
    ensures forall x :: x in r ==> x.upc != upc
  {
    if items == [] then []
    else
      var last := items[|items| - 1];
      Others(items[..|items| - 1], upc) + (if last.upc != upc then [last] else [])
  }

  /** The two filters split the list: together they hold every item exactly once. */
  lemma {:induction false} MatchingOthersPartition(items: seq<InventoryItem>, upc: string)
    ensures multiset(Matching(items, upc)) + multiset(Others(items, upc)) == multiset(items)
  {
    if items != [] {
      var prefix := items[..|items| - 1];
      MatchingOthersPartition(prefix, upc);
      assert items == prefix + [items[|items| - 1]];
    }
  }

  function Min(a: int, b: int): int {
    if a <= b then a else b
  }

  /** The pass of `remove_inventory` over the list, one item at a time: the items kept so
      far (`new_list`) and the number of matching items skipped (`removed`). */
  function Scan(items: seq<InventoryItem>, upc: string, quantity: int): (seq<InventoryItem>, nat)
  {
    if items == [] then ([], 0)
    else
      var (kept, removed) := Scan(items[..|items| - 1], upc, quantity);
      var item := items[|items| - 1];
      if item.upc == upc && removed < quantity then (kept, removed + 1) else (kept + [item], removed)
  }

  /** Reference definition: the list without its first `n` items whose UPC is `upc`. */
  function DropFirstMatches(items: seq<InventoryItem>, upc: string, n: int): seq<InventoryItem>
  {
    if items == [] then []
    else if items[0].upc == upc && n > 0 then DropFirstMatches(items[1..], upc, n - 1)
    else [items[0]] + DropFirstMatches(items[1..], upc, n)
  }

  /** The pass removes min(quantity, number of matches) items. */
  lemma {:induction false} ScanRemovedCount(items: seq<InventoryItem>, upc: string, quantity: int)
    requires quantity >= 0
    ensures Scan(items, upc, quantity).1 == Min(quantity, |Matching(items, upc)|)
  {
    if items != [] {
      ScanRemovedCount(items[..|items| - 1], upc, quantity);
    }
  }

  /** Every item with another UPC is kept, in its original relative order. */
  lemma {:induction false} ScanKeepsOthers(items: seq<InventoryItem>, upc: string, quantity: int)
    ensures Others(Scan(items, upc, quantity).0, upc) == Others(items, upc)
  {
    if items != [] {
      var prefix := items[..|items| - 1];
      var item := items[|items| - 1];
      var (kept, removed) := Scan(prefix, upc, quantity);
      ScanKeepsOthers(prefix, upc, quantity);
      if !(item.upc == upc && removed < quantity) {
        assert (kept + [item])[..|kept|] == kept;
      }
    }
  }

  /** The matches that are removed are the earliest ones: the kept matches are exactly
      the matches after the first `removed`. */
  lemma {:induction false} ScanKeepsLaterMatches(items: seq<InventoryItem>, upc: string, quantity: int)
    requires quantity >= 0
    ensures var (kept, removed) := Scan(items, upc, quantity);
      removed <= |Matching(items, upc)| && Matching(kept, upc) == Matching(items, upc)[removed..]
  {
    if items != [] {
      var prefix := items[..|items| - 1];
      var item := items[|items| - 1];
      var (kept, removed) := Scan(prefix, upc, quantity);
      ScanKeepsLaterMatches(prefix, upc, quantity);
      ScanRemovedCount(prefix, upc, quantity);
      if item.upc == upc && removed < quantity {
        assert removed == |Matching(prefix, upc)|;
      } else {
        assert (kept + [item])[..|kept|] == kept;
        if item.upc == upc {
          assert Matching(items, upc) == Matching(prefix, upc) + [item];
        }
      }
    }
  }

  /** Every kept item comes from the list, and each item is either kept or removed. */
  lemma {:induction false} ScanIsSubList(items: seq<InventoryItem>, upc: string, quantity: int)
    ensures var (kept, removed) := Scan(items, upc, quantity);
      |kept| + removed == |items| && multiset(kept) <= multiset(items)
  {
    if items != [] {
      var prefix := items[..|items| - 1];
      ScanIsSubList(prefix, upc, quantity);
      assert items == prefix + [items[|items| - 1]];
    }
  }

  /** Looking at the first item instead of the last: the pass over `[x] + s` either
      removes `x` and then removes one fewer from `s`, or keeps `x` in front. */
  lemma {:induction false} ScanCons(x: InventoryItem, s: seq<InventoryItem>, upc: string, quantity: int)
    ensures x.upc == upc && quantity > 0 ==>
      Scan([x] + s, upc, quantity) == (Scan(s, upc, quantity - 1).0, Scan(s, upc, quantity - 1).1 + 1)
    ensures !(x.upc == upc && quantity > 0) ==>
      Scan([x] + s, upc, quantity) == ([x] + Scan(s, upc, quantity).0, Scan(s, upc, quantity).1)
  {
    if s == [] {
      assert [x] + s == [x] && [x][..0] == [];
      assert Scan([x], upc, quantity).0 == if x.upc == upc && quantity > 0 then [] else [x];
    } else {
      var s' := s[..|s| - 1];
      assert ([x] + s)[..|s|] == [x] + s';
      assert s == s' + [s[|s| - 1]];
      ScanCons(x, s', upc, quantity);
      if !(x.upc == upc && quantity > 0) {
        var (kept, removed) := Scan(s', upc, quantity);
        assert [x] + (kept + [s[|s| - 1]]) == ([x] + kept) + [s[|s| - 1]];
      }
    }
  }

  /** The pass agrees with the reference definition. */
  lemma {:induction false} ScanIsDropFirstMatches(items: seq<InventoryItem>, upc: string, quantity: int)
    ensures Scan(items, upc, quantity).0 == DropFirstMatches(items, upc, quantity)
  {
    if items != [] {
      assert items == [items[0]] + items[1..];
      ScanCons(items[0], items[1..], upc, quantity);
      if items[0].upc == upc && quantity > 0 {
        ScanIsDropFirstMatches(items[1..], upc, quantity - 1);
      } else {
        ScanIsDropFirstMatches(items[1..], upc, quantity);
      }
    }
  }

  // ---------------------------------------------------------------- the store

  /** The module-level `inventory` list and `budget_state["monthly_budget"]`. */
  class PantryStore {
    var inventory: seq<InventoryItem>
    var monthlyBudget: real

    ghost predicate Valid()
      reads this
    {
      && monthlyBudget >= 0.0
      && forall i :: 0 <= i < |inventory| ==> ValidItem(inventory[i])
    }

    /** The state at start-up: an empty pantry and a budget of 0.0. */
    constructor ()
      ensures Valid() && inventory == [] && monthlyBudget == 0.0
    {
      inventory := [];
      monthlyBudget := 0.0;
    }

    /** `POST /budget` */
    method SetBudget(b: real) returns (r: Response<real>)
      requires Valid()
      modifies this
      ensures Valid() && inventory == old(inventory)
      ensures r == CheckBudget(b)
      ensures monthlyBudget == if b > 0.0 then b else old(monthlyBudget)
    {
      r := CheckBudget(b);
      if r.Ok? {
        monthlyBudget := b;
      }
    }

    /** `GET /budget` */
    method GetBudget() returns (b: real)
      requires Valid()
      ensures b == monthlyBudget && b >= 0.0
    {
      b := monthlyBudget;
    }

    /** `POST /inventory`, with the Open Food Facts `product` object and the current time
        given. */
    /** `POST /inventory`, with the answer of the Open Food Facts request and the current
        time given. The stored item is appended before `response_model` validates it, so
        an item whose nutriments are not all numbers is kept although the answer is 500. */
    method AddInventory(item: InventoryItem, lookup: Lookup, now: Timestamp) returns (r: Response<InventoryItem>)
      requires Valid()
      modifies this
      ensures Valid() && monthlyBudget == old(monthlyBudget)
      ensures !ValidBody(item) ==> r == Fail(ValidationFailed) && inventory == old(inventory)
      ensures ValidBody(item) && lookup.LookupFailed? ==> r == Fail(InternalError) && inventory == old(inventory)
      ensures ValidBody(item) && lookup.Answered? && IsEmptyProduct(lookup.product) ==>
        r == Fail(ProductNotFound) && inventory == old(inventory)
      ensures ValidBody(item) && lookup.Answered? && !IsEmptyProduct(lookup.product) ==>
        && inventory == old(inventory) + [StoredItem(item, lookup.product, now)]
        && (NumericNutrition(StoredItem(item, lookup.product, now)) ==> r == Ok(StoredItem(item, lookup.product, now)))
        && (!NumericNutrition(StoredItem(item, lookup.product, now)) ==> r == Fail(InternalError))
    {
      if !ValidBody(item) {
        return Fail(ValidationFailed);
      }
      if lookup.LookupFailed? {
        return Fail(InternalError);
      }
      if IsEmptyProduct(lookup.product) {
        return Fail(ProductNotFound);
      }
      var stored := StoredItem(item, lookup.product, now);
      inventory := inventory + [stored];
      if NumericNutrition(stored) {
        r := Ok(stored);
      } else {
        r := Fail(InternalError);
      }
    }

    /** `GET /inventory`: the list, unless one stored item fails `response_model`
        validation, in which case every listing answers 500. */
    method ListInventory() returns (r: Response<seq<InventoryItem>>)
      requires Valid()
      ensures r.Ok? <==> Serialisable(inventory)
      ensures r.Ok? ==> r.value == inventory && forall i :: 0 <= i < |r.value| ==> ValidItem(r.value[i])
      ensures r.Fail? ==> r.error == InternalError
    {
      if Serialisable(inventory) {
        r := Ok(inventory);
      } else {
        r := Fail(InternalError);
      }
    }

    /** `DELETE /inventory/{upc}?quantity=n`: removes up to `quantity` items with that UPC,
        earliest first, and answers how many it removed; 404 and no change when none
        matches. */
    method RemoveInventory(upc: string, quantity: int) returns (r: Response<nat>)
      requires Valid()
      modifies this
      ensures Valid() && monthlyBudget == old(monthlyBudget)
      ensures quantity < 1 ==> r == Fail(ValidationFailed) && inventory == old(inventory)
      ensures quantity >= 1 && Matching(old(inventory), upc) == [] ==>
        r == Fail(NothingToRemove) && inventory == old(inventory)
      ensures quantity >= 1 && Matching(old(inventory), upc) != [] ==>
        && r == Ok(Min(quantity, |Matching(old(inventory), upc)|))
        && inventory == DropFirstMatches(old(inventory), upc, quantity)
        && Others(inventory, upc) == Others(old(inventory), upc)
        && Matching(inventory, upc) == Matching(old(inventory), upc)[r.value..]
    {
      if quantity < 1 {
        return Fail(ValidationFailed);
      }
      var removed: nat := 0;
      var newList: seq<InventoryItem> := [];
      for i := 0 to |inventory|
        invariant (newList, removed) == Scan(inventory[..i], upc, quantity)
      {
        var item := inventory[i];
        assert inventory[..i + 1][..i] == inventory[..i];
        if item.upc == upc && removed < quantity {
          removed := removed + 1;
          continue;
        }
        newList := newList + [item];
      }
      assert inventory[..|inventory|] == inventory;
      ScanRemovedCount(inventory, upc, quantity);
      if removed == 0 {
        return Fail(NothingToRemove);
      }
      ScanIsDropFirstMatches(inventory, upc, quantity);
      ScanKeepsOthers(inventory, upc, quantity);
      ScanKeepsLaterMatches(inventory, upc, quantity);
      ScanIsSubList(inventory, upc, quantity);
      forall x | x in newList ensures ValidItem(x) {
        assert x in multiset(newList);
      }
      inventory := newList;
      r := Ok(removed);
    }

    /** `DELETE /inventory` */
    method ClearInventory() returns (cleared: bool)
      requires Valid()
      modifies this
      ensures Valid() && monthlyBudget == old(monthlyBudget)
      ensures inventory == [] && cleared
    {
      inventory := [];
      cleared := true;
    }
  }
}
