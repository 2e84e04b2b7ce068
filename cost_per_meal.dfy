/** The cost-per-meal card (frontend/src/components/CostPerMeal.js): the colour of the
    headline figure and the fetch behind it. The answer of `GET /cost-per-meal` is a
    parameter. */
module CostPerMeal {
  import opened Wrappers
  import opened JsValues

  const Green := "#28a745"
  const Yellow := "#ffc107"
  const Red := "#dc3545"

  /** `getCostColor(cost)`: under 3 is green, under 6 yellow, anything else (NaN
      included, since it is not below anything) red. */
  function CostColor(cost: Number): (r: string)
    ensures r == Green <==> cost.Finite? && cost.value < 3.0
    ensures r == Yellow <==> cost.Finite? && 3.0 <= cost.value < 6.0
    ensures r == Red <==> cost == NaN || cost.value >= 6.0
  {
    if Less(cost, 3.0) then Green
    else if Less(cost, 6.0) then Yellow
    else Red
  }

  /** How expensive a colour says a meal is. */
  function Level(color: string): nat {
    if color == Green then 0 else if color == Yellow then 1 else 2
  }

  /** A dearer meal never gets a cheaper colour. */
  lemma {:induction false} CostColorMonotone(c1: real, c2: real)
    requires c1 <= c2
    ensures Level(CostColor(Finite(c1))) <= Level(CostColor(Finite(c2)))
  {
    var (r1, r2) := (CostColor(Finite(c1)), CostColor(Finite(c2)));
    assert r1 == Green || r1 == Yellow || r1 == Red;
    assert r2 == Green || r2 == Yellow || r2 == Red;
  }

  /** The figures `GET /cost-per-meal` answers; only the cost is computed on here. */
  datatype MealData = MealData(costPerMeal: Number, estimatedMeals: Number, totalInventoryValue: Number, analysis: string)

  class Card {
    var mealData: Option<MealData>
    var loading: bool

    constructor ()
      ensures mealData == None && !loading
    {
      mealData := None;
      loading := false;
    }

    /** `fetchMealData`; `answer` is `None` when the request failed, which keeps what was
        shown. Loading is over either way. */
    method FetchMealData(answer: Option<MealData>)
      modifies this
      ensures mealData == if answer.Some? then answer else old(mealData)
      ensures !loading
    {
      loading := true;
      if answer.Some? {
        mealData := answer;
      }
      loading := false;
    }

    /** The headline colour, when there is data. */
    function HeadlineColor(): (r: Option<string>)
      reads this
      ensures r.Some? <==> mealData.Some?
      ensures r.Some? ==> r.value in {Green, Yellow, Red}
    {
      if mealData.Some? then Some(CostColor(mealData.value.costPerMeal)) else None
    }
  }
}
