/** The budget card (frontend/src/components/SpendingAnalysis.js): the progress bar, the
    three-band status and the AI analysis button. The answers of `GET /budget` and
    `GET /spending-analysis` are parameters. */
module SpendingAnalysis {
  import opened Wrappers
  import opened JsValues

  const FailedAnalysisMessage := "Failed to load spending analysis. Please try again."

  /** `budgetData`: each key may be missing from the answer (`None`). */
  datatype BudgetData = BudgetData(monthlyBudget: Option<real>, spentThisMonth: Option<real>)

  const NoBudgetData := BudgetData(None, None)

  /** `getProgressPercentage`: 0 without a budget; otherwise the share spent, in percent,
      capped at 100. A missing spent amount divides `undefined` and gives NaN. */
  function ProgressPercentage(d: BudgetData): (r: Number)
    ensures d.monthlyBudget.None? || d.monthlyBudget.value == 0.0 ==> r == Finite(0.0)
    ensures r == NaN <==> d.monthlyBudget.Some? && d.monthlyBudget.value != 0.0 && d.spentThisMonth.None?
    ensures r.Finite? ==> r.value <= 100.0
    ensures d.monthlyBudget.Some? && d.monthlyBudget.value > 0.0 && d.spentThisMonth.Some? ==>
      var (b, s) := (d.monthlyBudget.value, d.spentThisMonth.value);
      && (r.value == 100.0 <==> s >= b)
      && (s >= 0.0 ==> r.value >= 0.0)
  {
    if d.monthlyBudget.None? || d.monthlyBudget.value == 0.0 then Finite(0.0)
    else if d.spentThisMonth.None? then NaN
    else
      var (b, s) := (d.monthlyBudget.value, d.spentThisMonth.value);
      var share := s / b * 100.0;
      assert b > 0.0 ==> (share >= 100.0 <==> s >= b) && (s >= 0.0 ==> share >= 0.0) by {
        if b > 0.0 {
          PercentOfPositive(s, b);
        }
      }
      Finite(if share < 100.0 then share else 100.0)
  }

  /** For a positive budget, the share spent compares with a percentage as the spent
      amount compares with that part of the budget. */
  lemma PercentOfPositive(s: real, b: real)
    requires b > 0.0
    ensures s / b * 100.0 * b == s * 100.0
    ensures s / b * 100.0 >= 100.0 <==> s >= b
    ensures s >= 0.0 ==> s / b * 100.0 >= 0.0
  {
    var f := s / b;
    assert f * b == s;
  }

  datatype BudgetStatus = OverBudget | CloseToLimit | OnTrack

  function Color(s: BudgetStatus): string {
    match s
    case OverBudget => "#dc3545"
    case CloseToLimit => "#ffc107"
    case OnTrack => "#28a745"
  }

  function Label(s: BudgetStatus): string {
    match s
    case OverBudget => "Over Budget!"
    case CloseToLimit => "Close to Limit"
    case OnTrack => "On Track"
  }

  /** `getBudgetStatus` */
  function GetBudgetStatus(d: BudgetData): BudgetStatus {
    var p := ProgressPercentage(d);
    if Greater(p, 90.0) then OverBudget
    else if Greater(p, 75.0) then CloseToLimit
    else OnTrack
  }

  /** The three bands in terms of money: above 90 % of a positive budget is over budget,
      above 75 % is close to the limit, the rest is on track. */
  lemma {:induction false} BudgetStatusBands(b: real, s: real)
    requires b > 0.0
    ensures GetBudgetStatus(BudgetData(Some(b), Some(s))) == OverBudget <==> s * 100.0 > b * 90.0
    ensures GetBudgetStatus(BudgetData(Some(b), Some(s))) == CloseToLimit <==> b * 75.0 < s * 100.0 <= b * 90.0
    ensures GetBudgetStatus(BudgetData(Some(b), Some(s))) == OnTrack <==> s * 100.0 <= b * 75.0
  {
    ShareAbove(s, b, 90.0);
    ShareAbove(s, b, 75.0);
  }

  /** The capped share is above a percentage below 100 exactly when the spent amount is
      above that part of the budget. */
  lemma ShareAbove(s: real, b: real, pct: real)
    requires b > 0.0 && pct < 100.0
    ensures Greater(ProgressPercentage(BudgetData(Some(b), Some(s))), pct) <==> s * 100.0 > b * pct
  {
    var share := s / b * 100.0;
    PercentOfPositive(s, b);
    assert share > pct <==> share * b > pct * b by {
      if share > pct {
        assert (share - pct) * b > 0.0;
      }
      if share * b > pct * b {
        assert (share - pct) * b > 0.0;
      }
    }
  }

  /** Without a budget the card is on track; and when the answer carries the budget but
      not the spent amount (which is what `GET /budget` of the back end answers), the
      progress is NaN and the card shows "On Track" whatever was spent. */
  lemma {:induction false} MissingAmountsOnTrack(b: Option<real>)
    ensures GetBudgetStatus(BudgetData(b, None)) == OnTrack
    ensures b.Some? && b.value != 0.0 ==> ProgressPercentage(BudgetData(b, None)) == NaN
  {
  }

  class Card {
    var budgetData: BudgetData
    var analysis: string
    var loading: bool

    constructor ()
      ensures budgetData == NoBudgetData && analysis == "" && !loading
    {
      budgetData := NoBudgetData;
      analysis := "";
      loading := false;
    }

    /** `fetchBudgetData`; `answer` is `None` when the request failed, which keeps the
        previous data. */
    method FetchBudgetData(answer: Option<BudgetData>)
      modifies this
      ensures budgetData == answer.GetOr(old(budgetData))
      ensures analysis == old(analysis) && loading == old(loading)
    {
      if answer.Some? {
        budgetData := answer.value;
      }
    }

    /** `fetchAnalysis`; `answer` is the analysis text, `None` when the request failed.
        Loading is over either way. */
    method FetchAnalysis(answer: Option<string>)
      modifies this
      ensures analysis == answer.GetOr(FailedAnalysisMessage)
      ensures !loading && budgetData == old(budgetData)
    {
      loading := true;
      if answer.Some? {
        analysis := answer.value;
      } else {
        analysis := FailedAnalysisMessage;
      }
      loading := false;
    }
  }
}
