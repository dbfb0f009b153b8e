/** The Budget Progress widget of the dashboard
    (src/components/Dashboard/Widgets.tsx): one capped bar per budget goal,
    flagged when the spending passes the budget. */
module Widgets {
  import Percent

  /** What one budget row shows: the bar value (also its "% used" label)
      and whether it is marked over budget, which also decides whether the
      "Over budget!" label appears. */
  datatype BudgetBar = BudgetBar(percentage: real, isOverBudget: bool)

  /** `percentage` is the spent share of the budget capped at 100;
      `isOverBudget` holds exactly when spending strictly exceeds the budget. */
  function BudgetProgress(spent: int, budget: int): (b: BudgetBar)
    requires budget != 0
    ensures b.percentage <= 100.0
    ensures b.isOverBudget <==> spent > budget
    ensures Percent.Ratio(spent, budget) <= 100.0 ==> b.percentage == Percent.Ratio(spent, budget)
  {
    BudgetBar(Percent.Cap(Percent.Ratio(spent, budget)), spent > budget)
  }

  /** For a positive budget: an over-budget row shows a full bar, a row
      within budget shows the raw share, and spending exactly the budget
      gives a full bar that is not flagged, so only the flag tells "on
      budget" from "over budget". */
  lemma BudgetBarFlags(spent: int, budget: int)
    requires budget > 0
    ensures BudgetProgress(spent, budget).isOverBudget ==> BudgetProgress(spent, budget).percentage == 100.0
    ensures spent <= budget ==>
      BudgetProgress(spent, budget).percentage * budget as real == spent as real * 100.0
    ensures spent == budget ==>
      BudgetProgress(spent, budget) == BudgetBar(100.0, false)
  {
    Percent.RatioOrder(spent, budget);
  }

  /** Two of the widget's rows: Food & Dining, 850 of 1000 spent, and
      Shopping, 450 of 300 spent. */
  lemma BudgetBarExamples()
    ensures BudgetProgress(850, 1000) == BudgetBar(85.0, false)
    ensures BudgetProgress(450, 300) == BudgetBar(100.0, true)
  {
    Percent.RatioOrder(450, 300);
  }
}
