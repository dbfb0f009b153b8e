/** The Reports page (src/pages/Reports.tsx): column totals over the monthly
    rows, the overall profit margin, the growth of the last month over the
    one before, and a profit bar per month. */
module Reports {
  import opened Collections
  import Percent

  /** One month of the report. `profit` is stored, not derived. */
  datatype MonthRow = MonthRow(month: string, income: int, expenses: int, profit: int)

  /** The three figure columns of a row. */
  datatype Column = IncomeColumn | ExpensesColumn | ProfitColumn

  function Value(row: MonthRow, col: Column): int
  {
    match col
    case IncomeColumn => row.income
    case ExpensesColumn => row.expenses
    case ProfitColumn => row.profit
  }

  function ColumnOf(col: Column): MonthRow -> int
  {
    row => Value(row, col)
  }

  /** `totalIncome`, `totalExpenses` and `totalProfit`: a column summed over
      every month. */
  function Total(rows: seq<MonthRow>, col: Column): int
  {
    SumOf(ColumnOf(col), rows)
  }

  /** The six months the page reports on. */
  const MonthlyData: seq<MonthRow> := [
    MonthRow("Jan", 125000, 83000, 42000),
    MonthRow("Feb", 118000, 79000, 39000),
    MonthRow("Mar", 132000, 85000, 47000),
    MonthRow("Apr", 145000, 92000, 53000),
    MonthRow("May", 138000, 88000, 50000),
    MonthRow("Jun", 156000, 95000, 61000)
  ]

  /** A column's total does not depend on the order of the months, and
      adding a month adds its figure. */
  lemma TotalProperties(rows: seq<MonthRow>, more: seq<MonthRow>, col: Column)
    ensures Total(rows + more, col) == Total(rows, col) + Total(more, col)
    ensures multiset(rows) == multiset(more) ==> Total(rows, col) == Total(more, col)
  {
    SumOfConcat(ColumnOf(col), rows, more);
    if multiset(rows) == multiset(more) {
      SumOfPermutation(ColumnOf(col), rows, more);
    }
  }

  /** When every row's profit is its income less its expenses, the profit
      total is the income total less the expenses total. */
  lemma {:induction false} ConsistentRowsGiveConsistentTotals(rows: seq<MonthRow>)
    requires forall i :: 0 <= i < |rows| ==> rows[i].profit == rows[i].income - rows[i].expenses
    ensures Total(rows, ProfitColumn) == Total(rows, IncomeColumn) - Total(rows, ExpensesColumn)
  {
    if rows != [] {
      ConsistentRowsGiveConsistentTotals(rows[1..]);
    }
  }

  /** The page's own months are consistent, so its totals are too. */
  lemma MonthlyDataTotals()
    ensures Total(MonthlyData, IncomeColumn) == 814000
    ensures Total(MonthlyData, ExpensesColumn) == 522000
    ensures Total(MonthlyData, ProfitColumn) == 292000
  {
    ConsistentRowsGiveConsistentTotals(MonthlyData);
  }

  /** `profitMargin`: the profit total as a percentage of the income total. */
  function ProfitMargin(rows: seq<MonthRow>): (r: real)
    requires Total(rows, IncomeColumn) != 0
    ensures r * Total(rows, IncomeColumn) as real == Total(rows, ProfitColumn) as real * 100.0
  {
    Percent.Ratio(Total(rows, ProfitColumn), Total(rows, IncomeColumn))
  }

  /** The second-to-last and the last month. */
  function PreviousMonth(rows: seq<MonthRow>): MonthRow
    requires |rows| >= 2
  {
    rows[|rows| - 2]
  }

  function CurrentMonth(rows: seq<MonthRow>): MonthRow
    requires |rows| >= 2
  {
    rows[|rows| - 1]
  }

  /** `incomeGrowth`, `expenseGrowth` and `profitGrowth`: the change from the
      previous month to the last one, as a percentage of the previous
      month's figure. For a positive previous figure it is positive exactly
      when the figure rose and zero exactly when it stayed the same. */
  function Growth(rows: seq<MonthRow>, col: Column): (r: real)
    requires |rows| >= 2 && Value(PreviousMonth(rows), col) != 0
    ensures var prev := Value(PreviousMonth(rows), col);
            var cur := Value(CurrentMonth(rows), col);
            && r * prev as real == (cur - prev) as real * 100.0
            && (prev > 0 ==> (r > 0.0 <==> cur > prev) && (r == 0.0 <==> cur == prev))
  {
    var prev := Value(PreviousMonth(rows), col);
    var cur := Value(CurrentMonth(rows), col);
    if prev > 0 then
      Percent.RatioOrder(cur - prev, prev);
      Percent.Ratio(cur - prev, prev)
    else
      Percent.Ratio(cur - prev, prev)
  }

  /** Growth reads only the last two months: earlier months never matter. */
  lemma GrowthIgnoresEarlierMonths(earlier: seq<MonthRow>, rows: seq<MonthRow>, col: Column)
    requires |rows| >= 2 && Value(PreviousMonth(rows), col) != 0
    ensures Growth(earlier + rows, col) == Growth(rows, col)
  {
    assert PreviousMonth(earlier + rows) == PreviousMonth(rows);
    assert CurrentMonth(earlier + rows) == CurrentMonth(rows);
  }

  /** A month's bar: its profit as a percentage of its income, uncapped. */
  function MonthBar(row: MonthRow): (r: real)
    requires row.income != 0
    ensures r * row.income as real == row.profit as real * 100.0
  {
    Percent.Ratio(row.profit, row.income)
  }
}
