/** The Budget page (src/pages/Budget.tsx): a period select narrows the
    budget entries; overview cards total the budgets, the spending and the
    earnings and count entries by status; each card shows a usage
    percentage and a progress bar. The `status` and `remaining` fields are
    stored data, not computed here. */
module Budget {
  import opened Collections
  import opened Kinds
  import Percent

  /** One budget line. Expense lines carry `spent` and income lines
      `earned`; the field a line lacks in the source is carried here but
      never read for that line's type. */
  datatype BudgetEntry = BudgetEntry(
    id: int,
    category: string,
    kind: string,
    budget: int,
    spent: int,
    earned: int,
    remaining: int,
    period: string,
    status: string)

  const ON_TRACK: string := "on-track"
  const EXCEEDED: string := "exceeded"
  const UNDER_BUDGET: string := "under-budget"

  /** The period selected when the page opens. */
  const InitialPeriod: string := "month"

  /** `filteredBudgets`: exactly the entries of the selected period, in
      their original order, each kept as often as it occurs. */
  function FilteredBudgets(bs: seq<BudgetEntry>, period: string): (r: seq<BudgetEntry>)
    ensures forall i :: 0 <= i < |r| ==> r[i] in bs && r[i].period == period
    ensures forall i :: 0 <= i < |bs| && bs[i].period == period ==> bs[i] in r
    ensures IsSubsequence(r, bs)
    ensures forall b :: multiset(r)[b] == if b.period == period then multiset(bs)[b] else 0
  {
    var keep := (b: BudgetEntry) => b.period == period;
    FilterIsSubsequence(keep, bs);
    forall b ensures multiset(Filter(keep, bs))[b] == if b.period == period then multiset(bs)[b] else 0 {
      FilterMultiplicity(keep, bs, b);
    }
    Filter(keep, bs)
  }

  predicate IsIncome(b: BudgetEntry)
  {
    b.kind == INCOME
  }

  predicate IsExpense(b: BudgetEntry)
  {
    b.kind == EXPENSE
  }

  function BudgetOf(b: BudgetEntry): int
  {
    b.budget
  }

  function SpentOf(b: BudgetEntry): int
  {
    b.spent
  }

  function EarnedOf(b: BudgetEntry): int
  {
    b.earned
  }

  predicate HasStatus(b: BudgetEntry, status: string)
  {
    b.status == status
  }

  /** The overview cards of the page. */
  datatype BudgetOverview = BudgetOverview(
    totalBudget: int,
    totalSpent: int,
    totalEarned: int,
    onTrack: nat,
    exceeded: nat,
    underBudget: nat)

  /** `totalBudget` sums every shown entry's budget whatever its type;
      `totalSpent` reads only expense entries and `totalEarned` only income
      entries; the three status counts split the shown entries by their
      stored status and together never exceed them. */
  function OverviewOf(bs: seq<BudgetEntry>, period: string): (o: BudgetOverview)
    ensures o.onTrack + o.exceeded + o.underBudget <= |FilteredBudgets(bs, period)|
  {
    var shown := FilteredBudgets(bs, period);
    var onTrack := (b: BudgetEntry) => HasStatus(b, ON_TRACK);
    var exceeded := (b: BudgetEntry) => HasStatus(b, EXCEEDED);
    var underBudget := (b: BudgetEntry) => HasStatus(b, UNDER_BUDGET);
    ExclusiveCountsBounded(onTrack, exceeded, underBudget, shown);
    BudgetOverview(
      SumOf(BudgetOf, shown),
      SumOf(SpentOf, Filter(IsExpense, shown)),
      SumOf(EarnedOf, Filter(IsIncome, shown)),
      Count(onTrack, shown),
      Count(exceeded, shown),
      Count(underBudget, shown))
  }

  /** When every shown entry is an income or an expense line, the total
      budget is the income lines' budget plus the expense lines' budget. */
  lemma TotalBudgetSplitsByType(bs: seq<BudgetEntry>, period: string)
    requires forall i :: 0 <= i < |bs| ==> IsIncome(bs[i]) || IsExpense(bs[i])
    ensures OverviewOf(bs, period).totalBudget
         == SumOf(BudgetOf, Filter(IsIncome, FilteredBudgets(bs, period)))
          + SumOf(BudgetOf, Filter(IsExpense, FilteredBudgets(bs, period)))
  {
    var shown := FilteredBudgets(bs, period);
    assert forall i :: 0 <= i < |shown| ==> shown[i] in bs;
    SumOfPartition(BudgetOf, IsIncome, IsExpense, shown);
  }

  /** Income lines never contribute to the total spent: removing every
      income line of the period leaves it unchanged. */
  lemma SpentIgnoresIncomeLines(bs: seq<BudgetEntry>, period: string)
    ensures OverviewOf(Filter((b: BudgetEntry) => !IsIncome(b), bs), period).totalSpent
         == OverviewOf(bs, period).totalSpent
  {
    var notIncome := (b: BudgetEntry) => !IsIncome(b);
    var keep := (b: BudgetEntry) => b.period == period;
    FilterCommute(keep, notIncome, bs);
    FilterCommute(IsExpense, notIncome, Filter(keep, bs));
    var expenses := Filter(IsExpense, Filter(keep, bs));
    assert forall i :: 0 <= i < |expenses| ==> IsExpense(expenses[i]);
    FilterKeepsAll(notIncome, expenses);
  }

  /** `totalEarned` reads income lines only: keeping just the income lines
      leaves it unchanged. */
  lemma EarnedIgnoresExpenseLines(bs: seq<BudgetEntry>, period: string)
    ensures OverviewOf(Filter(IsIncome, bs), period).totalEarned == OverviewOf(bs, period).totalEarned
  {
    var keep := (b: BudgetEntry) => b.period == period;
    FilterCommute(keep, IsIncome, bs);
    var income := Filter(IsIncome, Filter(keep, bs));
    assert forall i :: 0 <= i < |income| ==> IsIncome(income[i]);
    FilterKeepsAll(IsIncome, income);
  }

  /** The amount a card measures against its budget: `earned` for an
      income line and `spent` for every other line. */
  function CurrentAmount(b: BudgetEntry): int
  {
    if IsIncome(b) then b.earned else b.spent
  }

  /** A card's progress: the uncapped percentage in its label and the value
      of its bar. */
  datatype CardProgress = CardProgress(usage: real, bar: real)

  /** The label shows current / budget * 100 uncapped; the bar shows the
      same value capped at 100, equal to it up to 100. */
  function CardProgressOf(b: BudgetEntry): (p: CardProgress)
    requires b.budget != 0
    ensures p.usage * b.budget as real == CurrentAmount(b) as real * 100.0
    ensures p.bar <= 100.0
    ensures p.usage <= 100.0 ==> p.bar == p.usage
    ensures p.usage > 100.0 ==> p.bar == 100.0
  {
    var usage := Percent.Ratio(CurrentAmount(b), b.budget);
    CardProgress(usage, Percent.Cap(usage))
  }

  /** For a positive budget the bar is full exactly when the current amount
      reaches the budget, and the label exceeds 100 exactly when the amount
      goes past it. */
  lemma CardBarFullIffBudgetReached(b: BudgetEntry)
    requires b.budget > 0
    ensures CardProgressOf(b).bar == 100.0 <==> CurrentAmount(b) >= b.budget
    ensures CardProgressOf(b).usage > 100.0 <==> CurrentAmount(b) > b.budget
  {
    Percent.RatioOrder(CurrentAmount(b), b.budget);
  }

  /** The budget of the shown expense lines alone. */
  function ExpenseBudget(bs: seq<BudgetEntry>, period: string): int
  {
    SumOf(BudgetOf, Filter(IsExpense, FilteredBudgets(bs, period)))
  }

  /** The Total Spent card's "% of budget" as written: the total spent,
      which reads only expense lines, over the total budget, which also
      counts income lines. */
  function SpentShare(bs: seq<BudgetEntry>, period: string): (r: real)
    requires OverviewOf(bs, period).totalBudget != 0
    ensures r * OverviewOf(bs, period).totalBudget as real == OverviewOf(bs, period).totalSpent as real * 100.0
  {
    Percent.Ratio(OverviewOf(bs, period).totalSpent, OverviewOf(bs, period).totalBudget)
  }

  /** The share as evidently intended: the total spent as a percentage of
      the budget of the expense lines it was spent against. Against a
      positive expense budget it is 100 exactly when the spending equals
      that budget, and below 100 exactly when it stays under it. */
  function ExpenseSpentShare(bs: seq<BudgetEntry>, period: string): (r: real)
    requires ExpenseBudget(bs, period) != 0
    ensures r == Percent.Ratio(OverviewOf(bs, period).totalSpent, ExpenseBudget(bs, period))
    ensures ExpenseBudget(bs, period) > 0 ==>
      (r < 100.0 <==> OverviewOf(bs, period).totalSpent < ExpenseBudget(bs, period)) &&
      (r == 100.0 <==> OverviewOf(bs, period).totalSpent == ExpenseBudget(bs, period))
  {
    var spent := OverviewOf(bs, period).totalSpent;
    var expenseBudget := ExpenseBudget(bs, period);
    if expenseBudget > 0 then
      Percent.RatioOrder(spent, expenseBudget);
      Percent.Ratio(spent, expenseBudget)
    else
      Percent.Ratio(spent, expenseBudget)
  }

  /** As written, one shown income line with a positive budget makes the
      card understate the spending: the share falls strictly below the
      share of the expense budget actually spent. */
  lemma SpentShareUnderstatesSpending(bs: seq<BudgetEntry>, period: string, i: nat)
    requires forall j :: 0 <= j < |bs| ==> IsIncome(bs[j]) || IsExpense(bs[j])
    requires forall j :: 0 <= j < |bs| ==> bs[j].budget >= 0
    requires i < |bs| && bs[i].period == period && IsIncome(bs[i]) && bs[i].budget > 0
    requires ExpenseBudget(bs, period) > 0 && OverviewOf(bs, period).totalSpent > 0
    ensures OverviewOf(bs, period).totalBudget > ExpenseBudget(bs, period)
    ensures SpentShare(bs, period) < ExpenseSpentShare(bs, period)
  {
    var shown := FilteredBudgets(bs, period);
    var income := Filter(IsIncome, shown);
    TotalBudgetSplitsByType(bs, period);
    assert bs[i] in shown;
    assert bs[i] in income;
    var k :| 0 <= k < |income| && income[k] == bs[i];
    assert forall j :: 0 <= j < |income| ==> income[j] in bs;
    SumOfPositiveTerm(BudgetOf, income, k);
    Percent.LargerWholeSmallerRatio(
      OverviewOf(bs, period).totalSpent, ExpenseBudget(bs, period), OverviewOf(bs, period).totalBudget);
  }

  /** The intended share reads expense lines only: removing every income
      line changes neither the spending nor the budget it is measured
      against. */
  lemma ExpenseShareIgnoresIncomeLines(bs: seq<BudgetEntry>, period: string)
    ensures ExpenseBudget(Filter((b: BudgetEntry) => !IsIncome(b), bs), period) == ExpenseBudget(bs, period)
    ensures OverviewOf(Filter((b: BudgetEntry) => !IsIncome(b), bs), period).totalSpent
         == OverviewOf(bs, period).totalSpent
  {
    var notIncome := (b: BudgetEntry) => !IsIncome(b);
    var keep := (b: BudgetEntry) => b.period == period;
    FilterCommute(keep, notIncome, bs);
    FilterCommute(IsExpense, notIncome, Filter(keep, bs));
    var expenses := Filter(IsExpense, Filter(keep, bs));
    assert forall i :: 0 <= i < |expenses| ==> IsExpense(expenses[i]);
    FilterKeepsAll(notIncome, expenses);
    SpentIgnoresIncomeLines(bs, period);
  }

  /** The page's own expense lines; an expense line has no `earned`
      field, carried as 0. */
  const PageExpenses: seq<BudgetEntry> := [
    BudgetEntry(1, "Stock", EXPENSE, 350000, 320000, 0, 30000, "month", ON_TRACK),
    BudgetEntry(2, "Transport", EXPENSE, 100000, 96000, 0, 4000, "month", ON_TRACK),
    BudgetEntry(3, "Utilities", EXPENSE, 85000, 80000, 0, 5000, "month", ON_TRACK),
    BudgetEntry(4, "M-PESA Charges", EXPENSE, 70000, 64000, 0, 6000, "month", UNDER_BUDGET),
    BudgetEntry(5, "Rent", EXPENSE, 120000, 120000, 0, 0, "month", EXCEEDED)
  ]

  /** The page's own income lines; an income line has no `spent` field,
      carried as 0. */
  const PageIncome: seq<BudgetEntry> := [
    BudgetEntry(6, "Sales", INCOME, 500000, 0, 450000, 50000, "month", ON_TRACK),
    BudgetEntry(7, "Services", INCOME, 200000, 0, 180000, 20000, "month", ON_TRACK),
    BudgetEntry(8, "Investment", INCOME, 100000, 0, 120000, -20000, "month", EXCEEDED)
  ]

  /** The page's budget lines, in the page's order. */
  const PageBudgets: seq<BudgetEntry> := PageExpenses + PageIncome

  /** Every line of the page belongs to the opening period, which keeps
      them all. */
  lemma PageMonthKeepsAll()
    ensures FilteredBudgets(PageBudgets, InitialPeriod) == PageBudgets
  {
    assert forall i :: 0 <= i < |PageBudgets| ==> PageBudgets[i].period == InitialPeriod;
    FilterKeepsAll((b: BudgetEntry) => b.period == InitialPeriod, PageBudgets);
  }

  /** The page's expense lines are exactly its first five. */
  lemma PageExpenseLines()
    ensures Filter(IsExpense, PageBudgets) == PageExpenses
  {
    FilterConcat(IsExpense, PageExpenses, PageIncome);
    PageExpensesAreExpenses();
    PageIncomeHasNoExpense();
    assert PageExpenses + [] == PageExpenses;
  }

  /** Every one of the first five lines is an expense line. */
  lemma PageExpensesAreExpenses()
    ensures Filter(IsExpense, PageExpenses) == PageExpenses
  {
    assert forall i :: 0 <= i < |PageExpenses| ==> IsExpense(PageExpenses[i]);
    FilterKeepsAll(IsExpense, PageExpenses);
  }

  /** None of the last three lines is an expense line. */
  lemma PageIncomeHasNoExpense()
    ensures Filter(IsExpense, PageIncome) == []
  {
    assert forall i :: 0 <= i < |PageIncome| ==> !IsExpense(PageIncome[i]);
    FilterKeepsNone(IsExpense, PageIncome);
  }

  /** The page's budget and spending sums, line type by line type. */
  lemma PageSums()
    ensures SumOf(BudgetOf, PageExpenses) == 725000
    ensures SumOf(SpentOf, PageExpenses) == 680000
    ensures SumOf(BudgetOf, PageIncome) == 800000
  {
    assert SumOf(BudgetOf, PageExpenses[4..]) == 120000;
    assert SumOf(BudgetOf, PageExpenses[3..]) == 190000;
    assert SumOf(BudgetOf, PageExpenses[2..]) == 275000;
    assert SumOf(BudgetOf, PageExpenses[1..]) == 375000;
    assert SumOf(SpentOf, PageExpenses[4..]) == 120000;
    assert SumOf(SpentOf, PageExpenses[3..]) == 184000;
    assert SumOf(SpentOf, PageExpenses[2..]) == 264000;
    assert SumOf(SpentOf, PageExpenses[1..]) == 360000;
    assert SumOf(BudgetOf, PageIncome[2..]) == 100000;
    assert SumOf(BudgetOf, PageIncome[1..]) == 300000;
  }

  /** In the opening period the cards total a budget of 1525000 and a
      spending of 680000, while the expense lines' budget is 725000. */
  lemma PageMonthTotals()
    ensures OverviewOf(PageBudgets, InitialPeriod).totalBudget == 1525000
    ensures OverviewOf(PageBudgets, InitialPeriod).totalSpent == 680000
    ensures ExpenseBudget(PageBudgets, InitialPeriod) == 725000
  {
    PageMonthKeepsAll();
    PageExpenseLines();
    PageSums();
    SumOfConcat(BudgetOf, PageExpenses, PageIncome);
  }

  /** Every line of the page is an income or an expense line with a
      non-negative budget, and its sixth line is an income line with a
      positive budget. */
  lemma PageLinesWellFormed()
    ensures forall j :: 0 <= j < |PageBudgets| ==> IsIncome(PageBudgets[j]) || IsExpense(PageBudgets[j])
    ensures forall j :: 0 <= j < |PageBudgets| ==> PageBudgets[j].budget >= 0
    ensures PageBudgets[5].period == InitialPeriod && IsIncome(PageBudgets[5]) && PageBudgets[5].budget > 0
  {
  }

  /** So in the opening period the card shows 680000 / 1525000, about 44.6
      percent, where 680000 / 725000, about 93.8 percent, of the expense
      budget is spent. */
  lemma PageMonthShares()
    ensures OverviewOf(PageBudgets, InitialPeriod).totalBudget != 0 && ExpenseBudget(PageBudgets, InitialPeriod) != 0
    ensures SpentShare(PageBudgets, InitialPeriod) < ExpenseSpentShare(PageBudgets, InitialPeriod)
  {
    PageMonthTotals();
    PageLinesWellFormed();
    SpentShareUnderstatesSpending(PageBudgets, InitialPeriod, 5);
  }

  /** No line of the page belongs to the 'week' period, so there the card
      divides 0 by a total budget of 0. */
  lemma PageWeekHasNoBudget()
    ensures FilteredBudgets(PageBudgets, "week") == []
    ensures OverviewOf(PageBudgets, "week").totalBudget == 0
  {
    assert forall i :: 0 <= i < |PageBudgets| ==> PageBudgets[i].period == "month";
    FilterKeepsNone((b: BudgetEntry) => b.period == "week", PageBudgets);
  }
}
