/** The Categories page (src/pages/Categories.tsx): a search box and a type
    select narrow the category cards; the overview cards total the whole
    list; each card may show how much of its budget is used. */
module Categories {
  import opened Collections
  import opened Text
  import opened Kinds
  import Percent

  /** One income or expense category. A `budget` of 0 stands for the
      source's falsy (absent or zero) budget. */
  datatype Category = Category(
    id: int,
    name: string,
    kind: string,
    description: string,
    totalAmount: int,
    transactionCount: int,
    budget: int)

  /** The search term occurs, ignoring case, in the name or in the description. */
  predicate MatchesSearch(c: Category, term: string)
  {
    Contains(Lower(c.name), Lower(term)) || Contains(Lower(c.description), Lower(term))
  }

  predicate MatchesKind(c: Category, kind: string)
  {
    kind == ALL || c.kind == kind
  }

  predicate Matches(c: Category, term: string, kind: string)
  {
    MatchesSearch(c, term) && MatchesKind(c, kind)
  }

  /** `filteredCategories`: exactly the matching categories, in their
      original order, each kept as often as it occurs and nothing else. */
  function FilteredCategories(cs: seq<Category>, term: string, kind: string): (r: seq<Category>)
    ensures forall i :: 0 <= i < |r| ==> r[i] in cs && Matches(r[i], term, kind)
    ensures forall i :: 0 <= i < |cs| && Matches(cs[i], term, kind) ==> cs[i] in r
    ensures IsSubsequence(r, cs)
    ensures multiset(r) <= multiset(cs)
    ensures forall c :: multiset(r)[c] == if Matches(c, term, kind) then multiset(cs)[c] else 0
  {
    var keep := (c: Category) => Matches(c, term, kind);
    FilterIsSubsequence(keep, cs);
    FilterSubMultiset(keep, cs);
    forall c ensures multiset(Filter(keep, cs))[c] == if Matches(c, term, kind) then multiset(cs)[c] else 0 {
      FilterMultiplicity(keep, cs, c);
    }
    Filter(keep, cs)
  }

  /** An empty search with type "all" keeps every category. */
  lemma EmptySearchKeepsAll(cs: seq<Category>)
    ensures FilteredCategories(cs, "", ALL) == cs
  {
    forall i | 0 <= i < |cs|
      ensures Matches(cs[i], "", ALL)
    {
      assert "" <= Lower(cs[i].name);
    }
    FilterKeepsAll((c: Category) => Matches(c, "", ALL), cs);
  }

  predicate IsIncome(c: Category)
  {
    c.kind == INCOME
  }

  predicate IsExpense(c: Category)
  {
    c.kind == EXPENSE
  }

  function TotalAmountOf(c: Category): int
  {
    c.totalAmount
  }

  /** The overview cards: totals and counts by type over the whole list. */
  datatype Overview = Overview(
    totalIncome: int,
    totalExpenses: int,
    categoryCount: nat,
    incomeCount: nat,
    expenseCount: nat)

  /** The overview is computed from the full list; it takes no search term
      or type, so the filters cannot change it. */
  function OverviewOf(cs: seq<Category>): (o: Overview)
    ensures o.categoryCount == |cs|
    ensures o.incomeCount + o.expenseCount <= o.categoryCount
  {
    ExclusiveCountsBounded(IsIncome, IsExpense, (c: Category) => false, cs);
    FilterKeepsNone((c: Category) => false, cs);
    Overview(
      SumOf(TotalAmountOf, Filter(IsIncome, cs)),
      SumOf(TotalAmountOf, Filter(IsExpense, cs)),
      |cs|,
      Count(IsIncome, cs),
      Count(IsExpense, cs))
  }

  /** With non-negative amounts, the income shown on the filtered cards
      never exceeds the overview's income total, whatever the filters. */
  lemma FilteredIncomeWithinOverview(cs: seq<Category>, term: string, kind: string)
    requires forall i :: 0 <= i < |cs| ==> cs[i].totalAmount >= 0
    ensures SumOf(TotalAmountOf, Filter(IsIncome, FilteredCategories(cs, term, kind)))
         <= OverviewOf(cs).totalIncome
  {
    var keep := (c: Category) => Matches(c, term, kind);
    var income := Filter(IsIncome, cs);
    assert forall i :: 0 <= i < |income| ==> income[i] in cs;
    SumOfFilterAtMost(TotalAmountOf, keep, income);
    FilterCommute(IsIncome, keep, cs);
  }

  /** Likewise the expenses shown on the filtered cards never exceed the
      overview's expense total. */
  lemma FilteredExpensesWithinOverview(cs: seq<Category>, term: string, kind: string)
    requires forall i :: 0 <= i < |cs| ==> cs[i].totalAmount >= 0
    ensures SumOf(TotalAmountOf, Filter(IsExpense, FilteredCategories(cs, term, kind)))
         <= OverviewOf(cs).totalExpenses
  {
    var keep := (c: Category) => Matches(c, term, kind);
    var expenses := Filter(IsExpense, cs);
    assert forall i :: 0 <= i < |expenses| ==> expenses[i] in cs;
    SumOfFilterAtMost(TotalAmountOf, keep, expenses);
    FilterCommute(IsExpense, keep, cs);
  }

  /** What the budget-usage row of a card shows. */
  datatype Usage = Hidden | Shown(percent: real)

  /** The row appears only for a truthy (nonzero) budget and then shows
      totalAmount / budget * 100, with no cap. */
  function BudgetUsage(c: Category): (u: Usage)
    ensures u.Hidden? <==> c.budget == 0
    ensures u.Shown? ==> u.percent * c.budget as real == c.totalAmount as real * 100.0
  {
    if c.budget == 0 then Hidden else Shown(Percent.Ratio(c.totalAmount, c.budget))
  }

  /** Unlike the Budget page's bar, this usage is not capped: a category
      over its positive budget shows more than 100 percent. */
  lemma UsageNotCapped(c: Category)
    requires c.budget > 0 && c.totalAmount > c.budget
    ensures BudgetUsage(c).Shown? && BudgetUsage(c).percent > 100.0
  {
    Percent.RatioOrder(c.totalAmount, c.budget);
  }

  /** The panel shown when no category matches. */
  datatype EmptyState = NoEmptyState | EmptyState(adjustHint: bool, offersAdd: bool)

  /** The panel appears exactly when nothing matches; it suggests adjusting
      the search when a search term or a type is set, and offers the Add
      button in exactly the other case. */
  function EmptyStateOf(cs: seq<Category>, term: string, kind: string): (e: EmptyState)
    ensures e.EmptyState? <==> FilteredCategories(cs, term, kind) == []
    ensures e.EmptyState? ==> (e.adjustHint <==> term != "" || kind != ALL)
    ensures e.EmptyState? ==> (e.offersAdd <==> !e.adjustHint)
  {
    if FilteredCategories(cs, term, kind) != [] then NoEmptyState
    else
      var filtering := term != "" || kind != ALL;
      EmptyState(filtering, !filtering)
  }

  /** The Add button is offered only when there are no categories at all. */
  lemma AddOfferedOnlyWhenNoCategories(cs: seq<Category>, term: string, kind: string)
    requires EmptyStateOf(cs, term, kind).EmptyState?
    requires EmptyStateOf(cs, term, kind).offersAdd
    ensures cs == []
  {
    EmptySearchKeepsAll(cs);
  }
}
