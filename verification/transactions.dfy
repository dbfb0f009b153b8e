/** The Transactions page (src/pages/Transactions.tsx): a search box and two
    select boxes narrow the transaction list, and three summary cards total
    the income, the expenses and the net of what remains visible. */
module Transactions {
  import opened Collections
  import opened Text
  import opened Kinds

  /** One row of the transaction history. `kind` is the source's `type`
      field ('income' or 'expense'); `amount` is in whole currency units. */
  datatype Transaction = Transaction(
    id: int,
    kind: string,
    description: string,
    amount: int,
    date: string,
    category: string,
    status: string)

  /** The page's three filter controls: the search term and the category and
      type selections, each of which may be the sentinel "all". */
  datatype Selection = Selection(searchTerm: string, category: string, kind: string)

  /** The controls as the page first renders them. */
  const InitialSelection: Selection := Selection("", ALL, ALL)

  predicate MatchesSearch(t: Transaction, term: string)
  {
    Contains(Lower(t.description), Lower(term))
  }

  predicate MatchesCategory(t: Transaction, category: string)
  {
    category == ALL || t.category == category
  }

  predicate MatchesKind(t: Transaction, kind: string)
  {
    kind == ALL || t.kind == kind
  }

  /** Both sides are lower-cased, so the case of the typed term never
      matters. */
  lemma SearchIgnoresCase(t: Transaction, term: string)
    ensures MatchesSearch(t, term) <==> MatchesSearch(t, Lower(term))
  {
    LowerIdempotent(term);
  }

  /** A transaction is shown when all three clauses hold. */
  predicate Matches(t: Transaction, sel: Selection)
  {
    MatchesSearch(t, sel.searchTerm) && MatchesCategory(t, sel.category) && MatchesKind(t, sel.kind)
  }

  /** `filteredTransactions`: exactly the matching transactions, in their
      original order, each kept as often as it occurs and nothing else. */
  function FilteredTransactions(ts: seq<Transaction>, sel: Selection): (r: seq<Transaction>)
    ensures forall i :: 0 <= i < |r| ==> r[i] in ts && Matches(r[i], sel)
    ensures forall i :: 0 <= i < |ts| && Matches(ts[i], sel) ==> ts[i] in r
    ensures IsSubsequence(r, ts)
    ensures multiset(r) <= multiset(ts)
    ensures forall t :: multiset(r)[t] == if Matches(t, sel) then multiset(ts)[t] else 0
  {
    var keep := (t: Transaction) => Matches(t, sel);
    FilterIsSubsequence(keep, ts);
    FilterSubMultiset(keep, ts);
    forall t ensures multiset(Filter(keep, ts))[t] == if Matches(t, sel) then multiset(ts)[t] else 0 {
      FilterMultiplicity(keep, ts, t);
    }
    Filter(keep, ts)
  }

  predicate IsIncome(t: Transaction)
  {
    t.kind == INCOME
  }

  predicate IsExpense(t: Transaction)
  {
    t.kind == EXPENSE
  }

  function AmountOf(t: Transaction): int
  {
    t.amount
  }

  /** The figures on the three summary cards and the history badge. */
  datatype Summary = Summary(totalIncome: int, totalExpenses: int, netAmount: int, shown: nat)

  /** `totalIncome`, `totalExpenses`, `netAmount` and the badge count, all
      taken over the filtered list. */
  function Summarize(ts: seq<Transaction>, sel: Selection): (s: Summary)
    ensures s.netAmount == s.totalIncome - s.totalExpenses
    ensures s.shown == |FilteredTransactions(ts, sel)|
  {
    var shown := FilteredTransactions(ts, sel);
    var income := SumOf(AmountOf, Filter(IsIncome, shown));
    var expenses := SumOf(AmountOf, Filter(IsExpense, shown));
    Summary(income, expenses, income - expenses, |shown|)
  }

  /** The initial controls show every transaction. */
  lemma InitialSelectionShowsAll(ts: seq<Transaction>)
    ensures FilteredTransactions(ts, InitialSelection) == ts
  {
    forall i | 0 <= i < |ts|
      ensures Matches(ts[i], InitialSelection)
    {
      assert "" <= Lower(ts[i].description);
    }
    FilterKeepsAll((t: Transaction) => Matches(t, InitialSelection), ts);
  }

  /** With non-negative amounts, both totals are non-negative. */
  lemma TotalsNonNegative(ts: seq<Transaction>, sel: Selection)
    requires forall i :: 0 <= i < |ts| ==> ts[i].amount >= 0
    ensures Summarize(ts, sel).totalIncome >= 0
    ensures Summarize(ts, sel).totalExpenses >= 0
  {
    var shown := FilteredTransactions(ts, sel);
    var income := Filter(IsIncome, shown);
    var expenses := Filter(IsExpense, shown);
    assert forall i :: 0 <= i < |income| ==> income[i] in ts;
    assert forall i :: 0 <= i < |expenses| ==> expenses[i] in ts;
    SumOfNonNegative(AmountOf, income);
    SumOfNonNegative(AmountOf, expenses);
  }

  /** Selecting the type 'expense' leaves no income to total. */
  lemma ExpenseSelectionHasNoIncome(ts: seq<Transaction>, sel: Selection)
    requires sel.kind == EXPENSE
    ensures Summarize(ts, sel).totalIncome == 0
    ensures Summarize(ts, sel).netAmount == -Summarize(ts, sel).totalExpenses
  {
    FilterKeepsNone(IsIncome, FilteredTransactions(ts, sel));
  }

  /** Selecting the type 'income' leaves no expense to total. */
  lemma IncomeSelectionHasNoExpenses(ts: seq<Transaction>, sel: Selection)
    requires sel.kind == INCOME
    ensures Summarize(ts, sel).totalExpenses == 0
    ensures Summarize(ts, sel).netAmount == Summarize(ts, sel).totalIncome
  {
    FilterKeepsNone(IsExpense, FilteredTransactions(ts, sel));
  }

  /** When every transaction is an income or an expense, the two totals
      together account for every shown amount exactly once. */
  lemma TotalsCoverShownAmounts(ts: seq<Transaction>, sel: Selection)
    requires forall i :: 0 <= i < |ts| ==> IsIncome(ts[i]) || IsExpense(ts[i])
    ensures Summarize(ts, sel).totalIncome + Summarize(ts, sel).totalExpenses
         == SumOf(AmountOf, FilteredTransactions(ts, sel))
  {
    var shown := FilteredTransactions(ts, sel);
    assert forall i :: 0 <= i < |shown| ==> shown[i] in ts;
    SumOfPartition(AmountOf, IsIncome, IsExpense, shown);
  }

  /** Reordering the transaction list changes none of the summary figures. */
  lemma SummaryOrderIndependent(ts: seq<Transaction>, us: seq<Transaction>, sel: Selection)
    requires multiset(ts) == multiset(us)
    ensures Summarize(ts, sel) == Summarize(us, sel)
  {
    var keep := (t: Transaction) => Matches(t, sel);
    var a := Filter(keep, ts);
    var b := Filter(keep, us);
    FilterPermutation(keep, ts, us);
    assert |a| == |multiset(a)| == |multiset(b)| == |b|;
    FilterPermutation(IsIncome, a, b);
    FilterPermutation(IsExpense, a, b);
    SumOfPermutation(AmountOf, Filter(IsIncome, a), Filter(IsIncome, b));
    SumOfPermutation(AmountOf, Filter(IsExpense, a), Filter(IsExpense, b));
  }

  /** How the Net Amount card shows a net figure: its magnitude, coloured
      green when `positive` and red otherwise. */
  datatype NetDisplay = NetDisplay(magnitude: nat, positive: bool)

  /** The card shows `Math.abs(netAmount)`, green exactly when the net is not
      negative; the sign and magnitude recover the net. */
  function DisplayNet(net: int): (d: NetDisplay)
    ensures d.positive <==> net >= 0
    ensures (if d.positive then d.magnitude as int else -(d.magnitude as int)) == net
  {
    if net >= 0 then NetDisplay(net, true) else NetDisplay(-net, false)
  }
}
