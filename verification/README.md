# profitpilot in Dafny

A Dafny model of the computational core of profitpilot, a small-business
finance dashboard written in React. The dashboard works over fixed sample
records. Its logic is a set of pure computations over those records and a
few small state machines behind forms and the page shell:

- **Transactions** (`transactions.dfy`): the search/category/type filter,
  the income, expense and net totals over what is shown, and the net card's
  sign and magnitude.
- **Categories** (`categories.dfy`): the name-or-description search with a
  type select, the overview totals over the full list, the uncapped
  budget-usage figure and the empty-state panel.
- **Budget** (`budget.dfy`): the period filter, the overview totals and
  status counts, the Total Spent card's "% of budget" figure, and each
  card's uncapped label and capped bar. The page's own eight budget lines
  are carried as data to work the overview through for the opening period.
- **Goals** (`goals.dfy`): the direction-dependent clamped progress, the
  rendering style per goal type, the status counts and the success rate.
- **Widgets** (`widgets.dfy`): the dashboard's Budget Progress rows.
- **Reports** (`reports.dfy`): column totals, profit margin, growth of the
  last month over the one before, and the per-month profit bar.
- **AdvancedFilters** (`advanced_filters.dfy`): the seven-field filter
  record, its active count, single-key update and Clear.
- **AddTransaction** (`add_transaction.dfy`): required-field validation,
  record-and-reset on submit, the income/expense switch and its category
  lists.
- **Settings** (`settings.dfy`): the password-confirmation check, the
  preference switches and the camelCase-to-words toast label.
- **Layout** (`layout.dfy`): theme and sidebar state, initialised from
  storage and the system colour preference, persisted by the two effects,
  and changed by toggles and system colour-scheme events.
- **BusinessTips** (`business_tips.dfy`): the tip carousel and its
  indicator dots.

Shared modules:

- `Collections`: order-preserving `Filter`, `SumOf` and `Count`, with
  lemmas on subsequences, permutations and partitions.
- `Text`: ASCII lower-casing and substring search.
- `Percent`: percentage ratio, cap and clamp.
- `Kinds`: the strings "all", "income" and "expense".

Amounts are integers and ratios are exact reals. Every division carries a
precondition that its denominator is nonzero. The browser (storage, the
system colour preference, the window width) and today's date are passed in
as parameters. Sample data arrays are inputs; the few lemmas that mention
the source's own figures say so.

## Model

| member | source | states |
|---|---|---|
| Text.ContainsAt | src/pages/Transactions.tsx:61 | the substring test used by every search holds exactly when the term occurs at some position of the text |
| Text.Lower | src/pages/Transactions.tsx:61 | lower-casing keeps the length and maps each A-Z letter to its lower-case form, leaving every other character |
| Collections.FilterIsSubsequence | src/pages/Transactions.tsx:61 | a filter keeps its survivors in their original order |
| Collections.SumOfPartition | src/pages/Transactions.tsx:67-74 | when two predicates are complementary, the sums over the two filtered lists add up to the sum over the whole list |
| Collections.SumOfPermutation | src/pages/Transactions.tsx:67-74 | a reduce-sum does not depend on the order of the list |
| Collections.ExclusiveCountsBounded | src/pages/Budget.tsx:177-179 | counts for three mutually exclusive predicates add up to at most the list length |
| Percent.RatioOrder | src/components/Dashboard/Widgets.tsx:77 | against a positive whole, a percentage is below, at or above 100 exactly as the part is below, at or above the whole, and is positive or zero exactly as the part is |
| Percent.RatiosComplement | src/pages/Goals.tsx:171-175 | the percentages of a part and of the rest of the whole add up to 100 |
| Percent.Cap | src/pages/Budget.tsx:413 | `Math.min(x, 100)` never exceeds 100 and is the identity up to 100 |
| Percent.Clamp | src/pages/Goals.tsx:173 | `Math.max(0, Math.min(100, x))` lies in [0, 100], is the identity inside it and the nearer bound outside |
| Transactions.SearchIgnoresCase | src/pages/Transactions.tsx:61 | since both sides are lower-cased, a term and its lower-cased form match the same transactions |
| Transactions.FilteredTransactions | src/pages/Transactions.tsx:60-65 | a transaction is kept exactly when its lower-cased description contains the lower-cased term, its category is the selection or the selection is "all", and likewise its type; the result is an order-preserving subsequence of the input holding each kept transaction exactly as often as the input does |
| Transactions.InitialSelectionShowsAll | src/pages/Transactions.tsx:32-34 | the controls as first rendered (empty term, both selects "all") show every transaction unchanged |
| Transactions.Summarize | src/pages/Transactions.tsx:67-76 | the net card is income less expenses, and the history badge counts exactly the filtered list |
| Transactions.TotalsNonNegative | src/pages/Transactions.tsx:67-74 | with non-negative amounts, both totals are non-negative |
| Transactions.ExpenseSelectionHasNoIncome | src/pages/Transactions.tsx:64-70 | selecting type 'expense' makes the income total 0 and the net the negated expense total |
| Transactions.IncomeSelectionHasNoExpenses | src/pages/Transactions.tsx:64-74 | selecting type 'income' makes the expense total 0 and the net equal to the income total |
| Transactions.TotalsCoverShownAmounts | src/pages/Transactions.tsx:67-74 | when every record is income or expense, the two totals together are the sum of all shown amounts |
| Transactions.SummaryOrderIndependent | src/pages/Transactions.tsx:60-76 | reordering the records changes none of the summary figures |
| Transactions.DisplayNet | src/pages/Transactions.tsx:128-134 | the net card is green exactly when the net is not negative and shows its absolute value; sign and magnitude recover the net |
| Categories.FilteredCategories | src/pages/Categories.tsx:141-146 | a category is kept exactly when the term occurs, ignoring case, in its name or its description, and the type select is "all" or its type; order is kept, and each kept category occurs exactly as often as in the input |
| Categories.EmptySearchKeepsAll | src/pages/Categories.tsx:141-145 | an empty term with type "all" keeps every category |
| Categories.OverviewOf | src/pages/Categories.tsx:148-154 | the overview counts cover the whole list, the income and expense counts together at most all of it; it takes no filter input |
| Categories.FilteredIncomeWithinOverview | src/pages/Categories.tsx:141-154 | with non-negative amounts, the income on the filtered cards never exceeds the overview income total |
| Categories.FilteredExpensesWithinOverview | src/pages/Categories.tsx:152-154 | with non-negative amounts, the expenses on the filtered cards never exceed the overview expense total |
| Categories.BudgetUsage | src/pages/Categories.tsx:402-411 | the usage row is hidden exactly for a zero budget and otherwise shows totalAmount / budget * 100 |
| Categories.UsageNotCapped | src/pages/Categories.tsx:407-411 | a category over its positive budget shows more than 100 percent |
| Categories.EmptyStateOf | src/pages/Categories.tsx:422-440 | the panel appears exactly when nothing matches; the "adjust your search" text appears exactly when a term or type is set, and the Add button exactly otherwise |
| Categories.AddOfferedOnlyWhenNoCategories | src/pages/Categories.tsx:435-440 | the Add button in the panel implies the category list itself is empty |
| Budget.FilteredBudgets | src/pages/Budget.tsx:167 | exactly the entries of the selected period, in their original order, each as often as it occurs in the input |
| Budget.OverviewOf | src/pages/Budget.tsx:169-179 | the on-track, exceeded and under-budget counts together never exceed the shown entries |
| Budget.TotalBudgetSplitsByType | src/pages/Budget.tsx:169 | the total budget includes both types: it is the income lines' budget plus the expense lines' budget |
| Budget.SpentIgnoresIncomeLines | src/pages/Budget.tsx:170-172 | removing every income line leaves the total spent unchanged |
| Budget.EarnedIgnoresExpenseLines | src/pages/Budget.tsx:173-175 | the total earned reads income lines only: keeping just the income lines leaves it unchanged |
| Budget.CardProgressOf | src/pages/Budget.tsx:355-357 | the card's label is earned (income) or spent (other) over budget times 100, uncapped; its bar is that value capped at 100 |
| Budget.CardBarFullIffBudgetReached | src/pages/Budget.tsx:407-413 | for a positive budget the bar is full exactly when the amount reaches the budget, and the label exceeds 100 exactly when it passes it |
| Budget.SpentShare | src/pages/Budget.tsx:304 | as written, "% of budget" is the total spent, read from expense lines only, times 100 over the total budget, which counts income lines too |
| Budget.ExpenseSpentShare | src/pages/Budget.tsx:169-172 | the intended figure: the total spent as a percentage of the expense lines' budget, given by Percent.Ratio (figure times expense budget equals spending times 100); 100 exactly when the spending equals that budget and below 100 exactly when it stays under it |
| Budget.SpentShareUnderstatesSpending | src/pages/Budget.tsx:169-172 | as written, one shown income line with a positive budget makes the total budget exceed the expense budget, so the card shows strictly less than the share of the expense budget actually spent |
| Budget.ExpenseShareIgnoresIncomeLines | src/pages/Budget.tsx:170-172 | the intended figure reads no income line: removing them all changes neither the spending nor the budget it is measured against |
| Budget.PageMonthKeepsAll | src/pages/Budget.tsx:28-167 | every budget line of the page belongs to the opening 'month' period, so the page first shows them all |
| Budget.PageExpenseLines | src/pages/Budget.tsx:30-135 | the page's expense lines are its first five |
| Budget.PageSums | src/pages/Budget.tsx:30-135 | the page's expense lines budget 725000 and spend 680000; its income lines budget 800000 |
| Budget.PageLinesWellFormed | src/pages/Budget.tsx:30-135 | every line of the page is an income or an expense line with a non-negative budget, the sixth an income line with a positive one |
| Budget.PageMonthTotals | src/pages/Budget.tsx:169-172 | in the opening period the cards total a budget of 1525000 and a spending of 680000, against an expense budget of 725000 |
| Budget.PageMonthShares | src/pages/Budget.tsx:304 | in the opening period the card shows 680000 over 1525000, below the 680000 over 725000 actually spent of the expense budget |
| Budget.PageWeekHasNoBudget | src/pages/Budget.tsx:167-169 | no line of the page belongs to 'week', so there the total budget the card divides by is 0 |
| Goals.Progress | src/pages/Goals.tsx:170-176 | progress always lies in [0, 100] |
| Goals.ExpenseGoalProgress | src/pages/Goals.tsx:171-173 | an expense goal is at 0 exactly once current reaches the target, at 100 when nothing is spent, and the unspent share in between |
| Goals.AccumulationGoalProgress | src/pages/Goals.tsx:175 | any other goal is at 100 exactly once current reaches the target, at 0 for nothing reached, and the reached share in between |
| Goals.ProgressChosenByTypeOnly | src/pages/Goals.tsx:170-176 | the branch depends on the type alone: non-expense goals with the same figures agree, and within the target an expense goal's progress complements an accumulating goal's to 100 |
| Goals.SuccessRate | src/pages/Goals.tsx:358 | the success rate is the completed goals times 100 over all goals, within [0, 100] |
| Goals.SuccessRateExtremes | src/pages/Goals.tsx:198-199 | the rate is 100 exactly when every goal is completed and 0 exactly when none is |
| Goals.FormatValue | src/pages/Goals.tsx:178-186 | 'financial' and 'quality' goals render with '%', 'business' goals as current/target, every other type as currency |
| Goals.FormatTarget | src/pages/Goals.tsx:188-196 | the target renders with '%', bare, or as currency by the same type split |
| Goals.FormatsAgree | src/pages/Goals.tsx:178-196 | value and target use the same style, and a business value carries the target that is shown bare |
| Goals.CountsOf | src/pages/Goals.tsx:198-201 | the total is the list length, and the completed, on-track and at-risk counts together never exceed it |
| Widgets.BudgetProgress | src/components/Dashboard/Widgets.tsx:77-78 | the bar never exceeds 100 and equals the raw share up to 100; a row is over budget exactly when spent is strictly above budget |
| Widgets.BudgetBarFlags | src/components/Dashboard/Widgets.tsx:77-94 | an over-budget row has a full bar, a row within budget shows the raw share, and spending exactly the budget gives a full bar without the "Over budget!" flag |
| Widgets.BudgetBarExamples | src/components/Dashboard/Widgets.tsx:18-21 | the Food & Dining row shows 85 percent, not over budget; the Shopping row shows a full bar, over budget |
| Reports.TotalProperties | src/pages/Reports.tsx:51-53 | a column total is additive over concatenation and independent of month order |
| Reports.ConsistentRowsGiveConsistentTotals | src/pages/Reports.tsx:51-53 | when every month's profit is its income less its expenses, the profit total is the income total less the expense total |
| Reports.MonthlyDataTotals | src/pages/Reports.tsx:24-31 | the page's six months total 814000 income, 522000 expenses and 292000 profit |
| Reports.ProfitMargin | src/pages/Reports.tsx:54 | the margin is the profit total as a percentage of a nonzero income total |
| Reports.Growth | src/pages/Reports.tsx:56-60 | growth is (last − previous) / previous * 100; for a positive previous figure it is positive exactly when the figure rose and zero exactly when it held |
| Reports.GrowthIgnoresEarlierMonths | src/pages/Reports.tsx:56-57 | months before the last two never affect growth |
| Reports.MonthBar | src/pages/Reports.tsx:238 | a month's bar is its profit as a percentage of its income |
| AdvancedFilters.ActiveCount | src/components/AdvancedFilters.tsx:39 | the count lies in [0, 7], is 0 exactly for the initial all-empty record, and 7 exactly when every field is set |
| AdvancedFilters.AllFieldsEmptyIsInitial | src/components/AdvancedFilters.tsx:24-32 | the initial record is the only one with every field empty |
| AdvancedFilters.ActiveCountByField | src/components/AdvancedFilters.tsx:39 | the count is one per non-empty field |
| AdvancedFilters.HandleFilterChange | src/components/AdvancedFilters.tsx:41-43 | the changed key takes the new value and every other key keeps its value |
| AdvancedFilters.ChangeAdjustsCount | src/components/AdvancedFilters.tsx:39-43 | filling an empty field raises the count by one, emptying one lowers it by one, and other changes leave it |
| AdvancedFilters.ChangeUndone | src/components/AdvancedFilters.tsx:41-43 | writing the old value back restores the record |
| AdvancedFilters.ClearFilters | src/components/AdvancedFilters.tsx:45-55 | every field becomes empty and the count becomes 0 |
| AdvancedFilters.ClearIdempotent | src/components/AdvancedFilters.tsx:45-55 | clearing twice is clearing once |
| AdvancedFilters.ClearDisabled | src/components/AdvancedFilters.tsx:189 | the Clear button is disabled exactly when every field is empty |
| AddTransaction.InitialModal | src/components/AddTransactionModal.tsx:27-34 | the dialog starts closed, switched to income, with empty amount, category and description and today's date, so an immediate submit is refused and changes nothing |
| AddTransaction.HandleSubmit | src/components/AddTransactionModal.tsx:41-73 | a submit is refused, with nothing changed and the dialog left open, exactly when amount, category or description is empty; otherwise the record's type is 'income' exactly when the switch says income, it carries the typed fields, the three fields are cleared, the date reset and the dialog closed |
| AddTransaction.SecondSubmitRefused | src/components/AddTransactionModal.tsx:44-72 | submitting again right after a success is always refused |
| AddTransaction.OfferedCategories | src/components/AddTransactionModal.tsx:141 | the income list is offered for income and the expense list otherwise, never an empty list |
| AddTransaction.CategoryListsDisjoint | src/components/AddTransactionModal.tsx:36-39 | no category appears in both lists |
| AddTransaction.SwitchChecked | src/components/AddTransactionModal.tsx:102 | the switch is on exactly for an expense |
| AddTransaction.OnSwitchChange | src/components/AddTransactionModal.tsx:103 | moving the switch sets the type from its new position and keeps the form |
| AddTransaction.SwitchToggles | src/components/AddTransactionModal.tsx:100-104 | flipping the switch flips the type, and flipping it back restores the dialog |
| AddTransaction.SetOpen | src/components/AddTransactionModal.tsx:76 | opening, closing or Cancel change only whether the dialog is open, keeping what was typed |
| AddTransaction.EditForm | src/components/AddTransactionModal.tsx:123-179 | each input's handler replaces its own field and nothing else |
| Settings.EditProfile | src/pages/Settings.tsx:81-138 | each profile handler replaces exactly its own field; the email has no handler and never changes |
| Settings.HandleProfileUpdate | src/pages/Settings.tsx:29-46 | the update succeeds exactly when the new password is empty or the confirmation repeats it |
| Settings.ConfirmingFixesMismatch | src/pages/Settings.tsx:32-39 | typing the new password again into the confirmation always makes the update succeed |
| Settings.KeyToLabel | src/pages/Settings.tsx:52 | the label has no capitals and is one character longer than the key per capital |
| Settings.LabelRoundTrip | src/pages/Settings.tsx:52 | for a key without spaces, reading the label back (drop each space, capitalise the next letter) gives the key |
| Settings.LabelExample | src/pages/Settings.tsx:52 | 'darkMode' is announced as 'dark mode' |
| Settings.HandlePreferenceChange | src/pages/Settings.tsx:48-54 | the chosen preference takes the new value, every other keeps its value, and the toast names the key's label and says 'enabled' exactly for true |
| Settings.PreferenceChangeIdempotent | src/pages/Settings.tsx:48-49 | setting a preference to its current value changes nothing |
| Layout.Initial | src/components/Layout.tsx:10-23 | a non-empty saved theme decides dark mode, only 'dark' turning it on, else the system preference; the sidebar starts collapsed exactly for the stored text 'true'; the mobile sidebar starts closed |
| Layout.ApplyTheme | src/components/Layout.tsx:26-35 | the root's dark class follows the state, storage then holds 'dark' exactly for dark mode and 'light' otherwise, and no other key changes |
| Layout.SaveSidebar | src/components/Layout.tsx:38-40 | storage then holds 'true' exactly for a collapsed sidebar, and no other key changes |
| Layout.ReloadRestoresState | src/components/Layout.tsx:10-40 | what the two effects store is read back on the next visit: dark mode and collapsed survive a reload whatever the system preference, and the mobile sidebar closes |
| Layout.ToggleDarkMode | src/components/Layout.tsx:61-63 | the toggle flips dark mode and nothing else |
| Layout.ToggleDarkModeTwice | src/components/Layout.tsx:61-63 | toggling twice restores the state |
| Layout.ToggleSidebar | src/components/Layout.tsx:65-71 | below width 1024 only the mobile sidebar flips, otherwise only the collapsed flag flips |
| Layout.ToggleSidebarTwice | src/components/Layout.tsx:65-71 | two toggles at the same width restore the state |
| Layout.CloseMobileSidebar | src/components/Layout.tsx:73-75 | the mobile sidebar closes and nothing else changes |
| Layout.CloseMobileSidebarIdempotent | src/components/Layout.tsx:65-75 | closing is idempotent and undoes a mobile toggle that opened the sidebar |
| Layout.SystemThemeChange | src/components/Layout.tsx:46-52 | a system event sets dark mode to the system preference exactly when no theme is saved, and otherwise changes nothing |
| Layout.Run | src/components/Layout.tsx:26-52 | after any event the effects have saved a theme |
| Layout.Mount | src/components/Layout.tsx:10-35 | mounting initialises from storage and leaves a theme saved |
| Layout.SystemChangesIgnoredAfterMount | src/components/Layout.tsx:26-52 | as written, once a theme is saved no sequence of system events changes the state |
| Layout.FirstVisitMissesSystemChange | src/components/Layout.tsx:10-52 | as written, a first visit on a light system stays light when the system turns dark, though the user never chose |
| Layout.IntendedRun | src/components/Layout.tsx:47-51 | with the theme stored only on a user toggle, a saved theme stays saved and any toggle saves one |
| Layout.IntendedMount | src/components/Layout.tsx:10-23 | the intended mount applies the class but saves a theme only if one was saved before |
| Layout.IntendedFollowsSystem | src/components/Layout.tsx:47-51 | until the user chooses, the intended layout follows the latest system event and saves no theme |
| Layout.IntendedKeepsSavedChoice | src/components/Layout.tsx:47-51 | once a theme is saved, system events leave the intended layout's state alone |
| Layout.FirstVisitFollowsSystemWhenIntended | src/components/Layout.tsx:47-51 | on the same first visit the intended layout turns dark with the system |
| BusinessTips.Tick | src/components/BusinessTips.tsx:35 | a tick moves to the next tip, wrapping from the last to the first, and stays within the tips |
| BusinessTips.Ticks | src/components/BusinessTips.tsx:33-38 | after at least one tick the index is a valid tip |
| BusinessTips.TicksAdvance | src/components/BusinessTips.tsx:35 | within a cycle, k ticks move k places forward, wrapping once past the last tip |
| BusinessTips.FullCycle | src/components/BusinessTips.tsx:35 | as many ticks as tips return to the starting tip |
| BusinessTips.EveryTipShown | src/components/BusinessTips.tsx:7 | starting from tip 0, tip t is shown after t ticks, so every tip is shown within one cycle |
| BusinessTips.Indicators | src/components/BusinessTips.tsx:51-57 | one dot per tip, highlighted exactly at the current index |
| BusinessTips.ExactlyOneHighlighted | src/components/BusinessTips.tsx:51-57 | for a valid index exactly one dot is highlighted |

## Left out

- src/components/Dashboard/SummaryCards.tsx: a timer-driven count-up animation with floating-point easing; no logic worth stating.
- src/components/Dashboard/Charts.tsx, Navbar.tsx, Sidebar.tsx, src/pages/Index.tsx and src/App.tsx: data handed to a charting library, layout and routing with no computation. The pages are modelled as standalone functions, since the router shows placeholders for most of them.
- Presentation: `formatKES`, `toLocaleString`, `toLocaleDateString` and `toFixed` are locale-dependent text formatting. Ratios are kept exact, and goal values are rendered as a tagged figure rather than text.
- Side effects: toasts, `console.log`, alerts and the export buttons are not modelled. The submitted record is the model's result instead of a log line.
- AddTransaction.HandleSubmit: the record keeps the amount as typed text; `parseFloat` is left out. Today's date is a parameter instead of `new Date()`.
- JavaScript number semantics: NaN and Infinity from a zero denominator, and floating-point rounding, are not modelled. Every ratio requires a nonzero denominator. Budget.SpentShare and Goals.SuccessRate therefore say nothing about the 'week', 'quarter' and 'year' periods of the Budget page, where no line is shown and the card computes 0 / 0 (Budget.PageWeekHasNoBudget), nor about an empty goal list.
- Presentation quirks: `{category.budget && …}` (src/pages/Categories.tsx:402) renders a stray "0" for a category whose budget is 0, and the three growth cards (src/pages/Reports.tsx:109, 126, 143) print a fixed "+" before the figure, so a decline reads "+-x%". Both are text rendering; Reports.Growth and the category figures are modelled as numbers.
- Case mapping covers ASCII A-Z only; `toLowerCase` on other scripts is not modelled.
- AdvancedFilters: the date and amount fields are stored but never applied to records, and the Apply button has no handler, so no such predicate is modelled. `handleFilterChange` accepts any string key in the source; every call site passes one of the seven keys, so the key is an enumeration here.
- Budget: the stored `status` and `remaining` fields are data, not derived; the status counts read them as given.
- Settings: the dark-mode preference switch is separate from the page shell's theme, as in the source, and the two are not connected.
- Settings.LabelExample: only the 'darkMode' key is worked through as a concrete example. The general shape of every label is stated by Settings.KeyToLabel and Settings.LabelRoundTrip.
- BusinessTips.TicksAdvance: stated within one cycle (at most as many ticks as tips), which is all that the full-cycle and every-tip properties need.
- Layout: React's effect scheduling is not modelled. Layout.Run applies both effects after every event, including a system event that changes nothing and a sidebar save after a theme toggle. React runs an effect only when its dependency changes; for a host reached through Layout.Mount the extra runs re-store the values already stored, so the two agree there. Listener registration and removal are not modelled.
- The Reports period and report-type selects and the Budget add dialog hold values read only for presentation (the chosen report button is highlighted, src/pages/Reports.tsx:177-203) and by no computation, so they are left out.

## Findings

| source | as written | input that shows it | evidently intended | confidence | as-written member | corrected member |
|---|---|---|---|---|---|---|
| src/components/Layout.tsx:26-52 | the theme effect also runs on mount and always stores 'dark' or 'light', so the system-theme handler, which acts only while no theme is saved, never changes anything after mount | first visit with empty storage and a light system; the system then switches to dark; the page stays light | follow the system preference until the user has chosen a theme, as the handler's own comment says | high; not executed | Layout.FirstVisitMissesSystemChange | Layout.IntendedFollowsSystem |
| src/pages/Budget.tsx:304 | "% of budget" divides the total spent, summed over expense lines only, by the total budget, summed over income and expense lines alike | the page's own lines in the opening 'month' period: 680000 / 1525000, about 44.6%, while 680000 / 725000, about 93.8%, of the expense budget is spent | spending as a share of the expense lines' budget | medium; not executed | Budget.SpentShareUnderstatesSpending | Budget.ExpenseSpentShare |
