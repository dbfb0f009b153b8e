/** The Add Transaction dialog (src/components/AddTransactionModal.tsx): an
    income/expense switch, a category list that follows it, three required
    fields, and a submit handler that validates, records and resets. */
module AddTransaction {
  import opened Kinds

  /** The form's text fields, as typed. `date` defaults to today's date,
      which the caller supplies. */
  datatype FormData = FormData(amount: string, category: string, description: string, date: string)

  /** The dialog's state: open or closed, the switch, and the form. */
  datatype Modal = Modal(isOpen: bool, isIncome: bool, form: FormData)

  /** The record a successful submit hands on; the amount stays the text the
      user typed. */
  datatype Submitted = Submitted(kind: string, amount: string, category: string, description: string, date: string)

  /** A submit either fails validation or records a transaction. */
  datatype Outcome = ValidationError | Added(record: Submitted)

  datatype Submission = Submission(modal: Modal, outcome: Outcome)

  const IncomeCategories: seq<string> := ["Salary", "Freelance", "Investment", "Business", "Other Income"]
  const ExpenseCategories: seq<string> :=
    ["Food & Dining", "Transportation", "Shopping", "Entertainment", "Utilities", "Healthcare", "Other Expense"]

  /** The dialog as the page first renders it, given today's date: closed,
      switched to income, every text field empty and the date today; so a
      submit straight away is refused and leaves it as it was. */
  function InitialModal(today: string): (m: Modal)
    ensures !m.isOpen && m.isIncome
    ensures m.form.amount == "" && m.form.category == "" && m.form.description == ""
    ensures m.form.date == today
    ensures HandleSubmit(m, today).outcome.ValidationError? && HandleSubmit(m, today).modal == m
  {
    Modal(false, true, FormData("", "", "", today))
  }

  /** `handleSubmit`: with any of amount, category or description empty the
      submit is refused and nothing changes, the dialog included; otherwise
      the transaction is recorded with the switch's type, the three fields
      are cleared, the date is reset to today and the dialog closes. */
  function HandleSubmit(m: Modal, today: string): (s: Submission)
    ensures s.outcome.ValidationError? <==>
      m.form.amount == "" || m.form.category == "" || m.form.description == ""
    ensures s.outcome.ValidationError? ==> s.modal == m
    ensures s.outcome.Added? ==>
      && (s.outcome.record.kind == INCOME <==> m.isIncome)
      && (s.outcome.record.kind == EXPENSE <==> !m.isIncome)
      && s.outcome.record.amount == m.form.amount
      && s.outcome.record.category == m.form.category
      && s.outcome.record.description == m.form.description
      && s.outcome.record.date == m.form.date
    ensures s.outcome.Added? ==>
      !s.modal.isOpen && s.modal.isIncome == m.isIncome && s.modal.form == FormData("", "", "", today)
  {
    if m.form.amount == "" || m.form.category == "" || m.form.description == "" then
      Submission(m, ValidationError)
    else
      var kind := if m.isIncome then INCOME else EXPENSE;
      var f := m.form;
      Submission(
        Modal(false, m.isIncome, FormData("", "", "", today)),
        Added(Submitted(kind, f.amount, f.category, f.description, f.date)))
  }

  /** Submitting again right after a successful submit is always refused. */
  lemma SecondSubmitRefused(m: Modal, today: string, later: string)
    requires HandleSubmit(m, today).outcome.Added?
    ensures HandleSubmit(HandleSubmit(m, today).modal, later).outcome.ValidationError?
  {
  }

  /** The categories offered in the select box follow the switch. */
  function OfferedCategories(isIncome: bool): (cs: seq<string>)
    ensures |cs| > 0
    ensures isIncome ==> cs == IncomeCategories
    ensures !isIncome ==> cs == ExpenseCategories
  {
    if isIncome then IncomeCategories else ExpenseCategories
  }

  /** No category is offered for both types. */
  lemma CategoryListsDisjoint(c: string)
    ensures !(c in IncomeCategories && c in ExpenseCategories)
  {
    if c in IncomeCategories {
      assert c == "Salary" || c == "Freelance" || c == "Investment" || c == "Business" || c == "Other Income";
    }
  }

  /** The switch is on exactly for an expense. */
  function SwitchChecked(m: Modal): (checked: bool)
    ensures checked <==> !m.isIncome
  {
    !m.isIncome
  }

  /** Moving the switch sets the type from its new position and changes
      nothing else; the chosen category is kept. */
  function OnSwitchChange(m: Modal, checked: bool): (r: Modal)
    ensures r.isIncome <==> !checked
    ensures r.isOpen == m.isOpen && r.form == m.form
  {
    m.(isIncome := !checked)
  }

  /** Flipping the switch flips the type, and flipping it back restores the dialog. */
  lemma SwitchToggles(m: Modal)
    ensures OnSwitchChange(m, !SwitchChecked(m)).isIncome == !m.isIncome
    ensures OnSwitchChange(OnSwitchChange(m, !SwitchChecked(m)), SwitchChecked(m)) == m
  {
  }

  /** Opening the dialog, closing it, or pressing Cancel changes only
      whether it is open: a closed dialog keeps what was typed. */
  function SetOpen(m: Modal, open: bool): (r: Modal)
    ensures r.isOpen == open
    ensures r.isIncome == m.isIncome && r.form == m.form
  {
    m.(isOpen := open)
  }

  /** The form's editable inputs. */
  datatype Input = AmountInput | CategoryInput | DescriptionInput | DateInput

  /** Each input's change handler replaces its own field and nothing else. */
  function EditForm(m: Modal, input: Input, v: string): (r: Modal)
    ensures r.isOpen == m.isOpen && r.isIncome == m.isIncome
    ensures r.form.amount == (if input == AmountInput then v else m.form.amount)
    ensures r.form.category == (if input == CategoryInput then v else m.form.category)
    ensures r.form.description == (if input == DescriptionInput then v else m.form.description)
    ensures r.form.date == (if input == DateInput then v else m.form.date)
  {
    match input
    case AmountInput => m.(form := m.form.(amount := v))
    case CategoryInput => m.(form := m.form.(category := v))
    case DescriptionInput => m.(form := m.form.(description := v))
    case DateInput => m.(form := m.form.(date := v))
  }
}
