/** The string values the dashboard compares records and select boxes against. */
module Kinds {

  /** The select-box value meaning "no constraint" on the Transactions and
      Categories pages. */
  const ALL: string := "all"

  const INCOME: string := "income"
  const EXPENSE: string := "expense"
}
