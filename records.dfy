/** The records the ledger stores: transactions, debts and budget entries. */
module Records {

  datatype Option<+T> = None | Some(value: T)

  /** The three transaction types the summary knows about; any other type string is stored but not totalled. */
  const Income: string := "income"
  const Expense: string := "expense"
  const Saving: string := "saving"

  /** One ledger record. `currency`, `expenseType` and `receipt` may be absent (`None`);
      a record loaded from storage may lack a currency, and the automatic saving record
      carries neither an expense type nor a receipt. */
  datatype Transaction = Transaction(
    kind: string,
    amount: real,
    currency: Option<string>,
    date: string,
    category: string,
    expenseType: Option<string>,
    notes: string,
    receipt: Option<string>)

  /** A debt: its original amount and, when known, what is still owed. */
  datatype Debt = Debt(amount: real, remaining: Option<real>)

  /** One key of the budget object with its limit; a sequence of these keeps the keys in insertion order. */
  datatype Budget = Budget(category: string, limit: real)
}
