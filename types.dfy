/** The records of the expense ledger, as the app holds them in memory
    (lib/types.ts). Amounts are in cents. */
module Types {

  import opened Common

  datatype Expense = Expense(
    id: string,
    amount: int,
    description: string,
    category: string,
    date: string,
    recurringId: Option<string>)

  datatype RecurringExpense = RecurringExpense(
    id: string,
    amount: int,
    description: string,
    category: string,
    dayOfMonth: int,
    isActive: bool,
    createdAt: string)

  datatype Category = Category(id: string, labelText: string, color: string, isCustom: Option<bool>)
}
