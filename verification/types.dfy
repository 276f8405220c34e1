/**
 The records the settlement core consumes and produces: expenses with their
 per-user splits, settlement payments, per-user balances and the suggested
 transfers. Amounts are exact reals (see README for what this leaves out).
 */
module Types {

  /** A roster entry as the balance computation receives it: an id and a display name. */
  datatype Member = Member(id: string, name: string)

  /** Expense categories: Underhåll, Bränsle, Hamnavgift, Mat, Övrigt. */
  datatype Category = Maintenance | Fuel | HarbourFee | Food | Other

  /** The part of an expense that one user owes. */
  datatype ExpenseSplit = ExpenseSplit(id: string, expenseId: string, userId: string, amount: real)

  /** An expense paid by `payerId` and shared according to `splits`. */
  datatype Expense = Expense(
    id: string,
    description: string,
    amount: real,
    payerId: string,
    groupId: string,
    category: Category,
    splits: seq<ExpenseSplit>)

  /** "Slutförd" (completed) and "Väntande" (pending). */
  datatype PaymentStatus = Completed | Pending

  /** A settlement payment from one user to another. */
  datatype Payment = Payment(
    id: string,
    fromUserId: string,
    toUserId: string,
    fromUserName: string,
    toUserName: string,
    amount: real,
    status: PaymentStatus)

  /** Net position of one user: positive means the user is owed, negative means the user owes. */
  datatype Balance = Balance(userId: string, userName: string, amount: real)

  /** A suggested transfer of `amount` from the user named `from` to the user named `to`. */
  datatype Transaction = Transaction(from: string, to: string, amount: real)
}
