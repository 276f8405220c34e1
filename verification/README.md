# Boat ledger: balances and debt simplification

A Dafny model of the accounting core of a small expense-sharing ledger for the
co-owners of a boat. The core has two functions:

- `calculateBalances` (`src/lib/utils.ts`). It folds the recorded expenses and
  the completed settlement payments into one net amount per roster member.
  Positive means the member is owed money; negative means the member owes.
- `simplifyDebts` (`src/lib/utils.ts`). It turns a list of balances into a plan
  of payments. It sorts the creditors in descending order and the debtors in
  ascending order, then walks both lists with two cursors. Each pass moves the
  smaller of the current debt and the current credit. It records a transaction
  when more than a cent moves, with the amount rounded to cents. A cursor moves
  on once its party is within a cent of zero.

The records of `src/lib/types.ts` are the datatypes of module `Types`. Amounts
are exact reals.

## Modules

- `types.dfy`: `Types`. Members, expenses with their explicit splits, payments
  with a completed or pending status, balances and transactions.
- `sums.dfy`: `Sums`. A generic finite sum. It splits over concatenation and
  does not depend on the order of the sequence.
- `balances.dfy`: `Balances`. The fold as the source runs it, over a ledger
  keyed by user id. It also holds the closed-form reference `Net` and the
  proof that the two agree. The properties of the balances are proved here:
  - untouched users end at zero;
  - the effect of one expense and of one completed payment;
  - pending payments are ignored;
  - the result does not depend on order;
  - the balances are conserved.
- `sorting.dfy`: `StableSort`. The filter and the stable sort of both sides.
  The stable sort is specified without positions:
  - the result is sorted;
  - for every amount, the entries with that amount appear in input order.

  `StableSortUnique` shows this specification allows exactly one list.
- `debts.dfy`: `Debts`. The loop as a state (remaining debts, remaining
  credits, two cursors) with one-pass and whole-run functions and their
  invariant. Also here:
  - the recording of transactions and cent rounding;
  - the properties of the plan: greediness, per-party conservation, the bound
    on the number of passes, and how far the plan settles.
- `scenarios.dfy`: `Scenarios`. Worked examples:
  - one expense shared by three;
  - a repayment;
  - the plan that settles the shared expense;
  - a set of balances that the plan leaves partly unsettled.

## How far the plan settles

One might expect the plan to settle every balance to within a cent. It does
not. A debtor is passed over once it owes
less than a cent, and a creditor once it is owed less than a cent. The loop
also stops as soon as either list runs out. What is passed over in this way is
never paid, and these remainders add up.

`Scenarios.ResidueLeftUnsettled` exhibits such balances. They sum to zero:
debtors of 1.009 and 1.009, and creditors of 1, 1 and 0.018. The plan has two
transactions of 1. The creditor of 0.018 is left with all of it, which is
almost two cents.

What the code does guarantee is proved by `Debts.SettlesUpToResidue`. When the
balances sum to zero, every party is left within one cent per party of zero.
The model follows the code here.

The code has no accounting years and no equal-share rule. Every expense
carries explicit splits, and all history counts together. The model follows
the code on both points.

## Model

| member | source | states |
|---|---|---|
| Balances.Open | src/lib/utils.ts:13 | the ledger starts with an entry for exactly the roster ids, each at zero |
| Balances.ApplySplits | src/lib/utils.ts:18-20 | taking an expense's splits off the ledger keeps its set of ids; `Balances.ApplySplitsIsShare` states the amounts |
| Balances.ApplyExpense | src/lib/utils.ts:16-21 | applying one expense (payer credited, split users debited) keeps the set of ids; `Balances.ExpenseContribution` states the amounts |
| Balances.ApplyExpenses | src/lib/utils.ts:16-21 | folding the expenses keeps the set of ids; `Balances.ApplyExpensesIsEffect` states the amounts |
| Balances.ApplyPayment | src/lib/utils.ts:24-29 | applying one payment (sender credited and receiver debited when completed) keeps the set of ids; `Balances.CompletedPaymentContribution` and `Balances.PendingPaymentIgnored` state the amounts |
| Balances.ApplyPayments | src/lib/utils.ts:24-29 | folding the payments keeps the set of ids; `Balances.ApplyPaymentsIsEffect` states the amounts |
| Balances.Settled | src/lib/utils.ts:11-29 | the ledger after all expenses and payments has an entry for exactly the roster ids; `Balances.SettledIsNet` states the amounts |
| Balances.CalculateBalances | src/lib/utils.ts:6-36 | one balance per roster entry, in roster order, with the entry's id and name; its amount is the reference net position: what the user paid for expenses, less the user's splits, plus completed payments sent, less completed payments received |
| Balances.Add | src/lib/utils.ts:17-19 | adding to a user's entry changes that entry by the amount and no other entry; an id that is not on the roster changes nothing the output reads |
| Balances.Report | src/lib/utils.ts:31-35 | the output lists the roster in order, each entry with the ledger value of its id |
| Balances.ApplySplitsIsShare | src/lib/utils.ts:18-20 | the splits of an expense take from a user exactly the sum of that user's split amounts |
| Balances.ApplyExpensesIsEffect | src/lib/utils.ts:16-21 | folding the expenses in order gives each user the sum of the per-expense effects: the amount when the user paid, less the user's splits |
| Balances.ApplyPaymentsIsEffect | src/lib/utils.ts:24-29 | folding the payments in order gives each user completed payments sent less completed payments received, and nothing from pending ones |
| Balances.SettledIsNet | src/lib/utils.ts:11-29 | the ledger after all expenses and payments holds, for each roster id, that user's reference net position |
| Balances.UnreferencedUserIsZero | src/lib/utils.ts:11-35 | a roster user that no expense payer, split or completed payment names gets balance 0 |
| Balances.ExpenseContribution | src/lib/utils.ts:16-21 | adding one expense anywhere in the list changes a user's balance by the amount when the user is the payer, less the user's splits of it, and by nothing else |
| Balances.CompletedPaymentContribution | src/lib/utils.ts:24-29 | adding one completed payment anywhere raises the sender's balance and lowers the receiver's by its amount, and changes no other balance |
| Balances.PendingPaymentIgnored | src/lib/utils.ts:24-29 | adding a pending payment anywhere leaves the whole output unchanged |
| Balances.OrderIndependent | src/lib/utils.ts:16-29 | reordering the expenses or the payments (same multisets) gives the same output |
| Balances.TotalApplyExpense | src/lib/utils.ts:16-21 | a fully split expense whose payer and split users are distinct roster members leaves the sum of the balances unchanged |
| Balances.TotalApplyPayment | src/lib/utils.ts:24-29 | a payment between roster members leaves the sum of the balances unchanged |
| Balances.Conservation | src/lib/utils.ts:6-36 | when roster ids are distinct, every id mentioned is on the roster and every expense is fully split, the balances sum to zero |
| StableSort.Filter | src/lib/utils.ts:42-43 | the entries on one side of zero in input order; `StableSort.FilterMembers` and `StableSort.FilterWithAmount` state which ones |
| StableSort.FilterMembers | src/lib/utils.ts:42-43 | the filter keeps exactly the entries with a positive amount (creditors) or a negative amount (debtors) |
| StableSort.FilterWithAmount | src/lib/utils.ts:42-43 | the filter keeps every entry with an amount on its side, in input order, and no entry with any other amount |
| StableSort.InsertFirst | src/lib/utils.ts:42-43 | inserting into a sorted list keeps it sorted and adds exactly the one entry |
| StableSort.InsertFirstWithAmount | src/lib/utils.ts:42-43 | the inserted entry goes ahead of the entries with its amount, and the order among all other entries is unchanged |
| StableSort.Sort | src/lib/utils.ts:42-43 | the sort is a sorted permutation of its input that keeps, for every amount, the entries with that amount in input order |
| StableSort.OrderedSpec | src/lib/utils.ts:42-43 | creditors come in descending and debtors in ascending order of amount; they are exactly the entries on that side, and equal amounts keep input order |
| StableSort.Ordered | src/lib/utils.ts:42-43 | the stably sorted entries of one side; `StableSort.OrderedSpec` states its contract |
| StableSort.StableSortUnique | src/lib/utils.ts:42-43 | two sorted lists that agree on the entries for every amount are equal, so a stable sort has a single possible result |
| StableSort.SortSorted | src/lib/utils.ts:42-43 | sorting a list that is already in order returns it unchanged |
| Debts.Round2 | src/lib/utils.ts:55 | cent rounding as `Math.round(x * 100) / 100`, half a cent rounding up; `Debts.RoundToCents` states its bounds |
| Debts.RoundToCents | src/lib/utils.ts:55 | rounding to cents moves an amount by more than -0.005 and at most 0.005, gives a whole number of cents, and keeps an amount above a cent at a cent or more |
| Debts.Step | src/lib/utils.ts:49-63 | one pass moves the smaller of the current debt and credit, which is positive; it takes that amount off both parties and brings one of them to exactly zero; each cursor moves on exactly when its party is left within a cent of zero, so at least one does; the loop invariant is kept |
| Debts.Run | src/lib/utils.ts:47-64 | the loop ends with one list exhausted and the invariant intact; the cursors only advance; a loop that cannot start makes no match |
| Debts.RunBound | src/lib/utils.ts:48-64 | the loop makes fewer passes than there are debtors and creditors, so at most their number less one |
| Debts.RunMatchesInRange | src/lib/utils.ts:48-64 | every pass uses a debtor and a creditor that exist and moves a positive amount |
| Debts.RunCursorOrder | src/lib/utils.ts:62-63 | passes come in order of debtor and of creditor, because the cursors never move back |
| Debts.RunMoved | src/lib/utils.ts:59-60 | each party's remaining amount is its starting amount adjusted by exactly the amounts of the passes that involve it |
| Debts.MatchIsGreedy | src/lib/utils.ts:49 | every pass moves the smaller of what its debtor still owes and what its creditor is still owed, given the earlier passes |
| Debts.StepKeepsTotal | src/lib/utils.ts:59-60 | one pass takes the same amount off a debt and off a credit, so the overall sum is unchanged |
| Debts.RunKeepsTotal | src/lib/utils.ts:48-64 | the loop leaves the sum of all remaining debts and credits as it started |
| Debts.Transfer | src/lib/utils.ts:52-56 | the transaction for one pass: the debtor's name, the creditor's name and the amount rounded to cents |
| Debts.Above | src/lib/utils.ts:51 | the passes that move more than a cent, in order: exactly those passes and no more of them than there are passes |
| Debts.Record | src/lib/utils.ts:51-57 | there is one transaction per pass that moves more than a cent, as many as there are such passes and in the same order; the n-th names the two parties of the n-th such pass and holds its amount rounded to cents |
| Debts.Initial | src/lib/utils.ts:47 | the loop starts with both cursors at the front of the sorted lists and their amounts; `Debts.InitialValid` states it satisfies the invariant |
| Debts.InitialValid | src/lib/utils.ts:42-47 | starting from negative debtors and positive creditors, the loop invariant holds |
| Debts.FirstMatch | src/lib/utils.ts:47-49 | when both lists are non-empty, the first pass matches the first debtor with the first creditor and moves the smaller of their amounts |
| Debts.RecordFirst | src/lib/utils.ts:51-57 | a first pass above a cent becomes the first transaction |
| Debts.FirstTransaction | src/lib/utils.ts:47-57 | when the first debtor and the first creditor would exchange more than a cent, the first transaction is that exchange, rounded to cents |
| Debts.MakePlan | src/lib/utils.ts:41-64 | the plan is the loop run over the stably sorted debtors and creditors, and every pass refers to an existing entry of each list |
| Debts.SimplifyDebts | src/lib/utils.ts:41-67 | when the most negative and the most positive balance (the first of each in sorted order) would exchange more than a cent, the first transaction is that exchange, rounded to cents; every transaction is at least a cent and runs from the name of a negative balance to the name of a positive one; there are fewer transactions than nonzero balances |
| Debts.TransactionsFromParties | src/lib/utils.ts:51-57 | each transaction's payer is the name of a debtor and its payee the name of a creditor, and its amount is at least a cent |
| Debts.TransactionCount | src/lib/utils.ts:48-57 | when there are any transactions, there are fewer than the debtors and creditors together |
| Debts.ZeroBalanceNotInTransactions | src/lib/utils.ts:41-67 | a user whose balance is zero, and whose name no other entry shares, appears in no transaction |
| Debts.FinalResidue | src/lib/utils.ts:62-64 | when the loop stops with the remaining amounts summing to zero, every remaining amount is less than a cent per party away from zero |
| Debts.TotalBySide | src/lib/utils.ts:42-43 | the sum of the balances is the sum over the creditors plus the sum over the debtors |
| Debts.SettlesUpToResidue | src/lib/utils.ts:41-67 | for balances that sum to zero, the plan leaves every party within a cent per party of zero |
| Scenarios.SharedExpense | src/lib/utils.ts:16-21 | 300 paid by one co-owner and split 100 each among three gives +200, -100 and -100 |
| Scenarios.Repaid | src/lib/utils.ts:24-29 | a completed repayment of 100 from a debtor to the payer gives +100, 0 and -100 |
| Scenarios.SettleSharedExpense | src/lib/utils.ts:41-67 | +200, -100, -100 settle as two payments of 100 to the creditor, the equal debtors in input order |
| Scenarios.ResidueLeftUnsettled | src/lib/utils.ts:41-67 | balances summing to zero for which the plan pays the two creditors of 1 and leaves the creditor of 0.018 wholly unpaid |

## Left out

- Reading and writing the hosted database, the pages, forms, receipt uploads,
  CSV export and permission checks are outside this model. They are I/O or
  interface code around the two functions.
- Floating point is not modelled. Amounts are exact reals, so comparisons
  with 0.01 and cent rounding are exact. For example, `Round2(1.005)` is 1.01
  here. In IEEE doubles, `1.005 * 100` is 100.49999999999999, so the source
  rounds the same amount to 1.00.
- The `|| 0` fallback is not modelled. It replaces a `NaN` or `undefined`
  entry by 0, which exact reals never produce for a roster id.
- Ids that are not on the roster are not modelled. In the source, an expense
  payer, split user or payment party that is not on the roster produces a
  `NaN` entry under that id. The output never reads that entry, so the model
  simply drops such a contribution.
- Key collisions that a plain JavaScript object can have with inherited
  property names are not modelled.
- Mutation of the input is not modelled. `simplifyDebts` changes the `amount`
  of the `Balance` objects it is given, and so the caller's objects too. The
  model works on a copy of the amounts (`Debts.State`) and leaves its input
  unchanged. This also differs when the same `Balance` object is listed twice.
  In the source both entries share one remaining amount; in the model each
  entry has its own. For example, take `[b, b, c]` with `b` at -5 and `c` at
  10. The source pays 5 once and then finds the second `b` settled, so it
  makes one transaction. The model makes two.
- Expense dates and comments, and the payment date, are not modelled. The two
  functions never read them.
- Debts.SimplifyDebts: the contract pins down only the first transaction
  exactly. The later transactions are stated through the members it is built
  from: `Debts.Record` (one transaction per pass above a cent, in order),
  `Debts.MatchIsGreedy` (the amount of each pass), `Debts.RunCursorOrder` (the
  order of the passes) and `Debts.MakePlan` (the sorted lists they run over).
- Balances.Conservation: the contract requires every expense to be fully
  split, every id mentioned to be on the roster, and distinct roster ids. The
  source does not check any of these, and without them the sum can differ
  from zero.
