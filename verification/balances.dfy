/**
 The balance computation: a fold of expenses and completed payments into one
 net amount per roster member (src/lib/utils.ts, calculateBalances).

 The fold is written the way the source runs it, over an accumulator keyed by
 user id. Beside it, `Net` is a closed-form reference definition of the same
 number; `CalculateBalances` is proved to agree with it, and the properties
 (untouched users, pending payments, order independence, conservation) are
 proved about the reference or about the fold.
 */
module Balances {
  import opened Types
  import opened Sums

  // ---------------------------------------------------------------------------
  // The accumulator and the fold
  // ---------------------------------------------------------------------------

  /**
   The running amounts, keyed by user id. Only roster ids are ever keys: in the
   source a contribution to any other id lands on a key that the final
   projection never reads, so leaving it out changes no output.
   */
  type Ledger = map<string, real>

  /** The ids of a roster. */
  function Ids(users: seq<Member>): set<string>
  {
    set u | u in users :: u.id
  }

  /** Every roster id starts at zero. */
  function Open(users: seq<Member>): (l: Ledger)
    ensures l.Keys == Ids(users)
    ensures forall id :: id in l ==> l[id] == 0.0
  {
    map id | id in Ids(users) :: 0.0
  }

  /** Adds `x` to the entry of `id`; an id that is not on the roster is dropped. */
  function Add(l: Ledger, id: string, x: real): (r: Ledger)
    ensures r.Keys == l.Keys
    ensures forall k :: k in l && k != id ==> r[k] == l[k]
    ensures id in l ==> r[id] == l[id] + x
  {
    if id in l then l[id := l[id] + x] else l
  }

  /** Debits each split's user with the split's amount, in order. */
  function ApplySplits(l: Ledger, splits: seq<ExpenseSplit>): (r: Ledger)
    ensures r.Keys == l.Keys
  {
    if |splits| == 0 then l
    else ApplySplits(Add(l, splits[0].userId, -splits[0].amount), splits[1..])
  }

  /** One expense: the payer is credited the full amount, then every split is debited. */
  function ApplyExpense(l: Ledger, e: Expense): (r: Ledger)
    ensures r.Keys == l.Keys
  {
    ApplySplits(Add(l, e.payerId, e.amount), e.splits)
  }

  /** The expenses, in order. */
  function ApplyExpenses(l: Ledger, expenses: seq<Expense>): (r: Ledger)
    ensures r.Keys == l.Keys
  {
    if |expenses| == 0 then l
    else ApplyExpenses(ApplyExpense(l, expenses[0]), expenses[1..])
  }

  /** A completed payment credits the sender and debits the receiver; a pending one does nothing. */
  function ApplyPayment(l: Ledger, p: Payment): (r: Ledger)
    ensures r.Keys == l.Keys
  {
    if p.status == Completed then Add(Add(l, p.fromUserId, p.amount), p.toUserId, -p.amount)
    else l
  }

  /** The payments, in order. */
  function ApplyPayments(l: Ledger, payments: seq<Payment>): (r: Ledger)
    ensures r.Keys == l.Keys
  {
    if |payments| == 0 then l
    else ApplyPayments(ApplyPayment(l, payments[0]), payments[1..])
  }

  /** Reads one Balance per roster entry off the ledger, in roster order. */
  function Report(l: Ledger, users: seq<Member>): (r: seq<Balance>)
    requires forall u :: u in users ==> u.id in l
    ensures |r| == |users|
    ensures forall k :: 0 <= k < |users| ==>
              r[k] == Balance(users[k].id, users[k].name, l[users[k].id])
  {
    if |users| == 0 then []
    else [Balance(users[0].id, users[0].name, l[users[0].id])] + Report(l, users[1..])
  }

  /** The ledger after all expenses and then all payments. */
  function Settled(expenses: seq<Expense>, payments: seq<Payment>, users: seq<Member>): (l: Ledger)
    ensures l.Keys == Ids(users)
  {
    ApplyPayments(ApplyExpenses(Open(users), expenses), payments)
  }

  /**
   calculateBalances: one Balance per roster entry, in roster order, whose
   amount is the closed-form net position `Net` of that user.
   */
  function CalculateBalances(expenses: seq<Expense>, payments: seq<Payment>, users: seq<Member>): (r: seq<Balance>)
    ensures |r| == |users|
    ensures forall k :: 0 <= k < |users| ==>
              r[k] == Balance(users[k].id, users[k].name, Net(users[k].id, expenses, payments))
  {
    var l := Settled(expenses, payments, users);
    SettledIsNet(expenses, payments, users);
    Report(l, users)
  }

  // ---------------------------------------------------------------------------
  // The reference definition
  // ---------------------------------------------------------------------------

  /** What one split takes from user `id`. */
  function SplitShare(id: string, s: ExpenseSplit): real
  {
    if s.userId == id then s.amount else 0.0
  }

  function ShareOf(id: string): ExpenseSplit -> real
  {
    s => SplitShare(id, s)
  }

  /** What one expense does to user `id`: the full amount if `id` paid, less `id`'s splits. */
  function ExpenseEffect(id: string, e: Expense): real
  {
    (if e.payerId == id then e.amount else 0.0) - Sum(e.splits, ShareOf(id))
  }

  function ExpenseEffectOf(id: string): Expense -> real
  {
    e => ExpenseEffect(id, e)
  }

  /** What one payment does to user `id`: only a completed payment counts, for its sender and against its receiver. */
  function PaymentEffect(id: string, p: Payment): real
  {
    if p.status == Completed then
      (if p.fromUserId == id then p.amount else 0.0) - (if p.toUserId == id then p.amount else 0.0)
    else 0.0
  }

  function PaymentEffectOf(id: string): Payment -> real
  {
    p => PaymentEffect(id, p)
  }

  /** The net position of user `id`: the sum of every expense's and every payment's effect on it. */
  function Net(id: string, expenses: seq<Expense>, payments: seq<Payment>): real
  {
    Sum(expenses, ExpenseEffectOf(id)) + Sum(payments, PaymentEffectOf(id))
  }

  // ---------------------------------------------------------------------------
  // The fold computes the reference
  // ---------------------------------------------------------------------------

  lemma {:induction false} ApplySplitsIsShare(l: Ledger, splits: seq<ExpenseSplit>, id: string)
    requires id in l
    ensures ApplySplits(l, splits)[id] == l[id] - Sum(splits, ShareOf(id))
  {
    if |splits| > 0 {
      ApplySplitsIsShare(Add(l, splits[0].userId, -splits[0].amount), splits[1..], id);
    }
  }

  lemma {:induction false} ApplyExpensesIsEffect(l: Ledger, expenses: seq<Expense>, id: string)
    requires id in l
    ensures ApplyExpenses(l, expenses)[id] == l[id] + Sum(expenses, ExpenseEffectOf(id))
  {
    if |expenses| > 0 {
      var e := expenses[0];
      ApplySplitsIsShare(Add(l, e.payerId, e.amount), e.splits, id);
      ApplyExpensesIsEffect(ApplyExpense(l, e), expenses[1..], id);
    }
  }

  lemma {:induction false} ApplyPaymentsIsEffect(l: Ledger, payments: seq<Payment>, id: string)
    requires id in l
    ensures ApplyPayments(l, payments)[id] == l[id] + Sum(payments, PaymentEffectOf(id))
  {
    if |payments| > 0 {
      ApplyPaymentsIsEffect(ApplyPayment(l, payments[0]), payments[1..], id);
    }
  }

  /** Every roster entry of the folded ledger holds that user's reference net position. */
  lemma SettledIsNet(expenses: seq<Expense>, payments: seq<Payment>, users: seq<Member>)
    ensures forall id :: id in Ids(users) ==> Settled(expenses, payments, users)[id] == Net(id, expenses, payments)
  {
    forall id | id in Ids(users)
      ensures Settled(expenses, payments, users)[id] == Net(id, expenses, payments)
    {
      var l0 := Open(users);
      ApplyExpensesIsEffect(l0, expenses, id);
      ApplyPaymentsIsEffect(ApplyExpenses(l0, expenses), payments, id);
    }
  }

  // ---------------------------------------------------------------------------
  // Properties
  // ---------------------------------------------------------------------------

  /** True when no expense, split or completed payment mentions `id`. */
  predicate Unreferenced(id: string, expenses: seq<Expense>, payments: seq<Payment>)
  {
    && (forall e :: e in expenses ==> e.payerId != id && forall s :: s in e.splits ==> s.userId != id)
    && (forall p :: p in payments && p.status == Completed ==> p.fromUserId != id && p.toUserId != id)
  }

  /** A user that nothing refers to ends at zero. */
  lemma UnreferencedUserIsZero(expenses: seq<Expense>, payments: seq<Payment>, users: seq<Member>, k: nat)
    requires k < |users|
    requires Unreferenced(users[k].id, expenses, payments)
    ensures CalculateBalances(expenses, payments, users)[k].amount == 0.0
  {
    var id := users[k].id;
    forall e | e in expenses ensures ExpenseEffectOf(id)(e) == 0.0 {
      SumZero(e.splits, ShareOf(id));
    }
    SumZero(expenses, ExpenseEffectOf(id));
    SumZero(payments, PaymentEffectOf(id));
  }

  /**
   Inserting an expense anywhere credits its payer with its amount and debits
   each user with that user's splits; every other balance is unchanged.
   */
  lemma ExpenseContribution(before: seq<Expense>, e: Expense, after: seq<Expense>,
                            payments: seq<Payment>, users: seq<Member>, k: nat)
    requires k < |users|
    ensures CalculateBalances(before + [e] + after, payments, users)[k].amount
         == CalculateBalances(before + after, payments, users)[k].amount
            + (if e.payerId == users[k].id then e.amount else 0.0)
            - Sum(e.splits, ShareOf(users[k].id))
  {
    var f := ExpenseEffectOf(users[k].id);
    SumAppend(before + [e], after, f);
    SumAppend(before, [e], f);
    SumAppend(before, after, f);
    assert Sum([e], f) == f(e);
  }

  /**
   Inserting a completed payment credits the sender and debits the receiver by
   its amount; every other balance is unchanged.
   */
  lemma CompletedPaymentContribution(expenses: seq<Expense>, before: seq<Payment>, p: Payment,
                                     after: seq<Payment>, users: seq<Member>, k: nat)
    requires k < |users|
    requires p.status == Completed
    ensures CalculateBalances(expenses, before + [p] + after, users)[k].amount
         == CalculateBalances(expenses, before + after, users)[k].amount
            + (if p.fromUserId == users[k].id then p.amount else 0.0)
            - (if p.toUserId == users[k].id then p.amount else 0.0)
  {
    var f := PaymentEffectOf(users[k].id);
    SumAppend(before + [p], after, f);
    SumAppend(before, [p], f);
    SumAppend(before, after, f);
    assert Sum([p], f) == f(p);
  }

  /** A pending payment, wherever it sits, changes no output at all. */
  lemma PendingPaymentIgnored(expenses: seq<Expense>, before: seq<Payment>, p: Payment,
                              after: seq<Payment>, users: seq<Member>)
    requires p.status == Pending
    ensures CalculateBalances(expenses, before + [p] + after, users)
         == CalculateBalances(expenses, before + after, users)
  {
    var r1 := CalculateBalances(expenses, before + [p] + after, users);
    var r2 := CalculateBalances(expenses, before + after, users);
    forall k | 0 <= k < |users| ensures r1[k] == r2[k] {
      var f := PaymentEffectOf(users[k].id);
      SumAppend(before + [p], after, f);
      SumAppend(before, [p], f);
      SumAppend(before, after, f);
      assert Sum([p], f) == 0.0;
    }
  }

  /** The result depends only on which expenses and payments there are, not on their order. */
  lemma OrderIndependent(e1: seq<Expense>, e2: seq<Expense>, p1: seq<Payment>, p2: seq<Payment>, users: seq<Member>)
    requires multiset(e1) == multiset(e2)
    requires multiset(p1) == multiset(p2)
    ensures CalculateBalances(e1, p1, users) == CalculateBalances(e2, p2, users)
  {
    var r1 := CalculateBalances(e1, p1, users);
    var r2 := CalculateBalances(e2, p2, users);
    forall k | 0 <= k < |users| ensures r1[k] == r2[k] {
      var id := users[k].id;
      SumPermutation(e1, e2, ExpenseEffectOf(id));
      SumPermutation(p1, p2, PaymentEffectOf(id));
      assert Net(id, e1, p1) == Net(id, e2, p2);
    }
  }

  // ---------------------------------------------------------------------------
  // Conservation
  // ---------------------------------------------------------------------------

  function AmountOf(b: Balance): real
  {
    b.amount
  }

  /** The sum of a list of balances. */
  function Total(bs: seq<Balance>): real
  {
    Sum(bs, AmountOf)
  }

  /** No id occurs twice on the roster. */
  predicate DistinctIds(users: seq<Member>)
  {
    forall a, b :: 0 <= a < b < |users| ==> users[a].id != users[b].id
  }

  /** The splits of an expense add up to its amount. */
  predicate FullySplit(e: Expense)
  {
    Sum(e.splits, SplitAmount) == e.amount
  }

  function SplitAmount(s: ExpenseSplit): real
  {
    s.amount
  }

  /** Every id an expense or a completed payment mentions is on the roster. */
  predicate OnRoster(expenses: seq<Expense>, payments: seq<Payment>, users: seq<Member>)
  {
    && (forall e :: e in expenses ==> e.payerId in Ids(users) && forall s :: s in e.splits ==> s.userId in Ids(users))
    && (forall p :: p in payments && p.status == Completed ==> p.fromUserId in Ids(users) && p.toUserId in Ids(users))
  }

  lemma {:induction false} ReportOpenIsZero(users: seq<Member>, l: Ledger)
    requires forall u :: u in users ==> u.id in l && l[u.id] == 0.0
    ensures Total(Report(l, users)) == 0.0
  {
    if |users| > 0 {
      ReportOpenIsZero(users[1..], l);
    }
  }

  /** Adding x to one roster entry that occurs exactly once adds x to the total. */
  lemma {:induction false} TotalAdd(l: Ledger, users: seq<Member>, id: string, x: real)
    requires forall u :: u in users ==> u.id in l
    requires DistinctIds(users)
    requires id in Ids(users)
    ensures Total(Report(Add(l, id, x), users)) == Total(Report(l, users)) + x
  {
    var l' := Add(l, id, x);
    if users[0].id == id {
      var rest := users[1..];
      assert forall u :: u in rest ==> u.id != id by {
        forall u | u in rest ensures u.id != id {
          var b :| 0 <= b < |rest| && rest[b] == u;
          assert users[b + 1] == u;
        }
      }
      assert Report(l', rest) == Report(l, rest);
    } else {
      assert id in Ids(users[1..]) by {
        var u :| u in users && u.id == id;
        assert u != users[0];
      }
      TotalAdd(l, users[1..], id, x);
    }
  }

  lemma {:induction false} TotalApplySplits(l: Ledger, splits: seq<ExpenseSplit>, users: seq<Member>)
    requires Ids(users) <= l.Keys
    requires DistinctIds(users)
    requires forall s :: s in splits ==> s.userId in Ids(users)
    ensures Total(Report(ApplySplits(l, splits), users)) == Total(Report(l, users)) - Sum(splits, SplitAmount)
  {
    if |splits| > 0 {
      var l' := Add(l, splits[0].userId, -splits[0].amount);
      TotalAdd(l, users, splits[0].userId, -splits[0].amount);
      assert forall s :: s in splits[1..] ==> s in splits;
      TotalApplySplits(l', splits[1..], users);
    }
  }

  /** A fully split expense on the roster leaves the total unchanged. */
  lemma TotalApplyExpense(l: Ledger, e: Expense, users: seq<Member>)
    requires Ids(users) <= l.Keys
    requires DistinctIds(users)
    requires e.payerId in Ids(users)
    requires forall s :: s in e.splits ==> s.userId in Ids(users)
    requires FullySplit(e)
    ensures Total(Report(ApplyExpense(l, e), users)) == Total(Report(l, users))
  {
    TotalAdd(l, users, e.payerId, e.amount);
    TotalApplySplits(Add(l, e.payerId, e.amount), e.splits, users);
  }

  lemma {:induction false} TotalApplyExpenses(l: Ledger, expenses: seq<Expense>, users: seq<Member>)
    requires Ids(users) <= l.Keys
    requires DistinctIds(users)
    requires OnRoster(expenses, [], users)
    requires forall e :: e in expenses ==> FullySplit(e)
    ensures Total(Report(ApplyExpenses(l, expenses), users)) == Total(Report(l, users))
  {
    if |expenses| > 0 {
      var e := expenses[0];
      assert e in expenses;
      TotalApplyExpense(l, e, users);
      assert OnRoster(expenses[1..], [], users) by {
        assert forall e' :: e' in expenses[1..] ==> e' in expenses;
      }
      TotalApplyExpenses(ApplyExpense(l, e), expenses[1..], users);
    }
  }

  /** A payment between roster members leaves the total unchanged. */
  lemma TotalApplyPayment(l: Ledger, p: Payment, users: seq<Member>)
    requires Ids(users) <= l.Keys
    requires DistinctIds(users)
    requires p.status == Completed ==> p.fromUserId in Ids(users) && p.toUserId in Ids(users)
    ensures Total(Report(ApplyPayment(l, p), users)) == Total(Report(l, users))
  {
    if p.status == Completed {
      var l1 := Add(l, p.fromUserId, p.amount);
      assert forall u :: u in users ==> u.id in l by {
        forall u | u in users ensures u.id in l {
          assert u.id in Ids(users);
        }
      }
      var l2 := Add(l1, p.toUserId, -p.amount);
      assert ApplyPayment(l, p) == l2;
      assert forall u :: u in users ==> u.id in l1;
      TotalAdd(l, users, p.fromUserId, p.amount);
      TotalAdd(l1, users, p.toUserId, -p.amount);
      assert Total(Report(l2, users)) == Total(Report(l, users));
    }
  }

  lemma {:induction false} TotalApplyPayments(l: Ledger, payments: seq<Payment>, users: seq<Member>)
    requires Ids(users) <= l.Keys
    requires DistinctIds(users)
    requires OnRoster([], payments, users)
    ensures Total(Report(ApplyPayments(l, payments), users)) == Total(Report(l, users))
  {
    if |payments| > 0 {
      var p := payments[0];
      assert p in payments;
      TotalApplyPayment(l, p, users);
      assert OnRoster([], payments[1..], users) by {
        assert forall p' :: p' in payments[1..] ==> p' in payments;
      }
      TotalApplyPayments(ApplyPayment(l, p), payments[1..], users);
    }
  }

  /**
   Conservation: when every expense is fully split and every id mentioned is a
   distinct roster member, the balances sum to zero.
   */
  lemma Conservation(expenses: seq<Expense>, payments: seq<Payment>, users: seq<Member>)
    requires DistinctIds(users)
    requires OnRoster(expenses, payments, users)
    requires forall e :: e in expenses ==> FullySplit(e)
    ensures Total(CalculateBalances(expenses, payments, users)) == 0.0
  {
    var l0 := Open(users);
    var l1 := ApplyExpenses(l0, expenses);
    ReportOpenIsZero(users, l0);
    TotalApplyExpenses(l0, expenses, users);
    TotalApplyPayments(l1, payments, users);
    assert CalculateBalances(expenses, payments, users) == Report(Settled(expenses, payments, users), users);
  }
}
