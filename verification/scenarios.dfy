/**
 Worked examples: three co-owners sharing one expense, a settlement payment,
 and a case where remainders of less than a cent, each left behind by the
 loop, add up to more than a cent that no transaction covers.
 */
module Scenarios {
  import opened Types
  import opened Balances
  import opened Debts
  import opened StableSort
  import opened Sums

  const Anna := Member("a", "Anna")
  const Erik := Member("e", "Erik")
  const Joel := Member("j", "Joel")

  function Roster(): seq<Member>
  {
    [Anna, Erik, Joel]
  }

  /** 300 paid by Anna, split evenly between the three. */
  function Diesel(): Expense
  {
    Expense("x1", "Diesel", 300.0, "a", "g", Fuel,
            [ExpenseSplit("s1", "x1", "a", 100.0),
             ExpenseSplit("s2", "x1", "e", 100.0),
             ExpenseSplit("s3", "x1", "j", 100.0)])
  }

  /** Erik pays Anna back the 100 of Erik's share; `status` decides whether it counts. */
  function Repayment(status: PaymentStatus): Payment
  {
    Payment("p1", "e", "a", "Erik", "Anna", 100.0, status)
  }

  /** A sum over one element is that element's contribution. */
  lemma SumOne<T>(x: T, f: T -> real)
    ensures Sum([x], f) == f(x)
  {
    assert [x][1..] == [];
  }

  /** Diesel's splits give each co-owner a share of 100. */
  lemma DieselShares(id: string)
    ensures Sum(Diesel().splits, ShareOf(id)) == if id == "a" || id == "e" || id == "j" then 100.0 else 0.0
  {
    var ss := Diesel().splits;
    assert ss[1..][1..][1..] == [];
    SumOne(ss[2], ShareOf(id));
    assert ss[1..][1..] == [ss[2]];
  }

  /** Diesel leaves the payer 200 to the good and the others 100 short. */
  lemma DieselEffects()
    ensures Net("a", [Diesel()], []) == 200.0
    ensures Net("e", [Diesel()], []) == -100.0
    ensures Net("j", [Diesel()], []) == -100.0
  {
    DieselShares("a");
    DieselShares("e");
    DieselShares("j");
    SumOne(Diesel(), ExpenseEffectOf("a"));
    SumOne(Diesel(), ExpenseEffectOf("e"));
    SumOne(Diesel(), ExpenseEffectOf("j"));
  }

  /** The balances of a roster of three, written out. */
  lemma BalancesOfThree(expenses: seq<Expense>, payments: seq<Payment>, users: seq<Member>)
    requires |users| == 3
    ensures CalculateBalances(expenses, payments, users)
         == [Balance(users[0].id, users[0].name, Net(users[0].id, expenses, payments)),
             Balance(users[1].id, users[1].name, Net(users[1].id, expenses, payments)),
             Balance(users[2].id, users[2].name, Net(users[2].id, expenses, payments))]
  {
    var r := CalculateBalances(expenses, payments, users);
    assert r == [r[0], r[1], r[2]];
  }

  /** The payer is owed the two shares that are not the payer's own; the others owe one share each. */
  lemma SharedExpense()
    ensures CalculateBalances([Diesel()], [], Roster())
         == [Balance("a", "Anna", 200.0), Balance("e", "Erik", -100.0), Balance("j", "Joel", -100.0)]
  {
    DieselEffects();
    BalancesOfThree([Diesel()], [], Roster());
  }

  /** Erik's repayment moves 100 towards Erik and away from Anna, and touches nobody else. */
  lemma RepaymentEffects()
    ensures Net("a", [Diesel()], [Repayment(Completed)]) == 100.0
    ensures Net("e", [Diesel()], [Repayment(Completed)]) == 0.0
    ensures Net("j", [Diesel()], [Repayment(Completed)]) == -100.0
  {
    DieselEffects();
    SumOne(Repayment(Completed), PaymentEffectOf("a"));
    SumOne(Repayment(Completed), PaymentEffectOf("e"));
    SumOne(Repayment(Completed), PaymentEffectOf("j"));
  }

  /** A completed repayment clears Erik and halves what Anna is owed. */
  lemma Repaid()
    ensures CalculateBalances([Diesel()], [Repayment(Completed)], Roster())
         == [Balance("a", "Anna", 100.0), Balance("e", "Erik", 0.0), Balance("j", "Joel", -100.0)]
  {
    RepaymentEffects();
    BalancesOfThree([Diesel()], [Repayment(Completed)], Roster());
  }

  const AnnaOwed := Balance("a", "Anna", 200.0)
  const ErikOwes := Balance("e", "Erik", -100.0)
  const JoelOwes := Balance("j", "Joel", -100.0)

  lemma SharedSides()
    ensures Ordered(Creditors, [AnnaOwed, ErikOwes, JoelOwes]) == [AnnaOwed]
    ensures Ordered(Debtors, [AnnaOwed, ErikOwes, JoelOwes]) == [ErikOwes, JoelOwes]
  {
    var bs := [AnnaOwed, ErikOwes, JoelOwes];
    assert bs[1..] == [ErikOwes, JoelOwes];
    assert [ErikOwes, JoelOwes][1..] == [JoelOwes];
    assert Filter(Creditors, [JoelOwes]) == [];
    assert Filter(Creditors, [ErikOwes, JoelOwes]) == [];
    assert Filter(Creditors, bs) == [AnnaOwed];
    assert Filter(Debtors, [JoelOwes]) == [JoelOwes];
    assert Filter(Debtors, [ErikOwes, JoelOwes]) == [ErikOwes, JoelOwes];
    assert Filter(Debtors, bs) == [ErikOwes, JoelOwes];
    assert Sort(Creditors, [AnnaOwed]) == [AnnaOwed];
    assert Sort(Debtors, [JoelOwes]) == [JoelOwes];
    assert Sort(Debtors, [ErikOwes, JoelOwes]) == [ErikOwes, JoelOwes];
  }

  lemma SharedRun()
    ensures Run(State([-100.0, -100.0], [200.0], 0, 0)).0 == [Match(0, 0, 100.0), Match(1, 0, 100.0)]
  {
    var s0 := State([-100.0, -100.0], [200.0], 0, 0);
    var st0 := Step(s0);
    assert st0.1 == Match(0, 0, 100.0);
    assert st0.0.debts == [0.0, -100.0];
    assert st0.0.credits == [100.0];
    assert st0.0.i == 1 && st0.0.j == 0;
    var s1 := st0.0;
    var st1 := Step(s1);
    assert st1.1 == Match(1, 0, 100.0);
    assert st1.0.debts == [0.0, 0.0];
    assert st1.0.credits == [0.0];
    assert st1.0.i == 2 && st1.0.j == 1;
    RunUnfold(s1);
    RunUnfold(s0);
  }

  /** The loop starts at the first debtor and the first creditor with the amounts of the sorted lists. */
  lemma SharedInitial()
    ensures Initial([ErikOwes, JoelOwes], [AnnaOwed]) == State([-100.0, -100.0], [200.0], 0, 0)
  {
    assert Amounts([ErikOwes, JoelOwes]) == [-100.0, -100.0];
    assert Amounts([AnnaOwed]) == [200.0];
  }

  lemma SharedPlan()
    ensures MakePlan([AnnaOwed, ErikOwes, JoelOwes]).debtors == [ErikOwes, JoelOwes]
    ensures MakePlan([AnnaOwed, ErikOwes, JoelOwes]).creditors == [AnnaOwed]
    ensures MakePlan([AnnaOwed, ErikOwes, JoelOwes]).matches == [Match(0, 0, 100.0), Match(1, 0, 100.0)]
  {
    var p := MakePlan([AnnaOwed, ErikOwes, JoelOwes]);
    SharedSides();
    SharedInitial();
    SharedRun();
    assert p.matches == Run(Initial(p.debtors, p.creditors)).0;
  }

  lemma SharedRecord()
    ensures Record([ErikOwes, JoelOwes], [AnnaOwed], [Match(0, 0, 100.0), Match(1, 0, 100.0)])
         == [Transaction("Erik", "Anna", 100.0), Transaction("Joel", "Anna", 100.0)]
  {
    var ds := [ErikOwes, JoelOwes];
    var cs := [AnnaOwed];
    var ms := [Match(0, 0, 100.0), Match(1, 0, 100.0)];
    assert Round2(100.0) == 100.0;
    assert ms[1..] == [Match(1, 0, 100.0)] && ms[1..][1..] == [];
    assert Record(ds, cs, ms[1..][1..]) == [];
    assert Record(ds, cs, ms[1..]) == [Transaction("Joel", "Anna", 100.0)];
  }

  /** The two debtors each pay Anna 100, in roster order since their debts are equal. */
  lemma SettleSharedExpense()
    ensures SimplifyDebts([AnnaOwed, ErikOwes, JoelOwes])
         == [Transaction("Erik", "Anna", 100.0), Transaction("Joel", "Anna", 100.0)]
  {
    SharedPlan();
    SharedRecord();
  }

  const D1 := Balance("d1", "D1", -1.009)
  const D2 := Balance("d2", "D2", -1.009)
  const C1 := Balance("c1", "C1", 1.0)
  const C2 := Balance("c2", "C2", 1.0)
  const C3 := Balance("c3", "C3", 0.018)

  /** Two debtors of 1.009 against creditors of 1, 1 and 0.018. */
  function Uneven(): seq<Balance>
  {
    [D1, D2, C1, C2, C3]
  }

  lemma UnevenTotal()
    ensures Total(Uneven()) == 0.0
  {
    var bs := Uneven();
    assert bs[1..][1..][1..][1..][1..] == [];
  }

  lemma UnevenDebtorsFiltered()
    ensures Filter(Debtors, Uneven()) == [D1, D2]
  {
    var bs := Uneven();
    assert bs[1..] == [D2, C1, C2, C3];
    assert bs[1..][1..] == [C1, C2, C3];
    assert bs[1..][1..][1..] == [C2, C3];
    assert bs[1..][1..][1..][1..] == [C3];
    assert Filter(Debtors, [C3]) == [];
    assert Filter(Debtors, [C2, C3]) == [];
    assert Filter(Debtors, [C1, C2, C3]) == [];
    assert Filter(Debtors, [D2, C1, C2, C3]) == [D2];
  }

  lemma UnevenCreditorsFiltered()
    ensures Filter(Creditors, Uneven()) == [C1, C2, C3]
  {
    var bs := Uneven();
    assert bs[1..] == [D2, C1, C2, C3];
    assert bs[1..][1..] == [C1, C2, C3];
    assert bs[1..][1..][1..] == [C2, C3];
    assert bs[1..][1..][1..][1..] == [C3];
    assert Filter(Creditors, [C3]) == [C3];
    assert Filter(Creditors, [C2, C3]) == [C2, C3];
    assert Filter(Creditors, [C1, C2, C3]) == [C1, C2, C3];
    assert Filter(Creditors, [D2, C1, C2, C3]) == [C1, C2, C3];
  }

  lemma UnevenSides()
    ensures Ordered(Debtors, Uneven()) == [D1, D2]
    ensures Ordered(Creditors, Uneven()) == [C1, C2, C3]
  {
    UnevenDebtorsFiltered();
    UnevenCreditorsFiltered();
    var ds := [D1, D2];
    var cs := [C1, C2, C3];
    assert Sorted(Debtors, ds) by {
      forall a, b | 0 <= a < b < |ds| ensures !Before(Debtors, ds[b], ds[a]) {
        assert ds[a].amount == ds[b].amount;
      }
    }
    assert Sorted(Creditors, cs) by {
      forall a, b | 0 <= a < b < |cs| ensures !Before(Creditors, cs[b], cs[a]) {
        assert cs[b].amount <= 1.0 && cs[a].amount >= cs[b].amount;
      }
    }
    SortSorted(Debtors, ds);
    SortSorted(Creditors, cs);
  }

  lemma UnevenInitial()
    ensures Initial([D1, D2], [C1, C2, C3]) == State([-1.009, -1.009], [1.0, 1.0, 0.018], 0, 0)
  {
    assert Amounts([D1, D2]) == [-1.009, -1.009];
    assert Amounts([C1, C2, C3]) == [1.0, 1.0, 0.018];
  }

  /** Each debtor clears one creditor of 1 and is passed owing 0.009; the loop ends before the third creditor. */
  lemma UnevenRun()
    ensures Run(State([-1.009, -1.009], [1.0, 1.0, 0.018], 0, 0)).0 == [Match(0, 0, 1.0), Match(1, 1, 1.0)]
    ensures Run(State([-1.009, -1.009], [1.0, 1.0, 0.018], 0, 0)).1.credits == [0.0, 0.0, 0.018]
  {
    var s0 := State([-1.009, -1.009], [1.0, 1.0, 0.018], 0, 0);
    var st0 := Step(s0);
    assert st0.1 == Match(0, 0, 1.0);
    assert st0.0.debts == [-0.009, -1.009];
    assert st0.0.credits == [0.0, 1.0, 0.018];
    assert st0.0.i == 1 && st0.0.j == 1;
    var s1 := st0.0;
    var st1 := Step(s1);
    assert st1.1 == Match(1, 1, 1.0);
    assert st1.0.debts == [-0.009, -0.009];
    assert st1.0.credits == [0.0, 0.0, 0.018];
    assert st1.0.i == 2 && st1.0.j == 2;
    RunUnfold(s1);
    RunUnfold(s0);
  }

  lemma UnevenPlan()
    ensures MakePlan(Uneven()).debtors == [D1, D2]
    ensures MakePlan(Uneven()).creditors == [C1, C2, C3]
    ensures MakePlan(Uneven()).matches == [Match(0, 0, 1.0), Match(1, 1, 1.0)]
    ensures MakePlan(Uneven()).final.credits == [0.0, 0.0, 0.018]
  {
    var p := MakePlan(Uneven());
    UnevenSides();
    UnevenInitial();
    UnevenRun();
    assert (p.matches, p.final) == Run(Initial(p.debtors, p.creditors));
  }

  lemma UnevenRecord()
    ensures Record([D1, D2], [C1, C2, C3], [Match(0, 0, 1.0), Match(1, 1, 1.0)])
         == [Transaction("D1", "C1", 1.0), Transaction("D2", "C2", 1.0)]
  {
    var ds := [D1, D2];
    var cs := [C1, C2, C3];
    var ms := [Match(0, 0, 1.0), Match(1, 1, 1.0)];
    assert Round2(1.0) == 1.0;
    assert ms[1..] == [Match(1, 1, 1.0)] && ms[1..][1..] == [];
    assert Record(ds, cs, ms[1..][1..]) == [];
    assert Record(ds, cs, ms[1..]) == [Transaction("D2", "C2", 1.0)];
  }

  /**
   Balances that sum to zero, yet the plan leaves the creditor of 0.018 with
   all of it: each debtor pays one creditor of 1 and is passed with 0.009
   still owed, and no transaction ever reaches the third creditor.
   */
  lemma ResidueLeftUnsettled()
    ensures Total(Uneven()) == 0.0
    ensures SimplifyDebts(Uneven()) == [Transaction("D1", "C1", 1.0), Transaction("D2", "C2", 1.0)]
    ensures MakePlan(Uneven()).final.credits[2] == 0.018 > Epsilon
  {
    UnevenTotal();
    UnevenPlan();
    UnevenRecord();
  }
}
