/**
 simplifyDebts (src/lib/utils.ts:41-67): greedy two-cursor matching of
 debtors against creditors.

 The source mutates the `amount` of the Balance objects it sorted; here the
 remaining amounts are copied into a `State` (one list per side plus the two
 cursors) and every pass of the loop body is one `Step`. `Run` plays the loop
 to its end and returns every `Match` it made, recorded or not, so that the
 invariants can be stated against the original balances.
 */
module Debts {
  import opened Types
  import opened StableSort
  import opened Balances
  import opened Sums

  /** The tolerance of the loop: one cent. */
  const Epsilon: real := 0.01

  function Abs(x: real): real
  {
    if x < 0.0 then -x else x
  }

  /** `Math.min` of two reals. */
  function Min(a: real, b: real): real
  {
    if a <= b then a else b
  }

  // ---------------------------------------------------------------------------
  // Cent rounding
  // ---------------------------------------------------------------------------

  /** `Math.round(x * 100) / 100`, where `Math.round(y)` is the floor of y + 1/2. */
  function Round2(x: real): real
  {
    ((x * 100.0 + 0.5).Floor as real) / 100.0
  }

  /** Rounding moves a value by at most half a cent, gives whole cents, and keeps anything above a cent at least a cent. */
  lemma RoundToCents(x: real)
    ensures -0.005 < Round2(x) - x <= 0.005
    ensures (Round2(x) * 100.0).Floor as real == Round2(x) * 100.0
    ensures x > Epsilon ==> Round2(x) >= Epsilon
  {
    var n := (x * 100.0 + 0.5).Floor;
    assert n as real <= x * 100.0 + 0.5 < n as real + 1.0;
    assert Round2(x) * 100.0 == n as real;
    if x > Epsilon {
      assert n >= 1;
    }
  }

  // ---------------------------------------------------------------------------
  // The loop
  // ---------------------------------------------------------------------------

  /** One pass of the loop body: `amount` moved from debtor number `debtor` to creditor number `creditor`. */
  datatype Match = Match(debtor: nat, creditor: nat, amount: real)

  /** The remaining amounts of the sorted debtors and creditors, and the two cursors `i` and `j`. */
  datatype State = State(debts: seq<real>, credits: seq<real>, i: nat, j: nat)

  /**
   The loop invariant: every debtor behind the cursor is within a cent of zero
   and not positive, every debtor at or after it still owes; symmetrically for
   creditors.
   */
  predicate Valid(s: State)
  {
    && s.i <= |s.debts| && s.j <= |s.credits|
    && (forall k :: 0 <= k < s.i ==> -Epsilon < s.debts[k] <= 0.0)
    && (forall k :: s.i <= k < |s.debts| ==> s.debts[k] < 0.0)
    && (forall k :: 0 <= k < s.j ==> 0.0 <= s.credits[k] < Epsilon)
    && (forall k :: s.j <= k < |s.credits| ==> s.credits[k] > 0.0)
  }

  /** The loop condition `i < debtors.length && j < creditors.length`. */
  predicate Running(s: State)
  {
    s.i < |s.debts| && s.j < |s.credits|
  }

  /**
   One pass of the loop body. The amount moved is positive and fits both the
   current debt and the current credit; it takes one of them to exactly zero.
   A cursor moves on exactly when its party is left within a cent of zero, so
   at least one of them does; nothing but the two current parties changes.
   */
  function Step(s: State): (r: (State, Match))
    requires Valid(s) && Running(s)
    ensures Valid(r.0)
    ensures r.1.debtor == s.i && r.1.creditor == s.j
    ensures r.1.amount == Min(-s.debts[s.i], s.credits[s.j]) > 0.0
    ensures r.0.debts == s.debts[s.i := s.debts[s.i] + r.1.amount]
    ensures r.0.credits == s.credits[s.j := s.credits[s.j] - r.1.amount]
    ensures r.0.debts[s.i] == 0.0 || r.0.credits[s.j] == 0.0
    ensures r.0.i == if Abs(r.0.debts[s.i]) < Epsilon then s.i + 1 else s.i
    ensures r.0.j == if Abs(r.0.credits[s.j]) < Epsilon then s.j + 1 else s.j
    ensures r.0.i + r.0.j > s.i + s.j
  {
    var x := Min(-s.debts[s.i], s.credits[s.j]);
    var debts := s.debts[s.i := s.debts[s.i] + x];
    var credits := s.credits[s.j := s.credits[s.j] - x];
    var i := if Abs(debts[s.i]) < Epsilon then s.i + 1 else s.i;
    var j := if Abs(credits[s.j]) < Epsilon then s.j + 1 else s.j;
    (State(debts, credits, i, j), Match(s.i, s.j, x))
  }

  /** The index a match uses on one side. */
  function PartyOf(m: Match, side: Side): nat
  {
    if side == Debtors then m.debtor else m.creditor
  }

  /** The total moved by the matches that involve party `k` of one side. */
  function Moved(ms: seq<Match>, side: Side, k: nat): real
  {
    if |ms| == 0 then 0.0
    else (if PartyOf(ms[0], side) == k then ms[0].amount else 0.0) + Moved(ms[1..], side, k)
  }

  /**
   The whole loop, from state `s` on: the matches made, in order, and the
   final state. The loop stops with one side exhausted and the invariant
   intact; the cursors only advance.
   */
  function Run(s: State): (r: (seq<Match>, State))
    requires Valid(s)
    ensures Valid(r.1) && !Running(r.1)
    ensures |r.1.debts| == |s.debts| && |r.1.credits| == |s.credits|
    ensures s.i <= r.1.i && s.j <= r.1.j
    ensures !Running(s) ==> r.0 == [] && r.1 == s
    ensures Running(s) ==> |r.0| > 0 && r.0[0] == Step(s).1
    decreases |s.debts| - s.i + |s.credits| - s.j
  {
    if !Running(s) then ([], s)
    else
      var st := Step(s);
      var rest := Run(st.0);
      ([st.1] + rest.0, rest.1)
  }

  /** One unfolding of `Run`. */
  lemma RunUnfold(s: State)
    requires Valid(s) && Running(s)
    ensures Run(s).0 == [Step(s).1] + Run(Step(s).0).0
    ensures Run(s).1 == Run(Step(s).0).1
  {
  }

  /** The loop makes fewer matches than there are parties left when it starts. */
  lemma {:induction false} RunBound(s: State)
    requires Valid(s) && Running(s)
    ensures |Run(s).0| + s.i + s.j < |s.debts| + |s.credits|
    decreases |s.debts| - s.i + |s.credits| - s.j
  {
    var next := Step(s).0;
    RunUnfold(s);
    if Running(next) {
      RunBound(next);
    }
  }

  /** Each match involves parties at or after the starting cursors and no further than the final ones, and moves a positive amount. */
  lemma {:induction false} RunMatchesInRange(s: State)
    requires Valid(s)
    ensures forall m :: m in Run(s).0 ==>
              && s.i <= m.debtor < |s.debts| && m.debtor <= Run(s).1.i
              && s.j <= m.creditor < |s.credits| && m.creditor <= Run(s).1.j
              && m.amount > 0.0
    decreases |s.debts| - s.i + |s.credits| - s.j
  {
    if Running(s) {
      var next := Step(s).0;
      RunUnfold(s);
      RunMatchesInRange(next);
    }
  }

  /** The cursors never move back: matches come in order of debtor and of creditor. */
  lemma {:induction false} RunCursorOrder(s: State)
    requires Valid(s)
    ensures var ms := Run(s).0;
            forall a, b :: 0 <= a < b < |ms| ==> ms[a].debtor <= ms[b].debtor && ms[a].creditor <= ms[b].creditor
    decreases |s.debts| - s.i + |s.credits| - s.j
  {
    if Running(s) {
      var next := Step(s).0;
      var ms := Run(s).0;
      var rest := Run(next).0;
      RunUnfold(s);
      RunCursorOrder(next);
      RunMatchesInRange(next);
      forall a, b | 0 <= a < b < |ms| ensures ms[a].debtor <= ms[b].debtor && ms[a].creditor <= ms[b].creditor {
        assert ms[b] == rest[b - 1];
        if a > 0 {
          assert ms[a] == rest[a - 1];
        } else {
          assert rest[b - 1] in rest;
        }
      }
    }
  }

  /** Moved over a list with a given head. */
  lemma MovedCons(m: Match, ms: seq<Match>, side: Side, k: nat)
    ensures Moved([m] + ms, side, k) == (if PartyOf(m, side) == k then m.amount else 0.0) + Moved(ms, side, k)
  {
    assert ([m] + ms)[1..] == ms;
  }

  /**
   Conservation per party: each remaining amount is the starting amount moved
   by exactly the matches that involve that party.
   */
  lemma {:induction false} RunMoved(s: State)
    requires Valid(s)
    ensures forall k :: 0 <= k < |s.debts| ==> Run(s).1.debts[k] == s.debts[k] + Moved(Run(s).0, Debtors, k)
    ensures forall k :: 0 <= k < |s.credits| ==> Run(s).1.credits[k] == s.credits[k] - Moved(Run(s).0, Creditors, k)
    decreases |s.debts| - s.i + |s.credits| - s.j
  {
    if Running(s) {
      var st := Step(s);
      RunUnfold(s);
      RunMoved(st.0);
      forall k | 0 <= k < |s.debts| {
        MovedCons(st.1, Run(st.0).0, Debtors, k);
      }
      forall k | 0 <= k < |s.credits| {
        MovedCons(st.1, Run(st.0).0, Creditors, k);
      }
    }
  }

  /**
   Match number `n` moves the smaller of what its debtor still owes and what
   its creditor is still owed, where "still" means the starting amount moved
   by the earlier matches involving that party.
   */
  predicate GreedyAt(debts: seq<real>, credits: seq<real>, ms: seq<Match>, n: nat)
    requires n < |ms|
  {
    var m := ms[n];
    && m.debtor < |debts| && m.creditor < |credits|
    && m.amount == Min(-(debts[m.debtor] + Moved(ms[..n], Debtors, m.debtor)),
                       credits[m.creditor] - Moved(ms[..n], Creditors, m.creditor))
  }

  /** Every match of `ms` is greedy with respect to the starting amounts. */
  predicate Greedy(debts: seq<real>, credits: seq<real>, ms: seq<Match>)
  {
    forall n :: 0 <= n < |ms| ==> GreedyAt(debts, credits, ms, n)
  }

  /** Each match the loop makes moves the smaller of the remaining debt and the remaining credit. */
  lemma {:induction false} MatchIsGreedy(s: State)
    requires Valid(s)
    ensures Greedy(s.debts, s.credits, Run(s).0)
    decreases |s.debts| - s.i + |s.credits| - s.j
  {
    if Running(s) {
      var st := Step(s);
      var first := st.1;
      RunUnfold(s);
      MatchIsGreedy(st.0);
      assert first.debtor == s.i && first.creditor == s.j;
      assert st.0.debts == s.debts[first.debtor := s.debts[first.debtor] + first.amount];
      assert st.0.credits == s.credits[first.creditor := s.credits[first.creditor] - first.amount];
      GreedyCons(s.debts, s.credits, first, Run(st.0).0);
    }
  }

  /**
   A greedy first match followed by matches that are greedy with respect to
   the amounts it leaves is greedy throughout.
   */
  lemma GreedyCons(debts: seq<real>, credits: seq<real>, first: Match, rest: seq<Match>)
    requires first.debtor < |debts| && first.creditor < |credits|
    requires first.amount == Min(-debts[first.debtor], credits[first.creditor])
    requires Greedy(debts[first.debtor := debts[first.debtor] + first.amount],
                    credits[first.creditor := credits[first.creditor] - first.amount], rest)
    ensures Greedy(debts, credits, [first] + rest)
  {
    var ms := [first] + rest;
    forall n | 0 <= n < |ms| ensures GreedyAt(debts, credits, ms, n) {
      if n == 0 {
        assert ms[..0] == [];
      } else {
        assert GreedyAt(debts[first.debtor := debts[first.debtor] + first.amount],
                        credits[first.creditor := credits[first.creditor] - first.amount], rest, n - 1);
        assert ms[n] == rest[n - 1];
        assert ms[..n] == [first] + rest[..n - 1];
        GreedyShift(debts, credits, first, rest[..n - 1], ms[n]);
      }
    }
  }

  /**
   The inductive step of `MatchIsGreedy`: a match that is greedy with respect
   to the amounts after `first` is greedy with respect to the amounts before
   it, once `first` is counted among the earlier matches.
   */
  lemma GreedyShift(debts: seq<real>, credits: seq<real>, first: Match, before: seq<Match>, m: Match)
    requires first.debtor < |debts| && first.creditor < |credits|
    requires m.debtor < |debts| && m.creditor < |credits|
    requires var debts' := debts[first.debtor := debts[first.debtor] + first.amount];
             var credits' := credits[first.creditor := credits[first.creditor] - first.amount];
             m.amount == Min(-(debts'[m.debtor] + Moved(before, Debtors, m.debtor)),
                             credits'[m.creditor] - Moved(before, Creditors, m.creditor))
    ensures m.amount == Min(-(debts[m.debtor] + Moved([first] + before, Debtors, m.debtor)),
                            credits[m.creditor] - Moved([first] + before, Creditors, m.creditor))
  {
    MovedCons(first, before, Debtors, m.debtor);
    MovedCons(first, before, Creditors, m.creditor);
  }

  // ---------------------------------------------------------------------------
  // Transactions
  // ---------------------------------------------------------------------------

  /** The transaction a match would record: names of the two parties and the amount rounded to cents. */
  function Transfer(debtors: seq<Balance>, creditors: seq<Balance>, m: Match): Transaction
    requires m.debtor < |debtors| && m.creditor < |creditors|
  {
    Transaction(debtors[m.debtor].userName, creditors[m.creditor].userName, Round2(m.amount))
  }

  /** A debtor paying a creditor the smaller of the debt and the credit, rounded to cents. */
  function Exchange(debtor: Balance, creditor: Balance): Transaction
  {
    Transaction(debtor.userName, creditor.userName, Round2(Min(-debtor.amount, creditor.amount)))
  }

  /** The matches that move more than a cent, in order. */
  function Above(ms: seq<Match>): (r: seq<Match>)
    ensures |r| <= |ms|
    ensures forall m :: m in r <==> m in ms && m.amount > Epsilon
  {
    if |ms| == 0 then []
    else
      assert ms == [ms[0]] + ms[1..];
      if ms[0].amount > Epsilon then [ms[0]] + Above(ms[1..]) else Above(ms[1..])
  }

  /**
   One transaction per match that moves more than a cent, in the order of the
   matches; the other matches leave no trace.
   */
  function Record(debtors: seq<Balance>, creditors: seq<Balance>, ms: seq<Match>): (txs: seq<Transaction>)
    requires forall m :: m in ms ==> m.debtor < |debtors| && m.creditor < |creditors|
    ensures |txs| == |Above(ms)|
    ensures forall n :: 0 <= n < |txs| ==> Above(ms)[n] in ms && txs[n] == Transfer(debtors, creditors, Above(ms)[n])
  {
    if |ms| == 0 then []
    else
      assert ms == [ms[0]] + ms[1..];
      var rest := Record(debtors, creditors, ms[1..]);
      if ms[0].amount > Epsilon then
        assert Above(ms) == [ms[0]] + Above(ms[1..]);
        [Transfer(debtors, creditors, ms[0])] + rest
      else
        assert Above(ms) == Above(ms[1..]);
        rest
  }

  /** Everything simplifyDebts computes: the two sorted lists, the matches and the final state of the loop. */
  datatype Plan = Plan(debtors: seq<Balance>, creditors: seq<Balance>, matches: seq<Match>, final: State)

  /** The amounts of a list of balances. */
  function Amounts(bs: seq<Balance>): (r: seq<real>)
    ensures |r| == |bs|
    ensures forall k :: 0 <= k < |bs| ==> r[k] == bs[k].amount
  {
    seq(|bs|, k requires 0 <= k < |bs| => bs[k].amount)
  }

  /** The loop state before the first pass. */
  function Initial(debtors: seq<Balance>, creditors: seq<Balance>): State
  {
    State(Amounts(debtors), Amounts(creditors), 0, 0)
  }

  /** Before the first pass the invariant holds of any debtors that owe and creditors that are owed. */
  lemma InitialValid(debtors: seq<Balance>, creditors: seq<Balance>)
    requires forall b :: b in debtors ==> b.amount < 0.0
    requires forall b :: b in creditors ==> b.amount > 0.0
    ensures Valid(Initial(debtors, creditors))
  {
    assert forall k :: 0 <= k < |debtors| ==> debtors[k] in debtors;
    assert forall k :: 0 <= k < |creditors| ==> creditors[k] in creditors;
  }

  /** A plan is what the loop makes of the sorted lists. */
  predicate PlanOf(balances: seq<Balance>, p: Plan)
  {
    && p.debtors == Ordered(Debtors, balances)
    && p.creditors == Ordered(Creditors, balances)
    && Valid(Initial(p.debtors, p.creditors))
    && (p.matches, p.final) == Run(Initial(p.debtors, p.creditors))
    && (forall m :: m in p.matches ==> m.debtor < |p.debtors| && m.creditor < |p.creditors|)
  }

  function MakePlan(balances: seq<Balance>): (p: Plan)
    ensures PlanOf(balances, p)
  {
    var ds := Ordered(Debtors, balances);
    var cs := Ordered(Creditors, balances);
    OrderedSpec(Debtors, balances);
    OrderedSpec(Creditors, balances);
    InitialValid(ds, cs);
    var r := Run(Initial(ds, cs));
    RunMatchesInRange(Initial(ds, cs));
    Plan(ds, cs, r.0, r.1)
  }

  /**
   simplifyDebts. When the first debtor and the first creditor in sorted order
   (a most negative and a most positive balance) would exchange more than a
   cent, the first transaction is that exchange, rounded to cents. Every
   transaction is at least a cent and runs from the name of a balance that is
   negative to the name of one that is positive, and there are fewer
   transactions than nonzero balances.
   */
  function SimplifyDebts(balances: seq<Balance>): (txs: seq<Transaction>)
    ensures var ds := Ordered(Debtors, balances);
            var cs := Ordered(Creditors, balances);
            |ds| > 0 && |cs| > 0 && Min(-ds[0].amount, cs[0].amount) > Epsilon ==>
              |txs| > 0 && txs[0] == Exchange(ds[0], cs[0])
    ensures forall t :: t in txs ==> t.amount >= Epsilon
    ensures forall t :: t in txs ==> exists b :: b in balances && b.amount < 0.0 && b.userName == t.from
    ensures forall t :: t in txs ==> exists b :: b in balances && b.amount > 0.0 && b.userName == t.to
    ensures |txs| == 0 || |txs| < |Filter(Debtors, balances)| + |Filter(Creditors, balances)|
  {
    var p := MakePlan(balances);
    var txs := Record(p.debtors, p.creditors, p.matches);
    FirstTransaction(p.debtors, p.creditors, p.matches);
    TransactionsFromParties(balances, p, txs);
    TransactionCount(balances, p, txs);
    txs
  }

  /**
   When the first debtor and the first creditor exchange more than a cent, the
   first transaction is that exchange.
   */
  lemma FirstTransaction(ds: seq<Balance>, cs: seq<Balance>, ms: seq<Match>)
    requires Valid(Initial(ds, cs)) && ms == Run(Initial(ds, cs)).0
    requires forall m :: m in ms ==> m.debtor < |ds| && m.creditor < |cs|
    ensures |ds| > 0 && |cs| > 0 && Min(-ds[0].amount, cs[0].amount) > Epsilon ==>
              |Record(ds, cs, ms)| > 0 &&
              Record(ds, cs, ms)[0] == Exchange(ds[0], cs[0])
  {
    if |ds| > 0 && |cs| > 0 && Min(-ds[0].amount, cs[0].amount) > Epsilon {
      var m := FirstMatch(ds, cs);
      RecordFirst(ds, cs, ms);
    }
  }

  /** The first pass of the loop matches the first debtor with the first creditor. */
  lemma FirstMatch(ds: seq<Balance>, cs: seq<Balance>) returns (m: Match)
    requires Valid(Initial(ds, cs))
    requires |ds| > 0 && |cs| > 0
    ensures m == Match(0, 0, Min(-ds[0].amount, cs[0].amount))
    ensures |Run(Initial(ds, cs)).0| > 0 && Run(Initial(ds, cs)).0[0] == m
  {
    var s0 := Initial(ds, cs);
    assert Running(s0);
    m := Step(s0).1;
  }

  /** A first match above a cent becomes the first transaction. */
  lemma RecordFirst(debtors: seq<Balance>, creditors: seq<Balance>, ms: seq<Match>)
    requires forall m :: m in ms ==> m.debtor < |debtors| && m.creditor < |creditors|
    requires |ms| > 0 && ms[0].amount > Epsilon
    ensures |Record(debtors, creditors, ms)| > 0
    ensures Record(debtors, creditors, ms)[0] == Transfer(debtors, creditors, ms[0])
  {
    assert Above(ms)[0] == ms[0];
  }

  lemma TransactionsFromParties(balances: seq<Balance>, p: Plan, txs: seq<Transaction>)
    requires PlanOf(balances, p)
    requires txs == Record(p.debtors, p.creditors, p.matches)
    ensures forall t :: t in txs ==> t.amount >= Epsilon
    ensures forall t :: t in txs ==> exists b :: b in balances && b.amount < 0.0 && b.userName == t.from
    ensures forall t :: t in txs ==> exists b :: b in balances && b.amount > 0.0 && b.userName == t.to
  {
    OrderedSpec(Debtors, balances);
    OrderedSpec(Creditors, balances);
    forall t | t in txs
      ensures t.amount >= Epsilon
      ensures exists b :: b in balances && b.amount < 0.0 && b.userName == t.from
      ensures exists b :: b in balances && b.amount > 0.0 && b.userName == t.to
    {
      var n :| 0 <= n < |txs| && txs[n] == t;
      var m := Above(p.matches)[n];
      assert m in Above(p.matches);
      RoundToCents(m.amount);
      var d := p.debtors[m.debtor];
      var c := p.creditors[m.creditor];
      assert d in p.debtors && c in p.creditors;
    }
  }

  lemma TransactionCount(balances: seq<Balance>, p: Plan, txs: seq<Transaction>)
    requires PlanOf(balances, p)
    requires txs == Record(p.debtors, p.creditors, p.matches)
    ensures |txs| == 0 || |txs| < |Filter(Debtors, balances)| + |Filter(Creditors, balances)|
  {
    var s0 := Initial(p.debtors, p.creditors);
    OrderedSpec(Debtors, balances);
    OrderedSpec(Creditors, balances);
    if Running(s0) {
      RunBound(s0);
    }
    assert |p.debtors| == |multiset(p.debtors)| == |Filter(Debtors, balances)|;
    assert |p.creditors| == |multiset(p.creditors)| == |Filter(Creditors, balances)|;
  }

  /**
   A user whose balance is zero, and whose name no other user shares, is in no
   transaction.
   */
  lemma ZeroBalanceNotInTransactions(balances: seq<Balance>, k: nat)
    requires k < |balances|
    requires balances[k].amount == 0.0
    requires forall a :: 0 <= a < |balances| && a != k ==> balances[a].userName != balances[k].userName
    ensures forall t :: t in SimplifyDebts(balances) ==> t.from != balances[k].userName && t.to != balances[k].userName
  {
    var txs := SimplifyDebts(balances);
    forall t | t in txs ensures t.from != balances[k].userName && t.to != balances[k].userName {
      var d :| d in balances && d.amount < 0.0 && d.userName == t.from;
      var c :| c in balances && c.amount > 0.0 && c.userName == t.to;
      var a :| 0 <= a < |balances| && balances[a] == d;
      var b :| 0 <= b < |balances| && balances[b] == c;
    }
  }

  // ---------------------------------------------------------------------------
  // How far the loop settles
  // ---------------------------------------------------------------------------

  function Itself(x: real): real
  {
    x
  }

  /** The sum of a list of amounts. */
  function SumAll(xs: seq<real>): real
  {
    Sum(xs, Itself)
  }

  lemma {:induction false} SumAllUpdate(xs: seq<real>, k: nat, v: real)
    requires k < |xs|
    ensures SumAll(xs[k := v]) == SumAll(xs) - xs[k] + v
  {
    if k > 0 {
      assert xs[k := v][1..] == xs[1..][k - 1 := v];
      SumAllUpdate(xs[1..], k - 1, v);
    }
  }

  /** One pass moves the same amount off a debt and off a credit. */
  lemma StepKeepsTotal(s: State)
    requires Valid(s) && Running(s)
    ensures SumAll(Step(s).0.debts) + SumAll(Step(s).0.credits) == SumAll(s.debts) + SumAll(s.credits)
  {
    var x := Step(s).1.amount;
    SumAllUpdate(s.debts, s.i, s.debts[s.i] + x);
    SumAllUpdate(s.credits, s.j, s.credits[s.j] - x);
  }

  /** The loop moves money between the two sides and creates or destroys none. */
  lemma {:induction false} RunKeepsTotal(s: State)
    requires Valid(s)
    ensures SumAll(Run(s).1.debts) + SumAll(Run(s).1.credits) == SumAll(s.debts) + SumAll(s.credits)
    decreases |s.debts| - s.i + |s.credits| - s.j
  {
    if Running(s) {
      var st := Step(s);
      RunUnfold(s);
      StepKeepsTotal(s);
      RunKeepsTotal(st.0);
    }
  }

  /** Amounts each within a cent below zero sum to less than a cent per amount below zero. */
  lemma {:induction false} SettledDebtsSum(xs: seq<real>)
    requires forall k :: 0 <= k < |xs| ==> -Epsilon < xs[k] <= 0.0
    ensures SumAll(xs) <= 0.0
    ensures |xs| > 0 ==> SumAll(xs) > -Epsilon * (|xs| as real)
  {
    if |xs| > 0 {
      SettledDebtsSum(xs[1..]);
    }
  }

  /** Amounts each within a cent above zero sum to less than a cent per amount. */
  lemma {:induction false} SettledCreditsSum(xs: seq<real>)
    requires forall k :: 0 <= k < |xs| ==> 0.0 <= xs[k] < Epsilon
    ensures SumAll(xs) >= 0.0
    ensures |xs| > 0 ==> SumAll(xs) < Epsilon * (|xs| as real)
  {
    if |xs| > 0 {
      SettledCreditsSum(xs[1..]);
    }
  }

  lemma SumAllCons(xs: seq<real>)
    requires |xs| > 0
    ensures SumAll(xs) == xs[0] + SumAll(xs[1..])
  {
  }

  /** Among amounts of one sign, none is further from zero than their sum. */
  lemma {:induction false} WithinSum(xs: seq<real>, k: nat)
    requires k < |xs|
    ensures (forall a :: 0 <= a < |xs| ==> xs[a] >= 0.0) ==> xs[k] <= SumAll(xs)
    ensures (forall a :: 0 <= a < |xs| ==> xs[a] <= 0.0) ==> xs[k] >= SumAll(xs)
  {
    SumAllCons(xs);
    if k > 0 {
      WithinSum(xs[1..], k - 1);
    } else if |xs| > 1 {
      WithinSum(xs[1..], 0);
    }
  }

  /** Every remaining amount is less than a cent per party away from zero. */
  predicate WithinResidue(f: State)
  {
    var n := (|f.debts| + |f.credits|) as real;
    && (forall k :: 0 <= k < |f.debts| ==> Abs(f.debts[k]) < Epsilon * n)
    && (forall k :: 0 <= k < |f.credits| ==> Abs(f.credits[k]) < Epsilon * n)
  }

  /**
   A final state whose amounts sum to zero leaves every party within one cent
   per party of zero.
   */
  lemma FinalResidue(f: State)
    requires Valid(f) && !Running(f)
    requires SumAll(f.debts) + SumAll(f.credits) == 0.0
    ensures WithinResidue(f)
  {
    var n := (|f.debts| + |f.credits|) as real;
    if f.i == |f.debts| {
      SettledDebtsSum(f.debts);
      forall k | 0 <= k < |f.credits| ensures Abs(f.credits[k]) < Epsilon * n {
        WithinSum(f.credits, k);
      }
    } else {
      SettledCreditsSum(f.credits);
      forall k | 0 <= k < |f.debts| ensures Abs(f.debts[k]) < Epsilon * n {
        WithinSum(f.debts, k);
      }
    }
  }

  lemma {:induction false} SumAllAmounts(bs: seq<Balance>)
    ensures SumAll(Amounts(bs)) == Total(bs)
  {
    if |bs| > 0 {
      assert Amounts(bs)[1..] == Amounts(bs[1..]);
      SumAllAmounts(bs[1..]);
    }
  }

  /** Zero balances drop out of the total: it is the creditors' total plus the debtors'. */
  lemma {:induction false} TotalBySide(bs: seq<Balance>)
    ensures Total(bs) == Total(Filter(Creditors, bs)) + Total(Filter(Debtors, bs))
  {
    if |bs| > 0 {
      TotalBySide(bs[1..]);
      var c := Filter(Creditors, bs[1..]);
      var d := Filter(Debtors, bs[1..]);
      assert ([bs[0]] + c)[1..] == c;
      assert ([bs[0]] + d)[1..] == d;
    }
  }

  /**
   When the balances sum to zero, as the balances of a fully split, fully
   on-roster ledger do, the loop leaves every party less than one cent per
   party away from zero.
   */
  lemma SettlesUpToResidue(balances: seq<Balance>)
    requires Total(balances) == 0.0
    ensures WithinResidue(MakePlan(balances).final)
  {
    var p := MakePlan(balances);
    var s0 := Initial(p.debtors, p.creditors);
    RunKeepsTotal(s0);
    OrderedSpec(Debtors, balances);
    OrderedSpec(Creditors, balances);
    SumAllAmounts(p.debtors);
    SumAllAmounts(p.creditors);
    SumPermutation(p.debtors, Filter(Debtors, balances), AmountOf);
    SumPermutation(p.creditors, Filter(Creditors, balances), AmountOf);
    TotalBySide(balances);
    FinalResidue(p.final);
  }
}
