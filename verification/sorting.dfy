/**
 The creditor and debtor lists of simplifyDebts (src/lib/utils.ts:42-43):
 `balances.filter(...)` followed by the stable `Array.prototype.sort` with a
 subtracting comparator.

 Stability is stated without positions: a list is a stable sort of its input
 when it is sorted and, for every amount, the entries carrying that amount
 appear in the same order as in the input. `StableSortUnique` shows that this
 determines the list completely, so the insertion sort below yields exactly
 the list a stable sort yields.
 */
module StableSort {
  import opened Types

  /** Which side of the settlement a balance is on. */
  datatype Side = Creditors | Debtors

  /** `filter(b => b.amount > 0)` for creditors, `filter(b => b.amount < 0)` for debtors. */
  predicate OnSide(side: Side, amount: real)
  {
    if side == Creditors then amount > 0.0 else amount < 0.0
  }

  /**
   The comparator is negative: `b.amount - a.amount < 0` for creditors
   (descending), `a.amount - b.amount < 0` for debtors (ascending).
   */
  predicate Before(side: Side, a: Balance, b: Balance)
  {
    if side == Creditors then a.amount > b.amount else a.amount < b.amount
  }

  /** No later entry belongs strictly before an earlier one. */
  predicate Sorted(side: Side, s: seq<Balance>)
  {
    forall a, b :: 0 <= a < b < |s| ==> !Before(side, s[b], s[a])
  }

  /** The entries of `s` whose amount is `x`, in their order in `s`. */
  function WithAmount(s: seq<Balance>, x: real): seq<Balance>
  {
    if |s| == 0 then []
    else (if s[0].amount == x then [s[0]] else []) + WithAmount(s[1..], x)
  }

  /** `WithAmount` of a list with a given head. */
  lemma WithAmountCons(b: Balance, s: seq<Balance>, x: real)
    ensures WithAmount([b] + s, x) == (if b.amount == x then [b] else []) + WithAmount(s, x)
  {
    assert ([b] + s)[1..] == s;
  }

  /** The entries on one side, in input order. */
  function Filter(side: Side, s: seq<Balance>): seq<Balance>
  {
    if |s| == 0 then []
    else if OnSide(side, s[0].amount) then [s[0]] + Filter(side, s[1..])
    else Filter(side, s[1..])
  }

  /** `Filter` keeps exactly the entries on the chosen side. */
  lemma {:induction false} FilterMembers(side: Side, s: seq<Balance>)
    ensures forall b :: b in Filter(side, s) <==> b in s && OnSide(side, b.amount)
  {
    if |s| > 0 {
      FilterMembers(side, s[1..]);
      assert s == [s[0]] + s[1..];
    }
  }

  /** `Filter` keeps, for each amount on the chosen side, all entries with that amount in their order. */
  lemma {:induction false} FilterWithAmount(side: Side, s: seq<Balance>, x: real)
    ensures WithAmount(Filter(side, s), x) == if OnSide(side, x) then WithAmount(s, x) else []
  {
    if |s| > 0 {
      FilterWithAmount(side, s[1..], x);
      if OnSide(side, s[0].amount) {
        WithAmountCons(s[0], Filter(side, s[1..]), x);
      }
    }
  }

  /** A head that no later entry strictly precedes extends a sorted list. */
  lemma ConsSorted(side: Side, h: Balance, rest: seq<Balance>)
    requires Sorted(side, rest)
    requires forall e :: e in rest ==> !Before(side, e, h)
    ensures Sorted(side, [h] + rest)
  {
    var q := [h] + rest;
    forall a, b | 0 <= a < b < |q| ensures !Before(side, q[b], q[a]) {
      if a > 0 {
        assert q[a] == rest[a - 1] && q[b] == rest[b - 1];
      } else {
        assert q[b] in rest;
      }
    }
  }

  /** When `x` goes behind the head of `r`, the head still precedes everything. */
  lemma HeadFirstOfInsert(side: Side, x: Balance, r: seq<Balance>, rest: seq<Balance>)
    requires Sorted(side, r) && |r| > 0
    requires Before(side, r[0], x)
    requires multiset(rest) == multiset(r[1..]) + multiset{x}
    ensures forall e :: e in rest ==> !Before(side, e, r[0])
  {
    forall e | e in rest ensures !Before(side, e, r[0]) {
      assert e in multiset(rest);
      if e != x {
        assert e in multiset(r[1..]);
        var k :| 0 <= k < |r[1..]| && r[1..][k] == e;
        assert r[k + 1] == e;
      }
    }
  }

  /** The tail of a sorted list is sorted. */
  lemma SortedTail(side: Side, r: seq<Balance>)
    requires Sorted(side, r) && |r| > 0
    ensures Sorted(side, r[1..])
  {
    forall a, b | 0 <= a < b < |r| - 1 ensures !Before(side, r[1..][b], r[1..][a]) {
      assert r[1..][a] == r[a + 1] && r[1..][b] == r[b + 1];
    }
  }

  /** Inserts `x` ahead of every entry it does not strictly follow. */
  function InsertFirst(side: Side, x: Balance, r: seq<Balance>): (q: seq<Balance>)
    requires Sorted(side, r)
    ensures Sorted(side, q)
    ensures multiset(q) == multiset(r) + multiset{x}
  {
    if |r| == 0 then [x]
    else if Before(side, r[0], x) then
      SortedTail(side, r);
      var rest := InsertFirst(side, x, r[1..]);
      assert r == [r[0]] + r[1..];
      HeadFirstOfInsert(side, x, r, rest);
      var q := [r[0]] + rest;
      ConsSorted(side, r[0], rest);
      q
    else
      [x] + r
  }

  /** Stable insertion sort: each element goes ahead of the equal-keyed elements that follow it in the input. */
  function Sort(side: Side, s: seq<Balance>): (r: seq<Balance>)
    ensures Sorted(side, r)
    ensures multiset(r) == multiset(s)
    ensures forall x :: WithAmount(r, x) == WithAmount(s, x)
  {
    if |s| == 0 then []
    else
      var t := Sort(side, s[1..]);
      SortStep(side, s, t);
      InsertFirst(side, s[0], t)
  }

  /** Inserting the head of `s` into a stable sort of its tail gives a stable sort of `s`. */
  lemma SortStep(side: Side, s: seq<Balance>, t: seq<Balance>)
    requires |s| > 0
    requires Sorted(side, t)
    requires multiset(t) == multiset(s[1..])
    requires forall x :: WithAmount(t, x) == WithAmount(s[1..], x)
    ensures multiset(InsertFirst(side, s[0], t)) == multiset(s)
    ensures forall x :: WithAmount(InsertFirst(side, s[0], t), x) == WithAmount(s, x)
  {
    var q := InsertFirst(side, s[0], t);
    assert s == [s[0]] + s[1..];
    forall x ensures WithAmount(q, x) == WithAmount(s, x) {
      InsertFirstWithAmount(side, s[0], t, x);
      WithAmountCons(s[0], s[1..], x);
    }
  }

  /**
   Inserting `x` puts it ahead of every entry with the same amount, and leaves
   the order among the others alone.
   */
  lemma {:induction false} InsertFirstWithAmount(side: Side, x: Balance, r: seq<Balance>, y: real)
    requires Sorted(side, r)
    ensures WithAmount(InsertFirst(side, x, r), y) == (if x.amount == y then [x] else []) + WithAmount(r, y)
  {
    if |r| == 0 {
      WithAmountCons(x, r, y);
    } else if Before(side, r[0], x) {
      var rest := InsertFirst(side, x, r[1..]);
      assert r == [r[0]] + r[1..];
      InsertFirstWithAmount(side, x, r[1..], y);
      WithAmountCons(r[0], rest, y);
      WithAmountCons(r[0], r[1..], y);
    } else {
      WithAmountCons(x, r, y);
    }
  }

  /**
   `balances.filter(...).sort(...)`: the creditors in descending or the debtors
   in ascending order of amount. For every amount on that side, the entries
   with that amount are exactly those of the input, in input order; amounts on
   the other side (and zero) do not occur.
   */
  function Ordered(side: Side, balances: seq<Balance>): seq<Balance>
  {
    Sort(side, Filter(side, balances))
  }

  /** What `Ordered` yields: a stable sort of the entries on one side. */
  lemma OrderedSpec(side: Side, balances: seq<Balance>)
    ensures Sorted(side, Ordered(side, balances))
    ensures forall x :: WithAmount(Ordered(side, balances), x) == if OnSide(side, x) then WithAmount(balances, x) else []
    ensures multiset(Ordered(side, balances)) == multiset(Filter(side, balances))
    ensures forall b :: b in Ordered(side, balances) <==> b in balances && OnSide(side, b.amount)
  {
    var r := Ordered(side, balances);
    FilterMembers(side, balances);
    forall x ensures WithAmount(r, x) == if OnSide(side, x) then WithAmount(balances, x) else [] {
      FilterWithAmount(side, balances, x);
    }
    assert forall b :: b in r <==> b in multiset(r);
  }

  lemma {:induction false} WithAmountMembers(s: seq<Balance>, x: real, b: Balance)
    ensures b in WithAmount(s, x) <==> b in s && b.amount == x
  {
    if |s| > 0 {
      WithAmountMembers(s[1..], x, b);
      assert s == [s[0]] + s[1..];
    }
  }

  /** Every entry of a sorted list is no earlier in the order than its head. */
  lemma HeadFirst(side: Side, s: seq<Balance>, b: Balance)
    requires Sorted(side, s)
    requires b in s
    ensures !Before(side, b, s[0])
  {
    var k :| 0 <= k < |s| && s[k] == b;
    if k > 0 {
      assert !Before(side, s[k], s[0]);
    }
  }

  /**
   A stable sort has one possible outcome: two sorted lists that agree, for
   every amount, on the entries with that amount are equal.
   */
  lemma {:induction false} StableSortUnique(side: Side, a: seq<Balance>, b: seq<Balance>)
    requires Sorted(side, a) && Sorted(side, b)
    requires forall x :: WithAmount(a, x) == WithAmount(b, x)
    ensures a == b
  {
    if |a| == 0 || |b| == 0 {
      if |a| > 0 {
        WithAmountMembers(a, a[0].amount, a[0]);
        assert false;
      } else if |b| > 0 {
        WithAmountMembers(b, b[0].amount, b[0]);
        assert false;
      }
    } else {
      var x := a[0].amount;
      var y := b[0].amount;
      WithAmountMembers(a, y, b[0]);
      WithAmountMembers(b, y, b[0]);
      WithAmountMembers(a, x, a[0]);
      WithAmountMembers(b, x, a[0]);
      HeadFirst(side, a, b[0]);
      HeadFirst(side, b, a[0]);
      assert x == y;
      assert WithAmount(a, x) == [a[0]] + WithAmount(a[1..], x);
      assert WithAmount(b, x) == [b[0]] + WithAmount(b[1..], x);
      assert WithAmount(a, x)[0] == a[0];
      assert WithAmount(b, x)[0] == b[0];
      assert a[0] == b[0];
      forall z ensures WithAmount(a[1..], z) == WithAmount(b[1..], z) {
        if z == x {
          assert WithAmount(a[1..], z) == WithAmount(a, z)[1..];
          assert WithAmount(b[1..], z) == WithAmount(b, z)[1..];
        } else {
          assert WithAmount(a[1..], z) == WithAmount(a, z);
          assert WithAmount(b[1..], z) == WithAmount(b, z);
        }
      }
      StableSortUnique(side, a[1..], b[1..]);
      assert a == [a[0]] + a[1..];
      assert b == [b[0]] + b[1..];
    }
  }

  /**
   Sorting a list that is already in order leaves it alone, equal amounts
   included: the sort is stable, so it has nothing to move.
   */
  lemma SortSorted(side: Side, s: seq<Balance>)
    requires Sorted(side, s)
    ensures Sort(side, s) == s
  {
    StableSortUnique(side, Sort(side, s), s);
  }

  /** `Filter` of a list with a given head. */
  lemma FilterCons(side: Side, b: Balance, s: seq<Balance>)
    ensures Filter(side, [b] + s) == (if OnSide(side, b.amount) then [b] else []) + Filter(side, s)
  {
    assert ([b] + s)[1..] == s;
  }
}
