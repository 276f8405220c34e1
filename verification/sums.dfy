/**
 Finite sums of real-valued contributions over a sequence, and the two facts
 the balance proofs need: a sum splits over concatenation, and it does not
 depend on the order of the sequence.
 */
module Sums {

  /** The sum of f(x) over the elements x of s. */
  function Sum<T>(s: seq<T>, f: T -> real): real
  {
    if |s| == 0 then 0.0 else f(s[0]) + Sum(s[1..], f)
  }

  /** Summing over a concatenation adds the two sums. */
  lemma {:induction false} SumAppend<T>(a: seq<T>, b: seq<T>, f: T -> real)
    ensures Sum(a + b, f) == Sum(a, f) + Sum(b, f)
  {
    if |a| == 0 {
      assert a + b == b;
    } else {
      assert (a + b)[1..] == a[1..] + b;
      SumAppend(a[1..], b, f);
    }
  }

  /** Removing the element at index k takes exactly that element out of the multiset. */
  lemma RemoveAtMultiset<T>(b: seq<T>, k: nat)
    requires k < |b|
    ensures multiset(b[..k] + b[k+1..]) + multiset{b[k]} == multiset(b)
  {
    assert b == b[..k] + ([b[k]] + b[k+1..]);
    assert multiset(b) == multiset(b[..k]) + multiset([b[k]] + b[k+1..]);
    assert multiset([b[k]] + b[k+1..]) == multiset{b[k]} + multiset(b[k+1..]);
  }

  /** Removing the element at index k takes exactly its contribution out of the sum. */
  lemma RemoveAtSum<T>(b: seq<T>, k: nat, f: T -> real)
    requires k < |b|
    ensures Sum(b[..k] + b[k+1..], f) + f(b[k]) == Sum(b, f)
  {
    assert b == b[..k] + ([b[k]] + b[k+1..]);
    SumAppend(b[..k], [b[k]] + b[k+1..], f);
    assert ([b[k]] + b[k+1..])[1..] == b[k+1..];
    SumAppend(b[..k], b[k+1..], f);
  }

  /** A sum depends only on the multiset of summed elements. */
  lemma {:induction false} SumPermutation<T>(a: seq<T>, b: seq<T>, f: T -> real)
    requires multiset(a) == multiset(b)
    ensures Sum(a, f) == Sum(b, f)
  {
    if |a| == 0 {
      assert |multiset(b)| == 0;
    } else {
      var x := a[0];
      assert x in multiset(b);
      var k :| 0 <= k < |b| && b[k] == x;
      var rest := b[..k] + b[k+1..];
      RemoveAtMultiset(b, k);
      RemoveAtSum(b, k, f);
      assert a == [x] + a[1..];
      assert multiset(a) == multiset{x} + multiset(a[1..]);
      assert multiset(a[1..]) == multiset(a) - multiset{x};
      assert multiset(rest) == multiset(b) - multiset{x};
      SumPermutation(a[1..], rest, f);
    }
  }

  /** A sum of zero contributions is zero. */
  lemma {:induction false} SumZero<T>(s: seq<T>, f: T -> real)
    requires forall x :: x in s ==> f(x) == 0.0
    ensures Sum(s, f) == 0.0
  {
    if |s| > 0 {
      assert forall x :: x in s[1..] ==> x in s;
      SumZero(s[1..], f);
    }
  }
}
