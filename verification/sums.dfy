/**
 * The map-then-add reduction the services apply to lists: each element is valued, the values are
 * added from zero, and the first element whose valuation fails aborts the whole sum with its error.
 */
module Sums {
  import opened Results

  /** Every element can be valued. */
  predicate AllSucceed<T>(xs: seq<T>, f: T -> Result<int>) {
    forall i :: 0 <= i < |xs| ==> f(xs[i]).Success?
  }

  /** The values of the elements added up in list order; the first failing element decides the failure. */
  function Sum<T>(xs: seq<T>, f: T -> Result<int>): (r: Result<int>)
    ensures r.Success? <==> AllSucceed(xs, f)
  {
    if |xs| == 0 then Success(0)
    else
      var head := f(xs[0]);
      if head.Failure? then Failure(head.error)
      else
        var rest := Sum(xs[1..], f);
        if rest.Failure? then rest else Success(head.value + rest.value)
  }

  /** Position of the first element that cannot be valued. */
  function FirstFailure<T>(xs: seq<T>, f: T -> Result<int>): (i: nat)
    requires !AllSucceed(xs, f)
    ensures i < |xs| && f(xs[i]).Failure? && AllSucceed(xs[..i], f)
  {
    if f(xs[0]).Failure? then 0
    else
      var k := FirstFailure(xs[1..], f);
      assert xs[..k + 1] == [xs[0]] + xs[1..][..k];
      1 + k
  }

  /** A failing sum fails with the error of its first failing element. */
  lemma {:induction false} SumFailsAtFirstFailure<T>(xs: seq<T>, f: T -> Result<int>)
    requires !AllSucceed(xs, f)
    ensures Sum(xs, f) == Failure(f(xs[FirstFailure(xs, f)]).error)
  {
    if f(xs[0]).Success? {
      SumFailsAtFirstFailure(xs[1..], f);
    }
  }

  /** The sum of a concatenation: the first part's failure wins, then the second's; else the two sums add. */
  lemma {:induction false} SumAppend<T>(a: seq<T>, b: seq<T>, f: T -> Result<int>)
    ensures Sum(a + b, f) ==
      if Sum(a, f).Failure? then Sum(a, f)
      else if Sum(b, f).Failure? then Sum(b, f)
      else Success(Sum(a, f).value + Sum(b, f).value)
  {
    if |a| == 0 {
      assert a + b == b;
    } else {
      var ab := a + b;
      assert ab[0] == a[0];
      assert ab[1..] == a[1..] + b;
      SumAppend(a[1..], b, f);
    }
  }

  /** Concatenating two lists whose elements can all be valued adds their sums. */
  lemma SumAppendAll<T>(a: seq<T>, b: seq<T>, f: T -> Result<int>)
    requires AllSucceed(a, f) && AllSucceed(b, f)
    ensures Sum(a + b, f) == Success(Sum(a, f).value + Sum(b, f).value)
  {
    SumAppend(a, b, f);
  }

  /** Removing one element removes exactly that element from the multiset of elements. */
  lemma RemoveAt<T>(b: seq<T>, j: nat)
    requires j < |b|
    ensures b == b[..j] + ([b[j]] + b[j + 1..])
    ensures multiset(b[..j] + b[j + 1..]) == multiset(b) - multiset{b[j]}
  {
    assert b == b[..j] + [b[j]] + b[j + 1..];
  }

  /** The element at position `j` can be taken out of the sum and added on its own. */
  lemma SumMoveToFront<T>(b: seq<T>, j: nat, f: T -> Result<int>)
    requires j < |b| && AllSucceed(b, f)
    ensures AllSucceed(b[..j] + b[j + 1..], f)
    ensures Sum(b, f).value == f(b[j]).value + Sum(b[..j] + b[j + 1..], f).value
  {
    var x, pre, post := b[j], b[..j], b[j + 1..];
    assert b == pre + ([x] + post) by { RemoveAt(b, j); }
    assert AllSucceed(pre, f) && AllSucceed(post, f) && AllSucceed([x], f);
    assert AllSucceed([x] + post, f);
    assert Sum(b, f).value == Sum(pre, f).value + Sum([x] + post, f).value by {
      SumAppendAll(pre, [x] + post, f);
    }
    assert Sum([x] + post, f).value == f(x).value + Sum(post, f).value by {
      assert ([x] + post)[1..] == post;
    }
    assert Sum(pre + post, f).value == Sum(pre, f).value + Sum(post, f).value by {
      SumAppendAll(pre, post, f);
    }
  }

  /** Whether every element can be valued depends only on which elements the list holds. */
  lemma AllSucceedPermutation<T>(a: seq<T>, b: seq<T>, f: T -> Result<int>)
    requires multiset(a) == multiset(b)
    ensures AllSucceed(a, f) <==> AllSucceed(b, f)
  {
    forall i | 0 <= i < |a| ensures a[i] in b {
      assert a[i] in multiset(b);
    }
    forall i | 0 <= i < |b| ensures b[i] in a {
      assert b[i] in multiset(a);
    }
  }

  /** After taking the first element of `a` out of `a` and out of its permutation `b`, the rests are permutations. */
  lemma PermutationRest<T>(a: seq<T>, b: seq<T>) returns (j: nat)
    requires multiset(a) == multiset(b) && |a| > 0
    ensures j < |b| && b[j] == a[0]
    ensures multiset(a[1..]) == multiset(b[..j] + b[j + 1..])
  {
    assert a[0] in multiset(b);
    j :| 0 <= j < |b| && b[j] == a[0];
    RemoveAt(b, j);
    assert a == [a[0]] + a[1..];
    assert multiset(a[1..]) == multiset(a) - multiset{a[0]};
  }

  /** Reordering the elements changes neither whether the sum succeeds nor its value. */
  lemma {:induction false} SumPermutation<T>(a: seq<T>, b: seq<T>, f: T -> Result<int>)
    requires multiset(a) == multiset(b)
    ensures Sum(a, f).Success? <==> Sum(b, f).Success?
    ensures Sum(a, f).Success? ==> Sum(a, f).value == Sum(b, f).value
  {
    AllSucceedPermutation(a, b, f);
    if |a| == 0 {
      assert |b| == |multiset(b)| == 0;
    } else if AllSucceed(a, f) {
      var j := PermutationRest(a, b);
      SumPermutation(a[1..], b[..j] + b[j + 1..], f);
      SumMoveToFront(b, j, f);
    }
  }

  /**
   * The stream reduction as the source runs it: a left fold from zero that stops at the first
   * element whose valuation fails. It computes exactly the sum.
   */
  method Reduce<T>(xs: seq<T>, f: T -> Result<int>) returns (r: Result<int>)
    ensures r == Sum(xs, f)
  {
    var acc := 0;
    var i := 0;
    while i < |xs|
      invariant 0 <= i <= |xs|
      invariant Sum(xs[..i], f) == Success(acc)
    {
      var v := f(xs[i]);
      if v.Failure? {
        assert xs == xs[..i] + xs[i..];
        SumAppend(xs[..i], xs[i..], f);
        assert xs[i..][0] == xs[i];
        return v;
      }
      assert xs[..i + 1] == xs[..i] + [xs[i]];
      SumAppend(xs[..i], [xs[i]], f);
      assert [xs[i]][1..] == [];
      acc := acc + v.value;
      i := i + 1;
    }
    assert xs[..i] == xs;
    r := Success(acc);
  }
}
