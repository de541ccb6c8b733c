/** Totals over sequences, independent of order and of irrelevant elements. */
module Counting {

  function Total<T>(weight: T -> nat, xs: seq<T>): nat {
    if xs == [] then 0 else Total(weight, xs[..|xs| - 1]) + weight(xs[|xs| - 1])
  }

  lemma {:induction false} TotalAppend<T>(weight: T -> nat, a: seq<T>, b: seq<T>)
    ensures Total(weight, a + b) == Total(weight, a) + Total(weight, b)
  {
    if b == [] {
      assert a + b == a;
    } else {
      assert (a + b)[..|a + b| - 1] == a + b[..|b| - 1];
      TotalAppend(weight, a, b[..|b| - 1]);
    }
  }

  lemma ElementsWithout<T>(xs: seq<T>, i: nat)
    requires i < |xs|
    ensures multiset(xs[..i] + xs[i + 1..]) == multiset(xs) - multiset{xs[i]}
  {
    assert xs == xs[..i] + [xs[i]] + xs[i + 1..];
  }

  lemma TotalOfOne<T>(weight: T -> nat, x: T)
    ensures Total(weight, [x]) == weight(x)
  {
  }

  lemma TotalMiddle<T>(weight: T -> nat, a: seq<T>, x: T, b: seq<T>)
    ensures Total(weight, a + ([x] + b)) == Total(weight, a + b) + weight(x)
  {
    TotalAppend(weight, a, [x] + b);
    TotalAppend(weight, [x], b);
    TotalAppend(weight, a, b);
    TotalOfOne(weight, x);
  }

  lemma TotalWithout<T>(weight: T -> nat, xs: seq<T>, i: nat)
    requires i < |xs|
    ensures Total(weight, xs) == Total(weight, xs[..i] + xs[i + 1..]) + weight(xs[i])
  {
    assert xs == xs[..i] + ([xs[i]] + xs[i + 1..]);
    TotalMiddle(weight, xs[..i], xs[i], xs[i + 1..]);
  }

  /** A total is the same for every arrangement of the same elements. */
  lemma {:induction false} TotalPermutes<T>(weight: T -> nat, a: seq<T>, b: seq<T>)
    requires multiset(a) == multiset(b)
    ensures Total(weight, a) == Total(weight, b)
    decreases a
  {
    if a == [] {
      assert |multiset(b)| == 0;
    } else {
      var last := |a| - 1;
      assert a[last] in multiset(b);
      var i :| 0 <= i < |b| && b[i] == a[last];
      ElementsWithout(a, last);
      ElementsWithout(b, i);
      TotalWithout(weight, a, last);
      TotalWithout(weight, b, i);
      TotalPermutes(weight, a[..last] + a[last + 1..], b[..i] + b[i + 1..]);
    }
  }

  lemma {:induction false} TotalAtMostLength<T>(weight: T -> nat, xs: seq<T>)
    requires forall x :: weight(x) <= 1
    ensures Total(weight, xs) <= |xs|
  {
    if xs != [] { TotalAtMostLength(weight, xs[..|xs| - 1]); }
  }

  function Filter<T>(keep: T -> bool, xs: seq<T>): seq<T> {
    if xs == [] then []
    else Filter(keep, xs[..|xs| - 1]) + if keep(xs[|xs| - 1]) then [xs[|xs| - 1]] else []
  }

  /** Elements of no weight may be dropped from the list. */
  lemma {:induction false} TotalOfFiltered<T>(weight: T -> nat, keep: T -> bool, xs: seq<T>)
    requires forall x :: x in xs && !keep(x) ==> weight(x) == 0
    ensures Total(weight, Filter(keep, xs)) == Total(weight, xs)
  {
    if xs != [] {
      var init, last := xs[..|xs| - 1], xs[|xs| - 1];
      assert xs == init + [last];
      TotalOfFiltered(weight, keep, init);
      if keep(last) {
        TotalAppend(weight, Filter(keep, init), [last]);
        TotalOfOne(weight, last);
      } else {
        assert Filter(keep, xs) == Filter(keep, init);
      }
    }
  }
}
