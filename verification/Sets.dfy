/** Facts about finite sets and enumerations that several modules count with. */
module Sets {
  import opened Types

  lemma {:induction false} DistinctSize<T>(order: seq<T>)
    requires Distinct(order)
    ensures |set x | x in order| == |order|
  {
    if order == [] {
      assert (set x | x in order) == {};
    } else {
      var last := |order| - 1;
      DistinctSize(order[..last]);
      assert order == order[..last] + [order[last]];
      assert (set x | x in order) == (set x | x in order[..last]) + {order[last]};
    }
  }

  lemma {:induction false} SubsetSize<T>(a: set<T>, b: set<T>)
    requires a <= b
    ensures |a| <= |b|
  {
    if a != {} {
      var x :| x in a;
      SubsetSize(a - {x}, b - {x});
    }
  }

  lemma StrictSubsetSize<T>(a: set<T>, b: set<T>)
    requires a < b
    ensures |a| < |b|
  {
    var x :| x in b && x !in a;
    SubsetSize(a, b - {x});
  }

  lemma SameSizeSubset<T>(a: set<T>, b: set<T>)
    requires a <= b && |a| >= |b|
    ensures a == b
  {
    if a != b { StrictSubsetSize(a, b); }
  }

  lemma SmallerMisses<T>(small: set<T>, big: set<T>) returns (x: T)
    requires |small| < |big|
    ensures x in big && x !in small
  {
    if big <= small { SubsetSize(big, small); }
    x :| x in big && x !in small;
  }

  lemma GrowsByOne<T>(s: set<T>, x: T)
    ensures |s| <= |s + {x}| <= |s| + 1
  {
    if x in s { assert s + {x} == s; }
  }

  lemma EnumeratedIn<T>(order: seq<T>, s: set<T>, i: nat)
    requires Enumerates(order, s) && i < |order|
    ensures order[i] in s
  {
    assert order[i] in set x | x in order;
  }

  lemma EnumeratesSome<T>(order: seq<T>, s: set<T>)
    requires Enumerates(order, s) && s != {}
    ensures order != []
  {
    var x :| x in s;
    assert x in set y | y in order;
  }

  lemma EnumeratesAll<T>(order: seq<T>, s: set<T>)
    requires Enumerates(order, s)
    ensures forall x :: x in order <==> x in s
  {
    assert forall x :: x in order <==> x in set y | y in order;
  }

  lemma EnumeratedSize<T>(order: seq<T>, s: set<T>)
    requires Enumerates(order, s)
    ensures |order| == |s|
  {
    DistinctSize(order);
  }
}
