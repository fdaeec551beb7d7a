/** Sizes of sets. */
module Counting {

  lemma {:induction false} DistinctCount<T>(items: seq<T>, found: set<T>)
    requires forall i, j :: 0 <= i < j < |items| ==> items[i] != items[j]
    requires forall x :: x in items <==> x in found
    ensures |found| == |items|
  {
    if items == [] {
      assert found == {};
    } else {
      var n := |items| - 1;
      DistinctCount(items[..n], found - {items[n]});
    }
  }

  lemma {:induction false} SubsetCount<T>(a: set<T>, b: set<T>)
    requires a <= b
    ensures |a| <= |b|
  {
    if a != {} {
      var x :| x in a;
      SubsetCount(a - {x}, b - {x});
    }
  }

  lemma {:induction false} SameSizeSubset<T>(a: set<T>, b: set<T>)
    requires a <= b && |a| == |b|
    ensures a == b
  {
    if a != {} {
      var s :| s in a;
      SameSizeSubset(a - {s}, b - {s});
    }
  }
}
