/** Facts about numbers, sequences and sets that several modules need. */
module Basics {
  function Min(a: int, b: int): int { if a <= b then a else b }
  function Max(a: int, b: int): int { if a >= b then a else b }

  lemma MulPos(a: real, b: real)
    requires a > 0.0 && b > 0.0
    ensures a * b > 0.0
  {}

  /** No element occurs twice. */
  predicate Once<T(==)>(xs: seq<T>) { forall i, j :: 0 <= i < j < |xs| ==> xs[i] != xs[j] }

  /** The sequence lists the set, each element once. */
  predicate Lists<T(==)>(xs: seq<T>, all: set<T>) {
    if xs == [] then all == {} else xs[0] in all && Lists(xs[1..], all - {xs[0]})
  }

  lemma {:induction false} ListsOnce<T>(xs: seq<T>, all: set<T>)
    requires Lists(xs, all)
    ensures Once(xs) && (forall x <- xs :: x in all) && forall x <- all :: x in xs
    decreases |xs|
  {
    if xs != [] {
      ListsOnce(xs[1..], all - {xs[0]});
      assert xs == [xs[0]] + xs[1..];
    }
  }

  lemma {:induction false} SubsetIsSmaller<T>(a: set<T>, b: set<T>)
    requires a <= b
    ensures |a| <= |b|
  {
    if a != {} {
      var x :| x in a;
      SubsetIsSmaller(a - {x}, b - {x});
    }
  }

  lemma {:induction false} ListsOneMore<T>(xs: seq<T>, all: set<T>, x: T)
    requires Lists(xs, all) && x !in all
    ensures Lists(xs + [x], all + {x})
    decreases |xs|
  {
    if xs == [] {
      assert all + {x} - {x} == all;
    } else {
      ListsOneMore(xs[1..], all - {xs[0]}, x);
      assert (xs + [x])[1..] == xs[1..] + [x];
      assert all + {x} - {xs[0]} == all - {xs[0]} + {x};
    }
  }
}
