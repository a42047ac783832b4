/**
  * The array operations the core leans on: `flat`, `filter`, `slice(0, n)`
  * (the `take` of a stream), and inserting an element into a list.
  */
module Seqs {

  /** `xss.flat()`: the lists one after another. */
  function Concat<T>(xss: seq<seq<T>>): (r: seq<T>)
    ensures forall xs, x | xs in xss && x in xs :: x in r
    ensures forall x | x in r :: exists xs | xs in xss :: x in xs
    ensures r == [] <==> forall xs | xs in xss :: xs == []
  {
    if xss == [] then []
    else
      var rest := Concat(xss[1..]);
      assert forall xs | xs in xss[1..] :: xs in xss;
      assert forall xs | xs in xss :: xs == xss[0] || xs in xss[1..];
      xss[0] + rest
  }

  /** `xs.filter(p)`: the elements that pass, in order. */
  function Filter<T>(xs: seq<T>, p: T -> bool): (r: seq<T>)
    ensures |r| <= |xs|
    ensures forall x | x in r :: x in xs && p(x)
    ensures forall x | x in xs && p(x) :: x in r
    ensures (forall x | x in xs :: !p(x)) ==> r == []
  {
    if xs == [] then []
    else
      var rest := Filter(xs[1..], p);
      assert forall x | x in xs :: x == xs[0] || x in xs[1..];
      if p(xs[0]) then [xs[0]] + rest else rest
  }

  /** Filtering a list in two parts filters each part and keeps them in order. */
  lemma {:induction false} FilterConcat<T>(xs: seq<T>, ys: seq<T>, p: T -> bool)
    ensures Filter(xs + ys, p) == Filter(xs, p) + Filter(ys, p)
  {
    if xs != [] {
      assert (xs + ys)[1..] == xs[1..] + ys;
      FilterConcat(xs[1..], ys, p);
    } else {
      assert xs + ys == ys;
    }
  }

  /** A one-element list keeps its element exactly when it passes. */
  lemma FilterSingleton<T>(x: T, p: T -> bool)
    ensures Filter([x], p) == if p(x) then [x] else []
  {
  }

  /** The list with `x` inserted at position `p`. */
  function InsertAt<T>(xs: seq<T>, p: nat, x: T): (r: seq<T>)
    requires p <= |xs|
    ensures |r| == |xs| + 1 && r[p] == x
    ensures forall i | 0 <= i < p :: r[i] == xs[i]
    ensures forall i | p < i < |r| :: r[i] == xs[i - 1]
    ensures multiset(r) == multiset(xs) + multiset{x}
    ensures forall y | y in r :: y == x || y in xs
  {
    assert xs == xs[..p] + xs[p..];
    xs[..p] + [x] + xs[p..]
  }

  /** Inserting past the head keeps the head in front. */
  lemma InsertAtCons<T>(xs: seq<T>, p: nat, x: T)
    requires 0 < p <= |xs|
    ensures InsertAt(xs, p, x) == [xs[0]] + InsertAt(xs[1..], p - 1, x)
  {
    assert xs[1..][..p - 1] == xs[1..p];
    assert xs[1..][p - 1..] == xs[p..];
  }
}
