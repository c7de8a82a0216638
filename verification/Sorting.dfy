/** Byte-wise string order and the sorted, duplicate-free lists built with it. */
module Sorting {

  /** Go's `<` on strings. */
  predicate Less(a: string, b: string) {
    b != [] && (a == [] || a[0] < b[0] || (a[0] == b[0] && Less(a[1..], b[1..])))
  }

  lemma {:induction false} LessTotal(a: string, b: string)
    ensures Less(a, b) || a == b || Less(b, a)
    ensures !(Less(a, b) && Less(b, a)) && !Less(a, a)
  {
    if a != [] && b != [] {
      LessTotal(a[1..], b[1..]);
      assert a == [a[0]] + a[1..] && b == [b[0]] + b[1..];
    }
    if a != [] && b == [] { assert Less(b, a); }
    if a != [] { LessIrreflexive(a); }
  }

  lemma {:induction false} LessIrreflexive(a: string)
    ensures !Less(a, a)
  {
    if a != [] { LessIrreflexive(a[1..]); }
  }

  lemma {:induction false} LessTransitive(a: string, b: string, c: string)
    requires Less(a, b) && Less(b, c)
    ensures Less(a, c)
  {
    if a != [] && a[0] == b[0] == c[0] { LessTransitive(a[1..], b[1..], c[1..]); }
  }

  /** The first difference decides, and a proper prefix comes first. */
  lemma {:induction false} FirstDifferenceDecides(p: string, a: string, b: string)
    ensures b != [] ==> Less(p, p + b)
    ensures a != [] && b != [] && a[0] < b[0] ==> Less(p + a, p + b)
  {
    if p == [] {
      assert p + a == a && p + b == b;
    } else {
      assert (p + a)[1..] == p[1..] + a && (p + b)[1..] == p[1..] + b;
      FirstDifferenceDecides(p[1..], a, b);
    }
  }

  /** Strictly increasing, hence without duplicates. */
  ghost predicate Increasing(xs: seq<string>) {
    forall i, j :: 0 <= i < j < |xs| ==> Less(xs[i], xs[j])
  }

  function Insert(x: string, xs: seq<string>): (r: seq<string>)
    ensures forall y :: y in r <==> y == x || y in xs
    ensures Increasing(xs) ==> Increasing(r)
  {
    if xs == [] then [x]
    else if x == xs[0] then xs
    else if Less(x, xs[0]) then
      assert forall j :: 0 <= j < |xs| && Increasing(xs) ==> Less(x, xs[j]) by {
        forall j | 0 < j < |xs| && Increasing(xs) { LessTransitive(x, xs[0], xs[j]); }
      }
      [x] + xs
    else
      LessTotal(x, xs[0]);
      var rest := Insert(x, xs[1..]);
      assert xs == [xs[0]] + xs[1..];
      assert Increasing(xs) ==> forall y :: y in rest ==> Less(xs[0], y);
      [xs[0]] + rest
  }

  /** The elements of a list as an ordered list without duplicates (`sets.String.List`). */
  function SortUnique(xs: seq<string>): (r: seq<string>)
    ensures forall y :: y in r <==> y in xs
    ensures Increasing(r)
  {
    if xs == [] then []
    else
      assert xs == [xs[0]] + xs[1..];
      Insert(xs[0], SortUnique(xs[1..]))
  }

  lemma TailOfIncreasing(xs: seq<string>)
    requires xs != [] && Increasing(xs)
    ensures Increasing(xs[1..])
    ensures forall s :: s in xs[1..] <==> s in xs && s != xs[0]
  {
    LessTotal(xs[0], xs[0]);
    assert xs == [xs[0]] + xs[1..];
    forall s | s in xs[1..]
      ensures s != xs[0]
    {
      var j :| 0 <= j < |xs[1..]| && xs[1..][j] == s;
      assert Less(xs[0], xs[j + 1]);
    }
  }

  /** An increasing list is determined by its elements. */
  lemma {:induction false} IncreasingUnique(xs: seq<string>, ys: seq<string>)
    requires Increasing(xs) && Increasing(ys)
    requires forall s :: s in xs <==> s in ys
    ensures xs == ys
  {
    assert xs != [] ==> xs[0] in ys;
    assert ys != [] ==> ys[0] in xs;
    if xs != [] && ys != [] {
      var x, y := xs[0], ys[0];
      LessTotal(x, y);
      assert x in ys && y in xs;
      assert x == y;
      TailOfIncreasing(xs);
      TailOfIncreasing(ys);
      IncreasingUnique(xs[1..], ys[1..]);
      assert xs == [x] + xs[1..] && ys == [y] + ys[1..];
    }
  }

  /** The elements of a set in some order. */
  ghost function Listing(s: set<string>): (r: seq<string>)
    ensures forall x :: x in r <==> x in s
  {
    if s == {} then []
    else
      var x :| x in s;
      [x] + Listing(s - {x})
  }

  /** The elements of a set in order: what collecting map keys and sorting them yields. */
  ghost function Ordered(s: set<string>): (r: seq<string>)
    ensures forall x :: x in r <==> x in s
    ensures Increasing(r)
  {
    SortUnique(Listing(s))
  }

  /** However the keys were collected, sorting gives the one ordered list. */
  lemma SortingForgetsOrder(xs: seq<string>, s: set<string>)
    requires forall x :: x in xs <==> x in s
    ensures SortUnique(xs) == Ordered(s)
  {
    IncreasingUnique(SortUnique(xs), Ordered(s));
  }
}
