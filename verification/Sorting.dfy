/** Sorting and filtering of sequences, and the order of strings. */
module Sorting {

  /** Insertion before the first element that is not smaller. */
  function Insert<T>(x: T, xs: seq<T>, le: (T, T) -> bool): seq<T> {
    if xs == [] || le(x, xs[0]) then [x] + xs else [xs[0]] + Insert(x, xs[1..], le)
  }

  function Sort<T>(xs: seq<T>, le: (T, T) -> bool): seq<T> {
    if xs == [] then [] else Insert(xs[0], Sort(xs[1..], le), le)
  }

  ghost predicate TotalPreorder<T(!new)>(le: (T, T) -> bool) {
    && (forall x, y :: le(x, y) || le(y, x))
    && (forall x, y, z :: le(x, y) && le(y, z) ==> le(x, z))
  }

  ghost predicate Ordered<T>(xs: seq<T>, le: (T, T) -> bool) {
    forall i, j :: 0 <= i < j < |xs| ==> le(xs[i], xs[j])
  }

  lemma {:induction false} InsertOk<T(!new)>(x: T, xs: seq<T>, le: (T, T) -> bool)
    requires TotalPreorder(le) && Ordered(xs, le)
    ensures Ordered(Insert(x, xs, le), le)
    ensures multiset(Insert(x, xs, le)) == multiset{x} + multiset(xs)
  {
    if xs != [] && !le(x, xs[0]) {
      var rest := Insert(x, xs[1..], le);
      InsertOk(x, xs[1..], le);
      assert xs == [xs[0]] + xs[1..];
      forall y | y in rest
        ensures le(xs[0], y)
      {
        assert y in multiset(rest);
      }
    } else {
      assert Insert(x, xs, le) == [x] + xs;
      if xs != [] {
        forall j | 0 <= j < |xs|
          ensures le(x, xs[j])
        {
          assert le(xs[0], xs[j]) || j == 0;
        }
      }
    }
  }

  /** Sorting puts in order and keeps every element as often as it occurs. */
  lemma {:induction false} SortOk<T(!new)>(xs: seq<T>, le: (T, T) -> bool)
    requires TotalPreorder(le)
    ensures Ordered(Sort(xs, le), le)
    ensures multiset(Sort(xs, le)) == multiset(xs)
  {
    if xs != [] {
      SortOk(xs[1..], le);
      InsertOk(xs[0], Sort(xs[1..], le), le);
      assert xs == [xs[0]] + xs[1..];
    }
  }

  lemma SameElements<T>(xs: seq<T>, ys: seq<T>, x: T)
    requires multiset(xs) == multiset(ys)
    ensures x in xs <==> x in ys
  {
    assert x in xs <==> x in multiset(xs);
    assert x in ys <==> x in multiset(ys);
  }

  function Filter<T>(xs: seq<T>, p: T -> bool): seq<T> {
    if xs == [] then []
    else
      var rest := Filter(xs[..|xs| - 1], p);
      if p(xs[|xs| - 1]) then rest + [xs[|xs| - 1]] else rest
  }

  /** Filtering keeps each accepted element as often as it occurs, and no other. */
  lemma {:induction false} FilterCount<T>(xs: seq<T>, p: T -> bool, x: T)
    ensures multiset(Filter(xs, p))[x] == if p(x) then multiset(xs)[x] else 0
  {
    if xs != [] {
      var n := |xs| - 1;
      FilterCount(xs[..n], p, x);
      assert xs == xs[..n] + [xs[n]];
    }
  }

  lemma {:induction false} FilterConcat<T>(xs: seq<T>, ys: seq<T>, p: T -> bool)
    ensures Filter(xs + ys, p) == Filter(xs, p) + Filter(ys, p)
  {
    if ys == [] {
      assert xs + ys == xs;
    } else {
      var n := |ys| - 1;
      assert (xs + ys)[..|xs| + n] == xs + ys[..n];
      FilterConcat(xs, ys[..n], p);
    }
  }

  lemma {:induction false} FilterNothing<T>(xs: seq<T>, p: T -> bool)
    requires forall x :: x in xs ==> !p(x)
    ensures Filter(xs, p) == []
  {
    if xs != [] {
      assert xs[|xs| - 1] in xs;
      FilterNothing(xs[..|xs| - 1], p);
    }
  }

  lemma {:induction false} FilterMembers<T>(xs: seq<T>, p: T -> bool)
    ensures forall x :: x in Filter(xs, p) <==> x in xs && p(x)
  {
    if xs != [] {
      FilterMembers(xs[..|xs| - 1], p);
      assert xs == xs[..|xs| - 1] + [xs[|xs| - 1]];
    }
  }

  /** Where the k-th accepted element stands. */
  lemma {:induction false} FilterAt<T>(xs: seq<T>, p: T -> bool, k: nat) returns (j: nat)
    requires k < |Filter(xs, p)|
    ensures j < |xs| && xs[j] == Filter(xs, p)[k] && p(xs[j])
  {
    var n := |xs| - 1;
    if k < |Filter(xs[..n], p)| {
      j := FilterAt(xs[..n], p, k);
    } else {
      j := n;
    }
  }

  lemma {:induction false} FilterOrdered<T>(xs: seq<T>, p: T -> bool, le: (T, T) -> bool)
    requires Ordered(xs, le)
    ensures Ordered(Filter(xs, p), le)
  {
    if xs != [] {
      var n := |xs| - 1;
      FilterOrdered(xs[..n], p, le);
      var rest := Filter(xs[..n], p);
      forall k | 0 <= k < |rest|
        ensures le(rest[k], xs[n])
      {
        var j := FilterAt(xs[..n], p, k);
        assert xs[j] == rest[k];
      }
    }
  }

  /** Elements that tie in the order are equal. */
  ghost predicate Separates<T>(le: (T, T) -> bool, xs: seq<T>) {
    forall i, j :: 0 <= i < |xs| && 0 <= j < |xs| && le(xs[i], xs[j]) && le(xs[j], xs[i]) ==> xs[i] == xs[j]
  }

  lemma SeparatesMembers<T>(le: (T, T) -> bool, xs: seq<T>, ys: seq<T>)
    requires Separates(le, xs) && forall y :: y in ys ==> y in xs
    ensures Separates(le, ys)
  {
    forall i, j | 0 <= i < |ys| && 0 <= j < |ys| && le(ys[i], ys[j]) && le(ys[j], ys[i])
      ensures ys[i] == ys[j]
    {
      assert ys[i] in xs && ys[j] in xs;
    }
  }

  lemma TailFacts<T>(xs: seq<T>, le: (T, T) -> bool)
    requires xs != [] && Ordered(xs, le)
    ensures xs == [xs[0]] + xs[1..] && multiset(xs[1..]) == multiset(xs) - multiset{xs[0]}
    ensures Ordered(xs[1..], le)
    ensures Separates(le, xs) ==> Separates(le, xs[1..])
  {
    assert xs == [xs[0]] + xs[1..];
  }

  lemma SameHead<T>(xs: seq<T>, ys: seq<T>, le: (T, T) -> bool)
    requires xs != [] && ys != [] && Ordered(xs, le) && Ordered(ys, le) && multiset(xs) == multiset(ys)
    requires Separates(le, xs)
    ensures xs[0] == ys[0]
  {
    SameElements(xs, ys, xs[0]);
    SameElements(xs, ys, ys[0]);
    var i :| 0 <= i < |ys| && ys[i] == xs[0];
    var j :| 0 <= j < |xs| && xs[j] == ys[0];
  }

  /** Two sorted arrangements of the same elements are equal when the order separates the elements. */
  lemma {:induction false} OrderedUnique<T>(xs: seq<T>, ys: seq<T>, le: (T, T) -> bool)
    requires Ordered(xs, le) && Ordered(ys, le) && multiset(xs) == multiset(ys)
    requires Separates(le, xs)
    ensures xs == ys
    decreases |xs|
  {
    hide Ordered, Separates;
    assert |xs| == |multiset(xs)| == |multiset(ys)| == |ys|;
    if xs != [] {
      SameHead(xs, ys, le);
      TailFacts(xs, le);
      TailFacts(ys, le);
      OrderedUnique(xs[1..], ys[1..], le);
    }
  }

  // ---------------------------------------------------------------------------
  // Strings
  // ---------------------------------------------------------------------------

  /** Code point order of strings. */
  predicate StringLe(a: string, b: string) {
    a == [] || (b != [] && (a[0] < b[0] || (a[0] == b[0] && StringLe(a[1..], b[1..]))))
  }

  lemma {:induction false} StringLeTotal(a: string, b: string)
    ensures StringLe(a, b) || StringLe(b, a)
  {
    if a != [] && b != [] && a[0] == b[0] {
      StringLeTotal(a[1..], b[1..]);
    }
  }

  lemma {:induction false} StringLeTransitive(a: string, b: string, c: string)
    requires StringLe(a, b) && StringLe(b, c)
    ensures StringLe(a, c)
  {
    if a != [] && b != [] && c != [] && a[0] == b[0] == c[0] {
      StringLeTransitive(a[1..], b[1..], c[1..]);
    }
  }

  lemma StringLeIsTotal()
    ensures TotalPreorder(StringLe)
  {
    forall a, b
      ensures StringLe(a, b) || StringLe(b, a)
    {
      StringLeTotal(a, b);
    }
    forall a, b, c | StringLe(a, b) && StringLe(b, c)
      ensures StringLe(a, c)
    {
      StringLeTransitive(a, b, c);
    }
  }

  lemma {:induction false} StringLeAntisymmetric(a: string, b: string)
    requires StringLe(a, b) && StringLe(b, a)
    ensures a == b
  {
    if a != [] {
      StringLeAntisymmetric(a[1..], b[1..]);
      assert a == [a[0]] + a[1..] && b == [b[0]] + b[1..];
    }
  }
}
