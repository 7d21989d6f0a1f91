/** Sorting a list of distinct elements by a strict order, and why the result does not depend on
    the order it starts from. */
module ListSort {
  import opened Collections

  /** A strict order that is total on the elements it is used for. */
  ghost predicate StrictOrder<T(!new)>(less: (T, T) -> bool, s: set<T>) {
    && (forall x :: x in s ==> !less(x, x))
    && (forall x, y :: x in s && y in s && x != y ==> less(x, y) || less(y, x))
    && (forall x, y, z :: x in s && y in s && z in s && less(x, y) && less(y, z) ==> less(x, z))
  }

  ghost predicate Ordered<T(!new)>(less: (T, T) -> bool, xs: seq<T>) {
    forall i, j :: 0 <= i < j < |xs| ==> less(xs[i], xs[j])
  }

  function Insert<T>(less: (T, T) -> bool, x: T, xs: seq<T>): seq<T> {
    if xs == [] || less(x, xs[0]) then [x] + xs else [xs[0]] + Insert(less, x, xs[1..])
  }

  function Sort<T>(less: (T, T) -> bool, xs: seq<T>): seq<T> {
    if xs == [] then [] else Insert(less, xs[0], Sort(less, xs[1..]))
  }

  lemma {:induction false} InsertOrdered<T(!new)>(less: (T, T) -> bool, x: T, xs: seq<T>)
    requires Ordered(less, xs) && x !in xs && StrictOrder(less, Elements(xs) + {x})
    ensures Ordered(less, Insert(less, x, xs)) && Elements(Insert(less, x, xs)) == Elements(xs) + {x}
    ensures |Insert(less, x, xs)| == |xs| + 1
    decreases |xs|
  {
    if xs == [] {
    } else if less(x, xs[0]) {
      forall j | 0 <= j < |xs|
        ensures less(x, xs[j])
      {
        assert xs[0] in Elements(xs) && xs[j] in Elements(xs);
      }
      assert Elements([x] + xs) == Elements(xs) + {x};
    } else {
      var rest := xs[1..];
      assert Elements(xs) == {xs[0]} + Elements(rest);
      InsertOrdered(less, x, rest);
      var r := Insert(less, x, rest);
      assert Insert(less, x, xs) == [xs[0]] + r;
      forall j | 0 <= j < |r|
        ensures less(xs[0], r[j])
      {
        assert r[j] in Elements(r);
        if r[j] != x {
          var k :| 0 <= k < |rest| && rest[k] == r[j];
          assert xs[k + 1] == r[j];
        }
      }
      assert Elements([xs[0]] + r) == {xs[0]} + Elements(r);
    }
  }

  lemma {:induction false} SortOrdered<T(!new)>(less: (T, T) -> bool, xs: seq<T>)
    requires Distinct(xs) && StrictOrder(less, Elements(xs))
    ensures Ordered(less, Sort(less, xs)) && Elements(Sort(less, xs)) == Elements(xs)
    ensures |Sort(less, xs)| == |xs|
    decreases |xs|
  {
    if xs != [] {
      assert Elements(xs) == {xs[0]} + Elements(xs[1..]);
      SortOrdered(less, xs[1..]);
      var r := Sort(less, xs[1..]);
      assert xs[0] !in Elements(r);
      InsertOrdered(less, xs[0], r);
    }
  }

  /** Two ordered lists of the same elements are equal. */
  lemma {:induction false} OrderedUnique<T(!new)>(less: (T, T) -> bool, xs: seq<T>, ys: seq<T>)
    requires Ordered(less, xs) && Ordered(less, ys) && Elements(xs) == Elements(ys)
    requires StrictOrder(less, Elements(xs))
    ensures xs == ys
    decreases |xs|
  {
    if xs == [] {
      assert forall i :: 0 <= i < |ys| ==> ys[i] in Elements(xs);
    } else {
      assert xs[0] in Elements(ys) && ys != [];
      assert ys[0] in Elements(xs);
      FirstIsLeast(less, xs, ys[0]);
      FirstIsLeast(less, ys, xs[0]);
      assert xs[0] == ys[0];
      TailElements(less, xs);
      TailElements(less, ys);
      OrderedUnique(less, xs[1..], ys[1..]);
    }
  }

  lemma FirstIsLeast<T(!new)>(less: (T, T) -> bool, xs: seq<T>, x: T)
    requires Ordered(less, xs) && x in xs
    ensures x == xs[0] || less(xs[0], x)
  {}

  lemma TailElements<T(!new)>(less: (T, T) -> bool, xs: seq<T>)
    requires Ordered(less, xs) && xs != [] && StrictOrder(less, Elements(xs))
    ensures Elements(xs[1..]) == Elements(xs) - {xs[0]}
  {
    forall k | 0 <= k < |xs[1..]|
      ensures xs[1..][k] != xs[0]
    {
      assert xs[0] in Elements(xs);
      assert less(xs[0], xs[k + 1]);
    }
    assert xs == [xs[0]] + xs[1..];
  }

  /** Sorting gives the one ordered list of these elements, whatever order they came in. */
  lemma SortIsCanonical<T(!new)>(less: (T, T) -> bool, xs: seq<T>, ys: seq<T>)
    requires Distinct(xs) && Distinct(ys) && Elements(xs) == Elements(ys) && StrictOrder(less, Elements(xs))
    ensures Sort(less, xs) == Sort(less, ys)
  {
    SortOrdered(less, xs);
    SortOrdered(less, ys);
    OrderedUnique(less, Sort(less, xs), Sort(less, ys));
  }
}
