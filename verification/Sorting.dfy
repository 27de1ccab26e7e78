/** `Array.prototype.toSorted`: a stable sort.  `before(a, b)` stands for `compare(a, b) < 0`. */
module Sorting {
  import opened Common

  function Insert<T>(before: (T, T) -> bool, sorted: seq<T>, x: T): seq<T> {
    if sorted != [] && before(x, sorted[|sorted| - 1]) then
      Insert(before, sorted[..|sorted| - 1], x) + [sorted[|sorted| - 1]]
    else sorted + [x]
  }

  function ToSorted<T>(before: (T, T) -> bool, xs: seq<T>): seq<T> {
    if xs == [] then [] else Insert(before, ToSorted(before, xs[..|xs| - 1]), xs[|xs| - 1])
  }

  /** The comparator orders any two different elements the same way round, transitively. */
  ghost predicate Consistent<T(!new)>(before: (T, T) -> bool, xs: seq<T>) {
    && (forall a, b | a in xs && b in xs && a != b :: !(before(a, b) && before(b, a)))
    && (forall a, b, c | a in xs && b in xs && c in xs && a != b && b != c && a != c ::
          !before(b, a) && !before(c, b) ==> !before(c, a))
  }

  predicate Ordered<T>(before: (T, T) -> bool, ys: seq<T>) {
    forall i, j | 0 <= i < j < |ys| :: !before(ys[j], ys[i])
  }

  predicate Precedes<T(==)>(ys: seq<T>, a: T, b: T) {
    exists i, j | 0 <= i < j < |ys| :: ys[i] == a && ys[j] == b
  }

  lemma {:induction false} InsertPermutes<T>(before: (T, T) -> bool, sorted: seq<T>, x: T)
    ensures multiset(Insert(before, sorted, x)) == multiset(sorted) + multiset{x}
  {
    if sorted != [] && before(x, sorted[|sorted| - 1]) {
      InsertPermutes(before, sorted[..|sorted| - 1], x);
      assert sorted == sorted[..|sorted| - 1] + [sorted[|sorted| - 1]];
    }
  }

  lemma LastApart<T>(xs: seq<T>)
    requires xs != []
    ensures multiset(xs) == multiset(xs[..|xs| - 1]) + multiset{xs[|xs| - 1]}
  {
    assert xs == xs[..|xs| - 1] + [xs[|xs| - 1]];
  }

  lemma {:induction false} SortedPermutes<T>(before: (T, T) -> bool, xs: seq<T>)
    ensures multiset(ToSorted(before, xs)) == multiset(xs)
  {
    if xs != [] {
      var init, last := xs[..|xs| - 1], xs[|xs| - 1];
      SortedPermutes(before, init);
      var sorted := ToSorted(before, init);
      assert ToSorted(before, xs) == Insert(before, sorted, last);
      InsertPermutes(before, sorted, last);
      LastApart(xs);
    }
  }

  lemma SameMembers<T>(xs: seq<T>, ys: seq<T>)
    requires multiset(xs) == multiset(ys)
    ensures |xs| == |ys|
    ensures forall x :: x in xs <==> x in ys
  {
    assert |multiset(xs)| == |multiset(ys)|;
    forall x
      ensures x in xs <==> x in ys
    {
      assert x in xs <==> x in multiset(xs);
      assert x in ys <==> x in multiset(ys);
    }
  }

  lemma AppendKeepsOrder<T(!new)>(before: (T, T) -> bool, sorted: seq<T>, x: T)
    requires sorted != [] && Ordered(before, sorted) && x !in sorted && Distinct(sorted)
               && Consistent(before, sorted + [x])
    requires !before(x, sorted[|sorted| - 1])
    ensures Ordered(before, sorted + [x])
  {
    var last := sorted[|sorted| - 1];
    forall i | 0 <= i < |sorted|
      ensures !before(x, sorted[i])
    {
      assert sorted[i] in sorted + [x] && last in sorted + [x] && x in sorted + [x];
    }
  }

  lemma {:induction false} InsertKeepsOrder<T(!new)>(before: (T, T) -> bool, sorted: seq<T>, x: T)
    requires Ordered(before, sorted) && x !in sorted && Distinct(sorted) && Consistent(before, sorted + [x])
    ensures Ordered(before, Insert(before, sorted, x))
  {
    if sorted != [] {
      var init, last := sorted[..|sorted| - 1], sorted[|sorted| - 1];
      if before(x, last) {
        assert Consistent(before, init + [x]) by {
          assert forall a | a in init + [x] :: a in sorted + [x];
        }
        InsertKeepsOrder(before, init, x);
        InsertPermutes(before, init, x);
        SameMembers(Insert(before, init, x), init + [x]);
        var front := Insert(before, init, x);
        forall i | 0 <= i < |front|
          ensures !before(last, front[i])
        {
          assert front[i] in init + [x];
          assert x in sorted + [x] && last in sorted + [x];
        }
      } else {
        AppendKeepsOrder(before, sorted, x);
      }
    }
  }

  lemma {:induction false} SortedOrdered<T(!new)>(before: (T, T) -> bool, xs: seq<T>)
    requires Distinct(xs) && Consistent(before, xs)
    ensures Ordered(before, ToSorted(before, xs))
  {
    if xs != [] {
      var init, last := xs[..|xs| - 1], xs[|xs| - 1];
      SortedOrdered(before, init);
      SortedPermutes(before, init);
      SameMembers(ToSorted(before, init), init);
      DistinctByMultiset(init, ToSorted(before, init));
      InsertKeepsOrder(before, ToSorted(before, init), last);
    }
  }

  lemma {:induction false} DistinctIffOnce<T>(xs: seq<T>)
    ensures Distinct(xs) <==> forall x | x in xs :: multiset(xs)[x] == 1
  {
    if xs != [] {
      var init, last := xs[..|xs| - 1], xs[|xs| - 1];
      DistinctIffOnce(init);
      assert xs == init + [last];
      assert multiset(xs) == multiset(init) + multiset{last};
      if Distinct(xs) {
        assert last !in init;
      } else if Distinct(init) {
        var i :| 0 <= i < |init| && init[i] == last;
        assert multiset(xs)[last] == multiset(init)[last] + 1 && init[i] in multiset(init);
      } else {
        var x :| x in init && multiset(init)[x] != 1;
        assert x in xs && x in multiset(init);
      }
    }
  }

  lemma DistinctByMultiset<T>(xs: seq<T>, ys: seq<T>)
    requires multiset(xs) == multiset(ys) && Distinct(xs)
    ensures Distinct(ys)
  {
    DistinctIffOnce(xs);
    DistinctIffOnce(ys);
    SameMembers(xs, ys);
  }

  lemma {:induction false} InsertKeepsPrecedence<T>(before: (T, T) -> bool, sorted: seq<T>, x: T, a: T, b: T)
    requires Precedes(sorted, a, b)
    ensures Precedes(Insert(before, sorted, x), a, b)
  {
    var i, j :| 0 <= i < j < |sorted| && sorted[i] == a && sorted[j] == b;
    var r := Insert(before, sorted, x);
    if before(x, sorted[|sorted| - 1]) {
      var init := sorted[..|sorted| - 1];
      if j < |init| {
        assert init[i] == a && init[j] == b;
        InsertKeepsPrecedence(before, init, x, a, b);
        var k, l :| 0 <= k < l < |Insert(before, init, x)| && Insert(before, init, x)[k] == a
          && Insert(before, init, x)[l] == b;
        assert r[k] == a && r[l] == b;
      } else {
        InsertPermutes(before, init, x);
        SameMembers(Insert(before, init, x), init + [x]);
        assert init[i] in init + [x];
        var k :| 0 <= k < |Insert(before, init, x)| && Insert(before, init, x)[k] == a;
        assert r[k] == a && r[|r| - 1] == b;
      }
    } else {
      assert r[i] == a && r[j] == b;
    }
  }

  lemma {:induction false} InsertGoesAfter<T>(before: (T, T) -> bool, sorted: seq<T>, x: T, a: T)
    requires a in sorted && !before(x, a)
    ensures Precedes(Insert(before, sorted, x), a, x)
  {
    var r := Insert(before, sorted, x);
    var i :| 0 <= i < |sorted| && sorted[i] == a;
    if before(x, sorted[|sorted| - 1]) {
      var init := sorted[..|sorted| - 1];
      assert init[i] == a;
      InsertGoesAfter(before, init, x, a);
      var k, l :| 0 <= k < l < |Insert(before, init, x)| && Insert(before, init, x)[k] == a
        && Insert(before, init, x)[l] == x;
      assert r[k] == a && r[l] == x;
    } else {
      assert r[i] == a && r[|r| - 1] == x;
    }
  }

  /** Stability: an element stays in front of a later one that does not belong before it. */
  lemma {:induction false} SortedStable<T>(before: (T, T) -> bool, xs: seq<T>, i: nat, j: nat)
    requires i < j < |xs| && !before(xs[j], xs[i])
    ensures Precedes(ToSorted(before, xs), xs[i], xs[j])
  {
    var init, last := xs[..|xs| - 1], xs[|xs| - 1];
    if j < |init| {
      SortedStable(before, init, i, j);
      InsertKeepsPrecedence(before, ToSorted(before, init), last, xs[i], xs[j]);
    } else {
      SortedPermutes(before, init);
      SameMembers(ToSorted(before, init), init);
      assert init[i] in init;
      InsertGoesAfter(before, ToSorted(before, init), last, xs[i]);
    }
  }
}
