/** Stable insertion sort by a strict weak order, standing for Go's sort package. */
module Sorting {

  ghost predicate WeakOrder<T(!new)>(less: (T, T) -> bool)
  {
    && (forall a, b :: less(a, b) ==> !less(b, a))
    && (forall a, b, c :: !less(a, b) && !less(b, c) ==> !less(a, c))
  }

  // No later element is less than an earlier one.
  ghost predicate Sorted<T>(s: seq<T>, less: (T, T) -> bool)
  {
    forall i, j | 0 <= i < j < |s| :: !less(s[j], s[i])
  }

  function Insert<T>(x: T, s: seq<T>, less: (T, T) -> bool): (r: seq<T>)
    ensures multiset(r) == multiset(s) + multiset{x}
    ensures |r| == |s| + 1
  {
    if |s| == 0 || !less(x, s[|s| - 1]) then s + [x]
    else
      assert s == s[..|s| - 1] + [s[|s| - 1]];
      Insert(x, s[..|s| - 1], less) + [s[|s| - 1]]
  }

  function Sort<T>(s: seq<T>, less: (T, T) -> bool): (r: seq<T>)
    ensures multiset(r) == multiset(s)
    ensures |r| == |s|
  {
    if |s| == 0 then []
    else
      assert s == s[..|s| - 1] + [s[|s| - 1]];
      Insert(s[|s| - 1], Sort(s[..|s| - 1], less), less)
  }

  lemma {:induction false} InsertMembers<T>(x: T, s: seq<T>, less: (T, T) -> bool)
    ensures forall y :: y in Insert(x, s, less) <==> y == x || y in s
  {
    forall y ensures y in Insert(x, s, less) <==> y == x || y in s {
      assert y in Insert(x, s, less) <==> y in multiset(Insert(x, s, less));
    }
  }

  lemma {:induction false} InsertSorted<T(!new)>(x: T, s: seq<T>, less: (T, T) -> bool)
    requires WeakOrder(less) && Sorted(s, less)
    ensures Sorted(Insert(x, s, less), less)
  {
    if |s| > 0 {
      var last := s[|s| - 1];
      if less(x, last) {
        var head := Insert(x, s[..|s| - 1], less);
        InsertSorted(x, s[..|s| - 1], less);
        InsertMembers(x, s[..|s| - 1], less);
        forall i | 0 <= i < |head| ensures !less(last, head[i]) {
          assert head[i] in head;
        }
      } else {
        forall i | 0 <= i < |s| ensures !less(x, s[i]) {
          if i < |s| - 1 { assert !less(last, s[i]); }
        }
      }
    }
  }

  lemma {:induction false} SortSorted<T(!new)>(s: seq<T>, less: (T, T) -> bool)
    requires WeakOrder(less)
    ensures Sorted(Sort(s, less), less)
  {
    if |s| > 0 {
      SortSorted(s[..|s| - 1], less);
      InsertSorted(s[|s| - 1], Sort(s[..|s| - 1], less), less);
    }
  }

  lemma SortMembers<T>(s: seq<T>, less: (T, T) -> bool)
    ensures forall y :: y in Sort(s, less) <==> y in s
  {
    forall y ensures y in Sort(s, less) <==> y in s {
      assert y in Sort(s, less) <==> y in multiset(Sort(s, less));
    }
  }

  ghost predicate Distinct<T>(s: seq<T>)
  {
    forall i, j | 0 <= i < j < |s| :: s[i] != s[j]
  }

  lemma {:induction false} DistinctCounts<T>(s: seq<T>)
    ensures Distinct(s) <==> forall x :: multiset(s)[x] <= 1
  {
    if |s| > 0 {
      var head, last := s[..|s| - 1], s[|s| - 1];
      assert s == head + [last];
      DistinctCounts(head);
      assert forall x :: multiset(s)[x] == multiset(head)[x] + (if x == last then 1 else 0);
      if last in head {
        assert multiset(s)[last] >= 2;
        var i :| 0 <= i < |head| && head[i] == last;
        assert s[i] == s[|s| - 1];
      } else {
        assert last !in multiset(head);
        assert Distinct(s) <==> Distinct(head);
      }
    }
  }

  lemma SortDistinct<T>(s: seq<T>, less: (T, T) -> bool)
    requires Distinct(s)
    ensures Distinct(Sort(s, less))
  {
    DistinctCounts(s);
    DistinctCounts(Sort(s, less));
  }

  /******* Go's order on strings *******/

  predicate StringLess(a: string, b: string)
  {
    |b| > 0 && (|a| == 0 || a[0] < b[0] || (a[0] == b[0] && StringLess(a[1..], b[1..])))
  }

  lemma {:induction false} StringAsymmetric(a: string, b: string)
    ensures StringLess(a, b) ==> !StringLess(b, a)
    ensures !StringLess(a, b) && !StringLess(b, a) ==> a == b
    decreases |a| + |b|
  {
    if |a| > 0 && |b| > 0 {
      StringAsymmetric(a[1..], b[1..]);
      assert a == [a[0]] + a[1..] && b == [b[0]] + b[1..];
    }
  }

  lemma {:induction false} StringTransitive(a: string, b: string, c: string)
    ensures !StringLess(a, b) && !StringLess(b, c) ==> !StringLess(a, c)
    decreases |a|
  {
    if |a| > 0 && |b| > 0 && |c| > 0 { StringTransitive(a[1..], b[1..], c[1..]); }
  }

  lemma StringOrder()
    ensures WeakOrder(StringLess)
  {
    forall a, b ensures StringLess(a, b) ==> !StringLess(b, a) { StringAsymmetric(a, b); }
    forall a, b, c ensures !StringLess(a, b) && !StringLess(b, c) ==> !StringLess(a, c) { StringTransitive(a, b, c); }
  }

  // After n equal characters the first has ended and the second goes on, or has the smaller character.
  predicate SmallerAt(a: string, b: string, n: nat)
  {
    n <= |a| && n < |b| && a[..n] == b[..n] && (n < |a| ==> a[n] < b[n])
  }

  // The order is that of a dictionary.
  lemma {:induction false} DictionaryOrder(a: string, b: string)
    ensures StringLess(a, b) <==> exists n: nat :: SmallerAt(a, b, n)
    decreases |a|
  {
    if |a| == 0 || |b| == 0 || a[0] != b[0] {
      if StringLess(a, b) { assert SmallerAt(a, b, 0); }
      assert forall n: nat | SmallerAt(a, b, n) && n > 0 :: a[..n][0] == b[..n][0];
    } else {
      DictionaryOrder(a[1..], b[1..]);
      if StringLess(a, b) {
        var n: nat :| SmallerAt(a[1..], b[1..], n);
        OneMore(a, b, n);
      }
      assert !SmallerAt(a, b, 0);
      if n: nat :| SmallerAt(a, b, n) { OneMore(a, b, n - 1); }
    }
  }

  lemma OneMore(a: string, b: string, n: nat)
    requires |a| > 0 && |b| > 0 && a[0] == b[0]
    ensures SmallerAt(a[1..], b[1..], n) <==> SmallerAt(a, b, n + 1)
  {
    if n < |a| && n < |b| {
      assert a[..n + 1] == [a[0]] + a[1..][..n] && b[..n + 1] == [b[0]] + b[1..][..n];
      assert a[..n + 1][1..] == a[1..][..n] && b[..n + 1][1..] == b[1..][..n];
    }
  }
}
