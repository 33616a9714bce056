/** Ordered subsequences, filters and distinct images of sequences. */
module Subsequences {

  // at lists, in increasing order, where in b the elements of a are found.
  ghost predicate Embeds<T>(a: seq<T>, b: seq<T>, at: seq<int>)
  {
    && |at| == |a|
    && (forall i | 0 <= i < |a| :: 0 <= at[i] < |b| && a[i] == b[at[i]])
    && (forall i, j | 0 <= i < j < |a| :: at[i] < at[j])
  }

  ghost predicate Subsequence<T>(a: seq<T>, b: seq<T>) { exists at :: Embeds(a, b, at) }

  function Filter<T>(s: seq<T>, keep: T -> bool): (r: seq<T>)
    ensures forall x | x in r :: x in s && keep(x)
    ensures forall x | x in s && keep(x) :: x in r
  {
    if s == [] then []
    else
      var head, last := s[..|s| - 1], s[|s| - 1];
      assert s == head + [last];
      if keep(last) then Filter(head, keep) + [last] else Filter(head, keep)
  }

  lemma FilterNext<T>(s: seq<T>, i: nat, keep: T -> bool)
    requires i < |s|
    ensures Filter(s[..i + 1], keep) == Filter(s[..i], keep) + if keep(s[i]) then [s[i]] else []
  {
    assert s[..i + 1][..i] == s[..i];
  }

  lemma SubsequenceNone<T>(b: seq<T>)
    ensures Subsequence([], b)
  {
    assert Embeds([], b, []);
  }

  // One more element of the whole may be left out or taken.
  lemma SubsequenceNext<T>(a: seq<T>, b: seq<T>)
    requires b != [] && Subsequence(a, b[..|b| - 1])
    ensures Subsequence(a, b) && Subsequence(a + [b[|b| - 1]], b)
  {
    var at :| Embeds(a, b[..|b| - 1], at);
    assert Embeds(a, b, at);
    assert Embeds(a + [b[|b| - 1]], b, at + [|b| - 1]);
  }

  lemma {:induction false} FilterSubsequence<T>(s: seq<T>, keep: T -> bool)
    ensures Subsequence(Filter(s, keep), s)
  {
    hide Subsequence;
    if s == [] {
      SubsequenceNone(s);
    } else {
      FilterSubsequence(s[..|s| - 1], keep);
      SubsequenceNext(Filter(s[..|s| - 1], keep), s);
    }
  }

  lemma PrefixSubsequence<T>(a: seq<T>, b: seq<T>, n: nat)
    requires Subsequence(a, b) && n <= |a|
    ensures Subsequence(a[..n], b)
  {
    var at :| Embeds(a, b, at);
    assert Embeds(a[..n], b, at[..n]);
  }

  lemma SubsequenceTransitive<T>(a: seq<T>, b: seq<T>, c: seq<T>)
    requires Subsequence(a, b) && Subsequence(b, c)
    ensures Subsequence(a, c)
  {
    var at :| Embeds(a, b, at);
    var bt :| Embeds(b, c, bt);
    assert Embeds(a, c, seq(|a|, i requires 0 <= i < |a| => bt[at[i]]));
  }

  lemma SubsequenceMembers<T>(a: seq<T>, b: seq<T>)
    requires Subsequence(a, b)
    ensures forall x | x in a :: x in b
  {
  }

  // Elements with pairwise different images under f.
  ghost predicate DistinctBy<T, K>(s: seq<T>, f: T -> K)
  {
    forall i, j | 0 <= i < j < |s| :: f(s[i]) != f(s[j])
  }

  lemma SubsequenceDistinct<T, K>(a: seq<T>, b: seq<T>, f: T -> K)
    requires Subsequence(a, b) && DistinctBy(b, f)
    ensures DistinctBy(a, f)
  {
  }

  // A subsequence is no longer than the whole, and equal to it when as long.
  lemma SubsequenceLength<T>(a: seq<T>, b: seq<T>)
    ensures Subsequence(a, b) ==> |a| <= |b| && (|a| == |b| ==> a == b)
  {
    if Subsequence(a, b) {
      var at :| Embeds(a, b, at);
      forall i | 0 <= i < |a| ensures i <= at[i] <= |b| - (|a| - i) {
        AtLeast(a, b, at, i);
        AtMost(a, b, at, i);
      }
      assert |a| > 0 ==> |a| - 1 <= at[|a| - 1] < |b|;
      assert |a| == |b| ==> a == b;
    }
  }

  lemma {:induction false} AtLeast<T>(a: seq<T>, b: seq<T>, at: seq<int>, i: nat)
    requires Embeds(a, b, at) && i < |a|
    ensures i <= at[i]
  {
    if i > 0 { AtLeast(a, b, at, i - 1); }
  }

  lemma {:induction false} AtMost<T>(a: seq<T>, b: seq<T>, at: seq<int>, i: nat)
    requires Embeds(a, b, at) && i < |a|
    ensures at[i] <= |b| - (|a| - i)
    decreases |a| - i
  {
    if i + 1 < |a| { AtMost(a, b, at, i + 1); }
  }
}
