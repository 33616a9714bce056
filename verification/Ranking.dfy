/**
 Ranking of search results gathered concurrently from several providers: a
 stable sort by rank, then one release per identity. Title and year matching
 may be any predicates on the release title.
 */
module Ranking {
  import opened Options
  import opened Sorting
  import opened Subsequences

  datatype Release = Release(
    torrent: bool, provider: string, sourceID: string, title: string, indexer: string, size: int,
    infoHash: string, magnetURL: string, downloadURL: string, seeders: Option<int>)

  datatype Request = Request(
    eligible: string -> bool, intentMatch: string -> bool, titlePrefix: string -> bool, yearMatch: string -> bool,
    lower: string -> string)

  datatype Rank = Rank(
    intentMatch: bool, titlePrefix: bool, yearMatch: bool, hasHash: bool, seeders: int, size: int, provider: string, sourceID: string)

  datatype Identity = ByHash(torrent: bool, hash: string) | BySource(torrent: bool, provider: string, sourceID: string)

  predicate Usable(q: Request, r: Release)
  {
    && r.provider != "" && r.sourceID != "" && r.title != "" && r.indexer != "" && r.size > 0
    && (if r.torrent then r.infoHash != "" || r.magnetURL != "" || r.downloadURL != "" else r.downloadURL != "")
    && q.eligible(r.title)
  }

  function RankOf(q: Request, r: Release): Rank
  {
    Rank(q.intentMatch(r.title), q.titlePrefix(r.title), q.yearMatch(r.title), r.torrent && r.infoHash != "",
         if r.seeders.Some? then r.seeders.value else -1, r.size, r.provider, r.sourceID)
  }

  predicate RankLess(a: Rank, b: Rank)
  {
    if a.intentMatch != b.intentMatch then a.intentMatch
    else if a.titlePrefix != b.titlePrefix then a.titlePrefix
    else if a.yearMatch != b.yearMatch then a.yearMatch
    else if a.hasHash != b.hasHash then a.hasHash
    else if a.seeders != b.seeders then a.seeders > b.seeders
    else if a.size != b.size then a.size < b.size
    else if a.provider != b.provider then StringLess(a.provider, b.provider)
    else StringLess(a.sourceID, b.sourceID)
  }

  function Less(q: Request): (Release, Release) -> bool { (a, b) => RankLess(RankOf(q, a), RankOf(q, b)) }

  function IdentityOf(q: Request, r: Release): Identity
  {
    if r.infoHash != "" then ByHash(r.torrent, q.lower(r.infoHash)) else BySource(r.torrent, r.provider, r.sourceID)
  }

  function Identify(q: Request): Release -> Identity { r => IdentityOf(q, r) }

  function Keep(q: Request): Release -> bool { r => Usable(q, r) }

  function Identities(q: Request, s: seq<Release>): set<Identity> { set r | r in s :: IdentityOf(q, r) }

  // The first release of each identity.
  function Dedup(q: Request, s: seq<Release>): seq<Release>
  {
    if s == [] then []
    else
      var head, last := Dedup(q, s[..|s| - 1]), s[|s| - 1];
      if IdentityOf(q, last) in Identities(q, head) then head else head + [last]
  }

  function Ranked(q: Request, releases: seq<Release>): seq<Release>
  {
    Dedup(q, Sort(Filter(releases, Keep(q)), Less(q)))
  }

  method RankAndDeduplicate(q: Request, releases: seq<Release>) returns (result: seq<Release>)
    ensures result == Ranked(q, releases)
  {
    hide Filter, Dedup, Identities, IdentityOf;
    NothingYet(q, releases);
    var usable: seq<Release> := [];
    for i := 0 to |releases|
      invariant usable == Filter(releases[..i], Keep(q))
    {
      FilterNext(releases, i, Keep(q));
      if Usable(q, releases[i]) { usable := usable + [releases[i]]; }
    }
    assert releases[..|releases|] == releases;
    usable := Sort(usable, Less(q));
    NothingYet(q, usable);
    var seen: set<Identity> := {};
    result := [];
    for i := 0 to |usable|
      invariant result == Dedup(q, usable[..i]) && seen == Identities(q, result)
    {
      DedupNext(q, usable, i);
      IdentitiesNext(q, result, usable[i]);
      var key := IdentityOf(q, usable[i]);
      if key in seen { continue; }
      seen := seen + {key};
      result := result + [usable[i]];
    }
    assert usable[..|usable|] == usable;
  }

  lemma NothingYet(q: Request, s: seq<Release>)
    ensures Filter(s[..0], Keep(q)) == [] && Dedup(q, s[..0]) == [] && Identities(q, []) == {}
  {
  }

  lemma DedupNext(q: Request, s: seq<Release>, i: nat)
    requires i < |s|
    ensures var head := Dedup(q, s[..i]);
            Dedup(q, s[..i + 1]) == if IdentityOf(q, s[i]) in Identities(q, head) then head else head + [s[i]]
  {
    assert s[..i + 1][..i] == s[..i];
  }

  /******* The order *******/

  lemma RankTotal(a: Rank, b: Rank)
    ensures RankLess(a, b) ==> !RankLess(b, a)
    ensures !RankLess(a, b) && !RankLess(b, a) ==> a == b
  {
    StringAsymmetric(a.provider, b.provider);
    StringAsymmetric(a.sourceID, b.sourceID);
  }

  lemma RankTransitive(a: Rank, b: Rank, c: Rank)
    requires !RankLess(a, b) && !RankLess(b, c)
    ensures !RankLess(a, c)
  {
    StringTransitive(a.provider, b.provider, c.provider);
    StringTransitive(a.sourceID, b.sourceID, c.sourceID);
    StringAsymmetric(a.provider, b.provider);
    StringAsymmetric(b.provider, c.provider);
    StringAsymmetric(a.provider, c.provider);
  }

  lemma LessOrders(q: Request)
    ensures WeakOrder(Less(q))
  {
    hide RankLess;
    forall a, b ensures Less(q)(a, b) ==> !Less(q)(b, a) { RankTotal(RankOf(q, a), RankOf(q, b)); }
    forall a, b, c ensures !Less(q)(a, b) && !Less(q)(b, c) ==> !Less(q)(a, c) {
      if !Less(q)(a, b) && !Less(q)(b, c) { RankTransitive(RankOf(q, a), RankOf(q, b), RankOf(q, c)); }
    }
  }

  /******* What the result is *******/

  lemma {:induction false} DedupSubsequence(q: Request, s: seq<Release>)
    ensures Subsequence(Dedup(q, s), s)
  {
    hide Identities, Subsequence;
    if s == [] {
      SubsequenceNone(s);
    } else {
      DedupSubsequence(q, s[..|s| - 1]);
      SubsequenceNext(Dedup(q, s[..|s| - 1]), s);
    }
  }

  lemma {:induction false} DedupDistinct(q: Request, s: seq<Release>)
    ensures DistinctBy(Dedup(q, s), Identify(q))
  {
    hide Identities, DistinctBy;
    if s == [] {
      NothingDistinct(q);
    } else {
      var head, last := s[..|s| - 1], s[|s| - 1];
      DedupDistinct(q, head);
      if IdentityOf(q, last) !in Identities(q, Dedup(q, head)) { NewIdentity(q, Dedup(q, head), last); }
    }
  }

  lemma NothingDistinct(q: Request)
    ensures DistinctBy([], Identify(q))
  {
  }

  lemma IdentitiesNext(q: Request, s: seq<Release>, r: Release)
    ensures Identities(q, s + [r]) == Identities(q, s) + {IdentityOf(q, r)}
  {
    assert r in s + [r];
  }

  lemma {:induction false} DedupIdentities(q: Request, s: seq<Release>)
    ensures Identities(q, Dedup(q, s)) == Identities(q, s)
  {
    hide Identities;
    if s != [] {
      var head, last := s[..|s| - 1], s[|s| - 1];
      DedupIdentities(q, head);
      assert s == head + [last];
      IdentitiesNext(q, head, last);
      IdentitiesNext(q, Dedup(q, head), last);
    }
  }

  lemma NewIdentity(q: Request, s: seq<Release>, r: Release)
    requires DistinctBy(s, Identify(q)) && IdentityOf(q, r) !in Identities(q, s)
    ensures DistinctBy(s + [r], Identify(q))
  {
  }

  // A representative comes before every release of its identity in the sorted list.
  lemma {:induction false} DedupIsFirst(q: Request, s: seq<Release>, r: Release, x: Release)
    requires Sorted(s, Less(q)) && WeakOrder(Less(q)) && r in Dedup(q, s) && x in s && IdentityOf(q, x) == IdentityOf(q, r)
    ensures !Less(q)(x, r)
  {
    var head, last := s[..|s| - 1], s[|s| - 1];
    assert s == head + [last];
    var kept := Dedup(q, head);
    if r in kept {
      if x in head {
        DedupIsFirst(q, head, r, x);
      } else {
        DedupFrom(q, head, r);
        var i :| 0 <= i < |head| && head[i] == r;
        assert !Less(q)(s[|s| - 1], s[i]);
      }
    } else {
      DedupIdentities(q, head);
      assert x in head ==> IdentityOf(q, x) in Identities(q, kept);
      assert x == last && r == last;
      assert !Less(q)(last, last);
    }
  }

  lemma DedupFrom(q: Request, s: seq<Release>, r: Release)
    requires r in Dedup(q, s)
    ensures r in s
  {
    hide Subsequence;
    DedupSubsequence(q, s);
    SubsequenceMembers(Dedup(q, s), s);
  }

  // r is a best-ranked usable release of its identity.
  ghost predicate Best(q: Request, releases: seq<Release>, r: Release)
  {
    && r in releases && Usable(q, r)
    && forall x | x in releases && Usable(q, x) && IdentityOf(q, x) == IdentityOf(q, r) :: !Less(q)(x, r)
  }

  // One best-ranked release for each usable identity, in rank order, and nothing else.
  lemma RankedLaw(q: Request, releases: seq<Release>)
    ensures DistinctBy(Ranked(q, releases), Identify(q))
    ensures forall r | r in Ranked(q, releases) :: Best(q, releases, r)
    ensures forall x | x in releases && Usable(q, x) :: IdentityOf(q, x) in Identities(q, Ranked(q, releases))
    ensures Sorted(Ranked(q, releases), Less(q))
  {
    hide Sorted, WeakOrder, RankLess, DistinctBy, Subsequence;
    var usable := Filter(releases, Keep(q));
    var sorted := Sort(usable, Less(q));
    LessOrders(q);
    SortSorted(usable, Less(q));
    SortMembers(usable, Less(q));
    DedupSubsequence(q, sorted);
    DedupDistinct(q, sorted);
    DedupIdentities(q, sorted);
    assert forall x | x in releases && Usable(q, x) :: Keep(q)(x);
    forall r | r in Ranked(q, releases) ensures Best(q, releases, r) {
      DedupFrom(q, sorted, r);
      assert Keep(q)(r);
      forall x | x in releases && Usable(q, x) && IdentityOf(q, x) == IdentityOf(q, r) ensures !Less(q)(x, r) {
        assert x in sorted;
        DedupIsFirst(q, sorted, r, x);
      }
    }
    SortedPart(q, Dedup(q, sorted), sorted);
  }

  lemma SortedPart(q: Request, a: seq<Release>, b: seq<Release>)
    requires Subsequence(a, b) && Sorted(b, Less(q))
    ensures Sorted(a, Less(q))
  {
    var at :| Embeds(a, b, at);
    forall i, j | 0 <= i < j < |a| ensures !Less(q)(a[j], a[i]) { assert !Less(q)(b[at[j]], b[at[i]]); }
  }

  /******* Arrival order *******/

  function Ranks(q: Request, s: seq<Release>): seq<Rank> { seq(|s|, i requires 0 <= i < |s| => RankOf(q, s[i])) }

  // Removing one element from a sequence and from its ranks.
  function Without<T>(s: seq<T>, i: nat): seq<T>
    requires i < |s|
  {
    s[..i] + s[i + 1..]
  }

  lemma WithoutCounts<T>(s: seq<T>, i: nat)
    requires i < |s|
    ensures multiset(s) == multiset(Without(s, i)) + multiset{s[i]}
  {
    assert s == s[..i] + [s[i]] + s[i + 1..];
  }

  // Matching elements one to one by identity, equally ranked, gives equal multisets of ranks.
  lemma {:induction false} SameRanks(q: Request, a: seq<Release>, b: seq<Release>)
    requires DistinctBy(a, Identify(q)) && DistinctBy(b, Identify(q)) && Identities(q, a) == Identities(q, b)
    requires forall x, y | x in a && y in b && IdentityOf(q, x) == IdentityOf(q, y) :: RankOf(q, x) == RankOf(q, y)
    ensures multiset(Ranks(q, a)) == multiset(Ranks(q, b))
    decreases |a|
  {
    if a == [] {
      EmptyIdentities(q, b);
    } else {
      var n := |a| - 1;
      assert IdentityOf(q, a[n]) in Identities(q, b);
      var y :| y in b && IdentityOf(q, y) == IdentityOf(q, a[n]);
      var j :| 0 <= j < |b| && b[j] == y;
      var a', b' := Without(a, n), Without(b, j);
      RemoveIdentity(q, a, n);
      RemoveIdentity(q, b, j);
      SameRanks(q, a', b');
      RanksWithout(q, a, n);
      RanksWithout(q, b, j);
    }
  }

  lemma EmptyIdentities(q: Request, s: seq<Release>)
    ensures s != [] ==> Identities(q, s) != {}
  {
    if s != [] { assert s[0] in s && IdentityOf(q, s[0]) in Identities(q, s); }
  }

  lemma RemoveIdentity(q: Request, s: seq<Release>, i: nat)
    requires DistinctBy(s, Identify(q)) && i < |s|
    ensures DistinctBy(Without(s, i), Identify(q)) && Identities(q, Without(s, i)) == Identities(q, s) - {IdentityOf(q, s[i])}
    ensures forall x | x in Without(s, i) :: x in s
  {
    forall k | 0 <= k < |s| && k != i ensures IdentityOf(q, s[k]) != IdentityOf(q, s[i]) && s[k] in Without(s, i) {
      assert Identify(q)(s[k]) != Identify(q)(s[i]);
      assert s[k] == Without(s, i)[if k < i then k else k - 1];
    }
  }

  lemma RanksWithout(q: Request, s: seq<Release>, i: nat)
    requires i < |s|
    ensures multiset(Ranks(q, s)) == multiset(Ranks(q, Without(s, i))) + multiset{RankOf(q, s[i])}
  {
    assert Ranks(q, Without(s, i)) == Without(Ranks(q, s), i);
    WithoutCounts(Ranks(q, s), i);
  }

  lemma SameLast(a: seq<Rank>, b: seq<Rank>)
    requires multiset(a) == multiset(b) && Sorted(a, RankLess) && Sorted(b, RankLess) && |a| == |b| > 0
    ensures a[|a| - 1] == b[|a| - 1]
  {
    hide RankLess;
    var n := |a| - 1;
    assert a[n] in multiset(b) && b[n] in multiset(a);
    var i :| 0 <= i < |b| && b[i] == a[n];
    var j :| 0 <= j < |a| && a[j] == b[n];
    RankTotal(a[n], b[n]);
    assert i < n ==> !RankLess(b[n], b[i]);
    assert j < n ==> !RankLess(a[n], a[j]);
  }

  lemma HeadCounts(a: seq<Rank>)
    requires a != []
    ensures multiset(a[..|a| - 1]) == multiset(a) - multiset{a[|a| - 1]}
    ensures Sorted(a, RankLess) ==> Sorted(a[..|a| - 1], RankLess)
  {
    hide RankLess;
    assert a == a[..|a| - 1] + [a[|a| - 1]];
  }

  // Under a strict total order, a sorted sequence is determined by its elements.
  lemma {:induction false} SortedUnique(a: seq<Rank>, b: seq<Rank>)
    requires multiset(a) == multiset(b) && Sorted(a, RankLess) && Sorted(b, RankLess)
    ensures a == b
    decreases |a|
  {
    hide RankLess, Sorted;
    assert |a| == |multiset(a)| == |b|;
    if a != [] {
      var n := |a| - 1;
      SameLast(a, b);
      HeadCounts(a);
      HeadCounts(b);
      SortedUnique(a[..n], b[..n]);
      assert a == a[..n] + [a[n]] && b == b[..n] + [b[n]];
    }
  }

  lemma RanksSorted(q: Request, s: seq<Release>)
    requires Sorted(s, Less(q))
    ensures Sorted(Ranks(q, s), RankLess)
  {
    hide RankLess;
    forall i, j | 0 <= i < j < |s| ensures !RankLess(Ranks(q, s)[j], Ranks(q, s)[i]) { assert !Less(q)(s[j], s[i]); }
  }

  // Whatever order the providers answer in, the result has the same sequence of ranks.
  lemma ArrivalOrderDoesNotMatter(q: Request, a: seq<Release>, b: seq<Release>)
    requires multiset(a) == multiset(b)
    ensures Ranks(q, Ranked(q, a)) == Ranks(q, Ranked(q, b))
  {
    hide Ranked, RankLess, Sorted, DistinctBy, RankOf, IdentityOf, Usable;
    var x, y := Ranked(q, a), Ranked(q, b);
    RankedLaw(q, a);
    RankedLaw(q, b);
    SameMembers(a, b);
    forall r, t | r in x && t in y && IdentityOf(q, r) == IdentityOf(q, t) ensures RankOf(q, r) == RankOf(q, t) {
      assert Best(q, a, r) && Best(q, b, t);
      RankTotal(RankOf(q, r), RankOf(q, t));
    }
    SameIdentities(q, a, b, x, y);
    SameRanks(q, x, y);
    RanksSorted(q, x);
    RanksSorted(q, y);
    SortedUnique(Ranks(q, x), Ranks(q, y));
  }

  lemma SameMembers<T>(a: seq<T>, b: seq<T>)
    requires multiset(a) == multiset(b)
    ensures forall r :: r in a <==> r in b
  {
    forall r ensures r in a <==> r in b { assert r in a <==> r in multiset(a); }
  }

  lemma SameIdentities(q: Request, a: seq<Release>, b: seq<Release>, x: seq<Release>, y: seq<Release>)
    requires forall r :: r in a <==> r in b
    requires forall r | r in x :: Best(q, a, r)
    requires forall r | r in y :: Best(q, b, r)
    requires forall r | r in a && Usable(q, r) :: IdentityOf(q, r) in Identities(q, x)
    requires forall r | r in b && Usable(q, r) :: IdentityOf(q, r) in Identities(q, y)
    ensures Identities(q, x) == Identities(q, y)
  {
    hide Usable, IdentityOf, RankLess;
  }

  // If no two usable releases have the same rank, the result itself is the same.
  lemma DistinctRanksSameResult(q: Request, a: seq<Release>, b: seq<Release>)
    requires multiset(a) == multiset(b)
    requires forall r, t | r in a && t in a && Usable(q, r) && Usable(q, t) && RankOf(q, r) == RankOf(q, t) :: r == t
    ensures Ranked(q, a) == Ranked(q, b)
  {
    hide Ranked, RankLess, Sorted, DistinctBy, RankOf, Usable;
    var x, y := Ranked(q, a), Ranked(q, b);
    ArrivalOrderDoesNotMatter(q, a, b);
    RankedLaw(q, a);
    RankedLaw(q, b);
    SameMembers(a, b);
    assert |Ranks(q, x)| == |x| && |Ranks(q, y)| == |y|;
    forall i | 0 <= i < |x| ensures x[i] == y[i] {
      assert Best(q, a, x[i]) && Best(q, b, y[i]);
      assert Ranks(q, x)[i] == RankOf(q, x[i]) && Ranks(q, y)[i] == RankOf(q, y[i]);
    }
  }

  /******* The order, on the releases themselves *******/

  // Unknown seeders count below zero.
  function Seeds(r: Release): int { if r.seeders.Some? then r.seeders.value else -1 }

  predicate Hashed(r: Release) { r.torrent && r.infoHash != "" }

  predicate SameMatch(q: Request, x: Release, y: Release)
  {
    && q.intentMatch(x.title) == q.intentMatch(y.title) && q.titlePrefix(x.title) == q.titlePrefix(y.title)
    && q.yearMatch(x.title) == q.yearMatch(y.title)
  }

  // x may stand before y: a match of the intent before none, then of the title prefix, then of the year, then a known
  // hash; then more seeders, then the smaller file, then provider and source by name.
  predicate Precedes(q: Request, x: Release, y: Release)
  {
    && (q.intentMatch(y.title) ==> q.intentMatch(x.title))
    && (q.intentMatch(y.title) == q.intentMatch(x.title) && q.titlePrefix(y.title) ==> q.titlePrefix(x.title))
    && (q.intentMatch(y.title) == q.intentMatch(x.title) && q.titlePrefix(y.title) == q.titlePrefix(x.title) && q.yearMatch(y.title) ==>
          q.yearMatch(x.title))
    && (SameMatch(q, x, y) && Hashed(y) ==> Hashed(x))
    && (SameMatch(q, x, y) && Hashed(x) == Hashed(y) ==> Seeds(x) >= Seeds(y))
    && (SameMatch(q, x, y) && Hashed(x) == Hashed(y) && Seeds(x) == Seeds(y) ==> x.size <= y.size)
    && (SameMatch(q, x, y) && Hashed(x) == Hashed(y) && Seeds(x) == Seeds(y) && x.size == y.size ==>
          !StringLess(y.provider, x.provider) && (x.provider == y.provider ==> !StringLess(y.sourceID, x.sourceID)))
  }

  lemma NotLessPrecedes(q: Request, x: Release, y: Release)
    requires !Less(q)(y, x)
    ensures Precedes(q, x, y)
  {
    StringAsymmetric(x.provider, y.provider);
  }

  // The result is in that order, and the release that stands for an identity precedes all others of it.
  lemma RankingOrder(q: Request, releases: seq<Release>)
    ensures forall i, j | 0 <= i < j < |Ranked(q, releases)| :: Precedes(q, Ranked(q, releases)[i], Ranked(q, releases)[j])
    ensures forall r, x | r in Ranked(q, releases) && x in releases && Usable(q, x) && IdentityOf(q, x) == IdentityOf(q, r) ::
              Precedes(q, r, x)
  {
    hide Ranked, RankLess, Precedes, Usable, IdentityOf, DistinctBy;
    RankedLaw(q, releases);
    var s := Ranked(q, releases);
    forall i, j | 0 <= i < j < |s| ensures Precedes(q, s[i], s[j]) { NotLessPrecedes(q, s[i], s[j]); }
    forall r, x | r in s && x in releases && Usable(q, x) && IdentityOf(q, x) == IdentityOf(q, r) ensures Precedes(q, r, x) {
      assert Best(q, releases, r);
      NotLessPrecedes(q, r, x);
    }
  }

  // Which releases are ranked: those with every name and a size, a source of the right kind, and an eligible title.
  lemma RankedExactly(q: Request, releases: seq<Release>, x: Release)
    requires x in releases && x.provider != "" && x.sourceID != "" && x.title != "" && x.indexer != "" && x.size > 0 && q.eligible(x.title)
    requires if x.torrent then x.infoHash != "" || x.magnetURL != "" || x.downloadURL != "" else x.downloadURL != ""
    ensures exists r :: r in Ranked(q, releases) && SameRelease(q, r, x)
  {
    hide Ranked, RankLess, DistinctBy;
    RankedLaw(q, releases);
    var r :| r in Ranked(q, releases) && IdentityOf(q, r) == IdentityOf(q, x);
    assert SameRelease(q, r, x);
  }

  // Nothing else is.
  lemma RankedOnly(q: Request, releases: seq<Release>, r: Release)
    requires r in Ranked(q, releases)
    ensures r in releases && r.provider != "" && r.sourceID != "" && r.title != "" && r.indexer != "" && r.size > 0 && q.eligible(r.title)
    ensures if r.torrent then r.infoHash != "" || r.magnetURL != "" || r.downloadURL != "" else r.downloadURL != ""
  {
    hide Ranked, RankLess, DistinctBy, IdentityOf;
    RankedLaw(q, releases);
    assert Best(q, releases, r);
  }

  // One release under two names: the same hash, or without hashes the same source.
  predicate SameRelease(q: Request, a: Release, b: Release)
  {
    && a.torrent == b.torrent && (a.infoHash == "" <==> b.infoHash == "")
    && (if a.infoHash != "" then q.lower(a.infoHash) == q.lower(b.infoHash) else a.provider == b.provider && a.sourceID == b.sourceID)
  }

  // No two ranked releases are the same.
  lemma RankedOnce(q: Request, releases: seq<Release>, i: nat, j: nat)
    requires i < j < |Ranked(q, releases)|
    ensures !SameRelease(q, Ranked(q, releases)[i], Ranked(q, releases)[j])
  {
    hide Ranked, RankLess;
    RankedLaw(q, releases);
    assert Identify(q)(Ranked(q, releases)[i]) != Identify(q)(Ranked(q, releases)[j]);
  }
}
