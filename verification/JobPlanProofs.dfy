/** What the candidate plan of a queued job guarantees, for all provider replies. */
module JobPlanProofs {
  import opened Options
  import opened Subsequences
  import opened JobModel
  import opened JobPlanning

  // The plan resolve builds from ranked releases, the cache reply and the direct candidates.
  function PlanParts(rules: Rules, releases: seq<Release>, cached: seq<Release>, direct: seq<RangeCandidate>): Parts
  {
    var eligible := Probe(releases);
    PartsOf(rules, eligible, KnownCached(eligible, cached), direct)
  }

  function AllCached(rules: Rules, releases: seq<Release>, cached: seq<Release>): seq<Release>
  {
    Torrents(rules, Filter(Probe(releases), Within(KnownCached(Probe(releases), cached))))
  }

  function AllUncached(rules: Rules, releases: seq<Release>, cached: seq<Release>): seq<Release>
  {
    Torrents(rules, Filter(Probe(releases), Outside(KnownCached(Probe(releases), cached))))
  }

  // The probed releases are the first distinct usable ones, in rank order.
  lemma {:induction false} ProbeInOrder(releases: seq<Release>)
    ensures Subsequence(Probe(releases), releases) && |Probe(releases)| <= 100
  {
    hide Subsequence, Hashes;
    if releases == [] {
      SubsequenceNone(releases);
    } else {
      ProbeInOrder(releases[..|releases| - 1]);
      SubsequenceNext(Probe(releases[..|releases| - 1]), releases);
    }
  }

  lemma {:induction false} ProbeDistinct(releases: seq<Release>)
    ensures DistinctBy(Probe(releases), HashOf)
    ensures forall r | r in Probe(releases) :: r.torrent && r.infoHash != ""
  {
    if releases != [] { ProbeDistinct(releases[..|releases| - 1]); }
  }

  lemma PartInOrder(rules: Rules, eligible: seq<Release>, side: Release -> bool, n: nat)
    requires n <= |Torrents(rules, Filter(eligible, side))|
    ensures Subsequence(Torrents(rules, Filter(eligible, side))[..n], eligible)
    ensures forall r | r in Torrents(rules, Filter(eligible, side))[..n] :: side(r) && ValidSelection(rules, TorrentOf(r))
  {
    hide Subsequence, ValidSelection;
    var mid := Filter(eligible, side);
    FilterSubsequence(mid, Selectable(rules, TorrentOf));
    FilterSubsequence(eligible, side);
    SubsequenceTransitive(Torrents(rules, mid), mid, eligible);
    PrefixSubsequence(Torrents(rules, mid), eligible, n);
  }

  // Each group of the plan keeps the rank order it came in, and holds only what its name says.
  lemma PlanOrder(rules: Rules, releases: seq<Release>, cached: seq<Release>, direct: seq<RangeCandidate>)
    ensures var p, known := PlanParts(rules, releases, cached, direct), Hashes(cached);
            && Subsequence(p.cached, releases) && Subsequence(p.direct, direct) && Subsequence(p.uncached, releases)
            && (forall r | r in p.cached :: r.infoHash in known)
            && (forall r | r in p.uncached :: r.infoHash !in known)
  {
    hide Subsequence, ValidSelection, Filter;
    var p, eligible := PlanParts(rules, releases, cached, direct), Probe(releases);
    var known := KnownCached(eligible, cached);
    ProbeInOrder(releases);
    PartInOrder(rules, eligible, Within(known), |p.cached|);
    PartInOrder(rules, eligible, Outside(known), |p.uncached|);
    SubsequenceMembers(p.uncached, eligible);
    SubsequenceTransitive(p.cached, eligible, releases);
    SubsequenceTransitive(p.uncached, eligible, releases);
    FilterSubsequence(direct, Selectable(rules, RangeOf));
    PrefixSubsequence(Ranges(rules, direct), direct, |p.direct|);
  }

  /******* Acceptance *******/

  function RangeKey(c: RangeCandidate): SelectionKey { KeyOf(RangeOf(c)) }

  // No torrent is planned twice.
  lemma TorrentsDistinct(rules: Rules, releases: seq<Release>, cached: seq<Release>, direct: seq<RangeCandidate>)
    ensures var p := PlanParts(rules, releases, cached, direct);
            && DistinctBy(p.cached, HashOf) && DistinctBy(p.uncached, HashOf)
            && (forall a, b | a in p.cached && b in p.uncached :: a.infoHash != b.infoHash)
            && (forall a | a in p.cached :: ValidSelection(rules, TorrentOf(a)))
            && (forall a | a in p.uncached :: ValidSelection(rules, TorrentOf(a)))
  {
    hide Subsequence, ValidSelection, Filter, DistinctBy;
    var p, eligible := PlanParts(rules, releases, cached, direct), Probe(releases);
    var known := KnownCached(eligible, cached);
    ProbeDistinct(releases);
    PartInOrder(rules, eligible, Within(known), |p.cached|);
    PartInOrder(rules, eligible, Outside(known), |p.uncached|);
    SubsequenceDistinct(p.cached, eligible, HashOf);
    SubsequenceDistinct(p.uncached, eligible, HashOf);
  }

  lemma DirectValid(rules: Rules, direct: seq<RangeCandidate>, n: nat)
    requires n <= |Ranges(rules, direct)|
    ensures forall a | a in Ranges(rules, direct)[..n] :: ValidSelection(rules, RangeOf(a))
  {
    hide ValidSelection;
    forall a | a in Ranges(rules, direct)[..n] ensures ValidSelection(rules, RangeOf(a)) {
      assert a in Ranges(rules, direct) && Selectable(rules, RangeOf)(a);
    }
  }

  lemma SelectionsValid(rules: Rules, p: Parts)
    requires forall a | a in p.cached :: ValidSelection(rules, TorrentOf(a))
    requires forall a | a in p.direct :: ValidSelection(rules, RangeOf(a))
    requires forall a | a in p.uncached :: ValidSelection(rules, TorrentOf(a))
    ensures forall i | 0 <= i < |Selections(p)| :: ValidSelection(rules, Selections(p)[i])
  {
    hide ValidSelection;
  }

  // Which group a position of the plan belongs to.
  lemma SelectionAt(p: Parts, i: nat)
    requires i < |Selections(p)|
    ensures |Selections(p)| == |p.cached| + |p.direct| + |p.uncached|
    ensures var c, d := |p.cached|, |p.direct|;
            Selections(p)[i] == if i < c then TorrentOf(p.cached[i])
                                else if i < c + d then RangeOf(p.direct[i - c]) else TorrentOf(p.uncached[i - c - d])
  {
  }

  lemma KeysDistinct(p: Parts, i: nat, j: nat)
    requires DistinctBy(p.cached, HashOf) && DistinctBy(p.uncached, HashOf) && DistinctBy(p.direct, RangeKey)
    requires forall a, b | a in p.cached && b in p.uncached :: a.infoHash != b.infoHash
    requires i < j < |Selections(p)|
    ensures KeyOf(Selections(p)[i]) != KeyOf(Selections(p)[j])
  {
    hide Selections;
    SelectionAt(p, i);
    SelectionAt(p, j);
    var c, d := |p.cached|, |p.direct|;
    if j < c { assert HashOf(p.cached[i]) != HashOf(p.cached[j]); }
    else if c <= i && j < c + d { assert RangeKey(p.direct[i - c]) != RangeKey(p.direct[j - c]); }
    else if c + d <= i { assert HashOf(p.uncached[i - c - d]) != HashOf(p.uncached[j - c - d]); }
    else if i < c && c + d <= j { assert p.cached[i] in p.cached && p.uncached[j - c - d] in p.uncached; }
  }

  lemma DirectDistinct(p: Parts)
    requires forall i, j | 0 <= i < j < |Selections(p)| :: KeyOf(Selections(p)[i]) != KeyOf(Selections(p)[j])
    ensures DistinctBy(p.direct, RangeKey)
  {
    hide Selections;
    forall i, j | 0 <= i < j < |p.direct| ensures RangeKey(p.direct[i]) != RangeKey(p.direct[j]) {
      SelectionsLength(p);
      SelectionAt(p, |p.cached| + i);
      SelectionAt(p, |p.cached| + j);
    }
  }

  lemma SelectionsLength(p: Parts)
    ensures |Selections(p)| == |p.cached| + |p.direct| + |p.uncached|
  {
  }

  lemma PlanOfSelections(rules: Rules, selections: seq<Selection>)
    requires |selections| <= MaximumJobCandidates
    requires forall i | 0 <= i < |selections| :: ValidSelection(rules, selections[i])
    ensures ValidPlan(rules, AsPlan(selections)) <==>
            selections != [] && forall i, j | 0 <= i < j < |selections| :: KeyOf(selections[i]) != KeyOf(selections[j])
  {
    hide ValidSelection, KeyOf;
    var plan := AsPlan(selections);
    assert forall i | 0 <= i < |plan| :: plan[i].selection == selections[i];
  }

  // The repository accepts the plan exactly when it is nonempty and no direct candidate in it occurs twice.
  lemma PlanAccepted(rules: Rules, releases: seq<Release>, cached: seq<Release>, direct: seq<RangeCandidate>)
    ensures var p := PlanParts(rules, releases, cached, direct);
            ValidPlan(rules, AsPlan(Selections(p))) <==> Selections(p) != [] && DistinctBy(p.direct, RangeKey)
  {
    hide ValidSelection, DistinctBy, ValidPlan, AsPlan, Selections, KeyOf;
    var p := PlanParts(rules, releases, cached, direct);
    TorrentsDistinct(rules, releases, cached, direct);
    DirectValid(rules, direct, |p.direct|);
    SelectionsValid(rules, p);
    SelectionsLength(p);
    PlanOfSelections(rules, Selections(p));
    if DistinctBy(p.direct, RangeKey) {
      forall i, j | 0 <= i < j < |Selections(p)| ensures KeyOf(Selections(p)[i]) != KeyOf(Selections(p)[j]) {
        KeysDistinct(p, i, j);
      }
    } else if forall i, j | 0 <= i < j < |Selections(p)| :: KeyOf(Selections(p)[i]) != KeyOf(Selections(p)[j]) {
      DirectDistinct(p);
    }
  }

  // A resolver that repeats no identity always gets an acceptable plan.
  lemma DistinctDirectAccepted(rules: Rules, releases: seq<Release>, cached: seq<Release>, direct: seq<RangeCandidate>)
    requires DistinctBy(direct, RangeKey)
    ensures var p := PlanParts(rules, releases, cached, direct);
            Selections(p) != [] ==> ValidPlan(rules, AsPlan(Selections(p)))
  {
    hide ValidPlan, Selections, AsPlan, DistinctBy, PlanParts, Subsequence;
    var p := PlanParts(rules, releases, cached, direct);
    PlanOrder(rules, releases, cached, direct);
    SubsequenceDistinct(p.direct, direct, RangeKey);
    PlanAccepted(rules, releases, cached, direct);
  }

  // A resolver that lists one valid candidate twice gets a plan the repository refuses.
  lemma RepeatedDirectRefused(rules: Rules, c: RangeCandidate)
    requires ValidSelection(rules, RangeOf(c))
    ensures !ValidPlan(rules, AsPlan(Selections(PlanParts(rules, [], [], [c, c]))))
  {
    hide ValidSelection, ValidPlan, AsPlan, Selections, Filter;
    FilterAll([c, c], Selectable(rules, RangeOf));
    var p := PlanParts(rules, [], [], [c, c]);
    FilterAll([], Selectable(rules, TorrentOf));
    FilterAll([], Within(KnownCached([], [])));
    assert p.direct == [c, c];
    assert RangeKey(p.direct[0]) == RangeKey(p.direct[1]);
    PlanAccepted(rules, [], [], [c, c]);
  }

  /******* Priorities *******/

  // A valid direct candidate always gets a place.
  lemma DirectHasPlace(rules: Rules, releases: seq<Release>, cached: seq<Release>, direct: seq<RangeCandidate>)
    ensures PlanParts(rules, releases, cached, direct).direct == [] <==> forall c | c in direct :: !ValidSelection(rules, RangeOf(c))
  {
    hide ValidSelection;
    var ranges := Ranges(rules, direct);
    if ranges == [] {
      forall c | c in direct ensures !ValidSelection(rules, RangeOf(c)) { assert c !in ranges; }
    } else {
      assert ranges[0] in direct && ValidSelection(rules, RangeOf(ranges[0]));
    }
  }

  // An uncached release is planned only when every valid direct candidate is, and every valid cached
  // release too, except in one case: direct candidates exist, none is valid, and five or more cached releases wait.
  lemma UncachedComesLast(rules: Rules, releases: seq<Release>, cached: seq<Release>, direct: seq<RangeCandidate>)
    ensures var p := PlanParts(rules, releases, cached, direct);
            && (p.uncached != [] ==> p.direct == Ranges(rules, direct))
            && (p.uncached != [] && p.cached != AllCached(rules, releases, cached) <==>
                  && direct != [] && Ranges(rules, direct) == []
                  && |AllCached(rules, releases, cached)| >= 5 && AllUncached(rules, releases, cached) != [])
  {
  }

  // With direct candidates that are all valid, as a validating resolver gives them, every valid cached release that
  // has a place before them is planned first, and an uncached one only when nothing else is left over.
  lemma ValidDirectKeepsOrder(rules: Rules, releases: seq<Release>, cached: seq<Release>, direct: seq<RangeCandidate>)
    requires forall c | c in direct :: ValidSelection(rules, RangeOf(c))
    ensures var p := PlanParts(rules, releases, cached, direct);
            p.uncached != [] ==> p.cached == AllCached(rules, releases, cached) && p.direct == Ranges(rules, direct)
  {
    hide ValidSelection, PlanParts, AllCached, AllUncached;
    UncachedComesLast(rules, releases, cached, direct);
    if direct != [] { assert direct[0] in direct && Selectable(rules, RangeOf)(direct[0]) && direct[0] in Ranges(rules, direct); }
  }

  lemma {:induction false} ProbeAll(releases: seq<Release>)
    requires |releases| <= MaximumCacheProbeCandidates && DistinctBy(releases, HashOf)
    requires forall r | r in releases :: r.torrent && r.infoHash != ""
    ensures Probe(releases) == releases
  {
    if releases != [] {
      ProbeAll(releases[..|releases| - 1]);
      assert forall i | 0 <= i < |releases| - 1 :: HashOf(releases[i]) != HashOf(releases[|releases| - 1]);
    }
  }

  lemma {:induction false} FilterAll<T>(s: seq<T>, keep: T -> bool)
    ensures (forall x | x in s :: keep(x)) ==> Filter(s, keep) == s
    ensures (forall x | x in s :: !keep(x)) ==> Filter(s, keep) == []
  {
    if s != [] { FilterAll(s[..|s| - 1], keep); }
  }

  predicate Usable(rules: Rules, r: Release) { r.torrent && r.infoHash != "" && ValidSelection(rules, TorrentOf(r)) }

  // The exceptional case: five cached releases, an uncached one, and only an invalid direct candidate.
  lemma UncachedBeforeCached(rules: Rules, five: seq<Release>, extra: Release, bad: RangeCandidate)
    requires |five| == 5 && DistinctBy(five + [extra], HashOf) && !ValidSelection(rules, RangeOf(bad))
    requires Usable(rules, extra) && forall r | r in five :: Usable(rules, r)
    ensures var p := PlanParts(rules, five + [extra], five, [bad]);
            p.uncached == [extra] && p.cached == five[..4] && five == AllCached(rules, five + [extra], five)
  {
    hide ValidSelection, Filter, KnownCached, Probe, DistinctBy;
    var releases := five + [extra];
    ProbeAll(releases);
    var known := KnownCached(releases, five);
    SplitKnown(five, extra);
    SplitFilter(five, extra, Within(known));
    SplitFilter(five, extra, Outside(known));
    assert forall r | r in five :: Selectable(rules, TorrentOf)(r);
    FilterAll(five, Selectable(rules, TorrentOf));
    FilterAll([extra], Selectable(rules, TorrentOf));
    FilterAll([bad], Selectable(rules, RangeOf));
    assert AllCached(rules, releases, five) == five;
  }

  lemma SplitFilter<T>(most: seq<T>, last: T, keep: T -> bool)
    ensures (forall x | x in most :: keep(x)) && !keep(last) ==> Filter(most + [last], keep) == most
    ensures (forall x | x in most :: !keep(x)) && keep(last) ==> Filter(most + [last], keep) == [last]
  {
    FilterNext(most + [last], |most|, keep);
    assert (most + [last])[..|most|] == most && (most + [last])[..|most| + 1] == most + [last];
    FilterAll(most, keep);
  }

  lemma SplitKnown(five: seq<Release>, extra: Release)
    requires DistinctBy(five + [extra], HashOf)
    ensures var known := KnownCached(five + [extra], five);
            (forall r | r in five :: Within(known)(r) && !Outside(known)(r)) && Outside(known)(extra) && !Within(known)(extra)
  {
    var all := five + [extra];
    forall i | 0 <= i < |five| ensures five[i].infoHash != extra.infoHash {
      assert HashOf(all[i]) != HashOf(all[|five|]);
    }
    assert forall r | r in five :: r in all;
  }

  function Sample(hash: string): Release { Release(true, "indexer", "title", 1, "index", hash, None) }

  // It does occur, whatever the text checks, as long as they accept the releases.
  lemma UncachedBeforeCachedSample(rules: Rules)
    requires forall h | h in {"1", "2", "3", "4", "5", "6"} :: ValidSelection(rules, TorrentOf(Sample(h)))
    ensures exists releases, cached, direct ::
              var p := PlanParts(rules, releases, cached, direct);
              p.uncached != [] && p.cached != AllCached(rules, releases, cached)
  {
    hide ValidSelection, PlanParts, AllCached;
    var five, bad := [Sample("1"), Sample("2"), Sample("3"), Sample("4"), Sample("5")], RangeCandidate("archive", "id", "name", 0, "index", "etag");
    SizeMatters(rules, RangeOf(bad));
    UncachedBeforeCached(rules, five, Sample("6"), bad);
    assert PlanParts(rules, five + [Sample("6")], five, [bad]).cached != five;
  }

  lemma SizeMatters(rules: Rules, s: Selection)
    requires s.size <= 0
    ensures !ValidSelection(rules, s)
  {
  }

  // The plan leaves room unused only when nothing valid is left over.
  lemma PlanIsFull(rules: Rules, releases: seq<Release>, cached: seq<Release>, direct: seq<RangeCandidate>)
    ensures var p := PlanParts(rules, releases, cached, direct);
            |Selections(p)| < 5 ==>
              p.direct == Ranges(rules, direct) && p.uncached == AllUncached(rules, releases, cached) &&
              (p.cached == AllCached(rules, releases, cached) || (direct != [] && Ranges(rules, direct) == [] && |p.cached| == 4))
  {
  }
}
