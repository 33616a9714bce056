/**
 How the worker turns ranked releases, cache replies and direct candidates
 into the durable candidate plan of a queued job.
 */
module JobPlanning {
  import opened Options
  import opened Numbers
  import opened Subsequences
  import opened JobModel

  const MaximumCacheProbeCandidates := 100

  datatype Release = Release(
    torrent: bool, provider: string, title: string, size: int, indexer: string, infoHash: string, seeders: Option<int>)

  datatype RangeCandidate = RangeCandidate(
    provider: string, objectID: string, title: string, size: int, indexer: string, validator: string)

  datatype Failure = Unauthorized | Unavailable | Interrupted

  // A Go call that returns a value and an error; both may be set.
  datatype Answer<+T> = Answer(value: T, failure: Option<Failure>)

  function TorrentOf(r: Release): Selection { Torrent(r.provider, r.infoHash, r.title, r.size, r.indexer, r.seeders) }

  function RangeOf(c: RangeCandidate): Selection { Range(c.provider, c.objectID, c.title, c.size, c.indexer, c.validator) }

  function HashOf(r: Release): string { r.infoHash }

  function Hashes(releases: seq<Release>): set<string> { set r | r in releases :: r.infoHash }

  /******* What the plan is *******/

  // The first hundred torrent releases with a hash not seen before.
  function Probe(releases: seq<Release>): seq<Release>
  {
    if releases == [] then []
    else
      var probed, r := Probe(releases[..|releases| - 1]), releases[|releases| - 1];
      if |probed| < MaximumCacheProbeCandidates && r.torrent && r.infoHash != "" && r.infoHash !in Hashes(probed)
      then probed + [r] else probed
  }

  function KnownCached(eligible: seq<Release>, cached: seq<Release>): set<string>
  {
    Hashes(cached) * Hashes(eligible)
  }

  // The tests the loops filter by.
  function Selectable<T>(rules: Rules, selectionOf: T -> Selection): T -> bool { x => ValidSelection(rules, selectionOf(x)) }

  function Within(known: set<string>): Release -> bool { (r: Release) => r.infoHash in known }

  function Outside(known: set<string>): Release -> bool { (r: Release) => r.infoHash !in known }

  function Torrents(rules: Rules, releases: seq<Release>): seq<Release> { Filter(releases, Selectable(rules, TorrentOf)) }

  function Ranges(rules: Rules, direct: seq<RangeCandidate>): seq<RangeCandidate> { Filter(direct, Selectable(rules, RangeOf)) }

  function Map<A, B>(s: seq<A>, f: A -> B): seq<B> { seq(|s|, i requires 0 <= i < |s| => f(s[i])) }

  // Cached releases first, then direct candidates, then uncached releases, five in all;
  // one place is kept from the cached ones when there are direct candidates.
  datatype Parts = Parts(cached: seq<Release>, direct: seq<RangeCandidate>, uncached: seq<Release>)

  function CachedLimit(direct: seq<RangeCandidate>): nat { if |direct| > 0 then MaximumJobCandidates - 1 else MaximumJobCandidates }

  function PartsOf(rules: Rules, eligible: seq<Release>, known: set<string>, direct: seq<RangeCandidate>): Parts
  {
    var cached := Torrents(rules, Filter(eligible, Within(known)));
    var ranges := Ranges(rules, direct);
    var uncached := Torrents(rules, Filter(eligible, Outside(known)));
    var c := Min(|cached|, CachedLimit(direct));
    var d := Min(|ranges|, MaximumJobCandidates - c);
    var u := Min(|uncached|, MaximumJobCandidates - c - d);
    Parts(cached[..c], ranges[..d], uncached[..u])
  }

  function Selections(p: Parts): seq<Selection>
  {
    Map(p.cached, TorrentOf) + Map(p.direct, RangeOf) + Map(p.uncached, TorrentOf)
  }

  function AsPlan(selections: seq<Selection>): seq<Candidate>
  {
    seq(|selections|, i requires 0 <= i < |selections| => Candidate(selections[i], i, if i == 0 then Chosen else Pending))
  }

  /******* The loops of resolve and partitionCached *******/

  method Eligible(releases: seq<Release>) returns (eligible: seq<Release>)
    ensures eligible == Probe(releases)
  {
    eligible := [];
    var seen: set<string> := {};
    var i := 0;
    while i < |releases|
      invariant 0 <= i <= |releases|
      invariant eligible == Probe(releases[..i]) && seen == Hashes(eligible) && |eligible| < MaximumCacheProbeCandidates
    {
      var r := releases[i];
      assert releases[..i + 1][..i] == releases[..i];
      i := i + 1;
      if !r.torrent || r.infoHash == "" || r.infoHash in seen { continue; }
      seen := seen + {r.infoHash};
      eligible := eligible + [r];
      if |eligible| == MaximumCacheProbeCandidates {
        ProbeFull(releases, i);
        return;
      }
    }
    assert releases[..i] == releases;
  }

  lemma {:induction false} ProbeFull(releases: seq<Release>, i: nat)
    requires i <= |releases| && |Probe(releases[..i])| == MaximumCacheProbeCandidates
    ensures Probe(releases) == Probe(releases[..i])
    decreases |releases|
  {
    if i < |releases| {
      assert releases[..|releases| - 1][..i] == releases[..i];
      ProbeFull(releases[..|releases| - 1], i);
    } else {
      assert releases[..i] == releases;
    }
  }

  method PartitionCached(eligible: seq<Release>, cached: seq<Release>) returns (hits: seq<Release>, misses: seq<Release>)
    ensures hits == Filter(eligible, Within(KnownCached(eligible, cached)))
    ensures misses == Filter(eligible, Outside(KnownCached(eligible, cached)))
  {
    var known: set<string> := {};
    var wanted := Hashes(eligible);
    for i := 0 to |cached|
      invariant known == KnownCached(eligible, cached[..i])
    {
      assert Hashes(cached[..i + 1]) == Hashes(cached[..i]) + {cached[i].infoHash};
      if cached[i].infoHash in wanted { known := known + {cached[i].infoHash}; }
    }
    assert cached[..|cached|] == cached;
    hits, misses := [], [];
    ghost var hit := Within(KnownCached(eligible, cached));
    ghost var miss := Outside(KnownCached(eligible, cached));
    for i := 0 to |eligible|
      invariant hits == Filter(eligible[..i], hit)
    {
      FilterNext(eligible, i, hit);
      if eligible[i].infoHash in known { hits := hits + [eligible[i]]; }
    }
    for i := 0 to |eligible|
      invariant misses == Filter(eligible[..i], miss)
    {
      FilterNext(eligible, i, miss);
      if eligible[i].infoHash !in known { misses := misses + [eligible[i]]; }
    }
    assert eligible[..|eligible|] == eligible;
  }

  // appendJobCandidate
  function Append(rules: Rules, candidates: seq<Candidate>, s: Selection): seq<Candidate>
  {
    if !ValidSelection(rules, s) || |candidates| >= MaximumJobCandidates then candidates
    else candidates + [Candidate(s, |candidates|, if |candidates| == 0 then Chosen else Pending)]
  }

  // One of the three candidate loops, over releases or range candidates alike.
  method AppendAll<T>(rules: Rules, candidates: seq<Candidate>, items: seq<T>, selectionOf: T -> Selection, limit: nat)
    returns (r: seq<Candidate>)
    requires |candidates| <= limit <= MaximumJobCandidates
    ensures var valid := Filter(items, Selectable(rules, selectionOf));
            r == Extended(candidates, Map(valid[..Min(|valid|, limit - |candidates|)], selectionOf))
  {
    hide Filter, Map, Extended, ValidSelection;
    ghost var keep := Selectable(rules, selectionOf);
    r := candidates;
    var i := 0;
    NothingYet(candidates, items, selectionOf, keep);
    while i < |items| && |r| < limit
      invariant 0 <= i <= |items|
      invariant |candidates| + |Filter(items[..i], keep)| == |r| <= limit
      invariant r == Extended(candidates, Map(Filter(items[..i], keep), selectionOf))
    {
      FilterNext(items, i, keep);
      if ValidSelection(rules, selectionOf(items[i])) {
        ExtendedOne(candidates, Filter(items[..i], keep), items[i], selectionOf);
      } else {
        assert Filter(items[..i], keep) + [] == Filter(items[..i], keep);
      }
      r := Append(rules, r, selectionOf(items[i]));
      i := i + 1;
    }
    FilterPrefix(items, i, keep);
    assert i == |items| ==> items[..i] == items;
  }

  lemma NothingYet<T>(candidates: seq<Candidate>, items: seq<T>, selectionOf: T -> Selection, keep: T -> bool)
    ensures Filter(items[..0], keep) == [] && Extended(candidates, Map(Filter(items[..0], keep), selectionOf)) == candidates
  {
  }

  lemma ExtendedOne<T>(candidates: seq<Candidate>, sofar: seq<T>, x: T, selectionOf: T -> Selection)
    ensures var n := |candidates| + |sofar|;
            Extended(candidates, Map(sofar + [x], selectionOf)) ==
            Extended(candidates, Map(sofar, selectionOf)) + [Candidate(selectionOf(x), n, if n == 0 then Chosen else Pending)]
  {
    assert Map(sofar + [x], selectionOf) == Map(sofar, selectionOf) + [selectionOf(x)];
  }

  // The plan with more selections at its end.
  function Extended(candidates: seq<Candidate>, more: seq<Selection>): seq<Candidate>
  {
    candidates + seq(|more|, i requires 0 <= i < |more| =>
      Candidate(more[i], |candidates| + i, if |candidates| + i == 0 then Chosen else Pending))
  }

  lemma {:induction false} FilterPrefix<T>(s: seq<T>, i: nat, keep: T -> bool)
    requires i <= |s|
    ensures |Filter(s[..i], keep)| <= |Filter(s, keep)| && Filter(s, keep)[..|Filter(s[..i], keep)|] == Filter(s[..i], keep)
    decreases |s|
  {
    if i < |s| {
      assert s[..|s| - 1][..i] == s[..i];
      FilterPrefix(s[..|s| - 1], i, keep);
    } else {
      assert s[..i] == s;
    }
  }

  lemma ExtendedTwice(a: seq<Selection>, b: seq<Selection>)
    ensures Extended(AsPlan(a), b) == AsPlan(a + b)
  {
  }

  method BuildPlan(rules: Rules, eligible: seq<Release>, cached: seq<Release>, direct: seq<RangeCandidate>)
    returns (candidates: seq<Candidate>)
    ensures candidates == AsPlan(Selections(PartsOf(rules, eligible, KnownCached(eligible, cached), direct)))
  {
    hide Filter, Map, AsPlan, Extended, KnownCached;
    var hits, misses := PartitionCached(eligible, cached);
    ghost var p := PartsOf(rules, eligible, KnownCached(eligible, cached), direct);
    var limit := if |direct| > 0 then MaximumJobCandidates - 1 else MaximumJobCandidates;
    NoCandidates();
    candidates := AppendAll(rules, [], hits, TorrentOf, limit);
    ExtendedTwice([], Map(p.cached, TorrentOf));
    assert [] + Map(p.cached, TorrentOf) == Map(p.cached, TorrentOf);
    PlanLength(p.cached, TorrentOf);
    candidates := AppendAll(rules, candidates, direct, RangeOf, MaximumJobCandidates);
    ExtendedTwice(Map(p.cached, TorrentOf), Map(p.direct, RangeOf));
    PlanLength(p.direct, RangeOf);
    assert |candidates| == |p.cached| + |p.direct| by { AsPlanLength(Map(p.cached, TorrentOf) + Map(p.direct, RangeOf)); }
    candidates := AppendAll(rules, candidates, misses, TorrentOf, MaximumJobCandidates);
    ExtendedTwice(Map(p.cached, TorrentOf) + Map(p.direct, RangeOf), Map(p.uncached, TorrentOf));
  }

  lemma NoCandidates()
    ensures AsPlan([]) == []
  {
  }

  lemma AsPlanLength(s: seq<Selection>)
    ensures |AsPlan(s)| == |s|
  {
  }

  lemma PlanLength<T>(s: seq<T>, f: T -> Selection)
    ensures |Map(s, f)| == |s| && |AsPlan(Map(s, f))| == |s|
  {
  }
}
