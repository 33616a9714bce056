/** Choosing the next episode from paginated season and episode listings. */
module PlexMetadata {
  import opened Options
  import opened Numbers
  import opened Sorting
  import opened WatchModel

  const MaximumSeasons := 100
  const MaximumEpisodes := 1000
  const MaximumPageSize := 100

  datatype Entry = Entry(kind: string, index: int, parentIndex: int, ratingKey: string)

  datatype Page = Page(entries: seq<Entry>, offset: int, total: int, paginated: bool)

  // One request for entries from a start, at most so many; None when it fails.
  type Source = (int, int) -> Option<Page>

  /******* Pagination *******/

  // A paginated page that continues what has been collected and stays within its own total.
  predicate Continues(page: Page, start: int, maximum: int)
  {
    page.offset == start && page.total <= maximum && page.entries != [] && page.offset + |page.entries| <= page.total
  }

  function RequestSize(remaining: int): int { Min(MaximumPageSize, remaining) }

  function Collect(source: Source, maximum: int, sofar: seq<Entry>): Option<seq<Entry>>
    decreases maximum - |sofar|
  {
    if maximum - |sofar| <= 0 then None
    else match source(|sofar|, RequestSize(maximum - |sofar|))
      case None => None
      case Some(page) =>
        if !page.paginated then (if sofar != [] || |page.entries| > maximum then None else Some(page.entries))
        else if !Continues(page, |sofar|, maximum) then None
        else if page.offset + |page.entries| == page.total then Some(sofar + page.entries)
        else Collect(source, maximum, sofar + page.entries)
  }

  // The page loop ends, and never asks for more than the limit allows.
  method Children(source: Source, maximum: int) returns (r: Option<seq<Entry>>)
    ensures r == Collect(source, maximum, [])
    ensures r.Some? ==> |r.value| <= maximum
  {
    var result: seq<Entry> := [];
    var start := 0;
    while true
      invariant start == |result| && (result != [] ==> start < maximum)
      invariant Collect(source, maximum, []) == Collect(source, maximum, result)
      decreases maximum - |result|
    {
      var remaining := maximum - |result|;
      if remaining <= 0 { return None; }
      var reply := source(start, RequestSize(remaining));
      if reply.None? { return None; }
      var page := reply.value;
      if !page.paginated {
        if start != 0 || |page.entries| > maximum { return None; }
        return Some(page.entries);
      }
      if !Continues(page, start, maximum) { return None; }
      result := result + page.entries;
      if page.offset + |page.entries| == page.total { return Some(result); }
      start := page.offset + |page.entries|;
    }
  }

  // Pages that come are true to one list; requests may still fail.
  ghost predicate TrueTo(source: Source, list: seq<Entry>)
  {
    forall start, size | source(start, size).Some? ::
      var page := source(start, size).value;
      if page.paginated then
        && page.total == |list|
        && (0 <= page.offset && page.offset + |page.entries| <= |list| ==>
              page.entries == list[page.offset..page.offset + |page.entries|])
      else page.entries == list
  }

  // Every request within the list is answered with at least one entry.
  ghost predicate Answers(source: Source, list: seq<Entry>)
  {
    forall start, size | 0 <= start < |list| && size > 0 ::
      && source(start, size).Some?
      && var page := source(start, size).value;
         page.paginated && page.offset == start && page.entries != [] && start + |page.entries| <= |list|
  }

  // What is collected is the whole listing, never a part of it.
  lemma {:induction false} CollectsAll(source: Source, maximum: int, list: seq<Entry>, sofar: seq<Entry>)
    requires TrueTo(source, list) && |sofar| <= |list| && sofar == list[..|sofar|]
    ensures Collect(source, maximum, sofar).Some? ==> Collect(source, maximum, sofar).value == list
    ensures Answers(source, list) && |sofar| < |list| <= maximum ==> Collect(source, maximum, sofar) == Some(list)
    decreases maximum - |sofar|
  {
    if maximum > |sofar| && source(|sofar|, RequestSize(maximum - |sofar|)).Some? {
      var page := source(|sofar|, RequestSize(maximum - |sofar|)).value;
      if page.paginated && Continues(page, |sofar|, maximum) {
        assert sofar + page.entries == list[..|sofar| + |page.entries|];
        CollectsAll(source, maximum, list, sofar + page.entries);
      }
    }
  }

  /******* Seasons and episodes *******/

  datatype SeasonRef = SeasonRef(index: int, id: string)

  predicate IsID(id: string) { |id| == 24 && forall i | 0 <= i < |id| :: '0' <= id[i] <= '9' || 'a' <= id[i] <= 'f' }

  predicate ValidSeason(e: Entry) { e.kind == "season" && 1 <= e.index <= 99 && IsID(e.ratingKey) }

  predicate ValidEpisode(e: Entry, season: int) { e.kind == "episode" && e.parentIndex == season && 1 <= e.index <= 999 }

  ghost predicate HasSeason(entries: seq<Entry>, s: SeasonRef)
  {
    exists i :: 0 <= i < |entries| && ValidSeason(entries[i]) && entries[i].index == s.index && entries[i].ratingKey == s.id
  }

  ghost predicate HasEpisode(entries: seq<Entry>, season: int, n: int)
  {
    exists i :: 0 <= i < |entries| && ValidEpisode(entries[i], season) && entries[i].index == n
  }

  // One season number under two identities.
  ghost predicate Conflicting(entries: seq<Entry>)
  {
    exists index, a, b :: a != b && HasSeason(entries, SeasonRef(index, a)) && HasSeason(entries, SeasonRef(index, b))
  }

  predicate SeasonLess(a: SeasonRef, b: SeasonRef) { a.index < b.index }

  predicate IntLess(a: int, b: int) { a < b }

  lemma HasSeasonNext(entries: seq<Entry>, i: nat, s: SeasonRef)
    requires i < |entries|
    ensures HasSeason(entries[..i + 1], s) <==>
            HasSeason(entries[..i], s) || (ValidSeason(entries[i]) && s == SeasonRef(entries[i].index, entries[i].ratingKey))
  {
    if HasSeason(entries[..i], s) {
      var k :| 0 <= k < i && ValidSeason(entries[k]) && entries[k].index == s.index && entries[k].ratingKey == s.id;
      assert entries[..i + 1][k] == entries[k];
    }
    assert entries[..i + 1][i] == entries[i];
  }

  method Seasons(entries: seq<Entry>) returns (r: Option<seq<SeasonRef>>)
    ensures r.None? <==> Conflicting(entries)
    ensures r.Some? ==> forall s :: s in r.value <==> HasSeason(entries, s)
    ensures r.Some? ==> forall i, j | 0 <= i < j < |r.value| :: r.value[i].index < r.value[j].index
  {
    hide HasSeason;
    var result: seq<SeasonRef> := [];
    var seen: map<int, string> := map[];
    NoSeasons(entries);
    for i := 0 to |entries|
      invariant forall s :: s in result <==> HasSeason(entries[..i], s)
      invariant forall s :: s in result <==> s.index in seen && seen[s.index] == s.id
      invariant Distinct(result)
    {
      var e := entries[i];
      forall s ensures HasSeason(entries[..i + 1], s) <==>
                       HasSeason(entries[..i], s) || (ValidSeason(e) && s == SeasonRef(e.index, e.ratingKey)) {
        HasSeasonNext(entries, i, s);
      }
      if ValidSeason(e) {
        var s := SeasonRef(e.index, e.ratingKey);
        if e.index in seen {
          if seen[e.index] != e.ratingKey {
            StillThere(entries, i + 1, s);
            StillThere(entries, i + 1, SeasonRef(e.index, seen[e.index]));
            return None;
          }
        } else {
          seen := seen[e.index := e.ratingKey];
          result := result + [s];
        }
      }
    }
    assert entries[..|entries|] == entries;
    var sorted := Sort(result, SeasonLess);
    SortSorted(result, SeasonLess);
    SortMembers(result, SeasonLess);
    SortDistinct(result, SeasonLess);
    forall i, j | 0 <= i < j < |sorted| ensures sorted[i].index < sorted[j].index {
      assert sorted[i] in result && sorted[j] in result;
    }
    r := Some(sorted);
  }

  lemma NoSeasons(entries: seq<Entry>)
    ensures forall s :: !HasSeason(entries[..0], s)
  {
  }

  lemma StillThere(entries: seq<Entry>, i: nat, s: SeasonRef)
    requires i <= |entries| && HasSeason(entries[..i], s)
    ensures HasSeason(entries, s)
  {
    var k :| 0 <= k < i && ValidSeason(entries[..i][k]) && entries[..i][k].index == s.index && entries[..i][k].ratingKey == s.id;
    assert entries[k] == entries[..i][k];
  }

  method Episodes(entries: seq<Entry>, season: int) returns (r: seq<int>)
    ensures forall n :: n in r <==> HasEpisode(entries, season, n)
    ensures forall i, j | 0 <= i < j < |r| :: r[i] < r[j]
  {
    var result: seq<int> := [];
    var seen: set<int> := {};
    for i := 0 to |entries|
      invariant forall n :: n in result <==> n in seen
      invariant forall n :: n in seen <==> exists k :: 0 <= k < i && ValidEpisode(entries[k], season) && entries[k].index == n
      invariant Distinct(result)
    {
      if ValidEpisode(entries[i], season) && entries[i].index !in seen {
        seen := seen + {entries[i].index};
        result := result + [entries[i].index];
      }
    }
    r := Sort(result, IntLess);
    SortSorted(result, IntLess);
    SortMembers(result, IntLess);
    SortDistinct(result, IntLess);
  }

  /******* The next episode *******/

  // What the metadata service lists for a show: its seasons, and the episodes under each season id.
  datatype Listing = Listing(seasons: Option<seq<Entry>>, episodes: string -> Option<seq<Entry>>)

  ghost predicate ListedUnder(l: Listing, s: SeasonRef, c: Coord)
  {
    s.index == c.season && l.episodes(s.id).Some? && HasEpisode(l.episodes(s.id).value, c.season, c.episode)
  }

  ghost predicate Listed(l: Listing, c: Coord)
  {
    l.seasons.Some? && exists s :: HasSeason(l.seasons.value, s) && ListedUnder(l, s, c)
  }

  ghost predicate Successor(l: Listing, current: Coord, next: Coord)
  {
    Listed(l, current) && Listed(l, next) && Later(next, current) &&
    forall c | Listed(l, c) && Later(c, current) && c != next :: Later(c, next)
  }

  // Every listing needed is there and consistent.
  ghost predicate Available(l: Listing)
  {
    l.seasons.Some? && !Conflicting(l.seasons.value) &&
    forall s | HasSeason(l.seasons.value, s) :: l.episodes(s.id).Some?
  }

  datatype NextReply = Found(next: Coord) | NotFound | Unavailable | Invalid

  // The page requests for a show: its seasons, and the episodes under each season id.
  datatype Pages = Pages(seasons: Source, episodes: string -> Source)

  // What the requests bring, within the limits on seasons and episodes.
  function Fetched(pages: Pages): Listing
  {
    Listing(Collect(pages.seasons, MaximumSeasons, []), id => Collect(pages.episodes(id), MaximumEpisodes, []))
  }

  // Whatever was fetched is as l has it.
  ghost predicate Agrees(fetched: Listing, l: Listing)
  {
    && (fetched.seasons.Some? ==> l.seasons == fetched.seasons)
    && forall id | fetched.episodes(id).Some? :: l.episodes(id) == fetched.episodes(id)
  }

  // Nothing in the season comes after the current episode.
  ghost predicate Behind(f: Listing, current: Coord, t: SeasonRef)
  {
    f.episodes(t.id).Some? && forall n | HasEpisode(f.episodes(t.id).value, t.index, n) :: !Later(Coord(t.index, n), current)
  }

  // A season whose listing did not come, met before any later episode was: the search gets to the current season, finds
  // the current episode there unless this is the one, and nothing later in the seasons between.
  ghost predicate Stuck(f: Listing, current: Coord, s: SeasonRef)
  {
    && f.seasons.Some? && HasSeason(f.seasons.value, s) && s.index >= current.season && f.episodes(s.id).None?
    && (exists t :: HasSeason(f.seasons.value, t) && t.index == current.season)
    && (s.index > current.season ==> Listed(f, current))
    && (forall t | HasSeason(f.seasons.value, t) && current.season <= t.index < s.index :: Behind(f, current, t))
  }

  // The seasons did not come or contradict each other, or the search gets stuck.
  ghost predicate Unanswered(f: Listing, current: Coord)
  {
    f.seasons.None? || Conflicting(f.seasons.value) || exists s :: Stuck(f, current, s)
  }

  // The answer the listings that came determine.
  ghost predicate Determined(f: Listing, current: Coord, r: NextReply)
  {
    match r
    case Invalid => !ValidCoord(current)
    case Unavailable => ValidCoord(current) && Unanswered(f, current)
    case Found(next) => ValidCoord(current) && !Unanswered(f, current) && Successor(f, current, next)
    case NotFound => ValidCoord(current) && !Unanswered(f, current) && forall next :: !Successor(f, current, next)
  }

  // The least listed episode after the current one, by any listing l that agrees with the pages that came.
  method Next(pages: Pages, current: Coord, ghost l: Listing) returns (r: NextReply)
    requires Agrees(Fetched(pages), l)
    ensures Determined(Fetched(pages), current, r)
    ensures r.Found? ==> ValidCoord(r.next) && Successor(l, current, r.next)
    ensures r.NotFound? ==> !Listed(l, current) || forall c | Listed(l, c) :: !Later(c, current)
  {
    hide HasSeason, HasEpisode, Conflicting, Collect, Stuck, Behind, Successor, ListedUnder, Listed;
    if !ValidCoord(current) { return Invalid; }
    ghost var f := Fetched(pages);
    var entries := Children(pages.seasons, MaximumSeasons);
    if entries.None? { return Unavailable; }
    var seasons := Seasons(entries.value);
    if seasons.None? { return Unavailable; }
    var refs := seasons.value;
    var at := 0;
    while at < |refs| && refs[at].index != current.season
      invariant 0 <= at <= |refs| && forall k | 0 <= k < at :: refs[k].index != current.season
    {
      at := at + 1;
    }
    if at == |refs| {
      NoSuchSeason(l, refs, current);
      NoSuchSeason(f, refs, current);
      NoSuccessor(f, current);
      return NotFound;
    }
    var i := 0;
    while i < |refs|
      invariant 0 <= i <= |refs|
      invariant forall k | 0 <= k < i && refs[k].index >= current.season :: Behind(f, current, refs[k])
      invariant at < i ==> Listed(f, current)
    {
      var season := refs[i];
      if season.index < current.season { i := i + 1; continue; }
      assert HasSeason(f.seasons.value, season);
      var listing := Children(pages.episodes(season.id), MaximumEpisodes);
      assert listing == f.episodes(season.id);
      if listing.None? {
        assert refs[at] in refs;
        GetsStuck(f, refs, at, i, current);
        return Unavailable;
      }
      var episodes := Episodes(listing.value, season.index);
      if season.index == current.season {
        if current.episode !in episodes {
          NotListed(l, refs, i, current);
          NotListed(f, refs, i, current);
          NotStuckHere(f, refs, i, current);
          NoSuccessor(f, current);
          return NotFound;
        }
        FoundListed(f, season, current);
      }
      assert Listed(f, current);
      ListedAgrees(f, l, current);
      var j := 0;
      while j < |episodes|
        invariant 0 <= j <= |episodes| && forall k | 0 <= k < j :: !Later(Coord(season.index, episodes[k]), current)
      {
        var c := Coord(season.index, episodes[j]);
        if Later(c, current) {
          BehindAgrees(f, l, refs, i, current);
          FirstLater(l, refs, i, episodes, j, current);
          FirstLater(f, refs, i, episodes, j, current);
          assert episodes[j] in episodes;
          NotStuckLater(f, refs, i, episodes[j], current);
          return Found(c);
        }
        j := j + 1;
      }
      AllBehind(f, season, episodes, current);
      i := i + 1;
    }
    BehindAgrees(f, l, refs, |refs|, current);
    NoneLater(l, refs, current);
    NoneLater(f, refs, current);
    NotStuckAtEnd(f, refs, current);
    NoSuccessor(f, current);
    r := NotFound;
  }

  lemma SuccessorUnique(f: Listing, current: Coord, a: Coord, b: Coord)
    requires Successor(f, current, a) && Successor(f, current, b)
    ensures a == b
  {
    hide Listed;
    assert a != b ==> Later(a, b) && Later(b, a);
  }

  // A listed episode with a later one has a successor.
  lemma {:induction false} SuccessorExists(f: Listing, current: Coord, c: Coord) returns (next: Coord)
    requires Listed(f, current) && Listed(f, c) && Later(c, current)
    ensures Successor(f, current, next)
    decreases c.season, c.episode
  {
    ListedValid(f, c);
    hide Listed;
    if Successor(f, current, c) { next := c; }
    else {
      var d :| Listed(f, d) && Later(d, current) && d != c && !Later(d, c);
      ListedValid(f, d);
      next := SuccessorExists(f, current, d);
    }
  }

  // Complete listings always give an answer.
  lemma AvailableAnswers(f: Listing, current: Coord)
    requires Available(f)
    ensures !Unanswered(f, current)
  {
    hide HasSeason, HasEpisode, Conflicting;
  }

  lemma GetsStuck(f: Listing, refs: seq<SeasonRef>, at: nat, i: nat, current: Coord)
    requires Refs(f, refs) && at < |refs| && i < |refs| && refs[at].index == current.season
    requires refs[i].index >= current.season && f.episodes(refs[i].id).None? && (at < i ==> Listed(f, current))
    requires forall k | 0 <= k < i && refs[k].index >= current.season :: Behind(f, current, refs[k])
    ensures Stuck(f, current, refs[i])
  {
    hide HasSeason, HasEpisode, Listed, Behind;
    assert refs[at] in refs && refs[i] in refs;
    forall t | HasSeason(f.seasons.value, t) && current.season <= t.index < refs[i].index ensures Behind(f, current, t) {
      var k :| 0 <= k < |refs| && refs[k] == t;
      assert k < i;
    }
  }

  lemma FoundListed(f: Listing, s: SeasonRef, c: Coord)
    requires f.seasons.Some? && HasSeason(f.seasons.value, s) && s.index == c.season
    requires f.episodes(s.id).Some? && HasEpisode(f.episodes(s.id).value, c.season, c.episode)
    ensures Listed(f, c)
  {
    hide HasSeason, HasEpisode;
    assert ListedUnder(f, s, c);
  }

  lemma AllBehind(f: Listing, s: SeasonRef, episodes: seq<int>, current: Coord)
    requires f.episodes(s.id).Some? && forall n :: n in episodes <==> HasEpisode(f.episodes(s.id).value, s.index, n)
    requires forall k | 0 <= k < |episodes| :: !Later(Coord(s.index, episodes[k]), current)
    ensures Behind(f, current, s)
  {
    hide HasEpisode;
  }

  lemma NoSuccessor(f: Listing, current: Coord)
    requires !Listed(f, current) || forall c | Listed(f, c) :: !Later(c, current)
    ensures forall next :: !Successor(f, current, next)
  {
    hide Listed;
  }

  lemma NoSuchSeason(l: Listing, refs: seq<SeasonRef>, current: Coord)
    requires Refs(l, refs) && forall k | 0 <= k < |refs| :: refs[k].index != current.season
    ensures !Listed(l, current) && forall s :: !Stuck(l, current, s)
  {
    hide HasSeason, HasEpisode, Behind;
    forall s ensures !(HasSeason(l.seasons.value, s) && s.index == current.season) {
      if HasSeason(l.seasons.value, s) { var k :| 0 <= k < |refs| && refs[k] == s; }
    }
  }

  // The current season came, without the current episode.
  lemma NotStuckHere(f: Listing, refs: seq<SeasonRef>, i: nat, current: Coord)
    requires Refs(f, refs) && i < |refs| && refs[i].index == current.season && f.episodes(refs[i].id).Some? && !Listed(f, current)
    ensures forall s :: !Stuck(f, current, s)
  {
    hide HasSeason, HasEpisode, Listed, Behind;
    forall s ensures !Stuck(f, current, s) {
      if HasSeason(f.seasons.value, s) { var k :| 0 <= k < |refs| && refs[k] == s; }
    }
  }

  // A later episode came before any season that did not.
  lemma NotStuckLater(f: Listing, refs: seq<SeasonRef>, i: nat, n: int, current: Coord)
    requires Refs(f, refs) && i < |refs| && refs[i].index >= current.season && f.episodes(refs[i].id).Some?
    requires HasEpisode(f.episodes(refs[i].id).value, refs[i].index, n) && Later(Coord(refs[i].index, n), current)
    requires forall k | 0 <= k < i && refs[k].index >= current.season :: Behind(f, current, refs[k])
    ensures forall s :: !Stuck(f, current, s)
  {
    hide HasSeason, HasEpisode, Listed;
    assert refs[i] in refs && !Behind(f, current, refs[i]);
    forall s ensures !Stuck(f, current, s) {
      if HasSeason(f.seasons.value, s) { var k :| 0 <= k < |refs| && refs[k] == s; }
    }
  }

  lemma NotStuckAtEnd(f: Listing, refs: seq<SeasonRef>, current: Coord)
    requires Refs(f, refs) && forall k | 0 <= k < |refs| && refs[k].index >= current.season :: Behind(f, current, refs[k])
    ensures forall s :: !Stuck(f, current, s)
  {
    hide HasSeason, HasEpisode, Listed;
    forall s ensures !Stuck(f, current, s) {
      if HasSeason(f.seasons.value, s) { var k :| 0 <= k < |refs| && refs[k] == s; }
    }
  }

  lemma ListedAgrees(f: Listing, l: Listing, c: Coord)
    requires Agrees(f, l) && Listed(f, c)
    ensures Listed(l, c)
  {
    hide HasSeason, HasEpisode;
    var s :| HasSeason(f.seasons.value, s) && ListedUnder(f, s, c);
    assert ListedUnder(l, s, c);
  }

  lemma BehindAgrees(f: Listing, l: Listing, refs: seq<SeasonRef>, n: nat, current: Coord)
    requires Agrees(f, l) && n <= |refs| && forall k | 0 <= k < n && refs[k].index >= current.season :: Behind(f, current, refs[k])
    ensures forall k | 0 <= k < n && refs[k].index >= current.season :: Behind(l, current, refs[k])
  {
    hide HasEpisode;
  }

  ghost predicate Refs(l: Listing, refs: seq<SeasonRef>)
  {
    && l.seasons.Some? && (forall s :: s in refs <==> HasSeason(l.seasons.value, s))
    && (forall i, j | 0 <= i < j < |refs| :: refs[i].index < refs[j].index)
  }

  // A listed episode is found under the one reference to its season.
  lemma ListedAt(l: Listing, refs: seq<SeasonRef>, c: Coord) returns (i: nat)
    requires Refs(l, refs) && Listed(l, c)
    ensures i < |refs| && ListedUnder(l, refs[i], c)
  {
    hide HasSeason, HasEpisode;
    var s :| HasSeason(l.seasons.value, s) && ListedUnder(l, s, c);
    i :| 0 <= i < |refs| && refs[i] == s;
  }

  lemma ListedValid(l: Listing, c: Coord)
    requires Listed(l, c)
    ensures ValidCoord(c)
  {
  }

  lemma NotListed(l: Listing, refs: seq<SeasonRef>, i: nat, current: Coord)
    requires Refs(l, refs) && i < |refs| && refs[i].index == current.season && l.episodes(refs[i].id).Some?
    requires !HasEpisode(l.episodes(refs[i].id).value, current.season, current.episode)
    ensures !Listed(l, current)
  {
    hide HasSeason, HasEpisode;
    if Listed(l, current) { var k := ListedAt(l, refs, current); }
  }

  lemma FirstLater(l: Listing, refs: seq<SeasonRef>, i: nat, episodes: seq<int>, j: nat, current: Coord)
    requires Refs(l, refs) && i < |refs| && j < |episodes| && l.episodes(refs[i].id).Some? && Listed(l, current)
    requires forall n :: n in episodes <==> HasEpisode(l.episodes(refs[i].id).value, refs[i].index, n)
    requires forall a, b | 0 <= a < b < |episodes| :: episodes[a] < episodes[b]
    requires forall k | 0 <= k < i && refs[k].index >= current.season :: Behind(l, current, refs[k])
    requires forall k | 0 <= k < j :: !Later(Coord(refs[i].index, episodes[k]), current)
    requires Later(Coord(refs[i].index, episodes[j]), current)
    ensures Successor(l, current, Coord(refs[i].index, episodes[j])) && ValidCoord(Coord(refs[i].index, episodes[j]))
  {
    hide HasSeason, HasEpisode;
    var next := Coord(refs[i].index, episodes[j]);
    assert episodes[j] in episodes && ListedUnder(l, refs[i], next);
    ListedValid(l, next);
    forall c | Listed(l, c) && Later(c, current) && c != next ensures Later(c, next) {
      var k := ListedAt(l, refs, c);
      if k == i { var m :| 0 <= m < |episodes| && episodes[m] == c.episode; }
    }
  }

  lemma NoneLater(l: Listing, refs: seq<SeasonRef>, current: Coord)
    requires Refs(l, refs)
    requires forall k | 0 <= k < |refs| && refs[k].index >= current.season :: Behind(l, current, refs[k])
    ensures forall c | Listed(l, c) :: !Later(c, current)
  {
    hide HasSeason, HasEpisode;
    forall c | Listed(l, c) ensures !Later(c, current) { var k := ListedAt(l, refs, c); }
  }

  // What is listed, on the entries: a season entry numbered 1 to 99 with a well-formed id, and under that id an episode
  // entry of that season numbered 1 to 999.
  lemma ListedExactly(l: Listing, c: Coord)
    ensures Listed(l, c) <==> l.seasons.Some? && exists i :: 0 <= i < |l.seasons.value| && EntryFor(l, l.seasons.value[i], c)
  {
    hide IsID, HasEpisode, HasEntry;
    if l.seasons.Some? {
      forall e ensures EntryFor(l, e, c) <==> ValidSeason(e) && ListedUnder(l, SeasonRef(e.index, e.ratingKey), c) { SameEntry(l, e, c); }
      if Listed(l, c) {
        var s :| HasSeason(l.seasons.value, s) && ListedUnder(l, s, c);
        var i :| 0 <= i < |l.seasons.value| && ValidSeason(l.seasons.value[i]) && SeasonRef(l.seasons.value[i].index, l.seasons.value[i].ratingKey) == s;
        assert EntryFor(l, l.seasons.value[i], c);
      }
      forall i | 0 <= i < |l.seasons.value| && EntryFor(l, l.seasons.value[i], c) ensures Listed(l, c) {
        assert HasSeason(l.seasons.value, SeasonRef(l.seasons.value[i].index, l.seasons.value[i].ratingKey));
      }
    }
  }

  lemma SameEntry(l: Listing, e: Entry, c: Coord)
    ensures EntryFor(l, e, c) <==> ValidSeason(e) && ListedUnder(l, SeasonRef(e.index, e.ratingKey), c)
  {
    assert forall x: char :: x in "0123456789abcdef" <==> '0' <= x <= '9' || 'a' <= x <= 'f';
    assert IsID(e.ratingKey) <==> |e.ratingKey| == 24 && forall i | 0 <= i < |e.ratingKey| :: e.ratingKey[i] in "0123456789abcdef";
    if l.episodes(e.ratingKey).Some? { SameEpisodes(l.episodes(e.ratingKey).value, c); }
  }

  lemma SameEpisodes(entries: seq<Entry>, c: Coord)
    ensures HasEntry(entries, c) <==> HasEpisode(entries, c.season, c.episode)
  {
  }

  predicate SeasonEntry(e: Entry, season: int)
  {
    e.kind == "season" && e.index == season && 1 <= season <= 99 && |e.ratingKey| == 24 &&
    forall i | 0 <= i < |e.ratingKey| :: e.ratingKey[i] in "0123456789abcdef"
  }

  ghost predicate EntryFor(l: Listing, e: Entry, c: Coord)
  {
    SeasonEntry(e, c.season) && l.episodes(e.ratingKey).Some? && HasEntry(l.episodes(e.ratingKey).value, c)
  }

  ghost predicate HasEntry(entries: seq<Entry>, c: Coord)
  {
    exists i :: 0 <= i < |entries| && entries[i].kind == "episode" && entries[i].parentIndex == c.season &&
                entries[i].index == c.episode && 1 <= c.episode <= 999
  }

  /******* The server's own lists *******/

  datatype Server = Server(seasons: seq<Entry>, episodes: string -> seq<Entry>)

  function Truth(server: Server): Listing { Listing(Some(server.seasons), id => Some(server.episodes(id))) }

  // Every page that comes is true to the server's lists; requests may fail.
  ghost predicate Serves(pages: Pages, server: Server)
  {
    TrueTo(pages.seasons, server.seasons) && forall id :: TrueTo(pages.episodes(id), server.episodes(id))
  }

  // Whatever requests fail, an answer is the server's own: the listings that came are whole.
  lemma FetchedIsTrue(pages: Pages, server: Server)
    requires Serves(pages, server)
    ensures Agrees(Fetched(pages), Truth(server))
  {
    hide TrueTo, Collect;
    CollectsAll(pages.seasons, MaximumSeasons, server.seasons, []);
    forall id | Fetched(pages).episodes(id).Some? ensures Truth(server).episodes(id) == Fetched(pages).episodes(id) {
      CollectsAll(pages.episodes(id), MaximumEpisodes, server.episodes(id), []);
    }
  }

  lemma {:induction false} CollectBounded(source: Source, maximum: int, sofar: seq<Entry>)
    ensures Collect(source, maximum, sofar).Some? ==> |Collect(source, maximum, sofar).value| <= maximum
    decreases maximum - |sofar|
  {
    if maximum > |sofar| && source(|sofar|, RequestSize(maximum - |sofar|)).Some? {
      var page := source(|sofar|, RequestSize(maximum - |sofar|)).value;
      if page.paginated && Continues(page, |sofar|, maximum) { CollectBounded(source, maximum, sofar + page.entries); }
    }
  }

  // A longer listing is never taken for a shorter one: it does not come at all.
  lemma FetchedBounded(pages: Pages, id: string)
    ensures Fetched(pages).seasons.Some? ==> |Fetched(pages).seasons.value| <= 100
    ensures Fetched(pages).episodes(id).Some? ==> |Fetched(pages).episodes(id).value| <= 1000
  {
    hide Collect;
    CollectBounded(pages.seasons, MaximumSeasons, []);
    CollectBounded(pages.episodes(id), MaximumEpisodes, []);
  }

  // A server that answers for the show and its listed seasons, lists something for each and stays within the limits
  // is available.
  lemma AnsweringIsAvailable(pages: Pages, server: Server)
    requires Serves(pages, server) && !Conflicting(server.seasons)
    requires Answers(pages.seasons, server.seasons) && 0 < |server.seasons| <= 100
    requires forall s | HasSeason(server.seasons, s) ::
               Answers(pages.episodes(s.id), server.episodes(s.id)) && 0 < |server.episodes(s.id)| <= 1000
    ensures Available(Fetched(pages))
  {
    hide TrueTo, Collect, Answers, Conflicting, HasSeason;
    CollectsAll(pages.seasons, MaximumSeasons, server.seasons, []);
    forall s | HasSeason(server.seasons, s) ensures Fetched(pages).episodes(s.id).Some? {
      CollectsAll(pages.episodes(s.id), MaximumEpisodes, server.episodes(s.id), []);
    }
  }

  method NextOnServer(pages: Pages, current: Coord, ghost server: Server) returns (r: NextReply)
    requires Serves(pages, server)
    ensures r.Found? ==> Successor(Truth(server), current, r.next)
    ensures r.NotFound? ==> !Listed(Truth(server), current) || forall c | Listed(Truth(server), c) :: !Later(c, current)
  {
    FetchedIsTrue(pages, server);
    r := Next(pages, current, Truth(server));
  }
}
