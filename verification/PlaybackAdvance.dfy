/** The playback worker: qualifying playbacks move their show's frontier to the next listed episode. */
module PlaybackAdvance {
  import opened WatchModel
  import opened WatchRepository
  import opened PlexMetadata

  const MinimumPlaybackMillis := 120_000
  const MinimumPlaybackPercent := 10
  const ObservationFreshnessPolls := 2

  datatype Playback = Playback(show: string, path: string, at: Coord, viewOffset: int, duration: int)

  // What the published index knows of a path.
  datatype Published = Published(isEpisode: bool, at: Coord, objectID: string)

  datatype Lookup = Failed | Absent | Present(item: Published)

  datatype Move = Move(playback: Playback, objectID: string, next: Coord)

  predicate Qualifies(p: Playback)
  {
    p.viewOffset >= MinimumPlaybackMillis && p.viewOffset * 100 >= p.duration * MinimumPlaybackPercent
  }

  function ShowKey(p: Playback): Key { Key("plex-watchlist", p.show) }

  // The moves carried out one after another.
  function Replay(rules: Rules, q: Queue, moves: seq<Move>, observedAfter: int, now: int): Queue
  {
    if moves == [] then q
    else
      var m := moves[|moves| - 1];
      Advance(rules, Replay(rules, q, moves[..|moves| - 1], observedAfter, now), ShowKey(m.playback), m.objectID, m.playback.at, m.next, observedAfter, now)
  }

  // A qualifying playback of the published episode, moved to the next one listed.
  ghost predicate Justified(playbacks: seq<Playback>, find: string -> Lookup, truth: string -> Listing, m: Move)
  {
    && m.playback in playbacks && Qualifies(m.playback)
    && find(m.playback.path) == Present(Published(true, m.playback.at, m.objectID))
    && Successor(truth(m.playback.show), m.playback.at, m.next)
  }

  function Cutoff(now: int, pollInterval: int): int { now - ObservationFreshnessPolls * pollInterval }

  // What one pass does: justified moves, carried out on the queue one after another.
  ghost predicate Passed(rules: Rules, q: Queue, q': Queue, playbacks: seq<Playback>, find: string -> Lookup, truth: string -> Listing, moves: seq<Move>, now: int, pollInterval: int)
  {
    && (forall m | m in moves :: Justified(playbacks, find, truth, m))
    && q' == Replay(rules, q, moves, Cutoff(now, pollInterval), now)
  }

  /******* What a pass does, playback by playback *******/

  // The published index has the episode that plays.
  predicate Plays(find: string -> Lookup, p: Playback)
  {
    Qualifies(p) && find(p.path).Present? && find(p.path).item.isEpisode && find(p.path).item.at == p.at
  }

  predicate Standing(q: Queue, find: string -> Lookup, p: Playback, observedAfter: int)
    requires Plays(find, p)
  {
    AtFrontier(q, ShowKey(p), find(p.path).item.objectID, p.at, observedAfter)
  }

  // The pass ends in an error at this playback.
  ghost predicate Stops(rules: Rules, q: Queue, find: string -> Lookup, pages: string -> Pages, p: Playback, observedAfter: int)
  {
    || (Qualifies(p) && find(p.path).Failed?)
    || (Plays(find, p) && !ValidFrontier(rules, ShowKey(p), find(p.path).item.objectID, p.at))
    || (Plays(find, p) && Standing(q, find, p, observedAfter) && Unanswered(Fetched(pages(p.show)), p.at))
  }

  // The playback moves its show to the next listed episode.
  ghost predicate Moves(q: Queue, find: string -> Lookup, pages: string -> Pages, p: Playback, next: Coord, observedAfter: int)
  {
    Plays(find, p) && Standing(q, find, p, observedAfter) && Successor(Fetched(pages(p.show)), p.at, next)
  }

  datatype Outcome = Outcome(ok: bool, queue: Queue, moves: seq<Move>)

  // The pass over the playbacks one after another; after an error the rest is left alone.
  ghost function Handle(rules: Rules, q: Queue, playbacks: seq<Playback>, find: string -> Lookup, pages: string -> Pages, observedAfter: int, now: int): Outcome
  {
    if playbacks == [] then Outcome(true, q, [])
    else
      var p := playbacks[|playbacks| - 1];
      var before := Handle(rules, q, playbacks[..|playbacks| - 1], find, pages, observedAfter, now);
      if !before.ok then before
      else if Stops(rules, before.queue, find, pages, p, observedAfter) then before.(ok := false)
      else if exists next :: Moves(before.queue, find, pages, p, next, observedAfter) then
        var next :| Moves(before.queue, find, pages, p, next, observedAfter);
        var x := find(p.path).item.objectID;
        Outcome(true, Advance(rules, before.queue, ShowKey(p), x, p.at, next, observedAfter, now), before.moves + [Move(p, x, next)])
      else before
  }

  // truth is any listing of each show that agrees with the pages that came, the server's own among them.
  method Process(queue: Repository, playbacks: seq<Playback>, find: string -> Lookup, pages: string -> Pages, ghost truth: string -> Listing, now: int, pollInterval: int)
    returns (count: nat, ok: bool, ghost moves: seq<Move>)
    requires forall show :: Agrees(Fetched(pages(show)), truth(show))
    modifies queue`rows
    ensures count == |moves|
    ensures Outcome(ok, queue.View(), moves) == Handle(queue.rules, old(queue.View()), playbacks, find, pages, now - 2 * pollInterval, now)
    ensures Passed(queue.rules, old(queue.View()), queue.View(), playbacks, find, truth, moves, now, pollInterval)
  {
    hide Justified, Advance, ValidFrontier, Agrees, Unanswered, Successor, Handle, AtFrontier, Fetched;
    var observedAfter := Cutoff(now, pollInterval);
    ghost var q := old(queue.View());
    count, ok, moves := 0, true, [];
    HandleNone(queue.rules, q, find, pages, observedAfter, now);
    for i := 0 to |playbacks|
      invariant count == |moves| && forall m | m in moves :: Justified(playbacks, find, truth, m)
      invariant queue.View() == Replay(queue.rules, q, moves, observedAfter, now)
      invariant ok && Outcome(true, queue.View(), moves) == Handle(queue.rules, q, playbacks[..i], find, pages, observedAfter, now)
    {
      var p := playbacks[i];
      HandleNext(queue.rules, q, playbacks, i, find, pages, observedAfter, now);
      if !Qualifies(p) { continue; }
      var found := find(p.path);
      if found.Failed? { ok := false; HandleStopped(queue.rules, q, playbacks, i + 1, find, pages, observedAfter, now); return; }
      if found.Absent? || !found.item.isEpisode || found.item.at != p.at { continue; }
      var objectID := found.item.objectID;
      if !ValidFrontier(queue.rules, ShowKey(p), objectID, p.at) {
        ok := false;
        HandleStopped(queue.rules, q, playbacks, i + 1, find, pages, observedAfter, now);
        return;
      }
      var eligible := queue.CanAdvanceEpisode(ShowKey(p), objectID, p.at, observedAfter);
      if !eligible { continue; }
      var next := Next(pages(p.show), p.at, truth(p.show));
      if next.NotFound? { continue; }
      if !next.Found? {
        assert ValidCoord(p.at) by { FrontierValid(queue.rules, ShowKey(p), objectID, p.at); }
        ok := false;
        HandleStopped(queue.rules, q, playbacks, i + 1, find, pages, observedAfter, now);
        return;
      }
      HandleMoved(queue.rules, q, playbacks, i, find, pages, next.next, observedAfter, now);
      var done := queue.AdvanceEpisode(ShowKey(p), objectID, p.at, next.next, observedAfter, now);
      if done {
        ghost var m := Move(p, objectID, next.next);
        assert Justified(playbacks, find, truth, m) by { Justify(playbacks, find, truth, m, i); }
        assert (moves + [m])[..|moves|] == moves;
        moves := moves + [m];
        count := count + 1;
      }
    }
    assert playbacks[..|playbacks|] == playbacks;
  }
  lemma FrontierValid(rules: Rules, key: Key, x: string, at: Coord)
    requires ValidFrontier(rules, key, x, at)
    ensures ValidCoord(at)
  {
  }

  lemma Justify(playbacks: seq<Playback>, find: string -> Lookup, truth: string -> Listing, m: Move, i: nat)
    requires i < |playbacks| && playbacks[i] == m.playback && Qualifies(m.playback)
    requires find(m.playback.path) == Present(Published(true, m.playback.at, m.objectID))
    requires Successor(truth(m.playback.show), m.playback.at, m.next)
    ensures Justified(playbacks, find, truth, m)
  {
  }

  lemma HandleNone(rules: Rules, q: Queue, find: string -> Lookup, pages: string -> Pages, observedAfter: int, now: int)
    ensures Handle(rules, q, [], find, pages, observedAfter, now) == Outcome(true, q, [])
  {
  }

  lemma HandleNext(rules: Rules, q: Queue, playbacks: seq<Playback>, i: nat, find: string -> Lookup, pages: string -> Pages, observedAfter: int, now: int)
    requires i < |playbacks|
    ensures var before := Handle(rules, q, playbacks[..i], find, pages, observedAfter, now);
            var after := Handle(rules, q, playbacks[..i + 1], find, pages, observedAfter, now);
            && (!before.ok ==> after == before)
            && (before.ok && Stops(rules, before.queue, find, pages, playbacks[i], observedAfter) ==> after == before.(ok := false))
            && (before.ok && !Stops(rules, before.queue, find, pages, playbacks[i], observedAfter) ==> after.ok)
            && ((before.ok && !Stops(rules, before.queue, find, pages, playbacks[i], observedAfter) &&
                 forall next :: !Moves(before.queue, find, pages, playbacks[i], next, observedAfter)) ==> after == before)
  {
    hide Stops, Moves, Advance;
    assert playbacks[..i + 1][..i] == playbacks[..i];
  }

  lemma HandleMoved(rules: Rules, q: Queue, playbacks: seq<Playback>, i: nat, find: string -> Lookup, pages: string -> Pages, next: Coord, observedAfter: int, now: int)
    requires i < |playbacks|
    requires var before := Handle(rules, q, playbacks[..i], find, pages, observedAfter, now);
             && before.ok && !Stops(rules, before.queue, find, pages, playbacks[i], observedAfter)
             && Moves(before.queue, find, pages, playbacks[i], next, observedAfter)
    ensures var before := Handle(rules, q, playbacks[..i], find, pages, observedAfter, now);
            var p := playbacks[i];
            && Plays(find, p)
            && var x := find(p.path).item.objectID;
            && Advances(rules, before.queue, ShowKey(p), x, p.at, next, observedAfter)
            && Handle(rules, q, playbacks[..i + 1], find, pages, observedAfter, now) ==
               Outcome(true, Advance(rules, before.queue, ShowKey(p), x, p.at, next, observedAfter, now), before.moves + [Move(p, x, next)])
  {
    hide Advance, ValidFrontier, Listed, Unanswered, Fetched, AtFrontier;
    assert playbacks[..i + 1][..i] == playbacks[..i];
    var before := Handle(rules, q, playbacks[..i], find, pages, observedAfter, now);
    var p := playbacks[i];
    ListedValid(Fetched(pages(p.show)), next);
    forall other | Moves(before.queue, find, pages, p, other, observedAfter) ensures other == next {
      SuccessorUnique(Fetched(pages(p.show)), p.at, other, next);
    }
  }

  lemma {:induction false} HandleStopped(rules: Rules, q: Queue, playbacks: seq<Playback>, n: nat, find: string -> Lookup, pages: string -> Pages, observedAfter: int, now: int)
    requires n <= |playbacks| && !Handle(rules, q, playbacks[..n], find, pages, observedAfter, now).ok
    ensures Handle(rules, q, playbacks, find, pages, observedAfter, now) == Handle(rules, q, playbacks[..n], find, pages, observedAfter, now)
    decreases |playbacks| - n
  {
    hide Handle;
    if n == |playbacks| {
      assert playbacks[..n] == playbacks;
    } else {
      HandleNext(rules, q, playbacks, n, find, pages, observedAfter, now);
      HandleStopped(rules, q, playbacks, n + 1, find, pages, observedAfter, now);
    }
  }

  /******* What a pass achieves *******/

  predicate Unmoved(moves: seq<Move>, show: string) { forall m | m in moves :: m.playback.show != show }

  // A show leaves its frontier exactly when the pass moves it.
  ghost predicate Tracks(q: Queue, after: Outcome, observedAfter: int)
  {
    forall show, x, at :: AtFrontier(after.queue, Key("plex-watchlist", show), x, at, observedAfter) <==>
                          AtFrontier(q, Key("plex-watchlist", show), x, at, observedAfter) && Unmoved(after.moves, show)
  }

  // One move more: its show leaves the frontier, and no other does.
  lemma TracksMove(rules: Rules, q: Queue, before: Outcome, p: Playback, x: string, next: Coord, observedAfter: int, now: int)
    requires Tracks(q, before, observedAfter) && Advances(rules, before.queue, ShowKey(p), x, p.at, next, observedAfter)
    ensures Tracks(q, Outcome(true, Advance(rules, before.queue, ShowKey(p), x, p.at, next, observedAfter, now), before.moves + [Move(p, x, next)]), observedAfter)
  {
    hide Advance;
    var after := Advance(rules, before.queue, ShowKey(p), x, p.at, next, observedAfter, now);
    forall show, y, at
      ensures AtFrontier(after, Key("plex-watchlist", show), y, at, observedAfter) <==>
              AtFrontier(q, Key("plex-watchlist", show), y, at, observedAfter) && Unmoved(before.moves + [Move(p, x, next)], show)
    {
      UnmovedNext(before.moves, Move(p, x, next), show);
      LeavesFrontier(rules, before.queue, ShowKey(p), x, p.at, next, observedAfter, now, Key("plex-watchlist", show), y, at);
    }
  }

  lemma UnmovedNext(moves: seq<Move>, m: Move, show: string)
    ensures Unmoved(moves + [m], show) <==> Unmoved(moves, show) && m.playback.show != show
  {
    assert m in moves + [m] && forall a | a in moves :: a in moves + [m];
  }

  lemma LeavesFrontier(rules: Rules, q: Queue, key: Key, x: string, at: Coord, next: Coord, observedAfter: int, now: int, k: Key, y: string, c: Coord)
    requires Advances(rules, q, key, x, at, next, observedAfter)
    ensures AtFrontier(Advance(rules, q, key, x, at, next, observedAfter, now), k, y, c, observedAfter) <==>
            k != key && AtFrontier(q, k, y, c, observedAfter)
  {
    hide ValidFrontier;
  }

  lemma {:induction false} HandleTracks(rules: Rules, q: Queue, playbacks: seq<Playback>, n: nat, find: string -> Lookup, pages: string -> Pages, observedAfter: int, now: int)
    requires n <= |playbacks|
    ensures Tracks(q, Handle(rules, q, playbacks[..n], find, pages, observedAfter, now), observedAfter)
  {
    hide Handle, Tracks, Stops, Moves, Advance, Advances;
    if n == 0 {
      HandleNone(rules, q, find, pages, observedAfter, now);
      TracksNothing(q, observedAfter);
      assert playbacks[..0] == [];
    } else {
      HandleTracks(rules, q, playbacks, n - 1, find, pages, observedAfter, now);
      HandleNext(rules, q, playbacks, n - 1, find, pages, observedAfter, now);
      var before := Handle(rules, q, playbacks[..n - 1], find, pages, observedAfter, now);
      var p := playbacks[n - 1];
      TracksStop(q, before, observedAfter);
      if before.ok && !Stops(rules, before.queue, find, pages, p, observedAfter) {
        if next :| Moves(before.queue, find, pages, p, next, observedAfter) {
          HandleMoved(rules, q, playbacks, n - 1, find, pages, next, observedAfter, now);
          TracksMove(rules, q, before, p, find(p.path).item.objectID, next, observedAfter, now);
        }
      }
    }
  }

  lemma TracksNothing(q: Queue, observedAfter: int)
    ensures Tracks(q, Outcome(true, q, []), observedAfter)
  {
    hide AtFrontier;
  }

  lemma TracksStop(q: Queue, before: Outcome, observedAfter: int)
    requires Tracks(q, before, observedAfter)
    ensures Tracks(q, before.(ok := false), observedAfter)
  {
    hide AtFrontier;
  }

  // The moves of a part of the pass are moves of the pass.
  lemma {:induction false} MovesGrow(rules: Rules, q: Queue, playbacks: seq<Playback>, n: nat, find: string -> Lookup, pages: string -> Pages, observedAfter: int, now: int, show: string)
    requires n <= |playbacks| && Unmoved(Handle(rules, q, playbacks, find, pages, observedAfter, now).moves, show)
    ensures Unmoved(Handle(rules, q, playbacks[..n], find, pages, observedAfter, now).moves, show)
    ensures Handle(rules, q, playbacks, find, pages, observedAfter, now).ok ==> Handle(rules, q, playbacks[..n], find, pages, observedAfter, now).ok
    decreases |playbacks| - n
  {
    hide Handle, Stops, Moves, Advance, Advances;
    if n == |playbacks| {
      assert playbacks[..n] == playbacks;
    } else {
      MovesGrow(rules, q, playbacks, n + 1, find, pages, observedAfter, now, show);
      HandleNext(rules, q, playbacks, n, find, pages, observedAfter, now);
      var before := Handle(rules, q, playbacks[..n], find, pages, observedAfter, now);
      if before.ok && !Stops(rules, before.queue, find, pages, playbacks[n], observedAfter) {
        if next :| Moves(before.queue, find, pages, playbacks[n], next, observedAfter) {
          HandleMoved(rules, q, playbacks, n, find, pages, next, observedAfter, now);
          assert forall m | m in before.moves :: m in Handle(rules, q, playbacks[..n + 1], find, pages, observedAfter, now).moves;
        }
      }
    }
  }

  // A playback of two minutes and a tenth of its length, of the episode published at its path.
  ghost predicate Counts(p: Playback, find: string -> Lookup, x: string)
  {
    p.viewOffset >= 120_000 && 10 * p.viewOffset >= p.duration && find(p.path) == Present(Published(true, p.at, x))
  }

  // A playback the pass cannot deal with: long enough and its lookup failed, or of a published episode that is no
  // frontier at all or at its show's frontier while the listings for the search did not come.
  ghost predicate Fails(rules: Rules, q: Queue, find: string -> Lookup, pages: string -> Pages, moves: seq<Move>, p: Playback, observedAfter: int)
  {
    || (p.viewOffset >= 120_000 && 10 * p.viewOffset >= p.duration && find(p.path) == Failed)
    || exists x :: Counts(p, find, x) && (ValidFrontier(rules, ShowKey(p), x, p.at) ==>
                     AtFrontier(q, ShowKey(p), x, p.at, observedAfter) && Unmoved(moves, p.show) && Unanswered(Fetched(pages(p.show)), p.at))
  }

  lemma StopsIffFails(rules: Rules, q: Queue, before: Outcome, find: string -> Lookup, pages: string -> Pages, p: Playback, observedAfter: int)
    requires Tracks(q, before, observedAfter)
    ensures Stops(rules, before.queue, find, pages, p, observedAfter) <==> Fails(rules, q, find, pages, before.moves, p, observedAfter)
  {
    hide AtFrontier, ValidFrontier, Unanswered, Fetched, Unmoved;
    if Plays(find, p) { assert Counts(p, find, find(p.path).item.objectID); }
  }

  // A pass fails exactly when some playback does whose show it has not moved.
  lemma FailsExactly(rules: Rules, q: Queue, playbacks: seq<Playback>, find: string -> Lookup, pages: string -> Pages, observedAfter: int, now: int)
    ensures var after := Handle(rules, q, playbacks, find, pages, observedAfter, now);
            !after.ok <==> exists i :: 0 <= i < |playbacks| && Fails(rules, q, find, pages, after.moves, playbacks[i], observedAfter)
  {
    hide Handle, Stops, Fails, Moves, Advance, Tracks;
    var after := Handle(rules, q, playbacks, find, pages, observedAfter, now);
    if after.ok {
      forall i | 0 <= i < |playbacks| ensures !Fails(rules, q, find, pages, after.moves, playbacks[i], observedAfter) {
        NoneFails(rules, q, playbacks, i, find, pages, observedAfter, now);
      }
    } else {
      var i := FirstStop(rules, q, playbacks, find, pages, observedAfter, now);
    }
  }

  lemma NoneFails(rules: Rules, q: Queue, playbacks: seq<Playback>, i: nat, find: string -> Lookup, pages: string -> Pages, observedAfter: int, now: int)
    requires i < |playbacks| && Handle(rules, q, playbacks, find, pages, observedAfter, now).ok
    ensures !Fails(rules, q, find, pages, Handle(rules, q, playbacks, find, pages, observedAfter, now).moves, playbacks[i], observedAfter)
  {
    hide Handle, Stops, Moves, Advance, Tracks, ValidFrontier, AtFrontier, Unanswered, Fetched, Counts, Unmoved;
    var moves := Handle(rules, q, playbacks, find, pages, observedAfter, now).moves;
    var before := Handle(rules, q, playbacks[..i], find, pages, observedAfter, now);
    StillGoing(rules, q, playbacks, i, find, pages, observedAfter, now);
    StillGoing(rules, q, playbacks, i + 1, find, pages, observedAfter, now);
    HandleNext(rules, q, playbacks, i, find, pages, observedAfter, now);
    HandleTracks(rules, q, playbacks, i, find, pages, observedAfter, now);
    StopsIffFails(rules, q, before, find, pages, playbacks[i], observedAfter);
    if Unmoved(moves, playbacks[i].show) { MovesGrow(rules, q, playbacks, i, find, pages, observedAfter, now, playbacks[i].show); }
  }

  lemma StillGoing(rules: Rules, q: Queue, playbacks: seq<Playback>, n: nat, find: string -> Lookup, pages: string -> Pages, observedAfter: int, now: int)
    requires n <= |playbacks| && Handle(rules, q, playbacks, find, pages, observedAfter, now).ok
    ensures Handle(rules, q, playbacks[..n], find, pages, observedAfter, now).ok
  {
    if !Handle(rules, q, playbacks[..n], find, pages, observedAfter, now).ok {
      HandleStopped(rules, q, playbacks, n, find, pages, observedAfter, now);
    }
  }

  lemma {:induction false} FirstStop(rules: Rules, q: Queue, playbacks: seq<Playback>, find: string -> Lookup, pages: string -> Pages, observedAfter: int, now: int)
    returns (i: nat)
    requires !Handle(rules, q, playbacks, find, pages, observedAfter, now).ok
    ensures i < |playbacks|
    ensures Fails(rules, q, find, pages, Handle(rules, q, playbacks, find, pages, observedAfter, now).moves, playbacks[i], observedAfter)
    decreases |playbacks|
  {
    hide Handle, Stops, Fails, Moves, Advance, Tracks;
    HandleNone(rules, q, find, pages, observedAfter, now);
    var n := |playbacks| - 1;
    assert playbacks[..n + 1] == playbacks;
    HandleNext(rules, q, playbacks, n, find, pages, observedAfter, now);
    var before := Handle(rules, q, playbacks[..n], find, pages, observedAfter, now);
    if before.ok {
      HandleTracks(rules, q, playbacks, n, find, pages, observedAfter, now);
      StopsIffFails(rules, q, before, find, pages, playbacks[n], observedAfter);
      i := n;
    } else {
      i := FirstStop(rules, q, playbacks[..n], find, pages, observedAfter, now);
    }
  }

  // A pass without an error leaves no show behind: whoever plays the published episode of a frontier, with a later one
  // listed, does so no longer at the frontier.
  lemma EveryPlaybackHandled(rules: Rules, q: Queue, playbacks: seq<Playback>, find: string -> Lookup, pages: string -> Pages, observedAfter: int, now: int, p: Playback, x: string, later: Coord)
    requires Handle(rules, q, playbacks, find, pages, observedAfter, now).ok
    requires p in playbacks && Counts(p, find, x)
    requires Listed(Fetched(pages(p.show)), p.at) && Listed(Fetched(pages(p.show)), later) && Later(later, p.at)
    ensures !AtFrontier(Handle(rules, q, playbacks, find, pages, observedAfter, now).queue, ShowKey(p), x, p.at, observedAfter)
  {
    hide Handle, Stops, Advance, AtFrontier, Listed, Fetched, Successor, Advances, ValidFrontier;
    var after := Handle(rules, q, playbacks, find, pages, observedAfter, now);
    var i :| 0 <= i < |playbacks| && playbacks[i] == p;
    var before := Handle(rules, q, playbacks[..i], find, pages, observedAfter, now);
    StillGoing(rules, q, playbacks, i, find, pages, observedAfter, now);
    StillGoing(rules, q, playbacks, i + 1, find, pages, observedAfter, now);
    HandleNext(rules, q, playbacks, i, find, pages, observedAfter, now);
    HandleTracks(rules, q, playbacks, i, find, pages, observedAfter, now);
    HandleTracks(rules, q, playbacks, |playbacks|, find, pages, observedAfter, now);
    assert playbacks[..|playbacks|] == playbacks;
    var next := SuccessorExists(Fetched(pages(p.show)), p.at, later);
    if AtFrontier(before.queue, ShowKey(p), x, p.at, observedAfter) {
      assert Moves(before.queue, find, pages, p, next, observedAfter);
      HandleMoved(rules, q, playbacks, i, find, pages, next, observedAfter, now);
      UnmovedNext(before.moves, Move(p, x, next), p.show);
      if Unmoved(after.moves, p.show) { MovesGrow(rules, q, playbacks, i + 1, find, pages, observedAfter, now, p.show); }
    } else if Unmoved(after.moves, p.show) {
      MovesGrow(rules, q, playbacks, i, find, pages, observedAfter, now, p.show);
    }
  }
}
