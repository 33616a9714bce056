/**
 The watchlist queue with the playback worker as its only mover: every run of
 syncs, claims, completions and worker passes is a run of the queue, and every
 move it logs went to the next listed episode.
 */
module WatchPlayback {
  import opened Options
  import opened WatchModel
  import opened WatchRepository
  import opened WatchRuns
  import opened WatchTheorems
  import opened PlexMetadata
  import opened PlaybackAdvance

  // One pass of the worker: what it saw, the lists the metadata server holds, and the moves it made.
  datatype Action =
    | Do(event: WatchRuns.Event)
    | Pass(playbacks: seq<Playback>, find: string -> Lookup, pages: string -> Pages, server: string -> Server, moves: seq<PlaybackAdvance.Move>, now: nat, pollInterval: int)

  function TruthOf(server: string -> Server): string -> Listing { show => Truth(server(show)) }

  function EventOf(m: PlaybackAdvance.Move, observedAfter: int, now: nat): WatchRuns.Event
  {
    WatchRuns.Move(ShowKey(m.playback), m.objectID, m.playback.at, m.next, observedAfter, now)
  }

  function EventsOf(moves: seq<PlaybackAdvance.Move>, observedAfter: int, now: nat): seq<WatchRuns.Event>
  {
    seq(|moves|, i requires 0 <= i < |moves| => EventOf(moves[i], observedAfter, now))
  }

  // A log entry is the trace of a move.
  predicate TraceOf(e: LogEntry, m: PlaybackAdvance.Move)
  {
    e == Moved(ShowKey(m.playback), m.playback.at, m.next, m.objectID)
  }

  ghost predicate Traced(e: LogEntry, moves: seq<PlaybackAdvance.Move>) { exists m :: m in moves && TraceOf(e, m) }

  // The log grew by traces of the moves alone.
  ghost predicate Grown(log: seq<LogEntry>, log': seq<LogEntry>, moves: seq<PlaybackAdvance.Move>)
  {
    && |log| <= |log'| && log'[..|log|] == log
    && forall i | |log| <= i < |log'| :: Traced(log'[i], moves)
  }

  // The moves of a pass run on the queue: same rows as replaying them, and each logged entry is the trace of one.
  lemma {:induction false} PassIsRun(w: World, s: System, moves: seq<PlaybackAdvance.Move>, observedAfter: int, now: nat)
    requires now >= s.clock
    ensures Exec(w, s, EventsOf(moves, observedAfter, now)).Some?
    ensures var s' := Exec(w, s, EventsOf(moves, observedAfter, now)).value;
            s'.q == Replay(w.rules, s.q, moves, observedAfter, now) && s'.clock <= now && Grown(s.log, s'.log, moves)
    decreases |moves|
  {
    hide Exec, Grown, Advance, Advances;
    if moves == [] {
      NothingHappens(w, s);
      assert EventsOf(moves, observedAfter, now) == [];
    } else {
      var head, m := moves[..|moves| - 1], moves[|moves| - 1];
      PassIsRun(w, s, head, observedAfter, now);
      var first := EventsOf(head, observedAfter, now);
      var mid := Exec(w, s, first).value;
      var e := EventOf(m, observedAfter, now);
      assert EventsOf(moves, observedAfter, now) == first + [e];
      ExecConcat(w, s, first, [e]);
      OneEvent(w, mid, e);
      MoveTrace(w, s.log, mid, head, m, observedAfter, now);
      assert moves == head + [m];
    }
  }

  lemma NothingHappens(w: World, s: System)
    ensures Exec(w, s, []) == Some(s) && Grown(s.log, s.log, [])
  {
  }

  lemma OneEvent(w: World, s: System, e: WatchRuns.Event)
    requires Enabled(w, s, e)
    ensures Exec(w, s, [e]) == Some(Step(w, s, e))
  {
    assert [e][1..] == [];
  }

  // One more move adds at most its own trace.
  lemma MoveTrace(w: World, log: seq<LogEntry>, mid: System, head: seq<PlaybackAdvance.Move>, m: PlaybackAdvance.Move, observedAfter: int, now: nat)
    requires Grown(log, mid.log, head)
    ensures var s' := MoveStep(w, mid, EventOf(m, observedAfter, now));
            && Grown(log, s'.log, head + [m]) && s'.clock == now
            && s'.q == Advance(w.rules, mid.q, ShowKey(m.playback), m.objectID, m.playback.at, m.next, observedAfter, now)
  {
    hide Advances;
    var s' := MoveStep(w, mid, EventOf(m, observedAfter, now));
    forall i | |log| <= i < |s'.log| ensures Traced(s'.log[i], head + [m]) {
      if i < |mid.log| {
        assert Traced(mid.log[i], head);
        var x :| x in head && TraceOf(mid.log[i], x);
        assert x in head + [m] && TraceOf(s'.log[i], x);
      } else {
        assert m in head + [m] && TraceOf(s'.log[i], m);
      }
    }
  }

  /******* Runs with the worker *******/

  // A pass is possible if its pages are true to the server and it is what Process promises; nothing else moves a
  // frontier.
  ghost predicate Possible(w: World, s: System, a: Action)
  {
    match a
    case Do(e) => !e.Move? && Enabled(w, s, e)
    case Pass(playbacks, find, pages, server, moves, now, pollInterval) =>
      && now >= s.clock && (forall show :: Serves(pages(show), server(show)))
      && var after := Handle(w.rules, s.q, playbacks, find, pages, now - 2 * pollInterval, now);
         moves == after.moves && Passed(w.rules, s.q, after.queue, playbacks, find, TruthOf(server), moves, now, pollInterval)
  }

  function Events(a: Action): seq<WatchRuns.Event>
  {
    match a
    case Do(e) => [e]
    case Pass(_, _, _, _, moves, now, pollInterval) => EventsOf(moves, Cutoff(now, pollInterval), now)
  }

  ghost function Play(w: World, s: System, actions: seq<Action>): Option<System>
  {
    if actions == [] then Some(s)
    else
      match Play(w, s, actions[..|actions| - 1])
      case None => None
      case Some(mid) => if Possible(w, mid, actions[|actions| - 1]) then Exec(w, mid, Events(actions[|actions| - 1])) else None
  }

  // Some pass of the run made the move, and the next episode the server lists for the show was where it went.
  ghost predicate Sanctioned(actions: seq<Action>, e: LogEntry)
  {
    exists a, m :: a in actions && a.Pass? && m in a.moves && TraceOf(e, m) && Justified(a.playbacks, a.find, TruthOf(a.server), m)
  }

  ghost predicate AllSanctioned(actions: seq<Action>, log: seq<LogEntry>)
  {
    forall i | 0 <= i < |log| && log[i].Moved? :: Sanctioned(actions, log[i])
  }

  lemma {:induction false} PlayIsRun(w: World, actions: seq<Action>) returns (events: seq<WatchRuns.Event>)
    requires Play(w, Empty, actions).Some?
    ensures Exec(w, Empty, events) == Play(w, Empty, actions)
    ensures AllSanctioned(actions, Play(w, Empty, actions).value.log)
  {
    hide Possible, Exec, Step, Enabled, AllSanctioned, Events;
    events := [];
    NothingHappens(w, Empty);
    NoneSanctioned();
    if actions != [] {
      var head, a := actions[..|actions| - 1], actions[|actions| - 1];
      var before := PlayIsRun(w, head);
      var mid := Play(w, Empty, head).value;
      ExecConcat(w, Empty, before, Events(a));
      events := before + Events(a);
      StillSanctioned(head, a, mid.log);
      assert actions == head + [a];
      ActionSanctioned(w, mid, actions, a);
    }
  }

  lemma NoneSanctioned()
    ensures AllSanctioned([], [])
  {
  }

  lemma StillSanctioned(head: seq<Action>, a: Action, log: seq<LogEntry>)
    requires AllSanctioned(head, log)
    ensures AllSanctioned(head + [a], log)
  {
    hide Justified;
    forall i | 0 <= i < |log| && log[i].Moved? ensures Sanctioned(head + [a], log[i]) {
      assert Sanctioned(head, log[i]);
      var b, m :| b in head && b.Pass? && m in b.moves && TraceOf(log[i], m) && Justified(b.playbacks, b.find, TruthOf(b.server), m);
      assert b in head + [a];
    }
  }

  lemma ActionSanctioned(w: World, s: System, actions: seq<Action>, a: Action)
    requires AllSanctioned(actions, s.log) && a in actions && Possible(w, s, a) && Exec(w, s, Events(a)).Some?
    ensures AllSanctioned(actions, Exec(w, s, Events(a)).value.log)
  {
    hide Justified;
    if a.Do? {
      OneEvent(w, s, a.event);
      NoNewMoves(w, s, a.event);
    } else {
      PassIsRun(w, s, a.moves, Cutoff(a.now, a.pollInterval), a.now);
      var log := Exec(w, s, Events(a)).value.log;
      forall i | 0 <= i < |log| && log[i].Moved? ensures Sanctioned(actions, log[i]) {
        if i < |s.log| {
          assert log[i] == log[..|s.log|][i] == s.log[i];
        } else {
          assert Traced(log[i], a.moves);
          var m :| m in a.moves && TraceOf(log[i], m);
          assert Justified(a.playbacks, a.find, TruthOf(a.server), m);
        }
      }
    }
  }

  lemma NoNewMoves(w: World, s: System, e: WatchRuns.Event)
    requires Enabled(w, s, e) && !e.Move?
    ensures var log := Step(w, s, e).log;
            |s.log| <= |log| && log[..|s.log|] == s.log && forall i | |s.log| <= i < |log| :: !log[i].Moved?
  {
    hide Accepts, FirstInLine, Upsert;
  }

  // A show stands at (0, 0) forever, or where its moves from (1, 1) have led; each move left the episode it stood at
  // for the next one the server lists, after a qualifying playback of the published file.
  lemma FrontierFollowsListing(w: World, actions: seq<Action>, k: Key)
    requires Play(w, Empty, actions).Some? && k in Play(w, Empty, actions).value.q.rows && w.kind(k) == Show
    ensures var s := Play(w, Empty, actions).value;
            && s.q.rows[k].intent == (if s.q.rows[k].autoEligible then Frontier(s.log, k) else NoEpisode)
            && forall i | 0 <= i < |s.log| && s.log[i].Moved? :: s.log[i].at == Frontier(s.log[..i], s.log[i].key) && Sanctioned(actions, s.log[i])
  {
    hide Play, Exec, Sanctioned, Frontier;
    var events := PlayIsRun(w, actions);
    ShowIntent(w, Play(w, Empty, actions).value, k);
  }

  // A pass in a run leaves what handling its playbacks one after another leaves.
  lemma PassHandles(w: World, s: System, a: Action)
    requires a.Pass? && Possible(w, s, a)
    ensures Exec(w, s, Events(a)).Some?
    ensures Exec(w, s, Events(a)).value.q == Handle(w.rules, s.q, a.playbacks, a.find, a.pages, a.now - 2 * a.pollInterval, a.now).queue
  {
    hide Exec, Handle, Justified, Serves;
    PassIsRun(w, s, a.moves, Cutoff(a.now, a.pollInterval), a.now);
  }

  // What the worker does on a queue is such a pass, and the run it is leads to the queue it leaves.
  method ServerPass(queue: Repository, playbacks: seq<Playback>, find: string -> Lookup, pages: string -> Pages, ghost server: string -> Server, now: nat, pollInterval: int)
    returns (count: nat, ghost pass: Action)
    requires forall show :: Serves(pages(show), server(show))
    modifies queue`rows
    ensures pass.Pass? && |pass.moves| == count && pass.server == server && pass.now == now
    ensures forall w: World, s: System | w.rules == queue.rules && s.q == old(queue.View()) && now >= s.clock ::
              Possible(w, s, pass) && Exec(w, s, Events(pass)).Some? && Exec(w, s, Events(pass)).value.q == queue.View()
  {
    hide Exec, Serves, Agrees, Justified, Handle;
    forall show ensures Agrees(Fetched(pages(show)), TruthOf(server)(show)) { FetchedIsTrue(pages(show), server(show)); }
    var ok: bool;
    ghost var moves: seq<PlaybackAdvance.Move>;
    count, ok, moves := Process(queue, playbacks, find, pages, TruthOf(server), now, pollInterval);
    pass := Pass(playbacks, find, pages, server, moves, now, pollInterval);
    forall w: World, s: System | w.rules == queue.rules && s.q == old(queue.View()) && now >= s.clock
      ensures Possible(w, s, pass) && Exec(w, s, Events(pass)).Some? && Exec(w, s, Events(pass)).value.q == queue.View()
    {
      PassIsRun(w, s, moves, Cutoff(now, pollInterval), now);
    }
  }
}
