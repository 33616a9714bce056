/**
 Stable NFS handles: a bounded table from handles to snapshots, kept in
 recency order. A handle is the hash of an identity; the hash is taken to be
 injective, so handles are the identities themselves.
 */
module Handles {
  import opened Options
  import opened Sorting
  import opened Namespace

  const HandleCacheSize := 4096

  // PathID: an entry reached through a snapshot. DirectoryID, FileID: entries of the live filesystem.
  datatype Handle =
    | PathID(path: Path)
    | DirectoryID(path: Path)
    | FileID(id: string, path: Path, size: int, provider: string, objectID: string)

  // The live filesystem, or one frozen with the entries and catalog of a generation.
  datatype Fs = Live | Frozen(entries: Entries, catalog: Catalog)

  datatype Target = Target(fs: Fs, path: Path)

  function FileHandle(m: Media): Handle { FileID(m.id, PathOf(m.parts), m.size, m.provider, m.objectID) }

  // handleSnapshot: what a handle to a live path freezes and is called.
  function LiveHandle(entries: Entries, p: Path): Handle
  {
    if p in entries && entries[p].media.Some? then FileHandle(entries[p].media.value) else DirectoryID(p)
  }

  function LiveTarget(entries: Entries, catalog: Catalog, p: Path): Target
  {
    Target(if p in entries && entries[p].media.Some? then Frozen(entries, catalog) else Live, p)
  }

  /******* The table *******/

  // handles and positions are maps, recency the list they index, least recent first.
  datatype Table = Table(handles: map<Handle, Target>, recency: seq<Handle>)

  ghost predicate TableOk(t: Table)
  {
    && Distinct(t.recency) && |t.recency| <= HandleCacheSize
    && forall h :: h in t.handles <==> h in t.recency
  }

  function Without(s: seq<Handle>, h: Handle): (r: seq<Handle>)
    ensures forall x :: x in r <==> x in s && x != h
  {
    if s == [] then [] else (if s[0] == h then [] else [s[0]]) + Without(s[1..], h)
  }

  function Touched(s: seq<Handle>, h: Handle): seq<Handle> { Without(s, h) + [h] }

  lemma {:induction false} WithoutDistinct(s: seq<Handle>, h: Handle)
    requires Distinct(s)
    ensures Distinct(Without(s, h)) && |Without(s, h)| == |s| - (if h in s then 1 else 0)
  {
    if s != [] {
      var rest := s[1..];
      assert s == [s[0]] + rest;
      forall i, j | 0 <= i < j < |rest| ensures rest[i] != rest[j] { assert s[i + 1] != s[j + 1]; }
      assert s[0] !in rest by { forall j | 0 <= j < |rest| ensures rest[j] != s[0] { assert s[0] != s[j + 1]; } }
      WithoutDistinct(rest, h);
    }
  }

  // Drop the front while the table is over its size.
  function Trimmed(t: Table): Table
    decreases |t.recency|
  {
    if |t.recency| > HandleCacheSize then Trimmed(Table(t.handles - {t.recency[0]}, t.recency[1..])) else t
  }

  function Issued(t: Table, h: Handle, target: Target): Table
  {
    Trimmed(Table(t.handles[h := target], Touched(t.recency, h)))
  }

  // The same keys in both, each listed once.
  ghost predicate Matching(t: Table) { Distinct(t.recency) && forall h :: h in t.handles <==> h in t.recency }

  lemma FrontOnly(s: seq<Handle>)
    requires Distinct(s) && s != []
    ensures Distinct(s[1..]) && s[0] !in s[1..] && forall x :: x in s <==> x == s[0] || x in s[1..]
  {
    assert s == [s[0]] + s[1..];
    forall j | 0 <= j < |s[1..]| ensures s[1..][j] != s[0] { assert s[j + 1] != s[0]; }
  }

  lemma TouchedMatching(t: Table, h: Handle, target: Target)
    requires Matching(t)
    ensures Matching(Table(t.handles[h := target], Touched(t.recency, h)))
    ensures |Touched(t.recency, h)| == |t.recency| + (if h in t.handles then 0 else 1)
  {
    WithoutDistinct(t.recency, h);
  }

  // One entry over the size: the front goes, the back stays.
  lemma TrimOne(t: Table)
    requires Matching(t) && 0 < |t.recency| <= HandleCacheSize + 1
    ensures TableOk(Trimmed(t)) && t.recency[|t.recency| - 1] in Trimmed(t).handles
    ensures forall x | x in Trimmed(t).handles :: x in t.handles && Trimmed(t).handles[x] == t.handles[x]
    ensures Trimmed(t).recency == t.recency[if |t.recency| > HandleCacheSize then 1 else 0..]
  {
    if |t.recency| > HandleCacheSize {
      FrontOnly(t.recency);
      assert t.recency[|t.recency| - 1] == t.recency[1..][|t.recency| - 2];
    }
  }

  lemma IssuedOk(t: Table, h: Handle, target: Target)
    requires TableOk(t)
    ensures TableOk(Issued(t, h, target)) && h in Issued(t, h, target).handles && Issued(t, h, target).handles[h] == target
    ensures forall x | x in Issued(t, h, target).handles && x != h :: x in t.handles && Issued(t, h, target).handles[x] == t.handles[x]
  {
    hide Trimmed, Distinct;
    TouchedMatching(t, h, target);
    TrimOne(Table(t.handles[h := target], Touched(t.recency, h)));
  }

  /******* What handles mean *******/

  // The file a target shows.
  function FileAt(target: Target): Option<Media>
  {
    if target.fs.Frozen? && target.path in target.fs.entries then target.fs.entries[target.path].media else None
  }

  // A file handle leads to a snapshot whose entry has the handle's id, path, size and backing.
  ghost predicate FilesStable(t: Table)
  {
    forall h | h in t.handles && h.FileID? ::
      t.handles[h].path == h.path && FileAt(t.handles[h]).Some? && FileHandle(FileAt(t.handles[h]).value) == h
  }

  // Files sit at their own paths.
  ghost predicate Placed(entries: Entries)
  {
    forall p | p in entries && entries[p].media.Some? :: p == PathOf(entries[p].media.value.parts)
  }

  // What the handler knows: the live namespace with its catalog, and the table.
  datatype State = State(entries: Entries, catalog: Catalog, table: Table)

  // A snapshot reaches ToHandle through a handle that resolves to it.
  datatype Event =
    | IssueLive(path: Path)
    | IssueFrozen(through: Handle, path: Path)
    | Resolve(handle: Handle)
    | Replace(items: seq<Media>, entries: Entries, catalog: Catalog)

  function Register(s: State, p: Path): State
  {
    s.(table := Issued(s.table, LiveHandle(s.entries, p), LiveTarget(s.entries, s.catalog, p)))
  }

  // Only resolved handles move to the back.
  function Resolved(t: Table, h: Handle): Table { if h in t.handles then t.(recency := Touched(t.recency, h)) else t }

  ghost predicate Enabled(s: State, e: Event)
  {
    match e
    case IssueLive(_) => true
    case IssueFrozen(h, _) => h in s.table.handles && s.table.handles[h].fs.Frozen?
    case Resolve(_) => true
    case Replace(items, entries, _) => Shows(entries, items)
  }

  ghost function Step(s: State, e: Event): State
    requires Enabled(s, e)
  {
    match e
    case IssueLive(p) => Register(s, p)
    case IssueFrozen(h, p) => s.(table := Issued(s.table, PathID(p), Target(s.table.handles[h].fs, p)))
    case Resolve(h) => s.(table := Resolved(s.table, h))
    case Replace(_, entries, catalog) => s.(entries := entries, catalog := catalog)
  }

  ghost function Exec(s: State, events: seq<Event>): Option<State>
  {
    if events == [] then Some(s)
    else
      match Exec(s, events[..|events| - 1])
      case None => None
      case Some(mid) => if Enabled(mid, events[|events| - 1]) then Some(Step(mid, events[|events| - 1])) else None
  }

  // A handler that has just started on a namespace built from items.
  ghost predicate Starts(s: State) { s.table == Table(map[], []) && exists items :: Shows(s.entries, items) }

  ghost predicate Inv(s: State) { TableOk(s.table) && FilesStable(s.table) && Placed(s.entries) }

  lemma ShownArePlaced(entries: Entries, items: seq<Media>)
    requires Shows(entries, items)
    ensures Placed(entries)
  {
    hide Tree;
  }

  lemma ResolvedOk(t: Table, h: Handle)
    requires TableOk(t)
    ensures TableOk(Resolved(t, h)) && Resolved(t, h).handles == t.handles
  {
    WithoutDistinct(t.recency, h);
  }

  lemma StepKeeps(s: State, e: Event)
    requires Inv(s) && Enabled(s, e)
    ensures Inv(Step(s, e))
  {
    hide TableOk, Issued, Shows;
    match e
    case IssueLive(p) => IssuedOk(s.table, LiveHandle(s.entries, p), LiveTarget(s.entries, s.catalog, p));
    case IssueFrozen(h, p) => IssuedOk(s.table, PathID(p), Target(s.table.handles[h].fs, p));
    case Resolve(h) => ResolvedOk(s.table, h);
    case Replace(items, entries, _) => ShownArePlaced(entries, items);
  }

  lemma {:induction false} AlwaysInv(s: State, events: seq<Event>)
    requires Starts(s) && Exec(s, events).Some?
    ensures Inv(Exec(s, events).value)
  {
    hide Inv, Enabled, Step, Shows;
    if events == [] {
      StartInv(s);
    } else {
      AlwaysInv(s, events[..|events| - 1]);
      StepKeeps(Exec(s, events[..|events| - 1]).value, events[|events| - 1]);
    }
  }

  lemma StartInv(s: State)
    requires Starts(s)
    ensures Inv(s)
  {
    hide Shows;
    var items :| Shows(s.entries, items);
    ShownArePlaced(s.entries, items);
  }

  // From a fresh handler, after any number of replacements, a file handle still in the table means the file it names.
  lemma HandlesStable(s: State, events: seq<Event>, h: Handle)
    requires Starts(s) && Exec(s, events).Some? && h.FileID? && h in Exec(s, events).value.table.handles
    ensures var target := Exec(s, events).value.table.handles[h];
            && target.path == h.path && target.fs.Frozen? && h.path in target.fs.entries && target.fs.entries[h.path].media.Some?
            && var file := target.fs.entries[h.path].media.value;
               file.id == h.id && PathOf(file.parts) == h.path && file.size == h.size && file.provider == h.provider && file.objectID == h.objectID
  {
    hide Starts, Exec, TableOk, Placed;
    AlwaysInv(s, events);
  }

  /******* Handles issued through snapshots *******/

  // The file a snapshot shows at the path it is asked to name.
  ghost function ShownBy(s: State, e: Event): Option<Media>
    requires Enabled(s, e) && e.IssueFrozen?
  {
    FileAt(Target(s.table.handles[e.through].fs, e.path))
  }

  ghost predicate Names(t: Table, p: Path, file: Option<Media>) { PathID(p) in t.handles ==> FileAt(t.handles[PathID(p)]) == file }

  // Only an issue of its own path changes what a path handle shows; that issue shows its own file.
  lemma StepNames(s: State, e: Event, p: Path, file: Option<Media>)
    requires Inv(s) && Enabled(s, e)
    ensures e.IssueFrozen? && e.path == p ==>
              PathID(p) in Step(s, e).table.handles && FileAt(Step(s, e).table.handles[PathID(p)]) == ShownBy(s, e)
    ensures !(e.IssueFrozen? && e.path == p) && Names(s.table, p, file) ==> Names(Step(s, e).table, p, file)
  {
    hide TableOk, Issued, Shows, FilesStable;
    match e
    case IssueLive(q) => IssuedOk(s.table, LiveHandle(s.entries, q), LiveTarget(s.entries, s.catalog, q));
    case IssueFrozen(h, q) => IssuedOk(s.table, PathID(q), Target(s.table.handles[h].fs, q));
    case Resolve(h) => ResolvedOk(s.table, h);
    case Replace(_, _, _) =>
  }

  // At every moment of the run the path's handle, if in the table, shows the file.
  ghost predicate KeepsFile(s: State, events: seq<Event>, p: Path, file: Option<Media>)
  {
    forall n | 0 <= n <= |events| :: Exec(s, events[..n]).Some? && Names(Exec(s, events[..n]).value.table, p, file)
  }

  // Every snapshot that was asked to name the path showed the file there.
  ghost predicate AlwaysShown(s: State, events: seq<Event>, p: Path, file: Option<Media>)
  {
    forall n | 0 <= n < |events| && events[n].IssueFrozen? && events[n].path == p ::
      Exec(s, events[..n]).Some? && Enabled(Exec(s, events[..n]).value, events[n]) && ShownBy(Exec(s, events[..n]).value, events[n]) == file
  }

  lemma {:induction false} PrefixRuns(s: State, events: seq<Event>, n: nat)
    requires Exec(s, events).Some? && n <= |events|
    ensures Exec(s, events[..n]).Some?
    ensures n < |events| ==> Enabled(Exec(s, events[..n]).value, events[n]) &&
                             Exec(s, events[..n + 1]) == Some(Step(Exec(s, events[..n]).value, events[n]))
    decreases |events|
  {
    hide Enabled, Step;
    if n == |events| {
      assert events[..n] == events;
    } else {
      var head := events[..|events| - 1];
      assert head[..n] == events[..n];
      PrefixRuns(s, head, n);
      if n + 1 < |events| { assert head[..n + 1] == events[..n + 1]; }
      else { assert events[..n + 1] == events && events[..n] == head; }
    }
  }

  // A path handle keeps its file over a whole run exactly when every snapshot asked to name the path shows that file.
  lemma PathHandleStableIff(s: State, events: seq<Event>, p: Path, file: Option<Media>)
    requires Starts(s) && Exec(s, events).Some?
    ensures KeepsFile(s, events, p, file) <==> AlwaysShown(s, events, p, file)
  {
    hide Starts, Exec, Enabled, Step, ShownBy, Names, Inv;
    if KeepsFile(s, events, p, file) {
      forall n | 0 <= n < |events| && events[n].IssueFrozen? && events[n].path == p
        ensures Exec(s, events[..n]).Some? && Enabled(Exec(s, events[..n]).value, events[n]) && ShownBy(Exec(s, events[..n]).value, events[n]) == file
      {
        PrefixRuns(s, events, n);
        AlwaysInv(s, events[..n]);
        StepNames(Exec(s, events[..n]).value, events[n], p, file);
        assert Names(Exec(s, events[..n + 1]).value.table, p, file);
        NamesNow(Exec(s, events[..n + 1]).value.table, p, file);
      }
    }
    if AlwaysShown(s, events, p, file) {
      forall n | 0 <= n <= |events| ensures Exec(s, events[..n]).Some? && Names(Exec(s, events[..n]).value.table, p, file) {
        ShownThenKept(s, events, p, file, n);
      }
    }
  }

  lemma NamesNow(t: Table, p: Path, file: Option<Media>)
    requires Names(t, p, file) && PathID(p) in t.handles
    ensures FileAt(t.handles[PathID(p)]) == file
  {
  }

  lemma {:induction false} ShownThenKept(s: State, events: seq<Event>, p: Path, file: Option<Media>, n: nat)
    requires Starts(s) && Exec(s, events).Some? && AlwaysShown(s, events, p, file) && n <= |events|
    ensures Exec(s, events[..n]).Some? && Names(Exec(s, events[..n]).value.table, p, file)
    decreases n
  {
    hide Enabled, Step, ShownBy, Inv, Shows;
    PrefixRuns(s, events, n);
    if n > 0 {
      ShownThenKept(s, events, p, file, n - 1);
      PrefixRuns(s, events, n - 1);
      AlwaysInv(s, events[..n - 1]);
      StepNames(Exec(s, events[..n - 1]).value, events[n - 1], p, file);
    }
  }

  /******* Registering the current namespace *******/

  function Registered(s: State, paths: seq<Path>): State
  {
    if paths == [] then s else Register(Registered(s, paths[..|paths| - 1]), paths[|paths| - 1])
  }

  ghost predicate EndsWith(s: seq<Handle>, tail: seq<Handle>) { |tail| <= |s| && s[|s| - |tail|..] == tail }

  lemma {:induction false} WithoutAppend(a: seq<Handle>, b: seq<Handle>, h: Handle)
    requires h !in b
    ensures Without(a + b, h) == Without(a, h) + b
  {
    if a == [] {
      assert a + b == b;
      WithoutNone(b, h);
    } else {
      assert (a + b)[1..] == a[1..] + b;
      WithoutAppend(a[1..], b, h);
    }
  }

  lemma {:induction false} WithoutNone(s: seq<Handle>, h: Handle)
    requires h !in s
    ensures Without(s, h) == s
  {
    if s != [] { WithoutNone(s[1..], h); }
  }

  lemma IssuedTail(t: Table, h: Handle, target: Target, done: seq<Handle>)
    requires TableOk(t) && EndsWith(t.recency, done) && h !in done && |done| < HandleCacheSize
    ensures EndsWith(Issued(t, h, target).recency, done + [h])
  {
    hide Trimmed, Distinct, Touched, EndsWith;
    TouchedMatching(t, h, target);
    TrimOne(Table(t.handles[h := target], Touched(t.recency, h)));
    TouchedTail(t.recency, h, done);
    ShorterTail(Touched(t.recency, h), done + [h]);
    assert Touched(t.recency, h)[0..] == Touched(t.recency, h);
  }

  lemma TouchedTail(s: seq<Handle>, h: Handle, done: seq<Handle>)
    requires EndsWith(s, done) && h !in done
    ensures EndsWith(Touched(s, h), done + [h])
  {
    var front := s[..|s| - |done|];
    assert s == front + done;
    WithoutAppend(front, done, h);
    assert Touched(s, h) == Without(front, h) + (done + [h]);
  }

  lemma ShorterTail(s: seq<Handle>, tail: seq<Handle>)
    requires EndsWith(s, tail)
    ensures |tail| < |s| ==> EndsWith(s[1..], tail)
  {
  }

  function LiveHandles(entries: Entries, paths: seq<Path>): seq<Handle>
  {
    seq(|paths|, i requires 0 <= i < |paths| => LiveHandle(entries, paths[i]))
  }

  // The paths just registered are the most recent entries of the table, with fresh targets.
  ghost predicate FreshTail(s: State, paths: seq<Path>)
  {
    && EndsWith(s.table.recency, LiveHandles(s.entries, paths))
    && forall p | p in paths :: LiveHandle(s.entries, p) in s.table.handles &&
                                s.table.handles[LiveHandle(s.entries, p)] == LiveTarget(s.entries, s.catalog, p)
  }

  lemma LiveHandleInjective(entries: Entries, p: Path, q: Path)
    requires Placed(entries) && LiveHandle(entries, p) == LiveHandle(entries, q)
    ensures p == q
  {
  }

  lemma {:induction false} RegisteredFresh(s: State, paths: seq<Path>)
    requires TableOk(s.table) && Placed(s.entries) && Distinct(paths) && |paths| <= HandleCacheSize
    ensures var r := Registered(s, paths);
            TableOk(r.table) && r.entries == s.entries && r.catalog == s.catalog && FreshTail(r, paths)
    decreases |paths|
  {
    hide TableOk, Issued, Placed, EndsWith, LiveHandle, LiveTarget;
    if paths == [] {
      EndsEmpty(s.table.recency, LiveHandles(s.entries, paths));
    } else {
      var n := |paths| - 1;
      var head, p := paths[..n], paths[n];
      RegisteredFresh(s, head);
      var mid := Registered(s, head);
      var h, done := LiveHandle(s.entries, p), LiveHandles(s.entries, head);
      forall i | 0 <= i < n ensures LiveHandle(s.entries, paths[i]) != h {
        if LiveHandle(s.entries, paths[i]) == h { LiveHandleInjective(s.entries, paths[i], p); }
      }
      assert h !in done;
      IssuedOk(mid.table, h, LiveTarget(s.entries, s.catalog, p));
      IssuedTail(mid.table, h, LiveTarget(s.entries, s.catalog, p), done);
      StillListed(mid.table, h, LiveTarget(s.entries, s.catalog, p), done + [h]);
      assert LiveHandles(s.entries, paths) == done + [h];
      forall q | q in head ensures LiveHandle(s.entries, q) in done { var i :| 0 <= i < |head| && head[i] == q; assert done[i] in done; }
      assert paths == head + [p];
    }
  }

  lemma EndsEmpty(s: seq<Handle>, tail: seq<Handle>)
    requires tail == []
    ensures EndsWith(s, tail)
  {
  }

  // Whatever ends the recency list is in the table.
  lemma StillListed(t: Table, h: Handle, target: Target, tail: seq<Handle>)
    requires TableOk(Issued(t, h, target)) && EndsWith(Issued(t, h, target).recency, tail)
    ensures forall x | x in tail :: x in Issued(t, h, target).handles
  {
    hide Issued;
  }

  // After any run, replacing with at most 4096 entries leaves every current path's handle resolving to the new snapshot.
  lemma CurrentPathsResolve(s: State, events: seq<Event>, items: seq<Media>, entries: Entries, catalog: Catalog, paths: seq<Path>)
    requires Starts(s) && Exec(s, events).Some? && Shows(entries, items)
    requires Distinct(paths) && |paths| <= 4096 && forall p :: p in paths <==> p in entries
    ensures var r := Registered(Exec(s, events).value.(entries := entries, catalog := catalog), paths);
            && (forall p | p in entries && entries[p].media.Some? ::
                  var m := entries[p].media.value;
                  var h := FileID(m.id, PathOf(m.parts), m.size, m.provider, m.objectID);
                  h in r.table.handles && r.table.handles[h] == Target(Frozen(entries, catalog), p))
            && (forall p | p in entries && entries[p].media.None? :: DirectoryID(p) in r.table.handles && r.table.handles[DirectoryID(p)] == Target(Live, p))
  {
    hide TableOk, FilesStable, Placed, Shows, Starts, Exec;
    AlwaysInv(s, events);
    ShownArePlaced(entries, items);
    RegisteredFresh(Exec(s, events).value.(entries := entries, catalog := catalog), paths);
  }

  /******* How long a handle lasts *******/

  // At most n handles were used after it.
  ghost predicate Within(t: Table, h: Handle, n: int)
  {
    exists i :: 0 <= i < |t.recency| && t.recency[i] == h && |t.recency| - 1 - i <= n
  }

  lemma {:induction false} WithoutKeeps(s: seq<Handle>, h: Handle, x: Handle, i: nat) returns (j: nat)
    requires i < |s| && s[i] == h && h != x
    ensures j < |Without(s, x)| && Without(s, x)[j] == h && |Without(s, x)| - j <= |s| - i
  {
    assert s == s[..i] + s[i..];
    WithoutParts(s[..i], s[i..], x);
    j := |Without(s[..i], x)|;
    WithoutShorter(s[i..], x);
    assert Without(s[i..], x)[0] == h;
  }

  lemma {:induction false} WithoutParts(a: seq<Handle>, b: seq<Handle>, x: Handle)
    ensures Without(a + b, x) == Without(a, x) + Without(b, x)
  {
    if a == [] {
      assert a + b == b;
    } else {
      assert (a + b)[1..] == a[1..] + b;
      WithoutParts(a[1..], b, x);
    }
  }

  lemma {:induction false} WithoutShorter(s: seq<Handle>, x: Handle)
    ensures |Without(s, x)| <= |s|
  {
    if s != [] { WithoutShorter(s[1..], x); }
  }

  // Using a handle puts it last; using another lets it fall behind by one.
  lemma TouchedWithin(t: Table, t': Table, h: Handle, x: Handle, n: int)
    requires t'.recency == Touched(t.recency, x) && n >= 0 && (h == x || Within(t, h, n - 1))
    ensures Within(t', h, n)
  {
    if h == x {
      assert t'.recency[|t'.recency| - 1] == h;
    } else {
      var i :| 0 <= i < |t.recency| && t.recency[i] == h && |t.recency| - 1 - i <= n - 1;
      var j := WithoutKeeps(t.recency, h, x, i);
      assert t'.recency[j] == h;
    }
  }

  // What is within the size survives the trimming.
  lemma TrimmedWithin(t: Table, h: Handle, n: int)
    requires Matching(t) && 0 < |t.recency| <= HandleCacheSize + 1 && Within(t, h, n) && n < 4096
    ensures Within(Trimmed(t), h, n)
  {
    TrimOne(t);
    var i :| 0 <= i < |t.recency| && t.recency[i] == h && |t.recency| - 1 - i <= n;
    assert |t.recency| > HandleCacheSize ==> t.recency[1..][i - 1] == h;
    assert |t.recency| <= HandleCacheSize ==> t.recency[0..] == t.recency;
  }

  // The handle an event uses.
  ghost function Used(s: State, e: Event): Option<Handle>
  {
    match e
    case IssueLive(p) => Some(LiveHandle(s.entries, p))
    case IssueFrozen(_, p) => Some(PathID(p))
    case Resolve(h) => if h in s.table.handles then Some(h) else None
    case Replace(_, _, _) => None
  }

  lemma IssuedWithin(t: Table, x: Handle, target: Target, h: Handle, n: int)
    requires TableOk(t) && 0 <= n < 4096 && (h == x || Within(t, h, n - 1))
    ensures Within(Issued(t, x, target), h, n)
  {
    hide Trimmed, Distinct, Touched, Within;
    var touched := Table(t.handles[x := target], Touched(t.recency, x));
    TouchedMatching(t, x, target);
    TouchedWithin(t, touched, h, x, n);
    WithinSome(touched, h, n);
    TrimmedWithin(touched, h, n);
  }

  lemma WithinSome(t: Table, h: Handle, n: int)
    requires Within(t, h, n)
    ensures |t.recency| > 0 && h in t.recency && Within(t, h, n + 1)
  {
  }

  lemma StepWithin(s: State, e: Event, h: Handle, n: int)
    requires Inv(s) && Enabled(s, e) && 0 <= n < 4096 && (Used(s, e) == Some(h) || Within(s.table, h, n - 1))
    ensures Within(Step(s, e).table, h, n)
  {
    hide Issued, Touched, FilesStable, Placed, Shows, Within;
    if Within(s.table, h, n - 1) { WithinSome(s.table, h, n - 1); }
    match e
    case IssueLive(p) => IssuedWithin(s.table, LiveHandle(s.entries, p), LiveTarget(s.entries, s.catalog, p), h, n);
    case IssueFrozen(through, p) => IssuedWithin(s.table, PathID(p), Target(s.table.handles[through].fs, p), h, n);
    case Resolve(x) => if x in s.table.handles { TouchedWithin(s.table, Step(s, e).table, h, x, n); }
    case Replace(_, _, _) =>
  }

  // A handle that an event used is still in the table after up to 4095 more events, whatever they are.
  lemma {:induction false} UsedHandlesLast(s: State, events: seq<Event>, n: nat, h: Handle)
    requires Starts(s) && Exec(s, events).Some? && n < |events| <= n + 4096
    requires Exec(s, events[..n]).Some? && Used(Exec(s, events[..n]).value, events[n]) == Some(h)
    ensures h in Exec(s, events).value.table.handles
    ensures Within(Exec(s, events).value.table, h, |events| - n - 1)
    decreases |events|
  {
    hide Starts, Exec, Enabled, Step, Inv, Within, Used;
    var last := |events| - 1;
    var head := events[..last];
    PrefixRuns(s, events, last);
    assert events[..last + 1] == events;
    AlwaysInv(s, head);
    if n < last {
      assert head[..n] == events[..n];
      UsedHandlesLast(s, head, n, h);
    }
    StepWithin(Exec(s, head).value, events[last], h, last - n);
    AlwaysInv(s, events);
    WithinListed(Exec(s, events).value, h, last - n);
  }

  lemma WithinListed(s: State, h: Handle, n: int)
    requires Inv(s) && Within(s.table, h, n)
    ensures h in s.table.handles
  {
    hide FilesStable, Placed;
    WithinSome(s.table, h, n);
  }

  /******* The handler object *******/

  class StableHandles {
    var entries: Entries
    var catalog: Catalog
    var handles: map<Handle, Target>
    var positions: set<Handle>
    var recency: seq<Handle>

    constructor (entries: Entries, catalog: Catalog)
      ensures View() == State(entries, catalog, Table(map[], [])) && Valid()
    {
      this.entries, this.catalog := entries, catalog;
      handles, positions, recency := map[], {}, [];
    }

    ghost predicate Valid()
      reads this
    {
      TableOk(Table(handles, recency)) && positions == handles.Keys
    }

    ghost function View(): State
      reads this
    {
      State(entries, catalog, Table(handles, recency))
    }

    method Touch(h: Handle)
      requires forall x :: x in positions <==> x in recency
      modifies this`positions, this`recency
      ensures recency == Touched(old(recency), h) && positions == old(positions) + {h}
    {
      if h in positions {
        recency := Without(recency, h) + [h];
      } else {
        WithoutNone(recency, h);
        positions, recency := positions + {h}, recency + [h];
      }
    }

    method ToHandle(fs: Fs, path: Path) returns (h: Handle)
      requires Valid()
      modifies this`handles, this`positions, this`recency
      ensures Valid()
      ensures h == if fs.Live? then LiveHandle(entries, path) else PathID(path)
      ensures View() == if fs.Live? then Register(old(View()), path)
                        else old(View()).(table := Issued(old(View()).table, h, Target(fs, path)))
    {
      hide Trimmed, Distinct, Touched;
      var target := Target(fs, path);
      h := PathID(path);
      if fs.Live? { target, h := LiveTarget(entries, catalog, path), LiveHandle(entries, path); }
      IssuedOk(View().table, h, target);
      TouchedMatching(View().table, h, target);
      handles := handles[h := target];
      Touch(h);
      EvictOldest();
    }

    method EvictOldest()
      requires Matching(Table(handles, recency)) && positions == handles.Keys
      modifies this`handles, this`positions, this`recency
      ensures Table(handles, recency) == Trimmed(old(Table(handles, recency))) && positions == handles.Keys
    {
      KeysCount(handles, recency);
      while |handles| > HandleCacheSize
        invariant Matching(Table(handles, recency)) && positions == handles.Keys && |handles| == |recency|
        invariant Trimmed(old(Table(handles, recency))) == Trimmed(Table(handles, recency))
        decreases |recency|
      {
        var oldest := recency[0];
        FrontOnly(recency);
        handles, positions, recency := handles - {oldest}, positions - {oldest}, recency[1..];
        KeysCount(handles, recency);
      }
    }

    // The live namespace is exchanged under the handler.
    method Exchange(entries: Entries, catalog: Catalog)
      requires Valid()
      modifies this`entries, this`catalog
      ensures Valid() && View() == old(View()).(entries := entries, catalog := catalog)
    {
      this.entries, this.catalog := entries, catalog;
    }

    method FromHandle(h: Handle) returns (r: Option<Target>)
      requires Valid()
      modifies this`positions, this`recency
      ensures Valid() && r == if h in handles then Some(handles[h]) else None
      ensures View() == Step(old(View()), Resolve(h))
    {
      if h !in handles { return None; }
      ResolvedOk(View().table, h);
      Touch(h);
      r := Some(handles[h]);
    }

    // paths are the current ones, in whatever order they are listed.
    method RegisterCurrent(paths: seq<Path>)
      requires Valid()
      modifies this`handles, this`positions, this`recency
      ensures Valid() && View() == Registered(old(View()), paths)
    {
      for i := 0 to |paths|
        invariant Valid() && View() == Registered(old(View()), paths[..i])
      {
        assert paths[..i + 1][..i] == paths[..i];
        var h := ToHandle(Live, paths[i]);
      }
      assert paths[..|paths|] == paths;
    }
  }

  lemma {:induction false} KeysCount(handles: map<Handle, Target>, recency: seq<Handle>)
    requires Distinct(recency) && forall x :: x in handles <==> x in recency
    ensures |handles| == |recency|
    decreases |recency|
  {
    if recency == [] {
      assert handles == map[];
    } else {
      FrontOnly(recency);
      KeysCount(handles - {recency[0]}, recency[1..]);
    }
  }

  // Two files that take turns at one path: a handle issued through the first snapshot means the second file later.
  method PathHandleMoves(one: Media, two: Media) returns (handle: Handle, first: Option<Target>, second: Option<Target>)
    requires ValidPath(one.parts) && two.parts == one.parts
    ensures handle == PathID(PathOf(one.parts))
    ensures first.Some? && FileAt(first.value) == Some(one) && second.Some? && FileAt(second.value) == Some(two)
  {
    hide ValidPath, Issued, TableOk, PathOf;
    var p := PathOf(one.parts);
    var before := OneFile(one);
    var after := OneFile(two);
    var handler := new StableHandles(before, Catalog("before", None));
    handle, first := IssueThroughSnapshot(handler, p);
    handler.Exchange(after, Catalog("after", None));
    var again: Handle;
    again, second := IssueThroughSnapshot(handler, p);
  }

  method OneFile(m: Media) returns (entries: Entries)
    requires ValidPath(m.parts)
    ensures PathOf(m.parts) in entries && entries[PathOf(m.parts)].media == Some(m)
  {
    hide Tree, ValidPath, PathOf;
    var built := BuildEntries([m]);
    entries := built.value;
    assert m in [m];
  }

  // Name a live file, take the snapshot its handle leads to, and name the same path through it.
  method IssueThroughSnapshot(handler: StableHandles, p: Path) returns (handle: Handle, target: Option<Target>)
    requires handler.Valid() && p in handler.entries && handler.entries[p].media.Some?
    modifies handler
    ensures handler.Valid() && handler.entries == old(handler.entries) && handler.catalog == old(handler.catalog)
    ensures handle == PathID(p) && target == Some(Target(Frozen(handler.entries, handler.catalog), p))
  {
    hide Issued, TableOk;
    IssuedOk(handler.View().table, LiveHandle(handler.entries, p), LiveTarget(handler.entries, handler.catalog, p));
    var live := handler.ToHandle(Live, p);
    var snapshot := handler.FromHandle(live);
    IssuedOk(handler.View().table, PathID(p), snapshot.value);
    handle := handler.ToHandle(snapshot.value.fs, p);
    target := handler.FromHandle(handle);
  }
}
