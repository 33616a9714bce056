/** The exported directory tree, built from catalog items, and its atomic replacement. */
module Namespace {
  import opened Options
  import opened Sorting

  // A virtual path, from the root down.
  datatype Path = Root | Under(parent: Path, name: string)

  // parts are the components of the virtual path.
  datatype Media = Media(id: string, parts: seq<string>, size: int, provider: string, objectID: string)

  datatype Entry = Entry(name: string, media: Option<Media>, children: seq<string>)

  type Entries = map<Path, Entry>

  function PathOf(parts: seq<string>): Path
  {
    if parts == [] then Root else Under(PathOf(parts[..|parts| - 1]), parts[|parts| - 1])
  }

  function Depth(p: Path): nat { match p case Root => 0 case Under(parent, _) => Depth(parent) + 1 }

  predicate ValidPart(part: string) { part != "" && part != "." && part != ".." }

  // Movies/<title>/<file> or TV Shows/<show>/<season>/<file>
  predicate ValidPath(parts: seq<string>)
  {
    && ((|parts| == 3 && parts[0] == "Movies") || (|parts| == 4 && parts[0] == "TV Shows"))
    && forall i | 0 <= i < |parts| :: ValidPart(parts[i])
  }

  lemma {:induction false} PathOfInjective(a: seq<string>, b: seq<string>)
    ensures PathOf(a) == PathOf(b) ==> a == b
    ensures Depth(PathOf(a)) == |a|
  {
    if a != [] {
      assert a == a[..|a| - 1] + [a[|a| - 1]];
      PathOfInjective(a[..|a| - 1], if b != [] then b[..|b| - 1] else []);
      if b != [] { assert b == b[..|b| - 1] + [b[|b| - 1]]; }
    }
  }

  /******* Trees *******/

  // Every listed child exists, and every entry but the root is listed once in its parent.
  ghost predicate Tree(entries: Entries)
  {
    && Root in entries
    && (forall p | p in entries && p.Under? :: p.parent in entries)
    && (forall p | p in entries :: ChildrenOk(entries, p))
  }

  ghost predicate ChildrenOk(entries: Entries, p: Path)
    requires p in entries
  {
    Distinct(entries[p].children) && forall c :: c in entries[p].children <==> Under(p, c) in entries
  }

  function AddChild(entries: Entries, parent: Path, child: string): Entries
    requires parent in entries
  {
    if child in entries[parent].children then entries
    else entries[parent := entries[parent].(children := entries[parent].children + [child])]
  }

  // A node, unless it exists, and its place in its parent.
  function AddNode(entries: Entries, parent: Path, node: Entry): Entries
    requires parent in entries
  {
    var p := Under(parent, node.name);
    AddChild(if p in entries then entries else entries[p := node], parent, node.name)
  }

  lemma AddNodeTree(entries: Entries, parent: Path, node: Entry)
    requires Tree(entries) && parent in entries && node.children == []
    ensures var r := AddNode(entries, parent, node); Tree(r) && r.Keys == entries.Keys + {Under(parent, node.name)}
    ensures forall q | q in entries :: AddNode(entries, parent, node)[q].media == entries[q].media
    ensures Under(parent, node.name) !in entries ==> AddNode(entries, parent, node)[Under(parent, node.name)].media == node.media
  {
    var p, r := Under(parent, node.name), AddNode(entries, parent, node);
    assert ChildrenOk(entries, parent);
    if p !in entries {
      assert r[parent].children == entries[parent].children + [node.name];
      forall q | q in r ensures ChildrenOk(r, q) {
        if q in entries { assert ChildrenOk(entries, q); }
      }
    }
  }

  /******* Building *******/

  // p is the path of the parts or of one of its ancestors.
  ghost predicate OnTheWay(p: Path, parts: seq<string>) { exists n :: 0 <= n <= |parts| && p == PathOf(parts[..n]) }

  // What a namespace for the items is: a tree of their paths, whose files are exactly the items.
  ghost predicate Shows(entries: Entries, items: seq<Media>)
  {
    Tree(entries) && (forall p :: p in entries <==> Needed(p, items)) && FilesOk(entries, items)
  }

  ghost predicate Needed(p: Path, items: seq<Media>)
  {
    p == Root || exists i :: 0 <= i < |items| && OnTheWay(p, items[i].parts)
  }

  ghost predicate FilesOk(entries: Entries, items: seq<Media>)
  {
    && (forall p | p in entries && entries[p].media.Some? :: entries[p].media.value in items && p == PathOf(entries[p].media.value.parts))
    && (forall m | m in items :: PathOf(m.parts) in entries && entries[PathOf(m.parts)].media == Some(m))
  }

  ghost predicate Acceptable(items: seq<Media>)
  {
    && (forall i | 0 <= i < |items| :: ValidPath(items[i].parts))
    && (forall i, j | 0 <= i < j < |items| :: items[i].parts != items[j].parts)
  }

  predicate Named(part: string) { part != "" && part != "." && part != ".." }

  // Movies/<title>/<file> or TV Shows/<show>/<season>/<file>, each part a proper name, and no path twice.
  lemma AcceptableExactly(items: seq<Media>)
    ensures Acceptable(items) <==>
            && (forall i | 0 <= i < |items| :: IsFilm(items[i].parts) || IsEpisode(items[i].parts))
            && (forall i, j | 0 <= i < |items| && 0 <= j < |items| && i != j :: items[i].parts != items[j].parts)
  {
    forall parts ensures ValidPath(parts) <==> IsFilm(parts) || IsEpisode(parts) { ShapeExactly(parts); }
    hide ValidPath, IsFilm, IsEpisode;
  }

  ghost predicate IsFilm(parts: seq<string>)
  {
    exists title, file :: Named(title) && Named(file) && parts == ["Movies", title, file]
  }

  ghost predicate IsEpisode(parts: seq<string>)
  {
    exists show, season, file :: Named(show) && Named(season) && Named(file) && parts == ["TV Shows", show, season, file]
  }

  lemma ShapeExactly(parts: seq<string>)
    ensures ValidPath(parts) <==> IsFilm(parts) || IsEpisode(parts)
  {
    if ValidPath(parts) && |parts| == 3 { assert Named(parts[1]) && Named(parts[2]) && parts == ["Movies", parts[1], parts[2]]; }
    if ValidPath(parts) && |parts| == 4 {
      assert Named(parts[1]) && Named(parts[2]) && Named(parts[3]) && parts == ["TV Shows", parts[1], parts[2], parts[3]];
    }
  }

  // The directories on the way to a file.
  method AddDirectories(entries: Entries, parts: seq<string>) returns (r: Entries)
    requires Tree(entries) && parts != []
    ensures Tree(r) && PathOf(parts[..|parts| - 1]) in r
    ensures forall p :: p in r <==> p in entries || OnTheWay(p, parts[..|parts| - 1])
    ensures forall p | p in r :: r[p].media == if p in entries then entries[p].media else None
  {
    hide Tree;
    r := entries;
    RootIn(entries);
    for i := 0 to |parts| - 1
      invariant Tree(r) && PathOf(parts[..i]) in r
      invariant forall p :: p in r <==> p in entries || OnTheWay(p, parts[..i])
      invariant forall p | p in r :: r[p].media == if p in entries then entries[p].media else None
    {
      AddNodeTree(r, PathOf(parts[..i]), Entry(parts[i], None, []));
      NextOnTheWay(parts, i);
      r := AddNode(r, PathOf(parts[..i]), Entry(parts[i], None, []));
    }
  }

  lemma RootIn(entries: Entries)
    requires Tree(entries)
    ensures Root in entries && forall p :: OnTheWay(p, []) <==> p == Root
  {
    assert PathOf([][..0]) == Root;
  }

  lemma NextOnTheWay(parts: seq<string>, i: nat)
    requires i < |parts|
    ensures PathOf(parts[..i + 1]) == Under(PathOf(parts[..i]), parts[i])
    ensures forall p :: OnTheWay(p, parts[..i + 1]) <==> OnTheWay(p, parts[..i]) || p == PathOf(parts[..i + 1])
  {
    var now, next := parts[..i], parts[..i + 1];
    assert next[..i] == now && next[..i + 1] == next && next[i] == parts[i];
    forall p ensures OnTheWay(p, next) <==> OnTheWay(p, now) || p == PathOf(next) { WayStep(p, now, next); }
  }

  lemma WayStep(p: Path, now: seq<string>, next: seq<string>)
    requires |next| == |now| + 1 && next[..|now|] == now
    ensures OnTheWay(p, next) <==> OnTheWay(p, now) || p == PathOf(next)
  {
    hide PathOf;
    if OnTheWay(p, next) {
      var n :| 0 <= n <= |next| && p == PathOf(next[..n]);
      assert n <= |now| ==> next[..n] == now[..n];
      assert n == |next| ==> next[..n] == next;
    }
    if OnTheWay(p, now) {
      var n :| 0 <= n <= |now| && p == PathOf(now[..n]);
      assert next[..n] == now[..n];
    }
    if p == PathOf(next) { assert next[..|next|] == next; }
  }

  // A new file cannot stand where a directory or another file is.
  lemma TakenMeansDuplicate(entries: Entries, items: seq<Media>, parts: seq<string>)
    requires Shows(entries, items) && Acceptable(items) && ValidPath(parts)
    ensures PathOf(parts) in entries <==> exists i :: 0 <= i < |items| && items[i].parts == parts
  {
    hide Tree, FilesOk, OnTheWay, PathOf, ValidPath;
    assert PathOf(parts) in entries <==> Needed(PathOf(parts), items);
    forall i | 0 <= i < |items| ensures OnTheWay(PathOf(parts), items[i].parts) <==> items[i].parts == parts {
      OnlyItself(parts, items[i].parts);
    }
    NotRoot(parts);
  }

  lemma NotRoot(parts: seq<string>)
    requires ValidPath(parts)
    ensures PathOf(parts) != Root
  {
  }

  // A file's path is no ancestor of another file's path.
  lemma OnlyItself(a: seq<string>, b: seq<string>)
    requires ValidPath(a) && ValidPath(b)
    ensures OnTheWay(PathOf(a), b) <==> a == b
  {
    if OnTheWay(PathOf(a), b) {
      var n :| 0 <= n <= |b| && PathOf(a) == PathOf(b[..n]);
      PathOfInjective(a, b[..n]);
      assert a[0] == b[0];
      assert b[..|b|] == b;
    }
    if a == b { assert b[..|b|] == b; }
  }

  method AddMedia(entries: Entries, media: Media, ghost items: seq<Media>) returns (ok: bool, r: Entries)
    requires Shows(entries, items) && Acceptable(items)
    ensures ok <==> Acceptable(items + [media])
    ensures ok ==> Shows(r, items + [media])
  {
    hide Tree, Shows, Acceptable;
    r := entries;
    AcceptMore(items, media);
    if !ValidPath(media.parts) { return false, r; }
    TakenMeansDuplicate(entries, items, media.parts);
    if PathOf(media.parts) in entries { return false, r; }
    var parts := media.parts;
    ShowsTree(entries, items);
    r := AddDirectories(entries, parts);
    ghost var mid := r;
    var parent, file := PathOf(parts[..|parts| - 1]), Entry(parts[|parts| - 1], Some(media), []);
    AddNodeTree(r, parent, file);
    NotOnTheWay(parts);
    r := AddNode(r, parent, file);
    ShowsMore(entries, mid, r, items, media);
    ok := true;
  }

  lemma ShowsTree(entries: Entries, items: seq<Media>)
    requires Shows(entries, items)
    ensures Tree(entries)
  {
  }

  lemma AcceptMore(items: seq<Media>, media: Media)
    requires Acceptable(items)
    ensures Acceptable(items + [media]) <==> ValidPath(media.parts) && forall i | 0 <= i < |items| :: items[i].parts != media.parts
  {
    var more := items + [media];
    if Acceptable(more) {
      assert ValidPath(more[|items|].parts);
      forall i | 0 <= i < |items| ensures items[i].parts != media.parts { assert more[i].parts != more[|items|].parts; }
    }
  }

  lemma NotOnTheWay(parts: seq<string>)
    requires parts != []
    ensures !OnTheWay(PathOf(parts), parts[..|parts| - 1]) && PathOf(parts) == Under(PathOf(parts[..|parts| - 1]), parts[|parts| - 1])
  {
    var head := parts[..|parts| - 1];
    if OnTheWay(PathOf(parts), head) {
      var n :| 0 <= n <= |head| && PathOf(parts) == PathOf(head[..n]);
      PathOfInjective(parts, head[..n]);
    }
  }

  lemma ShowsMore(entries: Entries, mid: Entries, r: Entries, items: seq<Media>, media: Media)
    requires Shows(entries, items) && Tree(r) && media.parts != [] && PathOf(media.parts) !in mid
    requires forall p :: p in mid <==> p in entries || OnTheWay(p, media.parts[..|media.parts| - 1])
    requires forall p | p in mid :: mid[p].media == if p in entries then entries[p].media else None
    requires r.Keys == mid.Keys + {PathOf(media.parts)} && forall p | p in mid :: r[p].media == mid[p].media
    requires r[PathOf(media.parts)].media == Some(media)
    ensures Shows(r, items + [media])
  {
    hide Tree, OnTheWay, PathOf, FilesOk, Needed;
    var parts, n := media.parts, |media.parts| - 1;
    NextOnTheWay(parts, n);
    assert parts[..n + 1] == parts;
    forall p ensures Needed(p, items + [media]) <==> Needed(p, items) || OnTheWay(p, parts) { NeededMore(p, items, media); }
    assert forall p :: p in r <==> Needed(p, items + [media]);
    FilesMore(entries, mid, r, items, media);
  }

  lemma NeededMore(p: Path, items: seq<Media>, media: Media)
    ensures Needed(p, items + [media]) <==> Needed(p, items) || OnTheWay(p, media.parts)
  {
    hide OnTheWay;
    var all := items + [media];
    assert all[|items|] == media && forall i | 0 <= i < |items| :: all[i] == items[i];
    if Needed(p, items) && p != Root {
      var i :| 0 <= i < |items| && OnTheWay(p, items[i].parts);
      assert OnTheWay(p, all[i].parts);
    }
  }

  lemma FilesMore(entries: Entries, mid: Entries, r: Entries, items: seq<Media>, media: Media)
    requires FilesOk(entries, items) && PathOf(media.parts) !in mid && entries.Keys <= mid.Keys
    requires forall p | p in mid :: mid[p].media == if p in entries then entries[p].media else None
    requires r.Keys == mid.Keys + {PathOf(media.parts)} && forall p | p in mid :: r[p].media == mid[p].media
    requires r[PathOf(media.parts)].media == Some(media)
    ensures FilesOk(r, items + [media])
  {
    hide PathOf;
    forall p | p in r && r[p].media.Some? ensures r[p].media.value in items + [media] && p == PathOf(r[p].media.value.parts) {
      if p in mid { assert p in entries; }
    }
  }

  // Children sorted by name.
  function Ordered(entries: Entries): Entries
  {
    map p | p in entries :: entries[p].(children := Sort(entries[p].children, StringLess))
  }

  lemma OrderedChildren(entries: Entries, p: Path)
    requires p in entries && ChildrenOk(entries, p)
    ensures p in Ordered(entries) && ChildrenOk(Ordered(entries), p) && Sorted(Ordered(entries)[p].children, StringLess)
  {
    hide StringLess, Sorted, WeakOrder, Distinct, Sort;
    StringOrder();
    SortMembers(entries[p].children, StringLess);
    SortDistinct(entries[p].children, StringLess);
    SortSorted(entries[p].children, StringLess);
  }

  lemma OrderedShows(entries: Entries, items: seq<Media>)
    requires Shows(entries, items)
    ensures Shows(Ordered(entries), items) && forall p | p in entries :: Sorted(Ordered(entries)[p].children, StringLess)
  {
    hide StringLess, Sorted, ChildrenOk, Needed, FilesOk;
    var r := Ordered(entries);
    forall p | p in entries ensures ChildrenOk(r, p) && Sorted(r[p].children, StringLess) { OrderedChildren(entries, p); }
    OrderedFiles(entries, items);
  }

  lemma OrderedFiles(entries: Entries, items: seq<Media>)
    requires FilesOk(entries, items)
    ensures FilesOk(Ordered(entries), items)
  {
    hide PathOf, Sort;
    assert forall p | p in entries :: Ordered(entries)[p].media == entries[p].media;
  }

  // buildEntries: a namespace for exactly the items, or an error if a path is malformed or repeated.
  method BuildEntries(items: seq<Media>) returns (r: Option<Entries>)
    ensures r.Some? <==> Acceptable(items)
    ensures r.Some? ==> Shows(r.value, items) && forall p | p in r.value :: Sorted(r.value[p].children, StringLess)
  {
    hide Shows, Tree;
    var entries: Entries := map[Root := Entry("/", None, [])];
    JustRoot();
    for i := 0 to |items|
      invariant Acceptable(items[..i]) && Shows(entries, items[..i])
    {
      assert items[..i + 1] == items[..i] + [items[i]];
      var ok, more := AddMedia(entries, items[i], items[..i]);
      if !ok {
        Unacceptable(items, i + 1);
        return None;
      }
      entries := more;
    }
    assert items[..|items|] == items;
    OrderedShows(entries, items);
    r := Some(Ordered(entries));
  }

  lemma JustRoot()
    ensures Shows(map[Root := Entry("/", None, [])], [])
  {
  }

  lemma Unacceptable(items: seq<Media>, n: nat)
    requires n <= |items| && !Acceptable(items[..n])
    ensures !Acceptable(items)
  {
    if Acceptable(items) {
      assert forall i | 0 <= i < n :: items[..n][i] == items[i];
    }
  }

  /******* Replacement *******/

  // A catalog: the items it lists, or a failure to list them.
  datatype Catalog = Catalog(name: string, items: Option<seq<Media>>)

  class Filesystem {
    var catalog: Catalog
    var entries: Entries
    var generation: nat
    var modified: int

    constructor (catalog: Catalog)
      ensures this.catalog == catalog && entries == map[] && generation == 0 && modified == 0
    {
      this.catalog := catalog;
      entries, generation, modified := map[], 0, 0;
    }

    // Catalog and namespace change together or not at all; the time shown to clients always moves forward.
    method Replace(next: Catalog, now: int) returns (ok: bool)
      modifies this
      ensures ok <==> next.items.Some? && Acceptable(next.items.value)
      ensures ok ==> catalog == next && Shows(entries, next.items.value) && generation == old(generation) + 1
      ensures ok ==> modified > old(modified) && modified >= now
      ensures !ok ==> unchanged(this)
    {
      hide Shows, Acceptable;
      if next.items.None? { return false; }
      var built := BuildEntries(next.items.value);
      if built.None? { return false; }
      catalog, entries, generation := next, built.value, generation + 1;
      modified := if now > modified then now else modified + 1;
      ok := true;
    }
  }
}
