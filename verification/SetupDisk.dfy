/**
 The setup directory on disk. A directory change is not safe until the
 directory is synced: every entry keeps the set of values it may have after a
 power loss. File contents are synced before they are renamed into place, so
 an entry never shows half a file.
 */
module SetupDisk {
  import opened Options

  const MaxTokenBytes := 4096
  const MaxManifestBytes := 512 * 1024

  // An entry's value, and the older ones a power loss may bring back.
  datatype Cell<T> = Cell(now: T, older: set<T>)

  function Possible<T(==)>(c: Cell<T>): set<T> { c.older + {c.now} }

  function Wrote<T(==)>(c: Cell<T>, x: T): Cell<T> { Cell(x, Possible(c)) }

  function Synced<T>(c: Cell<T>): Cell<T> { Cell(c.now, {}) }

  // A generation directory: whether it is listed, and its two files.
  datatype Generation = Generation(present: Cell<bool>, token: Cell<Option<string>>, manifest: Cell<Option<string>>)

  // current names the committed generation and is called the link; generations holds every directory that ever existed.
  datatype Disk = Disk(current: Cell<Option<string>>, generations: map<string, Generation>)

  datatype Op =
    | Mkdir(g: string)
    | PutToken(g: string, text: string)
    | PutManifest(g: string, text: string)
    | SyncGeneration(g: string)
    | SyncGenerations
    | Point(g: string)
    | Unpoint
    | SyncRoot
    | DropToken(g: string)
    | DropManifest(g: string)
    | Rmdir(g: string)

  const Unborn := Generation(Cell(false, {}), Cell(None, {}), Cell(None, {}))

  function Get(d: Disk, g: string): Generation { if g in d.generations then d.generations[g] else Unborn }

  function Put(d: Disk, g: string, x: Generation): Disk { d.(generations := d.generations[g := x]) }

  function Apply(d: Disk, op: Op): Disk
  {
    match op
    case Mkdir(g) => Put(d, g, Get(d, g).(present := Wrote(Get(d, g).present, true)))
    case PutToken(g, text) => Put(d, g, Get(d, g).(token := Wrote(Get(d, g).token, Some(text))))
    case PutManifest(g, text) => Put(d, g, Get(d, g).(manifest := Wrote(Get(d, g).manifest, Some(text))))
    case SyncGeneration(g) => Put(d, g, Get(d, g).(token := Synced(Get(d, g).token), manifest := Synced(Get(d, g).manifest)))
    case SyncGenerations => d.(generations := map g | g in d.generations :: d.generations[g].(present := Synced(d.generations[g].present)))
    case Point(g) => d.(current := Wrote(d.current, Some(g)))
    case Unpoint => d.(current := Wrote(d.current, None))
    case SyncRoot => d.(current := Synced(d.current))
    case DropToken(g) => Put(d, g, Get(d, g).(token := Wrote(Get(d, g).token, None)))
    case DropManifest(g) => Put(d, g, Get(d, g).(manifest := Wrote(Get(d, g).manifest, None)))
    case Rmdir(g) => Put(d, g, Get(d, g).(present := Wrote(Get(d, g).present, false)))
  }

  /******* Loading *******/

  datatype Loaded = NotFound | Pair(token: string, manifest: string) | Broken

  predicate IsSpace(c: char) { c == ' ' || '\t' <= c <= '\r' }

  predicate ValidToken(t: string)
  {
    0 < |t| <= MaxTokenBytes && !IsSpace(t[0]) && !IsSpace(t[|t| - 1]) && forall i | 0 <= i < |t| :: t[i] != '\0'
  }

  predicate Blank(c: char) { c as int == 32 || 9 <= c as int <= 13 }

  // One to 4096 characters, none of them zero, with no blank at either end.
  lemma TokenExactly(t: string)
    ensures ValidToken(t) <==> 1 <= |t| <= 4096 && !Blank(t[0]) && !Blank(t[|t| - 1]) && forall c | c in t :: c as int != 0
  {
    assert forall c: char :: IsSpace(c) == Blank(c);
    assert forall i | 0 <= i < |t| :: t[i] in t;
  }

  function TrimNewline(s: string): string { if |s| > 0 && s[|s| - 1] == '\n' then s[..|s| - 1] else s }

  // Read through a link: both files within their limits, or broken.
  function Read(d: Disk, link: Option<string>): Loaded
  {
    match link
    case None => NotFound
    case Some(g) =>
      var x := Get(d, g);
      if !x.present.now || x.token.now.None? || |x.token.now.value| > MaxTokenBytes || !ValidToken(TrimNewline(x.token.now.value)) then Broken
      else if x.manifest.now.None? || |x.manifest.now.value| > MaxManifestBytes then Broken
      else Pair(TrimNewline(x.token.now.value), x.manifest.now.value)
  }

  function LoadManifest(d: Disk): Loaded { Read(d, d.current.now) }

  // What a saved pair reads back as: the newline added to the token counts against its limit.
  function SavedAs(token: string, manifest: string): Loaded
  {
    if |token| + 1 <= MaxTokenBytes && |manifest| <= MaxManifestBytes then Pair(token, manifest) else Broken
  }

  /******* Power loss *******/

  ghost predicate Settles<T>(c: Cell<T>, c': Cell<T>) { c'.now in Possible(c) && c'.older == {} }

  // Every entry comes back with one of the values it may have.
  ghost predicate PowerLoss(d: Disk, d': Disk)
  {
    && Settles(d.current, d'.current) && d'.generations.Keys == d.generations.Keys
    && forall g | g in d.generations ::
         && Settles(d.generations[g].present, d'.generations[g].present)
         && Settles(d.generations[g].token, d'.generations[g].token)
         && Settles(d.generations[g].manifest, d'.generations[g].manifest)
  }

  // A generation that no power loss can change.
  ghost predicate Whole(d: Disk, g: string)
  {
    var x := Get(d, g);
    x.present.older <= {x.present.now} && x.token.older <= {x.token.now} && x.manifest.older <= {x.manifest.now}
  }

  // Wherever the link may end up, the generation there is whole and reads as one of the values.
  ghost predicate Safe(d: Disk, values: set<Loaded>)
  {
    forall p | p in Possible(d.current) :: (p.Some? ==> Whole(d, p.value)) && Read(d, p) in values
  }

  // After a power loss, the disk loads as one of the values, for good, and may be opened.
  lemma SafeSurvives(d: Disk, d': Disk, values: set<Loaded>)
    requires Safe(d, values) && PowerLoss(d, d')
    ensures LoadManifest(d') in values && Safe(d', {LoadManifest(d')}) && d'.current.older == {}
  {
    var p := d'.current.now;
    assert p in Possible(d.current);
    if p.Some? {
      assert Whole(d, p.value);
      if p.value in d.generations { WholeSurvives(d, d', p.value); }
    }
  }

  lemma WholeSurvives(d: Disk, d': Disk, g: string)
    requires PowerLoss(d, d') && g in d.generations && Whole(d, g)
    ensures Get(d', g).present.now == Get(d, g).present.now && Get(d', g).token.now == Get(d, g).token.now
    ensures Get(d', g).manifest.now == Get(d, g).manifest.now && Whole(d', g)
  {
  }

  function SettledAsNow(x: Generation): Generation { Generation(Synced(x.present), Synced(x.token), Synced(x.manifest)) }

  // A power loss that keeps every entry but the link, which comes back as p.
  function LinkLost(d: Disk, p: Option<string>): Disk
  {
    Disk(Cell(p, {}), map g | g in d.generations :: SettledAsNow(d.generations[g]))
  }

  lemma LinkLostIsPowerLoss(d: Disk, p: Option<string>)
    requires p in Possible(d.current)
    ensures PowerLoss(d, LinkLost(d, p)) && LoadManifest(LinkLost(d, p)) == Read(d, p)
  {
    assert p.Some? ==> Get(LinkLost(d, p), p.value).present.now == Get(d, p.value).present.now;
  }

  /******* What each operation does to safety *******/

  // The generation an operation changes, if any.
  function Touches(op: Op): Option<string>
  {
    match op
    case Mkdir(g) => Some(g)
    case PutToken(g, _) => Some(g)
    case PutManifest(g, _) => Some(g)
    case SyncGeneration(g) => Some(g)
    case DropToken(g) => Some(g)
    case DropManifest(g) => Some(g)
    case Rmdir(g) => Some(g)
    case _ => None
  }

  // A generation reads the same, and stays whole if it was.
  ghost predicate Same(d: Disk, d': Disk, g: string)
  {
    && Get(d', g).present.now == Get(d, g).present.now && Get(d', g).token.now == Get(d, g).token.now
    && Get(d', g).manifest.now == Get(d, g).manifest.now && (Whole(d, g) ==> Whole(d', g))
  }

  // The link and the generations of K are left alone.
  ghost predicate Spared(d: Disk, d': Disk, K: string -> bool)
  {
    d'.current == d.current && forall g | K(g) :: Same(d, d', g)
  }

  lemma SparedTransitive(d: Disk, d': Disk, d'': Disk, K: string -> bool)
    requires Spared(d, d', K) && Spared(d', d'', K)
    ensures Spared(d, d'', K)
  {
  }

  // An operation spares every generation but the one it touches.
  lemma ApplySpares(d: Disk, op: Op, K: string -> bool)
    requires op == SyncGenerations || (Touches(op).Some? && !K(Touches(op).value))
    ensures Spared(d, Apply(d, op), K)
  {
    forall g | K(g) ensures Same(d, Apply(d, op), g) {}
  }

  lemma SparedLoads(d: Disk, d': Disk, K: string -> bool)
    requires Spared(d, d', K) && (d.current.now.Some? ==> K(d.current.now.value))
    ensures LoadManifest(d') == LoadManifest(d)
  {
  }

  // What a power loss may bring back is untouched if every generation the link may name is spared.
  lemma SparedIsSafe(d: Disk, d': Disk, K: string -> bool, values: set<Loaded>)
    requires Spared(d, d', K) && Safe(d, values) && forall p | p in Possible(d.current) && p.Some? :: K(p.value)
    ensures Safe(d', values)
  {
    forall p | p in Possible(d.current) ensures (p.Some? ==> Whole(d', p.value)) && Read(d', p) == Read(d, p) {
      assert p.Some? ==> Whole(d, p.value) && Same(d, d', p.value);
    }
  }

  lemma PointIsSafe(d: Disk, g: string, values: set<Loaded>)
    requires Safe(d, values) && Whole(d, g)
    ensures Safe(Apply(d, Point(g)), values + {Read(d, Some(g))})
  {
    PointReads(d, g);
    assert forall p :: Read(Apply(d, Point(g)), p) == Read(d, p);
    assert forall h :: Whole(Apply(d, Point(g)), h) == Whole(d, h);
  }

  lemma PointReads(d: Disk, g: string)
    ensures var d' := Apply(d, Point(g));
            d'.current == Cell(Some(g), Possible(d.current)) && LoadManifest(d') == Read(d, Some(g)) && (Whole(d, g) ==> Whole(d', g))
  {
  }

  lemma UnpointIsSafe(d: Disk, values: set<Loaded>)
    requires Safe(d, values)
    ensures Safe(Apply(d, Unpoint), values + {NotFound})
  {
    var d' := Apply(d, Unpoint);
    assert forall p :: Read(d', p) == Read(d, p);
    assert forall h :: Whole(d', h) == Whole(d, h);
  }

  lemma SyncRootIsSafe(d: Disk)
    requires d.current.now.Some? ==> Whole(d, d.current.now.value)
    ensures Safe(Apply(d, SyncRoot), {LoadManifest(d)}) && LoadManifest(Apply(d, SyncRoot)) == LoadManifest(d)
    ensures Apply(d, SyncRoot).current == Cell(d.current.now, {})
  {
    var d' := Apply(d, SyncRoot);
    assert forall p :: Read(d', p) == Read(d, p);
    assert forall h :: Whole(d', h) == Whole(d, h);
  }

  lemma SaferWithMore(d: Disk, values: set<Loaded>, more: set<Loaded>)
    requires Safe(d, values) && values <= more
    ensures Safe(d, more)
  {
  }
}
