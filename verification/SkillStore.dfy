/**
The content-addressed store of skill packages (backend/app/services/shared_skill_service.py).

Digests are taken to be injective, so a digest is the inventory it was computed from.  A directory keeps
its identity when it is renamed.  The process may die between any two steps; the store lock is then free.
*/
module SkillStore {
  import opened Common

  type Path = string
  type Workspace = string
  type DirId = nat

  // A blob is named after its content and its executable bit.
  datatype Blob = Blob(content: string, executable: bool)

  datatype Entry = Dir | File(blob: Blob)

  type Inventory = map<Path, Entry>

  datatype Digest = Digest(of: Inventory)

  datatype Key = Key(dir: DirId, path: Path)

  datatype Info = Info(links: nat, stamp: real)

  // What the holder of the store lock is doing.
  datatype Op =
    | Idle
    | Publishing(dir: DirId, inventory: Inventory)
    | Collecting(referenced: set<Digest>, cutoff: real)
    | Removing(referenced: set<Digest>, cutoff: real, digest: Digest)

  datatype Store = Store(
    packages: map<Digest, DirId>,
    stagings: set<DirId>,
    entries: map<Key, Entry>,
    blobs: map<Blob, Info>,
    stamps: map<DirId, real>,              // modification times
    manifests: map<Workspace, set<Digest>>,
    now: real,
    nextDir: DirId,
    op: Op
  )

  // ------------------------------------------------------------------------------------------
  // Steps
  // ------------------------------------------------------------------------------------------

  datatype Step =
    | Stage(inventory: Inventory)
    | AddEntry(path: Path)
    | Rename
    | DropStaged(path: Path)                 // a failed publication cleans up
    | EndStaged
    | Point(workspace: Workspace, digest: Digest)
    | Collect(cutoff: real)
    | Remove(digest: Digest)
    | DropEntry(path: Path)
    | EndRemove
    | DropBlob(blob: Blob)
    | EndCollect
    | Crash
    | DeleteWorkspace(workspace: Workspace)
    | Tick(delta: real)

  function InventoryOf(entries: map<Key, Entry>, dir: DirId): Inventory {
    map k | k in entries && k.dir == dir :: k.path := entries[k]
  }

  function Referenced(manifests: map<Workspace, set<Digest>>): set<Digest> {
    set w, d | w in manifests && d in manifests[w] :: d
  }

  function Pointed(manifests: map<Workspace, set<Digest>>, w: Workspace): set<Digest> {
    if w in manifests then manifests[w] else {}
  }

  // One more or one fewer hard link to the blob of an entry.
  function Link(blobs: map<Blob, Info>, e: Entry, now: real): map<Blob, Info> {
    if e.Dir? then blobs
    else if e.blob in blobs then blobs[e.blob := blobs[e.blob].(links := blobs[e.blob].links + 1)]
    else blobs[e.blob := Info(2, now)]
  }

  function Unlink(blobs: map<Blob, Info>, e: Entry): map<Blob, Info> {
    if e.File? && e.blob in blobs && blobs[e.blob].links > 0
    then blobs[e.blob := blobs[e.blob].(links := blobs[e.blob].links - 1)] else blobs
  }

  function Add(s: Store, key: Key, e: Entry): Store {
    s.(entries := s.entries[key := e], blobs := Link(s.blobs, e, s.now))
  }

  function Drop(s: Store, key: Key): Store
    requires key in s.entries
  {
    s.(entries := s.entries - {key}, blobs := Unlink(s.blobs, s.entries[key]))
  }

  function Stamp(stamps: map<DirId, real>, dir: DirId): real {
    if dir in stamps then stamps[dir] else 0.0
  }

  // An entry that is made or removed at the top of a directory sets the directory's modification time.
  function Touched(s: Store, dir: DirId, path: Path): map<DirId, real> {
    if '/' in path then s.stamps else s.stamps[dir := s.now]
  }

  predicate Hollow(s: Store, dir: DirId) {
    forall k | k in s.entries :: k.dir != dir
  }

  predicate Enabled(s: Store, m: Step) {
    match m
    case Stage(inventory) => s.op.Idle? && Digest(inventory) !in s.packages
    case AddEntry(path) => s.op.Publishing? && path in s.op.inventory && Key(s.op.dir, path) !in s.entries
    case Rename => s.op.Publishing? && InventoryOf(s.entries, s.op.dir) == s.op.inventory && Digest(s.op.inventory) !in s.packages
    case DropStaged(path) => s.op.Publishing? && Key(s.op.dir, path) in s.entries
    case EndStaged => s.op.Publishing? && Hollow(s, s.op.dir)
    case Point(_, digest) => s.op.Idle? && digest in s.packages
    case Collect(cutoff) => s.op.Idle? && cutoff <= s.now
    case Remove(digest) =>
      s.op.Collecting? && digest in s.packages && digest !in s.op.referenced
      && Stamp(s.stamps, s.packages[digest]) < s.op.cutoff
    case DropEntry(path) => s.op.Removing? && s.op.digest in s.packages && Key(s.packages[s.op.digest], path) in s.entries
    case EndRemove => s.op.Removing? && s.op.digest in s.packages && Hollow(s, s.packages[s.op.digest])
    case DropBlob(b) => s.op.Collecting? && b in s.blobs && s.blobs[b].links == 1 && s.blobs[b].stamp < s.op.cutoff
    case EndCollect => s.op.Collecting?
    case Crash => true
    case DeleteWorkspace(_) => true
    case Tick(d) => d >= 0.0
  }

  function Next(s: Store, m: Step): Store
    requires Enabled(s, m)
  {
    match m
    case Stage(inventory) =>
      s.(stagings := s.stagings + {s.nextDir}, stamps := s.stamps[s.nextDir := s.now], nextDir := s.nextDir + 1,
         op := Publishing(s.nextDir, inventory))
    case AddEntry(path) => Add(s, Key(s.op.dir, path), s.op.inventory[path]).(stamps := Touched(s, s.op.dir, path))
    case Rename =>
      s.(packages := s.packages[Digest(s.op.inventory) := s.op.dir], stagings := s.stagings - {s.op.dir}, op := Idle)
    case DropStaged(path) => Drop(s, Key(s.op.dir, path)).(stamps := Touched(s, s.op.dir, path))
    case EndStaged => s.(stagings := s.stagings - {s.op.dir}, op := Idle)
    case Point(w, digest) => s.(manifests := s.manifests[w := Pointed(s.manifests, w) + {digest}])
    case Collect(cutoff) => s.(op := Collecting(Referenced(s.manifests), cutoff))
    case Remove(digest) => s.(op := Removing(s.op.referenced, s.op.cutoff, digest))
    case DropEntry(path) =>
      var dir := s.packages[s.op.digest];
      Drop(s, Key(dir, path)).(stamps := Touched(s, dir, path))
    case EndRemove => s.(packages := s.packages - {s.op.digest}, op := Collecting(s.op.referenced, s.op.cutoff))
    case DropBlob(b) => s.(blobs := s.blobs - {b})
    case EndCollect => s.(op := Idle)
    case Crash => s.(op := Idle)
    case DeleteWorkspace(w) => s.(manifests := s.manifests - {w})
    case Tick(d) => s.(now := s.now + d)
  }

  // ------------------------------------------------------------------------------------------
  // What every step keeps
  // ------------------------------------------------------------------------------------------

  // The entries that are hard links to a blob.
  function Linked(entries: map<Key, Entry>, b: Blob): set<Key> {
    set k | k in entries && entries[k] == File(b)
  }

  // A blob has one link of its own and one for each file entry of a package or staging directory.
  ghost predicate LinksCounted(entries: map<Key, Entry>, blobs: map<Blob, Info>) {
    && (forall k | k in entries && entries[k].File? :: entries[k].blob in blobs)
    && (forall b | b in blobs :: blobs[b].links == 1 + |Linked(entries, b)|)
  }

  // Packages and staging directories are different directories.
  predicate Apart(packages: map<Digest, DirId>, stagings: set<DirId>, nextDir: DirId) {
    && (forall d, e | d in packages && e in packages && packages[d] == packages[e] :: d == e)
    && (forall d | d in packages :: packages[d] < nextDir && packages[d] !in stagings)
    && (forall i | i in stagings :: i < nextDir)
  }

  predicate Placed(s: Store) {
    && Apart(s.packages, s.stagings, s.nextDir)
    && (forall k | k in s.entries :: k.dir < s.nextDir)
    && (s.op.Publishing? ==> s.op.dir in s.stagings && Digest(s.op.inventory) !in s.packages)
  }

  predicate Intact(s: Store, d: Digest) {
    d in s.packages && InventoryOf(s.entries, s.packages[d]) == d.of
  }

  // Every package is named by the digest of what it holds, except the one being removed.
  predicate Named(s: Store) {
    forall d | d in s.packages && !(s.op.Removing? && s.op.digest == d) :: Intact(s, d)
  }

  // Manifests point at packages that stay; the collector knows them all.
  predicate Pinned(s: Store) {
    && (forall w, d | w in s.manifests && d in s.manifests[w] :: d in s.packages && !(s.op.Removing? && s.op.digest == d))
    && (s.op.Collecting? || s.op.Removing? ==> Referenced(s.manifests) <= s.op.referenced)
    && (s.op.Removing? ==> s.op.digest !in s.op.referenced)
  }

  ghost predicate Invariant(s: Store) {
    LinksCounted(s.entries, s.blobs) && Placed(s) && Named(s) && Pinned(s)
  }

  lemma {:induction false} LinkedWith(entries: map<Key, Entry>, key: Key, e: Entry, b: Blob)
    requires key !in entries
    ensures |Linked(entries[key := e], b)| == |Linked(entries, b)| + if e == File(b) then 1 else 0
  {
    assert Linked(entries[key := e], b) == Linked(entries, b) + if e == File(b) then {key} else {};
  }

  lemma {:induction false} AddCounts(entries: map<Key, Entry>, blobs: map<Blob, Info>, key: Key, e: Entry, now: real)
    requires LinksCounted(entries, blobs) && key !in entries
    ensures LinksCounted(entries[key := e], Link(blobs, e, now))
  {
    forall b | b in Link(blobs, e, now) ensures Link(blobs, e, now)[b].links == 1 + |Linked(entries[key := e], b)| {
      LinkedWith(entries, key, e, b);
      if b !in blobs {
        assert Linked(entries, b) == {};
      }
    }
  }

  lemma {:induction false} DropCounts(entries: map<Key, Entry>, blobs: map<Blob, Info>, key: Key)
    requires LinksCounted(entries, blobs) && key in entries
    ensures LinksCounted(entries - {key}, Unlink(blobs, entries[key]))
  {
    var entries' := entries - {key};
    forall b | b in blobs ensures Unlink(blobs, entries[key])[b].links == 1 + |Linked(entries', b)| {
      if entries[key] == File(b) {
        assert Linked(entries, b) == Linked(entries', b) + {key};
      } else {
        assert Linked(entries', b) == Linked(entries, b);
      }
    }
  }

  lemma {:induction false} BlobCounts(entries: map<Key, Entry>, blobs: map<Blob, Info>, b: Blob)
    requires LinksCounted(entries, blobs) && b in blobs && blobs[b].links == 1
    ensures LinksCounted(entries, blobs - {b})
  {
    assert Linked(entries, b) == {};
    forall k | k in entries && entries[k].File? ensures entries[k].blob != b {
      assert entries[k].blob == b ==> k in Linked(entries, b);
    }
  }

  /** The link counts stay exact through every step. */
  lemma {:induction false} StepKeepsLinks(s: Store, m: Step)
    requires LinksCounted(s.entries, s.blobs) && Enabled(s, m)
    ensures LinksCounted(Next(s, m).entries, Next(s, m).blobs)
  {
    match m
    case AddEntry(path) => AddCounts(s.entries, s.blobs, Key(s.op.dir, path), s.op.inventory[path], s.now);
    case DropStaged(path) => DropCounts(s.entries, s.blobs, Key(s.op.dir, path));
    case DropEntry(path) => DropCounts(s.entries, s.blobs, Key(s.packages[s.op.digest], path));
    case DropBlob(b) => BlobCounts(s.entries, s.blobs, b);
    case _ =>
  }

  lemma {:induction false} RenameApart(packages: map<Digest, DirId>, stagings: set<DirId>, nextDir: DirId, d: Digest, dir: DirId)
    requires Apart(packages, stagings, nextDir) && dir in stagings && d !in packages
    ensures Apart(packages[d := dir], stagings - {dir}, nextDir)
  {
  }

  lemma {:induction false} StepKeepsPlaced(s: Store, m: Step)
    requires Placed(s) && Enabled(s, m)
    ensures Placed(Next(s, m))
  {
    var t := Next(s, m);
    if m.Rename? {
      RenameApart(s.packages, s.stagings, s.nextDir, Digest(s.op.inventory), s.op.dir);
    } else {
      assert Apart(t.packages, t.stagings, t.nextDir);
    }
    forall k | k in t.entries ensures k.dir < t.nextDir {
      assert k in s.entries || (m.AddEntry? && k.dir == s.op.dir);
    }
  }

  lemma {:induction false} StepKeepsPinned(s: Store, m: Step)
    requires Placed(s) && Pinned(s) && Enabled(s, m)
    ensures Pinned(Next(s, m))
  {
  }

  // Changing the entries of another directory leaves an inventory alone.
  lemma {:induction false} OtherDirectory(entries: map<Key, Entry>, key: Key, e: Entry, dir: DirId)
    requires key.dir != dir
    ensures InventoryOf(entries[key := e], dir) == InventoryOf(entries, dir)
    ensures InventoryOf(entries - {key}, dir) == InventoryOf(entries, dir)
  {
    assert forall k: Key | k.dir == dir :: k in entries[key := e] <==> k in entries;
  }

  // A package that is not being removed keeps what it holds.
  lemma {:induction false} StepKeepsPackage(s: Store, m: Step, d: Digest)
    requires Placed(s) && Enabled(s, m) && d in s.packages && !(s.op.Removing? && s.op.digest == d)
    ensures d in Next(s, m).packages && Next(s, m).packages[d] == s.packages[d]
    ensures InventoryOf(Next(s, m).entries, s.packages[d]) == InventoryOf(s.entries, s.packages[d])
  {
    match m
    case AddEntry(path) => OtherDirectory(s.entries, Key(s.op.dir, path), s.op.inventory[path], s.packages[d]);
    case DropStaged(path) => OtherDirectory(s.entries, Key(s.op.dir, path), Dir, s.packages[d]);
    case DropEntry(path) => OtherDirectory(s.entries, Key(s.packages[s.op.digest], path), Dir, s.packages[d]);
    case _ =>
  }

  // A crash in the middle of removing a package leaves a directory that its name does not describe.
  predicate Breaks(s: Store, m: Step) {
    m.Crash? && s.op.Removing? && s.op.digest in s.packages && !Intact(s, s.op.digest)
  }

  /** Names stay true through every step except exactly such a crash. */
  lemma {:induction false} NamedUnlessBroken(s: Store, m: Step)
    requires Placed(s) && Named(s) && Enabled(s, m)
    ensures Named(Next(s, m)) <==> !Breaks(s, m)
  {
    var t := Next(s, m);
    if Breaks(s, m) {
      assert !Intact(t, s.op.digest);
    } else {
      forall d | d in t.packages && !(t.op.Removing? && t.op.digest == d) ensures Intact(t, d) {
        if d in s.packages && !(s.op.Removing? && s.op.digest == d) {
          StepKeepsPackage(s, m, d);
        }
      }
    }
  }

  // ------------------------------------------------------------------------------------------
  // Runs
  // ------------------------------------------------------------------------------------------

  predicate Legal(s: Store, steps: seq<Step>)
    decreases |steps|
  {
    steps == [] || (Enabled(s, steps[0]) && Legal(Next(s, steps[0]), steps[1..]))
  }

  function After(s: Store, steps: seq<Step>): Store
    requires Legal(s, steps)
    decreases |steps|
  {
    if steps == [] then s else After(Next(s, steps[0]), steps[1..])
  }

  predicate NeverBreaks(s: Store, steps: seq<Step>)
    requires Legal(s, steps)
    decreases |steps|
  {
    steps != [] ==> !Breaks(s, steps[0]) && NeverBreaks(Next(s, steps[0]), steps[1..])
  }

  const EMPTY := Store(map[], {}, map[], map[], map[], map[], 0.0, 0, Idle)

  lemma {:induction false} StepKeepsInvariant(s: Store, m: Step)
    requires Invariant(s) && Enabled(s, m) && !Breaks(s, m)
    ensures Invariant(Next(s, m))
  {
    StepKeepsLinks(s, m);
    StepKeepsPlaced(s, m);
    StepKeepsPinned(s, m);
    NamedUnlessBroken(s, m);
  }

  lemma {:induction false} RunsKeepInvariant(s: Store, steps: seq<Step>)
    requires Invariant(s) && Legal(s, steps) && NeverBreaks(s, steps)
    ensures Invariant(After(s, steps))
    decreases |steps|
  {
    if steps != [] {
      StepKeepsInvariant(s, steps[0]);
      RunsKeepInvariant(Next(s, steps[0]), steps[1..]);
    }
  }

  /** Over any sequence of publications, references, collections, workspace deletions and crashes outside
      the removal of a package: every digest in a manifest names an existing package that holds exactly what
      its name says, and every blob has one link plus one per entry. */
  lemma {:induction false} ReferencesAreSafe(steps: seq<Step>, w: Workspace, d: Digest)
    requires Legal(EMPTY, steps) && NeverBreaks(EMPTY, steps)
    requires var s := After(EMPTY, steps); w in s.manifests && d in s.manifests[w]
    ensures Intact(After(EMPTY, steps), d)
    ensures LinksCounted(After(EMPTY, steps).entries, After(EMPTY, steps).blobs)
  {
    RunsKeepInvariant(EMPTY, steps);
  }

  // `baseline_root` and `mounts` for one referenced version.
  datatype ResolveError = NotReferenced | Unavailable

  function Resolve(s: Store, w: Workspace, d: Digest): Result<DirId, ResolveError> {
    if d !in Pointed(s.manifests, w) then Err(NotReferenced)
    else if d !in s.packages then Err(Unavailable)
    else Ok(s.packages[d])
  }

  predicate Keeps(steps: seq<Step>, w: Workspace) {
    forall m | m in steps :: m != DeleteWorkspace(w)
  }

  ghost predicate Steady(s: Store) {
    Placed(s) && Pinned(s)
  }

  lemma {:induction false} PinnedStep(s: Store, m: Step, w: Workspace, d: Digest)
    requires Steady(s) && Enabled(s, m) && m != DeleteWorkspace(w) && d in Pointed(s.manifests, w)
    ensures Steady(Next(s, m)) && d in Pointed(Next(s, m).manifests, w) && d in s.packages
    ensures d in Next(s, m).packages && Next(s, m).packages[d] == s.packages[d]
    ensures InventoryOf(Next(s, m).entries, s.packages[d]) == InventoryOf(s.entries, s.packages[d])
  {
    StepKeepsPlaced(s, m);
    StepKeepsPinned(s, m);
    StepKeepsPackage(s, m, d);
  }

  /** A referenced version keeps resolving to the same unchanged directory for as long as the workspace
      exists, whatever else happens, crashes included. */
  lemma {:induction false} PinnedKeepsResolving(s: Store, steps: seq<Step>, w: Workspace, d: Digest)
    requires Steady(s) && Legal(s, steps) && Keeps(steps, w) && d in Pointed(s.manifests, w)
    ensures Steady(After(s, steps)) && Resolve(s, w, d).Ok?
    ensures Resolve(After(s, steps), w, d) == Resolve(s, w, d)
    ensures InventoryOf(After(s, steps).entries, s.packages[d]) == InventoryOf(s.entries, s.packages[d])
    decreases |steps|
  {
    if steps != [] {
      assert steps[0] in steps && forall m | m in steps[1..] :: m in steps;
      PinnedStep(s, steps[0], w, d);
      PinnedKeepsResolving(Next(s, steps[0]), steps[1..], w, d);
    }
  }

  lemma {:induction false} ReachedIsSteady(s: Store, steps: seq<Step>)
    requires Steady(s) && Legal(s, steps)
    ensures Steady(After(s, steps))
    decreases |steps|
  {
    if steps != [] {
      StepKeepsPlaced(s, steps[0]);
      StepKeepsPinned(s, steps[0]);
      ReachedIsSteady(Next(s, steps[0]), steps[1..]);
    }
  }

  /** So from any point of any run on. */
  lemma {:induction false} ReferencedVersionsStay(steps: seq<Step>, more: seq<Step>, w: Workspace, d: Digest)
    requires Legal(EMPTY, steps) && Legal(After(EMPTY, steps), more) && DeleteWorkspace(w) !in more
    requires d in Pointed(After(EMPTY, steps).manifests, w)
    ensures var s := After(EMPTY, steps);
      && Resolve(s, w, d).Ok? && Resolve(After(s, more), w, d) == Resolve(s, w, d)
      && InventoryOf(After(s, more).entries, s.packages[d]) == InventoryOf(s.entries, s.packages[d])
  {
    ReachedIsSteady(EMPTY, steps);
    PinnedKeepsResolving(After(EMPTY, steps), more, w, d);
  }

  // ------------------------------------------------------------------------------------------
  // The grace period
  // ------------------------------------------------------------------------------------------

  // When each directory was made, when an entry of it was last made or removed, and when each blob was made.
  datatype History = History(made: map<DirId, real>, changed: map<DirId, real>, blobs: map<Blob, real>)

  const UNWRITTEN := History(map[], map[], map[])

  function Noted(s: Store, h: History, m: Step): History
    requires Enabled(s, m)
  {
    match m
    case Stage(_) => h.(made := h.made[s.nextDir := s.now], changed := h.changed[s.nextDir := s.now])
    case AddEntry(path) =>
      var e := s.op.inventory[path];
      h.(changed := h.changed[s.op.dir := s.now],
         blobs := if e.File? && e.blob !in s.blobs then h.blobs[e.blob := s.now] else h.blobs)
    case DropStaged(_) => h.(changed := h.changed[s.op.dir := s.now])
    case DropEntry(_) => h.(changed := h.changed[s.packages[s.op.digest] := s.now])
    case _ => h
  }

  function Told(s: Store, h: History, steps: seq<Step>): History
    requires Legal(s, steps)
    decreases |steps|
  {
    if steps == [] then h else Told(Next(s, steps[0]), Noted(s, h, steps[0]), steps[1..])
  }

  // Modification times lie between the making and the last change; a blob keeps the time of its making.
  ghost predicate Dated(s: Store, h: History) {
    && (forall i | 0 <= i < s.nextDir :: DirectoryDated(s, h, i))
    && (forall b | b in s.blobs :: b in h.blobs && s.blobs[b].stamp == h.blobs[b] <= s.now)
  }

  predicate DirectoryDated(s: Store, h: History, i: DirId) {
    i in h.made && i in h.changed && h.made[i] <= Stamp(s.stamps, i) <= h.changed[i] <= s.now
  }

  lemma {:induction false} DirectoryStaysDated(s: Store, h: History, m: Step, i: DirId)
    requires Enabled(s, m) && (i < s.nextDir ==> DirectoryDated(s, h, i)) && i < Next(s, m).nextDir
    ensures DirectoryDated(Next(s, m), Noted(s, h, m), i)
  {
  }

  lemma {:induction false} DirectoriesStayDated(s: Store, h: History, m: Step)
    requires Dated(s, h) && Enabled(s, m)
    ensures forall i | 0 <= i < Next(s, m).nextDir :: DirectoryDated(Next(s, m), Noted(s, h, m), i)
  {
    forall i | 0 <= i < Next(s, m).nextDir ensures DirectoryDated(Next(s, m), Noted(s, h, m), i) {
      DirectoryStaysDated(s, h, m, i);
    }
  }

  lemma {:induction false} BlobsStayDated(s: Store, h: History, m: Step)
    requires Dated(s, h) && Enabled(s, m)
    ensures var t, g := Next(s, m), Noted(s, h, m); forall b | b in t.blobs :: b in g.blobs && t.blobs[b].stamp == g.blobs[b] <= t.now
  {
  }

  lemma {:induction false} RunsStayDated(s: Store, h: History, steps: seq<Step>)
    requires Placed(s) && Dated(s, h) && Legal(s, steps)
    ensures Placed(After(s, steps)) && Dated(After(s, steps), Told(s, h, steps))
    decreases |steps|
  {
    if steps != [] {
      StepKeepsPlaced(s, steps[0]);
      DirectoriesStayDated(s, h, steps[0]);
      BlobsStayDated(s, h, steps[0]);
      RunsStayDated(Next(s, steps[0]), Noted(s, h, steps[0]), steps[1..]);
    }
  }

  lemma {:induction false} ReachedIsDated(steps: seq<Step>)
    requires Legal(EMPTY, steps)
    ensures Placed(After(EMPTY, steps)) && Dated(After(EMPTY, steps), Told(EMPTY, UNWRITTEN, steps))
  {
    assert Placed(EMPTY) && Dated(EMPTY, UNWRITTEN);
    RunsStayDated(EMPTY, UNWRITTEN, steps);
  }

  lemma {:induction false} PackageIsDated(s: Store, h: History, d: Digest)
    requires Placed(s) && Dated(s, h) && d in s.packages
    ensures DirectoryDated(s, h, s.packages[d])
  {
  }

  // Every collection of the run takes its cutoff at least `grace` before its start.
  predicate KeepsGrace(s: Store, steps: seq<Step>, grace: real)
    requires Legal(s, steps)
    decreases |steps|
  {
    steps != [] ==>
      (steps[0].Collect? ==> steps[0].cutoff <= s.now - grace) && KeepsGrace(Next(s, steps[0]), steps[1..], grace)
  }

  predicate CutoffPast(s: Store, grace: real) {
    s.op.Collecting? || s.op.Removing? ==> s.op.cutoff <= s.now - grace
  }

  lemma {:induction false} CutoffStaysPast(s: Store, steps: seq<Step>, grace: real)
    requires CutoffPast(s, grace) && Legal(s, steps) && KeepsGrace(s, steps, grace)
    ensures CutoffPast(After(s, steps), grace)
    decreases |steps|
  {
    if steps != [] {
      CutoffStaysPast(Next(s, steps[0]), steps[1..], grace);
    }
  }

  /** No run, with crashes anywhere, takes a package or a blob away within the grace period of its making. */
  lemma {:induction false} YoungOnesStay(steps: seq<Step>, grace: real, m: Step)
    requires Legal(EMPTY, steps) && KeepsGrace(EMPTY, steps, grace) && Enabled(After(EMPTY, steps), m)
    ensures var s, h := After(EMPTY, steps), Told(EMPTY, UNWRITTEN, steps);
      && (m.Remove? ==> s.packages[m.digest] in h.made && h.made[s.packages[m.digest]] < s.now - grace)
      && (m.DropBlob? ==> m.blob in h.blobs && h.blobs[m.blob] < s.now - grace)
  {
    ReachedIsDated(steps);
    CutoffStaysPast(EMPTY, steps, grace);
    if m.Remove? {
      PackageIsDated(After(EMPTY, steps), Told(EMPTY, UNWRITTEN, steps), m.digest);
    }
  }

  /** A collection that takes its cutoff from the clock keeps the grace period. */
  lemma {:induction false} CollectionsKeepGrace(s: Store, grace: real)
    requires s.op.Idle? && grace >= 0.0
    ensures Enabled(s, Collect(s.now - grace)) && KeepsGrace(s, [Collect(s.now - grace)], grace)
  {
    assert [Collect(s.now - grace)][1..] == [];
  }

  /** A package that only a deleted workspace named is no longer named when the next collection starts. */
  lemma {:induction false} DeletedReferencesGo(s: Store, w: Workspace, d: Digest, cutoff: real)
    requires s.op.Idle? && cutoff <= s.now && forall v | v in s.manifests && d in s.manifests[v] :: v == w
    ensures var t := Next(Next(s, DeleteWorkspace(w)), Collect(cutoff)); t.op.Collecting? && d !in t.op.referenced
    ensures forall v | v in s.manifests && v != w :: Pointed(Next(s, DeleteWorkspace(w)).manifests, v) == s.manifests[v]
  {
  }

  /** What was last changed before the cutoff can be collected, if no manifest named it and no entry links to it. */
  lemma {:induction false} OldOnesGo(steps: seq<Step>, d: Digest, b: Blob)
    requires Legal(EMPTY, steps) && After(EMPTY, steps).op.Collecting?
    ensures var s, h := After(EMPTY, steps), Told(EMPTY, UNWRITTEN, steps);
      && (d in s.packages && d !in s.op.referenced && s.packages[d] in h.changed && h.changed[s.packages[d]] < s.op.cutoff ==>
            Enabled(s, Remove(d)))
      && (b in s.blobs && Linked(s.entries, b) == {} && b in h.blobs && h.blobs[b] < s.op.cutoff ==> Enabled(s, DropBlob(b)))
  {
    ReachedIsDated(steps);
    LinksStayCounted(EMPTY, steps);
    if d in After(EMPTY, steps).packages {
      PackageIsDated(After(EMPTY, steps), Told(EMPTY, UNWRITTEN, steps), d);
    }
  }

  // No package that was made since the cutoff is missing.
  ghost predicate YoungKept(s: Store, h: History, cutoff: real, packages: map<Digest, DirId>) {
    forall d | d in s.packages :: s.packages[d] in h.made && (h.made[s.packages[d]] >= cutoff ==> d in packages)
  }

  lemma {:induction false} YoungIsNoGarbage(steps: seq<Step>, cutoff: real)
    requires Legal(EMPTY, steps)
    ensures var s := After(EMPTY, steps);
      YoungKept(s, Told(EMPTY, UNWRITTEN, steps), cutoff, s.packages - Garbage(s, cutoff))
  {
    ReachedIsDated(steps);
    var s, h := After(EMPTY, steps), Told(EMPTY, UNWRITTEN, steps);
    forall d | d in s.packages
      ensures s.packages[d] in h.made && (h.made[s.packages[d]] >= cutoff ==> d in s.packages - Garbage(s, cutoff))
    {
      PackageIsDated(s, h, d);
    }
  }

  lemma {:induction false} LinksStayCounted(s: Store, steps: seq<Step>)
    requires LinksCounted(s.entries, s.blobs) && Legal(s, steps)
    ensures LinksCounted(After(s, steps).entries, After(s, steps).blobs)
    decreases |steps|
  {
    if steps != [] {
      StepKeepsLinks(s, steps[0]);
      LinksStayCounted(Next(s, steps[0]), steps[1..]);
    }
  }

  // ------------------------------------------------------------------------------------------
  // The operations as loops of steps
  // ------------------------------------------------------------------------------------------

  /** The store on disk.  Each operation is a legal sequence of steps, so what holds of all runs holds of it. */
  class Storage {
    var disk: Store
    ghost var steps: seq<Step>

    ghost predicate Traced()
      reads this
    {
      Legal(EMPTY, steps) && NeverBreaks(EMPTY, steps) && disk == After(EMPTY, steps)
    }

    constructor ()
      ensures Traced()
    {
      disk, steps := EMPTY, [];
    }

    method Do(m: Step)
      requires Traced() && Enabled(disk, m) && !Breaks(disk, m)
      modifies this
      ensures Traced() && disk == Next(old(disk), m)
    {
      MoreSteps(EMPTY, steps, m);
      steps := steps + [m];
      disk := Next(disk, m);
    }

    // Copies an inventory into the new directory, entry by entry.
    method Fill(dir: DirId, inventory: Inventory)
      requires Traced() && disk.op == Publishing(dir, inventory) && InventoryOf(disk.entries, dir) == map[]
      modifies this
      ensures Traced() && InventoryOf(disk.entries, dir) == inventory
      ensures disk == old(disk).(entries := disk.entries, blobs := disk.blobs, stamps := disk.stamps)
      ensures Stamp(old(disk.stamps), dir) >= old(disk.now) ==> Stamp(disk.stamps, dir) >= old(disk.now)
    {
      var todo := inventory.Keys;
      while todo != {}
        invariant Traced() && todo <= inventory.Keys
        invariant disk == old(disk).(entries := disk.entries, blobs := disk.blobs, stamps := disk.stamps)
        invariant InventoryOf(disk.entries, dir) == Copied(inventory, todo)
        invariant Stamp(old(disk.stamps), dir) >= disk.now ==> Stamp(disk.stamps, dir) >= disk.now
        decreases todo
      {
        var path :| path in todo;
        OneEntryAdded(disk, dir, inventory, todo, path);
        Do(AddEntry(path));
        todo := todo - {path};
      }
      assert Copied(inventory, {}) == inventory;
    }

    // Publishes a version that does not exist yet.
    method Publish(inventory: Inventory)
      requires Traced() && disk.op.Idle? && Digest(inventory) !in disk.packages
      modifies this
      ensures Traced() && disk.op.Idle? && Intact(disk, Digest(inventory))
      ensures disk.packages == old(disk.packages)[Digest(inventory) := old(disk.nextDir)]
      ensures disk.manifests == old(disk.manifests)
      ensures Stamp(disk.stamps, old(disk.nextDir)) >= old(disk.now)
    {
      var dir := disk.nextDir;
      NewDirectoryEmpty(steps);
      Do(Stage(inventory));
      Fill(dir, inventory);
      Do(Rename);
    }

    /** A publication that fails, at any point before its rename, leaves packages, manifests and all directories but
        its own as they were, and its own is gone. */
    method AbandonPublication()
      requires Traced() && disk.op.Publishing?
      modifies this
      ensures Traced() && disk.op.Idle? && disk.packages == old(disk.packages) && disk.manifests == old(disk.manifests)
      ensures disk.entries == Left(old(disk.entries), old(disk.op.dir), {})
      ensures disk.stagings == old(disk.stagings) - {old(disk.op.dir)}
    {
      var dir := disk.op.dir;
      var todo := set k | k in disk.entries && k.dir == dir;
      EntriesLeft(disk.entries, dir, todo);
      while todo != {}
        invariant Traced() && forall k | k in todo :: k in old(disk.entries) && k.dir == dir
        invariant disk == old(disk).(entries := Left(old(disk.entries), dir, todo), blobs := disk.blobs, stamps := disk.stamps)
        decreases todo
      {
        var key :| key in todo;
        OneFewer(old(disk.entries), dir, todo, key);
        assert key == Key(dir, key.path);
        Do(DropStaged(key.path));
        todo := todo - {key};
      }
      Do(EndStaged);
    }

    // `reference`: publish the version unless it exists, then write the manifest.
    method Reference(w: Workspace, inventory: Inventory) returns (dir: DirId)
      requires Traced() && disk.op.Idle?
      modifies this
      ensures Traced() && disk.op.Idle?
      ensures Resolve(disk, w, Digest(inventory)) == Ok(dir) && InventoryOf(disk.entries, dir) == inventory
      ensures dir == if Digest(inventory) in old(disk.packages) then old(disk.packages)[Digest(inventory)] else old(disk.nextDir)
      ensures disk.packages == old(disk.packages)[Digest(inventory) := dir]
      ensures disk.manifests == old(disk.manifests)[w := Pointed(old(disk.manifests), w) + {Digest(inventory)}]
      ensures Digest(inventory) !in old(disk.packages) ==> Stamp(disk.stamps, dir) >= old(disk.now)
    {
      if Digest(inventory) in disk.packages {
        PackageIntact(steps, Digest(inventory));
      } else {
        Publish(inventory);
      }
      dir := disk.packages[Digest(inventory)];
      Do(Point(w, Digest(inventory)));
    }

    method EmptyDirectory(d: Digest)
      requires Traced() && disk.op.Removing? && disk.op.digest == d && d in disk.packages
      modifies this
      ensures Traced()
      ensures disk == old(disk).(entries := Left(old(disk.entries), old(disk.packages)[d], {}), blobs := disk.blobs, stamps := disk.stamps)
      ensures SameBlobs(old(disk.blobs), disk.blobs) && SameStamps(old(disk.stamps), disk.stamps, old(disk.packages)[d])
    {
      var dir := disk.packages[d];
      var todo := set k | k in disk.entries && k.dir == dir;
      EntriesLeft(disk.entries, dir, todo);
      while todo != {}
        invariant Traced() && forall k | k in todo :: k in old(disk.entries) && k.dir == dir
        invariant disk == old(disk).(entries := Left(old(disk.entries), dir, todo), blobs := disk.blobs, stamps := disk.stamps)
        invariant SameBlobs(old(disk.blobs), disk.blobs) && SameStamps(old(disk.stamps), disk.stamps, dir)
        decreases todo
      {
        var key :| key in todo;
        OneFewer(old(disk.entries), dir, todo, key);
        OneEntryDropped(old(disk), disk, dir, todo, key);
        Do(DropEntry(key.path));
        todo := todo - {key};
      }
    }

    // Empties the directory of an unreferenced old package and removes it.
    method RemovePackage(d: Digest)
      requires Traced() && Enabled(disk, Remove(d))
      modifies this
      ensures Traced() && disk == Removed(old(disk), d, disk.blobs, disk.stamps)
      ensures SameBlobs(old(disk.blobs), disk.blobs) && SameStamps(old(disk.stamps), disk.stamps, old(disk.packages)[d])
    {
      Do(Remove(d));
      EmptyDirectory(d);
      Do(EndRemove);
    }

    method RemovePackages(victims: set<Digest>) returns (removed: nat)
      requires Traced() && disk.op.Collecting? && AllRemovable(disk, victims)
      modifies this
      ensures Traced() && disk.op == old(disk.op) && disk.manifests == old(disk.manifests)
      ensures disk.packages == old(disk.packages) - victims && removed == |victims|
      ensures SameBlobs(old(disk.blobs), disk.blobs)
    {
      removed := 0;
      var todo := victims;
      while todo != {}
        invariant Traced() && todo <= victims && removed == |victims| - |todo|
        invariant disk.op == old(disk.op) && disk.manifests == old(disk.manifests)
        invariant disk.packages == old(disk.packages) - (victims - todo)
        invariant SameBlobs(old(disk.blobs), disk.blobs)
        invariant AllRemovable(disk, todo)
        decreases todo
      {
        var d :| d in todo;
        ghost var before := disk;
        PackagesApart(steps);
        RemovePackage(d);
        OthersStillRemovable(before, disk, d, todo);
        OnePackageFewer(old(disk.packages), victims, todo, d);
        removed := removed + 1;
        todo := todo - {d};
      }
    }

    method RemoveBlobs()
      requires Traced() && disk.op.Collecting?
      modifies this
      ensures Traced() && disk == old(disk).(blobs := disk.blobs)
      ensures disk.blobs == map b | b in old(disk.blobs) && !Loose(old(disk), b) :: old(disk.blobs)[b]
    {
      var todo := disk.blobs.Keys;
      while todo != {}
        invariant Traced() && todo <= old(disk.blobs).Keys && disk == old(disk).(blobs := disk.blobs)
        invariant disk.blobs == Kept(old(disk), todo)
        decreases todo
      {
        var b :| b in todo;
        OneBlobFewer(old(disk), todo, b);
        if disk.blobs[b].links == 1 && disk.blobs[b].stamp < disk.op.cutoff {
          Do(DropBlob(b));
        }
        todo := todo - {b};
      }
    }

    /** Collection removes exactly the packages no manifest names and the blobs no entry links to, if they
        are older than the grace period, and counts the packages. */
    method CollectGarbage(grace: real) returns (removed: nat)
      requires Traced() && disk.op.Idle? && grace >= 0.0
      modifies this
      ensures Traced() && disk.op.Idle? && disk.manifests == old(disk.manifests)
      ensures disk.packages == old(disk.packages) - Garbage(old(disk), old(disk.now) - grace)
      ensures removed == |Garbage(old(disk), old(disk.now) - grace)|
      ensures YoungKept(old(disk), old(Told(EMPTY, UNWRITTEN, steps)), old(disk.now) - grace, disk.packages)
      ensures forall b :: b in disk.blobs <==>
        b in old(disk.blobs) && (Linked(disk.entries, b) != {} || old(disk.blobs)[b].stamp >= old(disk.now) - grace)
    {
      YoungIsNoGarbage(steps, disk.now - grace);
      removed := Sweep(disk.now - grace);
    }

    method Sweep(cutoff: real) returns (removed: nat)
      requires Traced() && disk.op.Idle? && cutoff <= disk.now
      modifies this
      ensures Traced() && disk.op.Idle? && disk.manifests == old(disk.manifests)
      ensures disk.packages == old(disk.packages) - Garbage(old(disk), cutoff)
      ensures removed == |Garbage(old(disk), cutoff)|
      ensures forall b :: b in disk.blobs <==>
        b in old(disk.blobs) && (Linked(disk.entries, b) != {} || old(disk.blobs)[b].stamp >= cutoff)
    {
      var garbage := Garbage(disk, cutoff);
      Do(Collect(cutoff));
      removed := RemovePackages(garbage);
      ghost var middle := disk;
      CountsHold(steps);
      RemoveBlobs();
      forall b | b in middle.blobs
        ensures Loose(middle, b) <==> Linked(middle.entries, b) == {} && old(disk.blobs)[b].stamp < cutoff
      {
        assert middle.blobs[b].links == 1 + |Linked(middle.entries, b)|;
      }
      Do(EndCollect);
    }
  }

  function Garbage(s: Store, cutoff: real): set<Digest> {
    set d | d in s.packages && d !in Referenced(s.manifests) && Stamp(s.stamps, s.packages[d]) < cutoff
  }

  predicate Loose(s: Store, b: Blob)
    requires s.op.Collecting?
  {
    b in s.blobs && s.blobs[b].links == 1 && s.blobs[b].stamp < s.op.cutoff
  }

  function Left(entries: map<Key, Entry>, dir: DirId, todo: set<Key>): map<Key, Entry> {
    map k | k in entries && (k.dir != dir || k in todo) :: entries[k]
  }

  function Removed(s: Store, d: Digest, blobs: map<Blob, Info>, stamps: map<DirId, real>): Store
    requires d in s.packages
  {
    s.(packages := s.packages - {d}, entries := Left(s.entries, s.packages[d], {}), blobs := blobs, stamps := stamps)
  }

  predicate SameBlobs(blobs: map<Blob, Info>, blobs': map<Blob, Info>) {
    blobs.Keys == blobs'.Keys && forall b | b in blobs :: blobs'[b].stamp == blobs[b].stamp
  }

  ghost predicate SameStamps(stamps: map<DirId, real>, stamps': map<DirId, real>, dir: DirId) {
    forall i: DirId | i != dir :: Stamp(stamps', i) == Stamp(stamps, i)
  }

  lemma {:induction false} EntriesLeft(entries: map<Key, Entry>, dir: DirId, todo: set<Key>)
    requires forall k | k in entries && k.dir == dir :: k in todo
    ensures Left(entries, dir, todo) == entries
  {
  }

  // The blobs that are still to be looked at, or that stay.
  function Kept(s: Store, todo: set<Blob>): map<Blob, Info>
    requires s.op.Collecting?
  {
    map b | b in s.blobs && (b in todo || !Loose(s, b)) :: s.blobs[b]
  }

  lemma {:induction false} OneBlobFewer(s: Store, todo: set<Blob>, b: Blob)
    requires s.op.Collecting? && b in todo && todo <= s.blobs.Keys
    ensures b in Kept(s, todo) && Kept(s, todo)[b] == s.blobs[b]
    ensures Kept(s, todo - {b}) == if Loose(s, b) then Kept(s, todo) - {b} else Kept(s, todo)
  {
  }

  lemma {:induction false} OneEntryAdded(s: Store, dir: DirId, inventory: Inventory, todo: set<Path>, path: Path)
    requires s.op == Publishing(dir, inventory) && path in todo && todo <= inventory.Keys
    requires InventoryOf(s.entries, dir) == Copied(inventory, todo)
    ensures Enabled(s, AddEntry(path))
    ensures var t := Next(s, AddEntry(path));
      && t == s.(entries := t.entries, blobs := t.blobs, stamps := t.stamps)
      && InventoryOf(t.entries, dir) == Copied(inventory, todo - {path})
      && (Stamp(s.stamps, dir) >= s.now ==> Stamp(t.stamps, dir) >= s.now)
  {
    EntryAbsent(s.entries, dir, path);
    EntryAdded(s.entries, dir, path, inventory[path]);
    OneMoreCopied(inventory, todo, path);
  }

  lemma {:induction false} OneEntryDropped(was: Store, s: Store, dir: DirId, todo: set<Key>, key: Key)
    requires key in todo && key.dir == dir && key in s.entries && Enabled(s, DropEntry(key.path)) && s.packages[s.op.digest] == dir
    requires s == was.(entries := Left(was.entries, dir, todo), blobs := s.blobs, stamps := s.stamps)
    requires Left(was.entries, dir, todo - {key}) == Left(was.entries, dir, todo) - {key}
    requires SameBlobs(was.blobs, s.blobs) && SameStamps(was.stamps, s.stamps, dir)
    ensures var t := Next(s, DropEntry(key.path));
      && t == was.(entries := Left(was.entries, dir, todo - {key}), blobs := t.blobs, stamps := t.stamps)
      && SameBlobs(was.blobs, t.blobs) && SameStamps(was.stamps, t.stamps, dir)
  {
    assert key == Key(dir, key.path);
  }

  lemma {:induction false} OneFewer(entries: map<Key, Entry>, dir: DirId, todo: set<Key>, key: Key)
    requires key in todo && key in entries && key.dir == dir
    ensures key in Left(entries, dir, todo)
    ensures Left(entries, dir, todo - {key}) == Left(entries, dir, todo) - {key}
  {
  }

  predicate AllRemovable(s: Store, victims: set<Digest>) {
    forall d | d in victims :: Enabled(s, Remove(d))
  }

  lemma {:induction false} OthersStillRemovable(s: Store, t: Store, d: Digest, todo: set<Digest>)
    requires Placed(s) && d in todo && AllRemovable(s, todo)
    requires t == Removed(s, d, t.blobs, t.stamps) && SameStamps(s.stamps, t.stamps, s.packages[d])
    ensures AllRemovable(t, todo - {d})
  {
    forall e | e in todo - {d} ensures Enabled(t, Remove(e)) {
      assert Enabled(s, Remove(e)) && s.packages[e] != s.packages[d];
    }
  }

  lemma {:induction false} OnePackageFewer(packages: map<Digest, DirId>, victims: set<Digest>, todo: set<Digest>, d: Digest)
    requires d in todo && todo <= victims
    ensures packages - (victims - todo) - {d} == packages - (victims - (todo - {d}))
  {
  }

  lemma {:induction false} PackagesApart(steps: seq<Step>)
    requires Legal(EMPTY, steps) && NeverBreaks(EMPTY, steps)
    ensures Placed(After(EMPTY, steps))
  {
    RunsKeepInvariant(EMPTY, steps);
  }

  lemma {:induction false} CountsHold(steps: seq<Step>)
    requires Legal(EMPTY, steps) && NeverBreaks(EMPTY, steps)
    ensures LinksCounted(After(EMPTY, steps).entries, After(EMPTY, steps).blobs)
  {
    RunsKeepInvariant(EMPTY, steps);
  }

  function Copied(inventory: Inventory, todo: set<Path>): Inventory {
    map p | p in inventory && p !in todo :: inventory[p]
  }

  lemma {:induction false} OneMoreCopied(inventory: Inventory, todo: set<Path>, path: Path)
    requires path in todo && todo <= inventory.Keys
    ensures Copied(inventory, todo - {path}) == Copied(inventory, todo)[path := inventory[path]]
  {
  }

  lemma {:induction false} NewDirectoryEmpty(steps: seq<Step>)
    requires Legal(EMPTY, steps) && NeverBreaks(EMPTY, steps)
    ensures var s := After(EMPTY, steps); InventoryOf(s.entries, s.nextDir) == map[]
  {
    RunsKeepInvariant(EMPTY, steps);
  }

  lemma {:induction false} PackageIntact(steps: seq<Step>, d: Digest)
    requires Legal(EMPTY, steps) && NeverBreaks(EMPTY, steps)
    requires After(EMPTY, steps).op.Idle? && d in After(EMPTY, steps).packages
    ensures Intact(After(EMPTY, steps), d)
  {
    RunsKeepInvariant(EMPTY, steps);
  }

  lemma {:induction false} EntryAbsent(entries: map<Key, Entry>, dir: DirId, path: Path)
    ensures path in InventoryOf(entries, dir) <==> Key(dir, path) in entries
  {
  }

  lemma {:induction false} MoreSteps(s: Store, steps: seq<Step>, m: Step)
    requires Legal(s, steps) && NeverBreaks(s, steps) && Enabled(After(s, steps), m) && !Breaks(After(s, steps), m)
    ensures Legal(s, steps + [m]) && NeverBreaks(s, steps + [m])
    ensures After(s, steps + [m]) == Next(After(s, steps), m)
    decreases |steps|
  {
    if steps == [] {
      assert steps + [m] == [m];
      assert [m][1..] == [];
    } else {
      assert (steps + [m])[1..] == steps[1..] + [m];
      MoreSteps(Next(s, steps[0]), steps[1..], m);
    }
  }

  lemma {:induction false} EntryAdded(entries: map<Key, Entry>, dir: DirId, path: Path, e: Entry)
    ensures InventoryOf(entries[Key(dir, path) := e], dir) == InventoryOf(entries, dir)[path := e]
  {
    assert forall k: Key :: k in entries[Key(dir, path) := e] <==> k in entries || k == Key(dir, path);
    assert forall p :: p in InventoryOf(entries[Key(dir, path) := e], dir) <==> Key(dir, p) in entries[Key(dir, path) := e];
    assert forall p :: p in InventoryOf(entries, dir) <==> Key(dir, p) in entries;
  }

  // ------------------------------------------------------------------------------------------
  // A crash while a package is being removed
  // ------------------------------------------------------------------------------------------

  const ONE_DIRECTORY: Inventory := map["a" := Dir]

  const REUSED: seq<Step> := [
    Stage(ONE_DIRECTORY), AddEntry("a"), Rename, Tick(2.0), Collect(1.0), Remove(Digest(ONE_DIRECTORY)), DropEntry("a"), Crash,
    Point("w", Digest(ONE_DIRECTORY))]

  lemma {:induction false} Walk(s: Store, steps: seq<Step>, i: nat, t: Store)
    requires i < |steps| && Enabled(s, steps[i]) && Next(s, steps[i]) == t && Legal(t, steps[i + 1..])
    ensures Legal(s, steps[i..]) && After(s, steps[i..]) == After(t, steps[i + 1..])
  {
    assert steps[i..][1..] == steps[i + 1..];
  }

  lemma {:induction false} OneEntry(entries: map<Key, Entry>)
    ensures entries == map[] ==> InventoryOf(entries, 0) != ONE_DIRECTORY
    ensures entries == map[Key(0, "a") := Dir] ==> InventoryOf(entries, 0) == ONE_DIRECTORY
  {
    assert "a" in ONE_DIRECTORY;
    if entries == map[Key(0, "a") := Dir] {
      assert InventoryOf(entries, 0).Keys == {"a"};
    }
  }

  lemma {:induction false} PackageStaged(s2: Store, t: Store)
    requires s2.op == Publishing(0, ONE_DIRECTORY) && s2.entries == map[Key(0, "a") := Dir]
    requires s2.packages == map[] && s2.stagings == {0}
    requires t == s2.(packages := map[Digest(ONE_DIRECTORY) := 0], stagings := {}, op := Idle)
    requires Legal(t, REUSED[3..])
    ensures Legal(s2, REUSED[2..]) && After(s2, REUSED[2..]) == After(t, REUSED[3..])
  {
    OneEntry(s2.entries);
    var m := Rename;
    assert Enabled(s2, m) && Next(s2, m) == t;
    Walk(s2, REUSED, 2, t);
  }

  lemma {:induction false} PackagePublished(t: Store)
    requires t == EMPTY.(packages := map[Digest(ONE_DIRECTORY) := 0], entries := map[Key(0, "a") := Dir],
                         stamps := map[0 := 0.0], nextDir := 1)
    requires Legal(t, REUSED[3..])
    ensures Legal(EMPTY, REUSED) && After(EMPTY, REUSED) == After(t, REUSED[3..])
  {
    var s1 := EMPTY.(stagings := {0}, stamps := map[0 := 0.0], nextDir := 1, op := Publishing(0, ONE_DIRECTORY));
    var s2 := s1.(entries := map[Key(0, "a") := Dir]);
    PackageStaged(s2, t);
    Walk(s1, REUSED, 1, s2);
    Walk(EMPTY, REUSED, 0, s1);
    assert REUSED[0..] == REUSED;
  }

  lemma {:induction false} PackageEmptied(s: Store, t: Store)
    requires s.op.Idle? && s.now >= 1.0 && s.manifests == map[] && s.packages == map[Digest(ONE_DIRECTORY) := 0]
    requires s.entries == map[Key(0, "a") := Dir] && s.stamps == map[0 := 0.0]
    requires t == s.(entries := map[], stamps := map[0 := s.now], op := Removing({}, 1.0, Digest(ONE_DIRECTORY)))
    requires Legal(t, REUSED[7..])
    ensures Legal(s, REUSED[4..]) && After(s, REUSED[4..]) == After(t, REUSED[7..])
  {
    var s4 := s.(op := Collecting({}, 1.0));
    var s5 := s.(op := Removing({}, 1.0, Digest(ONE_DIRECTORY)));
    assert Referenced(s.manifests) == {} && s.entries - {Key(0, "a")} == map[];
    Walk(s5, REUSED, 6, t);
    Walk(s4, REUSED, 5, s5);
    Walk(s, REUSED, 4, s4);
  }

  lemma {:induction false} PackagePointed(s: Store, t: Store)
    requires s.packages == map[Digest(ONE_DIRECTORY) := 0] && s.manifests == map[] && s.op.Idle?
    requires t == s.(manifests := map["w" := {Digest(ONE_DIRECTORY)}])
    ensures Legal(s, REUSED[8..]) && After(s, REUSED[8..]) == t
  {
    assert Pointed(s.manifests, "w") + {Digest(ONE_DIRECTORY)} == {Digest(ONE_DIRECTORY)};
    assert Next(s, Point("w", Digest(ONE_DIRECTORY))) == t;
    assert REUSED[9..] == [];
    Walk(s, REUSED, 8, t);
  }

  lemma {:induction false} PackageReused(s: Store)
    requires s.packages == map[Digest(ONE_DIRECTORY) := 0] && s.entries == map[] && s.manifests == map[]
    ensures Legal(s, REUSED[7..])
    ensures var t := After(s, REUSED[7..]);
      Resolve(t, "w", Digest(ONE_DIRECTORY)).Ok? && !Intact(t, Digest(ONE_DIRECTORY))
  {
    var s7 := s.(op := Idle);
    var t := s7.(manifests := map["w" := {Digest(ONE_DIRECTORY)}]);
    PackagePointed(s7, t);
    assert Next(s, Crash) == s7;
    Walk(s, REUSED, 7, s7);
    OneEntry(t.entries);
  }

  /** The condition on crashes is needed: a half-removed package is taken for the version it is named after,
      and a manifest comes to point at a directory that lacks its entries. */
  lemma {:induction false} HalfRemovedPackageIsReused()
    ensures Legal(EMPTY, REUSED)
    ensures var s := After(EMPTY, REUSED);
      Resolve(s, "w", Digest(ONE_DIRECTORY)).Ok? && !Intact(s, Digest(ONE_DIRECTORY))
  {
    var published := EMPTY.(packages := map[Digest(ONE_DIRECTORY) := 0], entries := map[Key(0, "a") := Dir],
                            stamps := map[0 := 0.0], nextDir := 1);
    var ticked := published.(now := 2.0);
    var emptied := ticked.(entries := map[], stamps := map[0 := 2.0], op := Removing({}, 1.0, Digest(ONE_DIRECTORY)));
    PackageReused(emptied);
    PackageEmptied(ticked, emptied);
    Walk(published, REUSED, 3, ticked);
    PackagePublished(published);
  }
}
