/** The part of a file system that a publication relies on.

    A directory entry exists twice: as running processes see it (`live`) and as
    it would be found after a power loss (`durable`). Only syncing the directory
    makes the second follow the first, and a directory that was made has an entry
    of its own in the directory above it. In the same way the bytes of a file
    survive only once the file itself has been synced.
 */
module Files {
  import Naming

  newtype Byte = b: int | 0 <= b < 256
  type Bytes = seq<Byte>

  /** `staging/<job>/<artifact>`, or a path under `library/` or `derived/`. */
  datatype Path = Staged(job: nat, artifact: nat) | Library(rel: string)

  /** `staging/` and the data root, `LibraryDir("")`, are there from the beginning. */
  datatype Dir = StagingRoot | StagingDir(job: nat) | LibraryDir(path: string)
  {
    predicate Root() { StagingRoot? || (LibraryDir? && path == "") }

    function Depth(): nat
    {
      match this
      case StagingRoot => 0
      case StagingDir(_) => 1
      case LibraryDir(path) => |path|
    }

    /** `"library/a/"` is in `"library/"`, which is in `""`. */
    function Parent(): (d: Dir)
      requires !Root()
      ensures d.Depth() < Depth()
    {
      match this
      case StagingDir(_) => StagingRoot
      case LibraryDir(path) => LibraryDir(path[..Naming.NameStart(path[..|path| - 1])])
    }

    predicate Inside(d: Dir) { !Root() && Parent() == d }
  }

  datatype File = File(bytes: Bytes, synced: bool)

  datatype Fs = Fs(
    live: map<Path, File>,
    durable: map<Path, File>,
    dirs: set<Dir>,          // the directories that exist
    durableDirs: set<Dir>)   // those whose entry in the directory above is durable
  {
    function Put(p: Path, f: File): Fs { this.(live := live[p := f]) }

    function Unlink(p: Path): Fs { this.(live := live - {p}) }

    /** fsync of the directory `d`: of the files and of the directories in it. */
    function SyncDir(d: Dir): (after: Fs)
      ensures after == this.(durable := after.durable, durableDirs := after.durableDirs)
      ensures forall p :: DirOf(p) == d ==> (p in after.durable <==> p in live) && (p in live ==>
          after.durable[p] == live[p])
      ensures forall p :: DirOf(p) != d ==> (p in after.durable <==> p in durable) && (p in durable ==>
          after.durable[p] == durable[p])
      ensures forall c :: c in after.durableDirs <==> if c.Inside(d) then c in dirs else c in durableDirs
    {
      this.(durable :=
              (map p | p in durable && DirOf(p) != d :: durable[p]) +
              (map p | p in live && DirOf(p) == d :: live[p]),
            durableDirs :=
              (set c | c in durableDirs && !c.Inside(d)) + (set c | c in dirs && c.Inside(d)))
    }

    /** mkdir of `d` and of what is missing above it. Nothing is synced. */
    function MakeDirs(d: Dir): Fs
    {
      this.(dirs := dirs + Chain(d), durableDirs := durableDirs - (Chain(d) - dirs))
    }

    /** `d` can be reached now. */
    predicate Standing(d: Dir) { Rooted(dirs, d) }

    /** `d` can be reached now and after a power loss. */
    predicate Lasting(d: Dir) { Rooted(dirs * durableDirs, d) }
  }

  function DirOf(p: Path): Dir
  {
    match p
    case Staged(job, _) => StagingDir(job)
    case Library(rel) => LibraryDir(rel[..Naming.NameStart(rel)])
  }

  /** `d` and everything above it is in `dirs`. */
  predicate Rooted(dirs: set<Dir>, d: Dir)
    decreases d.Depth()
  {
    d.Root() || (d in dirs && Rooted(dirs, d.Parent()))
  }

  function Chain(d: Dir): set<Dir>
    decreases d.Depth()
  {
    if d.Root() then {} else {d} + Chain(d.Parent())
  }

  lemma {:induction false} RootedMore(dirs: set<Dir>, more: set<Dir>, d: Dir)
    requires Rooted(dirs, d) && dirs <= more
    ensures Rooted(more, d)
    decreases d.Depth()
  {
    if !d.Root() { RootedMore(dirs, more, d.Parent()); }
  }

  lemma {:induction false} ChainRooted(dirs: set<Dir>, d: Dir)
    requires Chain(d) <= dirs
    ensures Rooted(dirs, d)
    decreases d.Depth()
  {
    if !d.Root() { ChainRooted(dirs, d.Parent()); }
  }

  /** What is found at `p` has its bytes among `good` now, and will have whatever
      happens to the power. */
  predicate Solid(fs: Fs, p: Path, good: set<Bytes>)
  {
    && p in fs.live && fs.live[p].synced && fs.live[p].bytes in good
    && p in fs.durable && fs.durable[p].synced && fs.durable[p].bytes in good
    && fs.Lasting(DirOf(p))
  }

  /** `after` is one of the states the disk may show once power has returned:
      every entry comes from the live or the durable directory, an entry on which
      both agree is kept where the directory is, and unsynced bytes may be anything. */
  predicate PowerLoss(before: Fs, after: Fs)
  {
    && after.durable == after.live
    && after.durableDirs == after.dirs
    && after.dirs <= before.dirs + before.durableDirs
    && (forall d :: d in after.dirs ==> after.Standing(d))
    && (forall d :: d in before.dirs && d in before.durableDirs && !d.Root() && after.Standing(d.Parent()) ==>
          d in after.dirs)
    && (forall p :: p in after.live ==>
          && after.live[p].synced && after.Standing(DirOf(p))
          && ( || (p in before.live && Recovered(before.live[p], after.live[p]))
               || (p in before.durable && Recovered(before.durable[p], after.live[p]))))
    && (forall p :: p in before.live && p in before.durable && after.Standing(DirOf(p)) ==> p in after.live)
  }

  predicate Recovered(written: File, found: File)
  {
    written.synced ==> found.bytes == written.bytes
  }

  lemma {:induction false} LastingSurvives(before: Fs, after: Fs, d: Dir)
    requires PowerLoss(before, after) && before.Lasting(d)
    ensures after.Lasting(d) && after.Standing(d)
    decreases d.Depth()
  {
    if !d.Root() {
      LastingSurvives(before, after, d.Parent());
      assert d in before.dirs * before.durableDirs;
    }
    assert after.dirs * after.durableDirs == after.dirs;
  }

  lemma SolidSurvives(before: Fs, after: Fs, p: Path, good: set<Bytes>)
    requires PowerLoss(before, after) && Solid(before, p, good)
    ensures Solid(after, p, good)
  {
    LastingSurvives(before, after, DirOf(p));
    assert p in after.live;
  }

  /** No step but a removal takes a lasting directory away. */
  lemma LastingKept(fs: Fs, d: Dir, made: Dir)
    requires fs.Lasting(d)
    ensures fs.SyncDir(made).Lasting(d) && fs.MakeDirs(made).Lasting(d)
  {
    RootedMore(fs.dirs * fs.durableDirs, fs.SyncDir(made).dirs * fs.SyncDir(made).durableDirs, d);
    RootedMore(fs.dirs * fs.durableDirs, fs.MakeDirs(made).dirs * fs.MakeDirs(made).durableDirs, d);
  }

  lemma StandingKept(fs: Fs, d: Dir, made: Dir)
    ensures fs.Standing(d) ==> fs.MakeDirs(made).Standing(d)
    ensures fs.MakeDirs(d).Standing(d)
    ensures fs.Lasting(d) ==> fs.Standing(d)
  {
    if fs.Standing(d) { RootedMore(fs.dirs, fs.MakeDirs(made).dirs, d); }
    ChainRooted(fs.MakeDirs(d).dirs, d);
    if fs.Lasting(d) { RootedMore(fs.dirs * fs.durableDirs, fs.dirs, d); }
  }

  lemma {:induction false} ChainStands(dirs: set<Dir>, d: Dir, c: Dir)
    requires Chain(d) <= dirs && c in Chain(d)
    ensures Rooted(dirs, c)
    decreases d.Depth()
  {
    if c == d { ChainRooted(dirs, d); } else { ChainStands(dirs, d.Parent(), c); }
  }

  /** Why the order of the two syncs matters: an entry synced before the bytes it
      names may come back with other bytes. */
  lemma UnsyncedBytesMayChange(rel: string, bytes: Bytes, other: Bytes)
    ensures var p := Library(rel);
            var fs := Fs(map[], map[], Chain(DirOf(p)), Chain(DirOf(p))).Put(p, File(bytes, false)).SyncDir(DirOf(p));
            exists after :: PowerLoss(fs, after) && p in after.live && after.live[p].bytes == other
  {
    var p := Library(rel);
    var dirs := Chain(DirOf(p));
    var fs := Fs(map[], map[], dirs, dirs).Put(p, File(bytes, false)).SyncDir(DirOf(p));
    var found := map[p := File(other, true)];
    var after := Fs(found, found, dirs, dirs);
    ChainRooted(dirs, DirOf(p));
    forall d | d in dirs ensures after.Standing(d) {
      ChainStands(dirs, DirOf(p), d);
    }
    assert PowerLoss(fs, after);
  }
}
