/** What a power loss can still take away, and what it can bring back. */
module Durability {
  import opened Naming
  import opened Files
  import opened Publication
  import opened Publisher

  // ----- lost

  /** An entered file is there for good exactly if every directory above it is, and its
      bytes were synced. */
  lemma EnteredLandsIff(w: World, id: nat, hash: Hash)
    requires id in w.rows && !w.rows[id].Writing? && EnteredAt(w, id, hash)
    ensures var facts, p := w.rows[id].facts, Library(w.rows[id].facts.final);
            Landed(w.fs, facts.final, facts.size, facts.sha1, hash) <==> w.fs.Lasting(DirOf(p)) && w.fs.live[p].synced
  {
  }

  function StagedRow(job: nat, id: nat, rel: string, stamp: Plain, bytes: Bytes, hash: Hash): Row
  {
    Verified(Import(id), Staged(job, id), Facts(rel, |bytes|, hash(bytes), rel, stamp))
  }

  function OneRow(fs: Fs, row: Row): World { World(fs, map[1 := row], map[], map[], map[], 2) }

  lemma OneRowInv(fs: Fs, job: nat, rel: string, stamp: Plain, bytes: Bytes, hash: Hash)
    requires LiveInDirs(fs) && fs.live.Keys + fs.durable.Keys <= {Staged(job, 1), Library(rel)}
    requires StagingClean(fs, StagedRow(job, 1, rel, stamp, bytes, hash), hash)
    ensures Inv(OneRow(fs, StagedRow(job, 1, rel, stamp, bytes, hash)), hash)
  {
    var row := StagedRow(job, 1, rel, stamp, bytes, hash);
    FirstCandidate(rel, stamp, Short(row.facts.sha1));
    assert OnSeries(row.facts, 0);
  }

  /** The first file of a job makes the directory, the sync of `staging/` raises and the
      file is given up. The second file finds the directory, goes through every step and
      is staged: a power loss can take it with the directory. */
  lemma SecondFileLost(job: nat, rel: string, stamp: Plain, bytes: Bytes, hash: Hash)
    ensures var row := StagedRow(job, 1, rel, stamp, bytes, hash);
            var fs := Fs(map[], map[], {}, {})
                      .MakeDirs(StagingDir(job))
                      .Put(row.staging, File(bytes, true)).SyncDir(StagingDir(job));
            && Inv(OneRow(fs, row), hash) && Reachable(fs, row, hash) && !Kept(fs, row, hash)
            && exists after :: PowerLoss(fs, after) && !Reachable(after, row, hash)
  {
    hide Kept, Reachable;
    var row := StagedRow(job, 1, rel, stamp, bytes, hash);
    var fs0 := Fs(map[], map[], {}, {}).MakeDirs(StagingDir(job));
    JobDirIs(fs0, job);
    var fs := fs0.Put(row.staging, File(bytes, true)).SyncDir(StagingDir(job));
    JobDirIs(fs, job);
    OneRowInv(fs, job, rel, stamp, bytes, hash);
    NotKept(fs, row, hash);
    KeptIff(OneRow(fs, row), 1, hash);
  }

  lemma NotKept(fs: Fs, row: Row, hash: Hash)
    requires !row.Writing? && Library(row.facts.final) !in fs.live
    ensures Kept(fs, row, hash) <==> row.staging in fs.live && fs.Lasting(DirOf(row.staging))
    ensures Reachable(fs, row, hash) <==> row.staging in fs.live
  {
  }

  /** The same for a library directory: it is made for the file, the file's entry in it is
      synced and the staging file removed, but the directory's own entry is never synced. */
  lemma NewDirectoryLost(job: nat, rel: string, stamp: Plain, bytes: Bytes, hash: Hash)
    requires !DirOf(Library(rel)).Root()
    ensures var row := StagedRow(job, 1, rel, stamp, bytes, hash);
            var dir, f := DirOf(Library(rel)), File(bytes, true);
            var fs := Fs(map[], map[], {StagingDir(job)}, {StagingDir(job)})
                      .Put(row.staging, f).SyncDir(StagingDir(job))
                      .MakeDirs(dir);
            var moved := Moved(fs, job, row.staging, dir, Library(rel), f);
            && Inv(OneRow(moved, row), hash) && EnteredAt(OneRow(moved, row), 1, hash) && !Kept(moved, row, hash)
            && exists after :: PowerLoss(moved, after) && !Reachable(after, row, hash)
  {
    hide Inv, Kept, Reachable, Fs.MakeDirs, Fs.Standing, Fs.Lasting, Rooted, PowerLoss, Moved, Candidate;
    var row := StagedRow(job, 1, rel, stamp, bytes, hash);
    var dir, f := DirOf(Library(rel)), File(bytes, true);
    var fs0 := Fs(map[], map[], {StagingDir(job)}, {StagingDir(job)}).Put(row.staging, f).SyncDir(StagingDir(job));
    var fs1 := fs0.MakeDirs(dir);
    MakeDirsMakes(fs0, dir);
    NewDirIsNotLasting(fs0, dir);
    var fs := Moved(fs1, job, row.staging, dir, Library(rel), f);
    NotInItself(fs1, job, row.staging, dir, Library(rel), f);
    StagedFiles(job, f);
    MadeFiles(fs0, dir);
    MovedFiles(fs1, job, dir, Library(rel), f);
    OneRowInv(fs, job, rel, stamp, bytes, hash);
    GoneNotKept(fs, row, hash);
    KeptIff(OneRow(fs, row), 1, hash);
  }

  /** Steps 8 to 10. */
  function Moved(fs: Fs, job: nat, staging: Path, dir: Dir, final: Path, f: File): Fs
  {
    fs.Put(final, f).SyncDir(dir).Unlink(staging).SyncDir(StagingDir(job))
  }

  lemma StagedFiles(job: nat, f: File)
    ensures var p := Staged(job, 1);
            var fs := Fs(map[], map[], {StagingDir(job)}, {StagingDir(job)}).Put(p, f).SyncDir(StagingDir(job));
            fs.live == map[p := f] && fs.durable == map[p := f] && fs.dirs == {StagingDir(job)}
  {
  }

  lemma MadeFiles(fs: Fs, d: Dir)
    ensures fs.MakeDirs(d).live == fs.live && fs.MakeDirs(d).durable == fs.durable
  {
  }

  lemma MovedFiles(fs: Fs, job: nat, dir: Dir, final: Path, f: File)
    requires fs.live == map[Staged(job, 1) := f] && fs.durable == map[Staged(job, 1) := f]
    requires dir.LibraryDir? && DirOf(final) == dir
    ensures var moved := Moved(fs, job, Staged(job, 1), dir, final, f);
            moved.live == map[final := f] && moved.durable == map[final := f]
  {
  }

  lemma NewDirIsNotLasting(fs: Fs, d: Dir)
    requires !d.Root() && d !in fs.dirs
    ensures d !in fs.MakeDirs(d).durableDirs
  {
    assert d in Chain(d);
  }

  /** Syncing a directory says nothing of its own entry. */
  lemma NotInItself(fs: Fs, job: nat, staging: Path, d: Dir, final: Path, f: File)
    requires !d.Root() && d.LibraryDir? && d !in fs.durableDirs
    ensures !Moved(fs, job, staging, d, final, f).Lasting(d)
    ensures fs.Standing(d) ==> Moved(fs, job, staging, d, final, f).Standing(d)
  {
    assert d.Parent().Depth() < d.Depth();
    assert !d.Inside(d) && !d.Inside(StagingDir(job));
    assert Moved(fs, job, staging, d, final, f).dirs == fs.dirs;
  }

  lemma GoneNotKept(fs: Fs, row: Row, hash: Hash)
    requires !row.Writing? && row.staging !in fs.live && !fs.Lasting(DirOf(Library(row.facts.final)))
    ensures !Kept(fs, row, hash)
  {
  }

  /** A listed file that went missing: the next file under its name is attached to its
      record, whatever that says of size and hash. */
  lemma RecordOfAnother(job: nat, rel: string, stamp: Plain, bytes: Bytes, sha1: Plain, hash: Hash)
    ensures var row := StagedRow(job, 1, rel, stamp, bytes, hash);
            exists before, after ::
              && Inv(before, hash) && before.rows == map[1 := row] && InPlaceAt(before, 1, hash)
              && before.media == map[0 := Media(rel, |bytes| + 1, sha1)]
              && CommitsAs(before, after, 1, 0) && IsPublished(after, 1, 0) && !WellNamed(after, 1)
  {
    var row := StagedRow(job, 1, rel, stamp, bytes, hash);
    var dir := DirOf(Library(rel));
    var live := map[Library(rel) := File(bytes, true)];
    var fs := Fs(live, live, Chain(dir), Chain(dir));
    ChainRooted(Chain(dir), dir);
    FirstCandidate(rel, stamp, Short(row.facts.sha1));
    assert OnSeries(row.facts, 0);
    var media := map[0 := Media(rel, |bytes| + 1, sha1)];
    var before := World(fs, map[1 := row], media, map[], map[], 2);
    var after := before.(rows := map[1 := Published(row.owner, row.staging, row.facts)], entries := map[1 := 0]);
    assert Inv(before, hash);
    assert CommitsAs(before, after, 1, 0);
    assert !IsMediaOf(media[0], row.facts);
  }

  // ----- found again

  /** `p` is there, or would be after some power loss. */
  ghost predicate MayBeFound(fs: Fs, p: Path)
  {
    p in fs.live || exists after :: PowerLoss(fs, after) && p in after.live
  }

  /** The file of a row that was given up is left exactly where it could not be removed, or
      its directory had been synced with it: until the directory is synced again a power
      loss may bring it back. */
  lemma LeftoverIff(was: Fs, p: Path, unlinked: bool)
    requires p in was.live && LiveInDirs(was)
    ensures MayBeFound(Without(was, p, unlinked), p) <==> !unlinked || p in was.durable
    ensures !MayBeFound(was.Unlink(p).SyncDir(DirOf(p)), p)
  {
    var fs := Without(was, p, unlinked);
    if unlinked && p in was.durable {
      FullIsPowerLoss(fs);
      FullDirsAre(fs, DirOf(p));
      RootedMore(fs.dirs, fs.dirs + fs.durableDirs, DirOf(p));
      assert p in Full(fs).live;
    }
  }

  /** One file that could not be removed, and one that the power brings back. */
  lemma LeftoversHappen(job: nat, id: nat, bytes: Bytes)
    ensures var p := Staged(job, id);
            var was := Fs(map[], map[], {}, {}).MakeDirs(StagingDir(job)).SyncDir(StagingRoot)
                       .Put(p, File(bytes, true)).SyncDir(StagingDir(job));
            && p in Without(was, p, false).live
            && p !in Without(was, p, true).live
            && exists after :: PowerLoss(Without(was, p, true), after) && p in after.live
  {
    hide Fs.MakeDirs, Fs.Standing, Fs.Lasting, Rooted, PowerLoss;
    var p := Staged(job, id);
    var made := Fs(map[], map[], {}, {}).MakeDirs(StagingDir(job)).SyncDir(StagingRoot);
    JobDirIs(Fs(map[], map[], {}, {}), job);
    MakeDirsMakes(Fs(map[], map[], {}, {}), StagingDir(job));
    var was := made.Put(p, File(bytes, true)).SyncDir(StagingDir(job));
    assert was.live == map[p := File(bytes, true)];
    SameStanding(made, was, StagingDir(job));
    LeftoverIff(was, p, true);
  }

  lemma SameStanding(fs: Fs, after: Fs, d: Dir)
    requires after.dirs == fs.dirs && fs.Standing(d)
    ensures after.Standing(d)
  {
  }

  /** The disk that keeps everything it may keep. */
  function Full(fs: Fs): Fs
  {
    var dirs := FullDirs(fs);
    var live := map p | p in fs.live.Keys + fs.durable.Keys && Rooted(dirs, DirOf(p)) ::
        File(if p in fs.live then fs.live[p].bytes else fs.durable[p].bytes, true);
    Fs(live, live, dirs, dirs)
  }

  function FullDirs(fs: Fs): set<Dir> { set d | d in fs.dirs + fs.durableDirs && Rooted(fs.dirs + fs.durableDirs, d) }

  lemma {:induction false} FullDirsAre(fs: Fs, d: Dir)
    ensures Rooted(FullDirs(fs), d) <==> Rooted(fs.dirs + fs.durableDirs, d)
    decreases d.Depth()
  {
    if !d.Root() { FullDirsAre(fs, d.Parent()); }
  }

  lemma FullIsPowerLoss(fs: Fs)
    ensures PowerLoss(fs, Full(fs))
  {
    var after := Full(fs);
    forall d ensures Rooted(FullDirs(fs), d) <==> Rooted(fs.dirs + fs.durableDirs, d) {
      FullDirsAre(fs, d);
    }
    forall d | d in fs.dirs && d in fs.durableDirs && !d.Root() && after.Standing(d.Parent()) ensures d in after.dirs {
      assert Rooted(fs.dirs + fs.durableDirs, d.Parent());
    }
  }
}
