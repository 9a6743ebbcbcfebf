/** What a publication keeps true of the database and the disk, whatever step it
    has reached and wherever it is cut off. */
module Publication {
  import opened Naming
  import opened Files

  type Hash = Bytes -> Plain

  /** The record that asked for the file. */
  datatype Owner = Import(entry: nat) | Merge(group: nat)

  /** The columns of `artifact_staging` that are filled in once, when the row
      becomes `staged`; only `final` moves afterwards. */
  datatype Facts = Facts(final: string, size: nat, sha1: Plain, desired: string, stamp: Plain)
  {
    function Name(k: nat): string { Candidate(desired, stamp, Short(sha1), k) }
  }

  datatype Row =
    | Writing(owner: Owner, staging: Path)
    | Verified(owner: Owner, staging: Path, facts: Facts)   // state 'staged'
    | Published(owner: Owner, staging: Path, facts: Facts)

  datatype Media = Media(rel: string, size: nat, sha1: string)

  datatype World = World(
    fs: Fs,
    rows: map<nat, Row>,       // artifact_staging
    media: map<nat, Media>,    // media_file
    entries: map<nat, nat>,    // source_entry.media_file_id
    outputs: map<nat, nat>,    // merge_group.output_media_file_id
    nextId: nat)               // identifiers are made fresh

  function Short(sha1: Plain): Plain
  {
    if |sha1| < 8 then sha1 else sha1[..8]
  }

  predicate Holds(bytes: Bytes, size: nat, sha1: string, hash: Hash)
  {
    |bytes| == size && hash(bytes) == sha1
  }

  /** What `_is_same_content` looks at: the recorded bytes are under `rel` now. */
  predicate InPlace(fs: Fs, rel: string, size: nat, sha1: string, hash: Hash)
  {
    Library(rel) in fs.live && Holds(fs.live[Library(rel)].bytes, size, sha1, hash)
  }

  predicate Fine(f: File, size: nat, sha1: string, hash: Hash)
  {
    f.synced && Holds(f.bytes, size, sha1, hash)
  }

  /** The library has the recorded bytes under `rel`, for good. */
  predicate Landed(fs: Fs, rel: string, size: nat, sha1: string, hash: Hash)
  {
    var p := Library(rel);
    && p in fs.live && Fine(fs.live[p], size, sha1, hash)
    && p in fs.durable && Fine(fs.durable[p], size, sha1, hash)
    && fs.Lasting(DirOf(p))
  }

  /** The bytes of a staged row can be read back now. */
  predicate Reachable(fs: Fs, row: Row, hash: Hash)
    requires !row.Writing?
  {
    row.staging in fs.live || InPlace(fs, row.facts.final, row.facts.size, row.facts.sha1, hash)
  }

  /** ... and whatever happens to the power. */
  predicate Kept(fs: Fs, row: Row, hash: Hash)
    requires !row.Writing?
  {
    || Landed(fs, row.facts.final, row.facts.size, row.facts.sha1, hash)
    || (row.staging in fs.live && fs.Lasting(DirOf(row.staging)))
  }

  predicate OnSeries(facts: Facts, k: nat) { facts.Name(k) == facts.final }

  /** The entry of a staged row was synced, after its bytes, before the row was. */
  predicate StagingClean(fs: Fs, row: Row, hash: Hash)
    requires row.Verified?
  {
    && (row.staging in fs.live ==> row.staging in fs.durable && fs.durable[row.staging] == fs.live[row.staging])
    && (row.staging in fs.durable ==> Fine(fs.durable[row.staging], row.facts.size, row.facts.sha1, hash))
  }

  predicate IsMediaOf(m: Media, facts: Facts)
  {
    m == Media(facts.final, facts.size, facts.sha1)
  }

  ghost predicate RowOk(fs: Fs, media: map<nat, Media>, id: nat, row: Row, hash: Hash)
  {
    && row.staging.Staged? && row.staging.artifact == id
    && (!row.Writing? ==> exists k: nat :: OnSeries(row.facts, k))
    && (row.Verified? ==> StagingClean(fs, row, hash))
    && (row.Published? ==> exists m :: m in media && media[m].rel == row.facts.final)
  }

  ghost predicate Inv(w: World, hash: Hash)
  {
    && (forall id :: id in w.rows ==> RowOk(w.fs, w.media, id, w.rows[id], hash))
    && (forall m, n :: m in w.media && n in w.media && w.media[m].rel == w.media[n].rel ==> m == n)
    && LiveInDirs(w.fs)
    && FreshIds(w)
  }

  predicate LiveInDirs(fs: Fs)
  {
    forall p :: p in fs.live ==> fs.Standing(DirOf(p))
  }

  /** Nothing carries an identifier that is still to come. */
  ghost predicate FreshIds(w: World)
  {
    && (forall id :: id in w.rows ==> id < w.nextId)
    && (forall m :: m in w.media ==> m < w.nextId)
    && (forall p :: p in w.fs.live && p.Staged? ==> p.artifact < w.nextId)
    && (forall p :: p in w.fs.durable && p.Staged? ==> p.artifact < w.nextId)
  }

  /** Every listed file is where the list says, with the recorded bytes. */
  predicate Truthful(w: World, hash: Hash)
  {
    forall m :: m in w.media ==> InPlace(w.fs, w.media[m].rel, w.media[m].size, w.media[m].sha1, hash)
  }

  /** ... and stays there whatever happens to the power. */
  predicate Secure(w: World, hash: Hash)
  {
    forall m :: m in w.media ==> Landed(w.fs, w.media[m].rel, w.media[m].size, w.media[m].sha1, hash)
  }

  predicate LibrarySynced(fs: Fs)
  {
    forall p :: p in fs.live && p.Library? ==> fs.live[p].synced
  }

  /** A file put under `desired`, or beside it, is there for good once its entry is synced. */
  predicate FirmGround(fs: Fs, desired: string)
  {
    fs.Lasting(DirOf(Library(desired))) && LibrarySynced(fs)
  }

  // ----- what a step leaves alone

  predicate Mine(p: Path, own: nat) { p.Staged? && p.artifact == own }

  /** Nothing is lost except perhaps the staging file of row `own`: not what is there,
      not what is safe, not the ground to build on. */
  ghost predicate Safe(before: Fs, after: Fs, own: nat)
  {
    && (forall p :: p in before.live && !Mine(p, own) ==> p in after.live && after.live[p] == before.live[p])
    && (forall p, good :: Solid(before, p, good) && !Mine(p, own) ==> Solid(after, p, good))
    && (forall d :: before.Lasting(d) ==> after.Lasting(d))
    && (LibrarySynced(before) ==> LibrarySynced(after))
  }

  /** No library file was removed or replaced. */
  ghost predicate LibraryKept(before: Fs, after: Fs)
  {
    forall p :: p in before.live && p.Library? ==> p in after.live && after.live[p] == before.live[p]
  }

  /** What was safe on the disk still is. */
  ghost predicate SolidKept(before: Fs, after: Fs)
  {
    forall rel, good :: Solid(before, Library(rel), good) ==> Solid(after, Library(rel), good)
  }

  lemma SafeIsSafe(before: Fs, after: Fs, own: nat)
    requires Safe(before, after, own)
    ensures LibraryKept(before, after) && SolidKept(before, after)
  {
  }

  lemma SafeReflexive(fs: Fs, own: nat)
    ensures Safe(fs, fs, own)
  {
  }

  lemma SafeTransitive(a: Fs, b: Fs, c: Fs, own: nat)
    requires Safe(a, b, own) && Safe(b, c, own)
    ensures Safe(a, c, own)
  {
    hide Solid, Fs.Lasting, LibrarySynced;
  }

  /** Landed is: solid, with bytes that have the recorded size and hash. */
  lemma LandedIsSolid(fs: Fs, after: Fs, rel: string, size: nat, sha1: string, hash: Hash)
    requires Landed(fs, rel, size, sha1, hash)
    requires forall good :: Solid(fs, Library(rel), good) ==> Solid(after, Library(rel), good)
    ensures Landed(after, rel, size, sha1, hash)
  {
    var p := Library(rel);
    var good := {fs.live[p].bytes, fs.durable[p].bytes};
    assert Solid(fs, p, good);
    assert Solid(after, p, good);
  }

  /** Every other row is as reachable, and as safe, as it was. */
  lemma OtherRowKept(w: World, after: Fs, own: nat, id: nat, hash: Hash)
    requires Inv(w, hash) && id in w.rows && w.rows[id].Verified? && id != own && Safe(w.fs, after, own)
    ensures Reachable(w.fs, w.rows[id], hash) ==> Reachable(after, w.rows[id], hash)
    ensures Kept(w.fs, w.rows[id], hash) ==> Kept(after, w.rows[id], hash)
  {
    var row := w.rows[id];
    assert RowOk(w.fs, w.media, id, row, hash);
    if Landed(w.fs, row.facts.final, row.facts.size, row.facts.sha1, hash) {
      LandedIsSolid(w.fs, after, row.facts.final, row.facts.size, row.facts.sha1, hash);
    }
  }

  lemma SecureKept(w: World, after: Fs, hash: Hash)
    requires SolidKept(w.fs, after) && Secure(w, hash)
    ensures Secure(w.(fs := after), hash)
  {
    forall m | m in w.media ensures Landed(after, w.media[m].rel, w.media[m].size, w.media[m].sha1, hash) {
      LandedIsSolid(w.fs, after, w.media[m].rel, w.media[m].size, w.media[m].sha1, hash);
    }
  }

  // ----- the name

  lemma SameDirectory(facts: Facts, k: nat)
    requires OnSeries(facts, k)
    ensures DirOf(Library(facts.final)) == DirOf(Library(facts.desired))
  {
    CandidatesStayInDirectory(facts.desired, facts.stamp, Short(facts.sha1), k);
  }

  /** The file chosen for the row is the first of its series that was free or held
      the same bytes: every earlier name is taken by something else. */
  ghost predicate FirstFit(fs: Fs, facts: Facts, hash: Hash)
  {
    exists k: nat :: OnSeries(facts, k) && PassedOver(fs, facts, k, hash)
  }

  predicate PassedOver(fs: Fs, facts: Facts, k: nat, hash: Hash)
  {
    forall j: nat :: j < k ==> TakenByOther(fs, facts, j, hash)
  }

  predicate TakenByOther(fs: Fs, facts: Facts, j: nat, hash: Hash)
  {
    var p := Library(facts.Name(j));
    p in fs.live && !Holds(fs.live[p].bytes, facts.size, facts.sha1, hash)
  }

  lemma FirstFitStable(before: Fs, after: Fs, facts: Facts, hash: Hash)
    requires FirstFit(before, facts, hash) && LibraryKept(before, after)
    ensures FirstFit(after, facts, hash)
  {
    var k: nat :| OnSeries(facts, k) && PassedOver(before, facts, k, hash);
    forall j: nat | j < k ensures TakenByOther(after, facts, j, hash) {
      assert TakenByOther(before, facts, j, hash);
    }
    assert PassedOver(after, facts, k, hash);
  }

  lemma FirstFitIs(fs: Fs, facts: Facts, i: nat, hash: Hash)
    requires FirstFit(fs, facts, hash) && OnSeries(facts, i)
    ensures PassedOver(fs, facts, i, hash)
  {
    var k: nat :| OnSeries(facts, k) && PassedOver(fs, facts, k, hash);
    if i != k { CandidatesDistinct(facts.desired, facts.stamp, Short(facts.sha1), i, k); }
  }

  lemma FirstFitFrom(fs: Fs, facts: Facts, i: nat, hash: Hash)
    requires OnSeries(facts, i) && PassedOver(fs, facts, i, hash)
    ensures FirstFit(fs, facts, hash)
  {
  }

  lemma PassedOverNext(fs: Fs, facts: Facts, i: nat, hash: Hash)
    requires PassedOver(fs, facts, i, hash) && TakenByOther(fs, facts, i, hash)
    ensures PassedOver(fs, facts.(final := facts.Name(i + 1)), i + 1, hash)
  {
    var next := facts.(final := facts.Name(i + 1));
    forall j: nat | j < i + 1 ensures TakenByOther(fs, next, j, hash) {
      assert TakenByOther(fs, facts, j, hash);
    }
  }

  /** The chosen name is determined by the directory: two runs over the same
      library choose the same one. */
  lemma FirstFitUnique(fs: Fs, a: Facts, b: Facts, hash: Hash)
    requires a.(final := b.final) == b
    requires FirstFit(fs, a, hash) && FirstFit(fs, b, hash)
    requires Library(a.final) in fs.live ==> Holds(fs.live[Library(a.final)].bytes, a.size, a.sha1, hash)
    requires Library(b.final) in fs.live ==> Holds(fs.live[Library(b.final)].bytes, b.size, b.sha1, hash)
    ensures a == b
  {
    var i: nat :| OnSeries(a, i) && PassedOver(fs, a, i, hash);
    var k: nat :| OnSeries(b, k) && PassedOver(fs, b, k, hash);
    assert a.Name(k) == b.Name(k) && a.Name(i) == b.Name(i);
    assert !TakenByOther(fs, b, i, hash);
    assert !TakenByOther(fs, a, k, hash);
  }

  // ----- the power

  /** Whatever the power does, the invariant is kept and what was solid is found again. */
  lemma PowerLossKeepsInv(w: World, after: Fs, hash: Hash)
    requires Inv(w, hash) && PowerLoss(w.fs, after)
    ensures Inv(w.(fs := after), hash)
    ensures forall p, good :: Solid(w.fs, p, good) ==> Solid(after, p, good)
  {
    forall p, good | Solid(w.fs, p, good) ensures Solid(after, p, good) {
      SolidSurvives(w.fs, after, p, good);
    }
    forall id | id in w.rows ensures RowOk(after, w.media, id, w.rows[id], hash) {
      assert RowOk(w.fs, w.media, id, w.rows[id], hash);
    }
  }

  /** The durability claim, exactly: the bytes of a staged row can be read back after
      every possible power loss if and only if their directory entry would be there:
      that of the job's staging directory as long as the staging file is, or that of
      the final name with everything above it. */
  lemma KeptIff(w: World, id: nat, hash: Hash)
    requires Inv(w, hash) && id in w.rows && w.rows[id].Verified?
    ensures Kept(w.fs, w.rows[id], hash) <==>
              forall after :: PowerLoss(w.fs, after) ==> Reachable(after, w.rows[id], hash)
    ensures Kept(w.fs, w.rows[id], hash) ==>
              forall after :: PowerLoss(w.fs, after) ==> Kept(after, w.rows[id], hash)
  {
    var row := w.rows[id];
    assert RowOk(w.fs, w.media, id, row, hash);
    if Kept(w.fs, row, hash) {
      forall after | PowerLoss(w.fs, after) ensures Reachable(after, row, hash) && Kept(after, row, hash) {
        KeptSurvives(w.fs, after, row, hash);
      }
    } else {
      var after := Worst(w.fs, row.facts.final, row.facts.size, row.facts.sha1, hash);
      WorstIsPowerLoss(w.fs, row.facts.final, row.facts.size, row.facts.sha1, hash);
      LastingDirsAre(w.fs, DirOf(row.staging));
      assert !Reachable(after, row, hash);
    }
  }

  lemma KeptSurvives(fs: Fs, after: Fs, row: Row, hash: Hash)
    requires row.Verified? && StagingClean(fs, row, hash) && Kept(fs, row, hash) && PowerLoss(fs, after)
    ensures Kept(after, row, hash) && Reachable(after, row, hash)
  {
    if Landed(fs, row.facts.final, row.facts.size, row.facts.sha1, hash) {
      forall good | Solid(fs, Library(row.facts.final), good) ensures Solid(after, Library(row.facts.final), good) {
        SolidSurvives(fs, after, Library(row.facts.final), good);
      }
      LandedIsSolid(fs, after, row.facts.final, row.facts.size, row.facts.sha1, hash);
    } else {
      SolidSurvives(fs, after, row.staging, {fs.live[row.staging].bytes});
    }
  }

  /** The same for a listed file. */
  lemma LandedIff(fs: Fs, rel: string, size: nat, sha1: string, hash: Hash)
    ensures Landed(fs, rel, size, sha1, hash) <==>
              forall after :: PowerLoss(fs, after) ==> InPlace(after, rel, size, sha1, hash)
  {
    if Landed(fs, rel, size, sha1, hash) {
      forall after | PowerLoss(fs, after) ensures InPlace(after, rel, size, sha1, hash) {
        var good := {fs.live[Library(rel)].bytes, fs.durable[Library(rel)].bytes};
        SolidSurvives(fs, after, Library(rel), good);
      }
    } else {
      WorstIsPowerLoss(fs, rel, size, sha1, hash);
      assert !InPlace(Worst(fs, rel, size, sha1, hash), rel, size, sha1, hash);
    }
  }

  /** The disk that keeps no more than it has to and spoils `rel` where it can. */
  function Worst(fs: Fs, rel: string, size: nat, sha1: string, hash: Hash): Fs
  {
    var dirs := LastingDirs(fs);
    var live := map p | p in fs.live && p in fs.durable && Rooted(dirs, DirOf(p)) ::
        File(if p == Library(rel) then Spoilt(fs.live[p], fs.durable[p], size, sha1, hash) else fs.live[p].bytes, true);
    Fs(live, live, dirs, dirs)
  }

  function LastingDirs(fs: Fs): set<Dir> { set d | d in fs.dirs && d in fs.durableDirs && fs.Lasting(d) }

  function Spoilt(live: File, durable: File, size: nat, sha1: string, hash: Hash): (bytes: Bytes)
    ensures Recovered(live, File(bytes, true)) || Recovered(durable, File(bytes, true))
    ensures !(Fine(live, size, sha1, hash) && Fine(durable, size, sha1, hash)) ==> !Holds(bytes, size, sha1, hash)
  {
    if !live.synced || !durable.synced then (if size == 0 then [0] else [])
    else if Holds(live.bytes, size, sha1, hash) then durable.bytes
    else live.bytes
  }

  lemma {:induction false} LastingDirsAre(fs: Fs, d: Dir)
    ensures Rooted(LastingDirs(fs), d) <==> fs.Lasting(d)
    decreases d.Depth()
  {
    if !d.Root() {
      LastingDirsAre(fs, d.Parent());
      assert fs.Lasting(d) <==> d in fs.dirs * fs.durableDirs && fs.Lasting(d.Parent());
    }
  }

  lemma WorstIsPowerLoss(fs: Fs, rel: string, size: nat, sha1: string, hash: Hash)
    ensures PowerLoss(fs, Worst(fs, rel, size, sha1, hash))
    ensures Library(rel) in Worst(fs, rel, size, sha1, hash).live ==> fs.Lasting(DirOf(Library(rel)))
  {
    hide Rooted, Holds, Spoilt;
    var after := Worst(fs, rel, size, sha1, hash);
    forall d ensures after.Standing(d) <==> fs.Lasting(d) {
      LastingDirsAre(fs, d);
    }
    forall d | d in fs.dirs && d in fs.durableDirs && !d.Root() && after.Standing(d.Parent()) ensures d in after.dirs {
      LastingStep(fs, d);
    }
    forall p | p in after.live
      ensures || (p in fs.live && Recovered(fs.live[p], after.live[p]))
              || (p in fs.durable && Recovered(fs.durable[p], after.live[p]))
    {
      if p == Library(rel) {
        assert after.live[p] == File(Spoilt(fs.live[p], fs.durable[p], size, sha1, hash), true);
      } else {
        assert after.live[p] == File(fs.live[p].bytes, true);
      }
    }
  }

  lemma LastingStep(fs: Fs, d: Dir)
    requires d in fs.dirs && d in fs.durableDirs && !d.Root() && fs.Lasting(d.Parent())
    ensures fs.Lasting(d)
  {
    assert d in fs.dirs * fs.durableDirs;
  }

  // ----- each effect keeps the invariant

  lemma SyncDirKeepsInv(w: World, d: Dir, own: nat, hash: Hash)
    requires Inv(w, hash)
    ensures Inv(w.(fs := w.fs.SyncDir(d)), hash) && Safe(w.fs, w.fs.SyncDir(d), own)
  {
    hide Rooted, Fs.Lasting;
    var after := w.fs.SyncDir(d);
    forall e | w.fs.Lasting(e) ensures after.Lasting(e) {
      LastingKept(w.fs, e, d);
    }
    forall p, good | Solid(w.fs, p, good) ensures Solid(after, p, good) {
      SyncDirKeepsSolid(w.fs, d, p, good);
    }
    forall id | id in w.rows ensures RowOk(after, w.media, id, w.rows[id], hash) {
      assert RowOk(w.fs, w.media, id, w.rows[id], hash);
    }
  }

  lemma SyncDirKeepsSolid(fs: Fs, d: Dir, p: Path, good: set<Bytes>)
    requires Solid(fs, p, good)
    ensures Solid(fs.SyncDir(d), p, good)
  {
    hide Rooted, Fs.Lasting;
    LastingKept(fs, DirOf(p), d);
  }

  lemma MakeDirsKeepsInv(w: World, d: Dir, own: nat, hash: Hash)
    requires Inv(w, hash)
    ensures Inv(w.(fs := w.fs.MakeDirs(d)), hash) && Safe(w.fs, w.fs.MakeDirs(d), own)
  {
    hide Rooted, Chain, Fs.Lasting, Fs.Standing;
    var after := w.fs.MakeDirs(d);
    forall e ensures (w.fs.Lasting(e) ==> after.Lasting(e)) && (w.fs.Standing(e) ==> after.Standing(e)) {
      if w.fs.Lasting(e) { LastingKept(w.fs, e, d); }
      StandingKept(w.fs, e, d);
    }
    forall id | id in w.rows ensures RowOk(after, w.media, id, w.rows[id], hash) {
      assert RowOk(w.fs, w.media, id, w.rows[id], hash);
    }
  }

  /** A change of the live directory at one path. */
  lemma LiveChangeIsSafe(before: Fs, after: Fs, p: Path, own: nat)
    requires after == before.(live := after.live)
    requires forall q :: q != p ==>
               (q in after.live <==> q in before.live) && (q in before.live ==> after.live[q] == before.live[q])
    requires Mine(p, own) || (p.Library? && p !in before.live && p in after.live && after.live[p].synced)
    ensures Safe(before, after, own)
  {
    hide Rooted, Fs.Lasting;
    assert forall d :: after.Lasting(d) == before.Lasting(d) by {
      forall d ensures after.Lasting(d) == before.Lasting(d) {
        SameDirs(before, after, d);
      }
    }
  }

  lemma SameDirs(before: Fs, after: Fs, d: Dir)
    requires after.dirs == before.dirs && after.durableDirs == before.durableDirs
    ensures after.Lasting(d) == before.Lasting(d) && after.Standing(d) == before.Standing(d)
  {
  }

  lemma StagingBound(w: World, id: nat, hash: Hash)
    requires Inv(w, hash) && id in w.rows
    ensures w.rows[id].staging.Staged? && w.rows[id].staging.artifact == id < w.nextId
  {
    assert RowOk(w.fs, w.media, id, w.rows[id], hash);
  }

  /** The staging file of a row that is still written may change freely. */
  lemma StagingPutKeepsInv(w: World, id: nat, f: File, hash: Hash)
    requires Inv(w, hash) && id in w.rows && w.rows[id].Writing? && w.fs.Standing(DirOf(w.rows[id].staging))
    ensures Inv(w.(fs := w.fs.Put(w.rows[id].staging, f)), hash)
    ensures Safe(w.fs, w.fs.Put(w.rows[id].staging, f), id)
  {
    hide Rooted, Fs.Standing, Safe, OnSeries;
    var after := w.fs.Put(w.rows[id].staging, f);
    StagingBound(w, id, hash);
    LiveChangeIsSafe(w.fs, after, w.rows[id].staging, id);
    forall d ensures after.Standing(d) == w.fs.Standing(d) { SameDirs(w.fs, after, d); }
    forall other | other in w.rows ensures RowOk(after, w.media, other, w.rows[other], hash) {
      assert RowOk(w.fs, w.media, other, w.rows[other], hash);
    }
  }

  /** Any row may lose its staging file without breaking the invariant; whether its
      bytes stay reachable is another matter. */
  lemma UnlinkKeepsInv(w: World, id: nat, hash: Hash)
    requires Inv(w, hash) && id in w.rows
    ensures Inv(w.(fs := w.fs.Unlink(w.rows[id].staging)), hash)
    ensures Safe(w.fs, w.fs.Unlink(w.rows[id].staging), id)
  {
    hide Rooted, Fs.Standing, Safe, OnSeries;
    var after := w.fs.Unlink(w.rows[id].staging);
    StagingBound(w, id, hash);
    LiveChangeIsSafe(w.fs, after, w.rows[id].staging, id);
    forall d ensures after.Standing(d) == w.fs.Standing(d) { SameDirs(w.fs, after, d); }
    forall other | other in w.rows ensures RowOk(after, w.media, other, w.rows[other], hash) {
      assert RowOk(w.fs, w.media, other, w.rows[other], hash);
    }
  }

  /** A free library name may be given the bytes of a synced staging file. */
  lemma LinkKeepsInv(w: World, rel: string, f: File, own: nat, hash: Hash)
    requires Inv(w, hash) && f.synced && Library(rel) !in w.fs.live && w.fs.Standing(DirOf(Library(rel)))
    ensures Inv(w.(fs := w.fs.Put(Library(rel), f)), hash) && Safe(w.fs, w.fs.Put(Library(rel), f), own)
  {
    hide Rooted, Fs.Standing, Safe, OnSeries;
    var after := w.fs.Put(Library(rel), f);
    LiveChangeIsSafe(w.fs, after, Library(rel), own);
    forall d ensures after.Standing(d) == w.fs.Standing(d) { SameDirs(w.fs, after, d); }
    forall other | other in w.rows ensures RowOk(after, w.media, other, w.rows[other], hash) {
      assert RowOk(w.fs, w.media, other, w.rows[other], hash);
    }
  }

  lemma NewRowKeepsInv(w: World, row: Row, hash: Hash)
    requires Inv(w, hash) && row.Writing? && row.staging.Staged? && row.staging.artifact == w.nextId
    ensures Inv(w.(rows := w.rows[w.nextId := row], nextId := w.nextId + 1), hash)
  {
  }

  lemma RowChangeKeepsInv(w: World, id: nat, row: Row, hash: Hash)
    requires Inv(w, hash) && id in w.rows && RowOk(w.fs, w.media, id, row, hash)
    ensures Inv(w.(rows := w.rows[id := row]), hash)
  {
    hide RowOk, LiveInDirs;
  }

  lemma RowGoneKeepsInv(w: World, id: nat, hash: Hash)
    requires Inv(w, hash)
    ensures Inv(w.(rows := w.rows - {id}), hash)
  {
  }

  lemma RowIsOk(w: World, id: nat, hash: Hash)
    requires Inv(w, hash) && id in w.rows
    ensures RowOk(w.fs, w.media, id, w.rows[id], hash)
  {
  }

  lemma MoveNameKeepsInv(w: World, id: nat, facts: Facts, i: nat, hash: Hash)
    requires Inv(w, hash) && id in w.rows && w.rows[id].Verified?
    requires OnSeries(facts, i) && w.rows[id].facts.(final := facts.final) == facts
    ensures Inv(w.(rows := w.rows[id := w.rows[id].(facts := facts)]), hash)
  {
    assert RowOk(w.fs, w.media, id, w.rows[id], hash);
    RowChangeKeepsInv(w, id, w.rows[id].(facts := facts), hash);
  }

  /** A row whose staging entry is synced after its bytes, under the first name of its series. */
  lemma StagedRowIsOk(w: World, id: nat, row: Row, hash: Hash)
    requires Inv(w, hash) && id in w.rows && row.Verified? && row.staging == w.rows[id].staging
        && row.facts.final == row.facts.desired
    requires row.staging in w.fs.live && row.staging in w.fs.durable
        && w.fs.durable[row.staging] == w.fs.live[row.staging]
    requires Fine(w.fs.live[row.staging], row.facts.size, row.facts.sha1, hash)
    ensures RowOk(w.fs, w.media, id, row, hash) && FirstFit(w.fs, row.facts, hash)
  {
    assert RowOk(w.fs, w.media, id, w.rows[id], hash);
    FirstCandidate(row.facts.desired, row.facts.stamp, Short(row.facts.sha1));
    assert OnSeries(row.facts, 0) && PassedOver(w.fs, row.facts, 0, hash);
  }

  /** The commit of a name that has no media file yet. */
  lemma CommitKeepsInv(w: World, m: nat, facts: Facts, hash: Hash)
    requires Inv(w, hash)
    requires m == w.nextId && forall n :: n in w.media ==> w.media[n].rel != facts.final
    ensures Inv(w.(media := w.media[m := Media(facts.final, facts.size, facts.sha1)], nextId := m + 1), hash)
    ensures Truthful(w, hash) && InPlace(w.fs, facts.final, facts.size, facts.sha1, hash) ==>
              Truthful(w.(media := w.media[m := Media(facts.final, facts.size, facts.sha1)], nextId := m + 1), hash)
    ensures Secure(w, hash) && Landed(w.fs, facts.final, facts.size, facts.sha1, hash) ==>
              Secure(w.(media := w.media[m := Media(facts.final, facts.size, facts.sha1)], nextId := m + 1), hash)
  {
    hide InPlace, Landed, OnSeries, StagingClean, LiveInDirs;
    var media := w.media[m := Media(facts.final, facts.size, facts.sha1)];
    forall other | other in w.rows ensures RowOk(w.fs, media, other, w.rows[other], hash) {
      MoreMediaKeepsRow(w.fs, w.media, media, other, w.rows[other], hash);
    }
  }

  lemma MoreMediaKeepsRow(fs: Fs, media: map<nat, Media>, more: map<nat, Media>, id: nat, row: Row, hash: Hash)
    requires RowOk(fs, media, id, row, hash)
    requires forall n :: n in media ==> n in more && more[n] == media[n]
    ensures RowOk(fs, more, id, row, hash)
  {
    if row.Published? {
      var n :| n in media && media[n].rel == row.facts.final;
      assert n in more && more[n].rel == row.facts.final;
    }
  }
}
