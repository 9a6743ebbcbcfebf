/** The publisher of imported and merged files.

    `if *` marks the places where the process may end, by a crash or by an error
    that escapes: nothing after it happens. What a method ensures for `Stopped`
    therefore holds of every place it can be cut off. A call that is `whole` is
    not cut off: no crash, and no error but those that have an outcome of their own.
 */
module Publisher {
  import opened Naming
  import opened Files
  import opened Publication

  datatype Outcome =
    | Done(mediaId: nat, reused: bool)
    | Discarded    // given up before the row was staged
    | Stopped      // the process ended, or the failure is left to the next start
    | Lost         // StagingLost: neither the staging file nor the final one

  datatype Hashed = Hashed(size: nat, sha1: Plain) | GaveUp | Died

  datatype Progress = Ready | Failed | Ended

  datatype Source = Stream(chunks: seq<Bytes>) | Prepared(bytes: Bytes)

  const COPY_CHUNK: nat := 4 * 1024 * 1024

  function Concat(chunks: seq<Bytes>): Bytes
  {
    if chunks == [] then [] else Concat(chunks[..|chunks| - 1]) + chunks[|chunks| - 1]
  }

  function ContentOf(source: Source): Bytes
  {
    match source
    case Stream(chunks) => Concat(chunks)
    case Prepared(bytes) => bytes
  }

  /** Everything but row `id` and its staging file is as it was: other rows, the
      media already listed, every other file that was there and all that was safe. */
  ghost predicate Undisturbed(before: World, after: World, id: nat)
  {
    && after.rows - {id} == before.rows - {id}
    && (forall m :: m in before.media ==> m in after.media && after.media[m] == before.media[m])
    && Safe(before.fs, after.fs, id)
  }

  /** The row got past its last step just now. */
  predicate NewlyPublished(before: World, after: World, id: nat)
  {
    id in before.rows && !before.rows[id].Published? && id in after.rows && after.rows[id].Published?
  }

  /** Of the references to media files, only the one of `owner` may have changed. */
  ghost predicate OthersKeepTheirMedia(before: World, after: World, owner: Owner)
  {
    && (forall e :: e in before.entries && owner != Import(e) ==> e in after.entries && after.entries[e] == before.entries[e])
    && (forall g :: g in before.outputs && owner != Merge(g) ==> g in after.outputs && after.outputs[g] == before.outputs[g])
  }

  /** Only files changed, and apart from the staging file of row `id` nothing was lost. */
  ghost predicate OnlyFiles(before: World, after: World, id: nat)
  {
    && after == before.(fs := after.fs)
    && Safe(before.fs, after.fs, id)
    && after.fs.dirs == before.fs.dirs
  }

  ghost predicate NothingPublished(before: World, after: World)
  {
    before.media == after.media && before.entries == after.entries && before.outputs == after.outputs
  }

  /** The row is published: one media file has its name, and that media file is the
      one its owner points at. */
  ghost predicate IsPublished(w: World, id: nat, m: nat)
  {
    && id in w.rows && w.rows[id].Published?
    && m in w.media && w.media[m].rel == w.rows[id].facts.final
    && (forall n :: n in w.media && w.media[n].rel == w.rows[id].facts.final ==> n == m)
    && match w.rows[id].owner
       case Import(e) => e in w.entries && w.entries[e] == m
       case Merge(g) => g in w.outputs && w.outputs[g] == m
  }

  /** A published row's media file records the size and the hash of the row. */
  ghost predicate WellNamed(w: World, id: nat)
  {
    id in w.rows && w.rows[id].Published? ==>
      forall m :: m in w.media && w.media[m].rel == w.rows[id].facts.final ==> IsMediaOf(w.media[m], w.rows[id].facts)
  }

  /** The bytes of the row will be found after every power loss: through either entry
      while it is staged, under its final name from then on. */
  predicate Safeguarded(fs: Fs, row: Row, hash: Hash)
    requires !row.Writing?
  {
    if row.Verified? then Kept(fs, row, hash)
    else Landed(fs, row.facts.final, row.facts.size, row.facts.sha1, hash)
  }

  predicate ReachableAt(w: World, id: nat, hash: Hash)
    requires id in w.rows && !w.rows[id].Writing?
  {
    Reachable(w.fs, w.rows[id], hash)
  }

  predicate InPlaceAt(w: World, id: nat, hash: Hash)
    requires id in w.rows && !w.rows[id].Writing?
  {
    InPlace(w.fs, w.rows[id].facts.final, w.rows[id].facts.size, w.rows[id].facts.sha1, hash)
  }

  /** The final name holds the bytes and its directory has been synced. */
  predicate EnteredAt(w: World, id: nat, hash: Hash)
    requires id in w.rows && !w.rows[id].Writing?
  {
    var p := Library(w.rows[id].facts.final);
    InPlaceAt(w, id, hash) && p in w.fs.durable && w.fs.durable[p] == w.fs.live[p]
  }

  /** Where a publication of `job` under `desired` starts on firm ground: the job's
      directory is not one whose entry was never synced, the directories of the name
      are there for good, and no library file still waits for its sync. */
  predicate Firm(fs: Fs, job: nat, desired: string)
  {
    FirmGround(fs, desired) && (StagingDir(job) in fs.dirs ==> fs.Lasting(StagingDir(job)))
  }

  function Without(fs: Fs, p: Path, unlinked: bool): Fs
  {
    if unlinked then fs.Unlink(p) else fs
  }

  /** The facts a row records do not change, except that `final` may move along the series. */
  predicate SameFacts(a: Facts, b: Facts) { a.(final := b.final) == b }

  predicate Describes(facts: Facts, desired: string, stamp: Plain, content: Bytes, hash: Hash)
  {
    facts.desired == desired && facts.stamp == stamp && facts.size == |content| && facts.sha1 == hash(content)
  }

  /** Row `id` is still the row it was, though perhaps further on. */
  ghost predicate SameRow(before: Row, id: nat, after: World)
  {
    && id in after.rows && !before.Writing? && !after.rows[id].Writing?
    && after.rows[id].owner == before.owner && after.rows[id].staging == before.staging
    && SameFacts(before.facts, after.rows[id].facts)
    && (before.Published? ==> after.rows[id] == before)
  }

  /** What finishing row `id` would publish is put on firm ground. */
  predicate GroundOf(w: World, id: nat)
  {
    id in w.rows && !w.rows[id].Writing? ==> FirmGround(w.fs, w.rows[id].facts.desired)
  }

  lemma OnlyFilesUndisturbed(before: World, after: World, id: nat)
    requires OnlyFiles(before, after, id)
    ensures Undisturbed(before, after, id) && NothingPublished(before, after)
  {
  }

  lemma UndisturbedTransitive(a: World, b: World, c: World, id: nat)
    requires Undisturbed(a, b, id) && Undisturbed(b, c, id)
    ensures Undisturbed(a, c, id)
  {
    hide Safe;
    SafeTransitive(a.fs, b.fs, c.fs, id);
  }

  lemma OnlyFilesTransitive(a: World, b: World, c: World, id: nat)
    requires OnlyFiles(a, b, id) && OnlyFiles(b, c, id)
    ensures OnlyFiles(a, c, id)
  {
    hide Safe;
    SafeTransitive(a.fs, b.fs, c.fs, id);
  }

  lemma FitStays(before: World, after: World, id: nat, facts: Facts, hash: Hash)
    requires Undisturbed(before, after, id)
    ensures FirstFit(before.fs, facts, hash) ==> FirstFit(after.fs, facts, hash)
  {
    SafeIsSafe(before.fs, after.fs, id);
    if FirstFit(before.fs, facts, hash) { FirstFitStable(before.fs, after.fs, facts, hash); }
  }

  lemma LinksKeepInv(w: World, entries: map<nat, nat>, outputs: map<nat, nat>, hash: Hash)
    requires Inv(w, hash)
    ensures Inv(w.(entries := entries, outputs := outputs), hash)
  {
  }

  /** What the effects of one row do to its own bytes. */
  lemma InPlaceStays(before: Fs, after: Fs, own: nat, facts: Facts, hash: Hash)
    requires Safe(before, after, own)
    ensures InPlace(before, facts.final, facts.size, facts.sha1, hash) ==>
              InPlace(after, facts.final, facts.size, facts.sha1, hash)
    ensures Landed(before, facts.final, facts.size, facts.sha1, hash) ==>
              Landed(after, facts.final, facts.size, facts.sha1, hash)
    ensures FirmGround(before, facts.desired) ==> FirmGround(after, facts.desired)
  {
    if Landed(before, facts.final, facts.size, facts.sha1, hash) {
      LandedIsSolid(before, after, facts.final, facts.size, facts.sha1, hash);
    }
  }

  /** On firm ground an entered file has landed. */
  lemma EnteredLands(w: World, id: nat, hash: Hash)
    requires Inv(w, hash) && id in w.rows && !w.rows[id].Writing? && EnteredAt(w, id, hash)
    ensures var facts := w.rows[id].facts;
            FirmGround(w.fs, facts.desired) ==> Landed(w.fs, facts.final, facts.size, facts.sha1, hash)
  {
    RowIsOk(w, id, hash);
    var k: nat :| OnSeries(w.rows[id].facts, k);
    SameDirectory(w.rows[id].facts, k);
  }

  lemma ListStays(w: World, after: World, id: nat, hash: Hash)
    requires Safe(w.fs, after.fs, id) && after.media == w.media
    ensures Truthful(w, hash) ==> Truthful(after, hash)
    ensures Secure(w, hash) ==> Secure(after, hash)
  {
    SafeIsSafe(w.fs, after.fs, id);
    if Secure(w, hash) { SecureKept(w, after.fs, hash); }
  }

  lemma SecureIsTruthful(w: World, hash: Hash)
    requires Secure(w, hash)
    ensures Truthful(w, hash)
  {
  }

  /** The file and its entry are synced. */
  predicate SyncedAs(w: World, p: Path, f: File)
  {
    p in w.fs.live && w.fs.live[p] == f && p in w.fs.durable && w.fs.durable[p] == f && f.synced
  }

  lemma BeforeStaged(before: World, after: World, id: nat, hash: Hash)
    requires Undisturbed(before, after, id) && after.media == before.media
    requires id in after.rows ==> !after.rows[id].Published?
    ensures Truthful(before, hash) ==> Truthful(after, hash) && WellNamed(after, id)
    ensures Secure(before, hash) ==> Secure(after, hash)
  {
    ListStays(before, after, id, hash);
  }

  lemma GroundStays(before: World, after: World, id: nat, desired: string, d: Dir)
    requires Undisturbed(before, after, id)
    ensures FirmGround(before.fs, desired) ==> FirmGround(after.fs, desired)
    ensures before.fs.Lasting(d) ==> after.fs.Lasting(d)
  {
  }

  lemma NamesTogether(w: World, id: nat, hash: Hash)
    requires Inv(w, hash) && id in w.rows && !w.rows[id].Writing?
    ensures DirOf(Library(w.rows[id].facts.final)) == DirOf(Library(w.rows[id].facts.desired))
  {
    RowIsOk(w, id, hash);
    var k: nat :| OnSeries(w.rows[id].facts, k);
    SameDirectory(w.rows[id].facts, k);
  }

  /** One effect on the disk, or on the row itself. */
  lemma StepUndisturbed(before: World, after: World, id: nat)
    requires after == before.(fs := after.fs, rows := after.rows) && Safe(before.fs, after.fs, id)
    requires after.rows - {id} == before.rows - {id}
    ensures Undisturbed(before, after, id)
  {
  }

  /** Another name for a row that is safe in its staging file. */
  lemma KeptByName(fs: Fs, row: Row, after: Row, hash: Hash)
    requires !row.Writing? && !after.Writing? && after.staging == row.staging
    requires InPlace(fs, row.facts.final, row.facts.size, row.facts.sha1, hash) ==> after == row
    ensures Kept(fs, row, hash) ==> Kept(fs, after, hash)
  {
    LandedIsInPlace(fs, row, hash);
  }

  lemma MakeDirsMakes(fs: Fs, d: Dir)
    ensures fs.MakeDirs(d).Standing(d) && fs.MakeDirs(d).live == fs.live
  {
    StandingKept(fs, d, d);
  }

  lemma JobDirIs(fs: Fs, job: nat)
    ensures fs.Standing(StagingDir(job)) <==> StagingDir(job) in fs.dirs
    ensures fs.Lasting(StagingDir(job)) <==> StagingDir(job) in fs.dirs && StagingDir(job) in fs.durableDirs
    ensures var made := fs.MakeDirs(StagingDir(job)).SyncDir(StagingRoot);
            made.Standing(StagingDir(job)) && made.Lasting(StagingDir(job))
  {
    var made := fs.MakeDirs(StagingDir(job)).SyncDir(StagingRoot);
    assert StagingDir(job).Inside(StagingRoot);
    assert Rooted(made.dirs * made.durableDirs, StagingRoot);
    assert Rooted(fs.dirs, StagingRoot);
    assert Rooted(fs.dirs * fs.durableDirs, StagingRoot);
  }

  lemma LandedIsInPlace(fs: Fs, row: Row, hash: Hash)
    requires !row.Writing?
    ensures Landed(fs, row.facts.final, row.facts.size, row.facts.sha1, hash) ==>
              InPlace(fs, row.facts.final, row.facts.size, row.facts.sha1, hash)
  {
  }

  lemma KeptStays(before: Fs, after: Fs, own: nat, row: Row, hash: Hash)
    requires Safe(before, after, own) && !row.Writing? && (row.staging in before.live ==> row.staging in after.live)
    ensures Kept(before, row, hash) ==> Kept(after, row, hash)
  {
    InPlaceStays(before, after, own, row.facts, hash);
  }

  lemma RowIsOnSeries(w: World, id: nat, hash: Hash)
    requires Inv(w, hash) && id in w.rows && !w.rows[id].Writing?
    ensures exists k: nat :: OnSeries(w.rows[id].facts, k)
  {
    RowIsOk(w, id, hash);
  }

  lemma PublishedRowIsOk(w: World, id: nat, m: nat, hash: Hash)
    requires Inv(w, hash) && id in w.rows && !w.rows[id].Writing?
    requires m in w.media && w.media[m].rel == w.rows[id].facts.final
    ensures RowOk(w.fs, w.media, id, Published(w.rows[id].owner, w.rows[id].staging, w.rows[id].facts), hash)
  {
    RowIsOk(w, id, hash);
  }

  /** The effect of the last transaction. */
  ghost predicate CommitsAs(before: World, after: World, id: nat, m: nat)
    requires id in before.rows && !before.rows[id].Writing?
  {
    var row := before.rows[id];
    && after.fs == before.fs
    && after.rows == before.rows[id := Published(row.owner, row.staging, row.facts)]
    && m in after.media && after.media[m].rel == row.facts.final
    && after.media == (if m in before.media then before.media
                       else before.media[m := Media(row.facts.final, row.facts.size, row.facts.sha1)])
    && after.entries == (if row.owner.Import? then before.entries[row.owner.entry := m] else before.entries)
    && after.outputs == (if row.owner.Merge? then before.outputs[row.owner.group := m] else before.outputs)
  }

  lemma Committed(before: World, after: World, id: nat, m: nat, hash: Hash)
    requires Inv(after, hash) && id in before.rows && !before.rows[id].Writing? && CommitsAs(before, after, id, m)
    requires before.rows[id].Verified? ==> InPlaceAt(before, id, hash)
    ensures IsPublished(after, id, m)
    ensures Undisturbed(before, after, id) && OthersKeepTheirMedia(before, after, before.rows[id].owner)
    ensures WellNamed(after, id) <==>
              forall n :: n in before.media && before.media[n].rel == after.rows[id].facts.final ==>
                IsMediaOf(before.media[n], after.rows[id].facts)
    ensures Truthful(before, hash) && WellNamed(before, id) ==> WellNamed(after, id)
  {
    hide RowOk, FreshIds, LiveInDirs, InPlace, Safe;
    UniqueNames(after, hash);
    SafeReflexive(before.fs, id);
    var final := after.rows[id].facts.final;
    assert forall n :: n in before.media && before.media[n].rel == final ==> n == m by {
      forall n | n in before.media && before.media[n].rel == final ensures n == m {
        assert n in after.media && after.media[n].rel == after.media[m].rel;
      }
    }
    if Truthful(before, hash) && before.rows[id].Verified? { InPlaceNames(before, id, hash); }
  }

  lemma StagingApart(staging: Path, final: Path)
    requires staging.Staged? && final.Library?
    ensures DirOf(staging) != DirOf(final)
  {
  }

  lemma UniqueNames(w: World, hash: Hash)
    requires Inv(w, hash)
    ensures forall m, n :: m in w.media && n in w.media && w.media[m].rel == w.media[n].rel ==> m == n
  {
  }

  lemma NewIdIsFree(w: World, hash: Hash)
    requires Inv(w, hash)
    ensures w.nextId !in w.media
  {
  }

  /** Two files with the same name, size and hash on record are the same record. */
  lemma InPlaceNames(w: World, id: nat, hash: Hash)
    requires Truthful(w, hash) && id in w.rows && !w.rows[id].Writing? && InPlaceAt(w, id, hash)
    ensures forall n :: n in w.media && w.media[n].rel == w.rows[id].facts.final ==> IsMediaOf(w.media[n], w.rows[id].facts)
  {
  }

  // ----- one publication and the power

  /** What was there before the publication of row `id` began is still there: rows, media,
      and every file that was safe on the disk. */
  ghost predicate Along(start: World, w: World, id: nat)
  {
    && w.rows - {id} == start.rows - {id}
    && (forall m :: m in start.media ==> m in w.media && w.media[m] == start.media[m])
    && SolidKept(start.fs, w.fs)
  }

  /** How far row `id` has come, and how the last attempt at it ended. */
  ghost predicate Fate(start: World, w: World, id: nat, job: nat, r: Outcome, staged: bool)
  {
    if staged then
      id in w.rows && !w.rows[id].Writing? && !r.Discarded?
    else
      && NothingPublished(start, w)
      && (id in w.rows ==> w.rows[id].Writing? && w.rows[id].staging == Staged(job, id))
      && (r.Stopped? || (r.Discarded? && id !in w.rows))
  }

  lemma SetsOut(start: World, w: World, id: nat, job: nat, desired: string, staged: bool, hash: Hash)
    requires Undisturbed(start, w, id) && (staged ==> id in w.rows && !w.rows[id].Writing?)
    requires staged ==> ReachableAt(w, id, hash) && (Firm(start.fs, job, desired) ==> Safeguarded(w.fs, w.rows[id], hash))
    requires Truthful(start, hash) ==> Truthful(w, hash) && WellNamed(w, id)
    requires Secure(start, hash) && FirmGround(start.fs, desired) ==> Secure(w, hash)
    ensures forall calm :: Course(start, w, id, job, desired, staged, calm, hash)
  {
    hide Solid, Truthful, WellNamed, Secure, Safeguarded, ReachableAt, FirmGround;
    SafeIsSafe(start.fs, w.fs, id);
    if Secure(start, hash) { SecureIsTruthful(start, hash); }
    ResumeGround(start, w, id, desired);
  }

  lemma CourseReachable(start: World, w: World, id: nat, job: nat, desired: string, calm: bool, hash: Hash)
    requires id in w.rows && !w.rows[id].Writing?
    requires Course(start, w, id, job, desired, true, calm, hash)
    ensures calm || Firm(start.fs, job, desired) ==> ReachableAt(w, id, hash)
  {
    if Safeguarded(w.fs, w.rows[id], hash) { SafeguardedIsReachable(w, id, hash); }
  }

  lemma ScheduleEnds(start: World, w: World, id: nat, job: nat, desired: string, staged: bool, calm: bool, hash: Hash)
    requires staged ==> id in w.rows && !w.rows[id].Writing?
    requires Course(start, w, id, job, desired, staged, calm, hash)
    ensures w.rows - {id} == start.rows - {id}
    ensures forall m :: m in start.media ==> m in w.media && w.media[m] == start.media[m]
    ensures SolidKept(start.fs, w.fs)
    ensures staged && calm ==> ReachableAt(w, id, hash)
    ensures staged && Firm(start.fs, job, desired) ==> Safeguarded(w.fs, w.rows[id], hash)
    ensures Truthful(start, hash) && calm ==> Truthful(w, hash) && WellNamed(w, id)
    ensures Secure(start, hash) && Firm(start.fs, job, desired) ==> Secure(w, hash) && WellNamed(w, id)
  {
  }

  lemma SameRows(w: World, after: World, id: nat, m: nat)
    requires after == w.(fs := after.fs)
    ensures WellNamed(after, id) == WellNamed(w, id) && IsPublished(after, id, m) == IsPublished(w, id, m)
  {
  }

  lemma SafeguardedIsReachable(w: World, id: nat, hash: Hash)
    requires id in w.rows && !w.rows[id].Writing? && Safeguarded(w.fs, w.rows[id], hash)
    ensures ReachableAt(w, id, hash)
  {
  }

  /** What holds of the bytes of row `id`, and of the list, as long as the power lasts or
      where the publication began on firm ground. */
  ghost predicate Course(start: World, w: World, id: nat, job: nat, desired: string, staged: bool, calm: bool, hash: Hash)
    requires staged ==> id in w.rows && !w.rows[id].Writing?
  {
    var firm := Firm(start.fs, job, desired);
    && Along(start, w, id)
    && (staged && calm ==> ReachableAt(w, id, hash))
    && (staged && firm ==> Safeguarded(w.fs, w.rows[id], hash))
    && (firm ==> FirmGround(w.fs, desired))
    && (Truthful(start, hash) && calm ==> Truthful(w, hash) && WellNamed(w, id))
    && (Secure(start, hash) && firm ==> Secure(w, hash) && WellNamed(w, id))
  }

  lemma CoursePower(start: World, w: World, after: Fs, id: nat, job: nat, desired: string, staged: bool, calm: bool,
        hash: Hash)
    requires Inv(w, hash) && PowerLoss(w.fs, after) && (staged ==> id in w.rows && !w.rows[id].Writing?)
    requires Course(start, w, id, job, desired, staged, calm, hash)
    ensures Inv(w.(fs := after), hash) && Course(start, w.(fs := after), id, job, desired, staged, false, hash)
  {
    hide Inv, Solid, Landed, PowerLoss, Kept, Secure, FirmGround, WellNamed, Firm, Safeguarded;
    PowerLossKeepsInv(w, after, hash);
    if Secure(w, hash) { SecureKept(w, after, hash); }
    PowerKeepsGround(w.fs, after, desired);
    SameRows(w, w.(fs := after), id, 0);
    if staged && Safeguarded(w.fs, w.rows[id], hash) { PowerSafeguards(w, after, id, hash); }
  }

  lemma PowerSafeguards(w: World, after: Fs, id: nat, hash: Hash)
    requires Inv(w, hash) && PowerLoss(w.fs, after) && id in w.rows && !w.rows[id].Writing?
    requires Safeguarded(w.fs, w.rows[id], hash)
    ensures Safeguarded(after, w.rows[id], hash)
  {
    hide Inv, Solid, Landed, PowerLoss, Kept;
    var facts := w.rows[id].facts;
    PowerLossKeepsInv(w, after, hash);
    if w.rows[id].Verified? {
      RowIsOk(w, id, hash);
      KeptSurvives(w.fs, after, w.rows[id], hash);
    } else {
      LandedIsSolid(w.fs, after, facts.final, facts.size, facts.sha1, hash);
    }
  }

  lemma CourseResume(start: World, before: World, after: World, id: nat, job: nat, desired: string, staged: bool,
        calm: bool, hash: Hash)
    requires staged ==> id in before.rows && !before.rows[id].Writing? && id in after.rows && !after.rows[id].Writing?
    requires Course(start, before, id, job, desired, staged, calm, hash) && Undisturbed(before, after, id)
    requires staged ==> ReachableAt(before, id, hash) ==> ReachableAt(after, id, hash)
    requires staged ==> FirmGround(before.fs, desired) && Safeguarded(before.fs, before.rows[id], hash) ==>
        Safeguarded(after.fs, after.rows[id], hash)
    requires Truthful(before, hash) && WellNamed(before, id) ==> Truthful(after, hash) && WellNamed(after, id)
    requires Secure(before, hash) && (staged ==> FirmGround(before.fs, desired)) ==> Secure(after, hash)
    ensures Course(start, after, id, job, desired, staged, calm, hash)
  {
    hide Solid, Truthful, WellNamed, Secure, Firm, Safeguarded, ReachableAt;
    SafeIsSafe(before.fs, after.fs, id);
    if Secure(before, hash) { SecureIsTruthful(before, hash); }
    hide FirmGround;
    ResumeGround(before, after, id, desired);
  }

  lemma ResumeGround(before: World, after: World, id: nat, desired: string)
    requires Undisturbed(before, after, id)
    ensures FirmGround(before.fs, desired) ==> FirmGround(after.fs, desired)
  {
  }

  lemma PowerKeepsGround(fs: Fs, after: Fs, desired: string)
    requires PowerLoss(fs, after)
    ensures FirmGround(fs, desired) ==> FirmGround(after, desired)
  {
    if FirmGround(fs, desired) { LastingSurvives(fs, after, DirOf(Library(desired))); }
  }

  ghost function Untried(fs: Fs, facts: Facts, i: nat): set<Path>
  {
    set p | p in fs.live && forall j: nat :: j < i ==> p != Library(facts.Name(j))
  }

  lemma UntriedShrinks(fs: Fs, facts: Facts, i: nat)
    requires Library(facts.Name(i)) in fs.live
    ensures Untried(fs, facts, i + 1) < Untried(fs, facts, i)
  {
    var p := Library(facts.Name(i));
    forall j: nat | j < i ensures p != Library(facts.Name(j)) {
      CandidatesDistinct(facts.desired, facts.stamp, Short(facts.sha1), i, j);
    }
    assert p in Untried(fs, facts, i);
    assert p !in Untried(fs, facts, i + 1);
  }

  class ArtifactPublisher {
    const hash: Hash
    var w: World

    constructor (hash: Hash)
      ensures Valid() && this.hash == hash && w.rows == map[] && w.media == map[]
    {
      this.hash := hash;
      w := World(Fs(map[], map[], {}, {}), map[], map[], map[], map[], 0);
    }

    ghost predicate Valid()
      reads this
    {
      Inv(w, hash)
    }

    /** Steps 1 to 11. `lease` stands for what `assert_lease` finds inside the
        transaction that makes the row `staged`, `removable` for whether the staging file
        can be removed, should it come to that, and `readable` for whether the bytes can be
        read to the end, and probed, before somebody cancels. */
    method Publish(job: nat, owner: Owner, desired: string, stamp: Plain, source: Source, lease: bool, removable: bool,
          readable: bool, whole: bool)
      returns (id: nat, r: Outcome)
      requires Valid()
      modifies this
      ensures Valid() && id == old(w).nextId && Undisturbed(old(w), w, id) && OthersKeepTheirMedia(old(w), w, owner)
      ensures !r.Lost?
      ensures whole ==> if readable && lease then r.Done? && id in w.rows && w.rows[id].Published? else r.Discarded?
      ensures id in w.rows ==> w.rows[id].owner == owner && w.rows[id].staging == Staged(job, id)
      ensures r.Discarded? ==> id !in w.rows
      ensures id !in w.rows && removable ==> Staged(job, id) !in w.fs.live
      ensures id !in w.rows || w.rows[id].Writing? ==> NothingPublished(old(w), w) && !r.Done?
      ensures r.Done? ==> IsPublished(w, id, r.mediaId) && EnteredAt(w, id, hash)
      ensures id in w.rows && !w.rows[id].Writing? ==>
                && lease
                && Describes(w.rows[id].facts, desired, stamp, ContentOf(source), hash)
                && FirstFit(w.fs, w.rows[id].facts, hash)
                && ReachableAt(w, id, hash)
                && (Firm(old(w).fs, job, desired) ==> Safeguarded(w.fs, w.rows[id], hash))
      ensures Truthful(old(w), hash) ==> Truthful(w, hash) && WellNamed(w, id)
      ensures Secure(old(w), hash) && FirmGround(old(w).fs, desired) ==> Secure(w, hash)
    {
      hide Inv, Safe, FirstFit, IsPublished, Undisturbed, Concat, Kept, Landed, InPlace, FirmGround, Truthful, Secure, RowOk;
      var progress;
      id, progress := Begin(job, owner, whole);
      if progress.Ended? {
        BeforeStaged(old(w), w, id, hash);
        return id, Stopped;
      }
      ghost var begun := w;
      var hashed := GaveUp;
      if progress.Ready? {
        hashed := Materialise(id, source, readable, whole);
        OnlyFilesUndisturbed(begun, w, id);
        UndisturbedTransitive(old(w), begun, w, id);
        GroundStays(begun, w, id, desired, StagingDir(job));
      }
      BeforeStaged(old(w), w, id, hash);
      if hashed.Died? { return id, Stopped; }
      ghost var written := w;
      if hashed.GaveUp? || |w.fs.live[w.rows[id].staging].bytes| != hashed.size || !readable || !lease {
        r := DiscardWriting(id, removable, whole);
        UndisturbedTransitive(old(w), written, w, id);
        BeforeStaged(old(w), w, id, hash);
        return;
      }
      Stage(id, Facts(desired, hashed.size, hashed.sha1, desired, stamp));
      UndisturbedTransitive(old(w), written, w, id);
      BeforeStaged(old(w), w, id, hash);
      GroundStays(old(w), w, id, desired, StagingDir(job));
      if !whole { if * { return id, Stopped; } }
      ghost var staged := w;
      r := Finish(id, whole);
      UndisturbedTransitive(old(w), staged, w, id);
    }

    /** Step 1, and the directory the staging file goes into. Its entry is synced only
        by the publication that makes it: where that sync fails the next publication of
        the job finds the directory there. */
    method Begin(job: nat, owner: Owner, whole: bool) returns (id: nat, progress: Progress)
      requires Valid()
      modifies this
      ensures Valid() && id == old(w).nextId && Undisturbed(old(w), w, id) && NothingPublished(old(w), w)
      ensures id in w.rows && w.rows[id] == Writing(owner, Staged(job, id))
      ensures whole ==> progress.Ready?
      ensures progress.Ready? ==>
                && w.fs.Standing(StagingDir(job))
                && (w.fs.Lasting(StagingDir(job)) <==>
                      (StagingDir(job) in old(w).fs.dirs ==> old(w).fs.Lasting(StagingDir(job))))
    {
      hide Inv, Safe, Fs.MakeDirs, Fs.SyncDir, Fs.Standing, Fs.Lasting;
      id := w.nextId;
      NewRowKeepsInv(w, Writing(owner, Staged(job, id)), hash);
      w := w.(rows := w.rows[id := Writing(owner, Staged(job, id))], nextId := id + 1);
      ghost var fs0 := w.fs;
      SafeReflexive(w.fs, id);
      JobDirIs(w.fs, job);
      if !whole { if * { return id, Ended; } }
      if StagingDir(job) !in w.fs.dirs {
        MakeDirsKeepsInv(w, StagingDir(job), id, hash);
        w := w.(fs := w.fs.MakeDirs(StagingDir(job)));
        if !whole { if * { return id, Ended; } }
        if !whole { if * { return id, Failed; } }    // the sync raised
        ghost var fs1 := w.fs;
        SyncDirKeepsInv(w, StagingRoot, id, hash);
        w := w.(fs := w.fs.SyncDir(StagingRoot));
        SafeTransitive(fs0, fs1, w.fs, id);
        assert w.fs == fs0.MakeDirs(StagingDir(job)).SyncDir(StagingRoot);
        if !whole { if * { return id, Ended; } }
      }
      progress := Ready;
    }

    /** Steps 2 and 3: put the bytes into the staging file while hashing them, then
        make first the bytes and then the entry durable. */
    method Materialise(id: nat, source: Source, readable: bool, whole: bool) returns (r: Hashed)
      requires Valid() && id in w.rows && w.rows[id].Writing? && w.fs.Standing(DirOf(w.rows[id].staging))
      modifies this
      ensures Valid() && OnlyFiles(old(w), w, id)
      ensures whole ==> !r.Died? && (readable ==> r.Hashed?)
      ensures r.Hashed? ==>
                && r.size == |ContentOf(source)| && r.sha1 == hash(ContentOf(source))
                && SyncedAs(w, w.rows[id].staging, File(ContentOf(source), true))
    {
      hide Inv, Safe, Concat, Fs.Standing;
      ghost var w0 := w;
      var staging := w.rows[id].staging;
      match source {
        case Stream(chunks) => r := WriteStream(id, chunks, readable, whole);
        case Prepared(bytes) => r := LinkPrepared(id, bytes, readable, whole);
      }
      if !r.Hashed? { return; }
      ghost var w1 := w;
      SameDirs(w0.fs, w1.fs, DirOf(staging));
      PutStaging(id, File(ContentOf(source), true));   // utime and fsync of the file
      OnlyFilesTransitive(w0, w1, w, id);
      if !whole { if * { return Died; } }
      if !whole || !readable { if * { return GaveUp; } }
      ghost var w2 := w;
      SyncDirKeepsInv(w, DirOf(staging), id, hash);
      w := w.(fs := w.fs.SyncDir(DirOf(staging)));
      OnlyFilesTransitive(w0, w2, w, id);
      if !whole { if * { return Died; } }
      if !whole || !readable { if * { return GaveUp; } }
    }

    /** An import: the bytes are hashed as they are written. */
    method WriteStream(id: nat, chunks: seq<Bytes>, readable: bool, whole: bool) returns (r: Hashed)
      requires Valid() && id in w.rows && w.rows[id].Writing? && w.fs.Standing(DirOf(w.rows[id].staging))
      modifies this
      ensures Valid() && OnlyFiles(old(w), w, id)
      ensures w.fs.durableDirs == old(w).fs.durableDirs
      ensures whole ==> !r.Died? && (readable ==> r.Hashed?)
      ensures r.Hashed? ==>
                && r.size == |Concat(chunks)| && r.sha1 == hash(Concat(chunks))
                && w == old(w).(fs := old(w).fs.Put(old(w).rows[id].staging, File(Concat(chunks), false)))
    {
      hide Inv, Safe, Fs.Standing;
      var absorbed: Bytes, size := [], 0;
      PutStaging(id, File([], false));
      for i := 0 to |chunks|
        invariant Valid() && OnlyFiles(old(w), w, id)
        invariant size == |absorbed| && absorbed == Concat(chunks[..i])
        invariant w == old(w).(fs := old(w).fs.Put(old(w).rows[id].staging, File(absorbed, false)))
      {
        assert chunks[..i + 1][..i] == chunks[..i];
        absorbed, size := absorbed + chunks[i], size + |chunks[i]|;
        ghost var w1 := w;
        SameDirs(old(w).fs, w.fs, DirOf(old(w).rows[id].staging));
        PutStaging(id, File(absorbed, false));
        OnlyFilesTransitive(old(w), w1, w, id);
        if !whole { if * { return Died; } }
        if !whole || !readable { if * { return GaveUp; } }   // cancelled, or the source failed
      }
      assert chunks[..|chunks|] == chunks;
      r := Hashed(size, hash(absorbed));
    }

    /** A merge: the prepared file is linked, then read once in chunks. */
    method LinkPrepared(id: nat, bytes: Bytes, readable: bool, whole: bool) returns (r: Hashed)
      requires Valid() && id in w.rows && w.rows[id].Writing? && w.fs.Standing(DirOf(w.rows[id].staging))
      modifies this
      ensures Valid() && OnlyFiles(old(w), w, id)
      ensures w == old(w).(fs := old(w).fs.Put(old(w).rows[id].staging, File(bytes, false)))
      ensures whole ==> !r.Died? && (readable ==> r.Hashed?)
      ensures r.Hashed? ==> r.size == |bytes| && r.sha1 == hash(bytes)
    {
      hide Inv, Safe;
      PutStaging(id, File(bytes, false));
      var absorbed: Bytes, size := [], 0;
      while size < |bytes|
        invariant size <= |bytes| && absorbed == bytes[..size]
      {
        var chunk := bytes[size..if size + COPY_CHUNK < |bytes| then size + COPY_CHUNK else |bytes|];
        absorbed, size := absorbed + chunk, size + |chunk|;
        if !whole { if * { return Died; } }
        if !whole || !readable { if * { return GaveUp; } }   // cancelled between two chunks
      }
      assert bytes[..|bytes|] == bytes;
      r := Hashed(size, hash(absorbed));
    }

    /** Changes the staging file of a row that is still being written. */
    method PutStaging(id: nat, f: File)
      requires Valid() && id in w.rows && w.rows[id].Writing? && w.fs.Standing(DirOf(w.rows[id].staging))
      modifies this
      ensures Valid() && OnlyFiles(old(w), w, id)
      ensures w == old(w).(fs := old(w).fs.Put(old(w).rows[id].staging, f))
    {
      hide Inv, Safe, Fs.Standing;
      StagingPutKeepsInv(w, id, f, hash);
      w := w.(fs := w.fs.Put(w.rows[id].staging, f));
    }

    /** Step 7, the point of no return. From here on the bytes are found after every
        power loss exactly if the job's directory is (or the library has them already). */
    method Stage(id: nat, facts: Facts)
      requires Valid() && id in w.rows && w.rows[id].Writing? && facts.final == facts.desired
      requires exists f :: SyncedAs(w, w.rows[id].staging, f) && Fine(f, facts.size, facts.sha1, hash)
      modifies this
      ensures Valid() && FirstFit(w.fs, facts, hash) && Undisturbed(old(w), w, id)
      ensures w == old(w).(rows := old(w).rows[id := Verified(old(w).rows[id].owner, old(w).rows[id].staging, facts)])
      ensures ReachableAt(w, id, hash)
      ensures Kept(w.fs, w.rows[id], hash) <==>
                || w.fs.Lasting(DirOf(w.rows[id].staging))
                || Landed(w.fs, facts.final, facts.size, facts.sha1, hash)
    {
      hide Inv, Safe, FirstFit;
      SafeReflexive(w.fs, id);
      var row := Verified(w.rows[id].owner, w.rows[id].staging, facts);
      StagedRowIsOk(w, id, row, hash);
      RowChangeKeepsInv(w, id, row, hash);
      w := w.(rows := w.rows[id := row]);
    }

    /** Removes what a publication left before it was staged. An error of the
        unlink is swallowed, and then the file stays behind. */
    method DiscardWriting(id: nat, removable: bool, whole: bool) returns (r: Outcome)
      requires Valid() && id in w.rows && w.rows[id].Writing?
      modifies this
      ensures Valid() && Undisturbed(old(w), w, id) && NothingPublished(old(w), w)
      ensures r.Discarded? || r.Stopped?
      ensures whole ==> r.Discarded?
      ensures r.Discarded? ==> id !in w.rows
      ensures id in w.rows ==> w.rows[id] == old(w).rows[id]
      ensures w.fs == Without(old(w).fs, old(w).rows[id].staging, removable) || (id in w.rows && w.fs == old(w).fs)
    {
      hide Inv, Safe;
      var staging := w.rows[id].staging;
      SafeReflexive(w.fs, id);
      if !whole { if * { return Stopped; } }
      if removable {
        UnlinkKeepsInv(w, id, hash);
        w := w.(fs := w.fs.Unlink(staging));
      }
      if !whole { if * { return Stopped; } }
      RowGoneKeepsInv(w, id, hash);
      w := w.(rows := w.rows - {id});
      if !whole { if * { return Stopped; } }
      r := Discarded;
    }

    /** What reconciliation calls for a row it finds. */
    method Resume(id: nat, removable: bool, whole: bool) returns (r: Outcome)
      requires Valid()
      modifies this
      ensures Valid() && Undisturbed(old(w), w, id)
      ensures r.Lost? <==>
                id in old(w).rows && old(w).rows[id].Verified? && !ReachableAt(old(w), id, hash)
      ensures r.Lost? ==> w == old(w)
      ensures whole ==> !r.Stopped?
      ensures r.Done? ==> id in w.rows && w.rows[id].Published?
      ensures id !in old(w).rows ==> w == old(w) && r == Discarded
      ensures id in old(w).rows && old(w).rows[id].Writing? ==>
                && NothingPublished(old(w), w) && !r.Done?
                && (r.Discarded? ==> id !in w.rows)
                && (id in w.rows ==> w.rows[id] == old(w).rows[id])
                && ( || w.fs == Without(old(w).fs, old(w).rows[id].staging, removable)
                     || (id in w.rows && w.fs == old(w).fs))
      ensures id in old(w).rows && !old(w).rows[id].Writing? ==>
                && !r.Discarded? && SameRow(old(w).rows[id], id, w)
                && (FirstFit(old(w).fs, old(w).rows[id].facts, hash) ==> FirstFit(w.fs, w.rows[id].facts, hash))
                && (ReachableAt(old(w), id, hash) ==> ReachableAt(w, id, hash))
                && (FirmGround(old(w).fs, old(w).rows[id].facts.desired) && Safeguarded(old(w).fs, old(w).rows[id], hash) ==>
                      Safeguarded(w.fs, w.rows[id], hash))
      ensures r.Done? ==> IsPublished(w, id, r.mediaId)
      ensures NewlyPublished(old(w), w, id) ==> EnteredAt(w, id, hash) && exists m :: IsPublished(w, id, m)
      ensures Truthful(old(w), hash) && WellNamed(old(w), id) ==> Truthful(w, hash) && WellNamed(w, id)
      ensures Secure(old(w), hash) && GroundOf(old(w), id) ==> Secure(w, hash)
    {
      hide Inv, Safe, Landed, InPlace, FirmGround, Truthful, Secure;
      SafeReflexive(w.fs, id);
      if id !in w.rows {
        return Discarded;
      }
      if w.rows[id].Writing? {
        r := DiscardWriting(id, removable, whole);
        ListStays(old(w), w, id, hash);
      } else {
        r := Finish(id, whole);
      }
    }

    /** From step 8 on. Calling it again gives the same result. */
    method Finish(id: nat, whole: bool) returns (r: Outcome)
      requires Valid() && id in w.rows && !w.rows[id].Writing?
      modifies this
      ensures Valid() && Undisturbed(old(w), w, id) && OthersKeepTheirMedia(old(w), w, old(w).rows[id].owner)
      ensures r.Lost? <==> old(w).rows[id].Verified? && !ReachableAt(old(w), id, hash)
      ensures r.Lost? ==> w == old(w)
      ensures r.Done? || r.Stopped? || r.Lost?
      ensures whole ==> !r.Stopped?
      ensures SameRow(old(w).rows[id], id, w)
      ensures FirstFit(old(w).fs, old(w).rows[id].facts, hash) ==> FirstFit(w.fs, w.rows[id].facts, hash)
      ensures r.Done? ==> IsPublished(w, id, r.mediaId)
      ensures NewlyPublished(old(w), w, id) ==> EnteredAt(w, id, hash) && exists m :: IsPublished(w, id, m)
      ensures r.Done? ==> w.rows[id].Published?
      // the bytes
      ensures ReachableAt(old(w), id, hash) ==> ReachableAt(w, id, hash)
      ensures FirmGround(old(w).fs, old(w).rows[id].facts.desired) && Safeguarded(old(w).fs, old(w).rows[id], hash) ==>
                Safeguarded(w.fs, w.rows[id], hash)
      // the list
      ensures Truthful(old(w), hash) && WellNamed(old(w), id) ==> Truthful(w, hash) && WellNamed(w, id)
      ensures Secure(old(w), hash) && FirmGround(old(w).fs, old(w).rows[id].facts.desired) ==> Secure(w, hash)
    {
      hide Inv, Safe, Landed, InPlace, FirmGround, Truthful, Secure, FirstFit;
      var reused := false;
      SafeReflexive(w.fs, id);
      if w.rows[id].Verified? {
        r := Link(id, whole);
        ListStays(old(w), w, id, hash);
        if !r.Done? { return; }
        InPlaceStays(old(w).fs, w.fs, id, old(w).rows[id].facts, hash);
        EnteredLands(w, id, hash);
        reused := r.reused;
      }
      ghost var linked := w;
      r := Commit(id, reused, whole);
      UndisturbedTransitive(old(w), linked, w, id);
    }

    /** Steps 8 to 10. `Done` carries no media yet, only whether the file was there already. */
    method Link(id: nat, whole: bool) returns (r: Outcome)
      requires Valid() && id in w.rows && w.rows[id].Verified?
      modifies this
      ensures Valid() && Undisturbed(old(w), w, id) && NothingPublished(old(w), w)
      ensures r.Lost? <==> !ReachableAt(old(w), id, hash)
      ensures r.Lost? ==> w == old(w)
      ensures r.Done? || r.Stopped? || r.Lost?
      ensures whole ==> !r.Stopped?
      ensures SameRow(old(w).rows[id], id, w) && w.rows[id].Verified?
      ensures FirstFit(old(w).fs, old(w).rows[id].facts, hash) ==> FirstFit(w.fs, w.rows[id].facts, hash)
      ensures r.Done? ==> w.rows[id].staging !in w.fs.live && EnteredAt(w, id, hash)
      ensures ReachableAt(old(w), id, hash) ==> ReachableAt(w, id, hash)
      ensures FirmGround(old(w).fs, old(w).rows[id].facts.desired) && Kept(old(w).fs, old(w).rows[id], hash) ==>
                Kept(w.fs, w.rows[id], hash)
    {
      hide Inv, Safe, Landed, InPlace, FirmGround, FirstFit;
      var staging := w.rows[id].staging;
      if staging !in w.fs.live {
        r := AdoptPublishedFinal(id, whole);
        OnlyFilesUndisturbed(old(w), w, id);
        FitStays(old(w), w, id, w.rows[id].facts, hash);
        return;
      }
      r := TakeName(id, whole);
      if !r.Done? { return; }
      ghost var linked := w;
      r := SettleLinked(id, r.reused, whole);
      OnlyFilesUndisturbed(linked, w, id);
      FitStays(linked, w, id, w.rows[id].facts, hash);
      UndisturbedTransitive(old(w), linked, w, id);
      GroundStays(old(w), w, id, w.rows[id].facts.desired, StagingRoot);
    }

    /** Step 8: link under the chosen name, unless the same bytes are there already.
        All names of the series are in one directory, made here if it is not there. */
    method TakeName(id: nat, whole: bool) returns (r: Outcome)
      requires Valid() && id in w.rows && w.rows[id].Verified? && w.rows[id].staging in w.fs.live
      modifies this
      ensures Valid() && Undisturbed(old(w), w, id) && NothingPublished(old(w), w)
      ensures r.Done? || r.Stopped?
      ensures whole ==> r.Done?
      ensures SameRow(old(w).rows[id], id, w) && w.rows[id].Verified? && w.rows[id].staging in w.fs.live
      ensures FirstFit(old(w).fs, old(w).rows[id].facts, hash) ==> FirstFit(w.fs, w.rows[id].facts, hash)
      ensures r.Done? ==> InPlaceAt(w, id, hash)
      ensures Kept(old(w).fs, old(w).rows[id], hash) ==> Kept(w.fs, w.rows[id], hash)
    {
      hide Inv, Safe, FirstFit, Landed, Fs.MakeDirs, Fs.Lasting, Fs.Standing, LiveInDirs, Undisturbed, Kept, DirOf;
      var staging, dir := w.rows[id].staging, DirOf(Library(w.rows[id].facts.final));
      NamesTogether(w, id, hash);
      MakeDirsKeepsInv(w, dir, id, hash);
      MakeDirsMakes(w.fs, dir);
      w := w.(fs := w.fs.MakeDirs(dir));
      ghost var made := w;
      StepUndisturbed(old(w), w, id);
      FitStays(old(w), w, id, w.rows[id].facts, hash);
      InPlaceStays(old(w).fs, w.fs, id, w.rows[id].facts, hash);
      KeptStays(old(w).fs, w.fs, id, w.rows[id], hash);
      if !whole { if * { return Stopped; } }
      var ended := ChooseName(id, whole);
      SafeReflexive(w.fs, id);
      StepUndisturbed(made, w, id);
      UndisturbedTransitive(old(w), made, w, id);
      KeptByName(made.fs, made.rows[id], w.rows[id], hash);
      if ended { return Stopped; }
      NamesTogether(w, id, hash);
      RowIsOk(w, id, hash);
      var facts, file := w.rows[id].facts, w.fs.live[staging];
      var final := Library(facts.final);
      if final !in w.fs.live {
        ghost var chosen := w;
        LinkKeepsInv(w, facts.final, file, id, hash);
        w := w.(fs := w.fs.Put(final, file));
        StepUndisturbed(chosen, w, id);
        UndisturbedTransitive(old(w), chosen, w, id);
        FitStays(chosen, w, id, facts, hash);
        KeptStays(chosen.fs, w.fs, id, w.rows[id], hash);
        if !whole { if * { return Stopped; } }
        return Done(0, false);
      } else {
        if !whole { if * { return Stopped; } }
        return Done(0, true);
      }
    }

    /** Finds the first name of the series, from the one the row holds, that is free
        or has the same bytes, and records every name it moves to before trying it.
        The loop ends because names never repeat and the library is finite. */
    method ChooseName(id: nat, whole: bool) returns (ended: bool)
      requires Valid() && id in w.rows && w.rows[id].Verified?
      modifies this
      ensures Valid() && w == old(w).(rows := w.rows) && w.rows - {id} == old(w).rows - {id}
      ensures SameRow(old(w).rows[id], id, w) && w.rows[id].Verified?
      ensures FirstFit(old(w).fs, old(w).rows[id].facts, hash) ==> FirstFit(w.fs, w.rows[id].facts, hash)
      ensures InPlaceAt(old(w), id, hash) ==> w == old(w)
      ensures whole ==> !ended
      ensures !ended && Library(w.rows[id].facts.final) in w.fs.live ==> InPlaceAt(w, id, hash)
    {
      hide Inv, FirstFit, PassedOver, Untried, RowOk, Candidate, Holds;
      RowIsOnSeries(w, id, hash);
      var facts := w.rows[id].facts;
      var i := PositionOf(facts);
      ghost var w0, facts0 := w, facts;
      ghost var fits := FirstFit(w.fs, facts, hash);
      if fits { FirstFitIs(w.fs, facts, i, hash); }
      while Library(facts.final) in w.fs.live && !Holds(w.fs.live[Library(facts.final)].bytes, facts.size, facts.sha1, hash)
        invariant Valid() && w == w0.(rows := w0.rows[id := w0.rows[id].(facts := facts)])
        invariant OnSeries(facts, i) && SameFacts(facts0, facts)
        invariant InPlace(w0.fs, facts0.final, facts0.size, facts0.sha1, hash) ==> facts == facts0
        invariant fits ==> PassedOver(w.fs, facts, i, hash)
        decreases Untried(w0.fs, facts0, i)
      {
        assert facts0.Name(i) == facts.final;
        UntriedShrinks(w0.fs, facts0, i);
        if fits { PassedOverNext(w.fs, facts, i, hash); }
        i := i + 1;
        facts := facts.(final := facts.Name(i));
        MoveNameKeepsInv(w, id, facts, i, hash);
        w := w.(rows := w.rows[id := w.rows[id].(facts := facts)]);
        if fits { FirstFitFrom(w.fs, facts, i, hash); }
        if !whole { if * { return true; } }
      }
      if fits { FirstFitFrom(w.fs, facts, i, hash); }
      ended := false;
    }

    /** Moves along the series to the name the row already holds. */
    method PositionOf(facts: Facts) returns (i: nat)
      requires exists k: nat :: OnSeries(facts, k)
      ensures OnSeries(facts, i)
    {
      i := 0;
      ghost var at: nat :| OnSeries(facts, at);
      while facts.Name(i) != facts.final
        invariant i <= at
        decreases at - i
      {
        i := i + 1;
      }
    }

    /** Steps 9 and 10: the new entry is synced before the old one goes. */
    method SettleLinked(id: nat, reused: bool, whole: bool) returns (r: Outcome)
      requires Valid() && id in w.rows && w.rows[id].Verified? && InPlaceAt(w, id, hash)
      modifies this
      ensures Valid() && OnlyFiles(old(w), w, id)
      ensures r.Done? || r.Stopped?
      ensures whole ==> r.Done?
      ensures InPlaceAt(w, id, hash)
      ensures r.Done? ==> r.reused == reused && w.rows[id].staging !in w.fs.live && EnteredAt(w, id, hash)
      ensures FirmGround(w.fs, w.rows[id].facts.desired) ==> Kept(w.fs, w.rows[id], hash)
    {
      hide Inv, Safe, Landed, Fs.SyncDir, DirOf, Holds, FirmGround;
      var staging, final := w.rows[id].staging, Library(w.rows[id].facts.final);
      StagingBound(w, id, hash);
      ghost var w0 := w;
      SyncDirKeepsInv(w, DirOf(final), id, hash);
      w := w.(fs := w.fs.SyncDir(DirOf(final)));
      EnteredLands(w, id, hash);
      if !whole { if * { return Stopped; } }
      ghost var w1 := w;
      UnlinkKeepsInv(w, id, hash);
      w := w.(fs := w.fs.Unlink(staging));
      OnlyFilesTransitive(w0, w1, w, id);
      EnteredLands(w, id, hash);
      if !whole { if * { return Stopped; } }
      ghost var w2 := w;
      SyncDirKeepsInv(w, DirOf(staging), id, hash);
      w := w.(fs := w.fs.SyncDir(DirOf(staging)));
      OnlyFilesTransitive(w0, w2, w, id);
      StagingApart(staging, final);
      EnteredLands(w, id, hash);
      if !whole { if * { return Stopped; } }
      r := Done(0, reused);
    }

    /** The staging file is gone: only the recorded name, size and hash decide. */
    method AdoptPublishedFinal(id: nat, whole: bool) returns (r: Outcome)
      requires Valid() && id in w.rows && w.rows[id].Verified? && w.rows[id].staging !in w.fs.live
      modifies this
      ensures Valid() && OnlyFiles(old(w), w, id) && w.fs.live == old(w).fs.live
      ensures r.Lost? <==> !InPlaceAt(old(w), id, hash)
      ensures r.Lost? ==> w == old(w)
      ensures r.Done? || r.Stopped? || r.Lost?
      ensures whole ==> !r.Stopped?
      ensures r.Done? ==> EnteredAt(w, id, hash)
      ensures InPlaceAt(old(w), id, hash) ==> InPlaceAt(w, id, hash)
      ensures Kept(old(w).fs, old(w).rows[id], hash) ==> Kept(w.fs, w.rows[id], hash)
    {
      hide Inv, Safe, Landed;
      var facts := w.rows[id].facts;
      var final := Library(facts.final);
      if final in w.fs.live && Holds(w.fs.live[final].bytes, facts.size, facts.sha1, hash) {
        SyncDirKeepsInv(w, DirOf(final), id, hash);
        InPlaceStays(w.fs, w.fs.SyncDir(DirOf(final)), id, facts, hash);
        w := w.(fs := w.fs.SyncDir(DirOf(final)));
        if !whole { if * { return Stopped; } }
        r := Done(0, true);
      } else {
        SafeReflexive(w.fs, id);
        r := Lost;
      }
    }

    /** Step 11, one transaction: the media file, its owner and the row together. The
        media file describes the row exactly if none of that name was listed for other
        bytes: one whose file has gone missing lends its record to the new file. */
    method Commit(id: nat, reused: bool, whole: bool) returns (r: Outcome)
      requires Valid() && id in w.rows && !w.rows[id].Writing?
      requires w.rows[id].Verified? ==> InPlaceAt(w, id, hash)
      modifies this
      ensures Valid() && Undisturbed(old(w), w, id) && w.fs == old(w).fs && id in w.rows
      ensures OthersKeepTheirMedia(old(w), w, old(w).rows[id].owner)
      ensures r.Done? || r.Stopped?
      ensures whole ==> r.Done?
      ensures w.rows[id] == Published(old(w).rows[id].owner, old(w).rows[id].staging, old(w).rows[id].facts)
      ensures exists m :: IsPublished(w, id, m)
      ensures r.Done? ==> r.reused == reused && IsPublished(w, id, r.mediaId)
      ensures WellNamed(w, id) <==>
                forall n :: n in old(w).media && old(w).media[n].rel == w.rows[id].facts.final ==>
                  IsMediaOf(old(w).media[n], w.rows[id].facts)
      ensures Truthful(old(w), hash) && WellNamed(old(w), id) ==> Truthful(w, hash) && WellNamed(w, id)
      ensures var facts := w.rows[id].facts;
              Secure(old(w), hash) && (old(w).rows[id].Verified? ==> Landed(w.fs, facts.final, facts.size, facts.sha1, hash)) ==>
                Secure(w, hash)
    {
      hide Inv, Safe, InPlace, Landed, Secure, Truthful, IsPublished, WellNamed, RowOk, IsMediaOf;
      hide Undisturbed, OthersKeepTheirMedia;
      SafeReflexive(w.fs, id);
      var row := w.rows[id];
      var m := MediaFor(id);
      ghost var listed := w;
      var entries, outputs := w.entries, w.outputs;
      match row.owner {
        case Import(e) => entries := entries[e := m];
        case Merge(g) => outputs := outputs[g := m];
      }
      var published := Published(row.owner, row.staging, row.facts);
      PublishedRowIsOk(w, id, m, hash);
      RowChangeKeepsInv(w, id, published, hash);
      LinksKeepInv(w.(rows := w.rows[id := published]), entries, outputs, hash);
      w := w.(rows := w.rows[id := published], entries := entries, outputs := outputs);
      Committed(old(w), w, id, m, hash);
      ListStays(listed, w, id, hash);
      if !whole { if * { return Stopped; } }
      r := Done(m, reused);
    }

    /** The media file of that name, made if there is none. */
    method MediaFor(id: nat) returns (m: nat)
      requires Valid() && id in w.rows && !w.rows[id].Writing?
      requires w.rows[id].Verified? ==> InPlaceAt(w, id, hash)
      modifies this
      ensures Valid() && w == old(w).(media := w.media, nextId := w.nextId)
      ensures m in w.media && w.media[m].rel == w.rows[id].facts.final
      ensures w.media == if m in old(w).media then old(w).media
                         else old(w).media[m := Media(w.rows[id].facts.final, w.rows[id].facts.size, w.rows[id].facts.sha1)]
      ensures m !in old(w).media ==>
                && w.rows[id].Verified?
                && forall n :: n in old(w).media ==> old(w).media[n].rel != w.rows[id].facts.final
      ensures Truthful(old(w), hash) ==> Truthful(w, hash)
      ensures var facts := w.rows[id].facts;
              Secure(old(w), hash) && (w.rows[id].Verified? ==> Landed(w.fs, facts.final, facts.size, facts.sha1, hash)) ==>
                Secure(w, hash)
    {
      hide Inv, Landed, Secure, Truthful, InPlace;
      var facts := w.rows[id].facts;
      RowIsOk(w, id, hash);
      if n: nat :| n in w.media && w.media[n].rel == facts.final {
        m := n;
      } else {
        m := w.nextId;
        CommitKeepsInv(w, m, facts, hash);
        NewIdIsFree(w, hash);
        w := w.(media := w.media[m := Media(facts.final, facts.size, facts.sha1)], nextId := m + 1);
      }
    }

    /** A publication under any schedule: it may be cut off anywhere and every start may be
        cut off too; unless it is `calm` the power may fail in every way between two starts;
        `removable` tells whether a staging file can be removed. If the schedule is `whole`,
        the last start gets through, or the publication itself where there are no starts.
        `staged` is whether the row ever got past the point of no return. */
    method AnySchedule(job: nat, owner: Owner, desired: string, stamp: Plain, source: Source, lease: bool, starts: nat,
          calm: bool, removable: bool, readable: bool, whole: bool)
      returns (id: nat, staged: bool, r: Outcome)
      requires Valid()
      modifies this
      ensures Valid() && id == old(w).nextId
      ensures staged <==> id in w.rows && !w.rows[id].Writing?
      // what was there before stays: rows, media, and every file that was safe on the disk
      ensures w.rows - {id} == old(w).rows - {id}
      ensures forall m :: m in old(w).media ==> m in w.media && w.media[m] == old(w).media[m]
      ensures SolidKept(old(w).fs, w.fs)
      // never staged: no row and nothing published once a start got through, and no staging file
      // either unless it could not be removed or the power brought it back
      ensures !staged ==> NothingPublished(old(w), w) && (r.Discarded? || r.Stopped?)
      ensures !staged && r.Discarded? ==> id !in w.rows
      ensures whole && !staged ==> r.Discarded?
      ensures calm && removable && !staged && r.Discarded? ==> Staged(job, id) !in w.fs.live
      // staged: published, with the bytes that were to be published, once a start got through
      ensures staged ==> lease && Describes(w.rows[id].facts, desired, stamp, ContentOf(source), hash)
      ensures staged ==> r.Done? || r.Stopped? || r.Lost?
      ensures r.Done? ==> IsPublished(w, id, r.mediaId)
      ensures whole && staged ==> r.Done? || r.Lost?
      ensures whole && staged && (calm || Firm(old(w).fs, job, desired)) ==> r.Done?
      ensures whole && starts == 0 ==> (staged <==> readable && lease)
      // as long as the power lasts: never lost, and under the first name that fits
      ensures calm ==> !r.Lost?
      ensures calm && staged ==> ReachableAt(w, id, hash) && FirstFit(w.fs, w.rows[id].facts, hash)
      ensures calm && Truthful(old(w), hash) ==> Truthful(w, hash) && WellNamed(w, id)
      // on firm ground: never lost, whatever the power does
      ensures Firm(old(w).fs, job, desired) ==> !r.Lost?
      ensures Firm(old(w).fs, job, desired) && staged ==> Safeguarded(w.fs, w.rows[id], hash)
      ensures Firm(old(w).fs, job, desired) && Secure(old(w), hash) ==> Secure(w, hash) && WellNamed(w, id)
    {
      hide Inv, IsPublished, PowerLoss, Course, Along, Undisturbed, WellNamed, FirstFit, FirmGround, Secure, Truthful;
      hide Reachable, Safeguarded, Safe, Landed;
      ghost var w0 := w;
      id, r := Publish(job, owner, desired, stamp, source, lease, removable, readable, whole && starts == 0);
      staged := id in w.rows && !w.rows[id].Writing?;
      SetsOut(w0, w, id, job, desired, staged, hash);
      for i := 0 to starts
        invariant Valid() && Fate(w0, w, id, job, r, staged)
        invariant Course(w0, w, id, job, desired, staged, calm, hash)
        invariant calm && removable && !staged && id !in w.rows ==> Staged(job, id) !in w.fs.live
        invariant staged ==> lease && Describes(w.rows[id].facts, desired, stamp, ContentOf(source), hash)
        invariant calm && staged ==> FirstFit(w.fs, w.rows[id].facts, hash)
        invariant r.Done? ==> IsPublished(w, id, r.mediaId)
        invariant whole && i == starts ==> !r.Stopped?
        invariant whole && starts == 0 ==> (staged <==> readable && lease)
        invariant r.Lost? ==> !calm && !Firm(w0.fs, job, desired)
      {
        if !calm {
          var after: Fs := *;
          if PowerLoss(w.fs, after) {
            CoursePower(w0, w, after, id, job, desired, staged, calm, hash);
            w := w.(fs := after);
          }
        }
        ghost var before := w;
        r := Resume(id, removable, whole && i + 1 == starts);
        if staged { CourseReachable(w0, before, id, job, desired, calm, hash); }
        CourseResume(w0, before, w, id, job, desired, staged, calm, hash);
      }
      ScheduleEnds(w0, w, id, job, desired, staged, calm, hash);
    }
  }
}
