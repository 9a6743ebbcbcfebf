/** What a start puts right after whatever ended the last process. */
module Reconcile {
  import opened Options
  import J = Jobs
  import L = Ledger
  import S = LedgerSafety
  import N = Naming
  import F = Files
  import P = Publication
  import opened Publisher
  import M = Merges
  import G = MergeSafety
  import D = Deletion
  import opened Choices
  import opened MergeStore
  import Merger
  import opened Uploads
  import T = Destinations

  // ----- publications

  predicate Unpublished(w: P.World, id: nat) { id in w.rows && !w.rows[id].Published? }

  /** Staged rows whose bytes are nowhere. */
  ghost function LostAt(w: P.World, hash: P.Hash): set<nat>
  {
    set id | id in w.rows && w.rows[id].Verified? && !P.Reachable(w.fs, w.rows[id], hash)
  }

  function Open(w: P.World): set<nat> { set id | id in w.rows && !w.rows[id].Published? }

  /** The same rows of `artifact_staging`, as publications and as merges see them. */
  ghost predicate Linked(w: P.World, db: M.World)
  {
    && (forall id :: id in w.rows && w.rows[id].owner.Merge? ==>
          id in db.staging && db.staging[id] == M.Staging(w.rows[id].owner.group, w.rows[id].Published?))
    && (forall id :: id in db.staging ==> id in w.rows && w.rows[id].owner.Merge?)
  }

  /** Every profile has a slug of its own. */
  ghost predicate Slugs(slugs: nat -> N.Plain) { forall p, q :: slugs(p) == slugs(q) ==> p == q }

  /** Files lie in the tree of their kind and profile, and results are meant for it. */
  ghost predicate Shelved(w: P.World, db: M.World, slugs: nat -> N.Plain)
  {
    && (forall m :: m in db.files ==>
          m in w.media && N.InTree(!db.files[m].derived, slugs(db.files[m].profile), w.media[m].rel))
    && (forall id :: id in db.staging ==>
          && db.staging[id].group in db.groups && id in w.rows
          && MeantFor(w.rows[id], slugs(db.groups[db.staging[id].group].profile)))
  }

  predicate MeantFor(row: P.Row, slug: N.Plain) { row.Writing? || N.InTree(false, slug, row.facts.desired) }

  predicate SameDesire(before: P.World, after: P.World, id: nat)
  {
    id in after.rows ==>
      || after.rows[id].Writing?
      || (id in before.rows && !before.rows[id].Writing? && after.rows[id].facts.desired == before.rows[id].facts.desired)
  }

  // ----- merges

  /** Groups that a publication could not be finished for. */
  predicate StillPublishing(db: M.World, g: nat)
  {
    exists row :: row in db.staging && db.staging[row].group == g && !db.staging[row].published
  }

  /** The same groups, as far along as before. */
  ghost predicate SameStatuses(groups: map<nat, M.Group>, after: map<nat, M.Group>)
  {
    after.Keys == groups.Keys && forall g :: g in groups ==> after[g].status == groups[g].status
  }

  function SettledGroups(db: M.World, done: set<nat>): map<nat, M.Group>
  {
    map g | g in db.groups ::
      if g in done && db.groups[g].status.Merging? && !StillPublishing(db, g)
      then db.groups[g].(status := if db.groups[g].output.Some? then M.Merged else M.Detected)
      else db.groups[g]
  }

  // ----- uploads

  predicate Unfinished(r: L.Record) { !r.invalidated && !r.state.Complete? }

  function Stale(db: M.World, basis: map<nat, Basis>, records: map<nat, L.Record>): set<nat>
  {
    set id | id in records && id in basis && Lapsed(db, basis[id], records[id].media)
  }

  /** Which files the records are of is not changed by settling anything. */
  predicate SameMedia(records: map<nat, L.Record>, after: map<nat, L.Record>)
  {
    after.Keys == records.Keys && forall id :: id in records ==> after[id].media == records[id].media
  }

  lemma SameStale(db: M.World, basis: map<nat, Basis>, records: map<nat, L.Record>, after: map<nat, L.Record>)
    requires SameMedia(records, after)
    ensures Stale(db, basis, after) == Stale(db, basis, records)
  {
    hide Lapsed;
  }

  /** Deciding the groups that were being merged takes no record's reason away and gives
      none back: what counts is whether a group failed, and what it has made. */
  lemma SettlingKeepsReasons(db: M.World, basis: map<nat, Basis>, records: map<nat, L.Record>)
    ensures Stale(db.(groups := SettledGroups(db, db.groups.Keys)), basis, records) == Stale(db, basis, records)
  {
    var after := db.(groups := SettledGroups(db, db.groups.Keys));
    forall g, m ensures IsCurrent(after, g, m) == IsCurrent(db, g, m) {
      if g in db.groups { assert after.groups[g] == db.groups[g].(status := after.groups[g].status); }
    }
    forall m, b: Basis ensures Lapsed(after, b, m) == Lapsed(db, b, m) {
      forall g | g in db.groups ensures after.groups[g].Holds(m) == db.groups[g].Holds(m) {
      }
    }
  }

  /** Nothing is left to release, to invalidate or to erase. `stale` are the records
      that have lost the reason they were made for. */
  ghost predicate UploadsSettled(w: L.World, stale: set<nat>)
  {
    && (forall id :: id in w.records ==> w.records[id].claim.Unclaimed? && !w.records[id].state.Active())
    && (forall id :: id in w.records && Unfinished(w.records[id]) ==>
          w.records[id].epoch == w.targets.Epoch(w.records[id].dest) && id !in stale)
    && (forall d :: d in w.targets.dests ==>
          L.Superseded(w, d) <= w.targets.purged && L.Superseded(w, d) <= w.targets.doomed)
  }

  // ----- directories

  /** Directories under `staging/` that nothing refers to any more. */
  function DeadDirs(w: P.World, jobs: J.Table): set<nat>
  {
    set d | d in w.fs.dirs && d.StagingDir? && !Waits(jobs, d.job) && !Referenced(w, d.job) :: d.job
  }

  /** LIVE_JOB_STATES. */
  predicate Waits(jobs: J.Table, job: nat)
  {
    job in jobs.jobs && (jobs.jobs[job].status.Queued? || jobs.jobs[job].status.Live())
  }

  predicate Referenced(w: P.World, job: nat)
  {
    exists id :: id in w.rows && !w.rows[id].Published? && w.rows[id].staging.Staged? && w.rows[id].staging.job == job
  }

  /** Every file under `staging/` is in the directory of a job that waits or runs, or of a
      row that is still open. */
  ghost predicate NoLeftovers(w: P.World, jobs: J.Table)
  {
    forall p :: p in w.fs.live && p.Staged? ==> Waits(jobs, p.job) || Referenced(w, p.job)
  }

  /** Removes the directories and what is in them. Nothing is synced: after a power loss
      they may be found again. */
  function RemoveDirs(fs: F.Fs, dead: set<nat>): F.Fs
  {
    fs.(live := map p | p in fs.live && !(p.Staged? && p.job in dead) :: fs.live[p],
        dirs := fs.dirs - set job | job in dead :: F.StagingDir(job))
  }

  /** What removing directories leaves alone: the library, and the staged rows with their bytes. */
  ghost predicate Spares(w: P.World, after: F.Fs, hash: P.Hash)
  {
    && P.LibraryKept(w.fs, after) && P.SolidKept(w.fs, after)
    && forall id :: id in w.rows && w.rows[id].Verified? ==>
         && (P.Reachable(w.fs, w.rows[id], hash) ==> P.Reachable(after, w.rows[id], hash))
         && (P.Kept(w.fs, w.rows[id], hash) ==> P.Kept(after, w.rows[id], hash))
  }

  lemma {:induction false} OtherDirsStay(dirs: set<F.Dir>, dead: set<nat>, d: F.Dir)
    requires F.Rooted(dirs, d) && !(d.StagingDir? && d.job in dead)
    ensures F.Rooted(dirs - set job | job in dead :: F.StagingDir(job), d)
    decreases d.Depth()
  {
    if !d.Root() { OtherDirsStay(dirs, dead, d.Parent()); }
  }

  lemma RemovingKeepsDirs(fs: F.Fs, dead: set<nat>, d: F.Dir)
    requires !(d.StagingDir? && d.job in dead)
    ensures fs.Standing(d) ==> RemoveDirs(fs, dead).Standing(d)
    ensures fs.Lasting(d) ==> RemoveDirs(fs, dead).Lasting(d)
  {
    var gone := set job | job in dead :: F.StagingDir(job);
    if fs.Standing(d) { OtherDirsStay(fs.dirs, dead, d); }
    if fs.Lasting(d) {
      OtherDirsStay(fs.dirs * fs.durableDirs, dead, d);
      assert fs.dirs * fs.durableDirs - gone == (fs.dirs - gone) * fs.durableDirs;
    }
  }

  lemma RemovingKeepsSolid(fs: F.Fs, dead: set<nat>, p: F.Path, good: set<F.Bytes>)
    requires F.Solid(fs, p, good) && !(p.Staged? && p.job in dead)
    ensures F.Solid(RemoveDirs(fs, dead), p, good)
  {
    hide F.Rooted, F.Fs.Lasting;
    RemovingKeepsDirs(fs, dead, F.DirOf(p));
  }

  lemma RemovingKeepsRow(w: P.World, jobs: J.Table, dead: set<nat>, id: nat, hash: P.Hash)
    requires P.Inv(w, hash) && dead <= DeadDirs(w, jobs) && id in w.rows
    ensures P.RowOk(RemoveDirs(w.fs, dead), w.media, id, w.rows[id], hash)
    ensures w.rows[id].Verified? ==>
              && (P.Reachable(w.fs, w.rows[id], hash) ==> P.Reachable(RemoveDirs(w.fs, dead), w.rows[id], hash))
              && (P.Kept(w.fs, w.rows[id], hash) ==> P.Kept(RemoveDirs(w.fs, dead), w.rows[id], hash))
  {
    hide F.Rooted, F.Fs.Lasting;
    var row := w.rows[id];
    assert P.RowOk(w.fs, w.media, id, row, hash);
    if row.Verified? {
      assert Referenced(w, row.staging.job);
      RemovingKeepsDirs(w.fs, dead, F.DirOf(row.staging));
      RemovingKeepsDirs(w.fs, dead, F.DirOf(F.Library(row.facts.final)));
    }
  }

  lemma RemovingKeepsInv(w: P.World, jobs: J.Table, dead: set<nat>, hash: P.Hash)
    requires P.Inv(w, hash) && dead <= DeadDirs(w, jobs)
    ensures P.Inv(w.(fs := RemoveDirs(w.fs, dead)), hash) && Spares(w, RemoveDirs(w.fs, dead), hash)
  {
    hide F.Rooted, F.Fs.Lasting, F.Fs.Standing, P.RowOk, P.Kept, P.Reachable, F.Solid;
    var after := RemoveDirs(w.fs, dead);
    forall id | id in w.rows
      ensures P.RowOk(after, w.media, id, w.rows[id], hash)
      ensures w.rows[id].Verified? ==>
                && (P.Reachable(w.fs, w.rows[id], hash) ==> P.Reachable(after, w.rows[id], hash))
                && (P.Kept(w.fs, w.rows[id], hash) ==> P.Kept(after, w.rows[id], hash))
    {
      RemovingKeepsRow(w, jobs, dead, id, hash);
    }
    forall rel, good | F.Solid(w.fs, F.Library(rel), good) ensures F.Solid(after, F.Library(rel), good) {
      RemovingKeepsSolid(w.fs, dead, F.Library(rel), good);
    }
    forall p | p in after.live ensures after.Standing(F.DirOf(p)) {
      RemovingKeepsDirs(w.fs, dead, F.DirOf(p));
    }
  }

  // ----- the whole

  ghost predicate Calm(w: P.World, db: M.World, u: L.World, basis: map<nat, Basis>)
  {
    && (forall id :: id in u.jobs.jobs ==> !u.jobs.jobs[id].status.Live())
    && Open(w) == {} && DeadDirs(w, u.jobs) == {}
    && SettledGroups(db, db.groups.Keys) == db.groups
    && UploadsSettled(u, Stale(db, basis, u.records))
  }

  class Reconciler {
    const publisher: ArtifactPublisher
    const merges: MergeRepository
    const uploads: UploadRepository
    const slugs: nat -> N.Plain

    constructor (publisher: ArtifactPublisher, merges: MergeRepository, uploads: UploadRepository, slugs: nat -> N.Plain)
      ensures this.publisher == publisher && this.merges == merges && this.uploads == uploads && this.slugs == slugs
    {
      this.publisher, this.merges, this.uploads, this.slugs := publisher, merges, uploads, slugs;
    }

    ghost predicate Valid()
      reads this, publisher, merges, uploads
    {
      && publisher.Valid() && G.Inv(merges.db) && S.Inv(uploads.db)
      && Linked(publisher.w, merges.db) && Slugs(slugs) && Shelved(publisher.w, merges.db, slugs)
    }

    /** A publication that is done: its group has a result. */
    method MirrorPublished(id: nat, ghost before: P.World)
      requires publisher.Valid() && G.Inv(merges.db) && Linked(before, merges.db)
      requires Slugs(slugs) && Shelved(before, merges.db, slugs) && SameDesire(before, publisher.w, id)
      requires Undisturbed(before, publisher.w, id)
      requires id in before.rows && before.rows[id].owner.Merge? && id in publisher.w.rows
      requires publisher.w.rows[id].Published? && publisher.w.rows[id].owner == before.rows[id].owner
      requires exists m :: IsPublished(publisher.w, id, m)
      requires id in merges.db.staging && merges.db.staging[id] == M.Staging(before.rows[id].owner.group, false)
      modifies merges
      ensures G.Inv(merges.db) && Linked(publisher.w, merges.db) && Shelved(publisher.w, merges.db, slugs)
      ensures SameStatuses(old(merges.db).groups, merges.db.groups)
      ensures D.NoHollow(old(merges.db).groups) ==> D.NoHollow(merges.db.groups)
    {
      hide P.Inv, G.Inv, D.NoHollow, M.Step, Linked, IsPublished, Undisturbed, Slugs, Shelved, SameDesire, M.AcceptsMerging;
      hide N.InTree, G.StagingOk, G.OneHolder, G.DigestsDiffer;
      ghost var was := merges.db;
      var g := merges.db.staging[id].group;
      GroupIsThere(was, id);
      PublishedOutput(publisher.w, id, g);
      var m := publisher.w.outputs[g];
      var file := M.File(true, merges.db.groups[g].profile,
          if m in publisher.w.media then publisher.w.media[m].sha1 else "", false);
      ResultIsAccepted(before, publisher.w, was, id, m, file, slugs, publisher.hash);
      Merger.PublishStep(was, id, m, file);
      PublishGroups(was, id, m, file);
      var ok := Merger.Do(merges, M.Publish(id, m, file));
      LinkedPublished(before, publisher.w, was, merges.db, id);
      ShelvedAfter(before, publisher.w, id, was, merges.db, slugs);
    }

    /** Carries what happened to a row over to its merge group: both are one transaction. */
    method Mirror(id: nat, ghost before: P.World)
      requires publisher.Valid() && G.Inv(merges.db) && Linked(before, merges.db)
      requires Slugs(slugs) && Shelved(before, merges.db, slugs) && SameDesire(before, publisher.w, id)
      requires id in before.rows && !before.rows[id].Published?
      requires Undisturbed(before, publisher.w, id)
      requires id in publisher.w.rows ==> publisher.w.rows[id].owner == before.rows[id].owner
      requires NewlyPublished(before, publisher.w, id) ==> exists m :: IsPublished(publisher.w, id, m)
      modifies merges
      ensures G.Inv(merges.db) && Linked(publisher.w, merges.db) && Shelved(publisher.w, merges.db, slugs)
      ensures SameStatuses(old(merges.db).groups, merges.db.groups)
      ensures D.NoHollow(old(merges.db).groups) ==> D.NoHollow(merges.db.groups)
    {
      hide P.Inv, G.Inv, D.NoHollow, M.Step, Linked, IsPublished, Undisturbed, Slugs, Shelved, SameDesire, M.AcceptsMerging;
      ghost var was := merges.db;
      StagingIs(before, was, id);
      if id in merges.db.staging {
        var g := merges.db.staging[id].group;
        G.InvRest(merges.db);
        if id !in publisher.w.rows {
          Merger.RowStep(was, id);
          var ok := Merger.Do(merges, M.DropStaging(id));
          LinkedDropped(before, publisher.w, was, id);
          ShelvedAfter(before, publisher.w, id, was, merges.db, slugs);
        } else if publisher.w.rows[id].Published? {
          MirrorPublished(id, before);
        } else {
          LinkedSame(before, publisher.w, was, id);
          ShelvedAfter(before, publisher.w, id, was, was, slugs);
        }
      } else {
        LinkedSame(before, publisher.w, was, id);
        ShelvedAfter(before, publisher.w, id, was, was, slugs);
      }
    }

    /** Finishes or gives up one publication. */
    method RecoverOne(id: nat, whole: bool) returns (r: Outcome)
      requires publisher.Valid() && G.Inv(merges.db) && Linked(publisher.w, merges.db) && id in Open(publisher.w)
      requires Slugs(slugs) && Shelved(publisher.w, merges.db, slugs)
      modifies publisher, merges
      ensures publisher.Valid() && G.Inv(merges.db) && Linked(publisher.w, merges.db)
      ensures Shelved(publisher.w, merges.db, slugs) && Undisturbed(old(publisher.w), publisher.w, id)
      ensures !old(publisher.w).rows[id].Writing? ==> SameRow(old(publisher.w).rows[id], id, publisher.w)
      ensures whole ==> !r.Stopped?
      ensures r.Lost? <==> id in LostAt(old(publisher.w), publisher.hash)
      ensures r.Lost? ==> publisher.w == old(publisher.w)
      ensures r.Done? ==> id in publisher.w.rows && publisher.w.rows[id].Published?
      ensures r.Discarded? ==> id !in publisher.w.rows
      ensures !r.Stopped? && !r.Lost? ==> id !in Open(publisher.w)
      ensures SameStatuses(old(merges.db).groups, merges.db.groups)
      ensures D.NoHollow(old(merges.db).groups) ==> D.NoHollow(merges.db.groups)
    {
      hide P.Inv, G.Inv, D.NoHollow, Linked, IsPublished, Undisturbed, SameRow, Slugs, Shelved, SameDesire, P.Reachable;
      ghost var before := publisher.w;
      var removable: bool := *;
      r := publisher.Resume(id, removable, whole);
      Resumed(before, publisher.w, id, r);
      Mirror(id, before);
    }

    /** Finishes or gives up every publication that was cut off. `report` gets those an
        error kept from being finished. If the pass is `whole`, there are no such errors but
        lost files: then exactly the rows that are left open are reported, all of them staged
        ones whose bytes were nowhere. */
    method RecoverStaging(whole: bool) returns (report: set<nat>)
      requires publisher.Valid() && G.Inv(merges.db) && Linked(publisher.w, merges.db)
      requires Slugs(slugs) && Shelved(publisher.w, merges.db, slugs)
      modifies publisher, merges
      ensures publisher.Valid() && G.Inv(merges.db) && Linked(publisher.w, merges.db)
      ensures Shelved(publisher.w, merges.db, slugs)
      ensures Open(publisher.w) <= report
      ensures whole ==> report == Open(publisher.w) && report <= LostAt(old(publisher.w), publisher.hash)
      ensures whole ==> forall id :: id in publisher.w.rows ==> !publisher.w.rows[id].Writing?
      ensures forall id :: id in publisher.w.rows ==> id in old(publisher.w).rows
      ensures forall id :: id in old(publisher.w).rows && !old(publisher.w).rows[id].Writing? ==>
                id in publisher.w.rows && SameRow(old(publisher.w).rows[id], id, publisher.w)
      ensures SameStatuses(old(merges.db).groups, merges.db.groups)
      ensures D.NoHollow(old(merges.db).groups) ==> D.NoHollow(merges.db.groups)
      ensures Open(old(publisher.w)) == {} ==> publisher.w == old(publisher.w) && merges.db == old(merges.db) && report == {}
    {
      hide P.Inv, G.Inv, D.NoHollow, Linked, IsPublished, Undisturbed, SameRow, Slugs, Shelved, SameDesire;
      hide Reported, Open, LostAt, RowsFollow, SameStatuses, ToRecover;
      ghost var start := publisher.w;
      report := {};
      var todo := Open(publisher.w);
      SameRowsAtFirst(start);
      NoneReported(start, publisher.hash);
      SameStatusesFollow(merges.db.groups, merges.db.groups, merges.db.groups);
      while todo != {}
        invariant publisher.Valid() && G.Inv(merges.db) && Linked(publisher.w, merges.db)
        invariant Shelved(publisher.w, merges.db, slugs)
        invariant ToRecover(start, publisher.w, todo, report)
        invariant RowsFollow(start, publisher.w)
        invariant whole ==> Reported(start, publisher.w, todo, report, publisher.hash)
        invariant SameStatuses(old(merges.db).groups, merges.db.groups)
        invariant D.NoHollow(old(merges.db).groups) ==> D.NoHollow(merges.db.groups)
        invariant Open(start) == {} ==> publisher.w == start && merges.db == old(merges.db) && report == {}
        decreases todo
      {
        var id :| id in todo;
        ghost var before, groups, reported := publisher.w, merges.db.groups, report;
        IsToRecover(start, before, todo, report, id);
        var r := RecoverOne(id, whole);
        if r.Stopped? || r.Lost? { report := report + {id}; }   // an error: the row stays for the next start
        OneRowMoved(start, before, publisher.w, id);
        RecoverNext(start, before, publisher.w, todo, reported, report, id);
        if whole { ReportedNext(start, before, publisher.w, id, r, todo, reported, publisher.hash); }
        SameStatusesFollow(old(merges.db).groups, groups, merges.db.groups);
        todo := todo - {id};
      }
      Recovered(start, publisher.w, report, whole, publisher.hash);
    }

    /** Decides the groups a merge left unfinished, except where a publication is open. */
    method SettleMerges()
      requires G.Inv(merges.db)
      modifies merges
      ensures G.Inv(merges.db)
      ensures merges.db == old(merges.db).(groups := SettledGroups(old(merges.db), old(merges.db).groups.Keys))
      ensures D.NoHollow(old(merges.db).groups) ==> D.NoHollow(merges.db.groups)
    {
      hide G.Inv, D.NoHollow, M.Step;
      ghost var was := merges.db;
      var todo := set g | g in merges.db.groups && merges.db.groups[g].status.Merging?
          && !StillPublishing(merges.db, g);
      NoneSettled(was, todo);
      while todo != {}
        invariant G.Inv(merges.db)
        invariant forall g :: g in todo ==> g in was.groups && was.groups[g].status.Merging? && !StillPublishing(was, g)
        invariant merges.db == was.(groups := SettledGroups(was, was.groups.Keys - todo))
        invariant D.NoHollow(was.groups) ==> D.NoHollow(merges.db.groups)
        decreases todo
      {
        var g :| g in todo;
        SettleNext(was, merges.db, was.groups.Keys - todo, g);
        var ok := Merger.Do(merges, M.Settle(g));
        assert was.groups.Keys - (todo - {g}) == was.groups.Keys - todo + {g};
        todo := todo - {g};
      }
      assert was.groups.Keys - {} == was.groups.Keys;
    }

    /** Releases what interrupted jobs had claimed, invalidates what has lost its reason,
        and evens out every destination. */
    method SettleUploads(stale: set<nat>)
      requires S.Inv(uploads.db)
      modifies uploads
      ensures S.Inv(uploads.db) && UploadsSettled(uploads.db, stale)
      ensures uploads.db.jobs == old(uploads.db).jobs && SameMedia(old(uploads.db).records, uploads.db.records)
      ensures UploadsSettled(old(uploads.db), stale) ==> uploads.db == old(uploads.db)
    {
      hide S.Inv, L.Step, Released, Reasoned, UploadsSettled;
      ghost var start := uploads.db;
      if UploadsSettled(start, stale) { SettledMeans(start, stale); }
      UploadStep(L.ReleaseInterrupted);
      ReleaseIs(start);
      ReleaseKeepsMedia(start);
      ghost var released := uploads.db;
      var ids := set id | id in uploads.db.records && Unfinished(uploads.db.records[id]) && id in stale;
      while ids != {}
        invariant S.Inv(uploads.db) && Released(uploads.db) && uploads.db.jobs == start.jobs
        invariant SameMedia(start.records, uploads.db.records)
        invariant forall id :: id in uploads.db.records && Unfinished(uploads.db.records[id]) && id in stale ==> id in ids
        invariant forall id :: id in ids ==> id in released.records && Unfinished(released.records[id]) && id in stale
        invariant UploadsSettled(start, stale) ==> uploads.db == start && ids == {}
        decreases ids
      {
        var id :| id in ids;
        ids := ids - {id};
        InvalidateIs(uploads.db, id);
        UploadStep(L.Invalidate({id}));
      }
      ReasonedIs(uploads.db, stale);
      var dests := uploads.db.targets.dests.Keys;
      while dests != {}
        invariant S.Inv(uploads.db) && Released(uploads.db) && Reasoned(uploads.db, stale)
            && uploads.db.jobs == start.jobs
        invariant SameMedia(start.records, uploads.db.records)
        invariant dests <= uploads.db.targets.dests.Keys
        invariant forall d :: d in uploads.db.targets.dests && d !in dests ==> Even(uploads.db, d)
        invariant UploadsSettled(start, stale) ==> uploads.db == start
        decreases dests
      {
        var d :| d in dests;
        dests := dests - {d};
        EvenOut(d, stale);
      }
      SettledIs(uploads.db, stale);
    }

    method UploadStep(op: L.Op)
      requires S.Inv(uploads.db)
      modifies uploads
      ensures S.Inv(uploads.db) && uploads.db == L.Step(old(uploads.db), op)
    {
      hide S.Inv, L.Step;
      S.StepKeepsInv(uploads.db, op);
      uploads.db := L.Step(uploads.db, op);
    }

    /** Old epochs and old keys of one destination. */
    method EvenOut(d: nat, stale: set<nat>)
      requires S.Inv(uploads.db) && Released(uploads.db) && Reasoned(uploads.db, stale) && d in uploads.db.targets.dests
      modifies uploads
      ensures S.Inv(uploads.db) && Released(uploads.db) && Reasoned(uploads.db, stale)
          && uploads.db.jobs == old(uploads.db).jobs
      ensures uploads.db.targets.dests == old(uploads.db).targets.dests
      ensures SameMedia(old(uploads.db).records, uploads.db.records)
      ensures Even(uploads.db, d)
      ensures forall other :: other in uploads.db.targets.dests && Even(old(uploads.db), other) ==>
          Even(uploads.db, other)
      ensures UploadsSettled(old(uploads.db), stale) ==> uploads.db == old(uploads.db)
    {
      hide S.Inv, L.Step, Released, Reasoned, Even, UploadsSettled, L.Superseded;
      ghost var start := uploads.db;
      OldEpochIs(start, d, stale);
      UploadStep(L.InvalidateOldEpoch(d, uploads.db.targets.Epoch(d)));
      ghost var clear := uploads.db;
      var destinations := new T.DestinationRepository(uploads);
      var purged := destinations.PurgeSupersededCredentials(d, []);
      EvenedOut(start, clear, uploads.db, d, stale);
    }

    /** Removes the work of jobs that are over, and with it every staging file that was left over. */
    method CleanJobDirs()
      requires publisher.Valid()
      modifies publisher
      ensures publisher.Valid() && Spares(old(publisher.w), publisher.w.fs, publisher.hash)
      ensures publisher.w == old(publisher.w).(fs := publisher.w.fs)
      ensures DeadDirs(publisher.w, uploads.db.jobs) == {} && NoLeftovers(publisher.w, uploads.db.jobs)
      ensures DeadDirs(old(publisher.w), uploads.db.jobs) == {} ==> publisher.w == old(publisher.w)
    {
      hide P.Inv, Spares, Referenced, Waits;
      ghost var start := publisher.w;
      SparesAll(start, publisher.hash);
      var todo := DeadDirs(publisher.w, uploads.db.jobs);
      while todo != {}
        invariant publisher.Valid() && Spares(start, publisher.w.fs, publisher.hash)
        invariant publisher.w == start.(fs := publisher.w.fs)
        invariant todo == DeadDirs(publisher.w, uploads.db.jobs)
        invariant DeadDirs(start, uploads.db.jobs) == {} ==> publisher.w == start
        decreases todo
      {
        var job :| job in todo;
        RemovingKeepsInv(publisher.w, uploads.db.jobs, {job}, publisher.hash);
        SparesBoth(start, publisher.w.fs, RemoveDirs(publisher.w.fs, {job}), publisher.hash);
        ghost var before := publisher.w;
        publisher.w := publisher.w.(fs := RemoveDirs(publisher.w.fs, {job}));
        DeadDirsLess(before, uploads.db.jobs, job);
        todo := todo - {job};
      }
      NoneLeft(publisher.w, uploads.db.jobs, publisher.hash);
    }

    /** One start. With no error on the way nothing is left for the next: a second start
        changes nothing. */
    method Run(basis: map<nat, Basis>, whole: bool) returns (report: set<nat>)
      requires Valid()
      modifies publisher, merges, uploads
      ensures Valid()
      ensures forall id :: id in uploads.db.jobs.jobs ==> !uploads.db.jobs.jobs[id].status.Live()
      // every publication is finished, given up or reported, and what was staged is kept; where
      // the start gets through, reported are exactly those left open, which had lost their bytes
      ensures Open(publisher.w) <= report
      ensures whole ==> report == Open(publisher.w) && report <= LostAt(old(publisher.w), publisher.hash)
      ensures whole ==> forall id :: id in publisher.w.rows ==> !publisher.w.rows[id].Writing?
      ensures forall id :: id in old(publisher.w).rows && !old(publisher.w).rows[id].Writing? ==> id in publisher.w.rows
      ensures forall g :: g in merges.db.groups && merges.db.groups[g].status.Merging? ==> StillPublishing(merges.db, g)
      ensures D.NoHollow(old(merges.db).groups) ==> D.NoHollow(merges.db.groups)
      ensures UploadsSettled(uploads.db, Stale(merges.db, basis, uploads.db.records))
      ensures DeadDirs(publisher.w, uploads.db.jobs) == {} && NoLeftovers(publisher.w, uploads.db.jobs)
      ensures report == {} ==> Calm(publisher.w, merges.db, uploads.db, basis)
      ensures Calm(old(publisher.w), old(merges.db), old(uploads.db), basis) ==>
                && publisher.w == old(publisher.w) && merges.db == old(merges.db) && uploads.db == old(uploads.db)
                && report == {}
    {
      hide P.Inv, G.Inv, S.Inv, D.NoHollow, Linked, L.Step, UploadsSettled, IsPublished, Undisturbed, SameRow, Lapsed;
      hide Slugs, Shelved, LostAt;
      ghost var start := uploads.db;
      SweepIs(start);
      UploadStep(L.JobOp(J.SweepInterrupted));
      report := RecoverStaging(whole);
      ghost var recovered := merges.db;
      SettleMerges();
      SettledOnce(recovered);
      LinkedStays(publisher.w, recovered, merges.db, slugs);
      ghost var swept := uploads.db.records;
      SettleUploads(Stale(merges.db, basis, uploads.db.records));
      SameStale(merges.db, basis, swept, uploads.db.records);
      ghost var written := publisher.w;
      CleanJobDirs();
      LinkedDirs(written, publisher.w, merges.db, slugs);
    }
  }

  lemma NoneSettled(db: M.World, todo: set<nat>)
    requires forall g :: g in db.groups && db.groups[g].status.Merging? && !StillPublishing(db, g) ==> g in todo
    ensures SettledGroups(db, db.groups.Keys - todo) == db.groups
  {
  }

  lemma SettleNext(was: M.World, db: M.World, done: set<nat>, g: nat)
    requires g in was.groups && g !in done && was.groups[g].status.Merging? && !StillPublishing(was, g)
    requires db == was.(groups := SettledGroups(was, done))
    ensures M.Step(db, M.Settle(g)) == was.(groups := SettledGroups(was, done + {g}))
  {
    assert db.groups[g] == was.groups[g];
    SettleStep(db, g);
  }

  lemma SettleStep(db: M.World, g: nat)
    requires g in db.groups && db.groups[g].status.Merging?
    ensures M.Step(db, M.Settle(g)) ==
              db.(groups := db.groups[g := db.groups[g].(status := if db.groups[g].output.Some? then M.Merged else M.Detected)])
  {
  }

  lemma SettledOnce(db: M.World)
    ensures var after := db.(groups := SettledGroups(db, db.groups.Keys));
            && SettledGroups(after, after.groups.Keys) == after.groups
            && (forall g :: g in after.groups && after.groups[g].status.Merging? ==> StillPublishing(after, g))
  {
    var after := db.(groups := SettledGroups(db, db.groups.Keys));
    assert forall g :: StillPublishing(after, g) == StillPublishing(db, g);
    hide StillPublishing;
  }

  lemma LinkedStays(w: P.World, db: M.World, after: M.World, slugs: nat -> N.Plain)
    requires Linked(w, db) && Shelved(w, db, slugs)
    requires after == db.(groups := SettledGroups(db, db.groups.Keys))
    ensures Linked(w, after) && Shelved(w, after, slugs)
  {
  }

  lemma LinkedDirs(w: P.World, after: P.World, db: M.World, slugs: nat -> N.Plain)
    requires Linked(w, db) && Shelved(w, db, slugs) && after.rows == w.rows && after.media == w.media
    ensures Linked(after, db) && Shelved(after, db, slugs)
  {
  }

  lemma SweepIs(w: L.World)
    ensures var after := L.Step(w, L.JobOp(J.SweepInterrupted));
            && (forall id :: id in after.jobs.jobs ==> !after.jobs.jobs[id].status.Live())
            && after == w.(jobs := after.jobs)
            && ((forall id :: id in w.jobs.jobs ==> !w.jobs.jobs[id].status.Live()) ==> after == w)
  {
  }

  // ----- the passes over the records

  /** Nobody holds a record. */
  predicate Released(w: L.World)
  {
    forall id :: id in w.records ==> w.records[id].claim.Unclaimed? && !w.records[id].state.Active()
  }

  predicate Reasoned(w: L.World, stale: set<nat>)
  {
    forall id :: id in w.records && Unfinished(w.records[id]) ==> id !in stale
  }

  /** One destination is in order. */
  predicate Even(w: L.World, d: nat)
  {
    && d in w.targets.dests
    && (forall id :: id in w.records && w.records[id].dest == d && Unfinished(w.records[id]) ==>
        w.targets.Epoch(d) <= w.records[id].epoch)
    && L.Superseded(w, d) <= w.targets.purged && L.Superseded(w, d) <= w.targets.doomed
  }

  lemma ReleaseIs(w: L.World)
    requires S.Inv(w)
    ensures var after := L.Step(w, L.ReleaseInterrupted);
            && Released(after) && after == w.(records := after.records) && (Released(w) ==> after == w)
  {
    var after := L.Step(w, L.ReleaseInterrupted);
    forall id | id in w.records ensures after.records[id].claim.Unclaimed? && !after.records[id].state.Active() {
      assert S.RecordOk(w.targets, w.records[id]);
    }
  }

  lemma ReleaseKeepsMedia(w: L.World)
    ensures SameMedia(w.records, L.Step(w, L.ReleaseInterrupted).records)
  {
  }

  lemma InvalidateIs(w: L.World, id: nat)
    ensures var after := L.Step(w, L.Invalidate({id}));
            && after == w.(records := after.records) && SameMedia(w.records, after.records)
            && (Released(w) ==> Released(after))
            && (forall other :: other in w.records && other != id ==> after.records[other] == w.records[other])
            && (id in w.records ==> after.records[id] == w.records[id].(invalidated := true))
  {
  }

  lemma ReasonedIs(w: L.World, stale: set<nat>)
    requires forall id :: id in w.records && Unfinished(w.records[id]) && id in stale ==> id in {}
    ensures Reasoned(w, stale)
  {
  }

  lemma OldEpochIs(w: L.World, d: nat, stale: set<nat>)
    requires d in w.targets.dests && Released(w) && Reasoned(w, stale)
    ensures var after := L.Step(w, L.InvalidateOldEpoch(d, w.targets.Epoch(d)));
            && after == w.(records := after.records) && Released(after) && Reasoned(after, stale)
            && SameMedia(w.records, after.records)
            && (forall id :: id in after.records && after.records[id].dest == d && Unfinished(after.records[id]) ==>
                  w.targets.Epoch(d) <= after.records[id].epoch)
            && (forall other :: other in w.targets.dests && Even(w, other) ==> Even(after, other))
            && (UploadsSettled(w, stale) ==> after == w)
  {
    var after := L.Step(w, L.InvalidateOldEpoch(d, w.targets.Epoch(d)));
    var gone := L.OldEpochIds(w.records, d, w.targets.Epoch(d));
    forall other | other in w.targets.dests ensures L.Superseded(after, other) == L.Superseded(w, other) {
      SupersededSame(w, after, other);
    }
    if UploadsSettled(w, stale) {
      assert gone == {};
      assert after.records == w.records;
    }
  }

  /** Which keys can go depends on who holds them, not on what counts. */
  lemma SupersededSame(w: L.World, after: L.World, d: nat)
    requires d in w.targets.dests && after.targets == w.targets && after.records.Keys == w.records.Keys
    requires forall id :: id in w.records ==>
               after.records[id].revision == w.records[id].revision && after.records[id].state == w.records[id].state
    ensures L.Superseded(after, d) == L.Superseded(w, d)
  {
  }

  lemma SameEpochs(w: L.World, after: L.World, d: nat)
    requires after.targets.dests == w.targets.dests && after.targets.revs == w.targets.revs
        && after.records == w.records
    ensures after.targets.Epoch(d) == w.targets.Epoch(d)
    ensures d in w.targets.dests ==> L.Superseded(after, d) == L.Superseded(w, d)
  {
  }

  lemma EvenedOut(start: L.World, clear: L.World, after: L.World, d: nat, stale: set<nat>)
    requires d in start.targets.dests && clear == start.(records := clear.records)
    requires Released(clear) && Reasoned(clear, stale)
    requires forall id :: id in clear.records && clear.records[id].dest == d && Unfinished(clear.records[id]) ==>
               start.targets.Epoch(d) <= clear.records[id].epoch
    requires forall other :: other in start.targets.dests && Even(start, other) ==> Even(clear, other)
    requires UploadsSettled(start, stale) ==> clear == start
    requires after == clear.(targets := clear.targets.(doomed := clear.targets.doomed + L.Superseded(clear, d),
                                                       purged := clear.targets.purged + L.Superseded(clear, d)))
    ensures Released(after) && Reasoned(after, stale) && Even(after, d)
    ensures forall other :: other in after.targets.dests && Even(start, other) ==> Even(after, other)
    ensures UploadsSettled(start, stale) ==> after == start
  {
    SameEpochs(clear, after, d);
    forall other | other in after.targets.dests && Even(start, other) ensures Even(after, other) {
      SameEpochs(clear, after, other);
      assert Even(clear, other);
    }
    if UploadsSettled(start, stale) {
      assert L.Superseded(clear, d) <= clear.targets.purged;
      assert clear.targets.purged + L.Superseded(clear, d) == clear.targets.purged;
      assert clear.targets.doomed + L.Superseded(clear, d) == clear.targets.doomed;
    }
  }

  lemma SettledMeans(w: L.World, stale: set<nat>)
    requires UploadsSettled(w, stale)
    ensures Released(w) && forall id :: id in w.records && Unfinished(w.records[id]) ==> id !in stale
  {
  }

  lemma SettledIs(w: L.World, stale: set<nat>)
    requires S.Inv(w) && Released(w) && Reasoned(w, stale)
    requires forall d :: d in w.targets.dests ==> Even(w, d)
    ensures UploadsSettled(w, stale)
  {
    forall id | id in w.records && Unfinished(w.records[id]) ensures w.records[id].epoch == w.targets.Epoch(w.records[id].dest) {
      assert S.RecordOk(w.targets, w.records[id]);
      assert Even(w, w.records[id].dest);
    }
    forall d | d in w.targets.dests ensures L.Superseded(w, d) <= w.targets.purged
        && L.Superseded(w, d) <= w.targets.doomed {
      assert Even(w, d);
    }
  }

  lemma GroupIsThere(db: M.World, row: nat)
    requires G.Inv(db) && row in db.staging
    ensures db.staging[row].group in db.groups
  {
    G.InvRest(db);
  }

  lemma StagingIs(w: P.World, db: M.World, id: nat)
    requires Linked(w, db) && id in w.rows && !w.rows[id].Published?
    ensures id in db.staging <==> w.rows[id].owner.Merge?
    ensures id in db.staging ==> db.staging[id] == M.Staging(w.rows[id].owner.group, false)
  {
  }

  lemma PublishedOutput(w: P.World, id: nat, g: nat)
    requires exists m :: IsPublished(w, id, m)
    requires id in w.rows && w.rows[id].owner == P.Merge(g)
    ensures g in w.outputs && IsPublished(w, id, w.outputs[g])
  {
  }

  lemma PublishGroups(w: M.World, row: nat, m: nat, file: M.File)
    requires M.AcceptsMerging(w, M.Publish(row, m, file))
    ensures var g := w.staging[row].group; var after := M.Step(w, M.Publish(row, m, file));
            && after.groups == w.groups[g := w.groups[g].(output := Some(m))]
            && after.files == if m in w.files then w.files else w.files[m := file]
  {
  }

  /** What was published for a group is a result of its profile: it lies where results of
      the profile lie, and so does a file that was there under that name before. */
  lemma ResultIsAccepted(before: P.World, after: P.World, db: M.World, id: nat, m: nat, file: M.File,
        slugs: nat -> N.Plain, hash: P.Hash)
    requires Slugs(slugs) && Shelved(before, db, slugs) && SameDesire(before, after, id)
    requires P.Inv(after, hash) && IsPublished(after, id, m) && Undisturbed(before, after, id)
    requires id in db.staging && !db.staging[id].published
    requires db.staging[id].group in db.groups && file.derived
        && file.profile == db.groups[db.staging[id].group].profile
    ensures m in after.media && N.InTree(false, slugs(file.profile), after.media[m].rel)
    ensures M.AcceptsMerging(db, M.Publish(id, m, file))
  {
    hide N.InTree, P.Inv, P.RowOk, P.Safe;
    FinalIsIn(after, id, slugs(file.profile), hash);
    if m in db.files {
      var f := db.files[m];
      N.TreeTells(false, slugs(file.profile), !f.derived, slugs(f.profile), after.media[m].rel);
    }
  }

  lemma FinalIsIn(w: P.World, id: nat, slug: N.Plain, hash: P.Hash)
    requires P.Inv(w, hash) && id in w.rows && w.rows[id].Published? && N.InTree(false, slug, w.rows[id].facts.desired)
    ensures N.InTree(false, slug, w.rows[id].facts.final)
  {
    hide N.Candidate, N.InTree;
    var facts := w.rows[id].facts;
    assert P.RowOk(w.fs, w.media, id, w.rows[id], hash);
    var k: nat :| P.OnSeries(facts, k);
    N.CandidatesStayInTree(false, slug, facts.desired, facts.stamp, P.Short(facts.sha1), k);
  }

  lemma ShelvedAfter(before: P.World, after: P.World, id: nat, db: M.World, next: M.World, slugs: nat -> N.Plain)
    requires Shelved(before, db, slugs) && Undisturbed(before, after, id) && SameDesire(before, after, id)
    requires forall m :: m in next.files ==>
               if m in db.files then next.files[m] == db.files[m]
               else m in after.media && N.InTree(!next.files[m].derived, slugs(next.files[m].profile), after.media[m].rel)
    requires forall row :: row in next.staging ==>
               row in db.staging && row in after.rows && next.staging[row].group == db.staging[row].group
    requires next.groups.Keys == db.groups.Keys
    requires forall g :: g in db.groups ==> next.groups[g].profile == db.groups[g].profile
    ensures Shelved(after, next, slugs)
  {
    RowsBut(before, after, id);
    hide N.InTree;
  }

  lemma LinkedDropped(before: P.World, after: P.World, db: M.World, id: nat)
    requires Linked(before, db) && Undisturbed(before, after, id) && id !in after.rows
    ensures Linked(after, db.(staging := db.staging - {id}))
  {
    RowsBut(before, after, id);
  }

  lemma LinkedPublished(before: P.World, after: P.World, db: M.World, committed: M.World, id: nat)
    requires Linked(before, db) && Undisturbed(before, after, id) && id in after.rows && id in before.rows
    requires after.rows[id].owner == before.rows[id].owner && after.rows[id].Published? && before.rows[id].owner.Merge?
    requires committed.staging == db.staging[id := M.Staging(before.rows[id].owner.group, true)]
    ensures Linked(after, committed)
  {
    RowsBut(before, after, id);
  }

  lemma LinkedSame(before: P.World, after: P.World, db: M.World, id: nat)
    requires Linked(before, db) && Undisturbed(before, after, id) && id in before.rows && !before.rows[id].Published?
    requires id in after.rows ==> after.rows[id].owner == before.rows[id].owner
    requires (id in after.rows && !after.rows[id].Published?) || !before.rows[id].owner.Merge?
    ensures Linked(after, db)
  {
    RowsBut(before, after, id);
  }

  lemma SparesAll(w: P.World, hash: P.Hash)
    ensures Spares(w, w.fs, hash)
  {
  }

  lemma SparesBoth(w: P.World, mid: F.Fs, after: F.Fs, hash: P.Hash)
    requires Spares(w, mid, hash) && Spares(w.(fs := mid), after, hash)
    ensures Spares(w, after, hash)
  {
    hide F.Solid, P.Kept, P.Reachable;
  }

  lemma DeadIs(w: P.World, jobs: J.Table, job: nat)
    requires F.StagingDir(job) in w.fs.dirs
    ensures job in DeadDirs(w, jobs) <==> !Waits(jobs, job) && !Referenced(w, job)
  {
    if !Waits(jobs, job) && !Referenced(w, job) { assert F.StagingDir(job).job in DeadDirs(w, jobs); }
  }

  /** Every file is in a directory, and the directories that are left are of jobs that matter. */
  lemma NoneLeft(w: P.World, jobs: J.Table, hash: P.Hash)
    requires P.Inv(w, hash) && DeadDirs(w, jobs) == {}
    ensures NoLeftovers(w, jobs)
  {
    hide Waits, Referenced;
    forall p | p in w.fs.live && p.Staged? ensures Waits(jobs, p.job) || Referenced(w, p.job) {
      assert w.fs.Standing(F.DirOf(p));
      DeadIs(w, jobs, p.job);
    }
  }

  lemma DeadDirsLess(w: P.World, jobs: J.Table, job: nat)
    ensures DeadDirs(w.(fs := RemoveDirs(w.fs, {job})), jobs) == DeadDirs(w, jobs) - {job}
  {
    var after := w.(fs := RemoveDirs(w.fs, {job}));
    forall other ensures Referenced(after, other) == Referenced(w, other) {
    }
    hide Referenced;
  }

  lemma RowsBut(before: P.World, after: P.World, id: nat)
    requires Undisturbed(before, after, id)
    ensures forall other :: other != id ==> (other in after.rows <==> other in before.rows)
    ensures forall other :: other != id && other in before.rows ==> after.rows[other] == before.rows[other]
  {
    forall other | other != id
      ensures other in after.rows <==> other in before.rows
      ensures other in before.rows ==> after.rows[other] == before.rows[other]
    {
      assert other in after.rows - {id} <==> other in before.rows - {id};
      if other in before.rows { assert (after.rows - {id})[other] == (before.rows - {id})[other]; }
    }
  }

  /** No row appears, and one that was past the point of no return stays. */
  ghost predicate RowsFollow(start: P.World, w: P.World)
  {
    && (forall id :: id in w.rows ==> id in start.rows)
    && forall id :: id in start.rows && !start.rows[id].Writing? ==> id in w.rows && SameRow(start.rows[id], id, w)
  }

  lemma SameRowsAtFirst(w: P.World)
    ensures RowsFollow(w, w)
  {
  }

  lemma Resumed(before: P.World, after: P.World, id: nat, r: Outcome)
    requires id in before.rows && !before.rows[id].Published?
    requires before.rows[id].Writing? ==>
               !r.Done? && (r.Discarded? ==> id !in after.rows) && (id in after.rows ==>
                   after.rows[id] == before.rows[id])
    requires !before.rows[id].Writing? ==> !r.Discarded? && SameRow(before.rows[id], id, after)
    requires r.Done? ==> IsPublished(after, id, r.mediaId)
    ensures id in after.rows ==> after.rows[id].owner == before.rows[id].owner
    ensures SameDesire(before, after, id)
    ensures !r.Stopped? && !r.Lost? ==> id !in Open(after)
  {
  }

  /** What a pass without errors has reported of the rows it has been at: those it left open,
      which had lost their bytes before. */
  ghost predicate Reported(start: P.World, w: P.World, todo: set<nat>, report: set<nat>, hash: P.Hash)
  {
    report == Open(w) - todo && report <= LostAt(start, hash) && LostAt(w, hash) <= LostAt(start, hash)
  }

  lemma NoneReported(w: P.World, hash: P.Hash)
    ensures Reported(w, w, Open(w), {}, hash) && ToRecover(w, w, Open(w), {})
  {
  }

  /** A row that is finished or given up is not open, and no other row loses its bytes. */
  lemma ReportedNext(start: P.World, before: P.World, after: P.World, id: nat, r: Outcome, todo: set<nat>,
        report: set<nat>, hash: P.Hash)
    requires P.Inv(before, hash) && Undisturbed(before, after, id) && Reported(start, before, todo, report, hash)
    requires id in todo && id in Open(before) && (r.Lost? <==> id in LostAt(before, hash)) && !r.Stopped?
    requires r.Lost? ==> after == before
    requires r.Done? ==> id in after.rows && after.rows[id].Published?
    requires r.Discarded? ==> id !in after.rows
    ensures Reported(start, after, todo - {id}, if r.Lost? then report + {id} else report, hash)
  {
    hide P.Inv, P.Safe, P.Reachable;
    RowsBut(before, after, id);
    forall other | other in LostAt(after, hash) ensures other in LostAt(before, hash) {
      if other != id { P.OtherRowKept(before, after.fs, id, other, hash); }
    }
  }

  lemma Recovered(start: P.World, w: P.World, report: set<nat>, whole: bool, hash: P.Hash)
    requires RowsFollow(start, w) && ToRecover(start, w, {}, report)
    requires whole ==> Reported(start, w, {}, report, hash)
    ensures Open(w) <= report && forall id :: id in w.rows ==> id in start.rows
    ensures forall id :: id in start.rows && !start.rows[id].Writing? ==> id in w.rows && SameRow(start.rows[id], id, w)
    ensures whole ==> report == Open(w) && report <= LostAt(start, hash)
    ensures whole ==> forall id :: id in w.rows ==> !w.rows[id].Writing?
  {
    hide P.Reachable;
    if whole {
      forall id | id in w.rows ensures !w.rows[id].Writing? {
        if !w.rows[id].Published? { assert id in report; }
      }
    }
  }

  /** What is left to be looked at. */
  ghost predicate ToRecover(start: P.World, w: P.World, todo: set<nat>, report: set<nat>)
  {
    todo <= Open(start) && todo <= Open(w) <= todo + report
  }

  lemma IsToRecover(start: P.World, w: P.World, todo: set<nat>, report: set<nat>, id: nat)
    requires ToRecover(start, w, todo, report) && id in todo
    ensures id in Open(w) && id in Open(start)
  {
  }

  lemma RecoverNext(start: P.World, before: P.World, after: P.World, todo: set<nat>, report: set<nat>, more: set<nat>, id: nat)
    requires ToRecover(start, before, todo, report) && Open(after) - {id} == Open(before) - {id}
    requires report <= more && (id in Open(after) ==> id in more)
    ensures ToRecover(start, after, todo - {id}, more)
  {
    hide Open;
    assert forall other :: other in Open(after) && other != id ==> other in Open(after) - {id};
    assert forall other :: other in todo && other != id ==> other in Open(before) - {id};
  }

  lemma SameStatusesFollow(a: map<nat, M.Group>, b: map<nat, M.Group>, c: map<nat, M.Group>)
    requires a == b || SameStatuses(a, b)
    requires b == c || SameStatuses(b, c)
    ensures SameStatuses(a, c)
  {
  }

  lemma OneRowMoved(start: P.World, before: P.World, after: P.World, id: nat)
    requires RowsFollow(start, before) && Undisturbed(before, after, id) && id in Open(before)
    requires !before.rows[id].Writing? ==> SameRow(before.rows[id], id, after)
    ensures RowsFollow(start, after)
    ensures Open(after) - {id} == Open(before) - {id}
  {
    RowsBut(before, after, id);
  }
}
