/** One merge job: claim, merge, verify, publish, and what it leaves when it fails. */
module Merger {
  import opened Options
  import opened Merges
  import opened MergeSafety
  import opened Deletion
  import opened MergeStore

  /** What ffmpeg and the verification came to. */
  datatype Work = Worked(passed: bool) | WorkRaised | WorkCancelled

  /** What the publisher came to. An interrupted publication is past its staged commit. */
  datatype Publication =
    | Published(m: nat, file: File) | PublishRaised(dropped: bool) | PublishCancelled | PublishInterrupted

  datatype End = NotClaimable | Finished | Released | Interrupted | Raised | Stopped

  /** Nobody else touches the staging row. */
  predicate LeavesRow(ops: seq<Op>, row: nat)
  {
    forall i :: 0 <= i < |ops| ==>
      && (ops[i].BeginStaging? ==> ops[i].row != row)
      && (ops[i].DropStaging? ==> ops[i].row != row)
      && (ops[i].Publish? ==> ops[i].row != row)
  }

  predicate NoDeletion(ops: seq<Op>) { forall i :: 0 <= i < |ops| ==> !ops[i].DeleteDerived? }

  predicate SameRow(a: World, b: World, row: nat)
  {
    (row in a.staging <==> row in b.staging) && (row in a.staging ==> a.staging[row] == b.staging[row])
  }

  lemma RowStaysStep(w: World, op: Op, row: nat)
    requires LeavesRow([op], row)
    ensures SameRow(w, Step(w, op), row)
  {
    assert [op][0] == op;
    hide Editable, Withdraw, PointedAt, IsReferenced, Blocker, WithoutRecordsOf, Owner, CanInsert, NewGroup, Detach;
  }

  lemma {:induction false} RowStays(w: World, ops: seq<Op>, row: nat)
    requires LeavesRow(ops, row)
    ensures SameRow(w, Run(w, ops), row)
    decreases |ops|
  {
    hide Step;
    if ops != [] {
      RowStays(w, ops[..|ops| - 1], row);
      assert LeavesRow([ops[|ops| - 1]], row);
      RowStaysStep(Run(w, ops[..|ops| - 1]), ops[|ops| - 1], row);
    }
  }

  lemma {:induction false} RunKeepsNoHollow(w: World, ops: seq<Op>)
    requires Inv(w) && NoHollow(w.groups) && NoDeletion(ops)
    ensures Inv(Run(w, ops)) && NoHollow(Run(w, ops).groups)
    decreases |ops|
  {
    hide Inv, Step, NoHollow;
    if ops != [] {
      RunKeepsNoHollow(w, ops[..|ops| - 1]);
      StepKeepsInv(Run(w, ops[..|ops| - 1]), ops[|ops| - 1]);
      OnlyDeletionLeavesHollow(Run(w, ops[..|ops| - 1]), ops[|ops| - 1]);
    }
  }

  predicate ReadyOrGone(w: World, g: nat)
  {
    g < w.nextGroup && (g in w.groups ==> w.groups[g].verified.Some? && Placeable(w.files, w.groups[g]))
  }

  lemma ReadyStep(w: World, op: Op, g: nat)
    requires ReadyOrGone(w, g)
    ensures ReadyOrGone(Step(w, op), g)
  {
    hide AcceptsNew, EffectNew, AcceptsRemoval, EffectRemoval, AcceptsMerging, EffectMerging;
    if AcceptsNew(w, op) { ReadyNew(w, op, g); }
    else if AcceptsMerging(w, op) { ReadyMerging(w, op, g); }
    else if AcceptsRemoval(w, op) { ReadyRemoval(w, op, g); }
  }

  lemma ReadyNew(w: World, op: Op, g: nat)
    requires ReadyOrGone(w, g) && AcceptsNew(w, op)
    ensures ReadyOrGone(EffectNew(w, op), g)
  {
    hide Editable, Withdraw, CanInsert;
  }

  lemma ReadyMerging(w: World, op: Op, g: nat)
    requires ReadyOrGone(w, g) && AcceptsMerging(w, op)
    ensures ReadyOrGone(EffectMerging(w, op), g)
  {
  }

  lemma FirstIsPart(groups: map<nat, Group>, g: nat)
    requires g in groups && groups[g].parts != []
    ensures IsPart(groups, groups[g].parts[0].media)
  {
    assert groups[g].Mentions(groups[g].parts[0].media);
  }

  lemma ReadyRemoval(w: World, op: Op, g: nat)
    requires ReadyOrGone(w, g) && AcceptsRemoval(w, op)
    ensures ReadyOrGone(EffectRemoval(w, op), g)
  {
    hide Editable, Withdraw, PointedAt, IsReferenced, Blocker, WithoutRecordsOf, Owner;
    if op.DeleteDerived? {
      OwnerOwns(w.groups, op.m);
      DeletionWorksIff(w, op.m);
      if g in w.groups { FirstIsPart(w.groups, g); }
    }
  }

  /** No operation takes a verification away, or the first recording. A publication begins
      after the job has recorded the one and looked at the other, so it is refused exactly if
      the group is gone: that the model asks for both there adds nothing to the order of the
      program. */
  lemma {:induction false} StagingIsRefusedIff(w: World, ops: seq<Op>, row: nat, g: nat)
    requires ReadyOrGone(w, g)
    ensures ReadyOrGone(Run(w, ops), g)
    ensures row !in Run(w, ops).staging ==>
              (AcceptsMerging(Run(w, ops), BeginStaging(row, g)) <==> g in Run(w, ops).groups)
    decreases |ops|
  {
    hide Step;
    if ops != [] {
      StagingIsRefusedIff(w, ops[..|ops| - 1], row, g);
      ReadyStep(Run(w, ops[..|ops| - 1]), ops[|ops| - 1], g);
    }
  }

  /** Over every run: what has been made begins with a recording of the group's own profile. */
  lemma ResultBeginsWithRecording(w: World, ops: seq<Op>, g: nat)
    requires Inv(w)
    ensures var after := Run(w, ops);
            g in after.groups && after.groups[g].output.Some? ==>
              && Placeable(after.files, after.groups[g])
              && after.groups[g].output.value in after.files && after.files[after.groups[g].output.value].derived
              && after.files[after.groups[g].output.value].profile == after.groups[g].profile
  {
    hide Inv, Step;
    RunKeepsInv(w, ops);
    if g in Run(w, ops).groups { InvGroup(Run(w, ops), g); }
  }

  /** Performs one transaction of the job: of the repository, or of the publisher. */
  method Do(repo: MergeRepository, op: Op) returns (ok: bool)
    requires Inv(repo.db) && !op.DeleteDerived?
    modifies repo
    ensures Inv(repo.db) && repo.db == Step(old(repo.db), op)
    ensures ok == AcceptsMerging(old(repo.db), op)
    ensures NoHollow(old(repo.db).groups) ==> NoHollow(repo.db.groups)
  {
    hide Inv, Step, NoHollow, AcceptsMerging;
    StepKeepsInv(repo.db, op);
    if NoHollow(repo.db.groups) { OnlyDeletionLeavesHollow(repo.db, op); }
    if op.ClaimForMerge? {
      ok := repo.ClaimForMerge(op.g, op.digest);
    } else if op.RecordVerification? {
      ok := repo.RecordVerification(op.g, op.passed);
    } else if op.MarkMerged? {
      ok := repo.MarkMerged(op.g);
    } else if op.MarkFailed? {
      ok := repo.Transition(op.g, true);
    } else if op.Release? {
      ok := repo.Transition(op.g, false);
    } else {
      ok := AcceptsMerging(repo.db, op);
      repo.db := Step(repo.db, op);
    }
  }

  /** Everybody else. */
  method Others(repo: MergeRepository, ops: seq<Op>, row: nat)
    requires Inv(repo.db) && LeavesRow(ops, row)
    modifies repo
    ensures Inv(repo.db) && repo.db == Merges.Run(old(repo.db), ops)
    ensures SameRow(old(repo.db), repo.db, row)
    ensures NoHollow(old(repo.db).groups) && NoDeletion(ops) ==> NoHollow(repo.db.groups)
  {
    hide Inv, Step, NoHollow;
    RunKeepsInv(repo.db, ops);
    RowStays(repo.db, ops, row);
    if NoHollow(repo.db.groups) && NoDeletion(ops) { RunKeepsNoHollow(repo.db, ops); }
    repo.db := Merges.Run(repo.db, ops);
  }

  predicate StatusIs(w: World, g: nat, status: Status) { g in w.groups && w.groups[g].status == status }

  /** Merged, with its result and its verification. */
  predicate Complete(w: World, g: nat)
  {
    StatusIs(w, g, Merged) && w.groups[g].output.Some? && w.groups[g].verified.Some?
  }

  /** Claimed by this job, and nobody has interfered. */
  predicate Claimed(w: World, g: nat) { StatusIs(w, g, Merging) && w.groups[g].successor.None? }

  /** What the job leaves when nobody interferes; `result` is the output it had before. */
  predicate Leaves(w: World, g: nat, row: nat, result: Option<nat>, verified: Option<bool>, publication: Publication,
        end: End)
  {
    g in w.groups
    && match end
       case Finished =>
         && Complete(w, g) && w.groups[g].verified == verified && row in w.staging && w.staging[row].published
         && publication.Published? && w.groups[g].output == Some(publication.m)
       case Released => w.groups[g].status.Detected? && w.groups[g].output == result && row !in w.staging
       case Interrupted =>
         && w.groups[g].status.Merging? && w.groups[g].verified == verified
         && row in w.staging && !w.staging[row].published
       case Raised => w.groups[g].status.Failed?
       case Stopped => w.groups[g].status.Merging?
       case NotClaimable => false
  }

  /** How a publication ends that nobody interferes with. */
  function PublicationEnd(w: World, g: nat, publication: Publication): End
    requires g in w.groups
  {
    match publication
    case PublishInterrupted => Interrupted
    case PublishCancelled => Released
    case PublishRaised(_) => Raised
    case Published(m, file) => if IsResultOf(w.files, m, file, w.groups[g]) then Finished else Raised
  }

  /** How the job ends: the name comes before the work, the work before the last look at
      whether somebody cancelled, and that before the publication. */
  function JobEnd(w: World, g: nat, work: Work, cancelled: bool, publication: Publication): End
    requires g in w.groups
  {
    if !Placeable(w.files, w.groups[g]) || work.WorkRaised? then Raised
    else if work.WorkCancelled? || cancelled then Released
    else PublicationEnd(w, g, publication)
  }

  /** What decides the end is the same. */
  predicate SameInput(w: World, after: World, g: nat)
  {
    && g in w.groups && g in after.groups && after.files == w.files
    && after.groups[g].parts == w.groups[g].parts && after.groups[g].profile == w.groups[g].profile
  }

  lemma SameEnd(w: World, after: World, g: nat, work: Work, cancelled: bool, publication: Publication)
    requires SameInput(w, after, g)
    ensures g in w.groups && g in after.groups
    ensures PublicationEnd(after, g, publication) == PublicationEnd(w, g, publication)
    ensures JobEnd(after, g, work, cancelled, publication) == JobEnd(w, g, work, cancelled, publication)
    ensures Placeable(after.files, after.groups[g]) == Placeable(w.files, w.groups[g])
  {
  }

  /** Publishes what was merged. */
  method PublishMerge(repo: MergeRepository, g: nat, row: nat, publication: Publication, during: seq<Op>,
        after: seq<Op>, whole: bool)
    returns (end: End)
    requires Inv(repo.db) && row !in repo.db.staging && LeavesRow(during, row) && LeavesRow(after, row)
    modifies repo
    ensures Inv(repo.db) && !end.NotClaimable?
    ensures NoHollow(old(repo.db).groups) && NoDeletion(during) && NoDeletion(after) ==> NoHollow(repo.db.groups)
    ensures end.Finished? ==> Complete(repo.db, g)
    ensures end.Finished? ==> publication.Published?
    ensures end.Released? ==> publication.PublishCancelled?
    ensures end.Interrupted? ==> publication.PublishInterrupted?
    ensures whole ==> !end.Stopped?
    ensures during == [] && after == [] && Claimed(old(repo.db), g) && ReadyOrGone(old(repo.db), g) ==>
              && (whole ==> end == PublicationEnd(old(repo.db), g, publication))
              && Leaves(repo.db, g, row, old(repo.db).groups[g].output, old(repo.db).groups[g].verified, publication, end)
  {
    hide Inv, NoHollow, Step, EffectMerging, AcceptsMerging, IsResultOf, SameInput, Placeable;
    ghost var start := repo.db;
    var ok := Do(repo, BeginStaging(row, g));
    StagingStep(start, row, g);
    if !ok { end := Fail(repo, g); return; }
    SameEnd(start, repo.db, g, WorkRaised, false, publication);
    if !whole { if * { return Stopped; } }
    Others(repo, during, row);
    ghost var staged := repo.db;
    InvRest(staged);
    RowStep(staged, row);
    match publication {
      case PublishInterrupted => return Interrupted;
      case PublishCancelled =>
        ok := Do(repo, DropStaging(row));
        end := LetGoOf(repo, g);
        return;
      case PublishRaised(dropped) =>
        if dropped { ok := Do(repo, DropStaging(row)); }
        end := Fail(repo, g);
        return;
      case Published(m, file) =>
        ok := Do(repo, Publish(row, m, file));
        if !ok {
          RefusedPublish(staged, row, m, file);
          end := Fail(repo, g);
          return;
        }
        PublishStep(staged, row, m, file);
    }
    if !whole { if * { return Stopped; } }
    Others(repo, after, row);
    MarkStep(repo.db, g);
    ok := Do(repo, MarkMerged(g));
    if !ok { end := Fail(repo, g); return; }
    end := Finished;
  }

  /** `_merge`, and what becomes of the group if it raises. */
  method Merge(repo: MergeRepository, g: nat, row: nat, work: Work, cancelled: bool, publication: Publication,
        during: seq<seq<Op>>, whole: bool)
    returns (end: End)
    requires Inv(repo.db) && row !in repo.db.staging
    requires |during| == 3 && forall i :: 0 <= i < 3 ==> LeavesRow(during[i], row)
    modifies repo
    ensures Inv(repo.db) && !end.NotClaimable?
    ensures NoHollow(old(repo.db).groups) && (forall i :: 0 <= i < 3 ==> NoDeletion(during[i])) ==>
        NoHollow(repo.db.groups)
    ensures end.Finished? ==> Complete(repo.db, g)
    ensures end.Finished? ==> work.Worked? && !cancelled && publication.Published?
    ensures end.Released? ==> work.WorkCancelled? || cancelled || publication.PublishCancelled?
    ensures end.Interrupted? ==> work.Worked? && !cancelled && publication.PublishInterrupted?
    ensures whole ==> !end.Stopped?
    ensures during == [[], [], []] && Claimed(old(repo.db), g) ==>
              && (whole ==> end == JobEnd(old(repo.db), g, work, cancelled, publication))
              && Leaves(repo.db, g, row, old(repo.db).groups[g].output,
                  if work.Worked? then Some(work.passed) else None, publication, end)
  {
    hide Inv, NoHollow, Step, EffectMerging, AcceptsMerging, IsResultOf, SameInput, PublicationEnd;
    if !(g in repo.db.groups && Placeable(repo.db.files, repo.db.groups[g])) {   // MergeOutputUndefined
      end := Fail(repo, g);
      return;
    }
    match work {
      case WorkRaised => end := Fail(repo, g); return;
      case WorkCancelled => end := LetGoOf(repo, g); return;
      case Worked(_) =>
    }
    VerifyStep(repo.db, g, work.passed);
    GroupBelow(repo.db, g);
    ghost var worked := repo.db;
    var ok := Do(repo, RecordVerification(g, work.passed));
    if !ok { end := Fail(repo, g); return; }
    SameEnd(worked, repo.db, g, work, cancelled, publication);
    if !whole { if * { return Stopped; } }
    Others(repo, during[0], row);
    if cancelled { end := LetGoOf(repo, g); return; }
    end := PublishMerge(repo, g, row, publication, during[1], during[2], whole);
  }

  /** Runs one merge job. `during` is what others do between its transactions. */
  method MergeGroup(repo: MergeRepository, g: nat, expected: Digest, row: nat, work: Work, cancelled: bool,
      publication: Publication, during: seq<seq<Op>>, whole: bool)
    returns (end: End)
    requires Inv(repo.db) && row !in repo.db.staging
    requires |during| == 4 && forall i :: 0 <= i < 4 ==> LeavesRow(during[i], row)
    modifies repo
    ensures Inv(repo.db)
    // wherever it stops: nothing is merged without a result and a verification
    ensures NoHollow(old(repo.db).groups) && (forall i :: 0 <= i < 4 ==> NoDeletion(during[i])) ==>
        NoHollow(repo.db.groups)
    ensures end.Finished? ==> Complete(repo.db, g)
    ensures end.NotClaimable? <==> !AcceptsMerging(old(repo.db), ClaimForMerge(g, expected))
    ensures end.NotClaimable? ==> repo.db == old(repo.db)
    // what each end means, whatever others do
    ensures end.Finished? ==> work.Worked? && !cancelled && publication.Published?
    ensures end.Released? ==> work.WorkCancelled? || cancelled || publication.PublishCancelled?
    ensures end.Interrupted? ==> work.Worked? && !cancelled && publication.PublishInterrupted?
    ensures whole ==> !end.Stopped?
    // undisturbed, how it ends and what it leaves then
    ensures during == [[], [], [], []] && !end.NotClaimable? ==>
              && g in old(repo.db).groups
              && (whole ==> end == JobEnd(old(repo.db), g, work, cancelled, publication))
              && Leaves(repo.db, g, row, old(repo.db).groups[g].output,
                  if work.Worked? then Some(work.passed) else None, publication, end)
  {
    hide Inv, NoHollow, Step, EffectMerging, AcceptsMerging, SameInput, JobEnd;
    ghost var start := repo.db;
    ClaimStep(start, g, expected);
    var ok := Do(repo, ClaimForMerge(g, expected));
    if !ok { return NotClaimable; }
    SameEnd(start, repo.db, g, work, cancelled, publication);
    if !whole { if * { return Stopped; } }
    Others(repo, during[0], row);
    end := Merge(repo, g, row, work, cancelled, publication, during[1..], whole);
  }

  lemma ClaimStep(w: World, g: nat, digest: Digest)
    ensures var op := ClaimForMerge(g, digest);
            if AcceptsMerging(w, op) then
              && g in w.groups && Claimed(Step(w, op), g) && SameInput(w, Step(w, op), g)
              && Step(w, op).groups[g].output == w.groups[g].output && Step(w, op).staging == w.staging
            else Step(w, op) == w
  {
  }

  lemma VerifyStep(w: World, g: nat, passed: bool)
    ensures var op := RecordVerification(g, passed);
            && AcceptsMerging(w, op) == Claimed(w, g)
            && Step(w, op).staging == w.staging
            && (Claimed(w, g) ==>
                  && Claimed(Step(w, op), g) && Step(w, op).groups[g].verified == Some(passed)
                  && SameInput(w, Step(w, op), g)
                  && (Placeable(w.files, w.groups[g]) ==> Placeable(Step(w, op).files, Step(w, op).groups[g]))
                  && Step(w, op).nextGroup == w.nextGroup
                  && Step(w, op).groups[g].output == w.groups[g].output)
  {
  }

  lemma GroupBelow(w: World, g: nat)
    requires Inv(w) && g in w.groups
    ensures g < w.nextGroup
  {
    InvGroup(w, g);
  }

  lemma StagingStep(w: World, row: nat, g: nat)
    requires row !in w.staging
    ensures var op := BeginStaging(row, g);
            && (AcceptsMerging(w, op) <==> g in w.groups && w.groups[g].verified.Some? && Placeable(w.files, w.groups[g]))
            && Step(w, op).groups == w.groups && (g in w.groups ==> SameInput(w, Step(w, op), g))
            && (AcceptsMerging(w, op) ==> Step(w, op).staging == w.staging[row := Staging(g, false)])
  {
  }

  lemma RowStep(w: World, row: nat)
    requires row in w.staging && !w.staging[row].published
    ensures Step(w, DropStaging(row)) == w.(staging := w.staging - {row})
  {
  }

  lemma PublishStep(w: World, row: nat, m: nat, file: File)
    requires AcceptsMerging(w, Publish(row, m, file))
    ensures var g := w.staging[row].group; var after := Step(w, Publish(row, m, file));
            && g in after.groups && after.groups[g] == w.groups[g].(output := Some(m))
            && after.staging == w.staging[row := Staging(g, true)]
            && PublicationEnd(w, g, Published(m, file)).Finished?
  {
  }

  lemma RefusedPublish(w: World, row: nat, m: nat, file: File)
    requires !AcceptsMerging(w, Publish(row, m, file))
    ensures Step(w, Publish(row, m, file)) == w
    ensures row in w.staging && !w.staging[row].published && w.staging[row].group in w.groups ==>
              PublicationEnd(w, w.staging[row].group, Published(m, file)).Raised?
  {
  }

  lemma MarkStep(w: World, g: nat)
    ensures var op := MarkMerged(g);
            && (AcceptsMerging(w, op) <==> Claimed(w, g) && w.groups[g].output.Some? && w.groups[g].verified.Some?)
            && Step(w, op).staging == w.staging
            && (AcceptsMerging(w, op) ==> g in Step(w, op).groups && Step(w, op).groups[g] == w.groups[g].(status := Merged))
  {
  }

  /** `mark_failed`, and the error goes on; so does the one of `mark_failed` itself. */
  method Fail(repo: MergeRepository, g: nat) returns (end: End)
    requires Inv(repo.db)
    modifies repo
    ensures Inv(repo.db) && end == Raised
    ensures NoHollow(old(repo.db).groups) ==> NoHollow(repo.db.groups)
    ensures Claimed(old(repo.db), g) ==> StatusIs(repo.db, g, Status.Failed)
  {
    hide Inv, NoHollow, Step, AcceptsMerging;
    LeaveStep(repo.db, g);
    var ok := Do(repo, MarkFailed(g));
    end := Raised;
  }

  /** `release`: the group can be merged again. */
  method LetGoOf(repo: MergeRepository, g: nat) returns (end: End)
    requires Inv(repo.db)
    modifies repo
    ensures Inv(repo.db)
    ensures NoHollow(old(repo.db).groups) ==> NoHollow(repo.db.groups)
    ensures if Claimed(old(repo.db), g) then
              && end == Released && g in repo.db.groups
              && repo.db.groups[g] == old(repo.db).groups[g].(status := Detected)
              && repo.db.staging == old(repo.db).staging
            else end == Raised
  {
    hide Inv, NoHollow, Step, AcceptsMerging;
    LeaveStep(repo.db, g);
    var ok := Do(repo, Release(g));
    end := if ok then Released else Raised;
  }

  lemma LeaveStep(w: World, g: nat)
    ensures AcceptsMerging(w, MarkFailed(g)) == Claimed(w, g) == AcceptsMerging(w, Release(g))
    ensures Claimed(w, g) ==>
              && g in Step(w, MarkFailed(g)).groups
              && Step(w, MarkFailed(g)).groups[g].status.Failed?
              && Step(w, Release(g)) == w.(groups := w.groups[g := w.groups[g].(status := Detected)])
  {
  }
}
