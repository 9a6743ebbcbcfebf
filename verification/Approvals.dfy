/** Writing a date back to the remote side after a person approved it, and the reset. */
module Approvals {
  import opened Options
  import J = Jobs
  import opened Ledger
  import opened LedgerSafety
  import opened Fences
  import opened GuardWindow
  import opened Uploads

  datatype Outcome =
    | NotPossible       // not waiting for an approval
    | Lost              // somebody was faster
    | Returned          // given back to a person; whether the remote side changed is open
    | Approved

  /** The ledger when an approval has claimed the record: its own step after what others did. */
  function AtClaim(w: World, ctx: Ctx, id: nat, others: seq<seq<Op>>): World
    requires |others| == 5
  {
    Step(Run(w, others[0]), ClaimForApproval(ctx, id))
  }

  /** ... when its first guard has committed ... */
  function AtCheck(w: World, ctx: Ctx, id: nat, others: seq<seq<Op>>): World
    requires |others| == 5
  {
    Step(Run(AtClaim(w, ctx, id, others), others[1]), Prepare(ctx, id, FixingDatetime, true))
  }

  /** ... and its second one. */
  function AtGuard(w: World, ctx: Ctx, id: nat, others: seq<seq<Op>>): World
    requires |others| == 5
  {
    Step(Run(AtCheck(w, ctx, id, others), others[2]), Prepare(ctx, id, FixingDatetime, true))
  }

  predicate MayApprove(w: World, id: nat) { Waiting(w, id) && w.records[id].asset.Some? }

  /** How an approval ends: each of its steps goes through or it is given back. */
  function ApprovalEnd(w: World, ctx: Ctx, id: nat, others: seq<seq<Op>>, reachable: bool, accepted: bool): Outcome
    requires |others| == 5
  {
    var guard := Prepare(ctx, id, FixingDatetime, true);
    if !MayApprove(w, id) then NotPossible
    else if !Accepts(Run(w, others[0]), ClaimForApproval(ctx, id)) then Lost
    else if !Accepts(Run(AtClaim(w, ctx, id, others), others[1]), guard) || !reachable then Returned
    else if !Accepts(Run(AtCheck(w, ctx, id, others), others[2]), guard) || !accepted then Returned
    else
      var last := Run(Run(AtGuard(w, ctx, id, others), others[3]), others[4]);
      if Accepts(last, FinishRecord(ctx, true, id, Complete, FixingDatetime, Keep)) then Approved else Returned
  }

  class ApprovalService {
    const repo: UploadRepository

    constructor (repo: UploadRepository)
      ensures this.repo == repo
    {
      this.repo := repo;
    }

    /** Whatever other workers and requests do in between. */
    method Others(ops: seq<Op>)
      requires Inv(repo.db)
      modifies repo
      ensures Inv(repo.db) && repo.db == Run(old(repo.db), ops)
    {
      RunKeepsInv(repo.db, ops);
      repo.db := Run(repo.db, ops);
    }

    /** Claims the record, makes sure twice that it may still be touched, writes the date,
        and completes the record; on any failure gives it back. `others` is what happens
        around each step, `reachable` and `accepted` what the remote side does. `guarded`
        is the ledger when the second guard has committed, `put` when the remote side is
        written: the write is part of no transaction. */
    method Approve(ctx: Ctx, id: nat, others: seq<seq<Op>>, reachable: bool, accepted: bool)
      returns (r: Outcome, ghost guarded: Option<World>, ghost put: Option<World>)
      requires Inv(repo.db) && |others| == 5
      requires !HeldBy(repo.db, id, ctx.token) && id < repo.db.nextRecord
      requires forall i :: 0 <= i < 5 ==> AllForeign(others[i], id, ctx.token)
      modifies repo
      ensures Inv(repo.db)
      ensures r == ApprovalEnd(old(repo.db), ctx, id, others, reachable, accepted)
      // however it ends, the record is not left in the hands of this job
      ensures !HeldBy(repo.db, id, ctx.token)
      ensures r.Approved? ==> id in repo.db.records && repo.db.records[id].state.Complete? && put.Some?
      ensures r.NotPossible? || r.Lost? ==> put.None?
      // the remote side is written only after a guard: with a valid lease, for the current library
      ensures put.Some? ==> guarded == Some(AtGuard(old(repo.db), ctx, id, others))
                            && Guarded(guarded.value, ctx, id, FixingDatetime)
                            && put.value == Run(guarded.value, others[3])
      // ... and what the guard found is still so when it is written exactly if nothing broke it meanwhile
      ensures put.Some? ==>
                (Guarded(put.value, ctx, id, FixingDatetime) <==> NeverBroken(guarded.value, others[3], ctx, id))
      // in any case the record is still this job's, with the key it needs, unless it was taken away
      ensures put.Some? ==>
                && (HeldBy(put.value, id, ctx.token) <==> !Taken(guarded.value.records[id].media, others[3]))
                && (HeldBy(put.value, id, ctx.token) ==>
                      && put.value.records[id].state.FixingDatetime? && put.value.records[id].revision.Some?
                      && put.value.records[id].revision.value !in put.value.targets.purged)
    {
      hide Inv, Step, Accepts, HeldBy, Guarded, Foreign, NeverBroken, Taken;
      guarded, put := None, None;
      if id !in repo.db.records || !repo.db.records[id].state.AwaitingApproval? || repo.db.records[id].invalidated
         || repo.db.records[id].asset.None? {
        return NotPossible, None, None;
      }
      Others(others[0]);
      NoClaims(others[0], id, ctx.token);
      NotHeldStaysNotHeld(old(repo.db), others[0], id, ctx.token);
      ghost var before := repo.db;
      var ok := repo.ClaimForApproval(ctx, id);
      NextRecordGrows(old(repo.db), others[0]);
      if !ok {
        Refused(before, ClaimForApproval(ctx, id));
        return Lost, None, None;
      }
      NextRecordGrows(before, [ClaimForApproval(ctx, id)]);
      OneStep(before, ClaimForApproval(ctx, id));
      Others(others[1]);
      ok := repo.PrepareSideEffect(ctx, id, FixingDatetime, true);
      if ok && reachable {
        Others(others[2]);
        ghost var checkedIn := repo.db;
        ok := repo.PrepareSideEffect(ctx, id, FixingDatetime, true);
        if ok {
          GuardHolds(checkedIn, ctx, id);
          guarded := Some(repo.db);
          Others(others[3]);
          put := Some(repo.db);
          GuardHoldsIff(guarded.value, others[3], ctx, id, FixingDatetime);
          GuardedIsHeld(guarded.value, ctx, id);
          HeldIff(guarded.value, others[3], id, ctx.token);
          Others(others[4]);
          if accepted {
            ghost var unsettled := repo.db;
            ok := repo.LockedCas(ctx, true, id, Complete, FixingDatetime, Keep, true);
            if ok {
              Finished(unsettled, ctx, id);
              return Approved, guarded, put;
            }
          }
        }
      }
      ghost var unreleased := repo.db;
      repo.ReleaseFromApproval(id, ctx.token);
      Released(unreleased, id, ctx.token);
      r := Returned;
    }

    /** Completes the record without touching the remote side. The check comes first, on its
        own; the statement that settles the record looks at its state alone. */
    method Reject(id: nat, between: seq<Op>) returns (ok: bool)
      requires Inv(repo.db)
      modifies repo
      ensures Inv(repo.db)
      ensures ok <==> && Waiting(old(repo.db), id)
                      && Accepts(Run(old(repo.db), between), Ledger.Reject(id))
      ensures !Waiting(old(repo.db), id) ==> repo.db == old(repo.db)
      ensures Waiting(old(repo.db), id) ==> repo.db == Step(Run(old(repo.db), between), Ledger.Reject(id))
      ensures ok ==> id in repo.db.records && repo.db.records[id].state.Complete?
    {
      hide Inv, Step;
      if id !in repo.db.records || !repo.db.records[id].state.AwaitingApproval? || repo.db.records[id].invalidated {
        return false;
      }
      Others(between);
      RejectStep(repo.db, id);
      StepKeepsInv(repo.db, Ledger.Reject(id));
      ok := id in repo.db.records && repo.db.records[id].state.AwaitingApproval?;
      if ok {
        repo.db := repo.db.(records := repo.db.records[id := repo.db.records[id].(state := Complete)]);
      }
    }
  }

  /** Under a token that was issued to the job it ends approved exactly if the record may be
      approved and can be claimed, the lease is valid then, the remote side answers and takes
      the date, and nothing that breaks a guard is committed from the claim to the end. */
  lemma ApprovedIff(w: World, ctx: Ctx, id: nat, others: seq<seq<Op>>, reachable: bool, accepted: bool)
    requires Inv(w) && |others| == 5 && forall i :: 0 <= i < 5 ==> AllForeign(others[i], id, ctx.token)
    requires Leased(w, ctx) || J.Dead(w.jobs, ctx.token)
    ensures var met := Run(w, others[0]);
            ApprovalEnd(w, ctx, id, others, reachable, accepted).Approved? <==>
              && MayApprove(w, id) && Accepts(met, ClaimForApproval(ctx, id)) && Leased(met, ctx)
              && reachable && accepted
              && NeverBroken(AtClaim(w, ctx, id, others), others[1], ctx, id)
              && NeverBroken(AtCheck(w, ctx, id, others), others[2], ctx, id)
              && NeverBroken(AtGuard(w, ctx, id, others), others[3] + others[4], ctx, id)
  {
    hide Inv, Step, Accepts, Guarded, NeverBroken, Foreign, Leased, J.Dead;
    var met, claimed, checked := Run(w, others[0]), AtClaim(w, ctx, id, others), AtCheck(w, ctx, id, others);
    var guarded := AtGuard(w, ctx, id, others);
    RunKeepsInv(w, others[0]);
    LeasedOrDead(w, others[0], ctx);
    if Accepts(met, ClaimForApproval(ctx, id)) {
      ClaimedIsGuarded(met, ctx, id);
      if Leased(met, ctx) {
        GuardAgain(claimed, others[1], ctx, id);
        if NeverBroken(claimed, others[1], ctx, id) {
          GuardAgain(checked, others[2], ctx, id);
          if NeverBroken(checked, others[2], ctx, id) {
            GuardAgain(guarded, others[3] + others[4], ctx, id);
            RunJoins(guarded, others[3], others[4]);
          }
        }
      } else {
        DeadTokenFence(claimed, ctx.token, others[1], Prepare(ctx, id, FixingDatetime, true));
      }
    }
  }

  lemma LeasedOrDead(w: World, ops: seq<Op>, ctx: Ctx)
    requires Inv(w) && (Leased(w, ctx) || J.Dead(w.jobs, ctx.token))
    ensures Leased(Run(w, ops), ctx) || J.Dead(Run(w, ops).jobs, ctx.token)
  {
    RunOfJobs(w, ops);
    LeaseRun(w.jobs, JobOps(ops), ctx);
  }

  lemma {:induction false} LeaseRun(t: J.Table, ops: seq<J.Op>, ctx: Ctx)
    requires J.Inv(t) && (J.LeaseValid(t, ctx.job, ctx.token) || J.Dead(t, ctx.token))
    ensures var after := J.Run(t, ops); J.LeaseValid(after, ctx.job, ctx.token) || J.Dead(after, ctx.token)
    decreases |ops|
  {
    hide J.Step, J.Inv, J.Dead;
    if ops != [] {
      J.StepKeepsInv(t, ops[0]);
      if J.Dead(t, ctx.token) {
        J.DeadStaysDead(t, ops, ctx.token);
      } else {
        LeaseStep(t, ops[0], ctx);
        LeaseRun(J.Step(t, ops[0]), ops[1..], ctx);
      }
    }
  }

  lemma ClaimedIsGuarded(w: World, ctx: Ctx, id: nat)
    requires Inv(w) && Accepts(w, ClaimForApproval(ctx, id))
    ensures var after := Step(w, ClaimForApproval(ctx, id));
            && Inv(after) && after.jobs == w.jobs && (Leased(w, ctx) ==> Guarded(after, ctx, id, FixingDatetime))
  {
    var after := Step(w, ClaimForApproval(ctx, id));
    StepKeepsInv(w, ClaimForApproval(ctx, id));
    RecordIsOk(after, id);
    hide Inv;
  }

  /** After a guard, the next one or the last write goes through exactly if nothing broke it. */
  lemma GuardAgain(w: World, ops: seq<Op>, ctx: Ctx, id: nat)
    requires Inv(w) && Guarded(w, ctx, id, FixingDatetime) && AllForeign(ops, id, ctx.token)
    ensures var after := Run(w, ops); var guard := Prepare(ctx, id, FixingDatetime, true);
            && (Accepts(after, guard) <==> NeverBroken(w, ops, ctx, id))
            && (Accepts(after, FinishRecord(ctx, true, id, Complete, FixingDatetime, Keep)) <==> NeverBroken(w, ops, ctx, id))
            && (Accepts(after, guard) ==> Inv(Step(after, guard)) && Guarded(Step(after, guard), ctx, id, FixingDatetime))
  {
    hide Inv, NeverBroken, Foreign;
    var after := Run(w, ops);
    RunKeepsInv(w, ops);
    GuardHoldsIff(w, ops, ctx, id, FixingDatetime);
    if Accepts(after, Prepare(ctx, id, FixingDatetime, true)) {
      RecordIsOk(after, id);
      StepKeepsInv(after, Prepare(ctx, id, FixingDatetime, true));
      GuardHolds(after, ctx, id);
    }
  }

  lemma {:induction false} RunJoins(w: World, a: seq<Op>, b: seq<Op>)
    ensures Run(w, a + b) == Run(Run(w, a), b)
    decreases |a|
  {
    hide Step;
    if a == [] {
      assert a + b == b;
    } else {
      assert (a + b)[1..] == a[1..] + b;
      RunJoins(Step(w, a[0]), a[1..], b);
    }
  }

  /** `_waiting`. */
  predicate Waiting(w: World, id: nat)
  {
    id in w.records && w.records[id].state.AwaitingApproval? && !w.records[id].invalidated
  }

  /** An invalidation that commits between the two steps is not noticed: the record ends
      complete, though it does not count any more. */
  lemma RejectedThoughInvalid(w: World, id: nat)
    requires Inv(w) && Waiting(w, id)
    ensures var between := Run(w, [Invalidate({id})]);
            && Inv(between) && Accepts(between, Ledger.Reject(id))
            && var after := Step(between, Ledger.Reject(id));
               id in after.records && after.records[id].state.Complete? && after.records[id].invalidated
  {
    hide Inv;
    RunKeepsInv(w, [Invalidate({id})]);
    OneStep(w, Invalidate({id}));
  }

  lemma NoClaims(ops: seq<Op>, id: nat, token: nat)
    requires AllForeign(ops, id, token)
    ensures forall k :: 0 <= k < |ops| ==> !Claims(ops[k], id, token)
  {
  }

  lemma GuardedIsHeld(w: World, ctx: Ctx, id: nat)
    requires Guarded(w, ctx, id, FixingDatetime)
    ensures HeldBy(w, id, ctx.token) && w.records[id].state.FixingDatetime?
  {
  }

  lemma {:induction false} NextRecordGrows(w: World, ops: seq<Op>)
    requires Inv(w)
    ensures w.nextRecord <= Run(w, ops).nextRecord
    decreases |ops|
  {
    hide Inv, Step;
    if ops != [] {
      StepKeepsInv(w, ops[0]);
      StepIsOrderly(w, ops[0]);
      NextRecordGrows(Step(w, ops[0]), ops[1..]);
    }
  }

  lemma RejectStep(w: World, id: nat)
    ensures Step(w, Ledger.Reject(id)) ==
              if id in w.records && w.records[id].state.AwaitingApproval?
              then w.(records := w.records[id := w.records[id].(state := Complete)]) else w
  {
  }

  lemma OneStep(w: World, op: Op)
    ensures Run(w, [op]) == Step(w, op)
  {
    assert Run(w, [op]) == Run(Step(w, op), [op][1..]);
  }

  lemma Refused(w: World, op: Op)
    requires !Accepts(w, op)
    ensures Step(w, op) == w
  {
  }

  /** What an accepted guard guarantees right after it. */
  lemma GuardHolds(w: World, ctx: Ctx, id: nat)
    requires Inv(w) && Accepts(w, Prepare(ctx, id, FixingDatetime, true))
    ensures Guarded(Step(w, Prepare(ctx, id, FixingDatetime, true)), ctx, id, FixingDatetime)
  {
    RecordIsOk(w, id);
  }

  lemma Finished(w: World, ctx: Ctx, id: nat)
    requires Inv(w) && Accepts(w, FinishRecord(ctx, true, id, Complete, FixingDatetime, Keep))
    ensures var after := Step(w, FinishRecord(ctx, true, id, Complete, FixingDatetime, Keep));
            id in after.records && after.records[id].state.Complete? && !HeldBy(after, id, ctx.token)
  {
  }

  lemma Released(w: World, id: nat, token: nat)
    requires Inv(w)
    ensures !HeldBy(Step(w, ReleaseFromApproval(id, token)), id, token)
  {
  }

  // ----- the reset

  datatype Staging = Unpublished | Published

  /** A row of `artifact_staging`, as far as the reset looks at it. */
  datatype StagingRow = StagingRow(state: Staging, job: nat)

  predicate MayReset(w: World, staging: map<nat, StagingRow>)
  {
    && (forall j :: j in w.jobs.jobs ==> !w.jobs.jobs[j].status.Live())
    && (forall s :: s in staging ==> staging[s].state.Published?)
    && (forall id :: id in w.records ==> !w.records[id].state.Active())
  }

  /** No row keeps a job from being deleted. */
  predicate NothingPointsAtJobs(w: World, staging: map<nat, StagingRow>)
  {
    && staging == map[]
    && forall id :: id in w.records ==> w.records[id].claim.Unclaimed?
  }

  function WithoutPublished(staging: map<nat, StagingRow>): map<nat, StagingRow>
  {
    map s | s in staging && !staging[s].state.Published? :: staging[s]
  }

  /** Once the guards have passed and the published staging rows are gone, no row points
      at a job any more; and exactly the last two guards are needed for that. */
  lemma ResetFreesJobs(w: World, staging: map<nat, StagingRow>)
    requires Inv(w)
    ensures MayReset(w, staging) ==> NothingPointsAtJobs(w, WithoutPublished(staging))
    ensures NothingPointsAtJobs(w, WithoutPublished(staging)) <==>
              && (forall s :: s in staging ==> staging[s].state.Published?)
              && (forall id :: id in w.records ==> !w.records[id].state.Active())
  {
    hide Inv;
    forall id | id in w.records ensures w.records[id].claim.Unclaimed? <==> !w.records[id].state.Active() {
      RecordIsOk(w, id);
    }
    if WithoutPublished(staging) == map[] {
      forall s | s in staging ensures staging[s].state.Published? {
        assert s !in WithoutPublished(staging);
      }
    }
  }

  /** What the first two scopes of the reset leave. */
  function Reset(w: World, staging: map<nat, StagingRow>, uploadsToo: bool): World
    requires MayReset(w, staging)
  {
    w.(jobs := w.jobs.(jobs := map[]), records := if uploadsToo then map[] else w.records)
  }

  /** The ledger stays in order, and nothing claimed is lost sight of. */
  lemma ResetKeepsInv(w: World, staging: map<nat, StagingRow>, uploadsToo: bool)
    requires Inv(w) && MayReset(w, staging)
    ensures Inv(Reset(w, staging, uploadsToo))
    ensures NothingPointsAtJobs(Reset(w, staging, uploadsToo), WithoutPublished(staging))
  {
    ResetFreesJobs(w, staging);
  }
}
