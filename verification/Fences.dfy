/** What a commit shuts out for good: the old library after a destination was
    pointed elsewhere, and the token of a job that was cancelled or lost its lease. */
module Fences {
  import J = Jobs
  import opened Ledger
  import opened LedgerSafety

  // ----- the destination's epoch

  predicate IsOld(w: World, id: nat)
  {
    id in w.records && w.records[id].epoch < w.targets.Epoch(w.records[id].dest)
  }

  /** Operations that claim the record, let its owner touch the remote side, commit
      the result of having done so, or record it in a stack. */
  predicate Sends(op: Op, id: nat)
  {
    match op
    case ClaimNext(_, _, i) => i == id
    case ClaimForApproval(_, i) => i == id
    case Prepare(_, i, _, _) => i == id
    case ExtendClaim(i, _) => i == id
    case Advance(_, _, i, _, _, _) => i == id
    case FinishRecord(_, _, i, _, _, _) => i == id
    case MarkStacked(_, members, _, _, _, _, _) => IsMember(members, id)
    case MarkSkipped(_, member, _, _, _, _) => member.id == id
    case _ => false
  }

  lemma OldIsNotSent(w: World, op: Op, id: nat)
    requires Inv(w) && IsOld(w, id) && Sends(op, id)
    // a stack is recorded for the destination its members belong to
    requires op.MarkStacked? ==> op.dest == w.records[id].dest
    requires op.MarkSkipped? ==> op.dest == w.records[id].dest
    ensures !Accepts(w, op)
  {
    hide Inv;
    RecordIsOk(w, id);
  }

  /** One step seen from outside: identities never change, no number is used twice,
      a claim is only ever taken by one of the two claiming operations. */
  ghost predicate Orderly(before: World, after: World, op: Op)
  {
    && before.nextRecord <= after.nextRecord
    && (forall id :: id in after.records && id < before.nextRecord ==>
          && id in before.records && SameRecord(before.records[id], after.records[id])
          && (after.records[id].claim.ClaimedBy? ==>
                || (before.records[id].claim.ClaimedBy? && before.records[id].claim.token == after.records[id].claim.token)
                || Claims(op, id, after.records[id].claim.token)))
  }

  /** The same records with the same owners. */
  ghost predicate SameOwners(before: map<nat, Record>, after: map<nat, Record>)
  {
    && after.Keys == before.Keys
    && forall id :: id in after ==> SameRecord(before[id], after[id]) && after[id].claim == before[id].claim
  }

  lemma StampOneIsOrderly(records: map<nat, Record>, s: Stamp, at: nat)
    ensures SameOwners(records, StampOne(records, s, at))
  {
  }

  lemma {:induction false} StampAllIsOrderly(records: map<nat, Record>, stamps: seq<Stamp>, at: nat)
    ensures SameOwners(records, StampAll(records, stamps, at))
    decreases |stamps|
  {
    hide StampOne;
    if stamps != [] {
      var earlier := StampAll(records, stamps[..|stamps| - 1], at);
      StampAllIsOrderly(records, stamps[..|stamps| - 1], at);
      StampOneIsOrderly(earlier, stamps[|stamps| - 1], at);
    }
  }

  predicate TouchesNoRecord(op: Op)
  {
    op.JobOp? || op.StageArtifact? || op.CreateDestination? || op.SetEnabled? || op.Archive? || op.PurgeSelect?
    || op.PurgeOne? || op.EditProfile?
  }

  predicate TouchesMany(op: Op)
  {
    op.Invalidate? || op.InvalidateOldEpoch? || op.DeleteRecordsOf? || op.ReleaseInterrupted? || op.RequeueSent?
    || op.ReopenSkipped? || op.MarkStacked? || op.ReopenStacks? || op.StampMany?
  }

  predicate MayAddOne(op: Op) { op.AddRevision? || op.Pair? || op.Advance? || op.FinishRecord? }

  lemma BulkIsOrderly(w: World, op: Op)
    requires Accepts(w, op)
    requires TouchesMany(op)
    requires forall id :: id in w.records ==> id < w.nextRecord
    ensures Orderly(w, Effect(w, op), op)
  {
    hide Accepts, StampAll;
    if op.StampMany? { StampAllIsOrderly(w.records, op.stamps, op.at); }
  }

  lemma NoneIsOrderly(w: World, op: Op)
    requires Accepts(w, op) && TouchesNoRecord(op)
    requires forall id :: id in w.records ==> id < w.nextRecord
    ensures Orderly(w, Effect(w, op), op)
  {
    hide Accepts, Superseded;
  }

  lemma AddedIsOrderly(w: World, op: Op)
    requires Accepts(w, op) && MayAddOne(op)
    requires forall id :: id in w.records ==> id < w.nextRecord
    ensures Orderly(w, Effect(w, op), op)
  {
    if op.Advance? || op.FinishRecord? {
      WriteIsOrderly(w, op);
    }
  }

  lemma WriteIsOrderly(w: World, op: Op)
    requires Accepts(w, op) && (op.Advance? || op.FinishRecord?)
    requires forall id :: id in w.records ==> id < w.nextRecord
    ensures Orderly(w, Effect(w, op), op)
  {
  }

  lemma OneIsOrderly(w: World, op: Op)
    requires Accepts(w, op) && !TouchesNoRecord(op) && !TouchesMany(op) && !MayAddOne(op)
    requires forall id :: id in w.records ==> id < w.nextRecord
    ensures Orderly(w, Effect(w, op), op)
  {
  }

  lemma StepIsOrderly(w: World, op: Op)
    requires Inv(w)
    ensures Orderly(w, Step(w, op), op)
  {
    hide Effect, Accepts;
    if Accepts(w, op) {
      if TouchesMany(op) {
        BulkIsOrderly(w, op);
      } else if TouchesNoRecord(op) {
        NoneIsOrderly(w, op);
      } else if MayAddOne(op) {
        AddedIsOrderly(w, op);
      } else {
        OneIsOrderly(w, op);
      }
    }
  }

  lemma EpochsGrow(w: World, op: Op, d: nat)
    requires Inv(w) && d in w.targets.dests
    ensures w.targets.Epoch(d) <= Step(w, op).targets.Epoch(d) && d in Step(w, op).targets.dests
  {
    CurrentIsOk(w, d);
    CurrentIsBelow(w, d);
    if Accepts(w, op) {
      TargetsGrow(w, op, d);
    }
  }

  lemma CurrentIsBelow(w: World, d: nat)
    requires Inv(w) && d in w.targets.dests
    ensures w.targets.dests[d].current < w.targets.nextRev
  {
  }

  lemma TargetsGrow(w: World, op: Op, d: nat)
    requires Accepts(w, op) && d in w.targets.dests
    requires w.targets.dests[d].current in w.targets.revs && w.targets.dests[d].current < w.targets.nextRev
    ensures w.targets.Epoch(d) <= Effect(w, op).targets.Epoch(d) && d in Effect(w, op).targets.dests
  {
    if !op.AddRevision? {
      assert d in Effect(w, op).targets.dests;
      assert Effect(w, op).targets.dests[d].current == w.targets.dests[d].current;
    }
  }

  /** The epoch fence: once a destination's epoch has passed that of a record, then in
      every later run the record is never claimed, never passes the guard of a side
      effect, commits nothing as an owner and is never put into a stack. */
  lemma {:induction false} EpochFence(w: World, ops: seq<Op>, op: Op, id: nat)
    requires Inv(w) && IsOld(w, id) && Sends(op, id)
    requires op.MarkStacked? ==> op.dest == w.records[id].dest
    requires op.MarkSkipped? ==> op.dest == w.records[id].dest
    ensures !Accepts(Run(w, ops), op)
    decreases |ops|
  {
    if ops == [] {
      OldIsNotSent(w, op, id);
    } else {
      var next := Step(w, ops[0]);
      StepKeepsInv(w, ops[0]);
      StepIsOrderly(w, ops[0]);
      RecordIsOk(w, id);
      EpochsGrow(w, ops[0], w.records[id].dest);
      if id in next.records {
        EpochFence(next, ops[1..], op, id);
      } else {
        GoneStaysGone(next, ops[1..], id);
        RunKeepsInv(next, ops[1..]);
        GoneIsNotSent(Run(w, ops), op, id);
      }
    }
  }

  lemma {:induction false} GoneStaysGone(w: World, ops: seq<Op>, id: nat)
    requires Inv(w) && id !in w.records && id < w.nextRecord
    ensures id !in Run(w, ops).records
    decreases |ops|
  {
    if ops != [] {
      StepKeepsInv(w, ops[0]);
      StepIsOrderly(w, ops[0]);
      GoneStaysGone(Step(w, ops[0]), ops[1..], id);
    }
  }

  lemma GoneIsNotSent(w: World, op: Op, id: nat)
    requires id !in w.records && Sends(op, id)
    ensures !Accepts(w, op)
  {
  }

  /** The commit that raises the epoch is what closes the fence, for every record the
      destination has. */
  lemma RaisingClosesTheFence(w: World, op: Op, id: nat)
    requires Inv(w) && op.AddRevision? && Accepts(w, op)
    requires w.targets.Epoch(op.dest) < Effect(w, op).targets.Epoch(op.dest)
    requires id in w.records && w.records[id].dest == op.dest
    ensures Inv(Step(w, op)) && IsOld(Step(w, op), id)
    ensures Step(w, op).records[id].invalidated || w.records[id].state.Complete?
  {
    StepKeepsInv(w, op);
    RecordIsOk(w, id);
  }

  /** A record being sent, or waiting for an approval, keeps the key of the revision it
      is pinned to, however purges interleave with claims. */
  lemma CredentialKept(w: World, ops: seq<Op>, id: nat)
    requires Inv(w)
    ensures var after := Run(w, ops);
            id in after.records && after.records[id].state.InFlight() ==>
              && after.records[id].revision.Some? && after.records[id].revision.value !in after.targets.purged
  {
    RunKeepsInv(w, ops);
    if id in Run(w, ops).records { RecordIsOk(Run(w, ops), id); }
  }

  // ----- the token of a job

  /** Operations that may change the outside world, or record that it was changed,
      in the name of a token. */
  predicate GuardedBy(op: Op, token: nat)
  {
    match op
    case StageArtifact(ctx) => ctx.token == token
    case Prepare(ctx, _, _, _) => ctx.token == token
    case Advance(ctx, owned, _, _, _, _) => owned && ctx.token == token
    case FinishRecord(ctx, owned, _, _, _, _) => owned && ctx.token == token
    case StampMany(ctx, _, _) => ctx.token == token
    case MarkStacked(ctx, _, _, _, _, _, _) => ctx.token == token
    case MarkSkipped(ctx, _, _, _, _, _) => ctx.token == token
    case ReopenStacks(ctx, _, _, _) => ctx.token == token
    case _ => false
  }

  function JobOps(ops: seq<Op>): seq<J.Op>
  {
    if ops == [] then []
    else (if ops[0].JobOp? then [ops[0].op] else []) + JobOps(ops[1..])
  }

  lemma StepOfJobs(w: World, op: Op)
    ensures Step(w, op).jobs == if op.JobOp? then J.Step(w.jobs, op.op) else w.jobs
  {
  }

  /** Nothing but job operations touches the job table. */
  lemma {:induction false} RunOfJobs(w: World, ops: seq<Op>)
    ensures Run(w, ops).jobs == J.Run(w.jobs, JobOps(ops))
    decreases |ops|
  {
    if ops != [] {
      RunOfJobs(Step(w, ops[0]), ops[1..]);
      StepOfJobs(w, ops[0]);
      if ops[0].JobOp? {
        assert JobOps(ops) == [ops[0].op] + JobOps(ops[1..]);
        assert JobOps(ops)[0] == ops[0].op && JobOps(ops)[1..] == JobOps(ops[1..]);
      } else {
        assert JobOps(ops) == [] + JobOps(ops[1..]);
        assert [] + JobOps(ops[1..]) == JobOps(ops[1..]);
      }
    }
  }

  /** The cancellation fence: once the cancel of a running job has committed, no later
      run lets its token stage a file, pass the guard of a side effect, commit the
      result of one, or touch a stack; and the job never ends as succeeded. */
  lemma CancelFence(w: World, job: nat, token: nat, ops: seq<Op>, op: Op)
    requires Inv(w) && J.Holds(w.jobs, job, token) && w.jobs.jobs[job].status.Running?
    requires GuardedBy(op, token)
    ensures var after := Run(Step(w, JobOp(J.RequestCancel(job))), ops);
            && !Accepts(after, op)
            && job in after.jobs.jobs && !after.jobs.jobs[job].status.Succeeded?
  {
    var cancelled := Step(w, JobOp(J.RequestCancel(job)));
    J.CancelIsDeath(w.jobs, job, token);
    DeadTokenFence(cancelled, token, ops, op);
    RunOfJobs(cancelled, ops);
    J.CancelledNeverSucceeds(cancelled.jobs, JobOps(ops), job);
  }

  /** The same holds once the lease has run out. */
  lemma ExpiryFence(w: World, job: nat, token: nat, ops: seq<Op>, op: Op)
    requires Inv(w) && J.Holds(w.jobs, job, token) && w.jobs.jobs[job].lease.expires <= w.jobs.now
    requires GuardedBy(op, token)
    ensures !Accepts(Run(w, ops), op)
  {
    J.ExpiryIsDeath(w.jobs, job, token);
    DeadTokenFence(w, token, ops, op);
  }

  lemma DeadTokenFence(w: World, token: nat, ops: seq<Op>, op: Op)
    requires J.Dead(w.jobs, token) && GuardedBy(op, token)
    ensures !Accepts(Run(w, ops), op)
  {
    RunOfJobs(w, ops);
    J.DeadStaysDead(w.jobs, JobOps(ops), token);
    var after := Run(w, ops);
    forall job ensures !J.LeaseValid(after.jobs, job, token) {
      if job !in after.jobs.jobs { assert !J.Holds(after.jobs, job, token); }
    }
  }

  // ----- approval and rejection

  predicate HeldBy(w: World, id: nat, token: nat)
  {
    id in w.records && w.records[id].claim.ClaimedBy? && w.records[id].claim.token == token
  }

  predicate Claims(op: Op, id: nat, token: nat)
  {
    || (op.ClaimNext? && op.id == id && op.ctx.token == token)
    || (op.ClaimForApproval? && op.id == id && op.ctx.token == token)
  }

  /** A token that does not hold a record gets it only by claiming it. */
  lemma {:induction false} NotHeldStaysNotHeld(w: World, ops: seq<Op>, id: nat, token: nat)
    requires Inv(w) && !HeldBy(w, id, token) && id < w.nextRecord
    requires forall k :: 0 <= k < |ops| ==> !Claims(ops[k], id, token)
    ensures !HeldBy(Run(w, ops), id, token)
    decreases |ops|
  {
    hide Inv, Step;
    if ops != [] {
      StepKeepsInv(w, ops[0]);
      StepIsOrderly(w, ops[0]);
      NotHeldStaysNotHeld(Step(w, ops[0]), ops[1..], id, token);
    }
  }

  /** A rejection that goes through shuts out the approval that was under way: unless
      that job claims the record anew, it can commit nothing for it. And while an
      approval holds the record, a rejection is refused. */
  lemma RejectionExcludesApproval(w: World, id: nat, ctx: Ctx, ops: seq<Op>, op: Op)
    requires Inv(w) && Accepts(w, Reject(id))
    requires forall k :: 0 <= k < |ops| ==> !Claims(ops[k], id, ctx.token)
    requires op.FinishRecord? && op.id == id && op.ctx == ctx
    ensures !Accepts(Run(Step(w, Reject(id)), ops), op)
  {
    hide Inv;
    RecordIsOk(w, id);
    StepKeepsInv(w, Reject(id));
    IdBelow(w, id);
    NotHeldStaysNotHeld(Step(w, Reject(id)), ops, id, ctx.token);
  }

  lemma IdBelow(w: World, id: nat)
    requires Inv(w) && id in w.records
    ensures id < w.nextRecord
  {
  }

  lemma ApprovalExcludesRejection(w: World, id: nat, ctx: Ctx)
    requires Inv(w) && Accepts(w, ClaimForApproval(ctx, id))
    ensures var held := Step(w, ClaimForApproval(ctx, id));
            && HeldBy(held, id, ctx.token) && !Accepts(held, Reject(id))
  {
    hide Inv;
  }

  lemma HeldIsNotRejected(w: World, id: nat, token: nat)
    requires Inv(w) && HeldBy(w, id, token)
    ensures !Accepts(w, Reject(id))
  {
    RecordIsOk(w, id);
  }
}
