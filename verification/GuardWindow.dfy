/** What a guard is worth once its transaction is over: the remote side is written after
    it, outside of any transaction, and others commit in between. */
module GuardWindow {
  import opened Options
  import J = Jobs
  import opened Ledger
  import opened LedgerSafety
  import opened Fences

  /** What an accepted guard has just established. */
  predicate Guarded(w: World, ctx: Ctx, id: nat, state: State)
  {
    Leased(w, ctx) && Owns(w, id, ctx.token, true) && !IsOld(w, id) && w.records[id].state == state
  }

  /** Not written in the name of the token: a job runs on one thread, and while it talks to
      the remote side only its heartbeats go on. */
  predicate Foreign(op: Op, id: nat, token: nat)
  {
    && !Claims(op, id, token)
    && match op
       case Advance(ctx, _, i, _, _, _) => i != id || ctx.token != token
       case FinishRecord(ctx, _, i, _, _, _) => i != id || ctx.token != token
       case ReleaseTo(i, t, _) => i != id || t != token
       case Refuse(i, t) => i != id || t != token
       case ReleaseFromApproval(i, t) => i != id || t != token
       case _ => true
  }

  predicate AllForeign(ops: seq<Op>, id: nat, token: nat)
  {
    forall k :: 0 <= k < |ops| ==> Foreign(ops[k], id, token)
  }

  /** Operations on jobs that end a valid lease. */
  predicate EndsLease(t: J.Table, op: J.Op, ctx: Ctx)
  {
    match op
    case RequestCancel(job) => job == ctx.job
    case SweepInterrupted => true
    case Finish(job, token) => job == ctx.job && token == ctx.token
    case FinishClaimed(job, token) => job == ctx.job && token == ctx.token
    case Tick(seconds) =>
      ctx.job in t.jobs && t.jobs[ctx.job].lease.Lease? && t.jobs[ctx.job].lease.expires <= t.now + seconds
    case _ => false
  }

  predicate Raises(w: World, op: Op, dest: nat)
  {
    && op.AddRevision? && op.dest == dest && Accepts(w, op)
    && w.targets.Epoch(dest) <
         NextEpoch(w.targets.revs[w.targets.dests[dest].current], op.user, op.host, op.sameLibrary).value
  }

  /** Operations that take the record out of the hands of its owner. */
  predicate Takes(r: Record, op: Op)
  {
    op.ReleaseInterrupted? || (op.DeleteRecordsOf? && op.media == r.media)
  }

  /** Operations that set `invalidated_at`. */
  predicate Hits(w: World, op: Op, id: nat)
    requires id in w.records
  {
    match op
    case Invalidate(ids) => id in ids
    case InvalidateOldEpoch(dest, epoch) => id in OldEpochIds(w.records, dest, epoch)
    case AddRevision(dest, user, host, same) =>
      && Raises(w, op, dest)
      && id in OldEpochIds(w.records, dest, NextEpoch(w.targets.revs[w.targets.dests[dest].current], user, host, same).value)
    case _ => false
  }

  /** What undoes a guard: the cancel or the end of the job, a lease or a claim that runs
      out, an edit of the destination that raises the epoch, an invalidation, and what takes
      the record away. */
  predicate Breaks(w: World, op: Op, ctx: Ctx, id: nat)
  {
    match op
    case JobOp(j) =>
      || EndsLease(w.jobs, j, ctx)
      || (j.Tick? && id in w.records && w.records[id].claim.ClaimedBy?
          && w.records[id].claim.expires <= w.jobs.now + j.seconds)
    case AddRevision(dest, _, _, _) => id in w.records && dest == w.records[id].dest && Raises(w, op, dest)
    case Invalidate(ids) => id in ids
    case InvalidateOldEpoch(dest, epoch) => id in w.records && dest == w.records[id].dest && w.records[id].epoch < epoch
    case _ => id in w.records && Takes(w.records[id], op)
  }

  predicate NeverBroken(w: World, ops: seq<Op>, ctx: Ctx, id: nat)
    decreases |ops|
  {
    ops == [] || (!Breaks(w, ops[0], ctx, id) && NeverBroken(Step(w, ops[0]), ops[1..], ctx, id))
  }

  // ----- one step

  lemma LeaseStep(t: J.Table, op: J.Op, ctx: Ctx)
    requires J.Inv(t) && J.LeaseValid(t, ctx.job, ctx.token)
    ensures EndsLease(t, op, ctx) ==> J.Dead(J.Step(t, op), ctx.token)
    ensures !EndsLease(t, op, ctx) ==> J.LeaseValid(J.Step(t, op), ctx.job, ctx.token)
  {
    forall other | other in t.jobs && other != ctx.job ensures !J.Holds(t, other, ctx.token) {
      assert J.TokensDiffer(t.jobs[other].lease, t.jobs[ctx.job].lease);
    }
  }

  predicate Renews(w: World, op: Op, id: nat)
  {
    Accepts(w, op) && ((op.ExtendClaim? && op.id == id) || (op.Prepare? && op.id == id))
  }

  /** What becomes of a record that is being worked on. */
  ghost predicate Follows(w: World, after: World, op: Op, id: nat, token: nat)
    requires HeldBy(w, id, token)
  {
    var r := w.records[id];
    if Takes(r, op) then !HeldBy(after, id, token)
    else
      && HeldBy(after, id, token)
      && SameRecord(r, after.records[id]) && after.records[id].state == r.state && after.records[id].revision == r.revision
      && after.records[id].invalidated == (r.invalidated || Hits(w, op, id))
      && after.records[id].claim ==
           if Renews(w, op, id) then r.claim.(expires := w.jobs.now + J.LEASE_SECONDS) else r.claim
  }

  lemma NoneFollows(w: World, op: Op, id: nat, token: nat)
    requires Accepts(w, op) && HeldBy(w, id, token) && TouchesNoRecord(op)
    ensures Follows(w, Effect(w, op), op, id, token)
  {
    hide Accepts, Superseded;
  }

  lemma ReopenFollows(records: map<nat, Record>, other: nat, asset: Field, id: nat)
    requires other in records && id in records
    ensures var after := BeforeAssetChange(records, other, asset);
            id in after && after[id] == records[id].(stack := after[id].stack) && other in after
  {
  }

  lemma AddedFollows(w: World, op: Op, id: nat, token: nat)
    requires Accepts(w, op) && HeldBy(w, id, token) && MayAddOne(op) && Foreign(op, id, token)
    requires w.records[id].state.Active() && id < w.nextRecord
    ensures Follows(w, Effect(w, op), op, id, token)
  {
    hide ReopenStackOf, OldEpochIds, BeforeAssetChange;
    if op.Advance? || op.FinishRecord? { ReopenFollows(w.records, op.id, op.asset, id); }
  }

  lemma {:induction false} StampsFollow(records: map<nat, Record>, stamps: seq<Stamp>, at: nat, id: nat)
    requires id in records && records[id].state.Active()
    ensures var after := StampAll(records, stamps, at);
            id in after && after[id] == records[id].(stack := after[id].stack)
    decreases |stamps|
  {
    hide ReopenStackOf;
    if stamps != [] {
      StampsFollow(records, stamps[..|stamps| - 1], at, id);
      var earlier := StampAll(records, stamps[..|stamps| - 1], at);
      var s := stamps[|stamps| - 1];
      if StillSo(earlier, s) { ReopenFollows(earlier, s.id, Set(s.asset), id); }
    }
  }

  lemma BulkFollows(w: World, op: Op, id: nat, token: nat)
    requires Accepts(w, op) && HeldBy(w, id, token) && TouchesMany(op) && w.records[id].state.Active()
    ensures Follows(w, Effect(w, op), op, id, token)
  {
    hide Accepts, StampAll;
    if op.StampMany? { StampsFollow(w.records, op.stamps, op.at, id); }
  }

  lemma OneFollows(w: World, op: Op, id: nat, token: nat)
    requires Accepts(w, op) && HeldBy(w, id, token) && Foreign(op, id, token) && w.records[id].state.Active()
    requires !TouchesNoRecord(op) && !TouchesMany(op) && !MayAddOne(op)
    ensures Follows(w, Effect(w, op), op, id, token)
  {
  }

  lemma HeldFollows(w: World, op: Op, id: nat, token: nat)
    requires Inv(w) && HeldBy(w, id, token) && Foreign(op, id, token) && w.records[id].state.Active()
    ensures Follows(w, Step(w, op), op, id, token)
  {
    hide Effect, Follows;
    if Accepts(w, op) {
      IdBelow(w, id);
      if TouchesMany(op) {
        BulkFollows(w, op, id, token);
      } else if TouchesNoRecord(op) {
        NoneFollows(w, op, id, token);
      } else if MayAddOne(op) {
        AddedFollows(w, op, id, token);
      } else {
        OneFollows(w, op, id, token);
      }
    } else {
      RefusedFollows(w, op, id, token);
    }
  }

  lemma RefusedFollows(w: World, op: Op, id: nat, token: nat)
    requires HeldBy(w, id, token) && !Accepts(w, op)
    ensures Follows(w, w, op, id, token)
  {
  }

  // ----- the guard

  /** A guard that is gone for good. */
  predicate Broken(w: World, ctx: Ctx, id: nat)
  {
    || J.Dead(w.jobs, ctx.token) || !HeldBy(w, id, ctx.token) || IsOld(w, id)
    || w.records[id].claim.expires <= w.jobs.now || w.records[id].invalidated
  }

  lemma EpochStep(w: World, op: Op, dest: nat)
    requires Inv(w) && dest in w.targets.dests
    ensures Raises(w, op, dest) ==> w.targets.Epoch(dest) < Step(w, op).targets.Epoch(dest)
    ensures !Raises(w, op, dest) ==> Step(w, op).targets.Epoch(dest) == w.targets.Epoch(dest)
  {
    CurrentIsOk(w, dest);
    CurrentIsBelow(w, dest);
    if Accepts(w, op) { EpochEffect(w, op, dest); }
  }

  lemma EpochEffect(w: World, op: Op, dest: nat)
    requires Accepts(w, op) && dest in w.targets.dests
    requires w.targets.dests[dest].current in w.targets.revs && w.targets.dests[dest].current < w.targets.nextRev
    ensures Raises(w, op, dest) ==> w.targets.Epoch(dest) < Effect(w, op).targets.Epoch(dest)
    ensures !Raises(w, op, dest) ==> Effect(w, op).targets.Epoch(dest) == w.targets.Epoch(dest)
  {
    if op.AddRevision? {
      hide InvalidatedWhere, OldEpochIds;
    } else {
      hide Accepts, Superseded;
      EpochSame(w, op, dest);
    }
  }

  lemma EpochSame(w: World, op: Op, dest: nat)
    requires Accepts(w, op) && !op.AddRevision? && dest in w.targets.dests
    requires w.targets.dests[dest].current in w.targets.revs && w.targets.dests[dest].current < w.targets.nextRev
    ensures Effect(w, op).targets.Epoch(dest) == w.targets.Epoch(dest)
  {
    var after := Effect(w, op).targets;
    assert dest in after.dests && after.dests[dest].current == w.targets.dests[dest].current;
    var v := w.targets.dests[dest].current;
    assert v in after.revs && after.revs[v] == w.targets.revs[v];
  }

  lemma RaisesOwn(w: World, op: Op, dest: nat)
    requires Raises(w, op, dest)
    ensures op.AddRevision? && op.dest == dest
  {
  }

  /** An edit or a sweep invalidates the record exactly if it passes its epoch. */
  lemma HitsIs(w: World, op: Op, id: nat)
    requires Inv(w) && id in w.records && w.records[id].state.Active() && !w.records[id].invalidated
    ensures Hits(w, op, id) <==>
              match op
              case Invalidate(ids) => id in ids
              case InvalidateOldEpoch(dest, epoch) => dest == w.records[id].dest && w.records[id].epoch < epoch
              case AddRevision(dest, _, _, _) => dest == w.records[id].dest && Raises(w, op, dest)
              case _ => false
  {
    RecordIsOk(w, id);
  }

  lemma StepGuard(w: World, op: Op, ctx: Ctx, id: nat, state: State)
    requires Inv(w) && Guarded(w, ctx, id, state) && state.Active() && Foreign(op, id, ctx.token)
    ensures if Breaks(w, op, ctx, id) then Broken(Step(w, op), ctx, id) else Guarded(Step(w, op), ctx, id, state)
  {
    hide Step, Inv, Accepts, Hits, Raises, RecordOk, OldEpochIds;
    HeldFollows(w, op, id, ctx.token);
    HitsIs(w, op, id);
    StepOfJobs(w, op);
    JobsOk(w);
    if op.JobOp? { LeaseStep(w.jobs, op.op, ctx); NowIs(w.jobs, op.op); }
    DestKnown(w, id);
    EpochStep(w, op, w.records[id].dest);
    if Raises(w, op, w.records[id].dest) { RaisesOwn(w, op, w.records[id].dest); }
  }

  lemma NowIs(t: J.Table, op: J.Op)
    ensures J.Step(t, op).now == if op.Tick? then t.now + op.seconds else t.now
  {
  }

  lemma DestKnown(w: World, id: nat)
    requires Inv(w) && id in w.records
    ensures w.records[id].dest in w.targets.dests && w.records[id].epoch <= w.targets.Epoch(w.records[id].dest)
  {
    RecordIsOk(w, id);
  }

  lemma JobsOk(w: World)
    requires Inv(w)
    ensures J.Inv(w.jobs)
  {
  }

  /** No foreign step mends a guard. */
  lemma BrokenStays(w: World, op: Op, ctx: Ctx, id: nat)
    requires Inv(w) && Broken(w, ctx, id) && Foreign(op, id, ctx.token) && id < w.nextRecord
    ensures Broken(Step(w, op), ctx, id)
  {
    hide Step, Inv, Accepts, Hits, Raises, RecordOk, OldEpochIds, J.Dead;
    StepOfJobs(w, op);
    if J.Dead(w.jobs, ctx.token) {
      if op.JobOp? { DeadStep(w.jobs, op.op, ctx.token); }
    } else if !HeldBy(w, id, ctx.token) {
      StepIsOrderly(w, op);
    } else {
      ActiveIsHeld(w, id);
      HeldFollows(w, op, id, ctx.token);
      if op.JobOp? { NowIs(w.jobs, op.op); }
      DestKnown(w, id);
      EpochsGrow(w, op, w.records[id].dest);
      if w.records[id].claim.expires <= w.jobs.now { ExpiredIsNotRenewed(w, op, id); }
    }
  }

  lemma DeadStep(t: J.Table, op: J.Op, token: nat)
    requires J.Dead(t, token)
    ensures J.Dead(J.Step(t, op), token)
  {
    J.DeadStaysDead(t, [op], token);
    assert J.Run(J.Step(t, op), [op][1..]) == J.Step(t, op);
  }

  lemma ActiveIsHeld(w: World, id: nat)
    requires Inv(w) && id in w.records
    ensures w.records[id].state.Active() <==> w.records[id].claim.ClaimedBy?
  {
    RecordIsOk(w, id);
  }

  lemma ExpiredIsNotRenewed(w: World, op: Op, id: nat)
    requires id in w.records && w.records[id].claim.ClaimedBy? && w.records[id].claim.expires <= w.jobs.now
    ensures !Renews(w, op, id)
  {
  }

  /** A guard stands at the end of a run exactly if nothing in the run breaks it. */
  lemma {:induction false} GuardHoldsIff(w: World, ops: seq<Op>, ctx: Ctx, id: nat, state: State)
    requires Inv(w) && Guarded(w, ctx, id, state) && state.Active() && AllForeign(ops, id, ctx.token)
    ensures Guarded(Run(w, ops), ctx, id, state) <==> NeverBroken(w, ops, ctx, id)
    decreases |ops|
  {
    hide Step, Inv, Guarded, Broken, Breaks;
    if ops != [] {
      StepKeepsInv(w, ops[0]);
      StepGuard(w, ops[0], ctx, id, state);
      if Breaks(w, ops[0], ctx, id) {
        GuardedIsBelow(w, ctx, id, state);
        NextRecordStep(w, ops[0]);
        RunBroken(Step(w, ops[0]), ops[1..], ctx, id);
        BrokenIsNotGuarded(Run(w, ops), ctx, id, state);
      } else {
        GuardHoldsIff(Step(w, ops[0]), ops[1..], ctx, id, state);
      }
    }
  }

  lemma GuardedIsBelow(w: World, ctx: Ctx, id: nat, state: State)
    requires Inv(w) && Guarded(w, ctx, id, state)
    ensures id < w.nextRecord
  {
  }

  lemma NextRecordStep(w: World, op: Op)
    requires Inv(w)
    ensures w.nextRecord <= Step(w, op).nextRecord
  {
    StepIsOrderly(w, op);
  }

  lemma {:induction false} RunBroken(w: World, ops: seq<Op>, ctx: Ctx, id: nat)
    requires Inv(w) && Broken(w, ctx, id) && AllForeign(ops, id, ctx.token) && id < w.nextRecord
    ensures Broken(Run(w, ops), ctx, id)
    decreases |ops|
  {
    hide Step, Inv, Broken;
    if ops != [] {
      StepKeepsInv(w, ops[0]);
      BrokenStays(w, ops[0], ctx, id);
      NextRecordStep(w, ops[0]);
      RunBroken(Step(w, ops[0]), ops[1..], ctx, id);
    }
  }

  lemma BrokenIsNotGuarded(w: World, ctx: Ctx, id: nat, state: State)
    requires Broken(w, ctx, id)
    ensures !Guarded(w, ctx, id, state)
  {
  }

  // ----- what is kept in any case

  predicate Taken(media: nat, ops: seq<Op>)
  {
    exists k :: 0 <= k < |ops| && (ops[k].ReleaseInterrupted? || (ops[k].DeleteRecordsOf? && ops[k].media == media))
  }

  /** The record stays with its owner, in its state and with the key it is pinned to,
      whatever else happens, until a start releases it or its file is deleted. */
  lemma {:induction false} HeldIff(w: World, ops: seq<Op>, id: nat, token: nat)
    requires Inv(w) && HeldBy(w, id, token) && AllForeign(ops, id, token)
    ensures var after := Run(w, ops);
            && (HeldBy(after, id, token) <==> !Taken(w.records[id].media, ops))
            && (HeldBy(after, id, token) ==>
                  && after.records[id].state == w.records[id].state
                  && after.records[id].revision == w.records[id].revision && after.records[id].revision.Some?
                  && after.records[id].revision.value !in after.targets.purged)
    decreases |ops|
  {
    hide Step, Inv, Accepts, Hits, Raises, RecordOk, Renews;
    ActiveIsHeld(w, id);
    PinnedKey(w, id);
    if ops != [] {
      var next := Step(w, ops[0]);
      StepKeepsInv(w, ops[0]);
      HeldFollows(w, ops[0], id, token);
      IdBelow(w, id);
      if HeldBy(next, id, token) {
        HeldIff(next, ops[1..], id, token);
        TakenTail(w.records[id].media, ops);
      } else {
        NextRecordStep(w, ops[0]);
        NotHeldStaysNotHeld(next, ops[1..], id, token);
        assert Takes(w.records[id], ops[0]);
      }
    }
  }

  lemma PinnedKey(w: World, id: nat)
    requires Inv(w) && id in w.records && w.records[id].state.Active()
    ensures w.records[id].revision.Some? && w.records[id].revision.value !in w.targets.purged
  {
    RecordIsOk(w, id);
  }

  lemma TakenTail(media: nat, ops: seq<Op>)
    requires ops != [] && !ops[0].ReleaseInterrupted? && !(ops[0].DeleteRecordsOf? && ops[0].media == media)
    ensures Taken(media, ops) <==> Taken(media, ops[1..])
  {
    if Taken(media, ops) {
      var k :| 0 <= k < |ops| && (ops[k].ReleaseInterrupted? || (ops[k].DeleteRecordsOf? && ops[k].media == media));
      assert ops[k] == ops[1..][k - 1];
    }
  }

  /** A running job 0, with token 0, that writes a date for record 0. */
  function Underway(): World
  {
    World(J.Table(map[0 := J.Job(J.Running, J.Lease(0, 60), 0)], 1, 0),
      Targets(map[0 := Destination(true, false, 0)], map[0 := Revision(0, 1, 0, 0)], {}, {}, 1),
      map[],
      map[0 := Record(0, 1, 0, FixingDatetime, ClaimedBy(0, 0, 60), Some(0), false, Some(0), false, None, Unevaluated, 0)],
      1)
  }

  lemma UnderwayIsOk()
    ensures Inv(Underway()) && Guarded(Underway(), Ctx(0, 0), 0, FixingDatetime)
  {
    var w := Underway();
    assert RecordOk(w.targets, w.records[0]);
  }

  /** The cancel of the running job, accepted between the guard and the write: the job has
      lost its lease when the remote side is written, though it still holds the record. */
  lemma CancelledBeforeTheWrite()
    ensures Inv(Underway()) && Guarded(Underway(), Ctx(0, 0), 0, FixingDatetime)
    ensures var cancelled := Run(Underway(), [JobOp(J.RequestCancel(0))]);
            HeldBy(cancelled, 0, 0) && !Leased(cancelled, Ctx(0, 0)) && !Guarded(cancelled, Ctx(0, 0), 0, FixingDatetime)
  {
    hide Inv;
    UnderwayIsOk();
    var w, op := Underway(), JobOp(J.RequestCancel(0));
    var cancelled := Step(w, op);
    assert Run(w, [op]) == Run(cancelled, [op][1..]) == cancelled;
  }
}
