/** What every run of the ledger keeps, and what can no longer happen in it. */
module LedgerSafety {
  import opened Options
  import J = Jobs
  import opened Ledger

  /** A pinned revision belongs to the record's destination and epoch, and its key is
      neither erased nor about to be. */
  predicate Pinned(t: Targets, r: Record)
  {
    && r.revision.Some? && r.revision.value in t.revs
    && t.revs[r.revision.value].dest == r.dest && t.revs[r.revision.value].epoch == r.epoch
    && r.revision.value !in t.purged && r.revision.value !in t.doomed
  }

  predicate RecordOk(t: Targets, r: Record)
  {
    && r.dest in t.dests && r.epoch <= t.Epoch(r.dest)
    // working on a record and holding a claim are the same thing
    && (r.state.Active() <==> r.claim.ClaimedBy?)
    && (r.state.InFlight() ==> Pinned(t, r))
    && (r.state.Complete? ==> r.revision.Some?)
    // what is left of an older epoch is history, or was set back for a recheck that cannot come
    && (r.epoch < t.Epoch(r.dest) ==> r.invalidated || r.state.Complete? || r.state.NeedsRecheck?)
    // a stacked record still has the asset it was stacked with
    && (r.stack.Stacked? ==> r.asset == Some(r.stack.of))
  }

  ghost predicate TargetsOk(t: Targets)
  {
    && (forall d :: d in t.dests ==>
          && t.dests[d].current in t.revs && t.revs[t.dests[d].current].dest == d
          && t.dests[d].current !in t.purged && t.dests[d].current !in t.doomed)
    && (forall v :: v in t.revs ==>
          v < t.nextRev && t.revs[v].dest in t.dests && t.revs[v].epoch <= t.Epoch(t.revs[v].dest))
    && t.purged <= t.revs.Keys && t.doomed <= t.revs.Keys
  }

  /** At most one record that counts per destination, epoch and media file. */
  ghost predicate LiveUnique(records: map<nat, Record>)
  {
    forall i, j :: i in records && j in records && Rivals(records[i], records[j]) ==> i == j
  }

  predicate Rivals(a: Record, b: Record)
  {
    !a.invalidated && !b.invalidated && SamePair(a, b.dest, b.epoch, b.media)
  }

  ghost predicate RecordsOk(t: Targets, records: map<nat, Record>)
  {
    forall id :: id in records ==> RecordOk(t, records[id])
  }

  ghost predicate Inv(w: World)
  {
    && J.Inv(w.jobs) && TargetsOk(w.targets)
    && RecordsOk(w.targets, w.records) && LiveUnique(w.records)
    && (forall id :: id in w.records ==> id < w.nextRecord)
  }

  // ----- every operation keeps the invariant

  /** Records keep their identity, none appears, and none is un-invalidated. */
  ghost predicate Evolves(before: map<nat, Record>, after: map<nat, Record>)
  {
    forall id :: id in after ==> id in before && SameRecord(before[id], after[id])
  }

  predicate SameRecord(a: Record, b: Record)
  {
    SamePair(a, b.dest, b.epoch, b.media) && (a.invalidated ==> b.invalidated)
  }

  lemma EvolvingKeepsUnique(before: map<nat, Record>, after: map<nat, Record>)
    requires LiveUnique(before) && Evolves(before, after)
    ensures LiveUnique(after)
  {
    forall i, j | i in after && j in after && Rivals(after[i], after[j]) ensures i == j {
      assert Rivals(before[i], before[j]);
    }
  }

  /** The shape of most proofs below: say what each changed record looks like. */
  lemma RecordsChange(w: World, after: map<nat, Record>)
    requires Inv(w) && Evolves(w.records, after) && RecordsOk(w.targets, after)
    ensures Inv(w.(records := after))
  {
    EvolvingKeepsUnique(w.records, after);
  }

  lemma RecordChange(w: World, id: nat, r: Record)
    requires Inv(w) && id in w.records && SameRecord(w.records[id], r) && RecordOk(w.targets, r)
    ensures Inv(w.(records := w.records[id := r]))
  {
    RecordsChange(w, w.records[id := r]);
  }

  lemma RecordIsOk(w: World, id: nat)
    requires Inv(w) && id in w.records
    ensures RecordOk(w.targets, w.records[id])
  {
  }

  lemma CurrentIsOk(w: World, d: nat)
    requires Inv(w) && d in w.targets.dests
    ensures var v := w.targets.dests[d].current;
            && v in w.targets.revs && w.targets.revs[v].dest == d && w.targets.revs[v].epoch == w.targets.Epoch(d)
            && v !in w.targets.purged && v !in w.targets.doomed
  {
  }

  lemma ReopenOk(w: World, id: nat)
    requires Inv(w) && id in w.records
    ensures var after := ReopenStackOf(w.records, id);
            && Inv(w.(records := after)) && id in after
            && after[id] == (if w.records[id].stack.Stacked? then w.records[id].(stack := Unevaluated) else w.records[id])
  {
    RecordsChange(w, ReopenStackOf(w.records, id));
  }

  /** An owner's update, possibly of the asset: the stack it breaks is opened first. */
  lemma WriteKeepsInv(w: World, id: nat, asset: Field, state: State, claim: Claim)
    requires Inv(w) && id in w.records && w.records[id].state.Active()
    requires state.Active() <==> claim.ClaimedBy?
    requires state.Active() || (state.Final() && !w.records[id].invalidated)
    ensures var reopened := BeforeAssetChange(w.records, id, asset);
            && id in reopened
            && Inv(w.(records := reopened[id := Written(reopened[id], asset).(state := state, claim := claim)]))
  {
    hide Inv;
    RecordIsOk(w, id);
    ReopenOk(w, id);
    var reopened := BeforeAssetChange(w.records, id, asset);
    RecordChange(w.(records := reopened), id, Written(reopened[id], asset).(state := state, claim := claim));
  }

  lemma StampOneKeepsInv(w: World, s: Stamp, at: nat)
    requires Inv(w)
    ensures Inv(w.(records := StampOne(w.records, s, at)))
  {
    if StillSo(w.records, s) {
      ReopenOk(w, s.id);
      var reopened := if s.asset != s.seenAsset then ReopenStackOf(w.records, s.id) else w.records;
      RecordChange(w.(records := reopened), s.id,
        reopened[s.id].(asset := s.asset, trashed := s.trashed, checked := Some(at),
                        invalidated := reopened[s.id].invalidated || s.asset.None?));
    }
  }

  lemma {:induction false} StampAllKeepsInv(w: World, stamps: seq<Stamp>, at: nat)
    requires Inv(w)
    ensures Inv(w.(records := StampAll(w.records, stamps, at)))
    decreases |stamps|
  {
    if stamps != [] {
      var earlier := stamps[..|stamps| - 1];
      StampAllKeepsInv(w, earlier, at);
      StampOneKeepsInv(w.(records := StampAll(w.records, earlier, at)), stamps[|stamps| - 1], at);
    }
  }

  lemma NewRecordKeepsInv(w: World, media: nat, dest: nat)
    requires Inv(w) && dest in w.targets.dests
    requires !HasLive(w.records, dest, w.targets.Epoch(dest), media)
    ensures Inv(w.(records := w.records[w.nextRecord := NewRecord(w, media, dest)], nextRecord := w.nextRecord + 1))
  {
    var after := w.records[w.nextRecord := NewRecord(w, media, dest)];
    forall i, j | i in after && j in after && Rivals(after[i], after[j]) ensures i == j {
      assert i in w.records ==> !LivePair(w.records[i], dest, w.targets.Epoch(dest), media);
      assert j in w.records ==> !LivePair(w.records[j], dest, w.targets.Epoch(dest), media);
    }
  }

  /** A change of destinations that only adds to what records rely on. */
  lemma TargetsChange(w: World, t: Targets)
    requires Inv(w) && TargetsOk(t)
    requires forall d :: d in w.targets.dests ==> d in t.dests && t.Epoch(d) == w.targets.Epoch(d)
    requires forall v :: v in w.targets.revs ==> v in t.revs && t.revs[v] == w.targets.revs[v]
    requires forall id :: id in w.records && w.records[id].state.InFlight() ==>
               w.records[id].revision.value !in t.purged && w.records[id].revision.value !in t.doomed
    ensures Inv(w.(targets := t))
  {
    forall id | id in w.records ensures RecordOk(t, w.records[id]) {
      assert RecordOk(w.targets, w.records[id]);
    }
  }

  lemma AddRevisionKeepsInv(w: World, dest: nat, user: nat, host: nat, same: Option<bool>)
    requires Inv(w) && Accepts(w, AddRevision(dest, user, host, same))
    ensures Inv(Effect(w, AddRevision(dest, user, host, same)))
  {
    hide Inv, InvalidatedWhere, OldEpochIds;
    var current := w.targets.revs[w.targets.dests[dest].current];
    var epoch := NextEpoch(current, user, host, same).value;
    var after := if epoch == current.epoch then w.records else InvalidatedWhere(w.records, OldEpochIds(w.records,
        dest, epoch));
    InvalidationKeepsInv(w, OldEpochIds(w.records, dest, epoch), 0);
    OldAreInvalidated(w.records, dest, epoch);
    NewRevisionKeepsInv(w.(records := after), dest, Revision(dest, epoch, user, host));
  }

  lemma OldAreInvalidated(records: map<nat, Record>, dest: nat, epoch: nat)
    ensures var after := InvalidatedWhere(records, OldEpochIds(records, dest, epoch));
            forall id :: id in after && after[id].dest == dest && after[id].epoch < epoch ==>
              after[id].invalidated || after[id].state.Complete?
  {
  }

  lemma NewRevisionKeepsInv(w: World, dest: nat, rev: Revision)
    requires Inv(w) && dest in w.targets.dests && rev.dest == dest && w.targets.Epoch(dest) <= rev.epoch
    requires w.targets.Epoch(dest) < rev.epoch ==>
               forall id :: id in w.records && w.records[id].dest == dest && w.records[id].epoch < rev.epoch ==>
                 w.records[id].invalidated || w.records[id].state.Complete?
    ensures var t := w.targets;
            Inv(w.(targets := t.(dests := t.dests[dest := t.dests[dest].(current := t.nextRev)],
                                 revs := t.revs[t.nextRev := rev], nextRev := t.nextRev + 1)))
  {
    var t := w.targets;
    var after := t.(dests := t.dests[dest := t.dests[dest].(current := t.nextRev)],
                    revs := t.revs[t.nextRev := rev], nextRev := t.nextRev + 1);
    hide J.Inv, LiveUnique;
    NewRevisionOk(t, dest, after);
    RaisedEpoch(w, dest, w.records, after);
  }

  lemma RaisedEpoch(w: World, dest: nat, after: map<nat, Record>, t: Targets)
    requires RecordsOk(w.targets, after) && TargetsOk(t)
    requires t.purged == w.targets.purged && t.doomed == w.targets.doomed
    requires forall d :: d in w.targets.dests ==> d in t.dests && (d != dest ==> t.Epoch(d) == w.targets.Epoch(d))
    requires forall v :: v in w.targets.revs ==> v in t.revs && t.revs[v] == w.targets.revs[v]
    requires w.targets.Epoch(dest) <= t.Epoch(dest)
    requires w.targets.Epoch(dest) < t.Epoch(dest) ==>
               forall id :: id in after && after[id].dest == dest && after[id].epoch < t.Epoch(dest) ==>
                 after[id].invalidated || after[id].state.Complete?
    ensures RecordsOk(t, after)
  {
    forall id | id in after ensures RecordOk(t, after[id]) {
      assert RecordOk(w.targets, after[id]);
    }
  }

  lemma NewRevisionOk(t: Targets, dest: nat, after: Targets)
    requires TargetsOk(t) && dest in t.dests && t.nextRev in after.revs
    requires after == t.(dests := t.dests[dest := t.dests[dest].(current := t.nextRev)],
                         revs := t.revs[t.nextRev := after.revs[t.nextRev]], nextRev := t.nextRev + 1)
    requires after.revs[t.nextRev].dest == dest && t.Epoch(dest) <= after.revs[t.nextRev].epoch
    ensures TargetsOk(after)
    ensures forall d :: d in t.dests && d != dest ==> after.Epoch(d) == t.Epoch(d)
    ensures after.Epoch(dest) == after.revs[t.nextRev].epoch
  {
    assert t.nextRev !in t.purged && t.nextRev !in t.doomed;
  }

  lemma PurgeSelectKeepsInv(w: World, dest: nat)
    requires Inv(w) && dest in w.targets.dests
    ensures Inv(w.(targets := w.targets.(doomed := w.targets.doomed + Superseded(w, dest))))
  {
    var t := w.targets.(doomed := w.targets.doomed + Superseded(w, dest));
    forall id | id in w.records && w.records[id].state.InFlight()
      ensures w.records[id].revision.value !in t.purged && w.records[id].revision.value !in t.doomed
    {
      assert RecordOk(w.targets, w.records[id]);
      assert w.records[id].revision == Some(w.records[id].revision.value);
    }
    TargetsChange(w, t);
  }

  lemma PurgeOneKeepsInv(w: World, rev: nat)
    requires Inv(w) && rev in w.targets.doomed
    ensures Inv(w.(targets := w.targets.(purged := w.targets.purged + {rev})))
  {
    forall id | id in w.records && w.records[id].state.InFlight()
      ensures w.records[id].revision.value !in w.targets.purged + {rev}
      ensures w.records[id].revision.value !in w.targets.doomed
    {
      assert RecordOk(w.targets, w.records[id]);
    }
    TargetsChange(w, w.targets.(purged := w.targets.purged + {rev}));
  }

  /** Statements that touch every record meeting a condition: each record is seen alone. */
  lemma SweepKeepsInv(w: World, after: map<nat, Record>)
    requires Inv(w)
    requires forall id :: id in after ==>
               && id in w.records && SameRecord(w.records[id], after[id])
               && (RecordOk(w.targets, w.records[id]) ==> RecordOk(w.targets, after[id]))
    ensures Inv(w.(records := after))
  {
    RecordsChange(w, after);
  }

  lemma InvalidationKeepsInv(w: World, ids: set<nat>, media: nat)
    requires Inv(w)
    ensures Inv(w.(records := InvalidatedWhere(w.records, ids)))
    ensures Inv(w.(records := Without(w.records, media)))
  {
    hide Inv;
    SweepKeepsInv(w, InvalidatedWhere(w.records, ids));
    SweepKeepsInv(w, Without(w.records, media));
  }

  lemma ReleaseKeepsInv(w: World)
    requires Inv(w)
    ensures Inv(w.(records := InterruptedReleased(w.records)))
  {
    hide Inv;
    SweepKeepsInv(w, InterruptedReleased(w.records));
  }

  lemma RequeueKeepsInv(w: World, media: nat)
    requires Inv(w)
    ensures Inv(w.(records := Requeued(w.records, media)))
    ensures Inv(w.(records := SkippedReopened(w.records, media)))
  {
    hide Inv;
    SweepKeepsInv(w, Requeued(w.records, media));
    SweepKeepsInv(w, SkippedReopened(w.records, media));
  }

  lemma PairKeepsInv(w: World, media: nat, dest: nat, eligible: bool)
    requires Inv(w) && Accepts(w, Pair(media, dest, eligible))
    ensures Inv(Effect(w, Pair(media, dest, eligible)))
  {
    hide Inv;
    if HasLive(w.records, dest, w.targets.Epoch(dest), media) {
      SweepKeepsInv(w, PairRetried(w.records, dest, w.targets.Epoch(dest), media));
    } else {
      NewRecordKeepsInv(w, media, dest);
    }
  }

  lemma MarkKeepsInv(w: World, members: seq<Member>, stack: nat)
    requires Inv(w)
    ensures Inv(w.(records := MarkAll(w.records, members, stack)))
  {
    hide Inv;
    SweepKeepsInv(w, MarkAll(w.records, members, stack));
  }

  lemma ReopenAllKeepsInv(w: World, dest: nat, epoch: nat, stacks: seq<nat>)
    requires Inv(w)
    ensures Inv(w.(records := ReopenAll(w.records, dest, epoch, stacks)))
  {
    hide Inv;
    SweepKeepsInv(w, ReopenAll(w.records, dest, epoch, stacks));
  }

  lemma TargetStepKeepsInv(w: World, op: Op)
    requires Inv(w) && Accepts(w, op)
    requires op.CreateDestination? || op.SetEnabled? || op.Archive? || op.AddRevision? || op.PurgeSelect?
        || op.PurgeOne?
    ensures Inv(Effect(w, op))
  {
    hide Inv;
    match op {
      case CreateDestination(d, user, host) => CreateKeepsInv(w, d, user, host);
      case SetEnabled(d, on) => SwitchKeepsInv(w, d, on, w.targets.dests[d].archived);
      case Archive(d) => SwitchKeepsInv(w, d, false, true);
      case AddRevision(d, user, host, same) => AddRevisionKeepsInv(w, d, user, host, same);
      case PurgeSelect(d) => PurgeSelectKeepsInv(w, d);
      case PurgeOne(v) => PurgeOneKeepsInv(w, v);
    }
  }

  lemma CreateKeepsInv(w: World, dest: nat, user: nat, host: nat)
    requires Inv(w) && dest !in w.targets.dests
    ensures Inv(Effect(w, CreateDestination(dest, user, host)))
  {
    var t := Effect(w, CreateDestination(dest, user, host)).targets;
    forall d | d in w.targets.dests ensures t.Epoch(d) == w.targets.Epoch(d) {
      assert w.targets.dests[d].current < w.targets.nextRev;
    }
    TargetsChange(w, t);
  }

  lemma SwitchKeepsInv(w: World, dest: nat, enabled: bool, archived: bool)
    requires Inv(w) && dest in w.targets.dests
    ensures var d := w.targets.dests[dest].(enabled := enabled, archived := archived);
            Inv(w.(targets := w.targets.(dests := w.targets.dests[dest := d])))
  {
    var d := w.targets.dests[dest].(enabled := enabled, archived := archived);
    var t := w.targets.(dests := w.targets.dests[dest := d]);
    assert forall e :: e in t.dests ==> t.Epoch(e) == w.targets.Epoch(e);
    forall id | id in w.records ensures RecordOk(t, w.records[id]) {
      assert RecordOk(w.targets, w.records[id]);
    }
  }

  lemma InvalidatingStepKeepsInv(w: World, op: Op)
    requires Inv(w) && Accepts(w, op)
    requires op.Invalidate? || op.InvalidateOldEpoch? || op.DeleteRecordsOf?
    ensures Inv(Effect(w, op))
  {
    hide Inv, Accepts, InvalidatedWhere, Without, OldEpochIds;
    match op {
      case Invalidate(ids) => InvalidationKeepsInv(w, ids, 0);
      case InvalidateOldEpoch(d, e) => InvalidationKeepsInv(w, OldEpochIds(w.records, d, e), 0);
      case DeleteRecordsOf(m) => InvalidationKeepsInv(w, {}, m);
    }
  }

  lemma BulkStepKeepsInv(w: World, op: Op)
    requires Inv(w) && Accepts(w, op)
    requires op.ReleaseInterrupted? || op.RequeueSent? || op.ReopenSkipped? || op.MarkStacked? || op.ReopenStacks?
             || op.StampMany? || op.Pair?
    ensures Inv(Effect(w, op))
  {
    hide Inv, Accepts, InterruptedReleased, Requeued, SkippedReopened, MarkAll, ReopenAll, StampAll;
    match op {
      case ReleaseInterrupted => ReleaseKeepsInv(w);
      case RequeueSent(m) => RequeueKeepsInv(w, m);
      case ReopenSkipped(m) => RequeueKeepsInv(w, m);
      case MarkStacked(_, members, _, _, _, _, stack) => MarkKeepsInv(w, members, stack);
      case ReopenStacks(_, d, e, stacks) => ReopenAllKeepsInv(w, d, e, stacks);
      case StampMany(_, stamps, at) => StampAllKeepsInv(w, stamps, at);
      case Pair(m, d, eligible) => PairKeepsInv(w, m, d, eligible);
    }
  }

  /** Operations of an owner on one record. */
  lemma OwnerStepKeepsInv(w: World, op: Op)
    requires Inv(w) && Accepts(w, op)
    requires op.ClaimNext? || op.Prepare? || op.ExtendClaim? || op.ReleaseTo? || op.Refuse? || op.ReleaseFromApproval?
             || op.ClaimForApproval?
    ensures Inv(Effect(w, op))
  {
    hide Inv;
    RecordIsOk(w, op.id);
    if op.ClaimNext? { CurrentIsOk(w, op.dest); }
    RecordChange(w, op.id, Effect(w, op).records[op.id]);
  }

  lemma WriteStepKeepsInv(w: World, op: Op)
    requires Inv(w) && Accepts(w, op) && (op.Advance? || op.FinishRecord?)
    ensures Inv(Effect(w, op))
  {
    hide Inv;
    RecordIsOk(w, op.id);
    WriteKeepsInv(w, op.id, op.asset, op.state, if op.Advance? then w.records[op.id].claim else Unclaimed);
    ReopenOk(w, op.id);
  }

  /** Operations on one record that nobody owns. */
  lemma FreeStepKeepsInv(w: World, op: Op)
    requires Inv(w) && Accepts(w, op)
    requires op.Retry? || op.Reject? || op.StampDatetime? || op.MarkSkipped?
    ensures Inv(Effect(w, op))
  {
    hide Inv;
    var id := if op.MarkSkipped? then op.member.id else op.id;
    RecordIsOk(w, id);
    RecordChange(w, id, Effect(w, op).records[id]);
  }

  lemma StepKeepsInv(w: World, op: Op)
    requires Inv(w)
    ensures Inv(Step(w, op))
  {
    if Accepts(w, op) {
      EffectKeepsInv(w, op);
    }
  }

  lemma EffectKeepsInv(w: World, op: Op)
    requires Inv(w) && Accepts(w, op)
    ensures Inv(Effect(w, op))
  {
    hide Inv, Effect, Accepts;
    if op.CreateDestination? || op.SetEnabled? || op.Archive? || op.AddRevision? || op.PurgeSelect? || op.PurgeOne? {
      TargetStepKeepsInv(w, op);
    } else if op.ClaimNext? || op.Prepare? || op.ExtendClaim? || op.ReleaseTo? || op.Refuse? || op.ReleaseFromApproval?
              || op.ClaimForApproval? {
      OwnerStepKeepsInv(w, op);
    } else if op.Advance? || op.FinishRecord? {
      WriteStepKeepsInv(w, op);
    } else if op.Retry? || op.Reject? || op.StampDatetime? || op.MarkSkipped? {
      FreeStepKeepsInv(w, op);
    } else if op.JobOp? || op.StageArtifact? || op.EditProfile? {
      NoRecordStepKeepsInv(w, op);
    } else if op.Invalidate? || op.InvalidateOldEpoch? || op.DeleteRecordsOf? {
      InvalidatingStepKeepsInv(w, op);
    } else {
      BulkStepKeepsInv(w, op);
    }
  }

  lemma NoRecordStepKeepsInv(w: World, op: Op)
    requires Inv(w) && Accepts(w, op) && (op.JobOp? || op.StageArtifact? || op.EditProfile?)
    ensures Inv(Effect(w, op))
  {
    if op.JobOp? { J.StepKeepsInv(w.jobs, op.op); }
  }

  lemma {:induction false} RunKeepsInv(w: World, ops: seq<Op>)
    requires Inv(w)
    ensures Inv(Run(w, ops))
    decreases |ops|
  {
    hide Inv, Step;
    if ops != [] {
      StepKeepsInv(w, ops[0]);
      RunKeepsInv(Step(w, ops[0]), ops[1..]);
    }
  }
}
