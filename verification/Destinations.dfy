/** Editing a destination and erasing the keys it no longer uses. */
module Destinations {
  import opened Options
  import opened Ledger
  import opened LedgerSafety
  import opened Uploads

  class DestinationRepository {
    const repo: UploadRepository

    constructor (repo: UploadRepository)
      ensures this.repo == repo
    {
      this.repo := repo;
    }

    /** Stores an edit as a new revision. None when a person has to say whether the library
        is the same. A new epoch takes the unfinished records of the old ones with it. */
    method AddRevision(dest: nat, user: nat, host: nat, same: Option<bool>) returns (epoch: Option<nat>)
      requires Inv(repo.db) && dest in repo.db.targets.dests
      modifies repo
      ensures Inv(repo.db) && repo.db == Step(old(repo.db), Ledger.AddRevision(dest, user, host, same))
      ensures epoch.None? <==> var current := old(repo.db).targets.revs[old(repo.db).targets.dests[dest].current];
                user == current.user && host != current.host && same.None?
      ensures epoch.None? ==> repo.db == old(repo.db)
      ensures epoch.Some? ==> repo.db.targets.Epoch(dest) == epoch.value >= old(repo.db).targets.Epoch(dest)
      ensures epoch.Some? && old(repo.db).targets.Epoch(dest) < epoch.value ==>
                forall id :: id in repo.db.records && repo.db.records[id].dest == dest && repo.db.records[id].epoch < epoch.value ==>
                  repo.db.records[id].invalidated || repo.db.records[id].state.Complete?
    {
      hide Inv, Step, InvalidatedWhere, OldEpochIds;
      ghost var op := Ledger.AddRevision(dest, user, host, same);
      StepKeepsInv(repo.db, op);
      CurrentIsOk(repo.db, dest);
      RevisionStep(repo.db, dest, user, host, same);
      var t := repo.db.targets;
      var current := t.revs[t.dests[dest].current];
      epoch := NextEpoch(current, user, host, same);
      if epoch.None? { return; }
      t := t.(revs := t.revs[t.nextRev := Revision(dest, epoch.value, user, host)]);
      t := t.(dests := t.dests[dest := t.dests[dest].(current := t.nextRev)], nextRev := t.nextRev + 1);
      var records := repo.db.records;
      if epoch.value != current.epoch {
        OldAreInvalidated(records, dest, epoch.value);
        records := InvalidatedWhere(records, OldEpochIds(records, dest, epoch.value));
      }
      repo.db := repo.db.(targets := t, records := records);
    }

    /** Selects the superseded keys nobody works with and erases them one by one; `between`
        is what others do before each. Each key selected is erased in the end, and none a
        record in flight is pinned to. */
    method PurgeSupersededCredentials(dest: nat, between: seq<Op>) returns (purged: nat)
      requires Inv(repo.db) && dest in repo.db.targets.dests
      modifies repo
      ensures Inv(repo.db)
      ensures Superseded(old(repo.db), dest) <= repo.db.targets.purged
      ensures forall id :: id in repo.db.records && repo.db.records[id].state.InFlight() ==>
                repo.db.records[id].revision.Some? && repo.db.records[id].revision.value !in Superseded(old(repo.db),
                    dest)
      ensures purged == |Superseded(old(repo.db), dest)|
      ensures between == [] ==> repo.db == Erased(Selected(old(repo.db), dest), Superseded(old(repo.db), dest))
    {
      hide Inv, Step, Superseded;
      ghost var start := repo.db;
      var keys := Superseded(repo.db, dest);
      purged := 0;
      SelectStep(repo.db, dest);
      StepKeepsInv(repo.db, PurgeSelect(dest));
      ghost var selected := Selected(repo.db, dest);
      repo.db := repo.db.(targets := repo.db.targets.(doomed := repo.db.targets.doomed + keys));
      var todo := keys;
      assert Erased(selected, keys - keys) == selected;
      while todo != {}
        invariant todo <= keys && Inv(repo.db) && purged + |todo| == |keys|
        invariant keys <= repo.db.targets.doomed && keys - todo <= repo.db.targets.purged
        invariant between == [] ==> repo.db == Erased(selected, keys - todo)
        decreases todo
      {
        RunKeepsInv(repo.db, between);
        RunKeepsErased(repo.db, between);
        repo.db := Run(repo.db, between);
        var v :| v in todo;
        EraseStep(repo.db, v);
        StepKeepsInv(repo.db, PurgeOne(v));
        assert keys - (todo - {v}) == keys - todo + {v};
        repo.db := Erased(repo.db, {v});
        todo := todo - {v};
        purged := purged + 1;
      }
      assert keys - {} == keys;
      forall id | id in repo.db.records && repo.db.records[id].state.InFlight()
        ensures repo.db.records[id].revision.Some? && repo.db.records[id].revision.value !in keys
      {
        RecordIsOk(repo.db, id);
      }
    }
  }

  /** The selection of a purge. */
  function Selected(w: World, dest: nat): World
    requires dest in w.targets.dests
  {
    w.(targets := w.targets.(doomed := w.targets.doomed + Superseded(w, dest)))
  }

  function Erased(w: World, keys: set<nat>): World { w.(targets := w.targets.(purged := w.targets.purged + keys)) }

  lemma RevisionStep(w: World, dest: nat, user: nat, host: nat, same: Option<bool>)
    requires dest in w.targets.dests && w.targets.dests[dest].current in w.targets.revs
    ensures var op := Ledger.AddRevision(dest, user, host, same);
            var t := w.targets; var current := t.revs[t.dests[dest].current]; var epoch := NextEpoch(current, user,
                host, same);
            Step(w, op) ==
              if epoch.None? then w
              else w.(targets := t.(dests := t.dests[dest := t.dests[dest].(current := t.nextRev)],
                                    revs := t.revs[t.nextRev := Revision(dest, epoch.value, user, host)],
                                        nextRev := t.nextRev + 1),
                      records := if epoch.value == current.epoch then w.records
                                 else InvalidatedWhere(w.records, OldEpochIds(w.records, dest, epoch.value)))
  {
  }

  lemma SelectStep(w: World, dest: nat)
    requires dest in w.targets.dests
    ensures Step(w, PurgeSelect(dest)) == Selected(w, dest)
  {
  }

  lemma EraseStep(w: World, v: nat)
    requires v in w.targets.doomed
    ensures Step(w, PurgeOne(v)) == Erased(w, {v})
  {
  }

  lemma StepKeepsErased(w: World, op: Op)
    ensures w.targets.doomed <= Step(w, op).targets.doomed && w.targets.purged <= Step(w, op).targets.purged
  {
    hide Accepts, StampAll, MarkAll, ReopenAll, BeforeAssetChange, InvalidatedWhere, OldEpochIds, Superseded;
  }

  /** What was selected stays selected, and what was erased is gone for good. */
  lemma {:induction false} RunKeepsErased(w: World, ops: seq<Op>)
    ensures w.targets.doomed <= Run(w, ops).targets.doomed && w.targets.purged <= Run(w, ops).targets.purged
    decreases |ops|
  {
    hide Step;
    if ops != [] {
      StepKeepsErased(w, ops[0]);
      RunKeepsErased(Step(w, ops[0]), ops[1..]);
    }
  }
}
