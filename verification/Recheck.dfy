/** Comparing what the ledger says was sent with what the remote side still has. */
module Recheck {
  import opened Options
  import J = Jobs
  import opened Ledger
  import opened LedgerSafety
  import opened Stacks
  import opened Uploads

  /** The answer of the bulk check for one record: it could be uploaded, so it is not
      there, or it is there. */
  datatype Answer = Accept | Reject(asset: nat, trashed: bool)

  const BULK_CHECK_BATCH: nat := 500

  predicate ToCheck(w: World, dest: nat, id: nat)
  {
    && id in w.records && w.records[id].dest == dest && w.records[id].epoch == w.targets.Epoch(dest)
    && w.records[id].state.Complete? && !w.records[id].invalidated
  }

  function StampOf(records: map<nat, Record>, id: nat, answer: Answer): Stamp
    requires id in records
  {
    var r := records[id];
    match answer
    case Accept => Stamp(id, None, false, r.asset, r.checked)
    case Reject(asset, trashed) => Stamp(id, Some(asset), trashed, r.asset, r.checked)
  }

  /** The record shows what was observed: gone, and so to be sent again, or there. */
  predicate Reflects(r: Record, answer: Answer, at: nat)
  {
    && r.checked == Some(at)
    && match answer
       case Accept => r.asset == None && r.invalidated
       case Reject(asset, trashed) => r.asset == Some(asset) && r.trashed == trashed
  }

  predicate StampsDiffer(stamps: seq<Stamp>)
  {
    forall i, j :: 0 <= i < j < |stamps| ==> stamps[i].id != stamps[j].id
  }

  predicate OnlyStackOpened(before: Record, after: Record)
  {
    after == before || after == before.(stack := Unevaluated)
  }

  lemma StampOneLands(records: map<nat, Record>, s: Stamp, at: nat)
    ensures var after := StampOne(records, s, at);
            && after.Keys == records.Keys && Lands(records, after, s, at)
            && forall id :: id in records && id != s.id ==> OnlyStackOpened(records[id], after[id])
  {
  }

  predicate Stamps(stamps: seq<Stamp>, id: nat) { exists i :: 0 <= i < |stamps| && stamps[i].id == id }

  /** The stamp of a record that has not moved is written, and no other. */
  ghost predicate Lands(before: map<nat, Record>, after: map<nat, Record>, s: Stamp, at: nat)
  {
    if StillSo(before, s) then Written(after, s, at)
    else s.id in before ==> s.id in after && OnlyStackOpened(before[s.id], after[s.id])
  }

  /** Stamps of different records do not disturb each other: each is written exactly if its
      record is as it was read, whatever else is written with it. */
  lemma {:induction false} StampsLand(records: map<nat, Record>, stamps: seq<Stamp>, at: nat)
    requires StampsDiffer(stamps)
    ensures var after := StampAll(records, stamps, at);
            && after.Keys == records.Keys
            && (forall i :: 0 <= i < |stamps| ==> Lands(records, after, stamps[i], at))
            && (forall id :: id in records && !Stamps(stamps, id) ==> OnlyStackOpened(records[id], after[id]))
    ensures forall i :: 0 <= i < |stamps| ==> (stamps[i].id in Stamped(records, stamps, at) <==> StillSo(records, stamps[i]))
    decreases |stamps|
  {
    hide StampOne;
    if stamps != [] {
      var earlier, s := stamps[..|stamps| - 1], stamps[|stamps| - 1];
      StampsLand(records, earlier, at);
      var middle := StampAll(records, earlier, at);
      assert !Stamps(earlier, s.id);
      StampedIds(records, earlier, at);
      StampOneLands(middle, s, at);
      forall i | 0 <= i < |stamps|
        ensures Lands(records, StampOne(middle, s, at), stamps[i], at)
        ensures stamps[i].id in Stamped(records, stamps, at) <==> StillSo(records, stamps[i])
      {
        if i < |earlier| { assert earlier[i] == stamps[i]; }
      }
      forall id | id in records && !Stamps(stamps, id)
        ensures OnlyStackOpened(records[id], StampOne(middle, s, at)[id])
      {
        assert stamps[|stamps| - 1].id != id;
        forall i | 0 <= i < |earlier| ensures earlier[i].id != id { assert earlier[i] == stamps[i]; }
        assert !Stamps(earlier, id);
      }
    }
  }

  predicate Written(after: map<nat, Record>, s: Stamp, at: nat)
  {
    && s.id in after && after[s.id].asset == s.asset && after[s.id].trashed == s.trashed
    && after[s.id].checked == Some(at) && after[s.id].state.Complete? && (s.asset.None? ==> after[s.id].invalidated)
  }

  /** Asks about the listed records in batches. */
  method Observe(ids: seq<nat>, remote: map<nat, Answer>) returns (outcomes: map<nat, Answer>)
    requires forall id :: id in ids ==> id in remote
    ensures outcomes.Keys == set id | id in ids
    ensures forall id :: id in ids ==> outcomes[id] == remote[id]
  {
    outcomes := map[];
    var start := 0;
    while start < |ids|
      invariant start <= |ids|
      invariant outcomes.Keys == set id | id in ids[..start]
      invariant forall id :: id in ids[..start] ==> outcomes[id] == remote[id]
    {
      var end := if start + BULK_CHECK_BATCH < |ids| then start + BULK_CHECK_BATCH else |ids|;
      var batch := ids[start..end];
      assert ids[..end] == ids[..start] + batch;
      assert forall id :: id in batch ==> id in ids;
      outcomes := outcomes + map id | id in batch :: remote[id];
      start := end;
    }
    assert ids[..|ids|] == ids;
  }

  predicate StampsOf(stamps: seq<Stamp>, records: map<nat, Record>, ids: seq<nat>, outcomes: map<nat, Answer>)
    requires forall id :: id in ids ==> id in records && id in outcomes
  {
    forall i :: 0 <= i < |stamps| ==>
      stamps[i].id in ids && stamps[i] == StampOf(records, stamps[i].id, outcomes[stamps[i].id])
  }

  /** The stamps of the listed records that are gone, or of those that are there. */
  method Part(records: map<nat, Record>, ids: seq<nat>, outcomes: map<nat, Answer>,
        gone: bool) returns (stamps: seq<Stamp>)
    requires forall id :: id in ids ==> id in records && id in outcomes
    requires forall i, j :: 0 <= i < j < |ids| ==> ids[i] != ids[j]
    ensures StampsDiffer(stamps) && StampsOf(stamps, records, ids, outcomes)
    ensures forall id :: Stamps(stamps, id) <==> id in ids && outcomes[id].Accept? == gone
  {
    stamps := [];
    for i := 0 to |ids|
      invariant StampsDiffer(stamps) && StampsOf(stamps, records, ids, outcomes)
      invariant forall id :: Stamps(stamps, id) <==> id in ids[..i] && outcomes[id].Accept? == gone
    {
      ghost var so := stamps;
      assert ids[..i + 1] == ids[..i] + [ids[i]];
      if outcomes[ids[i]].Accept? == gone {
        assert ids[i] !in ids[..i];
        assert !Stamps(so, ids[i]);
        stamps := stamps + [StampOf(records, ids[i], outcomes[ids[i]])];
        ghost var one := [StampOf(records, ids[i], outcomes[ids[i]])];
        assert one[0].id == ids[i];
        assert Stamps(one, ids[i]);
        StampsJoin(so, one);
      }
    }
    assert ids[..|ids|] == ids;
  }

  lemma StampsJoin(a: seq<Stamp>, b: seq<Stamp>)
    ensures forall id :: Stamps(a + b, id) <==> Stamps(a, id) || Stamps(b, id)
  {
    forall id ensures Stamps(a + b, id) <==> Stamps(a, id) || Stamps(b, id) {
      if Stamps(a, id) {
        var i :| 0 <= i < |a| && a[i].id == id;
        assert (a + b)[i].id == id;
      }
      if Stamps(b, id) {
        var i :| 0 <= i < |b| && b[i].id == id;
        assert (a + b)[|a| + i].id == id;
      }
    }
  }

  /** The stamps to write: first the records that are gone, then those that are there. */
  method StampsFor(records: map<nat, Record>, ids: seq<nat>, outcomes: map<nat, Answer>) returns (stamps: seq<Stamp>)
    requires forall id :: id in ids ==> id in records && id in outcomes
    requires forall i, j :: 0 <= i < j < |ids| ==> ids[i] != ids[j]
    ensures StampsDiffer(stamps) && StampsOf(stamps, records, ids, outcomes)
    ensures forall id :: Stamps(stamps, id) <==> id in ids
  {
    var gone := Part(records, ids, outcomes, true);
    var there := Part(records, ids, outcomes, false);
    StampsJoin(gone, there);
    forall i, j | 0 <= i < |gone| && 0 <= j < |there| ensures gone[i].id != there[j].id {
      assert Stamps(gone, gone[i].id) && Stamps(there, there[j].id);
    }
    stamps := gone + there;
  }

  /** The first half of a recheck. `during` is everything others do between reading the
      records and writing the results. Undisturbed, every record checked ends up showing
      what the remote side said; disturbed, what has moved meanwhile is left alone. */
  method CheckAssets(repo: UploadRepository, ctx: Ctx, dest: nat, ids: seq<nat>, remote: map<nat, Answer>, at: nat,
        during: seq<Op>)
    returns (checked: Option<nat>)
    requires Inv(repo.db)
    requires forall id :: id in ids ==> ToCheck(repo.db, dest, id)
    requires forall i, j :: 0 <= i < j < |ids| ==> ids[i] != ids[j]
    requires forall id :: id in ids ==> id in remote
    modifies repo
    ensures Inv(repo.db)
    // nothing is written exactly if the lease is gone by then
    ensures checked.Some? <==> Leased(Ledger.Run(old(repo.db), during), ctx)
    ensures checked.None? ==> repo.db == Ledger.Run(old(repo.db), during)
    ensures checked.Some? ==>
              var met, was := Ledger.Run(old(repo.db), during), old(repo.db).records;
              && repo.db == met.(records := repo.db.records)
              && checked.value == |Unmoved(was, met.records, ids, remote)|
              && (forall id :: id in ids ==>
                    if id in Unmoved(was, met.records, ids, remote) then
                      id in repo.db.records && Reflects(repo.db.records[id], remote[id], at)
                    else
                      id in met.records ==> id in repo.db.records && OnlyStackOpened(met.records[id], repo.db.records[id]))
              && (forall id :: id in met.records && id !in ids ==>
                    id in repo.db.records && OnlyStackOpened(met.records[id], repo.db.records[id]))
    ensures Unmoved(old(repo.db).records, old(repo.db).records, ids, remote) == AsSet(ids) && |AsSet(ids)| == |ids|
  {
    hide Inv, ToCheck, Step, StampAll, Stamped, StillSo, StampOf, OnlyStackOpened;
    var snapshot := repo.db.records;
    ghost var before := repo.db;
    forall id | id in ids ensures id in snapshot { ToCheckIs(before, dest, id); }
    var outcomes := Observe(ids, remote);
    RunKeepsInv(repo.db, during);
    repo.db := Ledger.Run(repo.db, during);
    var stamps := StampsFor(snapshot, ids, outcomes);
    ghost var met := repo.db;
    forall id | id in ids ensures StillSo(snapshot, StampOf(snapshot, id, remote[id])) {
      NotMovedYet(before, dest, id, remote[id]);
    }
    SetOfDistinct(ids);
    StampsLand(met.records, stamps, at);
    var written := repo.StampMany(ctx, stamps, at);
    StampStep(met, ctx, stamps, at);
    if written.None? { return None; }
    checked := Some(|written.value|);
    StampedIds(met.records, stamps, at);
    forall id ensures id in written.value <==> id in Unmoved(snapshot, met.records, ids, remote) {
      if id in ids { StampFor(snapshot, met.records, repo.db.records, stamps, ids, outcomes, remote, written.value, at, id); }
    }
    forall id | id in ids
      ensures if id in Unmoved(snapshot, met.records, ids, remote) then
                id in repo.db.records && Reflects(repo.db.records[id], remote[id], at)
              else id in met.records ==> id in repo.db.records && OnlyStackOpened(met.records[id], repo.db.records[id])
    {
      StampFor(snapshot, met.records, repo.db.records, stamps, ids, outcomes, remote, written.value, at, id);
    }
    assert written.value == Unmoved(snapshot, met.records, ids, remote);
  }

  lemma StampFor(was: map<nat, Record>, met: map<nat, Record>, after: map<nat, Record>, stamps: seq<Stamp>, ids: seq<nat>,
        outcomes: map<nat, Answer>, remote: map<nat, Answer>, written: set<nat>, at: nat, id: nat)
    requires forall id :: id in ids ==> id in was && id in remote && id in outcomes && outcomes[id] == remote[id]
    requires StampsOf(stamps, was, ids, outcomes) && Stamps(stamps, id) && id in ids
    requires forall i :: 0 <= i < |stamps| ==>
               Lands(met, after, stamps[i], at) && (stamps[i].id in written <==> StillSo(met, stamps[i]))
    ensures id in written <==> id in Unmoved(was, met, ids, remote)
    ensures if id in written then id in after && Reflects(after[id], remote[id], at)
            else id in met ==> id in after && OnlyStackOpened(met[id], after[id])
  {
    hide StillSo;
  }

  function AsSet(ids: seq<nat>): set<nat> { set id | id in ids }

  /** The records that are still as they were when they were read. */
  function Unmoved(was: map<nat, Record>, met: map<nat, Record>, ids: seq<nat>, remote: map<nat, Answer>): set<nat>
  {
    set id | id in ids && id in was && id in remote && StillSo(met, StampOf(was, id, remote[id]))
  }

  lemma NotMovedYet(w: World, dest: nat, id: nat, answer: Answer)
    requires ToCheck(w, dest, id)
    ensures StillSo(w.records, StampOf(w.records, id, answer))
  {
  }

  lemma ToCheckIs(w: World, dest: nat, id: nat)
    requires ToCheck(w, dest, id)
    ensures id in w.records && w.records[id].state.Complete?
  {
  }

  lemma {:induction false} StampedIds(records: map<nat, Record>, stamps: seq<Stamp>, at: nat)
    ensures forall id :: id in Stamped(records, stamps, at) ==> Stamps(stamps, id)
    decreases |stamps|
  {
    if stamps != [] {
      var earlier := stamps[..|stamps| - 1];
      StampedIds(records, earlier, at);
      forall id | id in Stamped(records, stamps, at) ensures Stamps(stamps, id) {
        if id in Stamped(records, earlier, at) {
          var i :| 0 <= i < |earlier| && earlier[i].id == id;
          assert stamps[i].id == id;
        } else {
          assert stamps[|stamps| - 1].id == id;
        }
      }
    }
  }

  lemma {:induction false} SetOfDistinct(ids: seq<nat>)
    requires forall i, j :: 0 <= i < j < |ids| ==> ids[i] != ids[j]
    ensures |AsSet(ids)| == |ids|
  {
    if ids != [] {
      var rest, last := ids[..|ids| - 1], ids[|ids| - 1];
      SetOfDistinct(rest);
      assert ids == rest + [last];
      assert last !in rest;
      assert AsSet(ids) == AsSet(rest) + {last};
      assert |AsSet(ids)| == |AsSet(rest)| + 1;
    }
  }

  /** Every stack on record is a live remote stack with the same assets. */
  ghost predicate StacksAgree(records: map<nat, Record>, dest: nat, epoch: nat, live: map<nat, set<Option<nat>>>)
  {
    forall s :: AssetsOf(records, dest, epoch, s) != {} ==> s in live && live[s] == AssetsOf(records, dest, epoch, s)
  }

  /** The second half: compares the stacks on record with the remote ones and reopens those
      that differ. It is done exactly if none of them did or the lease is still there to
      write. Undisturbed, every stack still recorded is then a live remote stack with the same
      assets. */
  method ReconcileStacks(repo: UploadRepository, ctx: Ctx, dest: nat, epoch: nat, live: map<nat, set<Option<nat>>>,
        during: seq<Op>)
    returns (done: bool)
    requires Inv(repo.db)
    modifies repo
    ensures Inv(repo.db)
    ensures done <==>
              StacksAgree(old(repo.db).records, dest, epoch, live) || Leased(Ledger.Run(old(repo.db), during), ctx)
    ensures !done || StacksAgree(old(repo.db).records, dest, epoch, live) ==> repo.db == Ledger.Run(old(repo.db), during)
    ensures during == [] && done ==> StacksAgree(repo.db.records, dest, epoch, live)
    ensures during == [] ==> forall id :: id in old(repo.db).records ==>
                               id in repo.db.records && OnlyStackOpened(old(repo.db).records[id], repo.db.records[id])
  {
    hide Inv, Step, AssetsOf;
    ghost var read := repo.db;
    var groups := repo.StackedGroups(dest, epoch);
    RunKeepsInv(repo.db, during);
    repo.db := Ledger.Run(repo.db, during);
    var broken: seq<nat> := [];
    var unseen := groups.Keys;
    while unseen != {}
      invariant unseen <= groups.Keys
      invariant forall s :: s in groups.Keys - unseen ==> s in broken || (s in live && live[s] == groups[s])
      invariant forall s :: s in broken ==> s in groups && !(s in live && live[s] == groups[s])
      decreases unseen
    {
      var s :| s in unseen;
      unseen := unseen - {s};
      if !(s in live && live[s] == groups[s]) { broken := broken + [s]; }
    }
    ghost var met := repo.db;
    AgreeIff(read.records, dest, epoch, groups, live);
    if broken == [] {
      return true;
    }
    assert broken[0] in broken;
    ReopenOpensStacks(met, ctx, dest, epoch, broken);
    ReopenStep(met, ctx, dest, epoch, broken);
    var reopened := repo.ReopenStacks(ctx, dest, epoch, broken);
    done := reopened.Some?;
    if during == [] && done {
      forall s | AssetsOf(repo.db.records, dest, epoch, s) != {}
        ensures s in live && live[s] == AssetsOf(repo.db.records, dest, epoch, s)
      {
        ReopenBrokenAgrees(met.records, dest, epoch, broken, live, s);
      }
    }
  }

  lemma AgreeIff(records: map<nat, Record>, dest: nat, epoch: nat, groups: map<nat, set<Option<nat>>>,
        live: map<nat, set<Option<nat>>>)
    requires forall s :: s in groups <==> AssetsOf(records, dest, epoch, s) != {}
    requires forall s :: s in groups ==> groups[s] == AssetsOf(records, dest, epoch, s)
    ensures StacksAgree(records, dest, epoch, live) <==> forall s :: s in groups ==> s in live && live[s] == groups[s]
  {
    hide AssetsOf;
  }

  lemma ReopenOpensStacks(w: World, ctx: Ctx, dest: nat, epoch: nat, stacks: seq<nat>)
    ensures var after := Step(w, ReopenStacks(ctx, dest, epoch, stacks));
            forall id :: id in w.records ==> id in after.records && OnlyStackOpened(w.records[id], after.records[id])
  {
  }

  /** A whole recheck. `summed` are the records that have a checksum: only those can be asked
      about, and where there is none to ask about the stacks are not looked at either. `live`
      are the remote stacks, `answered` whether the remote side could be asked for them.
      `done` is false where the lease was lost or the remote side did not answer. */
  method Run(repo: UploadRepository, ctx: Ctx, dest: nat, summed: set<nat>, ids: seq<nat>, remote: map<nat, Answer>,
        at: nat, live: map<nat, set<Option<nat>>>, answered: bool, during: seq<Op>, later: seq<Op>)
    returns (checked: nat, done: bool)
    requires Inv(repo.db)
    requires forall id :: id in ids <==> ToCheck(repo.db, dest, id) && id in summed
    requires forall i, j :: 0 <= i < j < |ids| ==> ids[i] != ids[j]
    requires forall id :: id in ids ==> id in remote
    modifies repo
    ensures Inv(repo.db)
    ensures ids == [] ==> repo.db == old(repo.db) && done && checked == 0
    // without the lease nothing is written; with it, undisturbed, every record asked about shows
    // what the remote side said, and the recheck is done exactly if it answered for the stacks
    ensures ids != [] && !Leased(Ledger.Run(old(repo.db), during), ctx) ==>
              !done && checked == 0 && repo.db == Ledger.Run(old(repo.db), during)
    ensures ids != [] && !answered ==> !done
    ensures during == [] && later == [] && Leased(old(repo.db), ctx) ==>
              && checked == |ids| && (ids != [] ==> done == answered)
              && forall id :: id in ids ==> id in repo.db.records && Reflects(repo.db.records[id], remote[id], at)
    // undisturbed, the stacks on record are live ones exactly if some record could be asked about, or they were before
    ensures var epoch := old(repo.db).targets.Epoch(dest);
            during == [] && later == [] && done ==>
              (StacksAgree(repo.db.records, dest, epoch, live) <==>
                || (exists id :: ToCheck(old(repo.db), dest, id) && id in summed)
                || StacksAgree(old(repo.db).records, dest, epoch, live))
  {
    hide Inv, ToCheck, StacksAgree, Ledger.Run;
    var epoch := repo.db.targets.Epoch(dest);
    if ids == [] { return 0, true; }
    assert ids[0] in ids;
    RunNothing(repo.db);
    var written := CheckAssets(repo, ctx, dest, ids, remote, at, during);
    if written.None? { return 0, false; }
    checked := written.value;
    if !answered { return checked, false; }
    RunNothing(repo.db);
    done := ReconcileStacks(repo, ctx, dest, epoch, live, later);
  }

  lemma RunNothing(w: World)
    ensures Ledger.Run(w, []) == w
  {
  }

  function StackedPhoto(media: nat, asset: nat): Record
  {
    Record(0, 1, media, Complete, Unclaimed, Some(0), false, Some(asset), false, Some(0), Stacked(7, asset), 0)
  }

  /** Two photos, sent and stacked. */
  function BothStacked(): World
  {
    World(J.Table(map[], 0, 0),
      Targets(map[0 := Destination(true, false, 0)], map[0 := Revision(0, 1, 0, 0)], {}, {}, 1),
      map[], map[0 := StackedPhoto(0, 10), 1 := StackedPhoto(1, 11)], 2)
  }

  lemma BothStackedOk()
    ensures Inv(BothStacked())
  {
    var w := BothStacked();
    assert RecordOk(w.targets, w.records[0]) && RecordOk(w.targets, w.records[1]);
  }

  lemma RequeueIs(w: World, media: nat)
    ensures Step(w, RequeueSent(media)) == w.(records := Requeued(w.records, media))
  {
  }

  /** Then both are moved to another time zone. They keep their stack and wait to be sent
      again. Should the stack be gone on the remote side, no recheck notices: there is no
      record it could ask about. */
  lemma RequeuedStackIsNotCompared()
    ensures var w := Ledger.Run(BothStacked(), [RequeueSent(0), RequeueSent(1)]);
            && Inv(w) && (forall id :: !ToCheck(w, 0, id)) && !StacksAgree(w.records, 0, 1, map[])
  {
    hide Inv, Step;
    BothStackedOk();
    RunKeepsInv(BothStacked(), [RequeueSent(0), RequeueSent(1)]);
    RequeueIs(BothStacked(), 0);
    var first := Step(BothStacked(), RequeueSent(0));
    RequeueIs(first, 1);
    var second := Step(first, RequeueSent(1));
    assert [RequeueSent(0), RequeueSent(1)][1..] == [RequeueSent(1)] && [RequeueSent(1)][1..] == [];
    assert Ledger.Run(BothStacked(), [RequeueSent(0), RequeueSent(1)]) == Ledger.Run(first, [RequeueSent(1)])
        == Ledger.Run(second, []) == second;
    assert second.records[0] == StackedPhoto(0, 10).(state := NeedsRecheck);
    assert second.records[1] == StackedPhoto(1, 11).(state := NeedsRecheck);
    assert InStack(second.records[0], 0, 1, 7);
    assert Some(10) in AssetsOf(second.records, 0, 1, 7);
  }
}
