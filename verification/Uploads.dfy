/** The repository of upload records, statement by statement, against the ledger. */
module Uploads {
  import opened Options
  import J = Jobs
  import opened Ledger
  import opened LedgerSafety
  import opened Fences
  import opened Stacks

  datatype PairResult = Created | RetryQueued | AlreadyComplete | AlreadyActive | AwaitingDecision | Rejected

  lemma {:induction false} RunAppend(w: World, a: seq<Op>, op: Op)
    ensures Run(w, a + [op]) == Step(Run(w, a), op)
    decreases |a|
  {
    hide Step;
    if a == [] {
      assert [] + [op] == [op] && [op][1..] == [];
      assert Run(w, [op]) == Run(Step(w, op), []);
    } else {
      assert (a + [op])[1..] == a[1..] + [op];
      RunAppend(Step(w, a[0]), a[1..], op);
    }
  }

  // ----- what a request for pairs means

  /** The pairs of a request, in the order they are worked off. */
  function PairOps(media: seq<nat>, dests: seq<nat>, eligible: set<nat>): seq<Op>
  {
    if media == [] then []
    else PairOps(media[..|media| - 1], dests, eligible) + OpsOf(media[|media| - 1], dests, eligible)
  }

  function OpsOf(m: nat, dests: seq<nat>, eligible: set<nat>): seq<Op>
  {
    OpsFor(m, dests, m in eligible)
  }

  function OpsFor(m: nat, dests: seq<nat>, eligible: bool): (ops: seq<Op>)
    ensures |ops| == |dests| && forall k :: 0 <= k < |ops| ==> ops[k] == Pair(m, dests[k], eligible)
  {
    seq(|dests|, k requires 0 <= k < |dests| => Pair(m, dests[k], eligible))
  }

  /** Every pair that has a record still has one. */
  ghost predicate KeepsLive(before: World, after: World)
  {
    && after.targets == before.targets
    && forall d, m :: HasLive(before.records, d, before.targets.Epoch(d), m) ==>
        HasLive(after.records, d, after.targets.Epoch(d), m)
  }

  lemma PairKeepsLive(w: World, m: nat, d: nat, eligible: bool)
    requires Inv(w) && w.targets.Usable(d)
    ensures KeepsLive(w, Step(w, Pair(m, d, eligible)))
    ensures eligible ==> HasLive(Step(w, Pair(m, d, eligible)).records, d, w.targets.Epoch(d), m)
  {
    hide Inv, Step, HasLive;
    PairLeavesRecord(w, m, d, eligible, m, d);
    forall otherDest, other | HasLive(w.records, otherDest, w.targets.Epoch(otherDest), other)
      ensures HasLive(Step(w, Pair(m, d, eligible)).records, otherDest, w.targets.Epoch(otherDest), other)
    {
      PairLeavesRecord(w, m, d, eligible, other, otherDest);
    }
  }

  ghost predicate AllHave(w: World, media: seq<nat>, dests: seq<nat>, eligible: set<nat>)
  {
    forall m, d :: m in media && d in dests && m in eligible ==> HasLive(w.records, d, w.targets.Epoch(d), m)
  }

  lemma AllHaveMore(before: World, after: World, media: seq<nat>, m: nat, dests: seq<nat>, eligible: set<nat>)
    requires AllHave(before, media, dests, eligible) && KeepsLive(before, after)
    requires m in eligible ==> forall d :: d in dests ==> HasLive(after.records, d, after.targets.Epoch(d), m)
    ensures AllHave(after, media + [m], dests, eligible)
  {
  }

  lemma {:induction false} RunConcat(w: World, a: seq<Op>, b: seq<Op>)
    ensures Run(w, a + b) == Run(Run(w, a), b)
    decreases |a|
  {
    hide Step;
    if a == [] {
      assert [] + b == b;
    } else {
      assert (a + b)[1..] == a[1..] + b;
      RunConcat(Step(w, a[0]), a[1..], b);
    }
  }

  predicate Requestable(w: World, media: seq<nat>, dests: seq<nat>, known: set<nat>)
  {
    && media != [] && dests != []
    && (forall m :: m in media ==> m in known)
    && (forall d :: d in dests ==> w.targets.Usable(d))
  }

  /** The pair has exactly one record that counts. */
  ghost predicate HasOne(w: World, dest: nat, media: nat)
  {
    exists id :: id in w.records && LivePair(w.records[id], dest, w.targets.Epoch(dest), media)
      && forall other :: other in w.records && LivePair(w.records[other], dest, w.targets.Epoch(dest), media) ==>
          other == id
  }

  lemma LiveIsOne(w: World, dest: nat, media: nat)
    requires Inv(w) && HasLive(w.records, dest, w.targets.Epoch(dest), media)
    ensures HasOne(w, dest, media)
  {
    var id :| id in w.records && LivePair(w.records[id], dest, w.targets.Epoch(dest), media);
    forall other | other in w.records && LivePair(w.records[other], dest, w.targets.Epoch(dest),
        media) ensures other == id {
      assert Rivals(w.records[other], w.records[id]);
    }
  }

  /** A pair that is asked for and may be sent has a record afterwards, and working off
      other pairs takes none away. */
  lemma PairLeavesRecord(w: World, m: nat, d: nat, eligible: bool, other: nat, otherDest: nat)
    requires Inv(w) && w.targets.Usable(d)
    ensures var after := Step(w, Pair(m, d, eligible));
            && after.targets == w.targets && after.jobs == w.jobs
            && (eligible ==> HasLive(after.records, d, w.targets.Epoch(d), m))
            && (HasLive(w.records, otherDest, w.targets.Epoch(otherDest), other) ==>
                  HasLive(after.records, otherDest, w.targets.Epoch(otherDest), other))
  {
    hide Inv;
    var after := Step(w, Pair(m, d, eligible));
    var epoch := w.targets.Epoch(otherDest);
    if HasLive(w.records, otherDest, epoch, other) {
      var id :| id in w.records && LivePair(w.records[id], otherDest, epoch, other);
      IdBelow(w, id);
      assert LivePair(after.records[id], otherDest, epoch, other);
    }
    if eligible {
      if HasLive(w.records, d, w.targets.Epoch(d), m) {
        var id :| id in w.records && LivePair(w.records[id], d, w.targets.Epoch(d), m);
        assert LivePair(after.records[id], d, w.targets.Epoch(d), m);
      } else {
        assert LivePair(after.records[w.nextRecord], d, w.targets.Epoch(d), m);
      }
    }
  }

  /** The step of a pair that may be worked off, spelled out. */
  lemma PairStep(w: World, m: nat, d: nat, eligible: bool)
    requires w.targets.Usable(d)
    ensures var epoch := w.targets.Epoch(d);
            Step(w, Pair(m, d, eligible)) ==
              if HasLive(w.records, d, epoch, m) then w.(records := PairRetried(w.records, d, epoch, m))
              else if eligible then w.(records := w.records[w.nextRecord := NewRecord(w, m, d)],
                  nextRecord := w.nextRecord + 1)
              else w
    ensures Accepts(w, Pair(m, d, eligible)) <==> eligible || HasLive(w.records, d, w.targets.Epoch(d), m)
  {
  }

  lemma OnlyLive(w: World, d: nat, m: nat, id: nat)
    requires Inv(w) && id in w.records && LivePair(w.records[id], d, w.targets.Epoch(d), m)
    ensures forall other :: other in w.records && LivePair(w.records[other], d, w.targets.Epoch(d), m) ==> other == id
    ensures w.records[id].state.Failed? ==>
              PairRetried(w.records, d, w.targets.Epoch(d), m)
                == w.records[id := w.records[id].(state := Pending, claim := Unclaimed)]
    ensures !w.records[id].state.Failed? ==> PairRetried(w.records, d, w.targets.Epoch(d), m) == w.records
  {
    forall other | other in w.records && LivePair(w.records[other], d, w.targets.Epoch(d), m) ensures other == id {
      assert Rivals(w.records[other], w.records[id]);
    }
  }

  // ----- the queue

  function Queue(w: World, dest: nat): (ids: set<nat>)
    ensures ids <= w.records.Keys
  {
    if w.targets.Usable(dest) then set id | id in w.records && IsClaimable(w, dest, w.records[id]) else {}
  }

  /** Sum of the sizes of the media files of some records. */
  ghost function Bytes(records: map<nat, Record>, ids: set<nat>, sizes: map<nat, nat>): nat
    requires ids <= records.Keys
  {
    if ids == {} then 0
    else
      var id :| id in ids;
      SizeOf(records[id], sizes) + Bytes(records, ids - {id}, sizes)
  }

  function SizeOf(r: Record, sizes: map<nat, nat>): nat
  {
    if r.media in sizes then sizes[r.media] else 0
  }

  lemma BytesOfNone(records: map<nat, Record>, sizes: map<nat, nat>)
    ensures Bytes(records, {}, sizes) == 0
  {
  }

  lemma {:induction false} BytesRemove(records: map<nat, Record>, ids: set<nat>, id: nat, sizes: map<nat, nat>)
    requires ids <= records.Keys && id in ids
    ensures Bytes(records, ids, sizes) == SizeOf(records[id], sizes) + Bytes(records, ids - {id}, sizes)
    decreases ids
  {
    var first :| first in ids && Bytes(records, ids, sizes) == SizeOf(records[first], sizes) + Bytes(records,
        ids - {first}, sizes);
    if first != id {
      BytesRemove(records, ids - {first}, id, sizes);
      BytesRemove(records, ids - {id}, first, sizes);
      assert ids - {first} - {id} == ids - {id} - {first};
    }
  }

  lemma {:induction false} BytesSame(a: map<nat, Record>, b: map<nat, Record>, ids: set<nat>, sizes: map<nat, nat>)
    requires ids <= a.Keys && ids <= b.Keys
    requires forall id :: id in ids ==> a[id].media == b[id].media
    ensures Bytes(a, ids, sizes) == Bytes(b, ids, sizes)
    decreases ids
  {
    if ids != {} {
      var id :| id in ids;
      BytesRemove(a, ids, id, sizes);
      BytesRemove(b, ids, id, sizes);
      BytesSame(a, b, ids - {id}, sizes);
    }
  }

  lemma ClaimStep(w: World, dest: nat, ctx: Ctx, id: nat)
    requires w.targets.Usable(dest) && Picked(w, dest, id)
    ensures Accepts(w, ClaimNext(dest, ctx, id))
    ensures Step(w, ClaimNext(dest, ctx, id)) ==
              w.(records := w.records[id := w.records[id].(state := Checking,
                  revision := Some(w.targets.dests[dest].current),
                   claim := ClaimedBy(ctx.job, ctx.token, w.jobs.now + J.LEASE_SECONDS))])
  {
  }

  /** Claiming takes one record off the queue and changes nothing else about it. */
  lemma ClaimShortensQueue(w: World, dest: nat, ctx: Ctx, id: nat)
    requires Accepts(w, ClaimNext(dest, ctx, id))
    ensures var after := Step(w, ClaimNext(dest, ctx, id));
            && id in Queue(w, dest) && Queue(after, dest) == Queue(w, dest) - {id}
            && after.records.Keys == w.records.Keys
            && forall i :: i in w.records ==> after.records[i].media == w.records[i].media
  {
  }

  class UploadRepository {
    var db: World

    constructor (db: World)
      ensures this.db == db
    {
      this.db := db;
    }

    /** Expands media × destinations into records, all or nothing. */
    method CreatePairs(media: seq<nat>, dests: seq<nat>, known: set<nat>, eligible: set<nat>)
      returns (results: Option<seq<PairResult>>)
      requires Inv(db)
      modifies this
      ensures Inv(db) && db.targets == old(db).targets
      ensures results.Some? <==> Requestable(old(db), media, dests, known)
      ensures results.None? ==> db == old(db)
      ensures results.Some? ==>
                && db == Run(old(db), PairOps(media, dests, eligible))
                && |results.value| == |media| * |dests|
                && forall m, d :: m in media && d in dests && m in eligible ==> HasOne(db, d, m)
    {
      hide Inv, Step, HasLive, HasOne, Targets.Epoch;
      if !Requestable(db, media, dests, known) {
        return None;
      }
      var list: seq<PairResult> := [];
      for i := 0 to |media|
        invariant Inv(db) && db.targets == old(db).targets
        invariant db == Run(old(db), PairOps(media[..i], dests, eligible))
        invariant |list| == i * |dests|
        invariant AllHave(db, media[..i], dests, eligible)
      {
        ghost var before := db;
        var row := PairsOf(media[i], dests, media[i] in eligible);
        list := list + row;
        assert media[..i + 1][..i] == media[..i] && media[..i + 1] == media[..i] + [media[i]];
        RunConcat(old(db), PairOps(media[..i], dests, eligible), OpsOf(media[i], dests, eligible));
        AllHaveMore(before, db, media[..i], media[i], dests, eligible);
      }
      assert media[..|media|] == media;
      forall m, d | m in media && d in dests && m in eligible ensures HasOne(db, d, m) {
        LiveIsOne(db, d, m);
      }
      results := Some(list);
    }

    method PairsOf(m: nat, dests: seq<nat>, eligible: bool) returns (row: seq<PairResult>)
      requires Inv(db) && forall d :: d in dests ==> db.targets.Usable(d)
      modifies this
      ensures Inv(db) && db.targets == old(db).targets && |row| == |dests|
      ensures db == Run(old(db), OpsFor(m, dests, eligible))
      ensures KeepsLive(old(db), db)
      ensures eligible ==> forall d :: d in dests ==> HasLive(db.records, d, db.targets.Epoch(d), m)
    {
      hide Inv, Step, HasLive, Targets.Epoch;
      row := [];
      for k := 0 to |dests|
        invariant Inv(db) && db.targets == old(db).targets && |row| == k
        invariant db == Run(old(db), OpsFor(m, dests[..k], eligible))
        invariant KeepsLive(old(db), db)
        invariant eligible ==> forall d :: d in dests[..k] ==> HasLive(db.records, d, db.targets.Epoch(d), m)
      {
        ghost var before := db;
        assert dests[k] in dests;
        var result := OnePair(m, dests[k], eligible);
        row := row + [result];
        PairKeepsLive(before, m, dests[k], eligible);
        assert dests[..k + 1] == dests[..k] + [dests[k]];
        assert OpsFor(m, dests[..k + 1], eligible) == OpsFor(m, dests[..k], eligible) + [Pair(m, dests[k], eligible)];
        RunAppend(old(db), OpsFor(m, dests[..k], eligible), Pair(m, dests[k], eligible));
      }
      assert dests[..|dests|] == dests;
    }

    method OnePair(m: nat, d: nat, eligible: bool) returns (result: PairResult)
      requires Inv(db) && db.targets.Usable(d)
      modifies this
      ensures Inv(db) && db == Step(old(db), Pair(m, d, eligible))
      ensures result.Rejected? <==> !Accepts(old(db), Pair(m, d, eligible))
      ensures result.AlreadyActive? || result.AlreadyComplete? || result.AwaitingDecision? || result.Rejected? ==>
          db == old(db)
      ensures result.RetryQueued? <==>
                exists id :: id in old(db).records
                  && LivePair(old(db).records[id], d, old(db).targets.Epoch(d), m) && old(db).records[id].state.Failed?
    {
      hide Inv, Step, Accepts, PairRetried, Targets.Epoch;
      StepKeepsInv(db, Pair(m, d, eligible));
      PairStep(db, m, d, eligible);
      var epoch := db.targets.Epoch(d);
      if id: nat :| id in db.records && LivePair(db.records[id], d, epoch, m) {
        OnlyLive(db, d, m, id);
        match db.records[id].state {
          case Complete => result := AlreadyComplete;
          case AwaitingApproval => result := AwaitingDecision;
          case Failed =>
            db := db.(records := db.records[id := db.records[id].(state := Pending, claim := Unclaimed)]);
            result := RetryQueued;
          case Pending => result := Created;
          case NeedsRecheck => result := Created;
          case _ => result := AlreadyActive;
        }
      } else if eligible {
        db := db.(records := db.records[db.nextRecord := NewRecord(db, m, d)], nextRecord := db.nextRecord + 1);
        result := Created;
      } else {
        result := Rejected;
      }
    }

    /** Takes the oldest claimable record, by compare-and-set. */
    method ClaimNext(dest: nat, ctx: Ctx) returns (r: Option<nat>)
      requires Inv(db)
      modifies this
      ensures Inv(db)
      ensures r.None? <==> Queue(old(db), dest) == {}
      ensures r.None? ==> db == old(db)
      ensures r.Some? ==>
                && Accepts(old(db), Ledger.ClaimNext(dest, ctx, r.value))
                && db == Step(old(db), Ledger.ClaimNext(dest, ctx, r.value))
    {
      hide Inv, Step, Accepts, Targets.Epoch;
      r := None;
      if !db.targets.Usable(dest) { return; }
      var queue := Queue(db, dest);
      var unseen := queue;
      while unseen != {}
        invariant unseen <= queue && db == old(db) && (r.None? ==> unseen == queue)
        invariant r.Some? ==> r.value in queue
        invariant r.Some? ==> forall id :: id in queue - unseen ==>
            db.records[r.value].created <= db.records[id].created
        decreases unseen
      {
        var id :| id in unseen;
        unseen := unseen - {id};
        if r.None? || db.records[id].created < db.records[r.value].created { r := Some(id); }
      }
      if r.Some? {
        RecordIsOk(db, r.value);
        forall other | other in db.records && IsClaimable(db, dest, db.records[other])
          ensures db.records[r.value].created <= db.records[other].created
        {
          assert other in queue - unseen;
        }
        ClaimStep(db, dest, ctx, r.value);
        StepKeepsInv(db, Ledger.ClaimNext(dest, ctx, r.value));
        db := db.(records := db.records[r.value := db.records[r.value].(state := Checking,
                    revision := Some(db.targets.dests[dest].current),
                    claim := ClaimedBy(ctx.job, ctx.token, db.jobs.now + J.LEASE_SECONDS))]);
      }
    }

    /** The denominator of the progress display, counted once at the start. */
    method SendableTotals(dest: nat, sizes: map<nat, nat>) returns (files: nat, bytes: nat)
      ensures files == |Queue(db, dest)| && bytes == Bytes(db.records, Queue(db, dest), sizes)
    {
      files, bytes := 0, 0;
      var unseen := Queue(db, dest);
      while unseen != {}
        invariant unseen <= Queue(db, dest)
        invariant files + |unseen| == |Queue(db, dest)|
        invariant bytes + Bytes(db.records, unseen, sizes) == Bytes(db.records, Queue(db, dest), sizes)
        decreases unseen
      {
        var id :| id in unseen;
        BytesRemove(db.records, unseen, id, sizes);
        files, bytes, unseen := files + 1, bytes + SizeOf(db.records[id], sizes), unseen - {id};
      }
    }

    /** Claims until nothing is left. What comes out is what `SendableTotals` promised. */
    method Drain(dest: nat, ctx: Ctx, sizes: map<nat, nat>) returns (files: nat, bytes: nat)
      requires Inv(db)
      modifies this
      ensures Inv(db) && Queue(db, dest) == {}
      ensures files == |Queue(old(db), dest)| && bytes == Bytes(old(db).records, Queue(old(db), dest), sizes)
    {
      hide Inv, Step, Accepts, Queue, Effect, Bytes;
      files, bytes := 0, 0;
      BytesOfNone(db.records, sizes);
      ghost var left := Queue(db, dest);
      var next := ClaimNext(dest, ctx);
      if next.Some? { ClaimShortensQueue(old(db), dest, ctx, next.value); }
      while next.Some?
        invariant Inv(db)
        invariant next.None? ==> Queue(db, dest) == {} && left == {}
        invariant next.Some? ==> next.value in left && Queue(db, dest) == left - {next.value}
        invariant left <= db.records.Keys == old(db).records.Keys
        invariant forall i :: i in db.records ==> db.records[i].media == old(db).records[i].media
        invariant files + |left| == |Queue(old(db), dest)|
        invariant bytes + Bytes(old(db).records, left, sizes) == Bytes(old(db).records, Queue(old(db), dest), sizes)
        decreases left
      {
        files, bytes := files + 1, bytes + SizeOf(db.records[next.value], sizes);
        BytesRemove(old(db).records, left, next.value, sizes);
        left := left - {next.value};
        ghost var before := db;
        next := ClaimNext(dest, ctx);
        if next.Some? { ClaimShortensQueue(before, dest, ctx, next.value); }
      }
    }

    /** `_locked_cas`: moves a record its owner holds, and opens its stack first when the
        asset changes. `owned` also checks the lease; `drop` ends the claim. */
    method LockedCas(ctx: Ctx, owned: bool, id: nat, state: State, from: State, asset: Field,
          drop: bool) returns (ok: bool)
      requires Inv(db) && if drop then state.Final() else state.Active()
      modifies this
      ensures var op := if drop then FinishRecord(ctx, owned, id, state, from, asset) else Advance(ctx, owned, id,
          state, from, asset);
              Inv(db) && db == Step(old(db), op) && ok == Accepts(old(db), op)
    {
      hide Inv, Step, Accepts, Effect, Owns, ReopenStackOf;
      ghost var op := if drop then FinishRecord(ctx, owned, id, state, from, asset) else Advance(ctx, owned, id,
          state, from, asset);
      StepKeepsInv(db, op);
      CasStep(db, ctx, owned, id, state, from, asset, drop);
      if owned && !Leased(db, ctx) { return false; }
      var was := db;
      if asset.Set? && id in db.records && asset.asset != db.records[id].asset {
        ReopenKeepsOwner(db, id, ctx.token);
        Reopen(id);
      }
      if !Owns(db, id, ctx.token, true) || db.records[id].state != from {
        db := was;
        return false;
      }
      var r := Written(db.records[id], asset).(state := state);
      db := db.(records := db.records[id := if drop then r.(claim := Unclaimed) else r]);
      ok := true;
    }

    /** Right before the outside world is touched: lease, claim, state and, where asked for,
        the reason for sending, all in one transaction. */
    method PrepareSideEffect(ctx: Ctx, id: nat, from: State, eligible: bool) returns (ok: bool)
      requires Inv(db)
      modifies this
      ensures Inv(db) && db == Step(old(db), Prepare(ctx, id, from, eligible))
          && ok == Accepts(old(db), Prepare(ctx, id, from, eligible))
    {
      hide Inv, Step;
      StepKeepsInv(db, Prepare(ctx, id, from, eligible));
      OwnStep(db, Prepare(ctx, id, from, eligible));
      ok := Leased(db, ctx) && eligible && Owns(db, id, ctx.token, true) && db.records[id].state == from;
      if ok {
        db := db.(records := db.records[id := db.records[id].(claim := db.records[id].claim.(expires := db.jobs.now + J.LEASE_SECONDS))]);
      }
    }

    /** Takes a record that waits for an approval. */
    method ClaimForApproval(ctx: Ctx, id: nat) returns (ok: bool)
      requires Inv(db)
      modifies this
      ensures Inv(db) && db == Step(old(db), Ledger.ClaimForApproval(ctx, id))
          && ok == Accepts(old(db), Ledger.ClaimForApproval(ctx, id))
    {
      hide Inv, Step;
      StepKeepsInv(db, Ledger.ClaimForApproval(ctx, id));
      OwnStep(db, Ledger.ClaimForApproval(ctx, id));
      ok := id in db.records && db.records[id].state.AwaitingApproval? && !db.records[id].invalidated
          && db.records[id].claim.Unclaimed?;
      if ok {
        db := db.(records := db.records[id := db.records[id].(state := FixingDatetime,
                    claim := ClaimedBy(ctx.job, ctx.token, db.jobs.now + J.LEASE_SECONDS))]);
      }
    }

    /** Gives the record back to a person; a lost claim is ignored. */
    method ReleaseFromApproval(id: nat, token: nat)
      requires Inv(db)
      modifies this
      ensures Inv(db) && db == Step(old(db), Ledger.ReleaseFromApproval(id, token))
    {
      hide Inv, Step;
      StepKeepsInv(db, Ledger.ReleaseFromApproval(id, token));
      OwnStep(db, Ledger.ReleaseFromApproval(id, token));
      if Owns(db, id, token, false) {
        db := db.(records := db.records[id := db.records[id].(state := AwaitingApproval, claim := Unclaimed)]);
      }
    }

    /** Writes the results of a recheck in one transaction; a result whose record has
        moved since it was read is dropped. */
    method StampMany(ctx: Ctx, stamps: seq<Stamp>, at: nat) returns (written: Option<set<nat>>)
      requires Inv(db)
      modifies this
      ensures Inv(db) && db == Step(old(db), Ledger.StampMany(ctx, stamps, at))
      ensures written.None? <==> !Leased(old(db), ctx)
      ensures written.Some? ==> written.value == Stamped(old(db).records, stamps, at)
    {
      hide Inv, Step, StillSo;
      StampStep(db, ctx, stamps, at);
      StepKeepsInv(db, Ledger.StampMany(ctx, stamps, at));
      if !Leased(db, ctx) { return None; }
      var ids: set<nat> := {};
      for i := 0 to |stamps|
        invariant db == old(db).(records := StampAll(old(db).records, stamps[..i], at))
        invariant ids == Stamped(old(db).records, stamps[..i], at)
      {
        assert stamps[..i + 1][..i] == stamps[..i];
        var s := stamps[i];
        if StillSo(db.records, s) {
          SeenRecord(db.records, s);
          if s.asset != s.seenAsset { Reopen(s.id); }
          db := db.(records := db.records[s.id := db.records[s.id].(asset := s.asset, trashed := s.trashed,
                      checked := Some(at), invalidated := db.records[s.id].invalidated || s.asset.None?)]);
          ids := ids + {s.id};
        }
      }
      assert stamps[..|stamps|] == stamps;
      written := Some(ids);
    }

    /** `_reopen_stack_of`. */
    method Reopen(id: nat)
      requires id in db.records
      modifies this
      ensures db == old(db).(records := ReopenStackOf(old(db).records, id)) && id in db.records
    {
      var r := db.records[id];
      if r.stack.Stacked? {
        db := db.(records := map i | i in db.records ::
                    if InStack(db.records[i], r.dest, r.epoch, r.stack.stack)
                    then db.records[i].(stack := Unevaluated) else db.records[i]);
      }
    }

    /** Records a stack on all its members, or on none: a member that does not match
        rolls everything back. */
    method MarkStacked(ctx: Ctx, members: seq<Member>, dest: nat, epoch: nat, profile: nat, profileRevision: nat,
          stack: nat)
      returns (ok: bool)
      requires Inv(db)
      modifies this
      ensures Inv(db)
      ensures var op := Ledger.MarkStacked(ctx, members, dest, epoch, profile, profileRevision, stack);
              ok == Accepts(old(db), op) && db == Step(old(db), op)
      ensures !ok ==> db == old(db)
      ensures ok ==> forall i :: 0 <= i < |members| ==>
                && members[i].id in db.records && db.records[members[i].id].stack.Stacked?
                && db.records[members[i].id].stack.stack == stack
    {
      hide Inv, Step, Accepts, MarkAll, Markable, Current;
      MarkStep(db, ctx, members, dest, epoch, profile, profileRevision, stack);
      StepKeepsInv(db, Ledger.MarkStacked(ctx, members, dest, epoch, profile, profileRevision, stack));
      if !Current(db, ctx, dest, epoch, profile, profileRevision) { return false; }
      var records := db.records;
      assert members[..0] == [];
      MarkNone(records, stack);
      for i := 0 to |members|
        invariant db == old(db) && records == MarkAll(db.records, members[..i], stack)
        invariant DistinctIds(members[..i])
        invariant forall k :: 0 <= k < i ==> Markable(db.records, members[k], epoch)
      {
        var m := members[i];
        MarkedKeys(db.records, members[..i], stack);
        if !Markable(records, m, epoch) {
          MarkedTwiceOrNot(db.records, members, i, epoch, stack);
          return false;
        }
        MarkNext(db.records, members, i, epoch, stack);
        records := records[m.id := records[m.id].(stack := Stacked(stack, m.asset.value))];
      }
      assert members[..|members|] == members;
      AllMarked(db.records, members, epoch, stack);
      db := db.(records := records);
      ok := true;
    }

    /** Reopens stacks that no longer match; returns how many of them were still recorded. */
    method ReopenStacks(ctx: Ctx, dest: nat, epoch: nat, stacks: seq<nat>) returns (reopened: Option<nat>)
      requires Inv(db)
      modifies this
      ensures Inv(db) && db == Step(old(db), Ledger.ReopenStacks(ctx, dest, epoch, stacks))
      ensures reopened.None? <==> !Leased(old(db), ctx)
      ensures reopened.Some? ==> reopened.value <= |stacks|
      ensures reopened.Some? ==> forall s :: s in stacks ==> AssetsOf(db.records, dest, epoch, s) == {}
    {
      hide Inv, Step, AssetsOf;
      ReopenStep(db, ctx, dest, epoch, stacks);
      StepKeepsInv(db, Ledger.ReopenStacks(ctx, dest, epoch, stacks));
      if !Leased(db, ctx) { return None; }
      var count := 0;
      for i := 0 to |stacks|
        invariant db == old(db).(records := ReopenAll(old(db).records, dest, epoch, stacks[..i])) && count <= i
      {
        var s := stacks[i];
        var hit := exists id :: id in db.records && !db.records[id].invalidated && InStack(db.records[id], dest, epoch, s);
        db := db.(records := ReopenAll(db.records, dest, epoch, [s]));
        if hit { count := count + 1; }
        ReopenInTurn(old(db).records, dest, epoch, stacks, i);
      }
      assert stacks[..|stacks|] == stacks;
      reopened := Some(count);
    }

    /** The stacks on record, with the assets of each. */
    method StackedGroups(dest: nat, epoch: nat) returns (groups: map<nat, set<Option<nat>>>)
      ensures forall s :: s in groups <==> AssetsOf(db.records, dest, epoch, s) != {}
      ensures forall s :: s in groups ==> groups[s] == AssetsOf(db.records, dest, epoch, s)
    {
      groups := map[];
      var unseen := db.records.Keys;
      while unseen != {}
        invariant unseen <= db.records.Keys
        invariant GroupsOver(groups, db.records, db.records.Keys - unseen, dest, epoch)
        decreases unseen
      {
        var id :| id in unseen;
        var r := db.records[id];
        GroupsGrow(groups, db.records, db.records.Keys - unseen, id, dest, epoch);
        if r.dest == dest && r.epoch == epoch && !r.invalidated && r.stack.Stacked? {
          var known := if r.stack.stack in groups then groups[r.stack.stack] else {};
          groups := groups[r.stack.stack := known + {r.asset}];
        }
        assert db.records.Keys - (unseen - {id}) == db.records.Keys - unseen + {id};
        unseen := unseen - {id};
      }
      assert db.records.Keys - {} == db.records.Keys;
      GroupsOfAll(groups, db.records, dest, epoch);
    }
  }

  /** Opening a stack takes a record from nobody. */
  lemma ReopenKeepsOwner(w: World, id: nat, token: nat)
    requires id in w.records
    ensures var after := w.(records := ReopenStackOf(w.records, id));
            && id in after.records && after.records[id].state == w.records[id].state
            && Owns(after, id, token, true) == Owns(w, id, token, true)
  {
  }

  lemma CasStep(w: World, ctx: Ctx, owned: bool, id: nat, state: State, from: State, asset: Field, drop: bool)
    requires if drop then state.Final() else state.Active()
    ensures var op := if drop then FinishRecord(ctx, owned, id, state, from, asset) else Advance(ctx, owned, id,
        state, from, asset);
            && (Accepts(w, op) <==> (owned ==> Leased(w, ctx)) && Owns(w, id, ctx.token, true) && w.records[id].state == from)
            && (Owns(w, id, ctx.token, true) ==> id in w.records)
            && (!Accepts(w, op) ==> Step(w, op) == w)
            && (Accepts(w, op) ==>
                  var reopened := BeforeAssetChange(w.records, id, asset); var r := Written(reopened[id],
                      asset).(state := state);
                  Step(w, op) == w.(records := reopened[id := if drop then r.(claim := Unclaimed) else r]))
  {
  }

  lemma OwnStep(w: World, op: Op)
    ensures Step(w, op) == if Accepts(w, op) then Effect(w, op) else w
  {
  }

  lemma SeenRecord(records: map<nat, Record>, s: Stamp)
    requires StillSo(records, s)
    ensures s.id in records && records[s.id].asset == s.seenAsset
  {
  }

  /** The records a transaction of stamps writes: those unmoved when their turn comes. */
  function Stamped(records: map<nat, Record>, stamps: seq<Stamp>, at: nat): set<nat>
    decreases |stamps|
  {
    if stamps == [] then {}
    else
      var earlier := stamps[..|stamps| - 1];
      var s := stamps[|stamps| - 1];
      Stamped(records, earlier, at) + (if StillSo(StampAll(records, earlier, at), s) then {s.id} else {})
  }

  lemma StampStep(w: World, ctx: Ctx, stamps: seq<Stamp>, at: nat)
    ensures Step(w, StampMany(ctx, stamps, at)) ==
              if Leased(w, ctx) then w.(records := StampAll(w.records, stamps, at)) else w
  {
  }

  lemma MarkStep(w: World, ctx: Ctx, members: seq<Member>, dest: nat, epoch: nat, profile: nat, profileRevision: nat,
        stack: nat)
    ensures var op := MarkStacked(ctx, members, dest, epoch, profile, profileRevision, stack);
            && (Accepts(w, op) <==>
                  && Current(w, ctx, dest, epoch, profile, profileRevision) && DistinctIds(members)
                  && forall i :: 0 <= i < |members| ==> Markable(w.records, members[i], epoch))
            && Step(w, op) == if Accepts(w, op) then w.(records := MarkAll(w.records, members, stack)) else w
  {
  }

  lemma ReopenStep(w: World, ctx: Ctx, dest: nat, epoch: nat, stacks: seq<nat>)
    ensures Step(w, ReopenStacks(ctx, dest, epoch, stacks)) ==
              if Leased(w, ctx) then w.(records := ReopenAll(w.records, dest, epoch, stacks)) else w
    ensures forall s :: s in stacks ==> AssetsOf(ReopenAll(w.records, dest, epoch, stacks), dest, epoch, s) == {}
  {
  }

  lemma ReopenInTurn(records: map<nat, Record>, dest: nat, epoch: nat, stacks: seq<nat>, i: nat)
    requires i < |stacks|
    ensures ReopenAll(ReopenAll(records, dest, epoch, stacks[..i]), dest, epoch, [stacks[i]])
              == ReopenAll(records, dest, epoch, stacks[..i + 1])
  {
    assert stacks[..i + 1] == stacks[..i] + [stacks[i]];
  }

  /** A member that can no longer be marked was either unfit or has just been marked. */
  lemma MarkedKeys(records: map<nat, Record>, members: seq<Member>, stack: nat)
    ensures MarkAll(records, members, stack).Keys == records.Keys
    ensures forall m, epoch :: Markable(records, m, epoch) ==> m.id in records && m.asset.Some?
    ensures forall m, epoch :: Markable(MarkAll(records, members, stack), m, epoch) ==> m.id in records && m.asset.Some?
  {
  }

  lemma MarkNone(records: map<nat, Record>, stack: nat)
    ensures MarkAll(records, [], stack) == records
  {
  }

  lemma AllMarked(records: map<nat, Record>, members: seq<Member>, epoch: nat, stack: nat)
    requires forall i :: 0 <= i < |members| ==> Markable(records, members[i], epoch)
    ensures forall i :: 0 <= i < |members| ==>
              && members[i].id in MarkAll(records, members, stack)
              && MarkAll(records, members, stack)[members[i].id].stack.Stacked?
              && MarkAll(records, members, stack)[members[i].id].stack.stack == stack
  {
    forall i | 0 <= i < |members| ensures IsMember(members, members[i].id) { }
  }

  lemma MarkedTwiceOrNot(records: map<nat, Record>, members: seq<Member>, i: nat, epoch: nat, stack: nat)
    requires i < |members| && !Markable(MarkAll(records, members[..i], stack), members[i], epoch)
    ensures !DistinctIds(members) || !Markable(records, members[i], epoch)
  {
    if Markable(records, members[i], epoch) {
      assert IsMember(members[..i], members[i].id);
      var k :| 0 <= k < i && members[..i][k].id == members[i].id;
      assert members[k].id == members[i].id;
    }
  }

  lemma MarkNext(records: map<nat, Record>, members: seq<Member>, i: nat, epoch: nat, stack: nat)
    requires i < |members| && DistinctIds(members[..i])
    requires Markable(MarkAll(records, members[..i], stack), members[i], epoch)
    requires forall k :: 0 <= k < i ==> Markable(records, members[k], epoch)
    ensures DistinctIds(members[..i + 1]) && Markable(records, members[i], epoch)
    ensures var marked := MarkAll(records, members[..i], stack);
            marked[members[i].id := marked[members[i].id].(stack := Stacked(stack, members[i].asset.value))]
              == MarkAll(records, members[..i + 1], stack)
  {
    var m := members[i];
    assert !IsMember(members[..i], m.id);
    forall k | 0 <= k < i ensures members[k].id != m.id {
      assert members[..i][k] == members[k];
    }
    assert members[..i + 1] == members[..i] + [m];
    forall id ensures IsMember(members[..i + 1], id) <==> IsMember(members[..i], id) || id == m.id {
      if IsMember(members[..i], id) {
        var k :| 0 <= k < i && members[..i][k].id == id;
        assert members[..i + 1][k].id == id;
      }
      assert members[..i + 1][i] == m;
    }
  }

  /** `groups` collects the stacks of the records in `ids`. */
  ghost predicate GroupsOver(groups: map<nat, set<Option<nat>>>, records: map<nat, Record>, ids: set<nat>, dest: nat,
        epoch: nat)
  {
    && (forall s :: s in groups <==> SomeAssets(records, ids, dest, epoch, s) != {})
    && (forall s :: s in groups ==> groups[s] == SomeAssets(records, ids, dest, epoch, s))
  }

  ghost function SomeAssets(records: map<nat, Record>, ids: set<nat>, dest: nat, epoch: nat,
        stack: nat): set<Option<nat>>
  {
    set id | id in ids && id in records && !records[id].invalidated
        && InStack(records[id], dest, epoch, stack) :: records[id].asset
  }

  lemma GroupsGrow(groups: map<nat, set<Option<nat>>>, records: map<nat, Record>, ids: set<nat>, id: nat, dest: nat,
        epoch: nat)
    requires GroupsOver(groups, records, ids, dest, epoch) && id in records
    ensures var r := records[id];
            var counts := r.dest == dest && r.epoch == epoch && !r.invalidated && r.stack.Stacked?;
            var known := if counts && r.stack.stack in groups then groups[r.stack.stack] else {};
            GroupsOver(if counts then groups[r.stack.stack := known + {r.asset}] else groups, records, ids + {id},
                dest, epoch)
  {
    var r := records[id];
    forall s ensures SomeAssets(records, ids + {id}, dest, epoch, s)
                       == SomeAssets(records, ids, dest, epoch, s) + (if !r.invalidated
                           && InStack(r, dest, epoch, s) then {r.asset} else {})
    {
    }
  }

  lemma GroupsOfAll(groups: map<nat, set<Option<nat>>>, records: map<nat, Record>, dest: nat, epoch: nat)
    requires GroupsOver(groups, records, records.Keys, dest, epoch)
    ensures forall s :: s in groups <==> AssetsOf(records, dest, epoch, s) != {}
    ensures forall s :: s in groups ==> groups[s] == AssetsOf(records, dest, epoch, s)
  {
    forall s ensures SomeAssets(records, records.Keys, dest, epoch, s) == AssetsOf(records, dest, epoch, s) {
    }
  }
}
