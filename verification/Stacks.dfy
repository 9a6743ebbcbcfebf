/** Stacks are results about assets: they end, as a whole, when one of the assets changes. */
module Stacks {
  import J = Jobs
  import opened Options
  import opened Ledger
  import opened LedgerSafety
  import opened Fences

  /** Over all runs a stacked record still has the asset it was stacked with. */
  lemma StackedAssetKept(w: World, ops: seq<Op>, id: nat)
    requires Inv(w)
    ensures var after := Run(w, ops).records;
            id in after && after[id].stack.Stacked? ==> after[id].asset == Some(after[id].stack.of)
  {
    RunKeepsInv(w, ops);
    if id in Run(w, ops).records { RecordIsOk(Run(w, ops), id); }
  }

  /** No record of this destination and epoch is in the stack. */
  ghost predicate Open(records: map<nat, Record>, dest: nat, epoch: nat, stack: nat)
  {
    forall id :: id in records ==> !InStack(records[id], dest, epoch, stack)
  }

  /** Nothing enters a stack, and each stack either keeps all its records, with their
      assets, or opens as a whole. */
  ghost predicate OpensWhole(before: map<nat, Record>, after: map<nat, Record>)
  {
    && after.Keys == before.Keys
    && (forall id :: id in after ==>
          SameRecord(before[id], after[id]) && (after[id].stack.Stacked? ==> after[id].stack == before[id].stack))
    && (forall id :: id in after && before[id].stack.Stacked? ==>
          || (after[id].stack == before[id].stack && after[id].asset == before[id].asset)
          || Open(after, before[id].dest, before[id].epoch, before[id].stack.stack))
  }

  lemma ReopenOpens(records: map<nat, Record>, id: nat)
    requires id in records && records[id].stack.Stacked?
    ensures OpensWhole(records, ReopenStackOf(records, id))
    ensures Open(ReopenStackOf(records, id), records[id].dest, records[id].epoch, records[id].stack.stack)
  {
  }

  lemma OpensTransitive(a: map<nat, Record>, b: map<nat, Record>, c: map<nat, Record>)
    requires OpensWhole(a, b) && OpensWhole(b, c)
    ensures OpensWhole(a, c)
  {
    forall id | id in c && a[id].stack.Stacked? && Open(b, a[id].dest, a[id].epoch, a[id].stack.stack)
      ensures Open(c, a[id].dest, a[id].epoch, a[id].stack.stack)
    {
      forall other | other in c ensures !InStack(c[other], a[id].dest, a[id].epoch, a[id].stack.stack) {
        assert !InStack(b[other], a[id].dest, a[id].epoch, a[id].stack.stack);
      }
    }
  }

  /** Writing the record once its stack has been opened, or with the asset it had. */
  lemma WriteOpens(records: map<nat, Record>, id: nat, asset: Field, r: Record)
    requires id in records && SameRecord(records[id], r)
    requires var reopened := BeforeAssetChange(records, id, asset);
             && id in reopened && r.stack == reopened[id].stack && r.asset == Written(reopened[id], asset).asset
    ensures OpensWhole(records, BeforeAssetChange(records, id, asset)[id := r])
  {
    var reopened := BeforeAssetChange(records, id, asset);
    if records[id].stack.Stacked? { ReopenOpens(records, id); }
    assert OpensWhole(records, reopened);
    assert OpensWhole(reopened, reopened[id := r]);
    OpensTransitive(records, reopened, reopened[id := r]);
  }

  lemma StampOneOpens(records: map<nat, Record>, s: Stamp, at: nat)
    ensures OpensWhole(records, StampOne(records, s, at))
  {
    if StillSo(records, s) {
      var reopened := BeforeAssetChange(records, s.id, Set(s.asset));
      WriteOpens(records, s.id, Set(s.asset),
        reopened[s.id].(asset := s.asset, trashed := s.trashed, checked := Some(at),
                        invalidated := reopened[s.id].invalidated || s.asset.None?));
    }
  }

  lemma {:induction false} StampAllOpens(records: map<nat, Record>, stamps: seq<Stamp>, at: nat)
    ensures OpensWhole(records, StampAll(records, stamps, at))
    decreases |stamps|
  {
    hide OpensWhole, StampOne;
    if stamps == [] {
      OpensReflexive(records);
    } else {
      var earlier := StampAll(records, stamps[..|stamps| - 1], at);
      StampAllOpens(records, stamps[..|stamps| - 1], at);
      StampOneOpens(earlier, stamps[|stamps| - 1], at);
      OpensTransitive(records, earlier, StampOne(earlier, stamps[|stamps| - 1], at));
    }
  }

  lemma OpensReflexive(records: map<nat, Record>)
    ensures OpensWhole(records, records)
  {
  }

  lemma OwnersWriteOpens(w: World, op: Op)
    requires Accepts(w, op) && (op.Advance? || op.FinishRecord?)
    ensures OpensWhole(w.records, Effect(w, op).records)
  {
    hide OpensWhole;
    var reopened := BeforeAssetChange(w.records, op.id, op.asset);
    assert op.id in reopened;
    if op.Advance? {
      WriteOpens(w.records, op.id, op.asset, Written(reopened[op.id], op.asset).(state := op.state));
    } else {
      WriteOpens(w.records, op.id, op.asset, Written(reopened[op.id], op.asset).(state := op.state,
          claim := Unclaimed));
    }
  }

  lemma StampsOpen(w: World, ctx: Ctx, stamps: seq<Stamp>, at: nat)
    requires Accepts(w, StampMany(ctx, stamps, at))
    ensures OpensWhole(w.records, Effect(w, StampMany(ctx, stamps, at)).records)
  {
    hide OpensWhole, StampAll;
    StampAllOpens(w.records, stamps, at);
  }

  /** Whatever writes assets opens stacks as a whole: when the asset of a stacked record
      has changed, no record is left in that stack. */
  lemma AssetChangeOpensStack(w: World, op: Op, id: nat)
    requires op.Advance? || op.FinishRecord? || op.StampMany?
    requires id in w.records && id in Step(w, op).records
    requires w.records[id].stack.Stacked? && Step(w, op).records[id].asset != w.records[id].asset
    ensures Open(Step(w, op).records, w.records[id].dest, w.records[id].epoch, w.records[id].stack.stack)
  {
    hide Accepts, Effect;
    if op.StampMany? {
      StampsOpen(w, op.ctx, op.stamps, op.at);
    } else {
      OwnersWriteOpens(w, op);
    }
  }

  /** No other operation changes an asset. */
  lemma OnlyOwnersAndStampsChangeAssets(w: World, op: Op, id: nat)
    requires Inv(w) && id in w.records && id in Step(w, op).records
    requires !op.Advance? && !op.FinishRecord? && !op.StampMany?
    ensures Step(w, op).records[id].asset == w.records[id].asset
  {
    hide Inv, J.Accepts, J.Effect;
    IdBelow(w, id);
  }

  // ----- comparing with the remote side

  /** What the ledger records as stacked: the stack's assets, over records that count. */
  ghost function AssetsOf(records: map<nat, Record>, dest: nat, epoch: nat, stack: nat): set<Option<nat>>
  {
    set id | id in records && !records[id].invalidated && InStack(records[id], dest, epoch, stack) :: records[id].asset
  }

  /** After the stacks that differ from the remote ones have been reopened, every stack
      still recorded is one of the remote stacks, with the same assets. */
  lemma ReopenBrokenAgrees(records: map<nat, Record>, dest: nat, epoch: nat, broken: seq<nat>, live: map<nat,
        set<Option<nat>>>, stack: nat)
    requires stack !in broken && AssetsOf(records, dest, epoch, stack) != {} ==>
               stack in live && live[stack] == AssetsOf(records, dest, epoch, stack)
    ensures var after := ReopenAll(records, dest, epoch, broken);
            AssetsOf(after, dest, epoch, stack) != {} ==>
              stack in live && live[stack] == AssetsOf(after, dest, epoch, stack)
  {
    var after := ReopenAll(records, dest, epoch, broken);
    if stack in broken {
      assert AssetsOf(after, dest, epoch, stack) == {};
    } else {
      forall a ensures a in AssetsOf(after, dest, epoch, stack) <==> a in AssetsOf(records, dest, epoch, stack) {
        if a in AssetsOf(records, dest, epoch, stack) {
          var id :| id in records && !records[id].invalidated && InStack(records[id], dest, epoch, stack)
              && records[id].asset == a;
          assert after[id] == records[id];
        }
      }
      assert AssetsOf(after, dest, epoch, stack) == AssetsOf(records, dest, epoch, stack);
    }
  }
}
