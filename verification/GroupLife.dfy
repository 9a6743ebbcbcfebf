/** What becomes of merge groups and of the files they held. */
module GroupLife {
  import opened Options
  import L = Ledger
  import opened Merges
  import opened MergeSafety

  /** Nobody sends the file or waits to. */
  predicate AtRest(records: map<nat, L.Record>, m: nat)
  {
    forall id :: id in records && records[id].media == m && !records[id].invalidated ==>
      !records[id].state.Active() && !records[id].state.Claimable()
  }

  /** The group an edit takes its files from. */
  function Edited(w: World, op: Op): Option<nat>
  {
    match op
    case Discard(g) => Some(g)
    case Supersede(g, _, _) => Some(g)
    case DeleteDerived(m) =>
      var owner := Owner(w.groups, m);
      if owner.Some? && w.groups[owner.value].Live() then owner else None
    case _ => None
  }

  lemma WithdrawSettles(w: World, g: nat, m: nat)
    requires g in w.groups && Editable(w, g) && w.groups[g].Holds(m)
    ensures AtRest(Withdraw(w.records, w.groups[g]), m)
  {
  }

  /** A discard or a replacement that commits leaves no record of a former member
      that is being sent or could be. */
  lemma EditLeavesMembersAtRest(w: World, op: Op, m: nat)
    requires Accepts(w, op) && Edited(w, op).Some?
    requires Edited(w, op).value in w.groups && w.groups[Edited(w, op).value].Holds(m)
    ensures AtRest(Step(w, op).records, m)
  {
    hide Editable, Withdraw, AtRest, CanInsert, PointedAt, IsReferenced, Blocker, Group.Holds;
    var g := Edited(w, op).value;
    match op
    case Discard(_) => WithdrawSettles(w, g, m);
    case Supersede(_, _, _) => WithdrawSettles(w, g, m);
    case DeleteDerived(f) =>
      WithdrawSettles(w, g, m);
      FewerAtRest(Withdraw(w.records, w.groups[g]), f, m);
    case _ =>
  }

  lemma FewerAtRest(records: map<nat, L.Record>, f: nat, m: nat)
    requires AtRest(records, m)
    ensures AtRest(WithoutRecordsOf(records, f), m)
  {
  }

  /** ... and nobody holds them, except the group that replaces theirs. */
  lemma EditFreesMembers(w: World, op: Op, m: nat, h: nat)
    requires Inv(w) && Accepts(w, op) && Edited(w, op).Some?
    requires Edited(w, op).value in w.groups && w.groups[Edited(w, op).value].Holds(m)
    requires h in Step(w, op).groups && Step(w, op).groups[h].Holds(m)
    ensures op.Supersede? && h == w.nextGroup && m in op.media
  {
    hide Editable, Withdraw, PointedAt, IsReferenced, Blocker, GroupOk, DigestsDiffer, StagingOk, WithoutRecordsOf,
        DigestInUse, HeldByOther, Standing;
    var g := Edited(w, op).value;
    match op
    case Discard(_) =>
    case Supersede(_, media, seen) =>
      if h == w.nextGroup {
        var x := Step(w, op).groups[h];
        var i :| 0 <= i < |x.parts| && x.parts[i] == Part(m, true);
        assert media[i] == m;
      }
    case DeleteDerived(f) =>
      OwnerOwns(w.groups, f);
    case _ =>
  }

  // ----- neither a discard nor a replacement is ever taken back

  predicate Lives(w: World, g: nat) { g in w.groups && w.groups[g].Live() }

  lemma GoneStaysGoneNew(w: World, op: Op, g: nat)
    requires AcceptsNew(w, op) && g < w.nextGroup && !Lives(w, g)
    ensures !Lives(EffectNew(w, op), g) && g < EffectNew(w, op).nextGroup
  {
    hide Editable, Withdraw, CanInsert, NewGroup;
  }

  lemma GoneStaysGoneMerging(w: World, op: Op, g: nat)
    requires Inv(w) && AcceptsMerging(w, op) && g < w.nextGroup && !Lives(w, g)
    ensures !Lives(EffectMerging(w, op), g) && g < EffectMerging(w, op).nextGroup
  {
    hide Inv;
  }

  lemma GoneStaysGoneRemoval(w: World, op: Op, g: nat)
    requires AcceptsRemoval(w, op) && g < w.nextGroup && !Lives(w, g)
    ensures !Lives(EffectRemoval(w, op), g) && g < EffectRemoval(w, op).nextGroup
  {
    hide Editable, Withdraw, PointedAt, IsReferenced, Blocker, WithoutRecordsOf, Owner;
  }

  lemma GoneStaysGoneStep(w: World, op: Op, g: nat)
    requires Inv(w) && g < w.nextGroup && !Lives(w, g)
    ensures !Lives(Step(w, op), g) && g < Step(w, op).nextGroup
  {
    hide Inv, AcceptsNew, AcceptsMerging, AcceptsRemoval, EffectNew, EffectMerging, EffectRemoval, Lives;
    if AcceptsNew(w, op) { GoneStaysGoneNew(w, op, g); }
    else if AcceptsMerging(w, op) { GoneStaysGoneMerging(w, op, g); }
    else if AcceptsRemoval(w, op) { GoneStaysGoneRemoval(w, op, g); }
    else if AcceptsOutside(w, op) { OutsideKeepsLives(w, op, g); }
  }

  lemma OutsideKeepsLives(w: World, op: Op, g: nat)
    requires AcceptsOutside(w, op)
    ensures Lives(EffectOutside(w, op), g) == Lives(w, g) && EffectOutside(w, op).nextGroup == w.nextGroup
  {
  }

  /** A group that was replaced or discarded never holds a file again. */
  lemma {:induction false} GoneStaysGone(w: World, ops: seq<Op>, g: nat)
    requires Inv(w) && g < w.nextGroup && !Lives(w, g)
    ensures !Lives(Run(w, ops), g) && g < Run(w, ops).nextGroup
    ensures g in Run(w, ops).groups ==> forall m :: !Run(w, ops).groups[g].Holds(m)
    decreases |ops|
  {
    hide Inv, Step, Lives;
    if ops != [] {
      GoneStaysGone(w, ops[..|ops| - 1], g);
      RunKeepsInv(w, ops[..|ops| - 1]);
      GoneStaysGoneStep(Run(w, ops[..|ops| - 1]), ops[|ops| - 1], g);
    }
    RunKeepsInv(w, ops);
    GoneHoldsNothing(Run(w, ops), g);
  }

  lemma GoneHoldsNothing(w: World, g: nat)
    requires Inv(w) && !Lives(w, g)
    ensures g in w.groups ==> forall m :: !w.groups[g].Holds(m)
  {
    if g in w.groups { assert GroupOk(w, g, w.groups[g]); }
  }

  // ----- replacements lead somewhere

  /** The group that stands for `g` today. */
  ghost function Latest(w: World, g: nat): (last: nat)
    requires Inv(w) && g in w.groups
    ensures last in w.groups && w.groups[last].successor.None? && g <= last < w.nextGroup
    decreases w.nextGroup - g
  {
    assert GroupOk(w, g, w.groups[g]);
    if w.groups[g].successor.None? then g else
      assert GroupOk(w, w.groups[g].successor.value, w.groups[w.groups[g].successor.value]);
      Latest(w, w.groups[g].successor.value)
  }

  /** Replacing the group at the end of a chain puts the new one at the end of it. */
  lemma {:induction false} LatestAfterSupersede(w: World, g: nat, op: Op)
    requires Inv(w) && g in w.groups && op.Supersede? && AcceptsNew(w, op)
    ensures Inv(EffectNew(w, op)) && g in EffectNew(w, op).groups
    ensures Latest(EffectNew(w, op), g) == if Latest(w, g) == op.g then w.nextGroup else Latest(w, g)
    decreases w.nextGroup - g
  {
    hide Inv, CanInsert, Editable, Withdraw, NewGroup;
    NewKeepsInv(w, op);
    InvRest(w);
    NextIsLater(w, g);
    var after := EffectNew(w, op);
    assert after.groups[w.nextGroup].successor.None? by { NewIsLast(w, op); }
    if w.groups[g].successor.Some? {
      SuccessorIs(w, g);
      LatestAfterSupersede(w, w.groups[g].successor.value, op);
    }
  }

  lemma NewIsLast(w: World, op: Op)
    requires op.Supersede? && AcceptsNew(w, op)
    ensures EffectNew(w, op).groups[w.nextGroup].successor.None?
  {
  }

  lemma SuccessorIs(w: World, g: nat)
    requires Inv(w) && g in w.groups && w.groups[g].successor.Some?
    ensures w.groups[g].successor.value in w.groups && g < w.groups[g].successor.value < w.nextGroup
  {
    assert GroupOk(w, g, w.groups[g]);
    InvGroup(w, w.groups[g].successor.value);
  }
}
