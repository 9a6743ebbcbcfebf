/** What every operation on merge groups keeps, and so every run of them. */
module MergeSafety {
  import opened Options
  import L = Ledger
  import opened Merges

  ghost predicate GroupOk(w: World, g: nat, x: Group)
  {
    && g < w.nextGroup
    && (forall i :: 0 <= i < |x.parts| ==> x.parts[i].active == x.Live())
    && (forall i, j :: 0 <= i < j < |x.parts| ==> x.parts[i].media != x.parts[j].media)
    && SeenAsNow(w.files, x)
    && OutputOk(w.files, x)
    && (x.status.Merged? ==> x.verified.Some?)
    && (x.successor.Some? ==> g < x.successor.value && x.successor.value in w.groups)
    && RevisionsOk(w.profiles, x) && DigestOfFirst(w.files, x)
  }

  /** What a group has made is a verified result of its own profile, and begins with a
      recording of that profile. */
  predicate OutputOk(files: map<nat, File>, x: Group)
  {
    x.output.Some? ==>
      && x.verified.Some? && Placeable(files, x)
      && x.output.value in files && files[x.output.value].derived && files[x.output.value].profile == x.profile
  }

  /** The digest was computed for the profile of the group, or for that of its first file. */
  predicate DigestOfFirst(files: map<nat, File>, x: Group)
  {
    || x.digest.rev.profile == x.profile
    || (x.parts != [] && x.parts[0].media in files && files[x.parts[0].media].profile == x.digest.rev.profile)
  }

  /** The digest was made of the members' hashes as they are now. */
  predicate SeenAsNow(files: map<nat, File>, x: Group)
  {
    && |x.digest.members| == |x.parts|
    && forall i :: 0 <= i < |x.parts| ==>
         x.parts[i].media in files && x.digest.members[i] == (x.parts[i].media, files[x.parts[i].media].sha1)
  }

  predicate RevisionsOk(profiles: map<nat, nat>, x: Group)
  {
    && x.profile in profiles && x.revision <= profiles[x.profile]
    && (x.digest.rev.profile == x.profile ==> x.digest.rev.number <= x.revision)
  }

  ghost predicate OneHolder(groups: map<nat, Group>)
  {
    forall g, h, m :: g in groups && h in groups && groups[g].Holds(m) && groups[h].Holds(m) ==> g == h
  }

  predicate DigestsDiffer(groups: map<nat, Group>)
  {
    forall g, h :: g in groups && h in groups && g != h && groups[g].successor.None? && groups[h].successor.None? ==>
      groups[g].digest != groups[h].digest
  }

  predicate StagingOk(w: World)
  {
    forall row :: row in w.staging ==>
      && w.staging[row].group in w.groups && w.groups[w.staging[row].group].verified.Some?
      && Placeable(w.files, w.groups[w.staging[row].group])
  }

  ghost predicate Inv(w: World)
  {
    && (forall g :: g in w.groups ==> GroupOk(w, g, w.groups[g]))
    && OneHolder(w.groups) && DigestsDiffer(w.groups) && StagingOk(w) && w.pinned <= w.groups.Keys
  }

  predicate HoldsNoMore(groups: map<nat, Group>, after: map<nat, Group>)
  {
    forall g :: g in after ==>
      && g in groups
      && (after[g].parts == groups[g].parts || after[g].parts == LetGo(groups[g].parts))
      && (after[g].successor.None? ==> groups[g].successor.None?)
      && after[g].digest == groups[g].digest
  }

  /** Groups that hold no more than before share no more than before. */
  lemma FewerHolders(groups: map<nat, Group>, after: map<nat, Group>)
    requires OneHolder(groups) && DigestsDiffer(groups) && HoldsNoMore(groups, after)
    ensures OneHolder(after) && DigestsDiffer(after)
  {
    forall g, m | g in after && after[g].Holds(m) ensures groups[g].Holds(m) {
      var i :| 0 <= i < |after[g].parts| && after[g].parts[i] == Part(m, true);
      assert groups[g].parts[i] == Part(m, true);
    }
  }

  // ----- the surroundings of a group change

  ghost predicate Extends(w: World, after: World)
  {
    && w.groups.Keys <= after.groups.Keys && w.nextGroup <= after.nextGroup
    && (forall m :: m in w.files ==> m in after.files && SameFile(w.files[m], after.files[m]))
    && (forall p :: p in w.profiles ==> p in after.profiles && w.profiles[p] <= after.profiles[p])
  }

  predicate SameFile(a: File, b: File) { a.sha1 == b.sha1 && a.derived == b.derived && a.profile == b.profile }

  lemma GroupStays(w: World, after: World, g: nat, x: Group)
    requires GroupOk(w, g, x) && Extends(w, after)
    ensures GroupOk(after, g, x)
  {
  }

  /** Every group is as it was, or is shown to be well formed. */
  lemma GroupsStay(w: World, after: World, changed: set<nat>)
    requires Inv(w) && Extends(w, after)
    requires forall g :: g in after.groups && g !in changed ==> g in w.groups && after.groups[g] == w.groups[g]
    requires forall g :: g in changed ==> g in after.groups && GroupOk(after, g, after.groups[g])
    requires OneHolder(after.groups) && DigestsDiffer(after.groups) && StagingOk(after)
        && after.pinned <= after.groups.Keys
    ensures Inv(after)
  {
    hide GroupOk, OneHolder, DigestsDiffer, Extends, StagingOk;
    forall g | g in after.groups ensures GroupOk(after, g, after.groups[g]) {
      if g !in changed { GroupStays(w, after, g, w.groups[g]); }
    }
  }

  lemma InvGroup(w: World, g: nat)
    requires Inv(w) && g in w.groups
    ensures GroupOk(w, g, w.groups[g])
  {
  }

  lemma InvRest(w: World)
    requires Inv(w)
    ensures OneHolder(w.groups) && DigestsDiffer(w.groups) && StagingOk(w) && w.pinned <= w.groups.Keys
    ensures w.nextGroup !in w.groups
  {
    if w.nextGroup in w.groups {
      InvGroup(w, w.nextGroup);
    }
  }

  // ----- one group moves on, holding what it held

  predicate SameHold(a: Group, b: Group)
  {
    && a.profile == b.profile && a.revision == b.revision && a.digest == b.digest && a.parts == b.parts
    && a.successor == b.successor && a.Live() == b.Live() && (a.verified.Some? ==> b.verified.Some?)
  }

  lemma GroupMoves(w: World, after: World, g: nat, a: Group, b: Group)
    requires GroupOk(w, g, a) && SameHold(a, b) && Extends(w, after)
    requires OutputOk(w.files, b)
    requires b.status.Merged? ==> b.verified.Some?
    ensures GroupOk(after, g, b)
  {
  }

  lemma MoveKeepsInv(w: World, g: nat, x: Group)
    requires Inv(w) && g in w.groups && SameHold(w.groups[g], x)
    requires OutputOk(w.files, x)
    requires x.status.Merged? ==> x.verified.Some?
    ensures Inv(w.(groups := w.groups[g := x]))
  {
    hide GroupOk, OneHolder, DigestsDiffer, Inv;
    var after := w.(groups := w.groups[g := x]);
    InvRest(w);
    InvGroup(w, g);
    FewerHolders(w.groups, after.groups);
    GroupMoves(w, after, g, w.groups[g], x);
    GroupsStay(w, after, {g});
  }

  lemma MergingKeepsInv(w: World, op: Op)
    requires Inv(w) && AcceptsMerging(w, op)
    ensures Inv(EffectMerging(w, op))
  {
    hide Inv;
    match op
    case ClaimForMerge(g, _) => InvIs(w, g); MoveKeepsInv(w, g, w.groups[g].(status := Merging));
    case RecordVerification(g, passed) => InvIs(w, g); MoveKeepsInv(w, g, w.groups[g].(verified := Some(passed)));
    case MarkMerged(g) => InvIs(w, g); MoveKeepsInv(w, g, w.groups[g].(status := Merged));
    case MarkFailed(g) => InvIs(w, g); MoveKeepsInv(w, g, w.groups[g].(status := Failed));
    case Release(g) => InvIs(w, g); MoveKeepsInv(w, g, w.groups[g].(status := Detected));
    case Settle(g) =>
      InvIs(w, g);
      MoveKeepsInv(w, g, w.groups[g].(status := if w.groups[g].output.Some? then Merged else Detected));
    case Adopt(g) => InvIs(w, g); MoveKeepsInv(w, g, w.groups[g].(adopted := true));
    case AdoptForUpload(g) => InvIs(w, g); MoveKeepsInv(w, g, w.groups[g].(adopted := true));
    case BeginStaging(row, g) => InvRest(w); StagingKeepsInv(w, w.staging[row := Staging(g, false)]);
    case DropStaging(row) => InvRest(w); StagingKeepsInv(w, w.staging - {row});
    case Publish(row, m, file) => PublishKeepsInv(w, row, m, file);
  }

  lemma InvIs(w: World, g: nat)
    requires Inv(w) && g in w.groups
    ensures var x := w.groups[g];
            && OutputOk(w.files, x)
            && (x.status.Merged? ==> x.verified.Some?)
  {
    assert GroupOk(w, g, w.groups[g]);
  }

  lemma StagingKeepsInv(w: World, staging: map<nat, Staging>)
    requires Inv(w) && StagingOk(w.(staging := staging))
    ensures Inv(w.(staging := staging))
  {
    hide Inv, OneHolder, DigestsDiffer;
    InvRest(w);
    GroupsStay(w, w.(staging := staging), {});
  }

  lemma FilesKeepInv(w: World, files: map<nat, File>)
    requires Inv(w)
    requires forall m :: m in w.files ==> m in files && SameFile(w.files[m], files[m])
    ensures Inv(w.(files := files))
  {
    hide Inv, OneHolder, DigestsDiffer;
    InvRest(w);
    GroupsStay(w, w.(files := files), {});
  }

  lemma PublishKeepsInv(w: World, row: nat, m: nat, file: File)
    requires Inv(w) && AcceptsMerging(w, Publish(row, m, file))
    ensures Inv(EffectMerging(w, Publish(row, m, file)))
  {
    hide Inv;
    var g := w.staging[row].group;
    InvRest(w);
    var files := if m in w.files then w.files else w.files[m := file];
    FilesKeepInv(w, files);
    var filed := w.(files := files);
    InvIs(filed, g);
    MoveKeepsInv(filed, g, filed.groups[g].(output := Some(m)));
    var moved := filed.(groups := filed.groups[g := filed.groups[g].(output := Some(m))]);
    InvRest(moved);
    StagingKeepsInv(moved, w.staging[row := Staging(g, true)]);
    assert moved.(staging := w.staging[row := Staging(g, true)]) == EffectMerging(w, Publish(row, m, file));
  }

  // ----- a group lets go of its members

  lemma GroupLetsGo(w: World, after: World, g: nat, x: Group, y: Group)
    requires GroupOk(w, g, x) && Extends(w, after)
    requires y == x.Skip() || (y.successor.Some? && g < y.successor.value && y.successor.value in after.groups
        && y == x.PointAt(y.successor.value))
    ensures GroupOk(after, g, y)
    ensures forall m :: !y.Holds(m)
  {
  }

  lemma DiscardKeepsInv(w: World, g: nat)
    requires Inv(w) && g in w.groups
    ensures Inv(Discarded(w, g))
    ensures forall m :: !Discarded(w, g).groups[g].Holds(m)
  {
    hide GroupOk, OneHolder, DigestsDiffer, Inv, Withdraw;
    var after := Discarded(w, g);
    InvRest(w);
    InvGroup(w, g);
    FewerHolders(w.groups, after.groups);
    GroupLetsGo(w, after, g, w.groups[g], w.groups[g].Skip());
    GroupsStay(w, after, {g});
  }

  lemma ForgetKeepsGroup(w: World, g: nat, h: nat)
    requires h in w.groups && h != g && GroupOk(w, h, w.groups[h]) && !PointedAt(w, g)
    ensures GroupOk(w.(groups := w.groups - {g}), h, w.groups[h])
  {
    assert w.groups[h].successor != Some(g);
    hide PointedAt, Placeable, SeenAsNow;
  }

  lemma ForgetKeepsInv(w: World, g: nat)
    requires Inv(w) && g in w.groups && !PointedAt(w, g)
    ensures Inv(w.(groups := w.groups - {g}))
  {
    hide OneHolder, DigestsDiffer, GroupOk;
    var after := w.(groups := w.groups - {g});
    FewerHolders(w.groups, after.groups);
    forall h | h in after.groups ensures GroupOk(after, h, after.groups[h]) {
      ForgetKeepsGroup(w, g, h);
    }
  }

  lemma DetachKeepsInv(w: World, m: nat)
    requires Inv(w)
    ensures Inv(w.(groups := Detach(w.groups, m)))
  {
    hide GroupOk, OneHolder, DigestsDiffer, Inv;
    var after := w.(groups := Detach(w.groups, m));
    InvRest(w);
    FewerHolders(w.groups, after.groups);
    forall g | g in after.groups ensures GroupOk(after, g, after.groups[g]) {
      InvGroup(w, g);
      InvIs(w, g);
      GroupMoves(w, after, g, w.groups[g], after.groups[g]);
    }
    GroupsStay(w, after, after.groups.Keys);
  }

  lemma RecordsKeepInv(w: World, records: map<nat, L.Record>)
    requires Inv(w)
    ensures Inv(w.(records := records))
  {
    hide Inv, OneHolder, DigestsDiffer;
    InvRest(w);
    GroupsStay(w, w.(records := records), {});
  }

  lemma DropFileKeepsInv(w: World, m: nat)
    requires Inv(w) && !IsReferenced(w, m)
    ensures Inv(w.(files := w.files - {m}))
  {
    hide OneHolder, DigestsDiffer;
    var after := w.(files := w.files - {m});
    forall h | h in after.groups ensures GroupOk(after, h, after.groups[h]) {
      assert GroupOk(w, h, w.groups[h]);
      assert !w.groups[h].Mentions(m);
      assert forall i :: 0 <= i < |w.groups[h].parts| ==> w.groups[h].parts[i].media != m;
    }
  }

  lemma ReleasedKeepsInv(w: World, m: nat)
    requires Inv(w) && Released(w, m).Some?
    ensures Inv(Released(w, m).value)
  {
    hide Inv, Discarded, Detach, WithoutRecordsOf, Owner;
    var owner := Owner(w.groups, m);
    OwnerOwns(w.groups, m);
    var discarded := w;
    if owner.Some? && w.groups[owner.value].Live() {
      DiscardKeepsInv(w, owner.value);
      discarded := Discarded(w, owner.value);
    }
    DetachKeepsInv(discarded, m);
    RecordsKeepInv(discarded.(groups := Detach(discarded.groups, m)), WithoutRecordsOf(discarded.records, m));
  }

  lemma OwnerOwns(groups: map<nat, Group>, m: nat)
    ensures Owner(groups, m).Some? ==> Owner(groups, m).value in groups && IsOwner(groups, m, Owner(groups, m).value)
  {
  }

  // ----- a group is made

  ghost predicate NewOk(w: World, g: nat, x: Group)
  {
    && x.Live() && x.output.None? && !x.status.Merged? && g == w.nextGroup
    && (forall i :: 0 <= i < |x.parts| ==> x.parts[i].active)
    && (forall i, j :: 0 <= i < j < |x.parts| ==> x.parts[i].media != x.parts[j].media)
    && SeenAsNow(w.files, x) && RevisionsOk(w.profiles, x) && DigestOfFirst(w.files, x)
  }

  predicate Apart(groups: map<nat, Group>, x: Group, except: Option<nat>)
  {
    forall h :: h in groups && Some(h) != except ==>
      && (forall i :: 0 <= i < |x.parts| ==> !groups[h].Holds(x.parts[i].media))
      && (groups[h].successor.None? ==> groups[h].digest != x.digest)
  }

  lemma OneMore(groups: map<nat, Group>, n: nat, x: Group)
    requires OneHolder(groups) && DigestsDiffer(groups) && n !in groups && Apart(groups, x, None)
    ensures OneHolder(groups[n := x]) && DigestsDiffer(groups[n := x])
  {
  }

  lemma GroupIsNew(w: World, after: World, x: Group)
    requires NewOk(w, w.nextGroup, x) && Extends(w, after) && w.nextGroup < after.nextGroup
    ensures GroupOk(after, w.nextGroup, x)
  {
  }

  lemma InsertKeepsInv(w: World, x: Group)
    requires Inv(w) && NewOk(w, w.nextGroup, x) && Apart(w.groups, x, None)
    ensures Inv(Insert(w, x))
  {
    hide GroupOk, OneHolder, DigestsDiffer, Inv, NewOk, Apart;
    var after := Insert(w, x);
    InvRest(w);
    OneMore(w.groups, w.nextGroup, x);
    GroupIsNew(w, after, x);
    GroupsStay(w, after, {w.nextGroup});
  }

  lemma NewGroupOk(w: World, profile: nat, media: seq<nat>, seen: Rev, number: nat, except: Option<nat>)
    requires CanInsert(w, media, seen, except)
    requires profile in w.profiles && number <= w.profiles[profile] && (seen.profile == profile ==>
        seen.number <= number)
    requires seen.profile == profile || (media != [] && w.files[media[0]].profile == seen.profile)
    ensures NewOk(w, w.nextGroup, NewGroup(w.files, profile, number, media, seen))
    ensures Apart(w.groups, NewGroup(w.files, profile, number, media, seen), except)
  {
  }

  /** The group points at the one that comes next, which is not there yet: this is
      why the foreign keys wait for the commit. */
  lemma SupersedeKeepsInv(w: World, g: nat, x: Group)
    requires Inv(w) && g in w.groups && w.groups[g].successor.None? && NewOk(w, w.nextGroup, x)
    requires Apart(w.groups, x, Some(g))
    ensures Inv(Insert(w.(groups := w.groups[g := w.groups[g].PointAt(w.nextGroup)]), x))
  {
    hide GroupOk, OneHolder, DigestsDiffer, Inv, NewOk, Apart;
    var pointed := w.groups[g := w.groups[g].PointAt(w.nextGroup)];
    var after := Insert(w.(groups := pointed), x);
    InvRest(w);
    InvGroup(w, g);
    FewerHolders(w.groups, pointed);
    NextIsLater(w, g);
    GroupLetsGo(w, after, g, w.groups[g], w.groups[g].PointAt(w.nextGroup));
    OthersApart(w.groups, g, w.nextGroup, x);
    OneMore(pointed, w.nextGroup, x);
    GroupIsNew(w, after, x);
    GroupsStay(w, after, {g, w.nextGroup});
  }

  lemma OthersApart(groups: map<nat, Group>, g: nat, next: nat, x: Group)
    requires g in groups && Apart(groups, x, Some(g))
    ensures Apart(groups[g := groups[g].PointAt(next)], x, None)
  {
  }

  lemma NextIsLater(w: World, g: nat)
    requires Inv(w) && g in w.groups
    ensures g < w.nextGroup
  {
    assert GroupOk(w, g, w.groups[g]);
  }

  lemma NewKeepsInv(w: World, op: Op)
    requires Inv(w) && AcceptsNew(w, op)
    ensures Inv(EffectNew(w, op))
  {
    hide Inv, CanInsert, NewOk, NewGroup, Apart;
    CanInsertIs(w);
    match op
    case SaveDetected(rev, media) =>
      NewGroupOk(w, rev.profile, media, rev, rev.number, None);
      InsertKeepsInv(w, NewGroup(w.files, rev.profile, rev.number, media, rev));
    case CreateManual(media, seen) =>
      NewGroupOk(w, seen.profile, media, seen, w.profiles[seen.profile], None);
      InsertKeepsInv(w, NewGroup(w.files, seen.profile, w.profiles[seen.profile], media, seen));
    case Supersede(g, media, seen) =>
      var former := w.groups[g];
      var x := NewGroup(w.files, former.profile, w.profiles[former.profile], media, seen);
      NewGroupOk(w, former.profile, media, seen, w.profiles[former.profile], Some(g));
      SupersedeKeepsInv(w, g, x);
      RecordsKeepInv(Insert(w.(groups := w.groups[g := former.PointAt(w.nextGroup)]), x), Withdraw(w.records, former));
  }

  lemma CanInsertIs(w: World)
    ensures forall media, rev, except :: CanInsert(w, media, rev, except) ==> AllFiles(w.files, media) && IsRev(w.profiles, rev)
  {
  }

  lemma RemovalKeepsInv(w: World, op: Op)
    requires Inv(w) && AcceptsRemoval(w, op)
    ensures Inv(EffectRemoval(w, op))
  {
    hide Inv, Released, Discarded, PointedAt, Editable, IsReferenced;
    match op
    case Discard(g) => DiscardKeepsInv(w, g);
    case DeleteDiscarded(g) => ForgetKeepsInv(w, g);
    case DeleteDerived(m) =>
      ReleasedKeepsInv(w, m);
      DropFileKeepsInv(Released(w, m).value, m);
  }

  lemma OutsideKeepsInv(w: World, op: Op)
    requires Inv(w) && AcceptsOutside(w, op)
    ensures Inv(EffectOutside(w, op))
  {
    match op
    case AddFile(m, file) => FilesKeepInv(w, w.files[m := file]);
    case SetMissing(m, missing) => FilesKeepInv(w, w.files[m := w.files[m].(missing := missing)]);
    case EditProfile(p) =>
      var after := EffectOutside(w, op);
      forall h | h in after.groups ensures GroupOk(after, h, after.groups[h]) {
        assert GroupOk(w, h, w.groups[h]);
      }
    case Elsewhere(records, uploads, pinned) =>
      var after := EffectOutside(w, op);
      forall h | h in after.groups ensures GroupOk(after, h, after.groups[h]) {
        assert GroupOk(w, h, w.groups[h]);
      }
  }

  lemma StepKeepsInv(w: World, op: Op)
    requires Inv(w)
    ensures Inv(Step(w, op))
  {
    hide Inv, AcceptsNew, AcceptsMerging, AcceptsRemoval, AcceptsOutside, EffectNew, EffectMerging, EffectRemoval,
        EffectOutside;
    if AcceptsNew(w, op) { NewKeepsInv(w, op); }
    else if AcceptsMerging(w, op) { MergingKeepsInv(w, op); }
    else if AcceptsRemoval(w, op) { RemovalKeepsInv(w, op); }
    else if AcceptsOutside(w, op) { OutsideKeepsInv(w, op); }
  }

  /** Whatever is done to the groups, in whatever order: a file is an active member of
      one group at most, active members belong to current groups only, no two groups
      that were not replaced have the same digest, replacement leads to later groups,
      and nothing is merged that was not verified. */
  lemma {:induction false} RunKeepsInv(w: World, ops: seq<Op>)
    requires Inv(w)
    ensures Inv(Run(w, ops))
    decreases |ops|
  {
    hide Inv, Step;
    if ops != [] {
      RunKeepsInv(w, ops[..|ops| - 1]);
      StepKeepsInv(Run(w, ops[..|ops| - 1]), ops[|ops| - 1]);
    }
  }
}
