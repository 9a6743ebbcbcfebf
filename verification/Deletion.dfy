/** Deleting a merged file: when it is offered, when it works and what it leaves. */
module Deletion {
  import opened Options
  import L = Ledger
  import opened Merges
  import opened MergeSafety

  // ----- the check and the deletion agree

  /** The discard inside the deletion is never refused once the check has passed. */
  lemma DiscardIsNotRefused(w: World, m: nat)
    requires Blocker(w, m).None?
    ensures Released(w, m).Some?
  {
    hide Discarded, Detach, WithoutRecordsOf;
    OwnerOwns(w.groups, m);
  }

  predicate IsPart(groups: map<nat, Group>, m: nat) { exists g :: g in groups && groups[g].Mentions(m) }

  predicate SameMembers(x: Group, y: Group)
  {
    |x.parts| == |y.parts| && forall i :: 0 <= i < |x.parts| ==> x.parts[i].media == y.parts[i].media
  }

  lemma SameMentions(x: Group, y: Group, m: nat)
    requires SameMembers(x, y)
    ensures x.Mentions(m) == y.Mentions(m)
  {
    if x.Mentions(m) {
      var i :| 0 <= i < |x.parts| && x.parts[i].media == m;
      assert y.parts[i].media == m;
    }
  }

  lemma DetachIs(groups: map<nat, Group>, m: nat)
    ensures forall g :: g in groups ==>
              Detach(groups, m)[g].output != Some(m) && Detach(groups, m)[g].parts == groups[g].parts
  {
  }

  lemma WithdrawIs(records: map<nat, L.Record>, x: Group)
    ensures Withdraw(records, x).Keys == records.Keys
    ensures forall id :: id in records ==> Withdraw(records, x)[id].media == records[id].media
  {
  }

  lemma ReleasedIs(w: World, m: nat)
    requires Released(w, m).Some?
    ensures var after := Released(w, m).value;
            && after.groups.Keys == w.groups.Keys
            && (forall g :: g in w.groups ==> after.groups[g].output != Some(m) && SameMembers(w.groups[g], after.groups[g]))
            && (forall id :: id in after.records <==> id in w.records && w.records[id].media != m)
            && (forall id :: id in after.records ==> after.records[id].media != m)
            && after.files == w.files
  {
    OwnerOwns(w.groups, m);
    hide Owner, Editable, Withdraw, IsOwner;
    var owner := Owner(w.groups, m);
    if owner.Some? && w.groups[owner.value].Live() {
      WithdrawIs(w.records, w.groups[owner.value]);
      DetachIs(Discarded(w, owner.value).groups, m);
    } else {
      DetachIs(w.groups, m);
    }
    hide Detach;
  }

  lemma ReleasedReferences(w: World, m: nat)
    requires Released(w, m).Some?
    ensures IsReferenced(Released(w, m).value, m) <==> IsPart(w.groups, m)
  {
    hide Released, SameMembers, Group.Mentions;
    ReleasedIs(w, m);
    var after := Released(w, m).value;
    forall g | g in w.groups ensures after.groups[g].Mentions(m) == w.groups[g].Mentions(m) {
      SameMentions(w.groups[g], after.groups[g], m);
    }
    assert IsPart(after.groups, m) == IsPart(w.groups, m);
  }

  /** A file that is offered for deletion can be deleted, unless it was itself made a
      member of a merge, current or not: the check does not look at that. */
  lemma DeletionWorksIff(w: World, m: nat)
    ensures AcceptsRemoval(w, DeleteDerived(m)) <==> Blocker(w, m).None? && !IsPart(w.groups, m)
  {
    hide Blocker, Released, IsReferenced, IsPart;
    if Blocker(w, m).None? {
      DiscardIsNotRefused(w, m);
      ReleasedReferences(w, m);
    }
  }

  const MADE_OF_TWO := Group(
    0, 0, Merged, Digest([(0, "a"), (1, "b")], Rev(0, 0)), [Part(0, true), Part(1, true)], Some(2), None, Some(true), false)

  const MADE_OF_MERGED := Group(
    0, 0, Detected, Digest([(2, "c"), (3, "d")], Rev(0, 0)), [Part(2, true), Part(3, true)], None, None, None, false)

  const MERGED_AGAIN := World(
    map[0 := MADE_OF_TWO, 1 := MADE_OF_MERGED],
    map[0 := File(false, 0, "a", false), 1 := File(false, 0, "b", false),
        2 := File(true, 0, "c", false), 3 := File(false, 0, "d", false)],
    map[], map[0 := 0], map[], {}, {}, 2)

  lemma MergedAgainGroups()
    ensures GroupOk(MERGED_AGAIN, 0, MADE_OF_TWO) && GroupOk(MERGED_AGAIN, 1, MADE_OF_MERGED)
  {
    var w := MERGED_AGAIN;
    assert SeenAsNow(w.files, MADE_OF_TWO);
    assert SeenAsNow(w.files, MADE_OF_MERGED);
    hide SeenAsNow;
  }

  lemma MergedAgainHolders()
    ensures OneHolder(MERGED_AGAIN.groups) && DigestsDiffer(MERGED_AGAIN.groups)
  {
    assert forall m :: MADE_OF_TWO.Holds(m) ==> m < 2;
    assert forall m :: MADE_OF_MERGED.Holds(m) ==> 2 <= m;
    assert MADE_OF_TWO.digest.members[0] != MADE_OF_MERGED.digest.members[0];
    hide Group.Holds;
    var groups := MERGED_AGAIN.groups;
    forall g, h, m | g in groups && h in groups && groups[g].Holds(m) && groups[h].Holds(m) ensures g == h { }
  }

  lemma MergedAgainIsReachable()
    ensures Inv(MERGED_AGAIN)
  {
    hide GroupOk, OneHolder, DigestsDiffer;
    MergedAgainGroups();
    MergedAgainHolders();
  }

  /** It takes no more than a group made by hand, which nothing forbids. */
  lemma MergedAgainByHand()
    ensures var before := MERGED_AGAIN.(groups := map[0 := MADE_OF_TWO], nextGroup := 1);
            AcceptsNew(before, CreateManual([2, 3], Rev(0, 0)))
                && EffectNew(before, CreateManual([2, 3], Rev(0, 0))) == MERGED_AGAIN
  {
    var before := MERGED_AGAIN.(groups := map[0 := MADE_OF_TWO], nextGroup := 1);
    assert forall m :: MADE_OF_TWO.Holds(m) ==> m < 2;
    hide Group.Holds;
    var media := [2, 3];
    assert media[0] == 2 && media[1] == 3;
    assert MADE_OF_TWO.digest.members[0] == (0, "a");
    assert DigestOf(before.files, media, Rev(0, 0)).members == [(2, "c"), (3, "d")];
    assert [(2, "c"), (3, "d")][0] == (2, "c");
    assert Taken(media) == [Part(2, true), Part(3, true)];
    assert CanInsert(before, media, Rev(0, 0), None);
    assert map[0 := MADE_OF_TWO][1 := MADE_OF_MERGED] == MERGED_AGAIN.groups;
  }

  lemma MergedAgainIsOffered()
    ensures Blocker(MERGED_AGAIN, 2).None?
  {
    var w := MERGED_AGAIN;
    assert IsOwner(w.groups, 2, 0);
    OwnerOwns(w.groups, 2);
  }

  /** A group made by hand of a merged file: deleting that file is offered and fails. */
  lemma OfferedButFails()
    ensures Inv(MERGED_AGAIN)
    ensures Blocker(MERGED_AGAIN, 2).None? && !AcceptsRemoval(MERGED_AGAIN, DeleteDerived(2))
  {
    hide Inv, Blocker, AcceptsRemoval;
    MergedAgainIsReachable();
    MergedAgainIsOffered();
    assert MERGED_AGAIN.groups[1].parts[0].media == 2;
    assert MERGED_AGAIN.groups[1].Mentions(2);
    DeletionWorksIff(MERGED_AGAIN, 2);
  }

  /** Deleted, the file is not referred to by anything. */
  lemma NothingRefersToIt(w: World, m: nat)
    requires AcceptsRemoval(w, DeleteDerived(m))
    ensures var after := EffectRemoval(w, DeleteDerived(m));
            && m !in after.files && !IsReferenced(after, m)
            && after.files.Keys == w.files.Keys - {m}
            && forall id :: id in after.records <==> id in w.records && w.records[id].media != m
  {
    hide Blocker, Released, Group.Mentions;
    ReleasedIs(w, m);
  }

  // ----- what the deletion promises about the sources

  /** The owner is current exactly when some group that points at the file is. */
  lemma OwnerIsCurrentIff(groups: map<nat, Group>, m: nat)
    ensures (Owner(groups, m).Some? && groups[Owner(groups, m).value].Live()) <==>
              exists g :: Owns(groups, m, g) && groups[g].Live()
  {
    OwnerOwns(groups, m);
    if g :| Owns(groups, m, g) && groups[g].Live() {
      assert Standing(groups[g]) == 0;
      assert IsOwner(groups, m, g);
    }
  }

  predicate MergedInto(groups: map<nat, Group>, m: nat, g: nat)
  {
    Owns(groups, m, g) && groups[g].Live() && groups[g].status.Merged?
  }

  /** Merged, current and with nothing to show for it: its members are neither sent
      nor merged again. */
  predicate Hollow(x: Group) { x.Live() && x.status.Merged? && x.output.None? }

  predicate NoHollow(groups: map<nat, Group>) { forall g :: g in groups ==> !Hollow(groups[g]) }

  /** `delete_derived` discards one owner and takes the file away from all. A group is
      left hollow exactly when a second current merged group had the same file, which
      identical outputs of one name can bring about. */
  lemma DeletionLeavesHollowIff(w: World, m: nat)
    requires AcceptsRemoval(w, DeleteDerived(m)) && NoHollow(w.groups)
    ensures NoHollow(EffectRemoval(w, DeleteDerived(m)).groups) <==>
              forall g: nat :: MergedInto(w.groups, m, g) ==> Owner(w.groups, m) == Some(g)
  {
    hide Blocker, Editable, IsReferenced, Withdraw, WithoutRecordsOf, Owner;
    OwnerOwns(w.groups, m);
    OwnerIsCurrentIff(w.groups, m);
    var after := EffectRemoval(w, DeleteDerived(m));
    forall g | g in w.groups
      ensures Hollow(after.groups[g]) <==> MergedInto(w.groups, m, g) && Owner(w.groups, m) != Some(g)
    {
    }
  }

  /** No other operation makes a group hollow. */
  lemma OnlyDeletionLeavesHollow(w: World, op: Op)
    requires Inv(w) && NoHollow(w.groups) && !op.DeleteDerived?
    ensures NoHollow(Step(w, op).groups)
  {
    hide Inv, Editable, Withdraw, PointedAt, CanInsert;
    if op.Settle? && Accepts(w, op) {
      assert !Hollow(w.groups[op.g]);
    }
  }

  /** What `list_stale_derived` lists. */
  predicate Stale(w: World, m: nat)
  {
    && m in w.files && w.files[m].derived
    && Owner(w.groups, m).Some? && !w.groups[Owner(w.groups, m).value].Live()
    && forall id :: id in w.records ==> w.records[id].media != m
  }

  /** No button is shown there that is refused when pressed, members of merges apart. */
  lemma StaleCanBeDeleted(w: World, m: nat)
    requires Stale(w, m)
    ensures Blocker(w, m).None?
    ensures AcceptsRemoval(w, DeleteDerived(m)) <==> !IsPart(w.groups, m)
  {
    hide Owner, Released, IsPart;
    DeletionWorksIff(w, m);
  }

  // ----- what is displayed and what blocks

  datatype Presence = Sending | Present | Unknown | Trashed | Gone | SendFailed | NotSent
  {
    /** _PRESENCE_PRIORITY: the first is shown. */
    function Rank(): nat
    {
      match this
      case Sending => 0
      case Present => 1
      case Unknown => 2
      case Trashed => 3
      case Gone => 4
      case SendFailed => 5
      case NotSent => 6
    }
  }

  function PresenceOf(r: L.Record): Presence
  {
    if Unsettled(r.state) then Sending
    else if r.asset.Some? then if r.trashed then Trashed else Present
    else if r.state.Complete? then if r.checked.Some? then Gone else Unknown
    else SendFailed
  }

  predicate Concerns(r: L.Record, m: nat, dest: nat) { r.media == m && r.dest == dest && !r.invalidated }

  /** The one line of a destination: the best of its records. */
  ghost predicate Shows(records: map<nat, L.Record>, m: nat, dest: nat, p: Presence)
  {
    if exists id :: id in records && Concerns(records[id], m, dest) then
      && (exists id :: id in records && Concerns(records[id], m, dest) && PresenceOf(records[id]) == p)
      && forall id :: id in records && Concerns(records[id], m, dest) ==> p.Rank() <= PresenceOf(records[id]).Rank()
    else p == NotSent
  }

  /** A list of the records of one destination, folded as the page does it. */
  method Best(rows: seq<L.Record>) returns (p: Presence)
    requires rows != []
    ensures exists i :: 0 <= i < |rows| && PresenceOf(rows[i]) == p
    ensures forall i :: 0 <= i < |rows| ==> p.Rank() <= PresenceOf(rows[i]).Rank()
  {
    p := PresenceOf(rows[0]);
    for k := 1 to |rows|
      invariant exists i :: 0 <= i < |rows| && PresenceOf(rows[i]) == p
      invariant forall i :: 0 <= i < k ==> p.Rank() <= PresenceOf(rows[i]).Rank()
    {
      if PresenceOf(rows[k]).Rank() < p.Rank() { p := PresenceOf(rows[k]); }
    }
  }

  ghost predicate ShownSomewhere(records: map<nat, L.Record>, m: nat, p: Presence)
  {
    exists dest :: Shows(records, m, dest, p)
  }

  lemma RankTellsApart(p: Presence, q: Presence)
    requires p.Rank() == q.Rank()
    ensures p == q
  {
  }

  /** A record of a destination is shown, or a better one is. */
  lemma {:induction false} SomethingIsShown(records: map<nat, L.Record>, m: nat, id: nat) returns (p: Presence)
    requires id in records && records[id].media == m && !records[id].invalidated
    ensures Shows(records, m, records[id].dest, p) && p.Rank() <= PresenceOf(records[id]).Rank()
    ensures exists i :: i in records && Concerns(records[i], m, records[id].dest) && PresenceOf(records[i]) == p
    decreases PresenceOf(records[id]).Rank()
  {
    var dest := records[id].dest;
    assert Concerns(records[id], m, dest);
    if other :| other in records && Concerns(records[other], m, dest) && PresenceOf(records[other]).Rank() < PresenceOf(records[id]).Rank() {
      p := SomethingIsShown(records, m, other);
    } else {
      p := PresenceOf(records[id]);
    }
  }

  /** Whether a record is about to block is seen from what it shows. */
  lemma AboutIsPresence(r: L.Record)
    ensures IsAbout(r, BeingSent) <==> PresenceOf(r) == Sending
    ensures !IsAbout(r, BeingSent) ==> (IsAbout(r, InLibrary) <==> PresenceOf(r) == Present)
    ensures !IsAbout(r, BeingSent) && !IsAbout(r, InLibrary) ==> (IsAbout(r, NotChecked) <==> PresenceOf(r) == Unknown)
  {
  }

  ghost predicate Presents(records: map<nat, L.Record>, m: nat, p: Presence)
  {
    exists id :: id in records && records[id].media == m && !records[id].invalidated && PresenceOf(records[id]) == p
  }

  /** The best presence of all is displayed by some destination. */
  lemma BestIsShown(records: map<nat, L.Record>, m: nat, p: Presence)
    requires Presents(records, m, p)
    requires forall q: Presence :: q.Rank() < p.Rank() ==> !Presents(records, m, q)
    ensures ShownSomewhere(records, m, p)
  {
    var id :| id in records && records[id].media == m && !records[id].invalidated && PresenceOf(records[id]) == p;
    var q := SomethingIsShown(records, m, id);
    assert Presents(records, m, q);
    RankTellsApart(p, q);
  }

  lemma ShownIsPresented(records: map<nat, L.Record>, m: nat, p: Presence)
    requires ShownSomewhere(records, m, p) && p != NotSent
    ensures Presents(records, m, p)
  {
  }

  /** The records give a reason against deleting exactly when some destination displays
      it, and it is the reason of the strongest display: folding each destination to one
      line hides nothing that blocks. */
  lemma DisplayAgreesWithBlocker(records: map<nat, L.Record>, m: nat)
    ensures RecordReason(records, m) == Some(BeingSent) <==> ShownSomewhere(records, m, Sending)
    ensures RecordReason(records, m) == Some(InLibrary) <==>
              !ShownSomewhere(records, m, Sending) && ShownSomewhere(records, m, Present)
    ensures RecordReason(records, m) == Some(NotChecked) <==>
              && !ShownSomewhere(records, m, Sending) && !ShownSomewhere(records, m, Present)
              && ShownSomewhere(records, m, Unknown)
  {
    ReasonIsPresence(records, m);
    hide HasRecord, Presents, ShownSomewhere;
    PresentedIsShown(records, m);
  }

  lemma ReasonIsPresence(records: map<nat, L.Record>, m: nat)
    ensures HasRecord(records, m, BeingSent) == Presents(records, m, Sending)
    ensures !HasRecord(records, m, BeingSent) ==> HasRecord(records, m, InLibrary) == Presents(records, m, Present)
    ensures !HasRecord(records, m, BeingSent) && !HasRecord(records, m, InLibrary) ==>
              HasRecord(records, m, NotChecked) == Presents(records, m, Unknown)
  {
    forall id | id in records
      ensures IsAbout(records[id], BeingSent) <==> PresenceOf(records[id]) == Sending
      ensures !IsAbout(records[id], BeingSent) ==> (IsAbout(records[id], InLibrary) <==>
          PresenceOf(records[id]) == Present)
      ensures !IsAbout(records[id], BeingSent) && !IsAbout(records[id], InLibrary) ==>
                (IsAbout(records[id], NotChecked) <==> PresenceOf(records[id]) == Unknown)
    {
      AboutIsPresence(records[id]);
    }
  }

  lemma PresentedIsShown(records: map<nat, L.Record>, m: nat)
    ensures Presents(records, m, Sending) == ShownSomewhere(records, m, Sending)
    ensures !Presents(records, m, Sending) ==> Presents(records, m, Present) == ShownSomewhere(records, m, Present)
    ensures !Presents(records, m, Sending) && !Presents(records, m, Present) ==>
              Presents(records, m, Unknown) == ShownSomewhere(records, m, Unknown)
  {
    hide Presents, ShownSomewhere;
    forall p: Presence | p != NotSent && ShownSomewhere(records, m, p) ensures Presents(records, m, p) {
      ShownIsPresented(records, m, p);
    }
    if Presents(records, m, Sending) { BestIsShown(records, m, Sending); }
    else if Presents(records, m, Present) { BestIsShown(records, m, Present); }
    else if Presents(records, m, Unknown) { BestIsShown(records, m, Unknown); }
  }
}
