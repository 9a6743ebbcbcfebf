/** The transactions on merge groups as they are carried out, statement by statement,
    and one merge job on top of them. */
module MergeStore {
  import opened Options
  import opened Merges
  import opened MergeSafety
  import opened Deletion

  /** The blocker of the check, or the foreign keys. */
  datatype Refusal = Blocked(reason: Option<Reason>) | StillReferenced

  class MergeRepository {
    var db: World

    constructor (db: World)
      ensures this.db == db
    {
      this.db := db;
    }

    /** None when the same group is there already, or a file is taken. */
    method SaveDetected(rev: Rev, media: seq<nat>) returns (made: Option<nat>)
      requires Inv(db) && IsRev(db.profiles, rev) && AllFiles(db.files, media)
      modifies this
      ensures Inv(db) && db == Step(old(db), Merges.SaveDetected(rev, media))
      ensures made.Some? <==> AcceptsNew(old(db), Merges.SaveDetected(rev, media))
      ensures made.Some? ==> made.value == old(db).nextGroup && made.value in db.groups
      ensures made.None? ==> db == old(db)
    {
      hide Inv, NewOk;
      ghost var op := Merges.SaveDetected(rev, media);
      StepKeepsInv(db, op);
      InvRest(db);
      if DigestInUse(db.groups, DigestOf(db.files, media, rev), None) || HeldByOther(db.groups, media, None) {
        return None;
      }
      var x := NewGroup(db.files, rev.profile, rev.number, [], rev).(digest := DigestOf(db.files, media, rev));
      var ok := InsertWithMembers(x, media);
      if !ok { return None; }
      made := Some(db.nextGroup - 1);
      assert db.groups[old(db).nextGroup] == NewGroup(old(db).files, rev.profile, rev.number, media, rev);
      assert db == EffectNew(old(db), op);
    }

    /** Inserts the group's row and its members one by one; the transaction is rolled back
        when a member is refused. */
    method InsertWithMembers(x: Group, media: seq<nat>) returns (ok: bool)
      requires x.parts == [] && x.Live() && db.nextGroup !in db.groups
      modifies this
      ensures ok <==> AllFiles(old(db).files, media) && Distinct(media) && !HeldByOther(old(db).groups, media, None)
      ensures db == if ok then Insert(old(db), x.(parts := Taken(media))) else old(db)
    {
      var was := db;
      var g := db.nextGroup;
      db := Insert(db, x);
      assert x.(parts := Taken(media[..0])) == x;
      for i := 0 to |media|
        invariant db == Insert(was, x.(parts := Taken(media[..i])))
        invariant AllFiles(was.files, media[..i]) && Distinct(media[..i]) && !HeldByOther(was.groups, media[..i], None)
      {
        var m := media[i];
        HolderOfNext(was, x, media, i, g);
        if m !in db.files || HeldByOther(db.groups, [m], None) {
          db := was;
          return false;
        }
        db := db.(groups := db.groups[g := db.groups[g].(parts := db.groups[g].parts + [Part(m, true)])]);
        assert Taken(media[..i]) + [Part(m, true)] == Taken(media[..i + 1]);
      }
      assert media[..|media|] == media;
      ok := true;
    }

    /** A group made by hand. The digest may have been computed under an earlier revision
        than the one the group is filed under. */
    method CreateManual(media: seq<nat>, seen: Rev) returns (made: Option<nat>)
      requires Inv(db) && IsRev(db.profiles, seen) && AllFiles(db.files, media)
      requires media != [] && db.files[media[0]].profile == seen.profile
      modifies this
      ensures Inv(db) && db == Step(old(db), Merges.CreateManual(media, seen))
      ensures made.Some? <==> AcceptsNew(old(db), Merges.CreateManual(media, seen))
      ensures made.Some? ==> made.value == old(db).nextGroup && made.value in db.groups
      ensures made.None? ==> db == old(db)
    {
      hide Inv, NewOk;
      ghost var op := Merges.CreateManual(media, seen);
      StepKeepsInv(db, op);
      InvRest(db);
      if DigestInUse(db.groups, DigestOf(db.files, media, seen), None) { return None; }
      var x := NewGroup(db.files, seen.profile, db.profiles[seen.profile], [], seen);
      x := x.(digest := DigestOf(db.files, media, seen));
      var ok := InsertWithMembers(x, media);
      if !ok { return None; }
      made := Some(db.nextGroup - 1);
      assert db == EffectNew(old(db), op);
    }

    /** detected or failed to merging, if the group is still made of what was shown. */
    method ClaimForMerge(g: nat, digest: Digest) returns (ok: bool)
      requires Inv(db)
      modifies this
      ensures Inv(db) && db == Step(old(db), Merges.ClaimForMerge(g, digest))
      ensures ok == AcceptsMerging(old(db), Merges.ClaimForMerge(g, digest))
    {
      hide Inv;
      StepKeepsInv(db, Merges.ClaimForMerge(g, digest));
      ok := g in db.groups && db.groups[g].digest == digest && db.groups[g].successor.None?
            && (db.groups[g].status.Detected? || db.groups[g].status.Failed?);
      if ok { Put(g, db.groups[g].(status := Merging)); }
    }

    method Put(g: nat, x: Group)
      modifies this
      ensures db == old(db).(groups := old(db).groups[g := x])
    {
      db := db.(groups := db.groups[g := x]);
    }

    method RecordVerification(g: nat, passed: bool) returns (ok: bool)
      requires Inv(db)
      modifies this
      ensures Inv(db) && db == Step(old(db), Merges.RecordVerification(g, passed))
      ensures ok == AcceptsMerging(old(db), Merges.RecordVerification(g, passed))
    {
      hide Inv;
      StepKeepsInv(db, Merges.RecordVerification(g, passed));
      ok := g in db.groups && db.groups[g].status.Merging? && db.groups[g].successor.None?;
      if ok { Put(g, db.groups[g].(verified := Some(passed))); }
    }

    /** merging to merged, only with an output and a verification. */
    method MarkMerged(g: nat) returns (ok: bool)
      requires Inv(db)
      modifies this
      ensures Inv(db) && db == Step(old(db), Merges.MarkMerged(g))
      ensures ok == AcceptsMerging(old(db), Merges.MarkMerged(g))
    {
      hide Inv;
      StepKeepsInv(db, Merges.MarkMerged(g));
      ok := g in db.groups && db.groups[g].status.Merging? && db.groups[g].successor.None?
            && db.groups[g].output.Some? && db.groups[g].verified.Some?;
      if ok { Put(g, db.groups[g].(status := Merged)); }
    }

    /** `_transition`: merging to failed, or back to detected. */
    method Transition(g: nat, failed: bool) returns (ok: bool)
      requires Inv(db)
      modifies this
      ensures var op := if failed then Merges.MarkFailed(g) else Merges.Release(g);
              Inv(db) && db == Step(old(db), op) && ok == AcceptsMerging(old(db), op)
    {
      hide Inv;
      StepKeepsInv(db, if failed then Merges.MarkFailed(g) else Merges.Release(g));
      ok := g in db.groups && db.groups[g].status.Merging? && db.groups[g].successor.None?;
      if ok { Put(g, db.groups[g].(status := if failed then Status.Failed else Detected)); }
    }

    /** Accepts a result that failed its verification; accepting twice is nothing. */
    method Adopt(g: nat) returns (ok: bool)
      requires Inv(db)
      modifies this
      ensures Inv(db) && db == Step(old(db), Merges.Adopt(g))
      ensures ok == AcceptsMerging(old(db), Merges.Adopt(g))
    {
      hide Inv;
      StepKeepsInv(db, Merges.Adopt(g));
      if g !in db.groups || db.groups[g].successor.Some? { return false; }
      if !db.groups[g].status.Merged? || db.groups[g].output.None? { return false; }
      if db.groups[g].adopted {
        assert db.groups[g := db.groups[g]] == db.groups;
        return true;
      }
      Put(g, db.groups[g].(adopted := true));
      ok := true;
    }

    /** Forgets a discarded group that has nothing and that nothing points at. */
    method DeleteDiscarded(g: nat) returns (ok: bool)
      requires Inv(db)
      modifies this
      ensures Inv(db) && db == Step(old(db), Merges.DeleteDiscarded(g))
      ensures ok == AcceptsRemoval(old(db), Merges.DeleteDiscarded(g))
    {
      hide Inv, PointedAt;
      StepKeepsInv(db, Merges.DeleteDiscarded(g));
      if g !in db.groups || !db.groups[g].status.Skipped? || db.groups[g].output.Some? { return false; }
      if PointedAt(db, g) { return false; }       // ON DELETE RESTRICT
      db := db.(groups := db.groups - {g});
      ok := true;
    }

    /** Replaces a group by one made of other files. The group is pointed at its successor
        before that exists, so the same digest may be used again. */
    method Supersede(g: nat, media: seq<nat>, seen: Rev) returns (made: Option<nat>)
      requires Inv(db) && IsRev(db.profiles, seen) && AllFiles(db.files, media)
      requires media != [] && db.files[media[0]].profile == seen.profile
      modifies this
      ensures Inv(db) && db == Step(old(db), Merges.Supersede(g, media, seen))
      ensures made.Some? <==> AcceptsNew(old(db), Merges.Supersede(g, media, seen))
      ensures made.Some? ==> made.value == old(db).nextGroup && made.value in db.groups
      ensures made.None? ==> db == old(db)
    {
      hide Inv, NewOk, Editable, Withdraw;
      ghost var op := Merges.Supersede(g, media, seen);
      StepKeepsInv(db, op);
      InvRest(db);
      var was := db;
      if g !in db.groups || !Editable(db, g) { return None; }
      var former := db.groups[g];
      ProfileIsThere(db, g);
      db := db.(records := Withdraw(db.records, former));
      if former.successor.Some? {       // the trigger: a replacement is final
        db := was;
        return None;
      }
      db := db.(groups := db.groups[g := former.PointAt(db.nextGroup)]);
      PointedHolders(was.groups, g, was.nextGroup, media, DigestOf(was.files, media, seen));
      if DigestInUse(db.groups, DigestOf(db.files, media, seen), None) {
        db := was;
        return None;
      }
      var x := NewGroup(db.files, former.profile, db.profiles[former.profile], [], seen);
      x := x.(digest := DigestOf(db.files, media, seen));
      var ok := InsertWithMembers(x, media);
      if !ok {
        db := was;
        return None;
      }
      made := Some(db.nextGroup - 1);
      assert db == EffectNew(was, op);
    }

    method Discard(g: nat) returns (ok: bool)
      requires Inv(db)
      modifies this
      ensures Inv(db) && db == Step(old(db), Merges.Discard(g))
      ensures ok <==> AcceptsRemoval(old(db), Merges.Discard(g))
    {
      hide Inv, Editable, Withdraw;
      StepKeepsInv(db, Merges.Discard(g));
      if g !in db.groups || !Editable(db, g) { return false; }
      // the records go first: the trigger on the status lets the members go
      db := db.(records := Withdraw(db.records, db.groups[g]));
      db := db.(groups := db.groups[g := db.groups[g].Skip()]);
      ok := true;
    }

    /** Deletes a merged file together with the groups' references to it, or says why not. */
    method DeleteDerived(m: nat) returns (refused: Option<Refusal>)
      requires Inv(db)
      modifies this
      ensures Inv(db) && db == Step(old(db), Merges.DeleteDerived(m))
      ensures refused.None? <==> AcceptsRemoval(old(db), Merges.DeleteDerived(m))
      ensures refused.None? || refused == Some(StillReferenced) || refused == Some(Blocked(Blocker(old(db), m)))
      ensures refused == Some(StillReferenced) ==> Blocker(old(db), m).None?
    {
      hide Inv, Editable, Withdraw, Blocker, Detach, WithoutRecordsOf, Owner, IsReferenced;
      ghost var op := Merges.DeleteDerived(m);
      StepKeepsInv(db, op);
      OwnerOwns(db.groups, m);
      var was := db;
      var blocker := Blocker(db, m);
      if blocker.Some? { return Some(Blocked(blocker)); }
      var owner := Owner(db.groups, m);
      if owner.Some? && db.groups[owner.value].Live() {
        DiscardIsNotRefused(db, m);
        db := Discarded(db, owner.value);
      }
      db := db.(groups := Detach(db.groups, m));
      db := db.(records := WithoutRecordsOf(db.records, m));
      assert db == Released(was, m).value;
      if IsReferenced(db, m) {          // ON DELETE RESTRICT
        db := was;
        return Some(StillReferenced);
      }
      db := db.(files := db.files - {m});
      refused := None;
    }
  }

  lemma HolderOfNext(w: World, x: Group, media: seq<nat>, i: nat, g: nat)
    requires i < |media| && g == w.nextGroup && g !in w.groups && x.parts == []
    requires Distinct(media[..i])
    ensures var groups := Insert(w, x.(parts := Taken(media[..i]))).groups;
            HeldByOther(groups, [media[i]], None) <==> media[i] in media[..i] || HeldByOther(w.groups, [media[i]], None)
    ensures media[i] !in media[..i] <==> Distinct(media[..i + 1])
    ensures media[i] in media[..i] ==> !Distinct(media)
    ensures AllFiles(w.files, media) ==> media[i] in w.files
    ensures HeldByOther(w.groups, media[..i + 1], None) <==> HeldByOther(w.groups, media[..i], None) || HeldByOther(w.groups, [media[i]], None)
    ensures HeldByOther(w.groups, [media[i]], None) ==> HeldByOther(w.groups, media, None)
  {
    var groups := Insert(w, x.(parts := Taken(media[..i]))).groups;
    if k :| 0 <= k < i && media[k] == media[i] {
      assert groups[g].parts[k] == Part(media[i], true);
      assert groups[g].Holds([media[i]][0]);
    }
    if h :| h in w.groups && w.groups[h].Holds(media[i]) {
      assert groups[h].Holds([media[i]][0]);
      assert w.groups[h].Holds([media[i]][0]);
      assert w.groups[h].Holds(media[..i + 1][i]);
    }
    if h, k :| h in w.groups && 0 <= k < i && w.groups[h].Holds(media[..i][k]) {
      assert w.groups[h].Holds(media[..i + 1][k]);
    }
    var more := media[..i + 1];
    if h, k :| h in w.groups && 0 <= k < |more| && w.groups[h].Holds(more[k]) {
      if k < i { assert w.groups[h].Holds(media[..i][k]); }
    }
  }

  lemma ProfileIsThere(w: World, g: nat)
    requires Inv(w) && g in w.groups
    ensures w.groups[g].profile in w.profiles
  {
    assert GroupOk(w, g, w.groups[g]);
  }

  lemma PointedHolders(groups: map<nat, Group>, g: nat, next: nat, media: seq<nat>, digest: Digest)
    requires g in groups
    ensures var pointed := groups[g := groups[g].PointAt(next)];
            && (HeldByOther(pointed, media, None) <==> HeldByOther(groups, media, Some(g)))
            && (DigestInUse(pointed, digest, None) <==> DigestInUse(groups, digest, Some(g)))
  {
    var pointed := groups[g := groups[g].PointAt(next)];
    forall h, m: nat | h in groups ensures pointed[h].Holds(m) <==> h != g && groups[h].Holds(m) { }
    hide Group.Holds;
    if h, i :| h in groups && Some(h) != Some(g) && 0 <= i < |media| && groups[h].Holds(media[i]) {
      assert pointed[h].Holds(media[i]);
    }
    if h, i :| h in pointed && 0 <= i < |media| && pointed[h].Holds(media[i]) {
      assert groups[h].Holds(media[i]);
    }
    if h :| h in groups && Some(h) != Some(g) && groups[h].successor.None? && groups[h].digest == digest {
      assert pointed[h].digest == digest;
    }
    if h :| h in pointed && pointed[h].successor.None? && pointed[h].digest == digest {
      assert groups[h].digest == digest;
    }
  }
}
