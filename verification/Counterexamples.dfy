/** Runs of merge groups that end where a promise does not hold. */
module Counterexamples {
  import opened Options
  import opened Merges
  import opened MergeSafety
  import opened Deletion
  import opened Selection
  import opened Choices

  // ----- a merge job, undisturbed

  function MergeOps(g: nat, digest: Digest, row: nat, m: nat, file: File): seq<Op>
  {
    [ClaimForMerge(g, digest), RecordVerification(g, true), BeginStaging(row, g), Publish(row, m, file), MarkMerged(g)]
  }

  /** What it makes of the world. */
  function MergedWorld(w: World, g: nat, row: nat, m: nat, file: File): World
    requires g in w.groups
  {
    w.(files := if m in w.files then w.files else w.files[m := file],
       groups := w.groups[g := w.groups[g].(status := Merged, verified := Some(true), output := Some(m))],
       staging := w.staging[row := Staging(g, true)])
  }

  lemma ClaimIs(w: World, g: nat)
    requires g in w.groups && w.groups[g].status.Detected? && w.groups[g].successor.None?
    ensures Step(w, ClaimForMerge(g, w.groups[g].digest)) == w.(groups := w.groups[g := w.groups[g].(status := Merging)])
  {
  }

  lemma VerifyIs(w: World, g: nat)
    requires g in w.groups && w.groups[g].status.Merging? && w.groups[g].successor.None?
    ensures Step(w, RecordVerification(g, true)) == w.(groups := w.groups[g := w.groups[g].(verified := Some(true))])
  {
  }

  lemma StageIs(w: World, g: nat, row: nat)
    requires g in w.groups && w.groups[g].verified.Some? && row !in w.staging && Placeable(w.files, w.groups[g])
    ensures Step(w, BeginStaging(row, g)) == w.(staging := w.staging[row := Staging(g, false)])
  {
  }

  lemma PublishIs(w: World, g: nat, row: nat, m: nat, file: File)
    requires g in w.groups && row in w.staging && w.staging[row] == Staging(g, false)
    requires IsResultOf(w.files, m, file, w.groups[g])
    ensures Step(w, Publish(row, m, file)) ==
              w.(files := if m in w.files then w.files else w.files[m := file],
                 groups := w.groups[g := w.groups[g].(output := Some(m))],
                 staging := w.staging[row := Staging(g, true)])
  {
  }

  lemma MarkIs(w: World, g: nat)
    requires g in w.groups && w.groups[g].status.Merging? && w.groups[g].successor.None?
    requires w.groups[g].output.Some? && w.groups[g].verified.Some?
    ensures Step(w, MarkMerged(g)) == w.(groups := w.groups[g := w.groups[g].(status := Merged)])
  {
  }

  lemma {:induction false} RunJoins(w: World, a: seq<Op>, b: seq<Op>)
    ensures Run(w, a + b) == Run(Run(w, a), b)
    decreases |b|
  {
    hide Step;
    if b == [] {
      assert a + b == a;
    } else {
      assert (a + b)[..|a + b| - 1] == a + b[..|b| - 1];
      RunJoins(w, a, b[..|b| - 1]);
    }
  }

  lemma RunOne(w: World, op: Op)
    ensures Run(w, [op]) == Step(w, op)
  {
    assert [op][..0] == [];
  }

  lemma MergeRuns(w: World, g: nat, row: nat, m: nat, file: File)
    requires g in w.groups && w.groups[g].status.Detected? && w.groups[g].successor.None? && row !in w.staging
    requires Placeable(w.files, w.groups[g]) && IsResultOf(w.files, m, file, w.groups[g])
    ensures Run(w, MergeOps(g, w.groups[g].digest, row, m, file)) == MergedWorld(w, g, row, m, file)
  {
    hide Step;
    var ops := MergeOps(g, w.groups[g].digest, row, m, file);
    ClaimIs(w, g);
    var a := Step(w, ops[0]);
    VerifyIs(a, g);
    var b := Step(a, ops[1]);
    StageIs(b, g, row);
    var c := Step(b, ops[2]);
    PublishIs(c, g, row, m, file);
    var d := Step(c, ops[3]);
    MarkIs(d, g);
    var e := Step(d, ops[4]);
    RunFive(w, ops);
    assert e.groups == MergedWorld(w, g, row, m, file).groups;
    assert e.staging == MergedWorld(w, g, row, m, file).staging;
  }

  lemma RunFive(w: World, ops: seq<Op>)
    requires |ops| == 5
    ensures Run(w, ops) == Step(Step(Step(Step(Step(w, ops[0]), ops[1]), ops[2]), ops[3]), ops[4])
  {
    hide Step;
    assert ops[..4][..3] == ops[..3] && ops[..3][..2] == ops[..2] && ops[..2][..1] == ops[..1] && ops[..1][..0] == [];
    assert Run(w, ops[..1]) == Step(w, ops[0]);
    assert Run(w, ops[..2]) == Step(Run(w, ops[..1]), ops[1]);
    assert Run(w, ops[..3]) == Step(Run(w, ops[..2]), ops[2]);
    assert Run(w, ops[..4]) == Step(Run(w, ops[..3]), ops[3]);
  }

  // ----- one file for two groups

  /** A recording in two parts, and copies of them in the same directory. */
  function Copies(number: nat): World
  {
    var first, second := File(false, 0, "a", false), File(false, 0, "b", false);
    World(map[], map[0 := first, 1 := second, 2 := first, 3 := second], map[], map[0 := number], map[], {}, {}, 0)
  }

  /** Two files put together by hand. */
  function Pair(a: nat, b: nat, revision: nat, seen: nat): Group
  {
    Group(0, revision, Detected, Digest([(a, "a"), (b, "b")], Rev(0, seen)), [Part(a, true), Part(b, true)],
      None, None, None, false)
  }

  const MERGED_FILE := File(true, 0, "c", false)

  function Done(x: Group): Group { x.(status := Merged, verified := Some(true), output := Some(4)) }

  lemma PairHolds(x: Group, a: nat, b: nat, m: nat)
    requires x.parts == [Part(a, true), Part(b, true)]
    ensures x.Holds(m) <==> m == a || m == b
  {
    assert x.parts[0] == Part(a, true) && x.parts[1] == Part(b, true);
  }

  lemma PairIsMade(w: World, a: nat, b: nat, number: nat, seen: nat)
    requires a != b && w.profiles == map[0 := number] && seen <= number
    requires a in w.files && w.files[a] == File(false, 0, "a", false) && b in w.files && w.files[b].sha1 == "b"
    requires forall g :: g in w.groups ==> !w.groups[g].Holds(a) && !w.groups[g].Holds(b)
    requires forall g :: g in w.groups ==> w.groups[g].digest != Pair(a, b, number, seen).digest
    ensures AcceptsNew(w, CreateManual([a, b], Rev(0, seen)))
    ensures Run(w, [CreateManual([a, b], Rev(0, seen))]) ==
              w.(groups := w.groups[w.nextGroup := Pair(a, b, number, seen)], nextGroup := w.nextGroup + 1)
  {
    var media, op := [a, b], CreateManual([a, b], Rev(0, seen));
    assert media[0] == a && media[1] == b;
    assert DigestOf(w.files, media, Rev(0, seen)).members == [(a, "a"), (b, "b")];
    assert Taken(media) == [Part(a, true), Part(b, true)];
    hide Group.Holds;
    assert CanInsert(w, media, Rev(0, seen), None);
    RunOne(w, op);
  }

  function SharedOps(edits: seq<Op>, number: nat): seq<Op>
  {
    ([CreateManual([0, 1], Rev(0, 0))] + MergeOps(0, Pair(0, 1, 0, 0).digest, 0, 4, MERGED_FILE))
    + (edits + ([CreateManual([2, 3], Rev(0, number))] + MergeOps(1, Pair(2, 3, number, number).digest, 1, 4, MERGED_FILE)))
  }

  function OneMerged(): World
  {
    Copies(0).(files := Copies(0).files[4 := MERGED_FILE], groups := map[0 := Done(Pair(0, 1, 0, 0))],
               staging := map[0 := Staging(0, true)], nextGroup := 1)
  }

  function Shared(number: nat): World
  {
    OneMerged().(profiles := map[0 := number],
                 groups := map[0 := Done(Pair(0, 1, 0, 0)), 1 := Done(Pair(2, 3, number, number))],
                 staging := map[0 := Staging(0, true), 1 := Staging(1, true)], nextGroup := 2)
  }

  lemma FirstIsMerged()
    ensures Run(Copies(0), [CreateManual([0, 1], Rev(0, 0))] + MergeOps(0, Pair(0, 1, 0, 0).digest, 0, 4, MERGED_FILE))
            == OneMerged()
  {
    hide Step;
    var start, op := Copies(0), CreateManual([0, 1], Rev(0, 0));
    PairIsMade(start, 0, 1, 0, 0);
    var made := start.(groups := map[0 := Pair(0, 1, 0, 0)], nextGroup := 1);
    MergeRuns(made, 0, 0, 4, MERGED_FILE);
    RunJoins(start, [op], MergeOps(0, Pair(0, 1, 0, 0).digest, 0, 4, MERGED_FILE));
  }

  lemma SecondIsMerged(w: World, number: nat)
    requires w == OneMerged().(profiles := map[0 := number])
    ensures Run(w, [CreateManual([2, 3], Rev(0, number))]
                   + MergeOps(1, Pair(2, 3, number, number).digest, 1, 4, MERGED_FILE)) == Shared(number)
  {
    hide Step;
    var op := CreateManual([2, 3], Rev(0, number));
    PairHolds(w.groups[0], 0, 1, 2);
    PairHolds(w.groups[0], 0, 1, 3);
    assert w.groups[0].digest.members[0] != Pair(2, 3, number, number).digest.members[0];
    PairIsMade(w, 2, 3, number, number);
    var made := w.(groups := w.groups[1 := Pair(2, 3, number, number)], nextGroup := 2);
    MergeRuns(made, 1, 1, 4, MERGED_FILE);
    RunJoins(w, [op], MergeOps(1, Pair(2, 3, number, number).digest, 1, 4, MERGED_FILE));
  }

  lemma SharedRuns(edits: seq<Op>, number: nat)
    requires (edits == [] && number == 0) || (edits == [EditProfile(0)] && number == 1)
    ensures Run(Copies(0), SharedOps(edits, number)) == Shared(number) && Inv(Shared(number))
  {
    hide Step, Inv;
    var start, edited := Copies(0), OneMerged().(profiles := map[0 := number]);
    FirstIsMerged();
    EditIs(OneMerged(), edits, number);
    SecondIsMerged(edited, number);
    var first := [CreateManual([0, 1], Rev(0, 0))] + MergeOps(0, Pair(0, 1, 0, 0).digest, 0, 4, MERGED_FILE);
    var second := [CreateManual([2, 3], Rev(0, number))] + MergeOps(1, Pair(2, 3, number, number).digest, 1, 4, MERGED_FILE);
    RunJoins(start, first, edits + second);
    RunJoins(OneMerged(), edits, second);
    CopiesAreOk(0);
    RunKeepsInv(start, SharedOps(edits, number));
  }

  lemma EditIs(w: World, edits: seq<Op>, number: nat)
    requires w.profiles == map[0 := 0]
    requires (edits == [] && number == 0) || (edits == [EditProfile(0)] && number == 1)
    ensures Run(w, edits) == w.(profiles := map[0 := number])
  {
    if edits != [] { RunOne(w, EditProfile(0)); }
  }

  lemma CopiesAreOk(number: nat)
    ensures Inv(Copies(number))
  {
  }

  /** The parts are merged, and so are the copies; both publications end at one file: the same
      bytes under one name. Deleting it discards one group and leaves the other merged, with
      no file. */
  lemma SharedFileLeavesHollow()
    ensures var w := Run(Copies(0), SharedOps([], 0));
            && Inv(w) && NoHollow(w.groups) && AcceptsRemoval(w, DeleteDerived(4))
            && !NoHollow(EffectRemoval(w, DeleteDerived(4)).groups)
  {
    hide Inv, Step, NoHollow, AcceptsRemoval, EffectRemoval, Owner, Blocker;
    SharedRuns([], 0);
    var w := Shared(0);
    SharedIsOffered(w);
    DeletionWorksIff(w, 4);
    assert NoHollow(w.groups) by { NoneHollow(w); }
    assert MergedInto(w.groups, 4, 0) && MergedInto(w.groups, 4, 1);
    DeletionLeavesHollowIff(w, 4);
  }

  predicate BothMerged(w: World)
  {
    && w.groups.Keys == {0, 1} && w.records == map[] && 4 in w.files && w.files[4].derived
    && (forall g :: g in w.groups ==>
          && w.groups[g].status.Merged? && w.groups[g].output == Some(4) && w.groups[g].Live()
          && |w.groups[g].parts| == 2 && w.groups[g].parts[0].media != 4 && w.groups[g].parts[1].media != 4)
  }

  lemma SharedIsOffered(w: World)
    requires BothMerged(w)
    ensures Blocker(w, 4).None? && !IsPart(w.groups, 4)
  {
    OwnerOwns(w.groups, 4);
    hide Owner;
    assert Owns(w.groups, 4, 0);
    OwnerIsCurrentIff(w.groups, 4);
  }

  lemma NoneHollow(w: World)
    requires BothMerged(w)
    ensures NoHollow(w.groups)
  {
  }

  /** The profile is edited between the two. The first group, taken to own the file, is not
      current any more; the second still offers the file, and a request for it is refused. */
  lemma OfferedAndRefused()
    ensures var w := Run(Copies(0), SharedOps([EditProfile(0)], 1));
            Inv(w) && 4 in w.files && Offered(w, 4) && Choose(w, 4) == None
  {
    hide Inv, Step, Offered, Choose;
    SharedRuns([EditProfile(0)], 1);
    RefusedChoice();
  }

  lemma RefusedChoice()
    requires Inv(Shared(1))
    ensures Offered(Shared(1), 4) && Choose(Shared(1), 4) == None
  {
    hide Inv;
    var w := Shared(1);
    OnlyTheRevisionMoves(w, 0);
    OnlyTheRevisionMoves(w, 1);
    hide DigestMatches;
    assert OfferedBy(w, 4, 1);
    FirstOfTwo(w.groups);
  }

  lemma FirstOfTwo(groups: map<nat, Group>)
    requires groups.Keys == {0, 1} && Owns(groups, 4, 0) && Owns(groups, 4, 1)
    requires Standing(groups[0]) == Standing(groups[1])
    ensures Owner(groups, 4) == Some(0)
  {
    assert Owns(groups, 4, 0) && IsFirstOwner(groups, 4, 0);
    assert !IsFirstOwner(groups, 4, 1) by { assert !Precedes(groups, 1, 0); }
  }

  // ----- counted and not offered

  /** The profile was edited since somebody read its first revision. A group made by hand with
      the digest of the older one, then merged: the SQL condition counts its file, and the
      list does not offer it. */
  lemma OlderRevisionIsCounted()
    ensures var op, ops := CreateManual([0, 1], Rev(0, 0)), MergeOps(0, Pair(0, 1, 1, 0).digest, 0, 4, MERGED_FILE);
            var w := Run(Copies(1), [op] + ops);
            Inv(w) && AcceptsNew(Copies(1), op) && Counted(w, 4) && !Offered(w, 4)
  {
    hide Inv, Step, Offered, Counted, OfferedBy, CountedBy;
    var start := Copies(1);
    var op, ops := CreateManual([0, 1], Rev(0, 0)), MergeOps(0, Pair(0, 1, 1, 0).digest, 0, 4, MERGED_FILE);
    CopiesAreOk(1);
    PairIsMade(start, 0, 1, 1, 0);
    var made := start.(groups := map[0 := Pair(0, 1, 1, 0)], nextGroup := 1);
    MergeRuns(made, 0, 0, 4, MERGED_FILE);
    RunJoins(start, [op], ops);
    RunKeepsInv(start, [op] + ops);
    CountedNotOffered(MergedWorld(made, 0, 0, 4, MERGED_FILE));
  }

  lemma CountedNotOffered(w: World)
    requires Inv(w) && w.groups.Keys == {0} && w.profiles == map[0 := 1] && w.groups[0] == Done(Pair(0, 1, 1, 0))
    requires 4 in w.files && w.files[4] == MERGED_FILE
    ensures Counted(w, 4) && !Offered(w, 4)
  {
    hide Inv;
    assert CountedBy(w, 4, 0);
    OfferedIff(w, 4);
    assert !Coherent(w.groups[0]);
  }
}
