/** What is offered for sending, and the shorter condition that only counts it. */
module Selection {
  import opened Options
  import opened Merges
  import opened MergeSafety

  /** Why a file is listed: by default, as an output nobody approved yet, or as a member of
      a group that could not be merged. */
  datatype Why = ByDefault | Unadopted | OfFailedGroup

  datatype Item = Item(media: nat, group: Option<nat>, why: Why)

  /** An original that no current group holds. */
  predicate FreeOriginal(w: World, m: nat)
  {
    && m in w.files && !w.files[m].missing && !w.files[m].derived
    && forall g :: g in w.groups ==> !w.groups[g].Holds(m)
  }

  predicate MadeBy(w: World, m: nat, g: nat)
  {
    && m in w.files && !w.files[m].missing && w.files[m].derived
    && g in w.groups && w.groups[g].output == Some(m) && w.groups[g].successor.None? && w.groups[g].status.Merged?
  }

  /** Passed its verification, or accepted by a person. */
  predicate Approved(x: Group) { x.adopted || x.verified == Some(true) }

  /** The active members, in order, with the hashes their files have now. */
  function Members(files: map<nat, File>, parts: seq<Part>): seq<(nat, string)>
    requires forall i :: 0 <= i < |parts| ==> parts[i].media in files
  {
    if parts == [] then []
    else
      var before := Members(files, parts[..|parts| - 1]);
      var last := parts[|parts| - 1];
      if last.active then before + [(last.media, files[last.media].sha1)] else before
  }

  predicate FilesThere(w: World, g: nat)
  {
    && g in w.groups && w.groups[g].profile in w.profiles
    && forall i :: 0 <= i < |w.groups[g].parts| ==> w.groups[g].parts[i].media in w.files
  }

  /** The digest of today's members under today's revision. */
  function DigestNow(w: World, g: nat): Digest
    requires FilesThere(w, g)
  {
    var x := w.groups[g];
    Digest(Members(w.files, x.parts), Rev(x.profile, w.profiles[x.profile]))
  }

  predicate DigestMatches(w: World, g: nat) { FilesThere(w, g) && DigestNow(w, g) == w.groups[g].digest }

  predicate OfferedBy(w: World, m: nat, g: nat) { MadeBy(w, m, g) && DigestMatches(w, g) && Approved(w.groups[g]) }

  predicate Offered(w: World, m: nat)
  {
    FreeOriginal(w, m) || exists g :: g in w.groups && OfferedBy(w, m, g)
  }

  /** What SQL can see of a digest that no longer matches: the revision. */
  predicate CountedBy(w: World, m: nat, g: nat)
  {
    && MadeBy(w, m, g) && Approved(w.groups[g])
    && w.groups[g].profile in w.profiles && w.groups[g].revision == w.profiles[w.groups[g].profile]
  }

  predicate Counted(w: World, m: nat)
  {
    FreeOriginal(w, m) || exists g :: g in w.groups && CountedBy(w, m, g)
  }

  /** The digest was computed under the revision that was stored with the group. */
  predicate Coherent(x: Group) { x.digest.rev == Rev(x.profile, x.revision) }

  // ----- the two conditions

  lemma {:induction false} AllMembers(files: map<nat, File>, parts: seq<Part>)
    requires forall i :: 0 <= i < |parts| ==> parts[i].active && parts[i].media in files
    ensures |Members(files, parts)| == |parts|
    ensures forall i :: 0 <= i < |parts| ==> Members(files, parts)[i] == (parts[i].media, files[parts[i].media].sha1)
    decreases |parts|
  {
    if parts != [] {
      AllMembers(files, parts[..|parts| - 1]);
    }
  }

  /** The members of a current group, and their hashes, are those it was made of: only
      the revision can move. */
  lemma OnlyTheRevisionMoves(w: World, g: nat)
    requires Inv(w) && g in w.groups && w.groups[g].Live()
    ensures DigestMatches(w, g) <==> w.groups[g].digest.rev == Rev(w.groups[g].profile, w.profiles[w.groups[g].profile])
  {
    hide OneHolder, DigestsDiffer, StagingOk;
    var x := w.groups[g];
    assert GroupOk(w, g, x);
    AllMembers(w.files, x.parts);
    assert Members(w.files, x.parts) == x.digest.members;
  }

  /** What is offered is counted. */
  lemma OfferedIsCounted(w: World, m: nat, g: nat)
    requires Inv(w) && OfferedBy(w, m, g)
    ensures CountedBy(w, m, g)
  {
    OnlyTheRevisionMoves(w, g);
    assert GroupOk(w, g, w.groups[g]);
  }

  /** What is counted is offered, except where the digest is of another revision than
      the group. */
  lemma CountedIsOfferedIff(w: World, m: nat, g: nat)
    requires Inv(w)
    ensures OfferedBy(w, m, g) <==> CountedBy(w, m, g) && Coherent(w.groups[g])
  {
    hide Inv, DigestMatches;
    if g in w.groups && w.groups[g].Live() { OnlyTheRevisionMoves(w, g); }
    if OfferedBy(w, m, g) { OfferedIsCounted(w, m, g); }
  }

  /** A group that has made something was digested for its own profile: its first file is of
      that profile, and any other choice would have kept it from being published. So what is
      counted and not offered has the digest of an older revision than the group, no more. */
  lemma OnlyOlderIsNotOffered(w: World, m: nat, g: nat)
    requires Inv(w) && CountedBy(w, m, g)
    ensures var x := w.groups[g];
            && x.digest.rev.profile == x.profile && x.digest.rev.number <= x.revision
            && (OfferedBy(w, m, g) <==> x.digest.rev.number == x.revision)
  {
    CountedIsOfferedIff(w, m, g);
    InvGroup(w, g);
    hide Inv, OfferedBy;
  }

  /** For every file, then: offered if and only if counted for a coherent reason. */
  lemma OfferedIff(w: World, m: nat)
    requires Inv(w)
    ensures Offered(w, m) <==> FreeOriginal(w, m) || exists g :: g in w.groups && CountedBy(w, m, g) && Coherent(w.groups[g])
    ensures Offered(w, m) ==> Counted(w, m)
  {
    hide Inv, FreeOriginal, OfferedBy, CountedBy, Coherent;
    forall g | g in w.groups ensures OfferedBy(w, m, g) <==> CountedBy(w, m, g) && Coherent(w.groups[g]) {
      CountedIsOfferedIff(w, m, g);
    }
  }

  // ----- when a group is coherent

  /** Made by detection, always; made by hand, exactly when the profile it is filed
      under was the one the digest was computed for and was not edited in between. */
  lemma NewGroupCoherentIff(w: World, op: Op)
    requires Inv(w) && AcceptsNew(w, op)
    ensures w.nextGroup in EffectNew(w, op).groups
    ensures Coherent(EffectNew(w, op).groups[w.nextGroup]) <==>
              match op
              case CreateManual(_, seen) => seen.number == w.profiles[seen.profile]
              case Supersede(g, _, seen) =>
                seen.profile == w.groups[g].profile && seen.number == w.profiles[seen.profile]
              case _ => true
  {
    hide Inv, Editable, Withdraw;
  }

  lemma CoherenceNew(w: World, op: Op, g: nat)
    requires AcceptsNew(w, op) && g in w.groups && w.nextGroup !in w.groups
    ensures g in EffectNew(w, op).groups && Coherent(EffectNew(w, op).groups[g]) == Coherent(w.groups[g])
  {
    hide Editable, Withdraw, CanInsert, NewGroup;
  }

  lemma CoherenceRemoval(w: World, op: Op, g: nat)
    requires AcceptsRemoval(w, op) && g in w.groups && g in EffectRemoval(w, op).groups
    ensures Coherent(EffectRemoval(w, op).groups[g]) == Coherent(w.groups[g])
  {
    hide Editable, PointedAt, IsReferenced, Blocker, Released, Discarded;
    match op
    case Discard(h) => DiscardIs(w, h);
    case DeleteDiscarded(_) =>
    case DeleteDerived(m) => ReleasedSame(w, m);
  }

  /** Same members made under the same revision. */
  predicate SameOrigin(a: map<nat, Group>, b: map<nat, Group>)
  {
    forall g :: g in a && g in b ==> a[g].digest == b[g].digest && a[g].profile == b[g].profile && a[g].revision == b[g].revision
  }

  lemma DiscardIs(w: World, h: nat)
    requires h in w.groups
    ensures SameOrigin(w.groups, Discarded(w, h).groups)
  {
  }

  lemma ReleasedSame(w: World, m: nat)
    requires Released(w, m).Some?
    ensures SameOrigin(w.groups, Released(w, m).value.groups)
  {
    hide Owner, Editable, Discarded, WithoutRecordsOf;
    OwnerOwns(w.groups, m);
    if Owner(w.groups, m).Some? && w.groups[Owner(w.groups, m).value].Live() {
      DiscardIs(w, Owner(w.groups, m).value);
      DiscardKeys(w, Owner(w.groups, m).value);
    }
  }

  lemma DiscardKeys(w: World, h: nat)
    requires h in w.groups
    ensures Discarded(w, h).groups.Keys == w.groups.Keys
  {
  }

  /** It stays so, whatever happens to the group. */
  lemma CoherenceStays(w: World, op: Op, g: nat)
    requires Inv(w) && g in w.groups && g in Step(w, op).groups
    ensures Coherent(Step(w, op).groups[g]) == Coherent(w.groups[g])
  {
    hide Inv, AcceptsNew, EffectNew, AcceptsRemoval, EffectRemoval, Coherent;
    InvRest(w);
    if AcceptsNew(w, op) { CoherenceNew(w, op, g); }
    else if AcceptsMerging(w, op) { CoherenceMerging(w, op, g); }
    else if AcceptsRemoval(w, op) { CoherenceRemoval(w, op, g); }
  }

  lemma CoherenceMerging(w: World, op: Op, g: nat)
    requires Inv(w) && AcceptsMerging(w, op) && g in w.groups
    ensures g in EffectMerging(w, op).groups && Coherent(EffectMerging(w, op).groups[g]) == Coherent(w.groups[g])
  {
    hide Inv;
  }

  // ----- the service

  /** Recomputes the digests of the listed groups and keeps those that match. */
  method MatchingDigests(w: World, rows: seq<(nat, nat)>) returns (matching: set<nat>)
    requires forall i :: 0 <= i < |rows| ==> FilesThere(w, rows[i].1)
    ensures forall g :: g in matching <==> DigestMatches(w, g) && exists i :: 0 <= i < |rows| && rows[i].1 == g
  {
    var members: map<nat, seq<(nat, string)>> := map[];
    for i := 0 to |rows|
      invariant forall j :: 0 <= j < i ==> rows[j].1 in members
      invariant forall g :: g in members ==> FilesThere(w, g) && members[g] == Members(w.files, w.groups[g].parts)
    {
      var g := rows[i].1;
      var parts := w.groups[g].parts;
      var listed: seq<(nat, string)> := [];
      for k := 0 to |parts|
        invariant listed == Members(w.files, parts[..k])
      {
        assert parts[..k + 1][..k] == parts[..k];
        if parts[k].active { listed := listed + [(parts[k].media, w.files[parts[k].media].sha1)]; }
      }
      assert parts[..|parts|] == parts;
      members := members[g := listed];
    }
    matching := {};
    for i := 0 to |rows|
      invariant forall g :: g in matching <==> DigestMatches(w, g) && exists j :: 0 <= j < i && rows[j].1 == g
    {
      var g := rows[i].1;
      var current := Digest(members[g], Rev(w.groups[g].profile, w.profiles[w.groups[g].profile]));
      if current == w.groups[g].digest { matching := matching + {g}; }
    }
  }

  predicate MemberOfFailed(w: World, m: nat, g: nat)
  {
    && m in w.files && !w.files[m].missing
    && g in w.groups && w.groups[g].Holds(m) && w.groups[g].successor.None? && w.groups[g].status.Failed?
  }

  /** What the list may show, with what was asked to be included. */
  predicate Shows(w: World, item: Item, unadopted: bool, failed: bool)
  {
    match item.why
    case ByDefault =>
      if item.group.None? then FreeOriginal(w, item.media) else OfferedBy(w, item.media, item.group.value)
    case Unadopted =>
      && unadopted && item.group.Some? && MadeBy(w, item.media, item.group.value)
      && DigestMatches(w, item.group.value) && !Approved(w.groups[item.group.value])
    case OfFailedGroup => failed && item.group.Some? && MemberOfFailed(w, item.media, item.group.value)
  }

  /** By default the list shows what is offered, no matter what else it includes. */
  lemma ShownByDefaultIff(w: World, m: nat, unadopted: bool, failed: bool)
    ensures Offered(w, m) <==> exists item :: Shows(w, item, unadopted, failed) && item.media == m && item.why.ByDefault?
  {
    if FreeOriginal(w, m) { assert Shows(w, Item(m, None, ByDefault), unadopted, failed); }
    if g :| g in w.groups && OfferedBy(w, m, g) { assert Shows(w, Item(m, Some(g), ByDefault), unadopted, failed); }
  }

  lemma MadeByIs(w: World, m: nat, g: nat)
    requires MadeBy(w, m, g)
    ensures g in w.groups
  {
  }

  /** The merged files among the rows that are shown. */
  method ShowDerived(w: World, derived: seq<(nat, nat)>, matching: set<nat>, unadopted: bool) returns (items: seq<Item>)
    requires forall i :: 0 <= i < |derived| ==> MadeBy(w, derived[i].0, derived[i].1)
    requires forall i :: 0 <= i < |derived| ==> (derived[i].1 in matching <==> DigestMatches(w, derived[i].1))
    ensures forall item :: item in items <==>
              && item.group.Some? && !item.why.OfFailedGroup? && (item.media, item.group.value) in derived
              && Shows(w, item, unadopted, false)
  {
    hide DigestMatches, MadeBy, Approved;
    items := [];
    for i := 0 to |derived|
      invariant forall item :: item in items <==>
                  && item.group.Some? && !item.why.OfFailedGroup? && (item.media, item.group.value) in derived[..i]
                  && Shows(w, item, unadopted, false)
    {
      var (m, g) := derived[i];
      assert derived[..i + 1] == derived[..i] + [(m, g)];
      MadeByIs(w, m, g);
      if g in matching {
        if Approved(w.groups[g]) {
          items := items + [Item(m, Some(g), ByDefault)];
        } else if unadopted {
          items := items + [Item(m, Some(g), Unadopted)];
        }
      }
    }
    assert derived[..|derived|] == derived;
  }

  /** Everything that may be sent, up to a limit; the rows are what the three queries
      return. */
  method Selectable(w: World, originals: seq<nat>, derived: seq<(nat, nat)>, members: seq<(nat, nat)>,
        unadopted: bool, failed: bool, limit: nat)
    returns (items: seq<Item>)
    requires Inv(w)
    requires forall m: nat :: m in originals <==> FreeOriginal(w, m)
    requires forall m: nat, g: nat :: (m, g) in derived <==> MadeBy(w, m, g)
    requires forall m: nat, g: nat :: (m, g) in members <==> MemberOfFailed(w, m, g)
    ensures |items| <= limit
    ensures forall item :: item in items ==> Shows(w, item, unadopted, failed)
    ensures |items| < limit ==> forall item :: Shows(w, item, unadopted, failed) ==> item in items
  {
    forall i | 0 <= i < |derived| ensures MadeBy(w, derived[i].0, derived[i].1) && FilesThere(w, derived[i].1) {
      assert derived[i] in derived;
      assert GroupOk(w, derived[i].1, w.groups[derived[i].1]);
    }
    hide Inv, DigestMatches, FilesThere, Approved, FreeOriginal, MadeBy, MemberOfFailed;
    var matching := MatchingDigests(w, derived);
    var all: seq<Item> := [];
    for i := 0 to |originals|
      invariant forall item :: item in all <==>
                  item.group.None? && item.why.ByDefault? && item.media in originals[..i]
    {
      assert originals[..i + 1] == originals[..i] + [originals[i]];
      all := all + [Item(originals[i], None, ByDefault)];
    }
    assert originals[..|originals|] == originals;
    ghost var free := all;
    var merged := ShowDerived(w, derived, matching, unadopted);
    all := all + merged;
    ghost var shown := all;
    if failed {
      for i := 0 to |members|
        invariant forall item :: item in all <==>
                    || item in shown
                    || (item.group.Some? && item.why.OfFailedGroup? && (item.media, item.group.value) in members[..i])
      {
        assert members[..i + 1] == members[..i] + [members[i]];
        all := all + [Item(members[i].0, Some(members[i].1), OfFailedGroup)];
      }
      assert members[..|members|] == members;
    }
    forall item ensures item in all <==> Shows(w, item, unadopted, failed) {
      ShowsIs(w, item, originals, derived, members, unadopted, failed);
      assert item in shown <==> item in free || item in merged;
    }
    items := if |all| <= limit then all else all[..limit];
  }

  lemma ShowsIs(w: World, item: Item, originals: seq<nat>, derived: seq<(nat, nat)>, members: seq<(nat, nat)>,
        unadopted: bool, failed: bool)
    requires forall m: nat :: m in originals <==> FreeOriginal(w, m)
    requires forall m: nat, g: nat :: (m, g) in derived <==> MadeBy(w, m, g)
    requires forall m: nat, g: nat :: (m, g) in members <==> MemberOfFailed(w, m, g)
    ensures Shows(w, item, unadopted, failed) <==>
              || (item.group.None? && item.why.ByDefault? && item.media in originals)
              || (item.group.Some? && !item.why.OfFailedGroup? && (item.media, item.group.value) in derived
                  && Shows(w, item, unadopted, false))
              || (failed && item.group.Some? && item.why.OfFailedGroup? && (item.media, item.group.value) in members)
  {
    hide FreeOriginal, MadeBy, MemberOfFailed, DigestMatches, Approved;
  }
}
