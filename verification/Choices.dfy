/** For what reason a file may be sent, when it is asked for and when it is its turn. */
module Choices {
  import opened Options
  import opened Merges
  import opened MergeSafety
  import opened Deletion
  import opened Selection

  /** `selection_rule`, and the group it speaks of: written with the record, never changed. */
  datatype Rule = Default | FailedMember | AdoptedDerived

  datatype Basis = Basis(group: Option<nat>, rule: Rule)

  /** `_choose`: the basis of a new record, or none. At most one group holds a file. */
  ghost function Choose(w: World, m: nat): Option<Basis>
    requires m in w.files
  {
    if w.files[m].missing then None
    else if w.files[m].derived then ChooseDerived(w, m)
    else ChooseOriginal(w, m)
  }

  predicate HolderOf(w: World, m: nat, g: nat) { g in w.groups && w.groups[g].Holds(m) }

  ghost function ChooseOriginal(w: World, m: nat): Option<Basis>
  {
    if exists g: nat :: HolderOf(w, m, g) then
      var g: nat :| HolderOf(w, m, g);
      if w.groups[g].status.Failed? || w.groups[g].status.Skipped? then Some(Basis(Some(g), FailedMember)) else None
    else Some(Basis(None, Default))
  }

  /** `group_is_current`. */
  predicate IsCurrent(w: World, g: nat, m: nat)
  {
    g in w.groups && w.groups[g].successor.None? && w.groups[g].output == Some(m) && DigestMatches(w, g)
  }

  ghost function ChooseDerived(w: World, m: nat): Option<Basis>
  {
    var owner := Owner(w.groups, m);
    if owner.None? then None
    else
      OwnerOwns(w.groups, m);
      var g := owner.value;
      if !w.groups[g].status.Merged? || !IsCurrent(w, g, m) then None
      else Some(Basis(Some(g), if Approved(w.groups[g]) then Default else AdoptedDerived))
  }

  /** Choosing an output nobody has approved is what adopts it. */
  function WithChoice(w: World, b: Basis): World
  {
    if b.rule.AdoptedDerived? && b.group.Some? then Step(w, AdoptForUpload(b.group.value)) else w
  }

  /** `_check_rule`: the reason does not hold any more. */
  predicate RuleFails(w: World, b: Basis, m: nat)
    requires m in w.files
  {
    match b.rule
    case FailedMember =>
      !(b.group.Some? && HolderOf(w, m, b.group.value) && w.groups[b.group.value].status.Failed?)
    case AdoptedDerived => !(b.group.Some? && b.group.value in w.groups && w.groups[b.group.value].adopted)
    case Default =>
      && !w.files[m].derived
      && exists g :: g in w.groups && HolderOf(w, m, g) && !w.groups[g].status.Failed? && !w.groups[g].status.Skipped?
  }

  /** What the file itself has to meet whenever it is its turn (`check_eligibility`, the
      destination apart). */
  predicate Eligible(w: World, b: Basis, m: nat)
  {
    && m in w.files && !w.files[m].missing
    && (w.files[m].derived ==> b.group.Some? && IsCurrent(w, b.group.value, m))
    && !RuleFails(w, b, m)
  }

  /** `_stale_reason`: only what a group was the reason for. */
  predicate Lapsed(w: World, b: Basis, m: nat)
  {
    && b.group.Some?
    && ( || m !in w.files
         || (w.files[m].derived && !IsCurrent(w, b.group.value, m))
         || RuleFails(w, b, m))
  }

  /** What is eligible has not lapsed: invalidation takes nothing that could be sent. */
  lemma EligibleHasNotLapsed(w: World, b: Basis, m: nat)
    ensures Eligible(w, b, m) ==> !Lapsed(w, b, m)
    ensures b.group.Some? && m in w.files && !w.files[m].missing ==> (Eligible(w, b, m) <==> !Lapsed(w, b, m))
  {
  }

  lemma HeldByLive(w: World, m: nat, g: nat)
    requires Inv(w) && HolderOf(w, m, g)
    ensures w.groups[g].Live()
    ensures forall h :: HolderOf(w, m, h) ==> h == g
  {
    assert GroupOk(w, g, w.groups[g]);
    var i :| 0 <= i < |w.groups[g].parts| && w.groups[g].parts[i] == Part(m, true);
  }

  /** Whatever is chosen holds as its own reason at once, the adoption included. */
  lemma ChoiceIsEligible(w: World, m: nat)
    requires Inv(w) && m in w.files && Choose(w, m).Some?
    ensures Eligible(WithChoice(w, Choose(w, m).value), Choose(w, m).value, m)
  {
    hide Inv, DigestMatches, Owner;
    var b := Choose(w, m).value;
    if w.files[m].derived {
      OwnerOwns(w.groups, m);
      if b.rule.AdoptedDerived? { AdoptionIs(w, b.group.value, m); }
    } else if b.rule.FailedMember? {
      HeldByLive(w, m, b.group.value);
    }
  }

  lemma AdoptionIs(w: World, g: nat, m: nat)
    requires g in w.groups && IsCurrent(w, g, m)
    ensures var after := Step(w, AdoptForUpload(g));
            && g in after.groups && after.groups[g].adopted && IsCurrent(after, g, m) && after.files == w.files
  {
  }

  /** For a recording the list and the request agree: it is offered by default exactly if it
      is chosen by default, and listed as part of a failed merge exactly if chosen as that. */
  lemma OriginalsAgree(w: World, m: nat, g: nat)
    requires Inv(w) && m in w.files && !w.files[m].derived
    ensures FreeOriginal(w, m) <==> Choose(w, m) == Some(Basis(None, Default))
    ensures MemberOfFailed(w, m, g) <==> Choose(w, m) == Some(Basis(Some(g), FailedMember))
  {
    hide Inv;
    assert forall h: nat :: h in w.groups ==> (w.groups[h].Holds(m) <==> HolderOf(w, m, h));
    if h: nat :| HolderOf(w, m, h) { HeldByLive(w, m, h); }
    hide Group.Holds;
  }

  /** The list of members of failed merges does not look at what kind of file a member is;
      the request does. */
  lemma ListedMemberIff(w: World, m: nat, g: nat)
    requires Inv(w) && MemberOfFailed(w, m, g)
    ensures Choose(w, m) == Some(Basis(Some(g), FailedMember)) <==> !w.files[m].derived
  {
    hide Inv, Owner, DigestMatches;
    OwnerOwns(w.groups, m);
    if !w.files[m].derived { OriginalsAgree(w, m, g); }
  }

  /** For a merged file: what is chosen by default is offered. What is offered is chosen by
      default exactly if the one group taken to own the file is a group that offers it; with
      a second current owner that is not sure. */
  lemma DerivedAgreeIff(w: World, m: nat)
    requires Inv(w) && m in w.files && w.files[m].derived
    ensures Choose(w, m).Some? && Choose(w, m).value.rule.Default? ==> Offered(w, m)
    ensures Offered(w, m) ==>
              && Owner(w.groups, m).Some?
              && (Choose(w, m) == Some(Basis(Owner(w.groups, m), Default)) <==> OfferedBy(w, m, Owner(w.groups, m).value))
  {
    hide Inv, DigestMatches, Owner, Approved;
    OwnerOwns(w.groups, m);
    if Offered(w, m) {
      var g :| g in w.groups && OfferedBy(w, m, g);
      assert Owns(w.groups, m, g) && w.groups[g].Live();
      OwnerIsCurrentIff(w.groups, m);
    }
  }

  /** One current owner is enough for the two to agree. */
  lemma OneOwnerAgrees(w: World, m: nat, g: nat)
    requires Inv(w) && m in w.files && w.files[m].derived && OfferedBy(w, m, g)
    requires forall h :: Owns(w.groups, m, h) && w.groups[h].Live() ==> h == g
    ensures Choose(w, m) == Some(Basis(Some(g), Default))
  {
    hide Inv, DigestMatches, Owner, Approved;
    OwnerOwns(w.groups, m);
    assert Owns(w.groups, m, g) && w.groups[g].Live();
    OwnerIsCurrentIff(w.groups, m);
    DerivedAgreeIff(w, m);
  }
}
