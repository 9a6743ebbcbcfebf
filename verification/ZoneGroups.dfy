/** The merge groups as requests for another zone, and recomputations, see them. */
module ZoneGroups {
  import opened Options
  import M = Merges
  import G = MergeSafety
  import Z = CaptureZone

  /** `merge_member` with `active = 1`, in order of position. */
  function ActiveMembers(parts: seq<M.Part>): seq<nat>
  {
    if parts == [] then []
    else (if parts[0].active then [parts[0].media] else []) + ActiveMembers(parts[1..])
  }

  predicate IsView(x: M.Group, z: Z.Group)
  {
    z.output == x.output && z.members == ActiveMembers(x.parts) && z.merging == x.status.Merging?
  }

  /** The same files, and groups of the same store. */
  predicate IsViewOf(w: M.World, files: Z.Files, groups: seq<Z.Group>)
  {
    && files.Keys == w.files.Keys
    && (forall id :: id in files ==> files[id].derived == w.files[id].derived && files[id].profile == w.files[id].profile)
    && forall z :: z in groups ==> exists g :: g in w.groups && IsView(w.groups[g], z)
  }

  lemma {:induction false} ActiveAreParts(parts: seq<M.Part>, m: nat)
    requires m in ActiveMembers(parts)
    ensures exists i :: 0 <= i < |parts| && parts[i] == M.Part(m, true)
    decreases |parts|
  {
    if parts[0] == M.Part(m, true) {
    } else {
      ActiveAreParts(parts[1..], m);
      var i :| 0 <= i < |parts[1..]| && parts[1..][i] == M.Part(m, true);
      assert parts[i + 1] == M.Part(m, true);
    }
  }

  /** After every run of the operations on groups: whoever looks at the groups sees results
      that begin with recordings of their own profile. */
  lemma ResultsBeginWithRecordings(w: M.World, ops: seq<M.Op>, files: Z.Files, groups: seq<Z.Group>)
    requires G.Inv(w) && IsViewOf(M.Run(w, ops), files, groups)
    ensures Z.Sound(files, groups) && Z.Led(files, groups)
  {
    hide G.Inv, M.Step;
    G.RunKeepsInv(w, ops);
    var after := M.Run(w, ops);
    forall z | z in groups
      ensures forall i :: 0 <= i < |z.members| ==> z.members[i] in files
      ensures z.output.Some? ==> z.output.value in files && files[z.output.value].derived
      ensures z.output.Some? && z.members != [] ==>
                && !files[z.members[0]].derived && files[z.output.value].profile == files[z.members[0]].profile
    {
      var g :| g in after.groups && IsView(after.groups[g], z);
      G.InvGroup(after, g);
      GroupBegins(after, files, g, z);
    }
  }

  lemma GroupBegins(w: M.World, files: Z.Files, g: nat, z: Z.Group)
    requires g in w.groups && G.GroupOk(w, g, w.groups[g]) && IsView(w.groups[g], z)
    requires files.Keys == w.files.Keys
    requires forall id :: id in files ==> files[id].derived == w.files[id].derived && files[id].profile == w.files[id].profile
    ensures forall i :: 0 <= i < |z.members| ==> z.members[i] in files
    ensures z.output.Some? ==> z.output.value in files && files[z.output.value].derived
    ensures z.output.Some? && z.members != [] ==>
              && !files[z.members[0]].derived && files[z.output.value].profile == files[z.members[0]].profile
  {
    var parts := w.groups[g].parts;
    forall i | 0 <= i < |z.members| ensures z.members[i] in files {
      ActiveAreParts(parts, z.members[i]);
    }
    if z.members != [] {
      ActiveAreParts(parts, z.members[0]);
      assert parts[0].active;
    }
  }
}
