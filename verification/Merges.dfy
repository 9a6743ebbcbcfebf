/** Merge groups: which recordings belong together, what was made of them and what
    may be sent instead of them.

    `Accepts` is what one transaction checks, including the partial indexes and
    foreign keys of the schema; what is not accepted raises, rolls back and changes
    nothing. The triggers are part of the effects.
 */
module Merges {
  import opened Options
  import L = Ledger

  datatype Status = Detected | Merging | Merged | Failed | Skipped

  /** A row of `merge_member`; its place in the sequence is `position`. */
  datatype Part = Part(media: nat, active: bool)

  /** A profile revision. Revisions of one profile are numbered as they are made. */
  datatype Rev = Rev(profile: nat, number: nat)

  /** `input_digest`. The hash is taken to be injective, so the value stands for it. */
  datatype Digest = Digest(members: seq<(nat, string)>, rev: Rev)

  datatype Group = Group(
    profile: nat, revision: nat, status: Status, digest: Digest, parts: seq<Part>,
    output: Option<nat>, successor: Option<nat>,     // superseded_by_id
    verified: Option<bool>, adopted: bool)
  {
    /** Neither replaced nor discarded: it still holds its members. */
    predicate Live() { successor.None? && !status.Skipped? }

    predicate Holds(m: nat) { exists i :: 0 <= i < |parts| && parts[i] == Part(m, true) }

    predicate Mentions(m: nat) { exists i :: 0 <= i < |parts| && parts[i].media == m }

    /** The trigger on `superseded_by_id`. */
    function PointAt(s: nat): Group { this.(successor := Some(s), parts := LetGo(parts)) }

    /** The trigger on `status`. */
    function Skip(): Group { this.(status := Skipped, parts := LetGo(parts)) }
  }

  datatype File = File(derived: bool, profile: nat, sha1: string, missing: bool)

  /** A row of `artifact_staging` for a merge. */
  datatype Staging = Staging(group: nat, published: bool)

  datatype World = World(
    groups: map<nat, Group>, files: map<nat, File>, staging: map<nat, Staging>,
    profiles: map<nat, nat>,      // the number of the current revision
    records: map<nat, L.Record>,
    uploads: set<nat>,            // destinations an upload job is queued or running for
    pinned: set<nat>,             // groups that upload records point at
    nextGroup: nat)

  datatype Op =
    | SaveDetected(rev: Rev, media: seq<nat>)
    | CreateManual(media: seq<nat>, seen: Rev)     // `seen`: the revision the digest was computed under
    | ClaimForMerge(g: nat, digest: Digest)
    | RecordVerification(g: nat, passed: bool)
    | BeginStaging(row: nat, g: nat)
    | DropStaging(row: nat)
    | Publish(row: nat, m: nat, file: File)
    | MarkMerged(g: nat)
    | MarkFailed(g: nat)
    | Release(g: nat)
    | Settle(g: nat)
    | Adopt(g: nat)
    | AdoptForUpload(g: nat)
    | Discard(g: nat)
    | DeleteDiscarded(g: nat)
    | Supersede(g: nat, media: seq<nat>, seen: Rev)
    | DeleteDerived(m: nat)
    | EditProfile(p: nat)
    | AddFile(m: nat, file: File)
    | SetMissing(m: nat, missing: bool)
    | Elsewhere(records: map<nat, L.Record>, uploads: set<nat>, pinned: set<nat>)

  function LetGo(parts: seq<Part>): seq<Part>
  {
    seq(|parts|, i requires 0 <= i < |parts| => Part(parts[i].media, false))
  }

  function Taken(media: seq<nat>): seq<Part>
  {
    seq(|media|, i requires 0 <= i < |media| => Part(media[i], true))
  }

  // ----- what the transactions look at

  predicate AllFiles(files: map<nat, File>, media: seq<nat>) { forall i :: 0 <= i < |media| ==> media[i] in files }

  predicate Distinct(media: seq<nat>) { forall i, j :: 0 <= i < j < |media| ==> media[i] != media[j] }

  /** A file's hash is written once, with its row, so it does not matter when a
      digest reads it. */
  function DigestOf(files: map<nat, File>, media: seq<nat>, rev: Rev): Digest
    requires AllFiles(files, media)
  {
    Digest(seq(|media|, i requires 0 <= i < |media| => (media[i], files[media[i]].sha1)), rev)
  }

  predicate HeldByOther(groups: map<nat, Group>, media: seq<nat>, except: Option<nat>)
  {
    exists g, i :: g in groups && Some(g) != except && 0 <= i < |media| && groups[g].Holds(media[i])
  }

  predicate DigestInUse(groups: map<nat, Group>, digest: Digest, except: Option<nat>)
  {
    exists g :: g in groups && Some(g) != except && groups[g].successor.None? && groups[g].digest == digest
  }

  predicate IsRev(profiles: map<nat, nat>, rev: Rev) { rev.profile in profiles && rev.number <= profiles[rev.profile] }

  predicate OfHeld(x: Group, r: L.Record) { !r.invalidated && x.Holds(r.media) }

  /** Not while a record of one of its files is being sent, or waits for a job. */
  predicate Editable(w: World, g: nat)
    requires g in w.groups
  {
    forall id :: id in w.records && OfHeld(w.groups[g], w.records[id]) ==>
      && !w.records[id].state.Active()
      && (w.records[id].state.Claimable() ==> w.records[id].dest !in w.uploads)
  }

  predicate PointedAt(w: World, g: nat)
  {
    || (exists h :: h in w.groups && w.groups[h].successor == Some(g))
    || (exists row :: row in w.staging && w.staging[row].group == g)
    || g in w.pinned
  }

  predicate CanInsert(w: World, media: seq<nat>, rev: Rev, except: Option<nat>)
  {
    && AllFiles(w.files, media) && Distinct(media) && IsRev(w.profiles, rev)
    && !HeldByOther(w.groups, media, except)
    && !DigestInUse(w.groups, DigestOf(w.files, media, rev), except)
  }

  predicate AcceptsNew(w: World, op: Op)
  {
    match op
    case SaveDetected(rev, media) => CanInsert(w, media, rev, None)
    case CreateManual(media, seen) =>
      && CanInsert(w, media, seen, None)
      && media != [] && w.files[media[0]].profile == seen.profile
    case Supersede(g, media, seen) =>
      && g in w.groups && Editable(w, g) && w.groups[g].successor.None?
      && CanInsert(w, media, seen, Some(g)) && w.groups[g].profile in w.profiles
      && media != [] && w.files[media[0]].profile == seen.profile
    case _ => false
  }

  /** `_source_parent`: the first recording lies under `library/<slug>` of the group's own
      profile. Results lie under `derived/`, and every profile has a slug of its own. The
      name of the result is made of it before anything else is done. */
  predicate Placeable(files: map<nat, File>, x: Group)
  {
    && x.parts != [] && x.parts[0].media in files
    && !files[x.parts[0].media].derived && files[x.parts[0].media].profile == x.profile
  }

  /** The media file that is published, or was there under the same name already: what lies
      under `derived/<slug>` is a result of that profile. */
  predicate IsResultOf(files: map<nat, File>, m: nat, file: File, x: Group)
  {
    var f := if m in files then files[m] else file;
    f.derived && f.profile == x.profile
  }

  predicate AcceptsMerging(w: World, op: Op)
  {
    match op
    case ClaimForMerge(g, digest) =>
      && g in w.groups && w.groups[g].digest == digest && w.groups[g].successor.None?
      && (w.groups[g].status.Detected? || w.groups[g].status.Failed?)
    case RecordVerification(g, _) => g in w.groups && w.groups[g].status.Merging? && w.groups[g].successor.None?
    case BeginStaging(row, g) =>
      row !in w.staging && g in w.groups && w.groups[g].verified.Some? && Placeable(w.files, w.groups[g])
    case DropStaging(row) => row in w.staging && !w.staging[row].published
    case Publish(row, m, file) =>
      && row in w.staging && !w.staging[row].published && w.staging[row].group in w.groups
      && IsResultOf(w.files, m, file, w.groups[w.staging[row].group])
    case MarkMerged(g) =>
      && g in w.groups && w.groups[g].status.Merging? && w.groups[g].successor.None?
      && w.groups[g].output.Some? && w.groups[g].verified.Some?
    case MarkFailed(g) => g in w.groups && w.groups[g].status.Merging? && w.groups[g].successor.None?
    case Release(g) => g in w.groups && w.groups[g].status.Merging? && w.groups[g].successor.None?
    case Settle(g) => g in w.groups && w.groups[g].status.Merging?
    case Adopt(g) =>
      && g in w.groups && w.groups[g].successor.None? && w.groups[g].status.Merged? && w.groups[g].output.Some?
    case AdoptForUpload(g) => g in w.groups
    case _ => false
  }

  predicate AcceptsRemoval(w: World, op: Op)
  {
    match op
    case Discard(g) => g in w.groups && Editable(w, g)
    case DeleteDiscarded(g) =>
      && g in w.groups && w.groups[g].status.Skipped? && w.groups[g].output.None? && !PointedAt(w, g)
    case DeleteDerived(m) =>
      && Blocker(w, m).None?
      && Released(w, m).Some?
      && !IsReferenced(Released(w, m).value, m)
    case _ => false
  }

  predicate AcceptsOutside(w: World, op: Op)
  {
    match op
    case EditProfile(_) => true
    case AddFile(m, _) => m !in w.files
    case SetMissing(m, _) => m in w.files
    case Elsewhere(_, _, pinned) => pinned <= w.groups.Keys
    case _ => false
  }

  predicate Accepts(w: World, op: Op)
  {
    AcceptsNew(w, op) || AcceptsMerging(w, op) || AcceptsRemoval(w, op) || AcceptsOutside(w, op)
  }

  // ----- deletion of a merged file

  datatype Reason =
    | NoSuchFile | IsOriginal | BeingSent | InLibrary | NotChecked | NoSource | SourceBeingSent

  /** IN_FLIGHT_STATES: not settled yet. */
  predicate Unsettled(s: L.State) { s.InFlight() || s.Claimable() }

  predicate HasRecord(records: map<nat, L.Record>, m: nat, about: Reason)
  {
    exists id :: id in records && records[id].media == m && !records[id].invalidated && IsAbout(records[id], about)
  }

  predicate IsAbout(r: L.Record, about: Reason)
  {
    match about
    case BeingSent => Unsettled(r.state)
    case InLibrary => r.asset.Some? && !r.trashed
    case NotChecked => r.state.Complete? && r.asset.None? && r.checked.None?
    case _ => false
  }

  /** The first reason the records give against deleting the file. */
  function RecordReason(records: map<nat, L.Record>, m: nat): Option<Reason>
  {
    if HasRecord(records, m, BeingSent) then Some(BeingSent)
    else if HasRecord(records, m, InLibrary) then Some(InLibrary)
    else if HasRecord(records, m, NotChecked) then Some(NotChecked)
    else None
  }

  predicate Owns(groups: map<nat, Group>, m: nat, g: nat) { g in groups && groups[g].output == Some(m) }

  /** Current groups first, then discarded ones, replaced ones last. */
  function Standing(x: Group): nat
  {
    (if x.successor.Some? then 2 else 0) + (if x.status.Skipped? then 1 else 0)
  }

  predicate IsOwner(groups: map<nat, Group>, m: nat, g: nat)
  {
    Owns(groups, m, g) && forall h :: h in groups && Owns(groups, m, h) ==> Standing(groups[g]) <= Standing(groups[h])
  }

  predicate Precedes(groups: map<nat, Group>, g: nat, h: nat)
    requires g in groups && h in groups
  {
    Standing(groups[g]) < Standing(groups[h]) || (Standing(groups[g]) == Standing(groups[h]) && g <= h)
  }

  predicate IsFirstOwner(groups: map<nat, Group>, m: nat, g: nat)
  {
    Owns(groups, m, g) && forall h :: h in groups && Owns(groups, m, h) ==> Precedes(groups, g, h)
  }

  lemma {:induction false} SomeOwnerIsFirst(groups: map<nat, Group>, m: nat, g: nat)
    requires Owns(groups, m, g)
    ensures exists first :: first in groups && IsFirstOwner(groups, m, first)
    decreases Standing(groups[g]), g
  {
    if h :| h in groups && Owns(groups, m, h) && !Precedes(groups, g, h) {
      SomeOwnerIsFirst(groups, m, h);
    } else {
      assert IsFirstOwner(groups, m, g);
    }
  }

  lemma FirstOwnerExists(groups: map<nat, Group>, m: nat)
    requires exists g :: g in groups && Owns(groups, m, g)
    ensures exists g :: g in groups && IsFirstOwner(groups, m, g)
  {
    var g :| g in groups && Owns(groups, m, g);
    SomeOwnerIsFirst(groups, m, g);
  }

  /** The one group taken to own the file; equals are told apart by their identifier. */
  function Owner(groups: map<nat, Group>, m: nat): Option<nat>
  {
    if exists g :: g in groups && Owns(groups, m, g) then
      FirstOwnerExists(groups, m);
      var g :| g in groups && IsFirstOwner(groups, m, g);
      Some(g)
    else None
  }

  predicate MemberBeingSent(w: World, g: nat)
    requires g in w.groups
  {
    exists id :: id in w.records && OfHeld(w.groups[g], w.records[id]) && Unsettled(w.records[id].state)
  }

  /** Why the file may not be deleted: the first that applies. */
  function Blocker(w: World, m: nat): Option<Reason>
  {
    if m !in w.files then Some(NoSuchFile)
    else if !w.files[m].derived then Some(IsOriginal)
    else if RecordReason(w.records, m).Some? then RecordReason(w.records, m)
    else
      var owner := Owner(w.groups, m);
      if owner.None? then Some(NoSource)
      else if w.groups[owner.value].Live() && MemberBeingSent(w, owner.value) then Some(SourceBeingSent)
      else None
  }

  function Detach(groups: map<nat, Group>, m: nat): map<nat, Group>
  {
    map g | g in groups :: if groups[g].output == Some(m) then groups[g].(output := None) else groups[g]
  }

  function WithoutRecordsOf(records: map<nat, L.Record>, m: nat): map<nat, L.Record>
  {
    map id | id in records && records[id].media != m :: records[id]
  }

  /** Everything `delete_derived` does before it deletes the file's row; None when
      the discard inside it is refused. */
  function Released(w: World, m: nat): Option<World>
  {
    var owner := Owner(w.groups, m);
    if owner.Some? && w.groups[owner.value].Live() then
      if Editable(w, owner.value) then
        var discarded := Discarded(w, owner.value);
        Some(discarded.(groups := Detach(discarded.groups, m), records := WithoutRecordsOf(discarded.records, m)))
      else None
    else Some(w.(groups := Detach(w.groups, m), records := WithoutRecordsOf(w.records, m)))
  }

  /** What the foreign keys to `media_file` look at. */
  predicate IsReferenced(w: World, m: nat)
  {
    || (exists g :: g in w.groups && (w.groups[g].output == Some(m) || w.groups[g].Mentions(m)))
    || (exists id :: id in w.records && w.records[id].media == m)
  }

  // ----- what the transactions do

  /** `_invalidate_pending`: the records of a group's files that wait to be sent. */
  function Withdraw(records: map<nat, L.Record>, x: Group): map<nat, L.Record>
  {
    map id | id in records ::
      if OfHeld(x, records[id]) && records[id].state.Claimable() then records[id].(invalidated := true) else records[id]
  }

  function Discarded(w: World, g: nat): World
    requires g in w.groups
  {
    w.(records := Withdraw(w.records, w.groups[g]), groups := w.groups[g := w.groups[g].Skip()])
  }

  function NewGroup(files: map<nat, File>, profile: nat, revision: nat, media: seq<nat>, seen: Rev): Group
    requires AllFiles(files, media)
  {
    Group(profile, revision, Detected, DigestOf(files, media, seen), Taken(media), None, None, None, false)
  }

  function Insert(w: World, x: Group): World
  {
    w.(groups := w.groups[w.nextGroup := x], nextGroup := w.nextGroup + 1)
  }

  function EffectNew(w: World, op: Op): World
    requires AcceptsNew(w, op)
  {
    match op
    case SaveDetected(rev, media) => Insert(w, NewGroup(w.files, rev.profile, rev.number, media, rev))
    case CreateManual(media, seen) =>
      Insert(w, NewGroup(w.files, seen.profile, w.profiles[seen.profile], media, seen))
    case Supersede(g, media, seen) =>
      var former := w.groups[g];
      var x := NewGroup(w.files, former.profile, w.profiles[former.profile], media, seen);
      Insert(w.(records := Withdraw(w.records, former), groups := w.groups[g := former.PointAt(w.nextGroup)]), x)
  }

  function EffectMerging(w: World, op: Op): World
    requires AcceptsMerging(w, op)
  {
    match op
    case ClaimForMerge(g, _) => w.(groups := w.groups[g := w.groups[g].(status := Merging)])
    case RecordVerification(g, passed) => w.(groups := w.groups[g := w.groups[g].(verified := Some(passed))])
    case BeginStaging(row, g) => w.(staging := w.staging[row := Staging(g, false)])
    case DropStaging(row) => w.(staging := w.staging - {row})
    case Publish(row, m, file) =>
      var g := w.staging[row].group;
      w.(files := if m in w.files then w.files else w.files[m := file],
         groups := w.groups[g := w.groups[g].(output := Some(m))],
         staging := w.staging[row := Staging(g, true)])
    case MarkMerged(g) => w.(groups := w.groups[g := w.groups[g].(status := Merged)])
    case MarkFailed(g) => w.(groups := w.groups[g := w.groups[g].(status := Failed)])
    case Release(g) => w.(groups := w.groups[g := w.groups[g].(status := Detected)])
    case Settle(g) =>
      w.(groups := w.groups[g := w.groups[g].(status := if w.groups[g].output.Some? then Merged else Detected)])
    case Adopt(g) => w.(groups := w.groups[g := w.groups[g].(adopted := true)])
    case AdoptForUpload(g) => w.(groups := w.groups[g := w.groups[g].(adopted := true)])
  }

  function EffectRemoval(w: World, op: Op): World
    requires AcceptsRemoval(w, op)
  {
    match op
    case Discard(g) => Discarded(w, g)
    case DeleteDiscarded(g) => w.(groups := w.groups - {g})
    case DeleteDerived(m) => var left := Released(w, m).value; left.(files := left.files - {m})
  }

  function EffectOutside(w: World, op: Op): World
    requires AcceptsOutside(w, op)
  {
    match op
    case EditProfile(p) => w.(profiles := w.profiles[p := if p in w.profiles then w.profiles[p] + 1 else 0])
    case AddFile(m, file) => w.(files := w.files[m := file])
    case SetMissing(m, missing) => w.(files := w.files[m := w.files[m].(missing := missing)])
    case Elsewhere(records, uploads, pinned) => w.(records := records, uploads := uploads, pinned := pinned)
  }

  function Step(w: World, op: Op): World
  {
    if AcceptsNew(w, op) then EffectNew(w, op)
    else if AcceptsMerging(w, op) then EffectMerging(w, op)
    else if AcceptsRemoval(w, op) then EffectRemoval(w, op)
    else if AcceptsOutside(w, op) then EffectOutside(w, op)
    else w
  }

  function Run(w: World, ops: seq<Op>): World
    decreases |ops|
  {
    if ops == [] then w else Step(Run(w, ops[..|ops| - 1]), ops[|ops| - 1])
  }
}
