/** Upload records, the destinations they go to and the jobs that own them.

    Every operation is one `BEGIN IMMEDIATE` transaction (or one statement), so a
    run is any interleaving of operations of any number of workers and requests.
    `Accepts` is what the transaction checks; one that is not accepted raises,
    rolls back and changes nothing.
 */
module Ledger {
  import opened Options
  import J = Jobs

  datatype State =
    | Pending | Checking | Uploading | AssetKnown | Tagging | FixingDatetime
    | AwaitingApproval | Complete | Failed | NeedsRecheck
  {
    /** ACTIVE_STATES: somebody is working on the record. */
    predicate Active() { Checking? || Uploading? || AssetKnown? || Tagging? || FixingDatetime? }

    /** States that still need the key of the revision the record is pinned to. */
    predicate InFlight() { Active() || AwaitingApproval? }

    predicate Claimable() { Pending? || NeedsRecheck? }

    predicate Final() { Complete? || Failed? || AwaitingApproval? }
  }

  datatype Claim = Unclaimed | ClaimedBy(job: nat, token: nat, expires: nat)

  /** `of` is the asset the record was stacked with. It is history, not a column:
      no operation reads it. */
  datatype Stack = Unevaluated | Skipped | Stacked(stack: nat, of: nat)

  datatype Record = Record(
    dest: nat, epoch: nat, media: nat,      // its identity, never changed
    state: State, claim: Claim, revision: Option<nat>, invalidated: bool,
    asset: Option<nat>, trashed: bool, checked: Option<nat>,
    stack: Stack, created: nat)

  /** A connection setting. Each one stores a credential of its own, which is
      named by the revision here. */
  datatype Revision = Revision(dest: nat, epoch: nat, user: nat, host: nat)

  datatype Destination = Destination(enabled: bool, archived: bool, current: nat)

  /** `doomed` are the revisions whose credential a purge has selected but not yet erased. */
  datatype Targets = Targets(
    dests: map<nat, Destination>, revs: map<nat, Revision>,
    purged: set<nat>, doomed: set<nat>, nextRev: nat)
  {
    function Epoch(d: nat): nat
    {
      if d in dests && dests[d].current in revs then revs[dests[d].current].epoch else 0
    }

    predicate Usable(d: nat) { d in dests && dests[d].enabled && !dests[d].archived }
  }

  datatype World = World(
    jobs: J.Table, targets: Targets, profiles: map<nat, nat>,
    records: map<nat, Record>, nextRecord: nat)

  datatype Ctx = Ctx(job: nat, token: nat)

  /** Whether an update also writes `remote_asset_id`. */
  datatype Field = Keep | Set(asset: Option<nat>)

  datatype Stamp = Stamp(id: nat, asset: Option<nat>, trashed: bool, seenAsset: Option<nat>, seenChecked: Option<nat>)

  /** A member of a stack as it was read when the stack was chosen. */
  datatype Member = Member(id: nat, asset: Option<nat>)

  datatype Op =
    | JobOp(op: J.Op)
    | StageArtifact(ctx: Ctx)                       // the guard of the publisher's step 7
    | CreateDestination(dest: nat, user: nat, host: nat)
    | AddRevision(dest: nat, user: nat, host: nat, sameLibrary: Option<bool>)
    | SetEnabled(dest: nat, on: bool)
    | Archive(dest: nat)
    | PurgeSelect(dest: nat)
    | PurgeOne(rev: nat)
    | EditProfile(profile: nat, profileRevision: nat)
    | Pair(media: nat, dest: nat, eligible: bool)
    | Retry(id: nat)
    | ClaimNext(dest: nat, ctx: Ctx, id: nat)       // the row the SELECT picked
    | Prepare(ctx: Ctx, id: nat, from: State, eligible: bool)
    | ExtendClaim(id: nat, token: nat)
    | Advance(ctx: Ctx, owned: bool, id: nat, state: State, from: State, asset: Field)
    | FinishRecord(ctx: Ctx, owned: bool, id: nat, state: State, from: State, asset: Field)
    | ReleaseTo(id: nat, token: nat, state: State)
    | Refuse(id: nat, token: nat)
    | ClaimForApproval(ctx: Ctx, id: nat)
    | ReleaseFromApproval(id: nat, token: nat)
    | Reject(id: nat)
    | Invalidate(ids: set<nat>)
    | InvalidateOldEpoch(dest: nat, epoch: nat)
    | ReleaseInterrupted
    | StampMany(ctx: Ctx, stamps: seq<Stamp>, at: nat)
    | StampDatetime(id: nat, at: nat, seenChecked: Option<nat>)
    | RequeueSent(media: nat)
    | ReopenSkipped(media: nat)
    | MarkStacked(ctx: Ctx, members: seq<Member>, dest: nat, epoch: nat, profile: nat, profileRevision: nat, stack: nat)
    | MarkSkipped(ctx: Ctx, member: Member, dest: nat, epoch: nat, profile: nat, profileRevision: nat)
    | ReopenStacks(ctx: Ctx, dest: nat, epoch: nat, stacks: seq<nat>)
    | DeleteRecordsOf(media: nat)

  // ----- what the transactions look at

  /** The epoch moves only when the library behind the destination changed;
      None when a person has to decide. */
  function NextEpoch(current: Revision, user: nat, host: nat, sameLibrary: Option<bool>): Option<nat>
  {
    if user != current.user then Some(current.epoch + 1)
    else if host == current.host then Some(current.epoch)
    else match sameLibrary
         case None => None
         case Some(same) => Some(if same then current.epoch else current.epoch + 1)
  }

  predicate SamePair(a: Record, dest: nat, epoch: nat, media: nat)
  {
    a.dest == dest && a.epoch == epoch && a.media == media
  }

  predicate LivePair(r: Record, dest: nat, epoch: nat, media: nat)
  {
    !r.invalidated && SamePair(r, dest, epoch, media)
  }

  predicate HasLive(records: map<nat, Record>, dest: nat, epoch: nat, media: nat)
  {
    exists id :: id in records && LivePair(records[id], dest, epoch, media)
  }

  predicate IsClaimable(w: World, dest: nat, r: Record)
  {
    r.dest == dest && r.epoch == w.targets.Epoch(dest) && !r.invalidated && r.state.Claimable()
  }

  predicate Picked(w: World, dest: nat, id: nat)
  {
    && id in w.records && IsClaimable(w, dest, w.records[id])
    && (w.records[id].claim.Unclaimed? || w.records[id].claim.expires < w.jobs.now)
    && forall other :: other in w.records && IsClaimable(w, dest, w.records[other]) ==>
         w.records[id].created <= w.records[other].created
  }

  /** The condition of `_locked_cas`. */
  predicate Owns(w: World, id: nat, token: nat, strict: bool)
  {
    && id in w.records && w.records[id].claim.ClaimedBy? && w.records[id].claim.token == token
    && (strict ==> w.jobs.now < w.records[id].claim.expires && !w.records[id].invalidated)
  }

  predicate Leased(w: World, ctx: Ctx) { J.LeaseValid(w.jobs, ctx.job, ctx.token) }

  /** `_assert_current`: the lease, the destination's epoch and the profile's version at once. */
  predicate Current(w: World, ctx: Ctx, dest: nat, epoch: nat, profile: nat, profileRevision: nat)
  {
    && Leased(w, ctx)
    && w.targets.Usable(dest) && w.targets.Epoch(dest) == epoch
    && profile in w.profiles && w.profiles[profile] == profileRevision
  }

  predicate Markable(records: map<nat, Record>, m: Member, epoch: nat)
  {
    && m.id in records && m.asset.Some?
    && records[m.id].epoch == epoch && records[m.id].state.Complete? && !records[m.id].invalidated
    && records[m.id].asset == m.asset
    && (records[m.id].stack.Unevaluated? || records[m.id].stack.Skipped?)
  }

  predicate DistinctIds(members: seq<Member>)
  {
    forall i, j :: 0 <= i < j < |members| ==> members[i].id != members[j].id
  }

  predicate StillSo(records: map<nat, Record>, s: Stamp)
  {
    && s.id in records && records[s.id].state.Complete?
    && records[s.id].asset == s.seenAsset && records[s.id].checked == s.seenChecked
  }

  predicate Accepts(w: World, op: Op)
  {
    match op
    case JobOp(j) => J.Accepts(w.jobs, j)
    case StageArtifact(ctx) => Leased(w, ctx)
    case CreateDestination(dest, _, _) => dest !in w.targets.dests
    case AddRevision(dest, user, host, same) =>
      && dest in w.targets.dests && w.targets.dests[dest].current in w.targets.revs
      && NextEpoch(w.targets.revs[w.targets.dests[dest].current], user, host, same).Some?
    case SetEnabled(dest, _) => dest in w.targets.dests
    case Archive(dest) => dest in w.targets.dests
    case PurgeSelect(dest) => dest in w.targets.dests
    case PurgeOne(rev) => rev in w.targets.doomed
    case EditProfile(_, _) => true
    case Pair(media, dest, eligible) =>
      && w.targets.Usable(dest)
      && (eligible || HasLive(w.records, dest, w.targets.Epoch(dest), media))
    case Retry(id) => id in w.records && w.records[id].state.Failed? && !w.records[id].invalidated
    case ClaimNext(dest, ctx, id) => w.targets.Usable(dest) && Picked(w, dest, id)
    case Prepare(ctx, id, from, eligible) =>
      Leased(w, ctx) && eligible && Owns(w, id, ctx.token, true) && w.records[id].state == from
    case ExtendClaim(id, token) => Owns(w, id, token, true)
    case Advance(ctx, owned, id, state, from, _) =>
      && (owned ==> Leased(w, ctx)) && state.Active()
      && Owns(w, id, ctx.token, true) && w.records[id].state == from
    case FinishRecord(ctx, owned, id, state, from, _) =>
      && (owned ==> Leased(w, ctx)) && state.Final()
      && Owns(w, id, ctx.token, true) && w.records[id].state == from
    case ReleaseTo(id, token, state) => state.Claimable() && Owns(w, id, token, false)
    case Refuse(id, token) => Owns(w, id, token, false)
    case ClaimForApproval(ctx, id) =>
      && id in w.records && w.records[id].state.AwaitingApproval?
      && !w.records[id].invalidated && w.records[id].claim.Unclaimed?
    case ReleaseFromApproval(id, token) => Owns(w, id, token, false)
    case Reject(id) => id in w.records && w.records[id].state.AwaitingApproval?
    case Invalidate(_) => true
    case InvalidateOldEpoch(_, _) => true
    case ReleaseInterrupted => true
    case StampMany(ctx, _, _) => Leased(w, ctx)
    case StampDatetime(id, _, seenChecked) =>
      id in w.records && w.records[id].state.Complete? && w.records[id].checked == seenChecked
    case RequeueSent(_) => true
    case ReopenSkipped(_) => true
    case MarkStacked(ctx, members, dest, epoch, profile, rev, _) =>
      && Current(w, ctx, dest, epoch, profile, rev) && DistinctIds(members)
      && (forall i :: 0 <= i < |members| ==> Markable(w.records, members[i], epoch))
    case MarkSkipped(ctx, member, dest, epoch, profile, rev) =>
      && Current(w, ctx, dest, epoch, profile, rev)
      && Markable(w.records, member, epoch) && w.records[member.id].stack.Unevaluated?
    case ReopenStacks(ctx, _, _, _) => Leased(w, ctx)
    case DeleteRecordsOf(_) => true
  }

  // ----- what they write

  predicate InStack(r: Record, dest: nat, epoch: nat, stack: nat)
  {
    r.dest == dest && r.epoch == epoch && r.stack.Stacked? && r.stack.stack == stack
  }

  /** `_reopen_stack_of`: every record of the stack `id` is in becomes unevaluated. */
  function ReopenStackOf(records: map<nat, Record>, id: nat): map<nat, Record>
    requires id in records
  {
    var r := records[id];
    if !r.stack.Stacked? then records
    else map i | i in records ::
           if InStack(records[i], r.dest, r.epoch, r.stack.stack) then records[i].(stack := Unevaluated) else records[i]
  }

  function BeforeAssetChange(records: map<nat, Record>, id: nat, asset: Field): map<nat, Record>
    requires id in records
  {
    if asset.Set? && asset.asset != records[id].asset then ReopenStackOf(records, id) else records
  }

  function Written(r: Record, asset: Field): Record
  {
    match asset
    case Keep => r
    case Set(a) => r.(asset := a)
  }

  function StampOne(records: map<nat, Record>, s: Stamp, at: nat): map<nat, Record>
  {
    if !StillSo(records, s) then records
    else
      var reopened := if s.asset != s.seenAsset then ReopenStackOf(records, s.id) else records;
      reopened[s.id := reopened[s.id].(asset := s.asset, trashed := s.trashed, checked := Some(at),
                                   invalidated := reopened[s.id].invalidated || s.asset.None?)]
  }

  function StampAll(records: map<nat, Record>, stamps: seq<Stamp>, at: nat): map<nat, Record>
    decreases |stamps|
  {
    if stamps == [] then records
    else StampOne(StampAll(records, stamps[..|stamps| - 1], at), stamps[|stamps| - 1], at)
  }

  predicate IsMember(members: seq<Member>, id: nat)
  {
    exists i :: 0 <= i < |members| && members[i].id == id
  }

  function MarkAll(records: map<nat, Record>, members: seq<Member>, stack: nat): map<nat, Record>
  {
    map id | id in records ::
      if IsMember(members, id) && records[id].asset.Some?
      then records[id].(stack := Stacked(stack, records[id].asset.value)) else records[id]
  }

  function ReopenAll(records: map<nat, Record>, dest: nat, epoch: nat, stacks: seq<nat>): map<nat, Record>
  {
    map id | id in records ::
      var r := records[id];
      if r.dest == dest && r.epoch == epoch && r.stack.Stacked? && r.stack.stack in stacks && !r.invalidated
      then r.(stack := Unevaluated) else r
  }

  function InvalidatedWhere(records: map<nat, Record>, ids: set<nat>): map<nat, Record>
  {
    map id | id in records :: if id in ids then records[id].(invalidated := true) else records[id]
  }

  function OldEpochIds(records: map<nat, Record>, dest: nat, epoch: nat): set<nat>
  {
    set id | id in records && records[id].dest == dest && records[id].epoch < epoch
             && !records[id].invalidated && !records[id].state.Complete?
  }

  /** `purge_superseded_credentials` selects these. */
  function Superseded(w: World, dest: nat): set<nat>
    requires dest in w.targets.dests
  {
    set v | v in w.targets.revs && w.targets.revs[v].dest == dest && v != w.targets.dests[dest].current
            && forall id :: id in w.records ==> !(w.records[id].revision == Some(v) && w.records[id].state.InFlight())
  }

  /** A failed record of the pair is queued again. */
  function PairRetried(records: map<nat, Record>, dest: nat, epoch: nat, media: nat): map<nat, Record>
  {
    map id | id in records ::
      if LivePair(records[id], dest, epoch, media) && records[id].state.Failed?
      then records[id].(state := Pending, claim := Unclaimed) else records[id]
  }

  function InterruptedReleased(records: map<nat, Record>): map<nat, Record>
  {
    map id | id in records ::
      if records[id].state.Active() then records[id].(state := NeedsRecheck, claim := Unclaimed) else records[id]
  }

  function Requeued(records: map<nat, Record>, media: nat): map<nat, Record>
  {
    map id | id in records ::
      if records[id].media == media && records[id].state.Complete? && !records[id].invalidated
      then records[id].(state := NeedsRecheck) else records[id]
  }

  function SkippedReopened(records: map<nat, Record>, media: nat): map<nat, Record>
  {
    map id | id in records ::
      if records[id].media == media && records[id].stack.Skipped? && !records[id].invalidated
      then records[id].(stack := Unevaluated) else records[id]
  }

  function Without(records: map<nat, Record>, media: nat): map<nat, Record>
  {
    map id | id in records && records[id].media != media :: records[id]
  }

  function NewRecord(w: World, media: nat, dest: nat): Record
  {
    Record(dest, w.targets.Epoch(dest), media, Pending, Unclaimed, None, false, None, false, None, Unevaluated,
        w.jobs.now)
  }

  function Effect(w: World, op: Op): World
    requires Accepts(w, op)
  {
    var records, targets := w.records, w.targets;
    match op
    case JobOp(j) => w.(jobs := J.Effect(w.jobs, j))
    case StageArtifact(_) => w
    case CreateDestination(dest, user, host) =>
      w.(targets := targets.(dests := targets.dests[dest := Destination(true, false, targets.nextRev)],
                             revs := targets.revs[targets.nextRev := Revision(dest, 1, user, host)],
                             nextRev := targets.nextRev + 1))
    case AddRevision(dest, user, host, same) =>
      var current := targets.revs[targets.dests[dest].current];
      var epoch := NextEpoch(current, user, host, same).value;
      w.(targets := targets.(dests := targets.dests[dest := targets.dests[dest].(current := targets.nextRev)],
                             revs := targets.revs[targets.nextRev := Revision(dest, epoch, user, host)],
                             nextRev := targets.nextRev + 1),
         records := if epoch == current.epoch then records
                    else InvalidatedWhere(records, OldEpochIds(records, dest, epoch)))
    case SetEnabled(dest, on) =>
      w.(targets := targets.(dests := targets.dests[dest := targets.dests[dest].(enabled := on)]))
    case Archive(dest) =>
      w.(targets := targets.(dests := targets.dests[dest := targets.dests[dest].(enabled := false, archived := true)]))
    case PurgeSelect(dest) => w.(targets := targets.(doomed := targets.doomed + Superseded(w, dest)))
    case PurgeOne(rev) => w.(targets := targets.(purged := targets.purged + {rev}))
    case EditProfile(p, v) => w.(profiles := w.profiles[p := v])
    case Pair(media, dest, _) =>
      if HasLive(records, dest, targets.Epoch(dest), media) then
        w.(records := PairRetried(records, dest, targets.Epoch(dest), media))
      else w.(records := records[w.nextRecord := NewRecord(w, media, dest)], nextRecord := w.nextRecord + 1)
    case Retry(id) => w.(records := records[id := records[id].(state := Pending, claim := Unclaimed,
        stack := Unevaluated)])
    case ClaimNext(dest, ctx, id) =>
      w.(records := records[id := records[id].(state := Checking, revision := Some(targets.dests[dest].current),
                                               claim := ClaimedBy(ctx.job, ctx.token, w.jobs.now + J.LEASE_SECONDS))])
    case Prepare(ctx, id, _, _) => w.(records := records[id := Renewed(w, id)])
    case ExtendClaim(id, _) => w.(records := records[id := Renewed(w, id)])
    case Advance(_, _, id, state, _, asset) =>
      var reopened := BeforeAssetChange(records, id, asset);
      w.(records := reopened[id := Written(reopened[id], asset).(state := state)])
    case FinishRecord(_, _, id, state, _, asset) =>
      var reopened := BeforeAssetChange(records, id, asset);
      w.(records := reopened[id := Written(reopened[id], asset).(state := state, claim := Unclaimed)])
    case ReleaseTo(id, _, state) => w.(records := records[id := records[id].(state := state, claim := Unclaimed)])
    case Refuse(id, _) =>
      w.(records := records[id := records[id].(state := Pending, claim := Unclaimed, invalidated := true)])
    case ClaimForApproval(ctx, id) =>
      w.(records := records[id := records[id].(state := FixingDatetime,
                                               claim := ClaimedBy(ctx.job, ctx.token, w.jobs.now + J.LEASE_SECONDS))])
    case ReleaseFromApproval(id, _) =>
      w.(records := records[id := records[id].(state := AwaitingApproval, claim := Unclaimed)])
    case Reject(id) => w.(records := records[id := records[id].(state := Complete)])
    case Invalidate(ids) => w.(records := InvalidatedWhere(records, ids))
    case InvalidateOldEpoch(dest, epoch) => w.(records := InvalidatedWhere(records, OldEpochIds(records, dest, epoch)))
    case ReleaseInterrupted =>
      w.(records := InterruptedReleased(records))
    case StampMany(_, stamps, at) => w.(records := StampAll(records, stamps, at))
    case StampDatetime(id, at, _) => w.(records := records[id := records[id].(checked := Some(at))])
    case RequeueSent(media) =>
      w.(records := Requeued(records, media))
    case ReopenSkipped(media) =>
      w.(records := SkippedReopened(records, media))
    case MarkStacked(_, members, _, _, _, _, stack) => w.(records := MarkAll(records, members, stack))
    case MarkSkipped(_, member, _, _, _, _) => w.(records := records[member.id := records[member.id].(stack := Skipped)])
    case ReopenStacks(_, dest, epoch, stacks) => w.(records := ReopenAll(records, dest, epoch, stacks))
    case DeleteRecordsOf(media) => w.(records := Without(records, media))
  }

  function Renewed(w: World, id: nat): Record
    requires id in w.records && w.records[id].claim.ClaimedBy?
  {
    w.records[id].(claim := w.records[id].claim.(expires := w.jobs.now + J.LEASE_SECONDS))
  }

  function Step(w: World, op: Op): World
  {
    if Accepts(w, op) then Effect(w, op) else w
  }

  function Run(w: World, ops: seq<Op>): World
    decreases |ops|
  {
    if ops == [] then w else Run(Step(w, ops[0]), ops[1..])
  }
}
