/** Ownership of jobs: leases, cancellation and the way a job ends.

    Every operation is one SQL transaction, so a run is any interleaving of them.
    `Accepts` is the condition its statement looks for (rowcount 1, or a row
    found); an operation that is not accepted raises or returns empty-handed and
    leaves the table alone.
 */
module Jobs {

  const LEASE_SECONDS: nat := 60

  datatype Status = Queued | Running | Cancelling | Cancelled | Interrupted | Succeeded | Failed
  {
    predicate Terminal() { Cancelled? || Interrupted? || Succeeded? || Failed? }
    predicate Live() { Running? || Cancelling? }
  }

  datatype Lease = NoLease | Lease(token: nat, expires: nat)

  datatype Job = Job(status: Status, lease: Lease, created: nat)

  /** `nextToken` is still unused; `now` is the wall clock, taken to be monotone. */
  datatype Table = Table(jobs: map<nat, Job>, nextToken: nat, now: nat)

  datatype Op =
    | Tick(seconds: nat)
    | Enqueue(id: nat)
    | ClaimNext(id: nat)                    // the row the SELECT picked
    | ExtendLease(id: nat, token: nat)
    | Finish(id: nat, token: nat)           // 'failed', the only status it is called with
    | FinishClaimed(id: nat, token: nat)
    | RequestCancel(id: nat)
    | SweepInterrupted
    | ReapExpired

  predicate Holds(t: Table, id: nat, token: nat)
  {
    id in t.jobs && t.jobs[id].status.Live() && t.jobs[id].lease.Lease? && t.jobs[id].lease.token == token
  }

  /** What `assert_lease` looks for: a running owner whose lease has not expired. */
  predicate LeaseValid(t: Table, id: nat, token: nat)
  {
    Holds(t, id, token) && t.jobs[id].status == Running && t.now < t.jobs[id].lease.expires
  }

  predicate Oldest(t: Table, id: nat)
    requires id in t.jobs
  {
    forall other :: other in t.jobs && t.jobs[other].status == Queued ==> t.jobs[id].created <= t.jobs[other].created
  }

  predicate Accepts(t: Table, op: Op)
  {
    match op
    case Tick(_) => true
    case Enqueue(id) => id !in t.jobs
    case ClaimNext(id) => id in t.jobs && t.jobs[id].status == Queued && Oldest(t, id)
    case ExtendLease(id, token) => Holds(t, id, token) && t.now < t.jobs[id].lease.expires
    case Finish(id, token) => Holds(t, id, token)
    case FinishClaimed(id, token) => Holds(t, id, token)
    case RequestCancel(id) => id in t.jobs && (t.jobs[id].status == Queued || t.jobs[id].status == Running)
    case SweepInterrupted => true
    case ReapExpired => true
  }

  function End(job: Job, status: Status): Job { job.(status := status, lease := NoLease) }

  function Effect(t: Table, op: Op): Table
    requires Accepts(t, op)
  {
    match op
    case Tick(seconds) => t.(now := t.now + seconds)
    case Enqueue(id) => t.(jobs := t.jobs[id := Job(Queued, NoLease, t.now)])
    case ClaimNext(id) =>
      t.(jobs := t.jobs[id := t.jobs[id].(status := Running, lease := Lease(t.nextToken, t.now + LEASE_SECONDS))],
         nextToken := t.nextToken + 1)
    case ExtendLease(id, token) =>
      t.(jobs := t.jobs[id := t.jobs[id].(lease := Lease(token, t.now + LEASE_SECONDS))])
    case Finish(id, _) => t.(jobs := t.jobs[id := End(t.jobs[id], Failed)])
    case FinishClaimed(id, _) =>
      t.(jobs := t.jobs[id := End(t.jobs[id], if t.jobs[id].status == Cancelling then Cancelled else Succeeded)])
    case RequestCancel(id) =>
      t.(jobs := t.jobs[id := t.jobs[id].(status := if t.jobs[id].status == Queued then Cancelled else Cancelling)])
    case SweepInterrupted =>
      t.(jobs := map id | id in t.jobs ::
           if t.jobs[id].status.Live() then End(t.jobs[id], Interrupted) else t.jobs[id])
    case ReapExpired =>
      t.(jobs := map id | id in t.jobs ::
           if t.jobs[id].status.Live() && t.jobs[id].lease.Lease? && t.jobs[id].lease.expires < t.now
           then End(t.jobs[id], Interrupted) else t.jobs[id])
  }

  function Step(t: Table, op: Op): Table
  {
    if Accepts(t, op) then Effect(t, op) else t
  }

  function Run(t: Table, ops: seq<Op>): Table
    decreases |ops|
  {
    if ops == [] then t else Run(Step(t, ops[0]), ops[1..])
  }

  /** A live job and only a live job has a lease; tokens are never shared. */
  ghost predicate Inv(t: Table)
  {
    && (forall id :: id in t.jobs ==>
          && (t.jobs[id].status.Live() <==> t.jobs[id].lease.Lease?)
          && (t.jobs[id].lease.Lease? ==> t.jobs[id].lease.token < t.nextToken))
    && (forall i, j :: i in t.jobs && j in t.jobs && i != j ==> TokensDiffer(t.jobs[i].lease, t.jobs[j].lease))
  }

  predicate TokensDiffer(a: Lease, b: Lease)
  {
    a.Lease? && b.Lease? ==> a.token != b.token
  }

  lemma StepKeepsInv(t: Table, op: Op)
    requires Inv(t)
    ensures Inv(Step(t, op))
  {
    if Accepts(t, op) {
      match op {
        case Tick(_) =>
        case Enqueue(id) =>
        case ClaimNext(id) =>
        case ExtendLease(id, _) =>
        case Finish(id, _) =>
        case FinishClaimed(id, _) =>
        case RequestCancel(id) =>
        case SweepInterrupted => EndingKeepsInv(t, Effect(t, op).jobs);
        case ReapExpired => EndingKeepsInv(t, Effect(t, op).jobs);
      }
    }
  }

  lemma EndingKeepsInv(t: Table, jobs: map<nat, Job>)
    requires Inv(t) && jobs.Keys == t.jobs.Keys
    requires forall id :: id in jobs ==> jobs[id] == t.jobs[id] || jobs[id] == End(t.jobs[id], Interrupted)
    ensures Inv(t.(jobs := jobs))
  {
    forall i, j | i in jobs && j in jobs && i != j ensures TokensDiffer(jobs[i].lease, jobs[j].lease) {
      assert TokensDiffer(t.jobs[i].lease, t.jobs[j].lease);
    }
  }

  lemma {:induction false} RunKeepsInv(t: Table, ops: seq<Op>)
    requires Inv(t)
    ensures Inv(Run(t, ops))
    decreases |ops|
  {
    if ops != [] {
      StepKeepsInv(t, ops[0]);
      RunKeepsInv(Step(t, ops[0]), ops[1..]);
    }
  }

  /** A job that has ended stays exactly as it is. */
  lemma {:induction false} TerminalIsFinal(t: Table, ops: seq<Op>, id: nat)
    requires Inv(t) && id in t.jobs && t.jobs[id].status.Terminal()
    ensures id in Run(t, ops).jobs && Run(t, ops).jobs[id] == t.jobs[id]
    decreases |ops|
  {
    if ops != [] {
      StepKeepsInv(t, ops[0]);
      TerminalIsFinal(Step(t, ops[0]), ops[1..], id);
    }
  }

  function Claims(t: Table, ops: seq<Op>, id: nat): nat
    decreases |ops|
  {
    if ops == [] then 0
    else (if ops[0] == ClaimNext(id) && Accepts(t, ops[0]) then 1 else 0) + Claims(Step(t, ops[0]), ops[1..], id)
  }

  /** No job is claimed twice: never once it has left the queue, and at most once in all. */
  lemma {:induction false} ClaimedAtMostOnce(t: Table, ops: seq<Op>, id: nat)
    ensures Claims(t, ops, id) <= 1
    ensures id in t.jobs && t.jobs[id].status != Queued ==> Claims(t, ops, id) == 0
    decreases |ops|
  {
    if ops != [] {
      ClaimedAtMostOnce(Step(t, ops[0]), ops[1..], id);
    }
  }

  /** The token opens nothing any more: its job is being cancelled or is gone, or
      its lease has run out. */
  predicate Dead(t: Table, token: nat)
  {
    && token < t.nextToken
    && forall id :: id in t.jobs ==> !LeaseValid(t, id, token)
  }

  lemma {:induction false} DeadStaysDead(t: Table, ops: seq<Op>, token: nat)
    requires Dead(t, token)
    ensures Dead(Run(t, ops), token)
    decreases |ops|
  {
    if ops != [] {
      DeadStaysDead(Step(t, ops[0]), ops[1..], token);
    }
  }

  /** An expired lease never revives. */
  lemma ExpiryIsDeath(t: Table, id: nat, token: nat)
    requires Inv(t) && Holds(t, id, token) && t.jobs[id].lease.expires <= t.now
    ensures Dead(t, token)
  {
  }

  /** Once the cancel of a running job has committed, its token is dead. */
  lemma CancelIsDeath(t: Table, id: nat, token: nat)
    requires Inv(t) && Holds(t, id, token)
    ensures Dead(Step(t, RequestCancel(id)), token)
  {
    forall other | other in t.jobs && other != id ensures !Holds(t, other, token) {
      assert TokensDiffer(t.jobs[other].lease, t.jobs[id].lease);
    }
  }

  predicate CancelSeen(status: Status)
  {
    status.Cancelling? || status.Cancelled? || status.Interrupted? || status.Failed?
  }

  /** A cancelled job is never reported as succeeded. */
  lemma {:induction false} CancelledNeverSucceeds(t: Table, ops: seq<Op>, id: nat)
    requires id in t.jobs && CancelSeen(t.jobs[id].status)
    ensures id in Run(t, ops).jobs && CancelSeen(Run(t, ops).jobs[id].status)
    decreases |ops|
  {
    if ops != [] {
      CancelledNeverSucceeds(Step(t, ops[0]), ops[1..], id);
    }
  }

  /** How `JobRunner._settle` ends a job. */
  function Settle(t: Table, id: nat, token: nat, failed: bool): Table
  {
    Step(t, if failed then Finish(id, token) else FinishClaimed(id, token))
  }

  /** A job that its owner settles succeeds exactly when the handler returned and no
      cancel has been accepted since it was claimed, however the two were interleaved. */
  lemma {:induction false} SettledOutcome(t: Table, ops: seq<Op>, id: nat, token: nat, failed: bool)
    requires Inv(t) && Holds(t, id, token)
    requires Holds(Run(t, ops), id, token)
    ensures var after := Settle(Run(t, ops), id, token, failed);
            && (after.jobs[id].status == Succeeded <==>
                  !failed && t.jobs[id].status == Running && !CancelAccepted(t, ops, id))
            && after.jobs[id].status.Terminal()
  {
    OnlyCancelCancels(t, ops, id, token);
  }

  predicate CancelAccepted(t: Table, ops: seq<Op>, id: nat)
    decreases |ops|
  {
    ops != [] && ((ops[0] == RequestCancel(id) && Accepts(t, ops[0])) || CancelAccepted(Step(t, ops[0]), ops[1..], id))
  }

  lemma {:induction false} OnlyCancelCancels(t: Table, ops: seq<Op>, id: nat, token: nat)
    requires Inv(t) && Holds(t, id, token)
    requires Holds(Run(t, ops), id, token)
    ensures Run(t, ops).jobs[id].status == Running <==> t.jobs[id].status == Running && !CancelAccepted(t, ops, id)
    decreases |ops|
  {
    if ops != [] {
      var next := Step(t, ops[0]);
      StepKeepsInv(t, ops[0]);
      if !Holds(next, id, token) {
        assert next.jobs[id].status.Terminal();
        TerminalIsFinal(next, ops[1..], id);
        assert false;
      }
      OnlyCancelCancels(next, ops[1..], id, token);
    }
  }
}
