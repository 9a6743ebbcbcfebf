/** The job table as its two users change it: the store and the worker. */
module JobStore {
  import opened Jobs

  datatype Claim = Nothing | Claimed(id: nat, token: nat)

  class JobStore {
    var jobs: map<nat, Job>
    var nextToken: nat
    var now: nat

    ghost function View(): Table
      reads this
    {
      Table(jobs, nextToken, now)
    }

    constructor ()
      ensures View() == Table(map[], 0, 0)
    {
      jobs, nextToken, now := map[], 0, 0;
    }

    /** Hands out the oldest queued job, if there is one. */
    method ClaimNext() returns (r: Claim)
      modifies this
      ensures r.Nothing? <==> forall id :: id in old(jobs) ==> old(jobs)[id].status != Queued
      ensures r.Nothing? ==> jobs == old(jobs)
      ensures r.Claimed? ==>
                && Accepts(old(View()), Jobs.ClaimNext(r.id)) && View() == Step(old(View()), Jobs.ClaimNext(r.id))
                && r.token == old(nextToken) && LeaseValid(View(), r.id, r.token)
    {
      var token := nextToken;
      nextToken := nextToken + 1;
      var unseen := jobs.Keys;
      r := Nothing;
      while unseen != {}
        invariant unseen <= jobs.Keys && jobs == old(jobs) && now == old(now)
        invariant r.Nothing? ==> forall id :: id in jobs && id !in unseen ==> jobs[id].status != Queued
        invariant r.Claimed? ==>
                    && r.id in jobs && r.id !in unseen && jobs[r.id].status == Queued && r.token == token
                    && forall id :: id in jobs && id !in unseen && jobs[id].status == Queued ==>
                         jobs[r.id].created <= jobs[id].created
        decreases unseen
      {
        var id :| id in unseen;
        unseen := unseen - {id};
        if jobs[id].status == Queued && (r.Nothing? || jobs[id].created < jobs[r.id].created) {
          r := Claimed(id, token);
        }
      }
      if r.Claimed? {
        jobs := jobs[r.id := jobs[r.id].(status := Running, lease := Lease(token, now + LEASE_SECONDS))];
      }
    }

    /** Returns whether there was anything left to cancel. */
    method RequestCancel(id: nat) returns (ok: bool)
      modifies this
      ensures View() == Step(old(View()), Jobs.RequestCancel(id))
      ensures ok == Accepts(old(View()), Jobs.RequestCancel(id))
    {
      if id in jobs && jobs[id].status == Queued {
        jobs := jobs[id := jobs[id].(status := Cancelled)];
        return true;
      }
      if id in jobs && jobs[id].status == Running {
        jobs := jobs[id := jobs[id].(status := Cancelling)];
        return true;
      }
      ok := false;
    }

    method AssertLease(id: nat, token: nat) returns (ok: bool)
      ensures ok == LeaseValid(View(), id, token)
    {
      ok := LeaseValid(Table(jobs, nextToken, now), id, token);
    }

    /** The heartbeat. */
    method ExtendLease(id: nat, token: nat) returns (ok: bool)
      modifies this
      ensures View() == Step(old(View()), Jobs.ExtendLease(id, token))
      ensures ok == Accepts(old(View()), Jobs.ExtendLease(id, token))
    {
      ok := Jobs.Holds(Table(jobs, nextToken, now), id, token) && now < jobs[id].lease.expires;
      if ok {
        jobs := jobs[id := jobs[id].(lease := Lease(token, now + LEASE_SECONDS))];
      }
    }

    method Finish(id: nat, token: nat) returns (ok: bool)
      modifies this
      ensures View() == Step(old(View()), Jobs.Finish(id, token))
      ensures ok == Jobs.Holds(old(View()), id, token)
    {
      ok := Jobs.Holds(Table(jobs, nextToken, now), id, token);
      if ok {
        jobs := jobs[id := End(jobs[id], Failed)];
      }
    }

    /** One statement both reads the status and ends the job, so that a cancel
        cannot slip in between. */
    method FinishClaimed(id: nat, token: nat) returns (ok: bool, status: Status)
      modifies this
      ensures View() == Step(old(View()), Jobs.FinishClaimed(id, token))
      ensures ok == Jobs.Holds(old(View()), id, token)
      ensures ok ==> status == jobs[id].status && (status == Succeeded <==> old(jobs)[id].status == Running)
    {
      ok, status := Jobs.Holds(Table(jobs, nextToken, now), id, token), Interrupted;
      if ok {
        status := if jobs[id].status == Cancelling then Cancelled else Succeeded;
        jobs := jobs[id := End(jobs[id], status)];
      }
    }

    /** What the start of the process does to jobs the previous one left behind. */
    method SweepInterrupted() returns (swept: nat)
      modifies this
      ensures View() == Step(old(View()), Jobs.SweepInterrupted)
      ensures forall id :: id in jobs ==> !jobs[id].status.Live()
      ensures swept == |set id | id in old(jobs) && old(jobs)[id].status.Live()|
    {
      var live := set id | id in jobs && jobs[id].status.Live();
      swept := |live|;
      jobs := map id | id in jobs :: if id in live then End(jobs[id], Interrupted) else jobs[id];
    }
  }

  /** The worker runs one job; `during` is all that happens to the table meanwhile. */
  method RunOne(store: JobStore, id: nat, token: nat, during: seq<Op>, failed: bool)
    requires Inv(store.View()) && LeaseValid(store.View(), id, token)
    modifies store
    ensures Inv(store.View())
    // the owner can settle unless the sweep or the reaper took the job away
    ensures var before := Run(old(store.View()), during);
            Jobs.Holds(before, id, token) ==>
              && id in store.jobs && store.jobs[id].status.Terminal()
              && (store.jobs[id].status == Succeeded <==> !failed && !CancelAccepted(old(store.View()), during, id))
    ensures CancelAccepted(old(store.View()), during, id) ==> id in store.jobs && store.jobs[id].status != Succeeded
  {
    ghost var start := store.View();
    var t := Run(Table(store.jobs, store.nextToken, store.now), during);
    store.jobs, store.nextToken, store.now := t.jobs, t.nextToken, t.now;
    RunKeepsInv(start, during);
    StepKeepsInv(t, if failed then Finish(id, token) else FinishClaimed(id, token));
    if Jobs.Holds(t, id, token) {
      SettledOutcome(start, during, id, token, failed);
    }
    if CancelAccepted(start, during, id) {
      CancelLeavesMark(start, during, id);
    }
    if failed {
      var ok := store.Finish(id, token);
    } else {
      var ok, status := store.FinishClaimed(id, token);
    }
  }

  lemma {:induction false} CancelLeavesMark(t: Table, ops: seq<Op>, id: nat)
    requires CancelAccepted(t, ops, id)
    ensures id in Run(t, ops).jobs && CancelSeen(Run(t, ops).jobs[id].status)
    decreases |ops|
  {
    if ops[0] == RequestCancel(id) && Accepts(t, ops[0]) {
      CancelledNeverSucceeds(Step(t, ops[0]), ops[1..], id);
    } else {
      CancelLeavesMark(Step(t, ops[0]), ops[1..], id);
    }
  }
}
