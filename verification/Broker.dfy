/** The socket server: every connection owns the handles it was given. */
module Broker {
  import opened Options
  import opened Mounts

  datatype Reply = BadRequest | UnknownVolume | Rejected | MountError | Given(handle: nat) | UnknownHandle | Done | Gone

  /** No two connections own the same handle, and every mount has an owner. */
  ghost predicate Owned(conns: map<nat, set<nat>>, mounted: map<nat, nat>)
  {
    && (forall c, d :: c in conns && d in conns && c != d ==> conns[c] !! conns[d])
    && (forall c :: c in conns ==> conns[c] <= mounted.Keys)
    && (forall h :: h in mounted ==> HasOwner(conns, h))
  }

  predicate HasOwner(conns: map<nat, set<nat>>, h: nat) { exists c :: c in conns && h in conns[c] }

  lemma GiveKeepsOwned(conns: map<nat, set<nat>>, mounted: map<nat, nat>, c: nat, h: nat, fd: nat)
    requires Owned(conns, mounted) && c in conns && h !in mounted
    ensures Owned(conns[c := conns[c] + {h}], mounted[h := fd])
  {
    var after := conns[c := conns[c] + {h}];
    assert h in after[c];
    forall g | g in mounted[h := fd] ensures HasOwner(after, g) {
      if g != h {
        assert HasOwner(conns, g);
        var d :| d in conns && g in conns[d];
        assert g in after[d];
      }
    }
  }

  lemma TakeKeepsOwned(conns: map<nat, set<nat>>, mounted: map<nat, nat>, c: nat, h: nat)
    requires Owned(conns, mounted) && c in conns && h in conns[c]
    ensures Owned(conns[c := conns[c] - {h}], mounted - {h})
  {
    var after := conns[c := conns[c] - {h}];
    forall g | g in mounted - {h} ensures HasOwner(after, g) {
      assert HasOwner(conns, g);
      var d :| d in conns && g in conns[d];
      assert g in after[d];
    }
  }

  lemma DropKeepsOwned(conns: map<nat, set<nat>>, mounted: map<nat, nat>, c: nat)
    requires Owned(conns, mounted) && c in conns && conns[c] == {}
    ensures Owned(conns - {c}, mounted)
  {
    var after := conns - {c};
    forall g | g in mounted ensures HasOwner(after, g) {
      assert HasOwner(conns, g);
      var d :| d in conns && g in conns[d];
      assert g in after[d];
    }
  }

  /** What was ever observed under the generation, and what was listed since. */
  ghost predicate SameThroughout(log: seq<Observation>, generation: nat, listed: seq<Volume>,
        between: seq<seq<Volume>>, later: seq<Volume>)
  {
    && (forall k :: 0 <= k < |log| && log[k].generation == generation ==> log[k].marks == MarksOf(listed))
    && MarksOf(listed) == MarksOf(later)
    && forall i :: 0 <= i < |between| ==> MarksOf(between[i]) == MarksOf(listed)
  }

  /** Everything asked of the outside works, for a type that may be mounted. */
  predicate AllWork(claim: Expected, w: Calls)
  {
    && AllowedType(Some(claim.fsType)) && w.mkdir.Works? && w.runner.Works? && w.code == 0 && w.clone.Works?
    && w.dirfd.Works? && w.list.Works? && (w.attached ==> w.detach.Works?) && w.pin == Some(true)
  }

  /** The same set of volumes, whoever looks. */
  predicate SameSet(listed: seq<Volume>, between: seq<seq<Volume>>, later: seq<Volume>)
  {
    MarksOf(later) == MarksOf(listed) && forall i :: 0 <= i < |between| ==> MarksOf(between[i]) == MarksOf(listed)
  }

  /** When a request succeeds: the volume is there as claimed, under the claimed stamp, every
      call works, the set of volumes stays the same, and the volume is seen again. */
  predicate Succeeds(epoch: nat, generation: nat, key: string, claim: Expected, listed: seq<Volume>,
        between: seq<seq<Volume>>, later: seq<Volume>, w: Calls)
  {
    && Sees(epoch, generation, listed, key, claim) && AllWork(claim, w)
    && SameSet(listed, between, later) && Shows(later, key, claim)
  }

  class BrokerServer {
    const observer: Observer
    const manager: MountManager
    var conns: map<nat, set<nat>>

    ghost predicate Valid()
      reads this, observer, manager
    {
      observer.Valid() && manager.Valid() && Owned(conns, manager.mounted)
    }

    constructor (epoch: nat)
      ensures Valid() && conns == map[] && fresh(observer) && fresh(manager)
    {
      observer := new Observer(epoch);
      manager := new MountManager();
      conns := map[];
    }

    method Connect(c: nat)
      requires Valid() && c !in conns
      modifies this
      ensures Valid() && conns == old(conns)[c := {}]
    {
      conns := conns[c := {}];
      forall h | h in manager.mounted ensures HasOwner(conns, h) {
        assert HasOwner(old(conns), h);
        var d :| d in old(conns) && h in old(conns)[d];
        assert h in conns[d];
      }
    }

    method List(c: nat, listed: seq<Volume>) returns (volumes: seq<Volume>)
      requires Valid() && c in conns
      modifies observer
      ensures Valid()
      ensures observer.log == old(observer.log) + [Observation(MarksOf(listed), observer.generation)]
      ensures volumes == Stamp(listed, observer.epoch, observer.generation)
    {
      volumes := observer.Observe(listed);
    }

    /** Opens the volume `key`. `between` are the listings other connections ask for after
        the first observation and before the second. Whatever the client once saw under
        the generation it names is what there was before, between and after. */
    method Open(c: nat, key: string, claim: Expected, listed: seq<Volume>, between: seq<seq<Volume>>,
          later: seq<Volume>,
        handle: nat, w: Calls, sent: bool)
      returns (reply: Reply)
      requires Valid() && c in conns
      requires handle !in manager.mounted && handle !in manager.attached
      requires w.tree !in manager.open && w.fd !in manager.open && w.tree != w.fd
      modifies this, observer, manager
      ensures Valid() && old(observer.log) < observer.log
      ensures reply.Given? || reply.Gone? <==>
                Succeeds(observer.epoch, NextGeneration(old(observer.last), old(observer.generation), listed), key, claim,
                  listed, between, later, w)
      ensures reply.Given? ==> sent
      ensures reply.Gone? ==> !sent
      ensures conns == if reply.Given? then old(conns)[c := old(conns)[c] + {handle}] else old(conns)
      ensures manager.mounted == if reply.Given? then old(manager.mounted)[handle := w.fd] else old(manager.mounted)
      ensures reply.Given? ==>
                && reply.handle == handle && handle !in manager.attached
                && Lists(later, key, claim)
                && SameThroughout(old(observer.log), claim.generation, listed, between, later)
    {
      hide Owned, Balanced, Orderly, Lists, SameThroughout, Succeeds;
      reply := Attempt(key, claim, listed, between, later, handle, w);
      if !reply.Given? { return; }
      GiveKeepsOwned(conns, old(manager.mounted), c, handle, w.fd);
      conns := conns[c := conns[c] + {handle}];
      if !sent {                     // the answer cannot be written: the client is gone
        TakeKeepsOwned(conns, manager.mounted, c, handle);
        manager.Release(handle);
        conns := conns[c := conns[c] - {handle}];
        FreshHandle(old(conns), old(manager.mounted), c, handle);
        assert conns == old(conns);
        assert manager.mounted == old(manager.mounted);
        return Gone;
      }
    }

    /** Observes, mounts and observes again. */
    method Attempt(key: string, claim: Expected, listed: seq<Volume>, between: seq<seq<Volume>>, later: seq<Volume>,
          handle: nat, w: Calls)
      returns (reply: Reply)
      requires observer.Valid() && manager.Valid()
      requires handle !in manager.mounted && handle !in manager.attached
      requires w.tree !in manager.open && w.fd !in manager.open && w.tree != w.fd
      modifies observer, manager
      ensures observer.Valid() && manager.Valid() && old(observer.log) < observer.log
      ensures reply.Given? || reply.Rejected? || reply.MountError? || reply.UnknownVolume?
      ensures reply.UnknownVolume? <==> Lookup(listed, key).None?
      ensures reply.Given? <==>
                Succeeds(observer.epoch, NextGeneration(old(observer.last), old(observer.generation), listed), key, claim,
                  listed, between, later, w)
      ensures manager.mounted == if reply.Given? then old(manager.mounted)[handle := w.fd] else old(manager.mounted)
      ensures reply.Given? ==>
                && reply.handle == handle && handle !in manager.attached && Lists(later, key, claim)
                && SameThroughout(old(observer.log), claim.generation, listed, between, later)
    {
      hide Balanced, Orderly, Lists, SameThroughout, MarksOf, Sees, Shows, AllWork, Cloned, SameSet, DetachCall;
      ghost var before := observer.log;
      ghost var attached := manager.attached;
      var volumes := observer.Observe(listed);
      ghost var first, generation := observer.log, observer.generation;
      StampedLookup(listed, key, observer.epoch, observer.generation);
      var volume := Lookup(volumes, key);
      if volume.None? {
        NotListed(observer.epoch, generation, listed, key, claim);
        return UnknownVolume;
      }
      CallsOf(listed, observer.epoch, generation, key, claim, w, attached, handle);
      SameSetIs(listed, between, later);
      Overheard(between);
      ghost var heard, last, met := observer.log, observer.last, observer.generation;
      StillSeen(last, observer.epoch, met, generation, key, claim, listed, between, later);
      var r := manager.Mount(volume.value, claim, handle, w, observer, key, later);
      if r.Refused? {
        var rejected := r.why.TypeNotAllowed? || r.why.NotExpected? || r.why.NotPinned? || r.why.Changed?;
        return if rejected then Rejected else MountError;
      }
      SeesIs(observer.epoch, generation, listed, key, claim);
      SeesIs(observer.epoch, NextGeneration(last, met, later), later, key, claim);
      Unchanged(before, first, heard, observer.log, claim.generation, listed, between, later);
      SameSetThroughout(before, claim.generation, listed, between, later);
      reply := Given(handle);
    }

    method Overheard(listings: seq<seq<Volume>>)
      requires observer.Valid()
      modifies observer
      ensures observer.Valid()
      ensures |observer.log| == |old(observer.log)| + |listings| && old(observer.log) <= observer.log
      ensures forall i :: 0 <= i < |listings| ==> observer.log[|old(observer.log)| + i].marks == MarksOf(listings[i])
      ensures (forall i :: 0 <= i < |listings| ==> old(observer.last) == Some(MarksOf(listings[i]))) ==>
                observer.last == old(observer.last) && observer.generation == old(observer.generation)
    {
      hide Orderly, MarksOf;
      for i := 0 to |listings|
        invariant observer.Valid()
        invariant |observer.log| == |old(observer.log)| + i && old(observer.log) <= observer.log
        invariant forall k :: 0 <= k < i ==> observer.log[|old(observer.log)| + k].marks == MarksOf(listings[k])
        invariant (forall k :: 0 <= k < |listings| ==> old(observer.last) == Some(MarksOf(listings[k]))) ==>
                    observer.last == old(observer.last) && observer.generation == old(observer.generation)
      {
        var _ := observer.Observe(listings[i]);
      }
    }

    /** A handle can be closed by the connection that was given it, and by no other. */
    method Close(c: nat, handle: nat) returns (reply: Reply)
      requires Valid() && c in conns
      modifies this, manager
      ensures Valid() && observer.log == old(observer.log)
      ensures reply == if handle in old(conns)[c] then Done else UnknownHandle
      ensures conns == old(conns)[c := old(conns)[c] - {handle}]
      ensures manager.mounted == if reply.Done? then old(manager.mounted) - {handle} else old(manager.mounted)
      ensures manager.open == old(manager.open) -
                if reply.Done? && handle in old(manager.mounted) then {old(manager.mounted)[handle]} else {}
    {
      if handle !in conns[c] {
        assert conns[c] - {handle} == conns[c];
        return UnknownHandle;
      }
      TakeKeepsOwned(conns, manager.mounted, c, handle);
      manager.Release(handle);
      conns := conns[c := conns[c] - {handle}];
      reply := Done;
    }

    /** However a connection ends, what it held is closed, and only that. */
    method Disconnect(c: nat)
      requires Valid() && c in conns
      modifies this, manager
      ensures Valid() && conns == old(conns) - {c}
      ensures manager.mounted == old(manager.mounted) - old(conns)[c]
      ensures conns == map[] ==> manager.open == manager.leaked
    {
      hide Balanced, Owned;
      var handles := conns[c];
      while handles != {}
        invariant Valid() && c in conns && handles == conns[c] <= old(conns)[c]
        invariant conns == old(conns)[c := handles]
        invariant manager.mounted == old(manager.mounted) - (old(conns)[c] - handles)
        invariant manager.leaked == old(manager.leaked)
        decreases handles
      {
        var h :| h in handles;
        TakeKeepsOwned(conns, manager.mounted, c, h);
        manager.Release(h);
        handles := handles - {h};
        conns := conns[c := handles];
      }
      DropKeepsOwned(conns, manager.mounted, c);
      conns := conns - {c};
      assert conns == old(conns) - {c};
      if conns == map[] { AllGone(manager.mounted, manager.open, manager.leaked); }
    }
  }

  lemma NotListed(epoch: nat, generation: nat, listed: seq<Volume>, key: string, claim: Expected)
    requires Lookup(listed, key).None?
    ensures !Sees(epoch, generation, listed, key, claim)
  {
  }

  lemma SeesIs(epoch: nat, generation: nat, listed: seq<Volume>, key: string, claim: Expected)
    requires Sees(epoch, generation, listed, key, claim)
    ensures epoch == claim.epoch && generation == claim.generation && Shows(listed, key, claim)
  {
  }

  /** The checks and calls of the mount, up to the second observation. */
  lemma CallsOf(listed: seq<Volume>, epoch: nat, generation: nat, key: string, claim: Expected, w: Calls,
        attached: set<nat>, handle: nat)
    requires Lookup(listed, key).Some? && handle !in attached
    ensures var volume := Lookup(listed, key).value.(epoch := epoch, generation := generation);
            && Cloned(volume, claim, w) && DetachCall(attached + Mounted(w, handle), handle, w).Works? && w.pin == Some(true)
            <==> Sees(epoch, generation, listed, key, claim) && AllWork(claim, w)
  {
    hide Lookup;
  }

  /** The same set observed again keeps the generation. */
  lemma StillSeen(last: Option<Fingerprint>, epoch: nat, met: nat, generation: nat, key: string, claim: Expected,
        listed: seq<Volume>, between: seq<seq<Volume>>, later: seq<Volume>)
    requires SameSet(listed, between, later) ==> last == Some(MarksOf(listed)) && met == generation
    ensures Sees(epoch, generation, listed, key, claim) && SameSet(listed, between, later) && Shows(later, key, claim) ==>
              Sees(epoch, NextGeneration(last, met, later), later, key, claim)
  {
    hide Lookup, MarksOf;
  }

  lemma SameSetIs(listed: seq<Volume>, between: seq<seq<Volume>>, later: seq<Volume>)
    ensures SameSet(listed, between, later) ==> forall i :: 0 <= i < |between| ==> MarksOf(between[i]) == MarksOf(listed)
  {
  }

  lemma SameSetThroughout(log: seq<Observation>, generation: nat, listed: seq<Volume>, between: seq<seq<Volume>>,
        later: seq<Volume>)
    requires SameThroughout(log, generation, listed, between, later)
    ensures SameSet(listed, between, later)
  {
  }

  /** Between two observations of one generation nothing else was observed, and under that
      generation nothing else ever had been. */
  lemma SeenThroughout(log: seq<Observation>, n: nat, m: nat, generation: nat)
    requires Orderly(log) && n <= m < |log| && log[n].generation == generation == log[m].generation
    ensures forall k :: 0 <= k < n && log[k].generation == generation ==> log[k].marks == log[n].marks
    ensures forall k :: n <= k <= m ==> log[k] == log[n]
  {
    forall k | n <= k <= m ensures log[k] == log[n] {
      SameGenerationSameVolumes(log, n, m, k);
    }
  }

  /** One observation, those of others, and one more of the same generation. */
  lemma Unchanged(before: seq<Observation>, first: seq<Observation>, heard: seq<Observation>, log: seq<Observation>,
      generation: nat, listed: seq<Volume>, between: seq<seq<Volume>>, later: seq<Volume>)
    requires Orderly(log)
    requires first == before + [Observation(MarksOf(listed), generation)]
    requires first <= heard && |heard| == |first| + |between|
    requires forall i :: 0 <= i < |between| ==> heard[|first| + i].marks == MarksOf(between[i])
    requires log == heard + [Observation(MarksOf(later), generation)]
    ensures SameThroughout(before, generation, listed, between, later)
  {
    hide MarksOf;
    var n, m := |before|, |heard|;
    assert log[n] == first[n] == Observation(MarksOf(listed), generation);
    SeenThroughout(log, n, m, generation);
    forall k | 0 <= k < n && before[k].generation == generation ensures before[k].marks == MarksOf(listed) {
      assert log[k] == before[k];
    }
    forall i | 0 <= i < |between| ensures MarksOf(between[i]) == MarksOf(listed) {
      assert log[n + 1 + i] == heard[n + 1 + i];
    }
  }

  lemma FreshHandle(conns: map<nat, set<nat>>, mounted: map<nat, nat>, c: nat, h: nat)
    requires Owned(conns, mounted) && c in conns && h !in mounted
    ensures h !in conns[c] && conns[c] + {h} - {h} == conns[c]
  {
  }

  lemma AllGone(mounted: map<nat, nat>, open: set<nat>, leaked: set<nat>)
    requires Balanced(mounted, open, leaked) && Owned(map[], mounted)
    ensures open == leaked
  {
    assert mounted == map[];
    assert forall fd :: fd in open && fd !in leaked ==> HasHandle(mounted, fd);
  }
}
