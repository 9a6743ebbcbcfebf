/** Detached read-only mounts: what is observed, what is attached and what is open. */
module Mounts {
  import opened Options

  /** What an outside call does: it works, or raises OSError, or raises something else. */
  datatype Call = Works | OsError | OtherError

  datatype Volume = Volume(key: string, node: string, major: int, minor: int,
                           fsType: Option<string>, fsUuid: Option<string>, size: nat,
                           epoch: nat, generation: nat)

  datatype Expected = Expected(major: int, minor: int, fsType: string, fsUuid: Option<string>, epoch: nat,
      generation: nat)

  /** The identity of a volume as far as a change of the set is concerned. */
  datatype Mark = Mark(key: string, fsUuid: Option<string>, fsType: Option<string>, size: nat)

  /** The sorted tuple: which volumes, however they were listed. */
  type Fingerprint = multiset<Mark>

  datatype Observation = Observation(marks: Fingerprint, generation: nat)

  predicate AllowedType(fsType: Option<string>) { fsType == Some("exfat") || fsType == Some("vfat") }

  predicate Matches(v: Volume, e: Expected)
  {
    && v.major == e.major && v.minor == e.minor && v.fsUuid == e.fsUuid && v.fsType == Some(e.fsType)
    && v.epoch == e.epoch && v.generation == e.generation
  }

  function MarkOf(v: Volume): Mark { Mark(v.key, v.fsUuid, v.fsType, v.size) }

  function MarksOf(volumes: seq<Volume>): Fingerprint
  {
    if volumes == [] then multiset{} else MarksOf(volumes[..|volumes| - 1]) + multiset{MarkOf(volumes[|volumes| - 1])}
  }

  function Stamp(volumes: seq<Volume>, epoch: nat, generation: nat): (stamped: seq<Volume>)
    ensures |stamped| == |volumes|
    ensures forall i :: 0 <= i < |stamped| ==> stamped[i] == volumes[i].(epoch := epoch, generation := generation)
  {
    seq(|volumes|, i requires 0 <= i < |volumes| => volumes[i].(epoch := epoch, generation := generation))
  }

  /** The entry a dictionary built from the list has for the key: the last one wins. */
  function Lookup(volumes: seq<Volume>, key: string): (v: Option<Volume>)
    ensures v.Some? ==> v.value in volumes && v.value.key == key
    ensures v.None? <==> forall i :: 0 <= i < |volumes| ==> volumes[i].key != key
  {
    if volumes == [] then None
    else if volumes[|volumes| - 1].key == key then Some(volumes[|volumes| - 1])
    else Lookup(volumes[..|volumes| - 1], key)
  }

  lemma {:induction false} StampedLookup(volumes: seq<Volume>, key: string, epoch: nat, generation: nat)
    ensures var v := Lookup(volumes, key);
            Lookup(Stamp(volumes, epoch, generation), key) ==
              if v.Some? then Some(v.value.(epoch := epoch, generation := generation)) else None
    decreases |volumes|
  {
    var stamped := Stamp(volumes, epoch, generation);
    if volumes != [] && volumes[|volumes| - 1].key != key {
      StampedLookup(volumes[..|volumes| - 1], key, epoch, generation);
      assert stamped[..|volumes| - 1] == Stamp(volumes[..|volumes| - 1], epoch, generation);
    }
  }

  /** The generation after one more observation. */
  function NextGeneration(last: Option<Fingerprint>, generation: nat, listed: seq<Volume>): nat
  {
    if last == Some(MarksOf(listed)) then generation else generation + 1
  }

  /** Generations count the changes of the observed set. */
  predicate Orderly(log: seq<Observation>)
  {
    forall i, j :: 0 <= i < j < |log| ==>
      && log[i].generation <= log[j].generation
      && (log[i].generation == log[j].generation ==> log[i].marks == log[j].marks)
  }

  /** Everything observed between two observations of one generation was the same. */
  lemma SameGenerationSameVolumes(log: seq<Observation>, i: nat, j: nat, k: nat)
    requires Orderly(log) && i <= k <= j < |log| && log[i].generation == log[j].generation
    ensures log[k] == log[i] == log[j]
  {
    assert log[i].generation <= log[k].generation <= log[j].generation;
  }

  /** The observing half of the broker. Listing and stamping happen under one lock. */
  class Observer {
    const epoch: nat
    var generation: nat
    var last: Option<Fingerprint>
    ghost var log: seq<Observation>      // everything observed since the start

    ghost predicate Valid()
      reads this
    {
      && Orderly(log)
      && (log == [] <==> last.None?)
      && (forall i :: 0 <= i < |log| ==> 1 <= log[i].generation <= generation)
      && (log != [] ==> last == Some(log[|log| - 1].marks) && generation == log[|log| - 1].generation)
    }

    constructor (epoch: nat)
      ensures Valid() && log == [] && this.epoch == epoch
    {
      this.epoch := epoch;
      generation, last, log := 0, None, [];
    }

    /** Lists the volumes; a new generation starts exactly when the set is not the last one. */
    method Observe(listed: seq<Volume>) returns (volumes: seq<Volume>)
      requires Valid()
      modifies this
      ensures Valid()
      ensures log == old(log) + [Observation(MarksOf(listed), generation)]
      ensures volumes == Stamp(listed, epoch, generation)
      ensures generation == NextGeneration(old(last), old(generation), listed) && last == Some(MarksOf(listed))
    {
      var marks := MarksOf(listed);
      if Some(marks) != last {
        last := Some(marks);
        generation := generation + 1;
      }
      log := log + [Observation(marks, generation)];
      volumes := Stamp(listed, epoch, generation);
    }
  }

  /** The claimed volume is among the listed ones. */
  predicate Lists(volumes: seq<Volume>, key: string, claim: Expected)
  {
    exists i :: 0 <= i < |volumes| && IsClaimed(volumes[i], key, claim)
  }

  predicate IsClaimed(v: Volume, key: string, claim: Expected)
  {
    v.key == key && v.major == claim.major && v.minor == claim.minor && v.fsUuid == claim.fsUuid
        && v.fsType == Some(claim.fsType)
  }

  /** The volume of that key is the claimed one. */
  predicate Shows(volumes: seq<Volume>, key: string, claim: Expected)
  {
    Lookup(volumes, key).Some? && IsClaimed(Lookup(volumes, key).value, key, claim)
  }

  /** ... and it is observed under the claimed stamp. */
  predicate Sees(epoch: nat, generation: nat, listed: seq<Volume>, key: string, claim: Expected)
  {
    epoch == claim.epoch && generation == claim.generation && Shows(listed, key, claim)
  }

  /** Observes and compares. */
  method SeenAgain(observer: Observer, claim: Expected, key: string, listed: seq<Volume>) returns (same: bool)
    requires observer.Valid()
    modifies observer
    ensures observer.Valid()
    ensures observer.log == old(observer.log) + [Observation(MarksOf(listed), observer.generation)]
    ensures observer.generation == NextGeneration(old(observer.last), old(observer.generation), listed)
    ensures same <==> Sees(observer.epoch, observer.generation, listed, key, claim)
    ensures same ==> Lists(listed, key, claim)
  {
    var volumes := observer.Observe(listed);
    StampedLookup(listed, key, observer.epoch, observer.generation);
    var observed := Lookup(volumes, key);
    same := observed.Some? && Matches(observed.value, claim);
    if same {
      ghost var i :| 0 <= i < |volumes| && volumes[i] == observed.value;
      assert IsClaimed(listed[i], key, claim);
    }
  }

  datatype Refusal =
    | TypeNotAllowed | NotExpected | NoDirectory | RunnerRaised | MountFailed | CloneRaised | DirfdRaised
    | DetachFailed | DetachRaised | NotPinned | PinRaised | Changed | CleanupRaised

  datatype Outcome = Opened(handle: nat, dirfd: nat) | Refused(why: Refusal)

  /** How the outside calls of one request turn out, in order. `attached` tells whether
      the mount command attached the target, whatever it reported. */
  datatype Calls = Calls(
    mkdir: Call, runner: Call, code: int, attached: bool, clone: Call, dirfd: Call,
    list: Call, detach: Call, pin: Option<bool>,
    tree: nat, fd: nat)      // the numbers the kernel hands out

  /** Every open descriptor belongs to exactly one handle, or has been lost. */
  ghost predicate Balanced(mounted: map<nat, nat>, open: set<nat>, leaked: set<nat>)
  {
    && (forall h :: h in mounted ==> mounted[h] in open && mounted[h] !in leaked)
    && (forall g, h :: g in mounted && h in mounted && mounted[g] == mounted[h] ==> g == h)
    && leaked <= open
    && (forall fd :: fd in open && fd !in leaked ==> HasHandle(mounted, fd))
  }

  predicate HasHandle(mounted: map<nat, nat>, fd: nat) { exists h :: h in mounted && mounted[h] == fd }

  lemma RegisterBalances(mounted: map<nat, nat>, open: set<nat>, leaked: set<nat>, handle: nat, fd: nat)
    requires Balanced(mounted, open, leaked) && handle !in mounted && fd !in open
    ensures Balanced(mounted[handle := fd], open + {fd}, leaked)
  {
    var after := mounted[handle := fd];
    assert after[handle] == fd;
    forall f | f in open + {fd} && f !in leaked ensures HasHandle(after, f) {
      if f != fd {
        assert HasHandle(mounted, f);
        var h :| h in mounted && mounted[h] == f;
        assert after[h] == f;
      }
    }
  }

  lemma LeakBalances(mounted: map<nat, nat>, open: set<nat>, leaked: set<nat>, fd: nat)
    requires Balanced(mounted, open, leaked) && fd !in open
    ensures Balanced(mounted, open + {fd}, leaked + {fd})
  {
  }

  lemma ReleaseBalances(mounted: map<nat, nat>, open: set<nat>, leaked: set<nat>, handle: nat)
    requires Balanced(mounted, open, leaked) && handle in mounted
    ensures Balanced(mounted - {handle}, open - {mounted[handle]}, leaked)
  {
    var after := mounted - {handle};
    forall f | f in open - {mounted[handle]} && f !in leaked ensures HasHandle(after, f) {
      assert HasHandle(mounted, f);
      var h :| h in mounted && mounted[h] == f;
      assert after[h] == f;
    }
  }

  class MountManager {
    var mounted: map<nat, nat>        // handle to dirfd
    var open: set<nat>                // descriptors of volumes
    var attached: set<nat>            // targets attached under the mount root
    ghost var leaked: set<nat>

    ghost predicate Valid()
      reads this
    {
      Balanced(mounted, open, leaked)
    }

    constructor ()
      ensures Valid() && mounted == map[] && open == {} && attached == {} && leaked == {}
    {
      mounted, open, attached, leaked := map[], {}, {}, {};
    }

    method DetachTarget(target: nat, w: Calls) returns (call: Call)
      modifies this`attached
      ensures call == DetachCall(old(attached), target, w)
      ensures attached == if call.Works? then old(attached) - {target} else old(attached)
    {
      if !w.list.Works? { return w.list; }
      if target in attached {
        if !w.detach.Works? { return w.detach; }
        attached := attached - {target};
      }
      call := Works;
    }

    /** OSError is swallowed and left for the next start; anything else goes on. */
    method DiscardQuietly(target: nat, w: Calls, why: Refusal) returns (refused: Option<Refusal>)
      modifies this`attached
      ensures attached ==
              if DetachCall(old(attached), target, w).Works? then old(attached) - {target} else old(attached)
      ensures refused == Some(if DetachCall(old(attached), target, w).OtherError? then CleanupRaised else why)
    {
      var call := DetachTarget(target, w);
      refused := Some(if call.OtherError? then CleanupRaised else why);
    }

    /** Mounts the volume and detaches it again, keeping a descriptor of it. `verify`
        observes once more before the descriptor is given out. */
    method Mount(volume: Volume, claim: Expected, handle: nat, w: Calls, observer: Observer, key: string,
          later: seq<Volume>)
      returns (r: Outcome)
      requires Valid() && observer.Valid()
      requires handle !in mounted && handle !in attached && w.tree !in open && w.fd !in open && w.tree != w.fd
      modifies this, observer
      ensures Valid() && observer.Valid() && old(observer.log) <= observer.log
      // it succeeds exactly if every call works, the descriptor is pinned and the claimed volume is
      // seen again under the claimed stamp
      ensures r.Opened? <==>
                && Cloned(volume, claim, w) && DetachCall(old(attached) + Mounted(w, handle), handle, w).Works?
                && w.pin == Some(true)
                && Sees(observer.epoch, NextGeneration(old(observer.last), old(observer.generation), later), later, key, claim)
      // one registered descriptor, or none: except where the detaching raised something
      // other than OSError once there was a clone
      ensures r.Opened? ==>
                && r == Opened(handle, w.fd) && mounted == old(mounted)[handle := w.fd]
                && open == old(open) + {w.fd} && leaked == old(leaked)
      ensures r.Refused? ==>
                && mounted == old(mounted)
                && leaked == old(leaked) + (if r.why.DetachRaised? then {w.fd} else {})
                && open == old(open) + (if r.why.DetachRaised? then {w.fd} else {})
      ensures r == Refused(DetachRaised) <==> Cloned(volume, claim, w) && DetachCall(old(attached) + Mounted(w, handle), handle, w).OtherError?
      // the target is left attached only where the mount took and the detaching failed
      ensures attached == old(attached) + if Tried(volume, claim, w) && w.attached && !Detaches(w) then {handle} else {}
      ensures r.Opened? ==> w.attached ==> Detaches(w)
      ensures r.Opened? ==>
                && AllowedType(Some(claim.fsType)) && Matches(volume, claim)
                && observer.log == old(observer.log) + [Observation(MarksOf(later), observer.generation)]
                && observer.generation == claim.generation
                && Lists(later, key, claim)
    {
      hide Balanced, Orderly, Lists;
      ghost var before := open;
      var refused := Clone(volume, claim, handle, w);
      assert refused.Some? ==> open == before;
      if refused.Some? { return Refused(refused.value); }
      var call := DetachTarget(handle, w);
      if call.OtherError? {           // not caught: nobody closes the descriptor
        leaked := leaked + {w.fd};
        LeakBalances(mounted, before, old(leaked), w.fd);
        return Refused(DetachRaised);
      }
      if call.OsError? || w.pin != Some(true) {
        open := open - {w.fd};
        assert open == before;
        return Refused(if call.OsError? then DetachFailed else if w.pin.None? then PinRaised else NotPinned);
      }
      var same := SeenAgain(observer, claim, key, later);
      if !same {
        open := open - {w.fd};
        assert open == before;
        return Refused(Changed);
      }
      RegisterBalances(mounted, before, leaked, handle, w.fd);
      mounted := mounted[handle := w.fd];
      r := Opened(handle, w.fd);
    }

    /** Checks the request, mounts, and takes a descriptor of a clone of the mount. */
    method Clone(volume: Volume, claim: Expected, handle: nat, w: Calls) returns (refused: Option<Refusal>)
      requires handle !in attached && w.tree !in open && w.fd !in open && w.tree != w.fd
      modifies this`open, this`attached
      ensures refused.None? <==> Cloned(volume, claim, w)
      ensures refused.Some? ==> !refused.value.DetachRaised?
      ensures open == old(open) + if refused.None? then {w.fd} else {}
      ensures attached == old(attached) +
                if Tried(volume, claim, w) && w.attached && (refused.None? || !Detaches(w)) then {handle} else {}
    {
      if !AllowedType(Some(claim.fsType)) || !AllowedType(volume.fsType) { return Some(TypeNotAllowed); }
      if !Matches(volume, claim) { return Some(NotExpected); }
      if !w.mkdir.Works? { return Some(NoDirectory); }
      attached := attached + Mounted(w, handle);
      if !w.runner.Works? { refused := DiscardQuietly(handle, w, RunnerRaised); return; }
      if w.code != 0 { refused := DiscardQuietly(handle, w, MountFailed); return; }
      if !w.clone.Works? { refused := DiscardQuietly(handle, w, CloneRaised); return; }
      open := open + {w.tree};
      if !w.dirfd.Works? {
        refused := DiscardQuietly(handle, w, DirfdRaised);
        open := open - {w.tree};      // finally
        return;
      }
      open := open + {w.fd};
      open := open - {w.tree};
      refused := None;
    }

    method Release(handle: nat)
      requires Valid()
      modifies this`mounted, this`open
      ensures Valid() && mounted == old(mounted) - {handle}
      ensures open == old(open) - (if handle in old(mounted) then {old(mounted)[handle]} else {})
    {
      if handle in mounted {
        var fd := mounted[handle];
        ReleaseBalances(mounted, open, leaked, handle);
        mounted := mounted - {handle};
        open := open - {fd};
      }
    }

    method ReleaseAll()
      requires Valid()
      modifies this`mounted, this`open
      ensures Valid() && mounted == map[] && open == leaked
    {
      var handles := mounted.Keys;
      while handles != {}
        invariant Valid() && mounted.Keys == handles
        decreases handles
      {
        var h :| h in handles;
        handles := handles - {h};
        Release(h);
      }
    }

    /** At the start: whatever an earlier process left attached is detached, or nothing starts. */
    method ReapStale(targets: seq<nat>, list: Call, calls: map<nat, Call>) returns (ready: bool)
      requires list.Works? ==> (set t | t in targets) == attached && forall t :: t in targets ==> t in calls
      modifies this`attached
      ensures attached <= old(attached)
      ensures ready ==> attached == {}
      ensures !ready <==> !list.Works? || exists t :: t in targets && !calls[t].Works?
    {
      if !list.Works? { return false; }
      for i := 0 to |targets|
        invariant attached <= old(attached)
        invariant forall t :: t in old(attached) && t !in attached ==> t in targets[..i]
        invariant forall t :: t in targets[..i] ==> t !in attached && calls[t].Works?
      {
        if !calls[targets[i]].Works? { return false; }
        attached := attached - {targets[i]};
      }
      ready := true;
    }
  }

  function Mounted(w: Calls, handle: nat): set<nat> { if w.attached then {handle} else {} }

  function DetachCall(attached: set<nat>, target: nat, w: Calls): Call
  {
    if !w.list.Works? then w.list else if target in attached then w.detach else Works
  }

  predicate Detaches(w: Calls) { w.list.Works? && w.detach.Works? }

  /** The mount command was run. */
  predicate Tried(volume: Volume, claim: Expected, w: Calls)
  {
    AllowedType(Some(claim.fsType)) && AllowedType(volume.fsType) && Matches(volume, claim) && w.mkdir.Works?
  }

  /** ... and there is a descriptor of a clone. */
  predicate Cloned(volume: Volume, claim: Expected, w: Calls)
  {
    Tried(volume, claim, w) && w.runner.Works? && w.code == 0 && w.clone.Works? && w.dirfd.Works?
  }

  /** Everything works but the listing of the mounts, where a name does not decode. */
  const UNDECODABLE := Calls(Works, Works, 0, true, Works, Works, OtherError, Works, Some(true), 3, 4)

  const CARD := Volume("card", "/dev/sda1", 8, 1, Some("exfat"), None, 64, 1, 1)

  const CARD_CLAIM := Expected(8, 1, "exfat", None, 1, 1)

  lemma UndecodableRaises(handle: nat)
    ensures Cloned(CARD, CARD_CLAIM, UNDECODABLE)
    ensures DetachCall({handle}, handle, UNDECODABLE).OtherError?
  {
  }

  /** A request that leaves a descriptor open with nobody to close it. */
  method LosesDescriptor(later: seq<Volume>) returns (manager: MountManager, r: Outcome)
    ensures fresh(manager) && manager.Valid() && r == Refused(DetachRaised)
    ensures manager.mounted == map[] && manager.open == {4} && manager.leaked == {4} && manager.attached == {0}
  {
    manager := new MountManager();
    var observer := new Observer(1);
    UndecodableRaises(0);
    r := manager.Mount(CARD, CARD_CLAIM, 0, UNDECODABLE, observer, "card", later);
  }
}
