/** Recomputing the times of a profile's recordings, page by page, originals first. */
module Recompute {
  import opened Options
  import L = Ledger
  import opened Timestamps
  import opened CaptureZone

  /** What the original name, the EXIF data or the file time say; none when the name the
      file had on its card is no longer known. */
  datatype Reading = Reading(at: Aware, tz: Option<string>, how: nat)

  datatype Job = Job(profile: nat, revision: nat, definition: Definition, zones: string -> Zone,
      readings: nat -> Option<Reading>)

  predicate Matches(row: Row, job: Job, derived: bool) { row.profile == job.profile && row.derived == derived }

  /** `_write`: where times have no zone an override goes too. */
  function Rewritten(job: Job, row: Row, at: Stored, tz: Option<string>, how: nat): Row
  {
    row.(at := at, tz := tz, how := how, revision := job.revision,
        place := if job.definition.hasZone then row.place else None)
  }

  function OriginalValue(job: Job, row: Row, id: nat): Option<Row>
  {
    var reading := job.readings(id);
    if reading.None? then None
    else if job.definition.hasZone && row.place.Some? then
      Some(Rewritten(job, row, Written(FromInstant(job.zones(row.place.value), InstantOf(reading.value.at))),
          row.place, reading.value.how))
    else Some(Rewritten(job, row, Written(reading.value.at), reading.value.tz, reading.value.how))
  }

  /** Taken from the first active member, if that has been recomputed itself. */
  function DerivedValue(job: Job, files: Files, groups: seq<Group>, row: Row, id: nat): Option<Row>
  {
    var first := FirstMember(groups, id);
    if first.None? || first.value !in files || files[first.value].revision != job.revision then None
    else var f := files[first.value]; Some(Rewritten(job, row, f.at, f.tz, f.how))
  }

  function Value(job: Job, files: Files, groups: seq<Group>, id: nat): Option<Row>
    requires id in files
  {
    if files[id].derived then DerivedValue(job, files, groups, files[id], id) else OriginalValue(job, files[id], id)
  }

  /** The rows in `done` have been visited. */
  function Over(job: Job, files: Files, groups: seq<Group>, done: set<nat>): Files
  {
    map id | id in files ::
      if id in done && Value(job, files, groups, id).Some? then Value(job, files, groups, id).value else files[id]
  }

  function Rows(files: Files, job: Job, derived: bool): set<nat>
  {
    set id | id in files && Matches(files[id], job, derived)
  }

  /** A whole run. */
  function Recomputed(job: Job, files: Files, groups: seq<Group>): Files
  {
    var originals := Over(job, files, groups, Rows(files, job, false));
    Over(job, originals, groups, Rows(originals, job, true))
  }

  /** One transaction after the other: each computes the values of its rows from what the
      ones before have left. */
  function OverBatches(job: Job, files: Files, groups: seq<Group>, batches: seq<seq<nat>>): Files
    decreases |batches|
  {
    if batches == [] then files
    else Over(job, OverBatches(job, files, groups, batches[..|batches| - 1]), groups, AsSet(batches[|batches| - 1]))
  }

  function Flatten(batches: seq<seq<nat>>): seq<nat>
  {
    if batches == [] then [] else Flatten(batches[..|batches| - 1]) + batches[|batches| - 1]
  }

  predicate Apart(batches: seq<seq<nat>>)
  {
    forall i, j, x :: 0 <= i < j < |batches| && x in batches[i] ==> x !in batches[j]
  }

  predicate SameValue(a: Row, b: Row) { a.at == b.at && a.tz == b.tz && a.how == b.how }

  /** The files whose time is another one. */
  function MovedIn(files: Files, after: Files): set<nat>
  {
    set id | id in files && id in after && !SameValue(files[id], after[id])
  }

  // ----- batches

  lemma {:induction false} BatchKeys(job: Job, files: Files, groups: seq<Group>, batches: seq<seq<nat>>)
    ensures var after := OverBatches(job, files, groups, batches);
            && after.Keys == files.Keys
            && forall id :: id in files ==> after[id].derived == files[id].derived && after[id].profile == files[id].profile
    decreases |batches|
  {
    if batches != [] { BatchKeys(job, files, groups, batches[..|batches| - 1]); }
  }

  /** A row changes in the batches it is in, and no others. */
  lemma {:induction false} BatchUntouched(job: Job, files: Files, groups: seq<Group>, batches: seq<seq<nat>>, k: nat,
        id: nat)
    requires k <= |batches| && id in files && forall i :: k <= i < |batches| ==> id !in batches[i]
    ensures OverBatches(job, files, groups, batches).Keys == files.Keys
    ensures OverBatches(job, files, groups, batches[..k]).Keys == files.Keys
    ensures OverBatches(job, files, groups, batches)[id] == OverBatches(job, files, groups, batches[..k])[id]
    decreases |batches|
  {
    hide Value;
    BatchKeys(job, files, groups, batches);
    BatchKeys(job, files, groups, batches[..k]);
    if k < |batches| {
      var earlier, last := batches[..|batches| - 1], batches[|batches| - 1];
      assert earlier[..k] == batches[..k];
      BatchUntouched(job, files, groups, earlier, k, id);
    } else {
      assert batches[..k] == batches;
    }
  }

  /** What a visited row holds in the end was computed from what its batch found. */
  lemma BatchTakes(job: Job, files: Files, groups: seq<Group>, batches: seq<seq<nat>>, k: nat, id: nat)
    requires k < |batches| && Apart(batches) && id in batches[k] && id in files
    ensures var found := OverBatches(job, files, groups, batches[..k]);
            var after := OverBatches(job, files, groups, batches);
            && found.Keys == files.Keys && after.Keys == files.Keys && found[id] == files[id]
            && after[id] == if Value(job, found, groups, id).Some? then Value(job, found, groups, id).value else files[id]
  {
    hide Value;
    BatchKeys(job, files, groups, batches);
    assert batches[..k + 1][..k] == batches[..k] && batches[..k + 1][k] == batches[k];
    BatchUntouched(job, files, groups, batches, k + 1, id);
    assert batches[..k][..0] == [];
    BatchUntouched(job, files, groups, batches[..k], 0, id);
  }

  /** Whatever the groups: after a pass a visited merged file agrees with its first member
      exactly if the time it took there, or kept where the member was not of this revision,
      is the one the member has in the end. */
  lemma BatchAgreesIff(job: Job, files: Files, groups: seq<Group>, batches: seq<seq<nat>>, k: nat, o: nat)
    requires Sound(files, groups) && k < |batches| && Apart(batches)
    requires o in batches[k] && o in files && files[o].derived && FirstMember(groups, o).Some?
    ensures var f := FirstMember(groups, o).value;
            var found := OverBatches(job, files, groups, batches[..k]);
            var after := OverBatches(job, files, groups, batches);
            && f in found && f in after && o in after
            && (SameValue(after[o], after[f]) <==>
                  if found[f].revision == job.revision then SameValue(found[f], after[f]) else SameValue(files[o], after[f]))
            // and where the member is in no later batch, nor in the same, that is what was found
            && ((forall i :: k <= i < |batches| ==> f !in batches[i]) ==> after[f] == found[f])
  {
    hide Sound, Apart;
    MakersAreThere(files, groups, o);
    BatchTakes(job, files, groups, batches, k, o);
    var f := FirstMember(groups, o).value;
    if forall i :: k <= i < |batches| ==> f !in batches[i] { BatchUntouched(job, files, groups, batches, k, f); }
  }

  /** In one go or in batches: the same, for recordings, and for merged files that begin with
      a recording. */
  lemma {:induction false} BatchesAreOver(job: Job, files: Files, groups: seq<Group>, batches: seq<seq<nat>>, derived: bool)
    requires Sound(files, groups) && (derived ==> Led(files, groups)) && Apart(batches)
    requires AsSet(Flatten(batches)) <= Rows(files, job, derived)
    ensures OverBatches(job, files, groups, batches) == Over(job, files, groups, AsSet(Flatten(batches)))
    decreases |batches|
  {
    hide Value, Sound, Led;
    if batches == [] {
      assert AsSet(Flatten(batches)) == {};
      NothingDone(job, files, groups);
    } else {
      var earlier, last := batches[..|batches| - 1], batches[|batches| - 1];
      FlattenLast(batches);
      BatchesAreOver(job, files, groups, earlier, derived);
      FlattenApart(batches);
      TwoBatches(job, files, groups, AsSet(Flatten(earlier)), AsSet(last), derived);
    }
  }

  lemma FlattenLast(batches: seq<seq<nat>>)
    requires batches != []
    ensures AsSet(Flatten(batches)) == AsSet(Flatten(batches[..|batches| - 1])) + AsSet(batches[|batches| - 1])
  {
  }

  lemma {:induction false} FlattenHas(batches: seq<seq<nat>>, x: nat)
    requires x in Flatten(batches)
    ensures exists i :: 0 <= i < |batches| && x in batches[i]
    decreases |batches|
  {
    if x !in batches[|batches| - 1] {
      var earlier := batches[..|batches| - 1];
      FlattenHas(earlier, x);
      var i :| 0 <= i < |earlier| && x in earlier[i];
      assert x in batches[i];
    }
  }

  lemma FlattenApart(batches: seq<seq<nat>>)
    requires batches != [] && Apart(batches)
    ensures Apart(batches[..|batches| - 1])
    ensures AsSet(Flatten(batches[..|batches| - 1])) !! AsSet(batches[|batches| - 1])
  {
    var earlier := batches[..|batches| - 1];
    forall x | x in Flatten(earlier) ensures x !in batches[|batches| - 1] {
      FlattenHas(earlier, x);
      var i :| 0 <= i < |earlier| && x in earlier[i];
      assert x in batches[i];
    }
  }

  lemma TwoBatches(job: Job, files: Files, groups: seq<Group>, done: set<nat>, more: set<nat>, derived: bool)
    requires Sound(files, groups) && (derived ==> Led(files, groups))
    requires done + more <= Rows(files, job, derived) && done !! more
    ensures Over(job, Over(job, files, groups, done), groups, more) == Over(job, files, groups, done + more)
  {
    var so := Over(job, files, groups, done);
    forall id | id in files
      ensures Over(job, so, groups, more)[id] == Over(job, files, groups, done + more)[id]
    {
      if id in more { ValueStays(job, files, groups, done, derived, id); }
    }
  }

  // ----- what a run is for

  /** Visiting some rows does not change what another will get: an original is computed
      on its own, and a merged file from the original it begins with. */
  lemma ValueStays(job: Job, files: Files, groups: seq<Group>, done: set<nat>, derived: bool, id: nat)
    requires Sound(files, groups) && (derived ==> Led(files, groups)) && done <= Rows(files, job, derived)
    requires id in Rows(files, job, derived) && id !in done
    ensures Over(job, files, groups, done)[id] == files[id]
    ensures Value(job, Over(job, files, groups, done), groups, id) == Value(job, files, groups, id)
  {
    if derived && FirstMember(groups, id).Some? {
      FirstIsNoOutput(files, groups, id);
      FirstIsSettled(files, groups, job, done, id);
    }
  }

  /** The first member is a recording, so a pass over merged files leaves it. */
  lemma FirstIsSettled(files: Files, groups: seq<Group>, job: Job, done: set<nat>, id: nat)
    requires Sound(files, groups) && Led(files, groups) && FirstMember(groups, id).Some?
    requires done <= Rows(files, job, true)
    ensures FirstMember(groups, id).value in files
    ensures Over(job, files, groups, done)[FirstMember(groups, id).value] == files[FirstMember(groups, id).value]
  {
    FirstIsNoOutput(files, groups, id);
  }

  /** What is no output is done with after the first pass. */
  lemma NoOutputSettled(job: Job, files: Files, groups: seq<Group>, id: nat)
    requires id in files && FirstMember(groups, id).None?
    ensures var middle := Over(job, files, groups, Rows(files, job, false)); var after := Recomputed(job, files, groups);
            id in middle && id in after && after[id] == middle[id]
    ensures var after := Recomputed(job, files, groups);
            id in Recomputed(job, after, groups) && Recomputed(job, after, groups)[id] == after[id]
  {
  }

  /** After a finished run every merged file of the profile shows the time of its first
      recording exactly if that was recomputed under the revision, or shows the time the
      merged file had anyway. */
  lemma RunAgreesIff(job: Job, files: Files, groups: seq<Group>, o: nat)
    requires Sound(files, groups) && Led(files, groups)
    requires o in Rows(files, job, true) && FirstMember(groups, o).Some?
    ensures var after := Recomputed(job, files, groups); var f := FirstMember(groups, o).value;
            && o in after && f in after
            && (SameValue(after[o], after[f]) <==>
                  after[f].revision == job.revision || SameValue(files[o], after[f]))
  {
    FirstIsNoOutput(files, groups, o);
    var f := FirstMember(groups, o).value;
    NoOutputSettled(job, files, groups, f);
    DerivedIs(job, files, groups, o);
    hide Recomputed, Sound, Led;
  }

  /** What a merged file takes depends on its first recording alone, as the run leaves it. */
  lemma DerivedIs(job: Job, files: Files, groups: seq<Group>, id: nat)
    requires Sound(files, groups) && Led(files, groups) && id in files && files[id].derived
    ensures var once := Recomputed(job, files, groups);
            && id in once
            && once[id] == if !Matches(files[id], job, true) then files[id]
                           else
                             var v := DerivedValue(job, once, groups, files[id], id);
                             if v.Some? then v.value else files[id]
  {
    if FirstMember(groups, id).Some? {
      FirstIsNoOutput(files, groups, id);
      NoOutputSettled(job, files, groups, FirstMember(groups, id).value);
    }
  }

  predicate AllInherited(files: Files, groups: seq<Group>)
  {
    forall o :: o in files && FirstMember(groups, o).Some? ==>
      FirstMember(groups, o).value in files && SameValue(files[o], files[FirstMember(groups, o).value])
  }

  /** Where all of them agreed all of them still do: recordings that could not be recomputed
      keep their time, and so do the files made of them. */
  lemma RunKeepsInherited(job: Job, files: Files, groups: seq<Group>)
    requires Sound(files, groups) && Led(files, groups) && AllInherited(files, groups)
    ensures AllInherited(Recomputed(job, files, groups), groups)
  {
    hide Recomputed, Sound, Led;
    var after := Recomputed(job, files, groups);
    RecomputedKeys(job, files, groups);
    forall o | o in after && FirstMember(groups, o).Some?
      ensures FirstMember(groups, o).value in after && SameValue(after[o], after[FirstMember(groups, o).value])
    {
      FirstIsNoOutput(files, groups, o);
      OutputIsDerived(files, groups, o);
      OtherProfile(job, files, groups, FirstMember(groups, o).value);
      DerivedIs(job, files, groups, o);
    }
  }

  lemma OutputIsDerived(files: Files, groups: seq<Group>, o: nat)
    requires Sound(files, groups) && FirstMember(groups, o).Some?
    ensures o in files && files[o].derived
  {
    FirstMemberIs(groups, o);
  }

  /** A recording that is not visited stays, and one that is was recomputed or stays. */
  lemma OtherProfile(job: Job, files: Files, groups: seq<Group>, f: nat)
    requires f in files && !files[f].derived
    ensures var after := Recomputed(job, files, groups);
            && f in after
            && (after[f] == files[f] || (files[f].profile == job.profile && after[f].revision == job.revision))
  {
  }

  lemma RecomputedKeys(job: Job, files: Files, groups: seq<Group>)
    ensures Recomputed(job, files, groups).Keys == files.Keys
  {
  }

  /** A second run changes no file. */
  lemma RunTwiceIsOnce(job: Job, files: Files, groups: seq<Group>)
    requires Sound(files, groups) && Led(files, groups)
    ensures Recomputed(job, Recomputed(job, files, groups), groups) == Recomputed(job, files, groups)
  {
    var once := Recomputed(job, files, groups);
    SameKinds(job, files, groups);
    forall id | id in files ensures id in Recomputed(job, once, groups) && Recomputed(job, once, groups)[id] == once[id] {
      if FirstMember(groups, id).None? {
        NoOutputSettled(job, files, groups, id);
      } else {
        OutputIsDerived(files, groups, id);
        DerivedTwice(job, files, groups, id);
      }
    }
    hide Recomputed;
    RecomputedKeys(job, files, groups);
    RecomputedKeys(job, once, groups);
  }

  lemma SameKinds(job: Job, files: Files, groups: seq<Group>)
    ensures Recomputed(job, files, groups).Keys == files.Keys
    ensures forall id :: id in files ==>
              Recomputed(job, files, groups)[id].derived == files[id].derived
                  && Recomputed(job, files, groups)[id].profile == files[id].profile
  {
  }

  lemma DerivedTwice(job: Job, files: Files, groups: seq<Group>, id: nat)
    requires Sound(files, groups) && Led(files, groups) && id in files && files[id].derived
    ensures var once := Recomputed(job, files, groups);
            id in once && id in Recomputed(job, once, groups) && Recomputed(job, once, groups)[id] == once[id]
  {
    var once := Recomputed(job, files, groups);
    SameKinds(job, files, groups);
    hide Recomputed;
    StillSound(files, once, groups);
    DerivedIs(job, files, groups, id);
    DerivedIs(job, once, groups, id);
    if FirstMember(groups, id).Some? {
      FirstIsNoOutput(files, groups, id);
      NoOutputSettled(job, files, groups, FirstMember(groups, id).value);
    }
    hide Sound, Led;
  }

  /** ... and no upload record: nothing is sent again, no stack is considered again. */
  lemma SecondRunLeavesRecords(job: Job, first: Files, groups: seq<Group>, before: map<nat, L.Record>,
        after: map<nat, L.Record>)
    requires Sound(first, groups) && Led(first, groups)
    requires var once := Recomputed(job, first, groups);
             OnlyReopened(before, after, MovedIn(once, Recomputed(job, once, groups)))
    ensures after == before
  {
    RunTwiceIsOnce(job, first, groups);
    var once := Recomputed(job, first, groups);
    assert MovedIn(once, once) == {};
  }

  // ----- a request between the reading of a recording and its writing

  /** The value was computed from the row as it was read; `_write` leaves the override alone
      that is recorded by then. */
  function Overwritten(job: Job, seen: Row, now: Row, id: nat): Row
    requires OriginalValue(job, seen, id).Some?
  {
    var v := OriginalValue(job, seen, id).value;
    Rewritten(job, now, v.at, v.tz, v.how)
  }

  /** The clock of the place shows what the camera's clock shows. */
  predicate SameClock(job: Job, reading: Reading, place: Option<string>)
  {
    place.Some? ==>
      && reading.tz == place
      && Written(FromInstant(job.zones(place.value), InstantOf(reading.at))) == Written(reading.at)
  }

  /** A request that moves no time gets through while a recomputation runs: it only records
      another place. A recording that was read before then shows the clock of the recorded
      place exactly if the place is the same as before, or both agree with the camera's clock,
      or the new definition has no zones. The next run puts it right in any case. */
  lemma StaleReadIff(s: Setting, job: Job, seen: Row, zone: Option<string>, id: nat)
    requires !seen.derived && Turnable(s, seen, zone) && !Moves(seen, Turned(s, seen, zone))
    requires OriginalValue(job, seen, id).Some?
    ensures var now := Turned(s, seen, zone); var left := Overwritten(job, seen, now, id);
            && now == seen.(place := zone) && OriginalValue(job, now, id).Some? && job.readings(id).Some?
            && (SameTime(left, OriginalValue(job, now, id).value) <==>
                  || !job.definition.hasZone || seen.place == zone
                  || (seen.place.None? && SameClock(job, job.readings(id).value, zone))
                  || (zone.None? && SameClock(job, job.readings(id).value, seen.place)))
            && OriginalValue(job, left, id) == OriginalValue(job, now, id)
  {
  }

  /** The clock of the profile is corrected from A to B; while that is recomputed somebody
      records A as the place. The recording ends up on the clock of B, with A recorded. */
  lemma StaleReadHappens(job: Job)
    requires job.definition.hasZone && job.readings(0) == Some(Reading(Aware(HOUR, false, Fixed(HOUR)), Some("B"), 0))
    ensures var seen := Row(false, 0, Stored(0, 0), Some("A"), 0, None, 0); var now := seen.(place := Some("A"));
            && Turnable(TwoClocks(), seen, Some("A")) && Turned(TwoClocks(), seen, Some("A")) == now
            && Overwritten(job, seen, now, 0).tz == Some("B") && Overwritten(job, seen, now, 0).place == Some("A")
            && !SameTime(Overwritten(job, seen, now, 0), OriginalValue(job, now, 0).value)
  {
    hide TwoClocks, Turned, Turnable, Overwritten, OriginalValue, SameTime;
    var seen := Row(false, 0, Stored(0, 0), Some("A"), 0, None, 0);
    RecordsPlace(seen);
    assert "B"[0] != "A"[0];
    OldClockStays(job, seen, "B", "A");
  }

  lemma OldClockStays(job: Job, seen: Row, clock: string, place: string)
    requires job.definition.hasZone && seen.place.None? && clock != place
    requires job.readings(0).Some? && job.readings(0).value.tz == Some(clock)
    ensures var now := seen.(place := Some(place));
            && OriginalValue(job, seen, 0).Some? && OriginalValue(job, now, 0).Some?
            && Overwritten(job, seen, now, 0).tz == Some(clock) && Overwritten(job, seen, now, 0).place == Some(place)
            && !SameTime(Overwritten(job, seen, now, 0), OriginalValue(job, now, 0).value)
  {
  }

  lemma ClockA()
    ensures TwoClocks().zones("A") == Fixed(0) && FromInstant(Fixed(0), 0) == Aware(0, false, Fixed(0))
  {
  }

  lemma RecordsPlace(row: Row)
    requires row.at == Stored(0, 0) && row.tz == Some("A")
    ensures Turnable(TwoClocks(), row, Some("A")) && Turned(TwoClocks(), row, Some("A")) == row.(place := Some("A"))
  {
    ClockA();
    PlaceIsUsable(row);
    hide TwoClocks, FromInstant;
  }

  lemma PlaceIsUsable(row: Row)
    ensures Turnable(TwoClocks(), row, Some("A")) && Target(TwoClocks(), row, Some("A")) == Some("A")
  {
  }

  // ----- the run itself

  class Recomputer {
    var files: Files
    var groups: seq<Group>
    var records: map<nat, L.Record>

    constructor (files: Files, groups: seq<Group>, records: map<nat, L.Record>)
      ensures this.files == files && this.groups == groups && this.records == records
    {
      this.files, this.groups, this.records := files, groups, records;
    }

    /** One page: the first rows past the cursor, in order. Identifiers stand for paths,
        by which rows are ordered and which never change. */
    method Fetch(job: Job, derived: bool, cursor: int, limit: nat) returns (page: seq<nat>)
      requires 0 < limit
      ensures |page| <= limit
      ensures forall i, j :: 0 <= i < j < |page| ==> page[i] < page[j]
      ensures forall id :: id in page ==> cursor < id && id in Rows(files, job, derived)
      ensures forall id :: id in Rows(files, job, derived) && cursor < id && id !in page ==>
                |page| == limit && page[|page| - 1] < id
    {
      hide Rows;
      var rest := set id | id in Rows(files, job, derived) && cursor < id;
      page := [];
      while rest != {} && |page| < limit
        invariant |page| <= limit
        invariant forall i, j :: 0 <= i < j < |page| ==> page[i] < page[j]
        invariant forall id :: id in page ==> cursor < id && id in Rows(files, job, derived)
        invariant forall id :: id in Rows(files, job, derived) && cursor < id ==> id in page || id in rest
        invariant forall id :: id in rest ==> id in Rows(files, job, derived) && cursor < id && (page != [] ==>
            page[|page| - 1] < id)
        decreases rest
      {
        var least := Smallest(rest);
        page := page + [least];
        rest := rest - {least};
      }
    }

    /** Visits every row of the kind once, in order, until there are no more or the job is
        stopped, which is after `pages` pages. A page past the rows is what tells that there are
        no more. */
    method Pass(job: Job, derived: bool, limit: nat, pages: nat)
      returns (finished: bool, visited: seq<nat>, ghost batches: seq<seq<nat>>)
      requires 0 < limit && Sound(files, groups)
      modifies this`files, this`records
      ensures Sound(files, groups)
      ensures forall i, j :: 0 <= i < j < |visited| ==> visited[i] < visited[j]
      ensures AsSet(visited) <= Rows(old(files), job, derived)
      ensures finished <==> |Rows(old(files), job, derived)| <= (pages - 1) * limit
      ensures finished ==> AsSet(visited) == Rows(old(files), job, derived)
      ensures visited == Flatten(batches) && Apart(batches) && (forall k :: 0 <= k < |batches| ==> |batches[k]| <= limit)
      ensures files == OverBatches(job, old(files), groups, batches)
      ensures !derived || Led(old(files), groups) ==> files == Over(job, old(files), groups, AsSet(visited))
      ensures OnlyReopened(old(records), records, MovedIn(old(files), files))
    {
      hide OnlyReopened, Over, Sound, Led, OverBatches, Flatten, Apart, MovedIn, Rows, Filled;
      ghost var was, before := files, records;
      var cursor: int, page: nat := -1, 0;
      visited, batches := [], [];
      NoBatches(job, files, groups);
      OnlyReopenedAtFirst(before);
      NoneVisited(was, job, derived);
      FilledAtFirst(limit, Beyond(was, job, derived, cursor));
      while true
        invariant -1 <= cursor
        invariant page <= pages && Filled(|visited|, page, limit, Beyond(was, job, derived, cursor))
        invariant Visited(was, job, derived, visited, cursor)
        invariant visited == Flatten(batches) && Apart(batches) && forall k :: 0 <= k < |batches| ==> |batches[k]| <= limit
        invariant SameRows(was, files) && Sound(files, groups)
        invariant files == OverBatches(job, was, groups, batches)
        invariant OnlyReopened(before, records, MovedIn(was, files))
        decreases |Beyond(was, job, derived, cursor)|
      {
        StopsIff(was, job, derived, visited, cursor, page, pages, limit);
        if page == pages {                              // cancelled, or the lease is lost
          PassEnds(job, was, groups, batches, visited, cursor, derived);
          return false, visited, batches;
        }
        page := page + 1;
        var batch := Fetch(job, derived, cursor, limit);
        SameFetch(was, files, job, derived);
        FilledNext(was, job, derived, visited, cursor, batch, page - 1, limit);
        if batch == [] { break; }
        ghost var so, last, reopened := files, cursor, records;
        VisitedNext(was, job, derived, visited, batch, cursor);
        NextBatch(batches, batch, visited, cursor);
        ApplyBatch(job, derived, batch);
        MovedTogether(job, was, so, groups, visited, batch, derived, batches);
        ReopenedTogether(before, reopened, records, MovedIn(was, so), MovedIn(so, files));
        AppendBatch(job, was, groups, batches, batch);
        visited, batches := visited + batch, batches + [batch];
        cursor := batch[|batch| - 1];
        LessBeyond(was, job, derived, last, cursor);
      }
      PassEnds(job, was, groups, batches, visited, cursor, derived);
      finished := true;
    }

    /** One transaction. The values of all its rows are computed first, then written. */
    method ApplyBatch(job: Job, derived: bool, batch: seq<nat>)
      requires Sound(files, groups) && AsSet(batch) <= Rows(files, job, derived)
      requires forall i, j :: 0 <= i < j < |batch| ==> batch[i] != batch[j]
      modifies this`files, this`records
      ensures Sound(files, groups) && SameRows(old(files), files)
      ensures files == Over(job, old(files), groups, AsSet(batch))
      ensures OnlyReopened(old(records), records, MovedIn(old(files), files))
    {
      hide OnlyReopened, Over, Sound, Value, MovedIn, Rows, AfterMove;
      ghost var was, before := files, records;
      var values: seq<Option<Row>> := [];
      RowsAreThere(files, job, derived, batch);
      for i := 0 to |batch|
        invariant files == was && records == before
        invariant |values| == i && forall k :: 0 <= k < i ==> values[k] == Value(job, was, groups, batch[k])
      {
        values := values + [Value(job, files, groups, batch[i])];
      }
      assert AsSet(batch[..0]) == {};
      NothingDone(job, files, groups);
      OnlyReopenedAtFirst(before);
      NoneMoved(files);
      for i := 0 to |batch|
        invariant files == Over(job, was, groups, AsSet(batch[..i])) && SameRows(was, files)
        invariant OnlyReopened(before, records, MovedIn(was, files))
      {
        var id := batch[i];
        ghost var so, reopened := files, records;
        assert batch[..i + 1] == batch[..i] + [id];
        assert AsSet(batch[..i + 1]) == AsSet(batch[..i]) + {id} && id !in AsSet(batch[..i]);
        WriteNext(job, was, groups, AsSet(batch[..i]), id);
        if values[i].Some? {
          if !SameValue(files[id], values[i].value) {
            AfterMoveReopens(before, records, MovedIn(was, so), id, job.definition.fixesRemote);
            records := AfterMove(records, id, job.definition.fixesRemote);
          }
          files := files[id := values[i].value];
        }
        MovedOne(job, was, groups, so, files, id, values[i]);
      }
      assert batch[..|batch|] == batch;
      SameRowsSound(was, files, groups);
    }

    /** Originals first, and merged files only when all of them are done. */
    method Run(job: Job, limit: nat, pages: nat, morePages: nat)
      returns (finished: bool, ghost batches: seq<seq<nat>>)
      requires 0 < limit && Sound(files, groups)
      modifies this`files, this`records
      ensures Sound(files, groups)
      ensures OnlyReopened(old(records), records, MovedIn(old(files), files))
      // it gets through exactly if it is not stopped before the page past the rows, in both passes
      ensures finished <==>
                && |Rows(old(files), job, false)| <= (pages - 1) * limit
                && |Rows(old(files), job, true)| <= (morePages - 1) * limit
      // in any case: recordings in one go, then the merged files batch by batch
      ensures finished ==>
                && Apart(batches) && (forall k :: 0 <= k < |batches| ==> |batches[k]| <= limit)
                && AsSet(Flatten(batches)) == Rows(old(files), job, true)
                && files == OverBatches(job, Over(job, old(files), groups, Rows(old(files), job, false)), groups, batches)
      ensures finished && Led(old(files), groups) ==> files == Recomputed(job, old(files), groups)
      // every merged file with a first recording of this revision shows its time
      ensures finished && Led(old(files), groups) ==>
                forall o :: o in Rows(old(files), job, true) && FirstMember(groups, o).Some? ==>
                  && o in files && FirstMember(groups, o).value in files
                  && (files[FirstMember(groups, o).value].revision == job.revision ==>
                        SameValue(files[o], files[FirstMember(groups, o).value]))
      ensures finished && Led(old(files), groups) && AllInherited(old(files), groups) ==>
          AllInherited(files, groups)
    {
      hide Over, Sound, Led, AllInherited, OnlyReopened, MovedIn, OverBatches, Rows, FirstMember;
      ghost var was, before := files, records;
      var visited;
      finished, visited, batches := Pass(job, false, limit, pages);
      if finished {
        ghost var middle, reopened := files, records;
        KindsStay(job, was, middle, groups, visited);
        finished, visited, batches := Pass(job, true, limit, morePages);
        TwoPasses(job, was, middle, files, groups, AsSet(visited), batches);
        ReopenedTogether(before, reopened, records, MovedIn(was, middle), MovedIn(middle, files));
        if finished && Led(was, groups) {
          assert files == Recomputed(job, was, groups);
          forall o | o in Rows(was, job, true) && FirstMember(groups, o).Some?
            ensures o in files && FirstMember(groups, o).value in files
            ensures files[FirstMember(groups, o).value].revision == job.revision ==>
                      SameValue(files[o], files[FirstMember(groups, o).value])
          {
            RunAgreesIff(job, was, groups, o);
          }
          if AllInherited(was, groups) { RunKeepsInherited(job, was, groups); }
        }
      }
    }
  }

  // ----- steps of a pass

  /** The same rows, of the same kinds. */
  predicate SameRows(files: Files, after: Files)
  {
    && after.Keys == files.Keys
    && forall id :: id in files ==> after[id].derived == files[id].derived && after[id].profile == files[id].profile
  }

  predicate Visited(files: Files, job: Job, derived: bool, visited: seq<nat>, cursor: int)
  {
    && (forall i, j :: 0 <= i < j < |visited| ==> visited[i] < visited[j])
    && (forall id :: id in visited ==> id <= cursor && id in Rows(files, job, derived))
    && (forall id :: id in Rows(files, job, derived) && id <= cursor ==> id in visited)
  }

  lemma NoneVisited(files: Files, job: Job, derived: bool)
    ensures Visited(files, job, derived, [], -1)
    ensures MovedIn(files, files) == {}
  {
  }

  lemma NoneMoved(files: Files)
    ensures MovedIn(files, files) == {}
  {
  }

  lemma NoBatches(job: Job, files: Files, groups: seq<Group>)
    ensures OverBatches(job, files, groups, []) == files && Flatten([]) == [] && Apart([])
  {
  }

  lemma AppendBatch(job: Job, files: Files, groups: seq<Group>, batches: seq<seq<nat>>, batch: seq<nat>)
    ensures OverBatches(job, files, groups, batches + [batch])
            == Over(job, OverBatches(job, files, groups, batches), groups, AsSet(batch))
    ensures Flatten(batches + [batch]) == Flatten(batches) + batch
  {
    assert (batches + [batch])[..|batches|] == batches;
  }

  lemma SameFetch(was: Files, files: Files, job: Job, derived: bool)
    requires SameRows(was, files)
    ensures Rows(files, job, derived) == Rows(was, job, derived)
  {
  }

  lemma RowsAreThere(files: Files, job: Job, derived: bool, batch: seq<nat>)
    requires AsSet(batch) <= Rows(files, job, derived)
    ensures forall k :: 0 <= k < |batch| ==> batch[k] in files
  {
    forall k | 0 <= k < |batch| ensures batch[k] in files {
      assert batch[k] in AsSet(batch);
    }
  }

  lemma SameRowsSound(files: Files, after: Files, groups: seq<Group>)
    requires Sound(files, groups) && SameRows(files, after)
    ensures Sound(after, groups)
  {
    StillSound(files, after, groups);
  }

  lemma VisitedNext(files: Files, job: Job, derived: bool, visited: seq<nat>, batch: seq<nat>, cursor: int)
    requires Visited(files, job, derived, visited, cursor) && batch != []
    requires forall i, j :: 0 <= i < j < |batch| ==> batch[i] < batch[j]
    requires forall id :: id in batch ==> cursor < id && id in Rows(files, job, derived)
    requires forall id :: id in Rows(files, job, derived) && cursor < id && id !in batch ==> batch[|batch| - 1] < id
    ensures Visited(files, job, derived, visited + batch, batch[|batch| - 1])
    ensures cursor < batch[|batch| - 1] && AsSet(batch) <= Rows(files, job, derived)
  {
    hide Rows;
    InOrder(visited, batch, cursor);
    var all, last := visited + batch, batch[|batch| - 1];
    assert last in batch;
    forall id | id in batch ensures id <= last {
      var i :| 0 <= i < |batch| && batch[i] == id;
      if i < |batch| - 1 { assert batch[i] < batch[|batch| - 1]; }
    }
    forall id | id in all ensures id <= last && id in Rows(files, job, derived) {
      assert id in visited || id in batch;
    }
  }

  /** A batch past the cursor shares nothing with those before. */
  lemma NextBatch(batches: seq<seq<nat>>, batch: seq<nat>, visited: seq<nat>, cursor: int)
    requires visited == Flatten(batches) && Apart(batches)
    requires forall id :: id in visited ==> id <= cursor
    requires forall id :: id in batch ==> cursor < id
    ensures Apart(batches + [batch])
  {
    var all := batches + [batch];
    forall i, j, x | 0 <= i < j < |all| && x in all[i] ensures x !in all[j] {
      if j == |batches| { FlattenAll(batches, i, x); }
    }
  }

  lemma {:induction false} FlattenAll(batches: seq<seq<nat>>, i: nat, x: nat)
    requires i < |batches| && x in batches[i]
    ensures x in Flatten(batches)
    decreases |batches|
  {
    if i < |batches| - 1 { FlattenAll(batches[..|batches| - 1], i, x); }
  }

  lemma PassEnds(job: Job, files: Files, groups: seq<Group>, batches: seq<seq<nat>>, visited: seq<nat>, cursor: int,
        derived: bool)
    requires Sound(files, groups) && Visited(files, job, derived, visited, cursor)
    requires visited == Flatten(batches) && Apart(batches)
    ensures AsSet(visited) <= Rows(files, job, derived)
    ensures (forall id :: id in Rows(files, job, derived) ==> id <= cursor) ==> AsSet(visited) == Rows(files, job, derived)
    ensures !derived || Led(files, groups) ==>
              OverBatches(job, files, groups, batches) == Over(job, files, groups, AsSet(visited))
  {
    hide Sound, Led, Over, OverBatches, Flatten, Apart, Rows;
    if !derived || Led(files, groups) { BatchesAreOver(job, files, groups, batches, derived); }
  }

  /** Each row moves once: what moved so far and what moves now make up what moved in all. */
  lemma MovedTogether(job: Job, was: Files, so: Files, groups: seq<Group>, visited: seq<nat>, batch: seq<nat>, derived: bool,
        batches: seq<seq<nat>>)
    requires so == OverBatches(job, was, groups, batches) && visited == Flatten(batches) && Apart(batches + [batch])
    ensures var after := Over(job, so, groups, AsSet(batch)); MovedIn(was, after) == MovedIn(was, so) + MovedIn(so, after)
  {
    hide Value;
    BatchKeys(job, was, groups, batches);
    var after := Over(job, so, groups, AsSet(batch));
    forall id | id in was ensures so[id] == was[id] || after[id] == so[id] {
      if id in AsSet(batch) {
        NotBefore(batches, batch, id);
        assert batches[..0] == [];
        BatchUntouched(job, was, groups, batches, 0, id);
      }
    }
  }

  lemma NotBefore(batches: seq<seq<nat>>, batch: seq<nat>, id: nat)
    requires Apart(batches + [batch]) && id in batch
    ensures forall i :: 0 <= i < |batches| ==> id !in batches[i]
  {
    var all := batches + [batch];
    forall i | 0 <= i < |batches| ensures id !in batches[i] {
      assert all[i] == batches[i] && all[|batches|] == batch;
    }
  }

  lemma WriteNext(job: Job, files: Files, groups: seq<Group>, done: set<nat>, id: nat)
    requires id in files && id !in done
    ensures var so := Over(job, files, groups, done); var value := Value(job, files, groups, id);
            && id in so && so[id] == files[id]
            && Over(job, files, groups, done + {id}) == if value.Some? then so[id := value.value] else so
  {
    hide Value;
  }

  lemma MovedOne(job: Job, was: Files, groups: seq<Group>, so: Files, after: Files, id: nat, value: Option<Row>)
    requires id in was && SameRows(was, so) && so[id] == was[id] && value == Value(job, was, groups, id)
    requires after == if value.Some? then so[id := value.value] else so
    ensures SameRows(was, after)
    ensures MovedIn(was, after) ==
              if value.Some? && !SameValue(was[id], value.value) then MovedIn(was, so) + {id} else MovedIn(was, so)
  {
    if value.Some? { ValueIs(job, was, groups, id); }
    hide Value;
  }

  lemma KindsStay(job: Job, was: Files, middle: Files, groups: seq<Group>, visited: seq<nat>)
    requires middle == Over(job, was, groups, AsSet(visited))
    ensures Rows(middle, job, true) == Rows(was, job, true)
    ensures Led(was, groups) ==> Led(middle, groups)
  {
  }

  /** The two passes move rows of different kinds. */
  lemma TwoPasses(job: Job, was: Files, middle: Files, after: Files, groups: seq<Group>, visited: set<nat>,
        batches: seq<seq<nat>>)
    requires middle == Over(job, was, groups, Rows(was, job, false))
    requires after == OverBatches(job, middle, groups, batches) && visited == AsSet(Flatten(batches))
    requires visited <= Rows(middle, job, true)
    ensures MovedIn(was, after) == MovedIn(was, middle) + MovedIn(middle, after)
  {
    BatchKeys(job, middle, groups, batches);
    forall id | id in was ensures middle[id] == was[id] || after[id] == middle[id] {
      if id !in visited {
        NotVisited(batches, id);
        assert batches[..0] == [];
        BatchUntouched(job, middle, groups, batches, 0, id);
      }
    }
  }

  lemma NotVisited(batches: seq<seq<nat>>, id: nat)
    requires id !in AsSet(Flatten(batches))
    ensures forall i :: 0 <= i < |batches| ==> id !in batches[i]
  {
    forall i | 0 <= i < |batches| && id in batches[i] ensures false {
      FlattenAll(batches, i, id);
    }
  }

  lemma InOrder(visited: seq<nat>, batch: seq<nat>, cursor: int)
    requires forall i, j :: 0 <= i < j < |visited| ==> visited[i] < visited[j]
    requires forall i, j :: 0 <= i < j < |batch| ==> batch[i] < batch[j]
    requires forall id :: id in visited ==> id <= cursor
    requires forall id :: id in batch ==> cursor < id
    ensures var all := visited + batch; forall i, j :: 0 <= i < j < |all| ==> all[i] < all[j]
  {
    var all := visited + batch;
    forall i, j | 0 <= i < j < |all| ensures all[i] < all[j] {
      if i < |visited| <= j {
        assert visited[i] in visited && batch[j - |visited|] in batch;
      }
    }
  }

  method Smallest(ids: set<nat>) returns (least: nat)
    requires ids != {}
    ensures least in ids && forall id :: id in ids ==> least <= id
  {
    ghost var some :| some in ids;
    LeastExists(ids, some);
    least :| least in ids && forall id :: id in ids ==> least <= id;
  }

  lemma {:induction false} LeastExists(ids: set<nat>, x: nat)
    requires x in ids
    ensures exists least :: least in ids && forall id :: id in ids ==> least <= id
    decreases x
  {
    if y :| y in ids && y < x { LeastExists(ids, y); }
  }

  lemma VisitedAll(files: Files, job: Job, derived: bool, visited: seq<nat>, cursor: int)
    requires Visited(files, job, derived, visited, cursor)
    ensures |visited| <= |Rows(files, job, derived)|
    ensures Beyond(files, job, derived, cursor) == {} ==> |visited| == |Rows(files, job, derived)|
  {
    hide Rows;
    DistinctSize(visited);
    SmallerSet(AsSet(visited), Rows(files, job, derived));
    if Beyond(files, job, derived, cursor) == {} {
      forall id | id in Rows(files, job, derived) ensures id in visited {
        assert cursor < id ==> id in Beyond(files, job, derived, cursor);
      }
      assert AsSet(visited) == Rows(files, job, derived);
    }
  }

  /** After `page` pages: all of them were full, but perhaps the last. */
  predicate Filled(done: nat, page: nat, limit: nat, rest: set<nat>)
  {
    done <= page * limit < done + limit && (rest != {} ==> done == page * limit)
  }

  lemma FilledAtFirst(limit: nat, rest: set<nat>)
    requires 0 < limit
    ensures Filled(0, 0, limit, rest)
  {
  }

  lemma FilledNext(files: Files, job: Job, derived: bool, visited: seq<nat>, cursor: int, batch: seq<nat>, page: nat, limit: nat)
    requires Filled(|visited|, page, limit, Beyond(files, job, derived, cursor)) && |batch| <= limit
    requires forall id :: id in batch ==> cursor < id && id in Rows(files, job, derived)
    requires forall id :: id in Rows(files, job, derived) && cursor < id && id !in batch ==>
               |batch| == limit && batch[|batch| - 1] < id
    requires forall i, j :: 0 <= i < j < |batch| ==> batch[i] < batch[j]
    requires 0 < limit
    ensures if batch == [] then Beyond(files, job, derived, cursor) == {}
            else Filled(|visited + batch|, page + 1, limit, Beyond(files, job, derived, batch[|batch| - 1]))
  {
    hide Rows;
    if batch != [] {
      var last := batch[|batch| - 1];
      assert batch[0] in batch && batch[0] in Beyond(files, job, derived, cursor);
      if |batch| < limit {
        forall id | id in batch ensures id <= last {
          var i :| 0 <= i < |batch| && batch[i] == id;
        }
        assert cursor < last by { assert last in batch; }
        assert Beyond(files, job, derived, last) == {};
      }
      assert (page + 1) * limit == page * limit + limit;
    }
  }

  lemma StopsIff(files: Files, job: Job, derived: bool, visited: seq<nat>, cursor: int, page: nat, pages: nat, limit: nat)
    requires Visited(files, job, derived, visited, cursor) && page <= pages
    requires Filled(|visited|, page, limit, Beyond(files, job, derived, cursor))
    ensures page == pages ==> (pages - 1) * limit < |Rows(files, job, derived)|
    ensures page < pages && Beyond(files, job, derived, cursor) == {} ==> |Rows(files, job, derived)| <= (pages - 1) * limit
  {
    hide Rows, Beyond, Visited;
    VisitedAll(files, job, derived, visited, cursor);
    assert (page - 1) * limit == page * limit - limit;
    if page < pages { Multiples(page, pages - 1, limit); }
  }

  lemma Multiples(a: nat, b: nat, limit: nat)
    requires a <= b
    ensures a * limit <= b * limit
  {
  }

  function Beyond(files: Files, job: Job, derived: bool, cursor: int): set<nat>
  {
    set id | id in Rows(files, job, derived) && cursor < id
  }

  lemma LessBeyond(files: Files, job: Job, derived: bool, before: int, cursor: int)
    requires before < cursor && 0 <= cursor && cursor in Rows(files, job, derived)
    ensures |Beyond(files, job, derived, cursor)| < |Beyond(files, job, derived, before)|
  {
    var a, b := Beyond(files, job, derived, cursor), Beyond(files, job, derived, before);
    assert a <= b - {cursor};
    SmallerSet(a, b - {cursor});
  }

  lemma {:induction false} SmallerSet(a: set<nat>, b: set<nat>)
    requires a <= b
    ensures |a| <= |b|
    decreases a
  {
    if x :| x in a {
      SmallerSet(a - {x}, b - {x});
    }
  }

  lemma NothingDone(job: Job, files: Files, groups: seq<Group>)
    ensures Over(job, files, groups, {}) == files
  {
  }

  lemma ValueIs(job: Job, files: Files, groups: seq<Group>, id: nat)
    requires id in files && Value(job, files, groups, id).Some?
    ensures var v := Value(job, files, groups, id).value; v.derived == files[id].derived && v.profile == files[id].profile
  {
  }
}
