/** Moving recordings to the time zone of the place they were made in. */
module CaptureZone {
  import opened Options
  import L = Ledger
  import opened Timestamps

  /** What a profile revision says about times. */
  datatype Definition = Definition(hasZone: bool, zone: Option<string>, fixesRemote: bool)

  datatype Setting = Setting(zones: string -> Zone, definitions: nat -> Definition, fallback: Option<string>,
      known: set<string>)

  /** A row of `media_file`; `how` stands for the source and the note of the time,
      `place` is the override, `revision` the one the time was computed under. */
  datatype Row = Row(derived: bool, profile: nat, at: Stored, tz: Option<string>, how: nat, place: Option<string>,
      revision: nat)

  /** Active members in order of position. */
  datatype Group = Group(output: Option<nat>, members: seq<nat>, merging: bool)

  type Files = map<nat, Row>

  datatype Outcome = Applied(changed: nat, kept: nat) | Invalid | Busy

  function Target(s: Setting, row: Row, zone: Option<string>): Option<string>
  {
    if zone.Some? then zone
    else if s.definitions(row.revision).zone.Some? then s.definitions(row.revision).zone
    else s.fallback
  }

  predicate Turnable(s: Setting, row: Row, zone: Option<string>)
  {
    s.definitions(row.revision).hasZone && Target(s, row, zone).Some?
  }

  /** The same instant, written on the clock of the place. */
  function Turned(s: Setting, row: Row, zone: Option<string>): Row
  {
    var name := Target(s, row, zone);
    if name.None? then row
    else row.(at := Written(FromInstant(s.zones(name.value), row.at.Instant())), tz := name, place := zone)
  }

  predicate Moves(a: Row, b: Row) { a.at != b.at || a.tz != b.tz }

  predicate SameTime(a: Row, b: Row) { a.at == b.at && a.tz == b.tz }

  // ----- outputs

  predicate Makes(g: Group, output: nat) { g.output == Some(output) && g.members != [] }

  /** The first active member of what made the output. */
  function FirstMember(groups: seq<Group>, output: nat): Option<nat>
  {
    if groups == [] then None
    else if Makes(groups[0], output) then Some(groups[0].members[0])
    else FirstMember(groups[1..], output)
  }

  lemma {:induction false} FirstMemberIs(groups: seq<Group>, output: nat)
    ensures FirstMember(groups, output).Some? <==> exists g :: g in groups && Makes(g, output)
    ensures FirstMember(groups, output).Some? ==>
              exists g :: g in groups && Makes(g, output) && g.members[0] == FirstMember(groups, output).value
    decreases |groups|
  {
    if groups != [] {
      assert groups == [groups[0]] + groups[1..];
      FirstMemberIs(groups[1..], output);
      if exists g :: g in groups[1..] && Makes(g, output) {
        var g :| g in groups[1..] && Makes(g, output);
        assert g in groups;
      }
    }
  }

  predicate Touches(g: Group, moved: set<nat>) { exists i :: 0 <= i < |g.members| && g.members[i] in moved }

  /** `_outputs_of`. */
  function OutputsOf(groups: seq<Group>, moved: set<nat>): set<nat>
  {
    set i | 0 <= i < |groups| && groups[i].output.Some? && Touches(groups[i], moved) :: groups[i].output.value
  }

  /** Foreign keys, and that outputs are derived files. */
  predicate Sound(files: Files, groups: seq<Group>)
  {
    forall g :: g in groups ==>
      && (forall i :: 0 <= i < |g.members| ==> g.members[i] in files)
      && (g.output.Some? ==> g.output.value in files && files[g.output.value].derived)
  }

  /** What a group has made begins with a recording, of the profile of the result. Merged
      files may be later members. */
  predicate Led(files: Files, groups: seq<Group>)
  {
    forall g :: g in groups && g.output.Some? && g.members != [] ==>
      && g.members[0] in files && !files[g.members[0]].derived
      && g.output.value in files && files[g.output.value].profile == files[g.members[0]].profile
  }

  /** Every output shows the time of the first recording in it. */
  predicate Inherited(files: Files, groups: seq<Group>)
  {
    forall o :: o in files && FirstMember(groups, o).Some? ==>
      FirstMember(groups, o).value in files && SameTime(files[o], files[FirstMember(groups, o).value])
  }

  // ----- what a request asks for

  predicate MemberOf(groups: seq<Group>, output: nat, m: nat)
  {
    exists g :: g in groups && g.output == Some(output) && m in g.members
  }

  /** A selected original stands for itself, a merged file for its members. */
  predicate Picks(files: Files, groups: seq<Group>, id: nat, x: nat)
  {
    id in files && if files[id].derived then MemberOf(groups, id, x) else x == id
  }

  predicate Resolvable(files: Files, groups: seq<Group>, id: nat)
  {
    id in files && (files[id].derived ==> exists g :: g in groups && g.output == Some(id) && g.members != [])
  }

  predicate Selected(files: Files, groups: seq<Group>, ids: seq<nat>, x: nat)
  {
    exists i :: 0 <= i < |ids| && Picks(files, groups, ids[i], x)
  }

  function MovedBy(s: Setting, files: Files, rows: set<nat>, zone: Option<string>): set<nat>
  {
    set id | id in files && id in rows && Moves(files[id], Turned(s, files[id], zone))
  }

  /** The rows that are written, be it only to record the zone. */
  function ChangedBy(s: Setting, files: Files, rows: set<nat>, zone: Option<string>): set<nat>
  {
    set id | id in files && id in rows && Turned(s, files[id], zone) != files[id]
  }

  /** Somebody is working with a time that would change. */
  predicate InTheWay(recomputing: bool, records: map<nat, L.Record>, groups: seq<Group>, moved: set<nat>,
        outputs: set<nat>)
  {
    (moved != {} || outputs != {})
    && (recomputing
        || (exists id :: id in records && records[id].media in moved + outputs && records[id].state.Active() && !records[id].invalidated)
        || (exists g :: g in groups && g.merging && Touches(g, moved)))
  }

  // ----- what it does

  function TurnRows(s: Setting, files: Files, rows: set<nat>, zone: Option<string>): Files
  {
    map id | id in files :: if id in rows then Turned(s, files[id], zone) else files[id]
  }

  /** The outputs take the time of their first member. */
  function Inherit(files: Files, groups: seq<Group>, outputs: set<nat>): Files
  {
    map id | id in files ::
      var first := FirstMember(groups, id);
      if id in outputs && first.Some? && first.value in files
      then files[id].(at := files[first.value].at, tz := files[first.value].tz) else files[id]
  }

  /** `_inherit`. */
  function InheritStep(files: Files, groups: seq<Group>, o: nat): Files
  {
    var first := FirstMember(groups, o);
    if o in files && first.Some? && first.value in files
    then files[o := WithTime(files[o], files[first.value])] else files
  }

  /** The outputs one after the other, in the order the query found them in. */
  function InheritInTurn(files: Files, groups: seq<Group>, order: seq<nat>): Files
  {
    if order == [] then files
    else InheritStep(InheritInTurn(files, groups, order[..|order| - 1]), groups, order[|order| - 1])
  }

  /** The file whose time `x` ends up with. */
  function TimeFrom(groups: seq<Group>, order: seq<nat>, x: nat): nat
    decreases |order|
  {
    if order == [] then x
    else
      var earlier, o := order[..|order| - 1], order[|order| - 1];
      if x == o && FirstMember(groups, o).Some? then TimeFrom(groups, earlier, FirstMember(groups, o).value)
      else TimeFrom(groups, earlier, x)
  }

  function WithTime(row: Row, first: Row): Row { row.(at := first.at, tz := first.tz) }

  function Final(s: Setting, files: Files, groups: seq<Group>, rows: set<nat>, zone: Option<string>): Files
  {
    Inherit(TurnRows(s, files, rows, zone), groups, OutputsOf(groups, MovedBy(s, files, rows, zone)))
  }

  // ----- what it is for

  ghost predicate Usable(s: Setting) { forall name :: Regular(s.zones(name)) }

  /** Turning a recording does not move its instant, and only the last turn shows. */
  lemma TurnsCompose(s: Setting, row: Row, first: Option<string>, last: Option<string>)
    requires Usable(s) && Turnable(s, row, first) && Turnable(s, row, last)
    ensures Turned(s, row, first).at.Instant() == row.at.Instant()
    ensures Turnable(s, Turned(s, row, first), last)
    ensures Turned(s, Turned(s, row, first), last) == Turned(s, row, last)
  {
    WrittenKeepsInstant(s.zones(Target(s, row, first).value), row.at.Instant());
  }

  function TurnedInTurn(s: Setting, row: Row, zones: seq<Option<string>>): Row
  {
    if zones == [] then row else Turned(s, TurnedInTurn(s, row, zones[..|zones| - 1]), zones[|zones| - 1])
  }

  /** However many overrides there were: the instant is the first one, and the rest is
      what the last of them alone would have written. */
  lemma {:induction false} OnlyTheLastShows(s: Setting, row: Row, zones: seq<Option<string>>)
    requires Usable(s) && zones != [] && forall i :: 0 <= i < |zones| ==> Turnable(s, row, zones[i])
    ensures TurnedInTurn(s, row, zones) == Turned(s, row, zones[|zones| - 1])
    ensures TurnedInTurn(s, row, zones).at.Instant() == row.at.Instant()
    decreases |zones|
  {
    var before, last := zones[..|zones| - 1], zones[|zones| - 1];
    if before == [] {
      assert TurnedInTurn(s, row, before) == row;
    } else {
      OnlyTheLastShows(s, row, before);
      TurnsCompose(s, row, before[|before| - 1], last);
    }
    TurnsCompose(s, row, last, last);
  }

  /** Instants of files that are not outputs stay, for a whole request. */
  lemma InstantsStay(s: Setting, files: Files, groups: seq<Group>, rows: set<nat>, zone: Option<string>, id: nat)
    requires Usable(s) && Sound(files, groups) && id in files && !files[id].derived
    requires id in rows ==> Turnable(s, files[id], zone)
    ensures Final(s, files, groups, rows, zone)[id].at.Instant() == files[id].at.Instant()
    ensures Final(s, files, groups, rows, zone)[id] == if id in rows then Turned(s, files[id], zone) else files[id]
  {
    if id in rows { TurnsCompose(s, files[id], zone, zone); }
    FirstMemberIs(groups, id);
  }

  lemma FirstIsNoOutput(files: Files, groups: seq<Group>, o: nat)
    requires Sound(files, groups) && Led(files, groups) && FirstMember(groups, o).Some?
    ensures var f := FirstMember(groups, o).value;
            && f in files && !files[f].derived && FirstMember(groups, f).None?
            && o in files && files[o].derived && files[o].profile == files[f].profile
            && exists g :: g in groups && Makes(g, o) && f == g.members[0]
  {
    FirstMemberIs(groups, o);
    var g :| g in groups && Makes(g, o) && g.members[0] == FirstMember(groups, o).value;
    FirstMemberIs(groups, g.members[0]);
  }

  /** Output `o` shows the time of the first recording in it. */
  predicate Agrees(files: Files, groups: seq<Group>, o: nat)
  {
    && o in files && FirstMember(groups, o).Some? && FirstMember(groups, o).value in files
    && SameTime(files[o], files[FirstMember(groups, o).value])
  }

  /** What a request makes of an output: one that it touches gets the time of its first
      recording, whatever it showed before, and any other agrees exactly if what is written
      into it, if anything, is the time its first recording has. */
  lemma OutputsFollow(s: Setting, files: Files, groups: seq<Group>, rows: set<nat>, zone: Option<string>, o: nat)
    requires Sound(files, groups) && Led(files, groups) && o in files && FirstMember(groups, o).Some?
    ensures var f := FirstMember(groups, o).value;
            && f in files
            && (Agrees(Final(s, files, groups, rows, zone), groups, o) <==>
                  || o in OutputsOf(groups, MovedBy(s, files, rows, zone))
                  || SameTime(TurnRows(s, files, rows, zone)[o], files[f]))
  {
    hide Turned, Sound, Led;
    FirstIsNoOutput(files, groups, o);
    var f := FirstMember(groups, o).value;
    var moved := MovedBy(s, files, rows, zone);
    if o !in OutputsOf(groups, moved) {
      var g :| g in groups && Makes(g, o) && f == g.members[0];
      var i :| 0 <= i < |groups| && groups[i] == g;
      assert !Touches(g, moved);
      assert f !in moved;
    }
  }

  /** Every result that was turned itself is made of something that was turned. */
  predicate Followed(groups: seq<Group>, moved: set<nat>)
  {
    forall o :: o in moved && FirstMember(groups, o).Some? ==> o in OutputsOf(groups, moved)
  }

  /** Where every output agreed, every output still does exactly if each one that was turned
      as a member of another is touched as an output too. */
  lemma AgreementStaysIff(s: Setting, files: Files, groups: seq<Group>, rows: set<nat>, zone: Option<string>)
    requires Sound(files, groups) && Led(files, groups) && Inherited(files, groups)
    ensures Inherited(Final(s, files, groups, rows, zone), groups) <==> Followed(groups, MovedBy(s, files, rows, zone))
  {
    hide Turned, Sound, Led, FirstMember, Inherit, OutputsOf;
    var after := Final(s, files, groups, rows, zone);
    var moved := MovedBy(s, files, rows, zone);
    forall o | o in files && FirstMember(groups, o).Some?
      ensures Agrees(after, groups, o) <==> o in OutputsOf(groups, moved) || o !in moved
    {
      OutputsFollow(s, files, groups, rows, zone, o);
      assert SameTime(files[o], files[FirstMember(groups, o).value]);
    }
    FinalKeys(s, files, groups, rows, zone);
    assert Inherited(after, groups) <==> forall o :: o in files && FirstMember(groups, o).Some? ==> Agrees(after, groups, o);
  }

  lemma FinalKeys(s: Setting, files: Files, groups: seq<Group>, rows: set<nat>, zone: Option<string>)
    ensures Final(s, files, groups, rows, zone).Keys == files.Keys
  {
  }

  // ----- one output after the other

  lemma {:induction false} TimeFromIs(files: Files, groups: seq<Group>, order: seq<nat>, x: nat)
    requires Sound(files, groups) && x in files
    ensures TimeFrom(groups, order, x) in files
    ensures var after := InheritInTurn(files, groups, order);
            && after.Keys == files.Keys
            && after[x] == WithTime(files[x], files[TimeFrom(groups, order, x)])
    decreases |order|
  {
    hide Sound;
    if order != [] {
      var earlier, o := order[..|order| - 1], order[|order| - 1];
      TimeFromIs(files, groups, earlier, x);
      if x == o && FirstMember(groups, o).Some? {
        MakersAreThere(files, groups, o);
        TimeFromIs(files, groups, earlier, FirstMember(groups, o).value);
      }
    }
  }

  /** Whatever the groups and the order: an output agrees with its first member exactly if
      both take their time from files of the same time. */
  lemma AgreesIff(files: Files, groups: seq<Group>, order: seq<nat>, o: nat)
    requires Sound(files, groups) && o in files && FirstMember(groups, o).Some?
    ensures var f := FirstMember(groups, o).value;
            && TimeFrom(groups, order, o) in files && TimeFrom(groups, order, f) in files
            && (Agrees(InheritInTurn(files, groups, order), groups, o) <==>
                  SameTime(files[TimeFrom(groups, order, o)], files[TimeFrom(groups, order, f)]))
  {
    MakersAreThere(files, groups, o);
    TimeFromIs(files, groups, order, o);
    TimeFromIs(files, groups, order, FirstMember(groups, o).value);
  }

  /** They do where the first member does not have its own turn later. */
  lemma InOrderAgrees(files: Files, groups: seq<Group>, order: seq<nat>, i: nat)
    requires Sound(files, groups) && i < |order| && order[i] in files && FirstMember(groups, order[i]).Some?
    requires order[i] !in order[i + 1..] && FirstMember(groups, order[i]).value !in order[i + 1..]
    ensures Agrees(InheritInTurn(files, groups, order), groups, order[i])
  {
    var o := order[i];
    var f := FirstMember(groups, o).value;
    LaterTurns(groups, order, i + 1, o);
    LaterTurns(groups, order, i + 1, f);
    assert order[..i + 1][..i] == order[..i] && order[..i + 1][i] == o;
    AgreesIff(files, groups, order, o);
  }

  lemma {:induction false} LaterTurns(groups: seq<Group>, order: seq<nat>, i: nat, x: nat)
    requires i <= |order| && x !in order[i..]
    ensures TimeFrom(groups, order, x) == TimeFrom(groups, order[..i], x)
    decreases |order|
  {
    if i == |order| {
      assert order[..i] == order;
    } else {
      assert order[|order| - 1] in order[i..];
      var earlier := order[..|order| - 1];
      assert earlier[..i] == order[..i];
      assert earlier[i..] == order[i..][..|order| - 1 - i];
      LaterTurns(groups, earlier, i, x);
    }
  }

  lemma {:induction false} LedTimeFrom(files: Files, groups: seq<Group>, order: seq<nat>, x: nat)
    requires Sound(files, groups) && Led(files, groups)
    ensures TimeFrom(groups, order, x) ==
              if x in order && FirstMember(groups, x).Some? then FirstMember(groups, x).value else x
    decreases |order|
  {
    hide Sound, Led, FirstMember;
    if order != [] {
      var earlier, o := order[..|order| - 1], order[|order| - 1];
      assert order == earlier + [o];
      LedTimeFrom(files, groups, earlier, x);
      if FirstMember(groups, x).Some? {
        FirstIsNoOutput(files, groups, x);
        LedTimeFrom(files, groups, earlier, FirstMember(groups, x).value);
      }
    }
  }

  /** Where results begin with recordings the order of the query does not matter. */
  lemma InTurnIsAtOnce(files: Files, groups: seq<Group>, order: seq<nat>)
    requires Sound(files, groups) && Led(files, groups)
    ensures InheritInTurn(files, groups, order) == Inherit(files, groups, AsSet(order))
  {
    hide Sound, Led, FirstMember, InheritInTurn, TimeFrom;
    var after := InheritInTurn(files, groups, order);
    forall x | x in files ensures x in after && after[x] == Inherit(files, groups, AsSet(order))[x] {
      TimeFromIs(files, groups, order, x);
      LedTimeFrom(files, groups, order, x);
    }
    NoNewFiles(files, groups, order);
  }

  /** Each output that has its turn agrees, be its other members merged files or not. */
  lemma AnyOrderAgrees(files: Files, groups: seq<Group>, order: seq<nat>, o: nat)
    requires Sound(files, groups) && Led(files, groups) && o in order && FirstMember(groups, o).Some?
    ensures Agrees(InheritInTurn(files, groups, order), groups, o)
  {
    hide Sound, Led, FirstMember, InheritInTurn;
    FirstIsNoOutput(files, groups, o);
    LedTimeFrom(files, groups, order, o);
    LedTimeFrom(files, groups, order, FirstMember(groups, o).value);
    AgreesIff(files, groups, order, o);
  }

  lemma {:induction false} NoNewFiles(files: Files, groups: seq<Group>, order: seq<nat>)
    ensures InheritInTurn(files, groups, order).Keys == files.Keys
    ensures forall x :: x in files ==> InheritInTurn(files, groups, order)[x].derived == files[x].derived
    ensures forall x :: x in files && x !in order ==> InheritInTurn(files, groups, order)[x] == files[x]
    decreases |order|
  {
    hide FirstMember;
    if order != [] {
      var earlier := order[..|order| - 1];
      assert order == earlier + [order[|order| - 1]];
      NoNewFiles(files, groups, earlier);
    }
  }

  // ----- a result that is turned as a member of another

  function TwoClocks(): Setting
  {
    Setting(name => Fixed(if name == "A" then 0 else HOUR), _ => Definition(true, Some("A"), false), None, {"A", "B"})
  }

  /** Recordings 0 and 4 were merged into 1, and recording 3 with 1 into 2; all show one time. */
  function Nested(): (Files, seq<Group>)
  {
    var recording := Row(false, 0, Stored(0, 0), Some("A"), 0, None, 0);
    var merged := recording.(derived := true);
    (map[0 := recording, 1 := merged, 2 := merged, 3 := recording, 4 := recording],
     [Group(Some(1), [0, 4], false), Group(Some(2), [3, 1], false)])
  }

  lemma NestedMembers()
    ensures var (files, groups) := Nested();
            && Sound(files, groups) && Led(files, groups) && Inherited(files, groups)
            && FirstMember(groups, 1) == Some(0) && FirstMember(groups, 2) == Some(3)
  {
    var (files, groups) := Nested();
    assert groups[1..] == [groups[1]] && groups[1..][1..] == [];
    forall o ensures FirstMember(groups[1..], o) == if o == 2 then Some(3) else None {
    }
    forall o ensures FirstMember(groups, o) == if o == 1 then Some(0) else FirstMember(groups[1..], o) {
    }
  }

  lemma NestedPicks()
    ensures var (files, groups) := Nested(); Picked(files, groups, [2]) == {1, 3}
    ensures var (files, groups) := Nested(); !Refusable(TwoClocks(), files, groups, [2], Some("B"))
  {
    var (files, groups) := Nested();
    assert groups[1] in groups && groups[0].output != Some(2) && groups[1].members[0] == 3 && groups[1].members[1] == 1;
    forall x ensures MemberOf(groups, 2, x) <==> x in {1, 3} {
      if x in {1, 3} { assert x in groups[1].members; }
    }
    forall x ensures Selected(files, groups, [2], x) <==> x in {1, 3} {
      if x in {1, 3} { assert Picks(files, groups, [2][0], x); }
    }
    assert Resolvable(files, groups, 2);
    assert forall row: Row :: Turnable(TwoClocks(), row, Some("B"));
    hide Picks, MemberOf, Turnable, Resolvable, Selected;
  }

  lemma NestedTurns(row: Row)
    requires row.at == Stored(0, 0) && row.tz == Some("A")
    ensures Turned(TwoClocks(), row, Some("B")) == row.(at := Stored(HOUR, HOUR), tz := Some("B"), place := Some("B"))
    ensures Moves(row, Turned(TwoClocks(), row, Some("B")))
  {
    var zones, at := TwoClocks().zones, row.at.Instant();
    assert "B"[0] != "A"[0];
    assert zones("B") == Fixed(HOUR);
    assert Target(TwoClocks(), row, Some("B")) == Some("B");
    assert FromInstant(zones("B"), at) == Aware(HOUR, false, Fixed(HOUR));
    assert Written(FromInstant(zones("B"), at)) == Stored(HOUR, HOUR);
  }

  lemma NestedMoves()
    ensures var (files, groups) := Nested(); var zone := Some("B");
            && MovedBy(TwoClocks(), files, {1, 3}, zone) == {1, 3}
            && OutputsOf(groups, {1, 3}) == {2}
  {
    hide Turned, TwoClocks;
    var (files, groups) := Nested();
    NestedTurns(files[1]);
    NestedTurns(files[3]);
    assert !Touches(groups[0], {1, 3});
    assert Touches(groups[1], {1, 3}) by { assert groups[1].members[0] in {1, 3}; }
    assert groups[1].output.value in OutputsOf(groups, {1, 3});
  }

  /** Selecting file 2 for another zone turns its members, and 1 is one of them; the recordings
      1 was made of are not selected and stay, so 1 no longer shows the time of its first. */
  lemma SelectedResultIsTurned()
    ensures var (files, groups) := Nested(); var zone := Some("B");
            && Sound(files, groups) && Led(files, groups) && Inherited(files, groups)
            && !Refusable(TwoClocks(), files, groups, [2], zone)
            && !Agrees(Final(TwoClocks(), files, groups, Picked(files, groups, [2]), zone), groups, 1)
            && Agrees(Final(TwoClocks(), files, groups, Picked(files, groups, [2]), zone), groups, 2)
  {
    hide FirstMember, Sound, Led, Inherited, OutputsOf, MovedBy, Turned, Agrees, Refusable, Picked;
    NestedMembers();
    NestedPicks();
    NestedMoves();
    var (files, groups) := Nested();
    OutputsFollow(TwoClocks(), files, groups, {1, 3}, Some("B"), 1);
    OutputsFollow(TwoClocks(), files, groups, {1, 3}, Some("B"), 2);
    NestedTurns(files[1]);
  }

  // ----- one request

  predicate Refusable(s: Setting, files: Files, groups: seq<Group>, ids: seq<nat>, zone: Option<string>)
  {
    || (zone.Some? && zone.value !in s.known) || ids == []
    || (exists i :: 0 <= i < |ids| && !Resolvable(files, groups, ids[i]))
    || (exists x :: x in files && Selected(files, groups, ids, x) && !Turnable(s, files[x], zone))
  }

  /** Records are only sent again, or considered for a stack again, and only those of
      files whose time changed. */
  predicate OnlyReopened(before: map<nat, L.Record>, after: map<nat, L.Record>, touched: set<nat>)
  {
    && after.Keys == before.Keys
    && forall id :: id in before ==>
         || after[id] == before[id]
         || (before[id].media in touched && !before[id].invalidated
             && after[id] == before[id].(state := after[id].state, stack := after[id].stack)
             && (after[id].state == before[id].state || (before[id].state.Complete? && after[id].state.NeedsRecheck?)))
  }

  function AfterMove(records: map<nat, L.Record>, media: nat, fixes: bool): map<nat, L.Record>
  {
    var reopened := L.SkippedReopened(records, media);
    if fixes then L.Requeued(reopened, media) else reopened
  }

  lemma AfterMoveReopens(start: map<nat, L.Record>, before: map<nat, L.Record>, touched: set<nat>, media: nat,
        fixes: bool)
    requires OnlyReopened(start, before, touched)
    ensures OnlyReopened(start, AfterMove(before, media, fixes), touched + {media})
  {
  }

  class ZoneRepository {
    const s: Setting
    var files: Files
    var groups: seq<Group>
    var records: map<nat, L.Record>
    var recomputing: bool

    constructor (s: Setting, files: Files, groups: seq<Group>, records: map<nat, L.Record>, recomputing: bool)
      ensures this.s == s && this.files == files && this.groups == groups && this.records == records
          && this.recomputing == recomputing
    {
      this.s, this.files, this.groups, this.records, this.recomputing := s, files, groups, records, recomputing;
    }

    /** The rows a selection stands for, each once. */
    method OriginalsOf(ids: seq<nat>) returns (rows: Option<seq<nat>>)
      requires Sound(files, groups)
      ensures rows.None? <==> exists i :: 0 <= i < |ids| && !Resolvable(files, groups, ids[i])
      ensures rows.Some? ==>
                && (forall x :: x in rows.value <==> Selected(files, groups, ids, x))
                && (forall x :: x in rows.value ==> x in files)
                && (forall i, j :: 0 <= i < j < |rows.value| ==> rows.value[i] != rows.value[j])
    {
      var found: seq<nat> := [];
      for i := 0 to |ids|
        invariant forall x :: x in found <==> Selected(files, groups, ids[..i], x)
        invariant forall x :: x in found ==> x in files
        invariant forall k, l :: 0 <= k < l < |found| ==> found[k] != found[l]
        invariant forall k :: 0 <= k < i ==> Resolvable(files, groups, ids[k])
      {
        var id := ids[i];
        if id !in files { return None; }
        var more: seq<nat> := [id];
        if files[id].derived {
          more := MembersOf(id);
          if more == [] { return None; }
        }
        ghost var was := found;
        found := AddNew(found, more);
        forall x ensures x in found <==> Selected(files, groups, ids[..i + 1], x) {
          SelectedNext(files, groups, ids, i, x);
        }
      }
      assert ids[..|ids|] == ids;
      rows := Some(found);
    }

    method MembersOf(output: nat) returns (members: seq<nat>)
      requires Sound(files, groups)
      ensures forall x :: x in members <==> MemberOf(groups, output, x)
      ensures forall x :: x in members ==> x in files
      ensures members == [] <==> forall g :: g in groups && g.output == Some(output) ==> g.members == []
    {
      members := [];
      for i := 0 to |groups|
        invariant forall x :: x in members <==> MemberOf(groups[..i], output, x)
        invariant forall x :: x in members ==> x in files
        invariant members == [] <==> forall g :: g in groups[..i] && g.output == Some(output) ==> g.members == []
      {
        assert groups[..i + 1] == groups[..i] + [groups[i]];
        assert groups[i] in groups;
        ghost var was := members;
        if groups[i].output == Some(output) { members := members + groups[i].members; }
        forall x ensures x in members <==> MemberOf(groups[..i + 1], output, x) {
          assert MemberOf(groups[..i + 1], output, x) <==>
              MemberOf(groups[..i], output, x) || (groups[i].output == Some(output) && x in groups[i].members);
        }
      }
      assert groups[..|groups|] == groups;
    }

    /** Turns the rows one by one; None when one of them cannot be turned. */
    method TurnAll(rows: seq<nat>, zone: Option<string>) returns (moved: Option<set<nat>>, changed: nat, kept: nat)
      requires forall x :: x in rows ==> x in files
      requires forall i, j :: 0 <= i < j < |rows| ==> rows[i] != rows[j]
      modifies this`files, this`records
      ensures moved.None? <==> exists x :: x in rows && !Turnable(s, old(files)[x], zone)
      ensures moved.Some? ==>
                && files == TurnRows(s, old(files), AsSet(rows), zone)
                && moved.value == MovedBy(s, old(files), AsSet(rows), zone)
                && OnlyReopened(old(records), records, moved.value)
                && changed == |ChangedBy(s, old(files), AsSet(rows), zone)| && changed + kept == |rows|
    {
      hide Turned, Turnable, OnlyReopened, TurnRows, MovedBy, ChangedBy, Moves, AfterMove;
      ghost var was, before := files, records;
      TurnNone(s, files, zone);
      assert AsSet(rows[..0]) == {};
      var so: set<nat> := {};
      changed, kept := 0, 0;
      OnlyReopenedAtFirst(before);
      for i := 0 to |rows|
        invariant files == TurnRows(s, was, AsSet(rows[..i]), zone)
        invariant so == MovedBy(s, was, AsSet(rows[..i]), zone)
        invariant OnlyReopened(before, records, so)
        invariant changed == |ChangedBy(s, was, AsSet(rows[..i]), zone)| && changed + kept == i
        invariant forall x :: x in rows[..i] ==> Turnable(s, was[x], zone)
      {
        var id := rows[i];
        assert rows[..i + 1] == rows[..i] + [id];
        assert AsSet(rows[..i + 1]) == AsSet(rows[..i]) + {id};
        assert id !in AsSet(rows[..i]) && id in rows;
        TurnRowsAt(s, was, AsSet(rows[..i]), id, zone);
        var row := files[id];
        if !Turnable(s, row, zone) { return None, 0, 0; }
        var turned := Turned(s, row, zone);
        TurnNext(s, was, AsSet(rows[..i]), id, zone);
        files := files[id := turned];
        if Moves(row, turned) {
          AfterMoveReopens(before, records, so, id, s.definitions(row.revision).fixesRemote);
          records := AfterMove(records, id, s.definitions(row.revision).fixesRemote);
          so := so + {id};
        }
        if turned != row { changed := changed + 1; } else { kept := kept + 1; }
      }
      assert rows[..|rows|] == rows;
      moved := Some(so);
    }

    /** `_inherit`: an output takes the time of its first active member. */
    method InheritOne(o: nat)
      requires Sound(files, groups) && o in files && FirstMember(groups, o).Some?
          && FirstMember(groups, o).value in files
      modifies this`files, this`records
      ensures files == old(files)[o := WithTime(old(files)[o], old(files)[FirstMember(groups, o).value])]
      ensures Sound(files, groups)
      ensures forall start, touched :: OnlyReopened(start, old(records), touched) && o in touched ==>
          OnlyReopened(start, records, touched)
    {
      hide Sound, OnlyReopened;
      var first := files[FirstMember(groups, o).value];
      ghost var was, before := files, records;
      if Moves(files[o], first) {
        records := AfterMove(records, o, s.definitions(files[o].revision).fixesRemote);
        forall start, touched | OnlyReopened(start, before, touched) && o in touched
          ensures OnlyReopened(start, records, touched)
        {
          AfterMoveReopens(start, before, touched, o, s.definitions(was[o].revision).fixesRemote);
          assert touched + {o} == touched;
        }
        files := files[o := files[o].(at := first.at, tz := first.tz)];
      }
      StillSound(was, files, groups);
    }

    /** Each output takes the time of its first active member, in the order of the query. */
    method InheritAll(outputs: set<nat>) returns (ghost order: seq<nat>)
      requires Sound(files, groups)
      requires forall o :: o in outputs ==> FirstMember(groups, o).Some? && o in files
      modifies this`files, this`records
      ensures AsSet(order) == outputs && forall i, j :: 0 <= i < j < |order| ==> order[i] != order[j]
      ensures files == InheritInTurn(old(files), groups, order)
      ensures OnlyReopened(old(records), records, outputs)
    {
      hide Sound, OnlyReopened, FirstMember;
      ghost var was, before := files, records;
      var todo := outputs;
      order := [];
      OnlyReopenedAtFirst(before);
      MoreTouched(before, before, {}, outputs);
      while todo != {}
        invariant todo <= outputs && files.Keys == was.Keys
        invariant Sound(files, groups)
        invariant AsSet(order) == outputs - todo && forall i, j :: 0 <= i < j < |order| ==> order[i] != order[j]
        invariant files == InheritInTurn(was, groups, order)
        invariant OnlyReopened(before, records, outputs)
        decreases todo
      {
        var o :| o in todo;
        MakersAreThere(files, groups, o);
        todo := todo - {o};
        assert (order + [o])[..|order|] == order;
        assert AsSet(order + [o]) == AsSet(order) + {o};
        assert o !in AsSet(order);
        order := order + [o];
        InheritOne(o);
      }
    }

    /** One request, all or nothing. `order` is the order the outputs were found in. */
    method Apply(ids: seq<nat>, zone: Option<string>) returns (r: Outcome, ghost order: seq<nat>)
      requires Sound(files, groups)
      modifies this`files, this`records
      ensures r.Invalid? <==> Refusable(s, old(files), groups, ids, zone)
      ensures !r.Applied? ==> files == old(files) && records == old(records)
      ensures var rows := Picked(old(files), groups, ids); var moved := MovedBy(s, old(files), rows, zone);
              var outputs := OutputsOf(groups, moved);
              && (r.Busy? <==> !r.Invalid? && InTheWay(recomputing, old(records), groups, moved, outputs))
              && (r.Applied? ==>
                    && OnlyReopened(old(records), records, moved + outputs)
                    && AsSet(order) == outputs
                    && files == InheritInTurn(TurnRows(s, old(files), rows, zone), groups, order)
                    && r.changed == |ChangedBy(s, old(files), rows, zone)| && r.changed + r.kept == |rows|)
      // recordings: turned or as they were, and always the same instant
      ensures r.Applied? && Usable(s) ==>
                forall id :: id in old(files) && !old(files)[id].derived ==>
                  && id in files && files[id].at.Instant() == old(files)[id].at.Instant()
                  && files[id] == if id in Picked(old(files), groups, ids) then Turned(s, old(files)[id], zone)
                                  else old(files)[id]
      // outputs: each one that was touched agrees with its first recording, and where all of
      // them did, all still do exactly if none was turned as a member of another only
      ensures r.Applied? && Led(old(files), groups) ==>
                var rows := Picked(old(files), groups, ids); var moved := MovedBy(s, old(files), rows, zone);
                && files == Final(s, old(files), groups, rows, zone)
                && (forall o :: o in OutputsOf(groups, moved) ==> Agrees(files, groups, o))
                && (Inherited(old(files), groups) ==> (Inherited(files, groups) <==> Followed(groups, moved)))
    {
      hide Sound, Led, OnlyReopened, Selected, Resolvable, Turnable, Followed, InTheWay, TurnRows, MovedBy;
      hide OutputsOf, Inherit, Final;
      hide InheritInTurn, Inherited, Usable, Agrees, Turned, ChangedBy, Picked, FirstMember;
      var was, before := files, records;
      order := [];
      if (zone.Some? && zone.value !in s.known) || ids == [] { return Invalid, []; }
      var rows := OriginalsOf(ids);
      if rows.None? { return Invalid, []; }
      PickedIs(files, groups, ids, rows.value);
      DistinctSize(rows.value);
      var moved, changed, kept := TurnAll(rows.value, zone);
      if moved.None? {
        files, records := was, before;
        return Invalid, [];
      }
      TurnedSound(s, was, groups, AsSet(rows.value), zone);
      var outputs := OutputsOf(groups, moved.value);
      SameInTheWay(recomputing, before, records, groups, moved.value, outputs);
      if InTheWay(recomputing, records, groups, moved.value, outputs) {
        files, records := was, before;
        return Busy, [];
      }
      OutputsAreMade(files, groups, moved.value);
      ghost var middle := records;
      order := InheritAll(outputs);
      ReopenedTogether(before, middle, records, moved.value, outputs);
      RecordingsAfter(s, was, groups, ids, zone, order);
      OutputsAfter(s, was, groups, ids, zone, order);
      r := Applied(changed, kept);
    }
  }

  /** What a request leaves of the recordings. */
  lemma RecordingsAfter(s: Setting, files: Files, groups: seq<Group>, ids: seq<nat>, zone: Option<string>, order: seq<nat>)
    requires Sound(files, groups) && AsSet(order) == OutputsOf(groups, MovedBy(s, files, Picked(files, groups, ids), zone))
    requires forall x :: x in Picked(files, groups, ids) ==> Turnable(s, files[x], zone)
    ensures var after := InheritInTurn(TurnRows(s, files, Picked(files, groups, ids), zone), groups, order);
            Usable(s) ==>
              forall id :: id in files && !files[id].derived ==>
                && id in after && after[id].at.Instant() == files[id].at.Instant()
                && after[id] == if id in Picked(files, groups, ids) then Turned(s, files[id], zone) else files[id]
  {
    hide Turned, Selected, FirstMember, InheritInTurn;
    var rows := Picked(files, groups, ids);
    var turned := TurnRows(s, files, rows, zone);
    var after := InheritInTurn(turned, groups, order);
    NoNewFiles(turned, groups, order);
    if Usable(s) {
      forall id | id in files && !files[id].derived
        ensures id in after && after[id].at.Instant() == files[id].at.Instant()
        ensures after[id] == if id in rows then Turned(s, files[id], zone) else files[id]
      {
        assert id in order <==> id in AsSet(order);
        if id in rows { TurnsCompose(s, files[id], zone, zone); }
      }
    }
  }

  /** And of the outputs. */
  lemma OutputsAfter(s: Setting, files: Files, groups: seq<Group>, ids: seq<nat>, zone: Option<string>, order: seq<nat>)
    requires Sound(files, groups) && AsSet(order) == OutputsOf(groups, MovedBy(s, files, Picked(files, groups, ids), zone))
    ensures var rows := Picked(files, groups, ids);
            var after := InheritInTurn(TurnRows(s, files, rows, zone), groups, order);
            Led(files, groups) ==>
              && after == Final(s, files, groups, rows, zone)
              && (forall o :: o in OutputsOf(groups, MovedBy(s, files, rows, zone)) ==> Agrees(after, groups, o))
              && (Inherited(files, groups) ==>
                    (Inherited(after, groups) <==> Followed(groups, MovedBy(s, files, rows, zone))))
  {
    hide Turned, Selected, InheritInTurn, Agrees, Inherited, OutputsOf, MovedBy, Sound, Led, FirstMember, Followed;
    var rows := Picked(files, groups, ids);
    if Led(files, groups) {
      TurnedSound(s, files, groups, rows, zone);
      InTurnIsAtOnce(TurnRows(s, files, rows, zone), groups, order);
      OutputsAreMade(files, groups, MovedBy(s, files, rows, zone));
      forall o | o in OutputsOf(groups, MovedBy(s, files, rows, zone))
        ensures Agrees(Final(s, files, groups, rows, zone), groups, o)
      {
        OutputsFollow(s, files, groups, rows, zone, o);
      }
      if Inherited(files, groups) { AgreementStaysIff(s, files, groups, rows, zone); }
    }
  }

  function AsSet(ids: seq<nat>): set<nat> { set id | id in ids }

  /** The rows a selection stands for. */
  function Picked(files: Files, groups: seq<Group>, ids: seq<nat>): set<nat>
  {
    set x | x in files && Selected(files, groups, ids, x)
  }

  lemma PickedIs(files: Files, groups: seq<Group>, ids: seq<nat>, rows: seq<nat>)
    requires forall x :: x in rows <==> Selected(files, groups, ids, x)
    requires forall x :: x in rows ==> x in files
    ensures AsSet(rows) == Picked(files, groups, ids)
  {
  }

  lemma {:induction false} DistinctSize(ids: seq<nat>)
    requires forall i, j :: 0 <= i < j < |ids| ==> ids[i] != ids[j]
    ensures |AsSet(ids)| == |ids|
    decreases |ids|
  {
    if ids != [] {
      var rest, last := ids[..|ids| - 1], ids[|ids| - 1];
      DistinctSize(rest);
      assert ids == rest + [last];
      assert AsSet(ids) == AsSet(rest) + {last};
    }
  }

  lemma OnlyReopenedAtFirst(records: map<nat, L.Record>)
    ensures OnlyReopened(records, records, {})
  {
  }

  lemma MoreTouched(before: map<nat, L.Record>, after: map<nat, L.Record>, touched: set<nat>, more: set<nat>)
    requires OnlyReopened(before, after, touched) && touched <= more
    ensures OnlyReopened(before, after, more)
  {
  }

  lemma ReopenedTogether(a: map<nat, L.Record>, b: map<nat, L.Record>, c: map<nat, L.Record>, first: set<nat>,
        second: set<nat>)
    requires OnlyReopened(a, b, first) && OnlyReopened(b, c, second)
    ensures OnlyReopened(a, c, first + second)
  {
  }

  lemma SameInTheWay(recomputing: bool, before: map<nat, L.Record>, after: map<nat, L.Record>, groups: seq<Group>,
        moved: set<nat>, outputs: set<nat>)
    requires OnlyReopened(before, after, moved)
    ensures InTheWay(recomputing, before, groups, moved, outputs)
            == InTheWay(recomputing, after, groups, moved, outputs)
  {
    assert forall id :: id in before ==> after[id].media == before[id].media && after[id].invalidated == before[id].invalidated
                                         && after[id].state.Active() == before[id].state.Active();
  }

  lemma TurnNone(s: Setting, files: Files, zone: Option<string>)
    ensures TurnRows(s, files, {}, zone) == files
    ensures MovedBy(s, files, {}, zone) == {} && ChangedBy(s, files, {}, zone) == {}
  {
  }

  lemma TurnRowsAt(s: Setting, files: Files, done: set<nat>, id: nat, zone: Option<string>)
    requires id in files && id !in done
    ensures var so := TurnRows(s, files, done, zone); id in so && so[id] == files[id]
  {
  }

  lemma TurnNext(s: Setting, files: Files, done: set<nat>, id: nat, zone: Option<string>)
    requires id in files && id !in done
    ensures var turned := Turned(s, files[id], zone);
            && TurnRows(s, files, done + {id}, zone) == TurnRows(s, files, done, zone)[id := turned]
            && MovedBy(s, files, done + {id}, zone) ==
                 MovedBy(s, files, done, zone) + (if Moves(files[id], turned) then {id} else {})
            && |ChangedBy(s, files, done + {id}, zone)| ==
                 |ChangedBy(s, files, done, zone)| + (if turned != files[id] then 1 else 0)
  {
    hide Turned, Moves;
    TurnRowsNext(s, files, done, id, zone);
    MovedNext(s, files, done, id, zone);
    ChangedNext(s, files, done, id, zone);
    hide TurnRows, MovedBy, ChangedBy;
  }

  lemma TurnRowsNext(s: Setting, files: Files, done: set<nat>, id: nat, zone: Option<string>)
    requires id in files
    ensures TurnRows(s, files, done + {id}, zone) == TurnRows(s, files, done, zone)[id := Turned(s, files[id], zone)]
  {
    hide Turned;
  }

  lemma MovedNext(s: Setting, files: Files, done: set<nat>, id: nat, zone: Option<string>)
    requires id in files
    ensures MovedBy(s, files, done + {id}, zone) ==
              MovedBy(s, files, done, zone) + (if Moves(files[id], Turned(s, files[id], zone)) then {id} else {})
  {
    hide Turned, Moves;
  }

  lemma ChangedNext(s: Setting, files: Files, done: set<nat>, id: nat, zone: Option<string>)
    requires id in files && id !in done
    ensures |ChangedBy(s, files, done + {id}, zone)| ==
              |ChangedBy(s, files, done, zone)| + (if Turned(s, files[id], zone) != files[id] then 1 else 0)
  {
    hide Turned;
    var before, after := ChangedBy(s, files, done, zone), ChangedBy(s, files, done + {id}, zone);
    if Turned(s, files[id], zone) != files[id] {
      assert after == before + {id};
    } else {
      assert after == before;
    }
  }

  lemma MakersAreThere(files: Files, groups: seq<Group>, o: nat)
    requires Sound(files, groups) && FirstMember(groups, o).Some?
    ensures FirstMember(groups, o).value in files
  {
    FirstMemberIs(groups, o);
  }

  lemma StillSound(files: Files, after: Files, groups: seq<Group>)
    requires Sound(files, groups) && files.Keys == after.Keys
    requires forall id :: id in files ==> files[id].derived == after[id].derived
    ensures Sound(after, groups)
    ensures Led(files, groups) && (forall id :: id in files ==> files[id].profile == after[id].profile) ==>
              Led(after, groups)
  {
  }

  lemma TurnedSound(s: Setting, files: Files, groups: seq<Group>, rows: set<nat>, zone: Option<string>)
    requires Sound(files, groups)
    ensures Sound(TurnRows(s, files, rows, zone), groups)
    ensures Led(files, groups) ==> Led(TurnRows(s, files, rows, zone), groups)
  {
  }

  lemma OutputsAreMade(files: Files, groups: seq<Group>, moved: set<nat>)
    requires Sound(files, groups)
    ensures forall o :: o in OutputsOf(groups, moved) ==> FirstMember(groups, o).Some? && o in files
  {
    forall o | o in OutputsOf(groups, moved) ensures FirstMember(groups, o).Some? && o in files {
      var i :| 0 <= i < |groups| && groups[i].output == Some(o) && Touches(groups[i], moved);
      assert Makes(groups[i], o);
      FirstMemberIs(groups, o);
    }
  }

  lemma SelectedNext(files: Files, groups: seq<Group>, ids: seq<nat>, i: nat, x: nat)
    requires i < |ids|
    ensures Selected(files, groups, ids[..i + 1], x) <==> Selected(files, groups, ids[..i], x) || Picks(files, groups, ids[i], x)
  {
    var more, less := ids[..i + 1], ids[..i];
    if k :| 0 <= k < |less| && Picks(files, groups, less[k], x) { assert Picks(files, groups, more[k], x); }
    if Picks(files, groups, ids[i], x) { assert Picks(files, groups, more[i], x); }
    if k :| 0 <= k < |more| && Picks(files, groups, more[k], x) {
      if k < i { assert Picks(files, groups, less[k], x); }
    }
  }

  /** `setdefault`: what is there already stays where it is. */
  method AddNew(found: seq<nat>, more: seq<nat>) returns (all: seq<nat>)
    requires forall k, l :: 0 <= k < l < |found| ==> found[k] != found[l]
    ensures forall x :: x in all <==> x in found || x in more
    ensures forall k, l :: 0 <= k < l < |all| ==> all[k] != all[l]
  {
    all := found;
    for i := 0 to |more|
      invariant forall x :: x in all <==> x in found || x in more[..i]
      invariant forall k, l :: 0 <= k < l < |all| ==> all[k] != all[l]
    {
      assert more[..i + 1] == more[..i] + [more[i]];
      if more[i] !in all { all := all + [more[i]]; }
    }
    assert more[..|more|] == more;
  }
}
