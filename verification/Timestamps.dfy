/** Walls, instants and zones, in whole seconds.

    A zone is its offset from UTC and where it changes. A wall clock reading is looked
    up as PEP 495 has it: `fold` tells which of two readings is meant, and in a gap
    which side's offset to use.
 */
module Timestamps {
  import opened Options

  const HOUR: int := 3600

  datatype Zone = Fixed(offset: int) | Change(before: Zone, at: int, offset: int)

  /** A `datetime` with a zone. */
  datatype Aware = Aware(wall: int, fold: bool, zone: Zone)

  /** A wall clock as written down: it keeps the offset, and not the fold. */
  datatype Stored = Stored(wall: int, offset: int)
  {
    function Instant(): int { wall - offset }
  }

  function Least(a: int, b: int): int { if a < b then a else b }

  function Most(a: int, b: int): int { if a < b then b else a }

  /** The offset in force at an instant. */
  function OffsetAt(z: Zone, t: int): int
  {
    match z
    case Fixed(offset) => offset
    case Change(before, at, offset) => if at <= t then offset else OffsetAt(before, t)
  }

  /** From which wall reading on a change counts. */
  function Threshold(z: Zone, fold: bool): int
    requires z.Change?
  {
    z.at + if fold then Least(z.before.offset, z.offset) else Most(z.before.offset, z.offset)
  }

  /** `utcoffset()` of a wall reading. */
  function OffsetOf(z: Zone, wall: int, fold: bool): int
  {
    match z
    case Fixed(offset) => offset
    case Change(before, at, offset) => if Threshold(z, fold) <= wall then offset else OffsetOf(before, wall, fold)
  }

  /** Changes are so far apart that one is over, and an hour more, before the next begins. */
  predicate Regular(z: Zone)
  {
    z.Change? ==>
      && Regular(z.before)
      && (z.before.Change? ==> z.before.at < z.at && Threshold(z.before, false) + HOUR <= Threshold(z, true))
  }

  /** The wall clock in the zone shows `wall` at `t`. */
  predicate Shows(z: Zone, t: int, wall: int) { t + OffsetAt(z, t) == wall }

  function InstantOf(a: Aware): int { a.wall - OffsetOf(a.zone, a.wall, a.fold) }

  // ----- which instants show a wall reading

  /** Before a change the clock has not reached what it shows at the change. */
  lemma {:induction false} EarlierShowsLess(z: Zone, t: int)
    requires Regular(z) && z.Change? && t < z.at
    ensures t + OffsetAt(z.before, t) < z.at + z.before.offset
    decreases z
  {
    if z.before.Change? && t < z.before.at {
      EarlierShowsLess(z.before, t);
    }
  }

  /** Past the threshold of its last change a zone looks settled. */
  lemma SettledAfter(z: Zone, wall: int, fold: bool)
    requires z.Change? ==> Threshold(z, false) <= wall
    ensures OffsetOf(z, wall, fold) == z.offset
    ensures Shows(z, wall - z.offset, wall)
  {
  }

  /** Only the two lookups can be right. */
  lemma {:induction false} OnlyTheseShow(z: Zone, wall: int, t: int)
    requires Regular(z) && Shows(z, t, wall)
    ensures t == wall - OffsetOf(z, wall, false) || t == wall - OffsetOf(z, wall, true)
    ensures OffsetOf(z, wall, true) <= OffsetOf(z, wall, false)
    decreases z
  {
    if z.Change? {
      if t < z.at {
        EarlierShowsLess(z, t);
        OnlyTheseShow(z.before, wall, t);
        if Threshold(z, true) <= wall { SettledAfter(z.before, wall, false); }
      } else if wall < Threshold(z, false) {
        SettledAfter(z.before, wall, false);
      }
    }
  }

  /** Outside of a gap both are right. */
  lemma {:induction false} TheseShow(z: Zone, wall: int)
    requires Regular(z) && OffsetOf(z, wall, true) <= OffsetOf(z, wall, false)
    ensures Shows(z, wall - OffsetOf(z, wall, false), wall) && Shows(z, wall - OffsetOf(z, wall, true), wall)
    decreases z
  {
    if z.Change? && wall < Threshold(z, false) {
      if Threshold(z, true) <= wall {
        SettledAfter(z.before, wall, false);
      } else {
        TheseShow(z.before, wall);
        StillBefore(z, wall, wall - OffsetOf(z.before, wall, false));
        StillBefore(z, wall, wall - OffsetOf(z.before, wall, true));
      }
    }
  }

  lemma StillBefore(z: Zone, wall: int, t: int)
    requires Regular(z) && z.Change? && wall < Threshold(z, true) && Shows(z.before, t, wall)
    ensures t < z.at
  {
  }

  // ----- attaching an offset

  datatype Note = Plain | Ambiguous | Nonexistent

  /** `_attach_offset`. */
  function AttachOffset(wall: int, z: Zone): (Aware, Note)
  {
    var earlier, later := OffsetOf(z, wall, false), OffsetOf(z, wall, true);
    if earlier == later then (Aware(wall, false, z), Plain)
    else if later < earlier then (Aware(wall, false, z), Ambiguous)
    else (Aware(wall + HOUR, false, z), Nonexistent)
  }

  predicate InGap(z: Zone, wall: int) { OffsetOf(z, wall, false) < OffsetOf(z, wall, true) }

  /** No instant shows a reading in a gap, and every other reading is shown by some. */
  lemma NoneShowsIff(z: Zone, wall: int)
    requires Regular(z)
    ensures InGap(z, wall) <==> forall t :: !Shows(z, t, wall)
  {
    if !InGap(z, wall) {
      TheseShow(z, wall);
    } else {
      forall t ensures !Shows(z, t, wall) {
        if Shows(z, t, wall) { OnlyTheseShow(z, wall, t); }
      }
    }
  }

  /** A reading that exists is kept and stands for the first instant that shows it; it is
      plain exactly when there is no other. */
  lemma AttachedIsEarliest(z: Zone, wall: int)
    requires Regular(z) && !InGap(z, wall)
    ensures var (a, note) := AttachOffset(wall, z); var t := InstantOf(a);
            && a.wall == wall && Shows(z, t, wall)
            && (forall u :: Shows(z, u, wall) ==> t <= u)
            && (note.Plain? <==> forall u :: Shows(z, u, wall) ==> u == t)
            && !note.Nonexistent?
  {
    TheseShow(z, wall);
    var t := InstantOf(AttachOffset(wall, z).0);
    forall u | Shows(z, u, wall) ensures t <= u && (AttachOffset(wall, z).1.Plain? ==> u == t) {
      OnlyTheseShow(z, wall, u);
    }
    assert Shows(z, wall - OffsetOf(z, wall, true), wall);
  }

  /** One that does not exist is moved an hour on; the hour is enough exactly when that
      leaves the gap. */
  lemma MovedOutOfGapIff(z: Zone, wall: int)
    requires Regular(z) && InGap(z, wall)
    ensures var (a, note) := AttachOffset(wall, z);
            && note.Nonexistent? && a.wall == wall + HOUR
            && (Shows(z, InstantOf(a), wall + HOUR) <==> !InGap(z, wall + HOUR))
  {
    if !InGap(z, wall + HOUR) { TheseShow(z, wall + HOUR); }
    NoneShowsIff(z, wall + HOUR);
  }

  /** A zone that crossed the date line skipped a whole day: an hour on from a reading of
      that day is still the same day. */
  lemma SkippedDay()
    ensures var z := Change(Fixed(-10 * HOUR), 0, 14 * HOUR);
            && Regular(z) && InGap(z, 0) && InGap(z, HOUR)
            && var (a, note) := AttachOffset(0, z); a.wall == HOUR && !Shows(z, InstantOf(a), a.wall)
  {
    var z := Change(Fixed(-10 * HOUR), 0, 14 * HOUR);
    assert OffsetOf(z.before, 0, false) == -10 * HOUR && OffsetOf(z.before, HOUR, false) == -10 * HOUR;
    MovedOutOfGapIff(z, 0);
  }

  /** It is for gaps of an hour at most. */
  lemma {:induction false} AnHourIsEnough(z: Zone, wall: int)
    requires Regular(z) && InGap(z, wall)
    requires OffsetOf(z, wall, true) - OffsetOf(z, wall, false) <= HOUR
    ensures !InGap(z, wall + HOUR)
    decreases z
  {
    if wall < Threshold(z, true) {
      AnHourIsEnough(z.before, wall);
      GapIsBeforeThreshold(z.before, wall);
    } else {
      SettledAfter(z.before, wall, false);
    }
  }

  lemma {:induction false} GapIsBeforeThreshold(z: Zone, wall: int)
    requires Regular(z) && InGap(z, wall)
    ensures z.Change? && wall < Threshold(z, false)
    decreases z
  {
    if wall < Threshold(z, true) { GapIsBeforeThreshold(z.before, wall); }
  }

  // ----- instants and their readings

  /** `fromtimestamp(t, tz=zone)`, and `astimezone`. */
  function FromInstant(z: Zone, t: int): Aware
  {
    var wall := t + OffsetAt(z, t);
    Aware(wall, wall - OffsetOf(z, wall, false) != t, z)
  }

  lemma FromInstantKeepsInstant(z: Zone, t: int)
    requires Regular(z)
    ensures InstantOf(FromInstant(z, t)) == t
  {
    OnlyTheseShow(z, t + OffsetAt(z, t), t);
  }

  datatype Semantics = Instant | WallClock

  /** The reading an mtime stands for, with its offset (`_wall_clock` and what follows it). */
  function CapturedOfMtime(mtime: int, z: Zone, semantics: Semantics): Aware
  {
    match semantics
    case Instant => FromInstant(z, mtime)
    case WallClock => AttachOffset(mtime, z).0
  }

  function MtimeOf(a: Aware, semantics: Semantics): int
  {
    match semantics
    case Instant => InstantOf(a)
    case WallClock => a.wall
  }

  /** The file's time comes back, except that a reading in a gap comes back an hour later. */
  lemma MtimeRoundTrip(mtime: int, z: Zone, semantics: Semantics)
    requires Regular(z)
    ensures MtimeOf(CapturedOfMtime(mtime, z, semantics), semantics) ==
              if semantics.WallClock? && InGap(z, mtime) then mtime + HOUR else mtime
  {
    FromInstantKeepsInstant(z, mtime);
  }

  // ----- the zone of the place

  datatype Captured = Captured(at: Aware, tz: string)

  /** `with_zone_override`: the same instant on another clock. */
  function WithZoneOverride(value: Captured, name: Option<string>, zones: string -> Zone): Captured
  {
    if name.None? then value else Captured(FromInstant(zones(name.value), InstantOf(value.at)), name.value)
  }

  ghost predicate RegularZones(zones: string -> Zone) { forall name :: Regular(zones(name)) }

  /** The instant never moves, and of several overrides only the last one shows. */
  lemma OverridesCompose(value: Captured, first: Option<string>, last: string, zones: string -> Zone)
    requires RegularZones(zones)
    ensures InstantOf(WithZoneOverride(value, first, zones).at) == InstantOf(value.at)
    ensures WithZoneOverride(WithZoneOverride(value, first, zones), Some(last), zones) == WithZoneOverride(value,
        Some(last), zones)
  {
    if first.Some? { FromInstantKeepsInstant(zones(first.value), InstantOf(value.at)); }
  }

  /** A file time taken from an overridden value is the one of the place: as a wall clock
      it is right exactly when both clocks show the same. */
  lemma OverriddenWallClockIff(mtime: int, z: Zone, name: string, zones: string -> Zone)
    requires Regular(z) && RegularZones(zones) && !InGap(z, mtime)
    ensures var value := Captured(CapturedOfMtime(mtime, z, WallClock), "");
            var t := InstantOf(value.at);
            && MtimeOf(WithZoneOverride(value, Some(name), zones).at, WallClock) == t + OffsetAt(zones(name), t)
            && (MtimeOf(WithZoneOverride(value, Some(name), zones).at, WallClock) == mtime <==>
                  OffsetAt(zones(name), t) == OffsetAt(z, t))
  {
    AttachedIsEarliest(z, mtime);
  }

  /** A camera on one clock, a place on another: the derived file time is an hour off. */
  lemma PlaceIsAnHourOff()
    ensures var zones := (name: string) => Fixed(HOUR);
            var value := Captured(CapturedOfMtime(0, Fixed(0), WallClock), "camera");
            MtimeOf(WithZoneOverride(value, Some("place"), zones).at, WallClock) == HOUR
  {
    var zones := (name: string) => Fixed(HOUR);
    OverriddenWallClockIff(0, Fixed(0), "place", zones);
  }

  /** What is written down can be read back as the same instant. */
  function Written(a: Aware): Stored { Stored(a.wall, OffsetOf(a.zone, a.wall, a.fold)) }

  lemma WrittenKeepsInstant(z: Zone, t: int)
    requires Regular(z)
    ensures Written(FromInstant(z, t)) == Stored(t + OffsetAt(z, t), OffsetAt(z, t))
    ensures Written(FromInstant(z, t)).Instant() == t
  {
    FromInstantKeepsInstant(z, t);
  }

  // ----- where a time comes from

  datatype Source = Filename | Exif | Container | Mtime

  /** The `creation_time` of a container: its digits, its offset if it gives one, and
      whether it is the value of a clock that was never set. */
  datatype ContainerTime = ContainerTime(wall: int, offset: Option<int>, unset: bool)

  datatype Evidence = Evidence(filename: Option<int>, exif: Option<int>, container: Option<ContainerTime>, mtime: int)

  /** What the profile declares; the chain always ends with the file's own time. */
  datatype Rule = Rule(chain: seq<Source>, mtime: Semantics, container: Semantics)

  datatype Reading = Naive(wall: int) | Exact(t: int)

  function ReadFrom(e: Evidence, rule: Rule, source: Source): Option<Reading>
  {
    match source
    case Filename => if e.filename.Some? then Some(Naive(e.filename.value)) else None
    case Exif => if e.exif.Some? then Some(Naive(e.exif.value)) else None
    case Container =>
      if e.container.None? || e.container.value.unset then None
      else if rule.container.WallClock? then Some(Naive(e.container.value.wall))
      else if e.container.value.offset.None? then None
      else Some(Exact(e.container.value.wall - e.container.value.offset.value))
    case Mtime => Some(if rule.mtime.WallClock? then Naive(e.mtime) else Exact(e.mtime))
  }

  /** The sources are tried in order, and the first that says something is taken. */
  method WallClockOf(e: Evidence, rule: Rule) returns (reading: Reading, k: nat)
    requires rule.chain != [] && rule.chain[|rule.chain| - 1] == Mtime
    ensures k < |rule.chain| && ReadFrom(e, rule, rule.chain[k]) == Some(reading)
    ensures forall j :: 0 <= j < k ==> ReadFrom(e, rule, rule.chain[j]).None?
  {
    k := 0;
    while k < |rule.chain| - 1
      invariant 0 <= k < |rule.chain|
      invariant forall j :: 0 <= j < k ==> ReadFrom(e, rule, rule.chain[j]).None?
    {
      var found := ReadFrom(e, rule, rule.chain[k]);
      if found.Some? { return found.value, k; }
      k := k + 1;
    }
    reading := if rule.mtime.WallClock? then Naive(e.mtime) else Exact(e.mtime);
  }

  /** `resolve_captured_at`. What is known exactly keeps its instant; a wall clock reading
      that exists is kept and stands for the first instant that shows it. Without a zone
      readings are left as they are. */
  method Resolve(e: Evidence, rule: Rule, zone: Option<Zone>) returns (at: Aware, k: nat)
    requires rule.chain != [] && rule.chain[|rule.chain| - 1] == Mtime
    requires zone.Some? ==> Regular(zone.value)
    ensures k < |rule.chain| && ReadFrom(e, rule, rule.chain[k]).Some?
    ensures forall j :: 0 <= j < k ==> ReadFrom(e, rule, rule.chain[j]).None?
    ensures at.zone == if zone.Some? then zone.value else Fixed(0)
    ensures match ReadFrom(e, rule, rule.chain[k]).value
            case Exact(t) => InstantOf(at) == t
            case Naive(wall) =>
              if InGap(at.zone, wall) then at.wall == wall + HOUR
              else at.wall == wall && Shows(at.zone, InstantOf(at), wall) && forall u :: Shows(at.zone, u, wall) ==>
                  InstantOf(at) <= u
  {
    var reading;
    reading, k := WallClockOf(e, rule);
    var z := if zone.Some? then zone.value else Fixed(0);
    match reading {
      case Exact(t) =>
        FromInstantKeepsInstant(z, t);
        at := FromInstant(z, t);
      case Naive(wall) =>
        if !InGap(z, wall) { AttachedIsEarliest(z, wall); }
        at := if zone.None? then Aware(wall, false, z) else AttachOffset(wall, z).0;
    }
  }
}
