/** The photo list with stacks folded: which files are hidden, and which tile names them. */
module Listing {
  import opened Options

  /** A row of `source_entry`: one sighting of a file on a card. `place` is the card and
      the mark of having been seen together; both must agree. */
  datatype Sighting = Sighting(place: Option<(nat, nat)>, media: Option<nat>, published: bool, extension: string)

  /** Ordered extensions per profile (the stack rule, when it is enabled), and which
      profile each file belongs to. */
  datatype Library = Library(seen: set<Sighting>, profile: map<nat, nat>)

  type Rules = map<nat, seq<string>>

  predicate Ranked(rules: Rules, p: nat, extension: string) { p in rules && extension in rules[p] }

  /** Its place in the list. */
  predicate RankIs(rules: Rules, p: nat, extension: string, rank: nat)
  {
    p in rules && rank < |rules[p]| && rules[p][rank] == extension
  }

  predicate Shows(s: Sighting, m: nat) { s.media == Some(m) && s.published }

  predicate Together(s: Sighting, t: Sighting) { s.place.Some? && s.place == t.place }

  predicate SeenBeside(lib: Library, m: nat, t: Sighting)
  {
    t.media.Some? && t.published && exists s :: s in lib.seen && Shows(s, m) && Together(s, t)
  }

  /** `_ambiguous_exists_sql`: beside some sightings of the file, two files have the same
      extension. */
  predicate Ambiguous(lib: Library, m: nat)
  {
    exists a, b :: a in lib.seen && b in lib.seen && SeenBeside(lib, m, a) && SeenBeside(lib, m, b)
                   && a.media != b.media && a.extension == b.extension
  }

  /** `first` comes before `m` by these two sightings. */
  ghost predicate Outranks(rules: Rules, lib: Library, s: Sighting, m: nat, t: Sighting, first: nat)
  {
    && s in lib.seen && t in lib.seen && Shows(s, m) && Shows(t, first) && Together(s, t) && first != m
    && m in lib.profile && first in lib.profile
    && exists i: nat, j: nat :: i < j && RankIs(rules, lib.profile[first], t.extension, i)
        && RankIs(rules, lib.profile[m], s.extension, j)
  }

  ghost predicate HiddenBy(rules: Rules, lib: Library, m: nat, first: nat)
  {
    !Ambiguous(lib, first) && exists s, t :: Outranks(rules, lib, s, m, t, first)
  }

  ghost predicate Hidden(rules: Rules, lib: Library, passing: set<nat>, m: nat)
  {
    !Ambiguous(lib, m) && exists first :: first in passing && HiddenBy(rules, lib, m, first)
  }

  ghost predicate Listed(rules: Rules, lib: Library, passing: set<nat>, m: nat)
  {
    m in passing && !Hidden(rules, lib, passing, m)
  }

  predicate Joins(rules: Rules, lib: Library, x: nat, t: Sighting)
  {
    SeenBeside(lib, x, t) && t.media.value in lib.profile && Ranked(rules, lib.profile[t.media.value], t.extension)
  }

  /** `_members_of`: the files named on the tile of `x`; none unless there are two. */
  ghost predicate NamedOn(rules: Rules, lib: Library, x: nat, m: nat)
  {
    && !Ambiguous(lib, x)
    && (exists t :: t in lib.seen && Joins(rules, lib, x, t) && t.media == Some(m))
    && (exists t :: t in lib.seen && Joins(rules, lib, x, t) && t.media != Some(m))
  }

  /** Every file that passes the filter is listed or named on a tile that is. */
  ghost predicate NothingLost(rules: Rules, lib: Library, passing: set<nat>)
  {
    forall m :: m in passing ==>
      Listed(rules, lib, passing, m) || exists x :: Listed(rules, lib, passing, x) && NamedOn(rules, lib, x, m)
  }

  /** A file has one extension wherever it was seen. */
  predicate OneExtension(lib: Library)
  {
    forall s, t :: s in lib.seen && t in lib.seen && s.media.Some? && s.media == t.media ==> s.extension == t.extension
  }

  predicate Enumerated(rules: Rules)
  {
    forall p :: p in rules ==> forall i, j :: 0 <= i < j < |rules[p]| ==> rules[p][i] != rules[p][j]
  }

  predicate TwoAtMost(rules: Rules) { forall p :: p in rules ==> |rules[p]| <= 2 }

  // ----- with two extensions nothing is lost

  /** What hides a file names it. */
  lemma HiderNames(rules: Rules, lib: Library, m: nat, first: nat)
    requires HiddenBy(rules, lib, m, first)
    ensures NamedOn(rules, lib, first, m)
  {
    hide Ambiguous;
    var s, t :| Outranks(rules, lib, s, m, t, first);
    assert Shows(t, first) && Together(t, s) && Together(t, t);
    assert SeenBeside(lib, first, s) && SeenBeside(lib, first, t);
    assert Joins(rules, lib, first, s) && Joins(rules, lib, first, t);
  }

  /** With two extensions, the first of a stack comes before everything. */
  lemma HiderIsFirst(rules: Rules, lib: Library, m: nat, first: nat, other: nat)
    requires Enumerated(rules) && TwoAtMost(rules) && OneExtension(lib)
    requires HiddenBy(rules, lib, m, first)
    ensures !HiddenBy(rules, lib, first, other)
  {
    hide Ambiguous;
  }

  lemma TwoLoseNothing(rules: Rules, lib: Library, passing: set<nat>)
    requires Enumerated(rules) && TwoAtMost(rules) && OneExtension(lib)
    ensures NothingLost(rules, lib, passing)
  {
    hide Ambiguous, HiddenBy, NamedOn, Enumerated, TwoAtMost, OneExtension;
    forall m | m in passing && !Listed(rules, lib, passing, m)
      ensures exists x :: Listed(rules, lib, passing, x) && NamedOn(rules, lib, x, m)
    {
      var first :| first in passing && HiddenBy(rules, lib, m, first);
      HiderNames(rules, lib, m, first);
      forall other | other in passing ensures !HiddenBy(rules, lib, first, other) {
        HiderIsFirst(rules, lib, m, first, other);
      }
      assert Listed(rules, lib, passing, first);
    }
  }

  // ----- with three something can be

  /** Three files of three extensions; the middle one was seen with the last on one card
      and with the first on another. */
  function Chain(p: nat, extensions: seq<string>): Library
    requires 3 <= |extensions|
  {
    Library(
      {Sighting(Some((0, 0)), Some(2), true, extensions[2]), Sighting(Some((0, 0)), Some(1), true, extensions[1]),
       Sighting(Some((1, 1)), Some(1), true, extensions[1]), Sighting(Some((1, 1)), Some(0), true, extensions[0])},
      map[0 := p, 1 := p, 2 := p])
  }

  lemma ChainIsClear(p: nat, extensions: seq<string>, m: nat)
    requires 3 <= |extensions|
    requires extensions[0] != extensions[1] && extensions[0] != extensions[2] && extensions[1] != extensions[2]
    ensures OneExtension(Chain(p, extensions)) && !Ambiguous(Chain(p, extensions), m)
  {
  }

  lemma OnlyFirstListed(rules: Rules, p: nat, x: nat)
    requires Enumerated(rules) && p in rules && 3 <= |rules[p]|
    ensures Listed(rules, Chain(p, rules[p]), {0, 1, 2}, x) ==> x == 0
  {
    ChainHides(rules, p);
    ChainIsClear(p, rules[p], x);
    hide Ambiguous, HiddenBy, Chain;
  }

  /** The last is hidden by the middle, the middle by the first, and the first only names
      the middle. */
  lemma ThreeLoseOne(rules: Rules, p: nat)
    requires Enumerated(rules) && p in rules && 3 <= |rules[p]|
    ensures OneExtension(Chain(p, rules[p])) && !NothingLost(rules, Chain(p, rules[p]), {0, 1, 2})
  {
    hide Ambiguous, HiddenBy, OneExtension, NamedOn, Chain, Listed;
    var lib, all := Chain(p, rules[p]), {0, 1, 2};
    assert rules[p][0] != rules[p][1] && rules[p][0] != rules[p][2] && rules[p][1] != rules[p][2];
    ChainIsClear(p, rules[p], 0);
    FirstNamesOthers(rules, p);
    OnlyFirstListed(rules, p, 2);
    forall x | Listed(rules, lib, all, x) ensures !NamedOn(rules, lib, x, 2) { OnlyFirstListed(rules, p, x); }
  }

  lemma ChainHides(rules: Rules, p: nat)
    requires Enumerated(rules) && p in rules && 3 <= |rules[p]|
    ensures HiddenBy(rules, Chain(p, rules[p]), 2, 1) && HiddenBy(rules, Chain(p, rules[p]), 1, 0)
  {
    var e := rules[p];
    var lib := Chain(p, e);
    ChainIsClear(p, e, 0);
    ChainIsClear(p, e, 1);
    hide Ambiguous;
    var last, middle := Sighting(Some((0, 0)), Some(2), true, e[2]), Sighting(Some((0, 0)), Some(1), true, e[1]);
    var again, first := Sighting(Some((1, 1)), Some(1), true, e[1]), Sighting(Some((1, 1)), Some(0), true, e[0]);
    var i: nat, j: nat, k: nat := 0, 1, 2;
    assert RankIs(rules, p, e[0], i) && RankIs(rules, p, e[1], j) && RankIs(rules, p, e[2], k);
    assert lib.profile[0] == lib.profile[1] == lib.profile[2] == p;
    assert Outranks(rules, lib, last, 2, middle, 1);
    assert Outranks(rules, lib, again, 1, first, 0);
  }

  lemma FirstNamesOthers(rules: Rules, p: nat)
    requires p in rules && 3 <= |rules[p]|
    ensures !NamedOn(rules, Chain(p, rules[p]), 0, 2)
  {
  }

  /** Folding loses no file, under any filter and whatever was seen, if and only if no
      stack rule has more than two extensions. Profiles may have more. */
  lemma FoldingLosesNothingIff(rules: Rules)
    requires Enumerated(rules)
    ensures TwoAtMost(rules) <==>
              forall lib: Library, passing: set<nat> :: OneExtension(lib) ==> NothingLost(rules, lib, passing)
  {
    hide NothingLost, OneExtension;
    if TwoAtMost(rules) {
      forall lib: Library, passing: set<nat> | OneExtension(lib) ensures NothingLost(rules, lib, passing) {
        TwoLoseNothing(rules, lib, passing);
      }
    } else {
      var p :| p in rules && |rules[p]| > 2;
      ThreeLoseOne(rules, p);
    }
  }
}
