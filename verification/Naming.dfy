/** The names a published file may take in the library.

    When the wanted name is taken the publisher walks a fixed series of
    alternatives. The series uses neither randomness nor the clock, so that a
    publication resumed after a crash walks the same names again.
 */
module Naming {
  /** The text of a time stamp or of a hash: never a path of its own. */
  type Plain = s: string | '/' !in s witness ""

  /** Index just after the last '/' of a path (0 when there is none). */
  function NameStart(path: string): (k: nat)
    ensures k <= |path|
    ensures k == 0 || path[k - 1] == '/'
    ensures forall j :: k <= j < |path| ==> path[j] != '/'
  {
    if path == "" then 0
    else if path[|path| - 1] == '/' then |path|
    else NameStart(path[..|path| - 1])
  }

  /** Index of the last '.' in path[from..], or |path| when there is none. */
  function LastDot(path: string, from: nat): (d: nat)
    requires from <= |path|
    ensures from <= d <= |path|
    ensures d < |path| ==> path[d] == '.'
    ensures forall j :: d < j < |path| ==> path[j] != '.'
    ensures d == |path| ==> forall j :: from <= j < |path| ==> path[j] != '.'
    decreases |path| - from
  {
    if from == |path| then |path|
    else
      var later := LastDot(path, from + 1);
      if later < |path| then later
      else if path[from] == '.' then from
      else |path|
  }

  /** Where the extension starts, as `PurePosixPath.suffix` sees it: the last dot
      of the final component, provided some other character comes before it. */
  function SuffixStart(path: string): (s: nat)
    ensures NameStart(path) <= s <= |path|
    ensures s < |path| ==> path[s] == '.' && exists j :: NameStart(path) <= j < s && path[j] != '.'
  {
    var n := NameStart(path);
    var d := LastDot(path, n);
    if exists j :: n <= j < d && path[j] != '.' then d else |path|
  }

  function Digit(d: nat): (c: char)
    requires d < 10
    ensures '0' <= c <= '9'
  {
    '0' + d as char
  }

  function Decimal(n: nat): (s: string)
    ensures s != ""
    ensures forall j :: 0 <= j < |s| ==> '0' <= s[j] <= '9'
  {
    if n < 10 then [Digit(n)] else Decimal(n / 10) + [Digit(n % 10)]
  }

  lemma {:induction false} DecimalInjective(a: nat, b: nat)
    requires Decimal(a) == Decimal(b)
    ensures a == b
  {
    var s, t := Decimal(a), Decimal(b);
    assert s[|s| - 1] == t[|t| - 1];
    assert Digit(a % 10) == Digit(b % 10);
    assert a % 10 == b % 10;
    if a >= 10 && b >= 10 {
      assert s[..|s| - 1] == Decimal(a / 10);
      assert t[..|t| - 1] == Decimal(b / 10);
      DecimalInjective(a / 10, b / 10);
    }
  }

  /** What is put between the stem and the extension for the k-th candidate. */
  function Tag(stamp: string, short: string, k: nat): string
  {
    if k == 0 then ""
    else if k == 1 then "_" + stamp
    else if k == 2 then "_" + stamp + "_" + short
    else "_" + stamp + "_" + short + "_" + Decimal(k - 1)
  }

  /** The k-th name yielded by `candidate_paths`. */
  function Candidate(desired: string, stamp: string, short: string, k: nat): string
  {
    var s := SuffixStart(desired);
    desired[..s] + Tag(stamp, short, k) + desired[s..]
  }

  lemma TagInjective(stamp: string, short: string, i: nat, k: nat)
    requires Tag(stamp, short, i) == Tag(stamp, short, k)
    ensures i == k
  {
    if i >= 3 && k >= 3 {
      var head := "_" + stamp + "_" + short + "_";
      assert Tag(stamp, short, i)[|head|..] == Decimal(i - 1);
      assert Tag(stamp, short, k)[|head|..] == Decimal(k - 1);
      DecimalInjective(i - 1, k - 1);
    } else {
      assert |Tag(stamp, short, i)| == |Tag(stamp, short, k)|;
    }
  }

  /** No name of the series comes twice. */
  lemma CandidatesDistinct(desired: string, stamp: string, short: string, i: nat, k: nat)
    requires i != k
    ensures Candidate(desired, stamp, short, i) != Candidate(desired, stamp, short, k)
  {
    if Candidate(desired, stamp, short, i) == Candidate(desired, stamp, short, k) {
      var s := SuffixStart(desired);
      var a, b := Tag(stamp, short, i), Tag(stamp, short, k);
      var x, y := Candidate(desired, stamp, short, i), Candidate(desired, stamp, short, k);
      assert |a| == |b|;
      assert x[s..s + |a|] == a;
      assert y[s..s + |b|] == b;
      TagInjective(stamp, short, i, k);
    }
  }

  /** The series starts with the wanted name itself. */
  lemma FirstCandidate(desired: string, stamp: string, short: string)
    ensures Candidate(desired, stamp, short, 0) == desired
  {
    assert desired[..SuffixStart(desired)] + "" + desired[SuffixStart(desired)..] == desired;
  }

  /** Every alternative stays in the directory of the wanted name, and keeps its extension. */
  lemma CandidatesStayInDirectory(desired: string, stamp: string, short: string, k: nat)
    requires '/' !in stamp && '/' !in short
    ensures var c := Candidate(desired, stamp, short, k);
            && NameStart(c) == NameStart(desired)
            && c[..NameStart(c)] == desired[..NameStart(desired)]
            && desired[SuffixStart(desired)..] <= c[|c| - (|desired| - SuffixStart(desired))..]
  {
    var c := Candidate(desired, stamp, short, k);
    var n, s := NameStart(desired), SuffixStart(desired);
    var t := Tag(stamp, short, k);
    assert '/' !in t;
    assert c[..s] == desired[..s];
    assert c[s..s + |t|] == t;
    assert c[s + |t|..] == desired[s..];
    forall j | n <= j < |c| ensures c[j] != '/' {
      if j < s {
        assert c[j] == c[..s][j];
      } else if j < s + |t| {
        assert c[j] == c[s..s + |t|][j - s];
      } else {
        assert c[j] == c[s + |t|..][j - s - |t|];
        assert desired[s..][j - s - |t|] == desired[j - |t|];
      }
    }
    assert n == 0 || c[n - 1] == c[..s][n - 1];
    NameStartUnique(c, n);
  }

  lemma NameStartUnique(path: string, k: nat)
    requires k <= |path|
    requires k == 0 || path[k - 1] == '/'
    requires forall j :: k <= j < |path| ==> path[j] != '/'
    ensures NameStart(path) == k
  {
    var n := NameStart(path);
    assert forall j :: n <= j < |path| ==> path[j] != '/';
  }

  // ----- the trees

  /** `library_rel_path`: originals and results are apart, and so are profiles. */
  function RelPath(original: bool, slug: Plain, source: string): string
  {
    (if original then "library" else "derived") + "/" + slug + "/" + source
  }

  predicate InTree(original: bool, slug: Plain, path: string) { RelPath(original, slug, "") <= path }

  /** The tree a path is in tells what the file is, and whose. */
  lemma TreeTells(original: bool, slug: Plain, other: bool, name: Plain, path: string)
    requires InTree(original, slug, path) && InTree(other, name, path)
    ensures original == other && slug == name
  {
    var a, b := RelPath(original, slug, ""), RelPath(other, name, "");
    assert path[0] == a[0] == b[0];
    SameUpToSlash(slug, name, path[8..]);
  }

  lemma SameUpToSlash(a: Plain, b: Plain, rest: string)
    requires a + "/" <= rest && b + "/" <= rest
    ensures a == b
  {
    assert rest[..|a|] == a && rest[|a|] == '/' && rest[..|b|] == b && rest[|b|] == '/';
    assert forall j :: 0 <= j < |a| ==> rest[j] == a[j] != '/';
    assert forall j :: 0 <= j < |b| ==> rest[j] == b[j] != '/';
  }

  /** `_source_parent` accepts exactly the recordings of the profile. */
  lemma SourceParentIff(slug: Plain, original: bool, name: Plain, source: string)
    ensures InTree(true, slug, RelPath(original, name, source)) <==> original && name == slug
  {
    var path := RelPath(original, name, source);
    assert RelPath(original, name, "") <= path;
    if InTree(true, slug, path) { TreeTells(true, slug, original, name, path); }
  }

  /** The alternatives of a name are in the tree it is in. */
  lemma CandidatesStayInTree(original: bool, slug: Plain, desired: string, stamp: Plain, short: Plain, k: nat)
    requires InTree(original, slug, desired)
    ensures InTree(original, slug, Candidate(desired, stamp, short, k))
  {
    var root, c := RelPath(original, slug, ""), Candidate(desired, stamp, short, k);
    CandidatesStayInDirectory(desired, stamp, short, k);
    var n := NameStart(desired);
    assert desired[|root| - 1] == root[|root| - 1] == '/';
    assert |root| <= n;
    assert desired[..n][..|root|] == root;
    assert c[..n][..|root|] == root;
  }
}
