/** The windows of a file that its quick fingerprint reads. */
module Fingerprint {
  const WINDOW_BYTES: nat := 65536
  const WINDOW_COUNT: nat := 16

  /** Python's `round` of a quotient: to the nearest, and to the even one of two as near. */
  function RoundHalfEven(n: nat, d: nat): (q: nat)
    requires 0 < d
    ensures 2 * (n - q * d) <= d && 2 * (q * d - n) <= d
  {
    var low, rest := n / d, n % d;
    assert n == low * d + rest && (low + 1) * d == low * d + d;
    if 2 * rest < d || (2 * rest == d && low % 2 == 0) then low else low + 1
  }

  predicate IsTie(n: nat, d: nat)
    requires 0 < d
  {
    2 * (n % d) == d
  }

  function Offset(size: nat, i: nat): nat
    requires WINDOW_BYTES * WINDOW_COUNT < size
  {
    RoundHalfEven(i * (size - WINDOW_BYTES), WINDOW_COUNT - 1)
  }

  /** An odd divisor leaves no remainder halfway. */
  lemma NoTies(size: nat, i: nat)
    requires WINDOW_BYTES * WINDOW_COUNT < size
    ensures !IsTie(i * (size - WINDOW_BYTES), WINDOW_COUNT - 1)
  {
  }

  /** The quotient as a double: rounded to 53 bits. */
  predicate IsDoubleOf(q: real, n: nat, d: nat)
  {
    -(n as real) <= (q * d as real - n as real) * 9007199254740992.0 <= n as real
  }

  /** `round` of a double. */
  predicate IsRoundOf(k: int, q: real)
  {
    && -1.0 <= 2.0 * (k as real - q) <= 1.0
    && ((2.0 * (k as real - q) == 1.0 || 2.0 * (k as real - q) == -1.0) ==> k % 2 == 0)
  }

  /** The source divides in floating point. For files below 2^48 bytes that comes to the same:
      the quotient is never so near a half that its last bit could matter. */
  lemma DoubleRoundsTheSame(size: nat, i: nat, q: real, k: int)
    requires WINDOW_BYTES * WINDOW_COUNT < size <= 0x1_0000_0000_0000 && i < WINDOW_COUNT
    requires IsDoubleOf(q, i * (size - WINDOW_BYTES), WINDOW_COUNT - 1)
    ensures IsRoundOf(k, q) <==> k == Offset(size, i)
  {
    var n := i * (size - WINDOW_BYTES);
    assert n < 15 * 0x1_0000_0000_0000;
    NearlyThere(n, q, k);
  }

  lemma NearlyThere(n: nat, q: real, k: int)
    requires n < 15 * 0x1_0000_0000_0000 && IsDoubleOf(q, n, 15)
    ensures IsRoundOf(k, q) <==> k == RoundHalfEven(n, 15)
  {
    var off := q * 15.0 - n as real;
    assert -1.0 < 2.0 * off < 1.0;
    var r := RoundHalfEven(n, 15);
    assert -7 <= r * 15 - n <= 7;
    if IsRoundOf(k, q) {
      assert -15.0 <= 2.0 * (15.0 * k as real - 15.0 * q) <= 15.0;
      assert -16.0 < 2.0 * (15.0 * k as real - n as real) < 16.0;
      assert -8 < 15 * k - n < 8;
    }
    assert -15.0 < 2.0 * (15.0 * r as real - 15.0 * q) < 15.0;
  }

  lemma StepOn(span: nat, i: nat)
    ensures (i + 1) * span == i * span + span
  {
  }

  /** Each window begins after the one before it has ended. */
  lemma NextWindowIsClear(size: nat, i: nat)
    requires WINDOW_BYTES * WINDOW_COUNT < size
    ensures Offset(size, i) + WINDOW_BYTES <= Offset(size, i + 1)
  {
    StepOn(size - WINDOW_BYTES, i);
    var n := i * (size - WINDOW_BYTES);
    var a, b := RoundHalfEven(n, 15), RoundHalfEven(n + (size - WINDOW_BYTES), 15);
    assert -15 <= 2 * (n - a * 15) <= 15;
    assert -15 <= 2 * (n + size - WINDOW_BYTES - b * 15) <= 15;
  }

  lemma {:induction false} WindowsAreApart(size: nat, i: nat, j: nat)
    requires WINDOW_BYTES * WINDOW_COUNT < size && i < j
    ensures Offset(size, i) + WINDOW_BYTES <= Offset(size, j)
    decreases j
  {
    NextWindowIsClear(size, j - 1);
    if i < j - 1 { WindowsAreApart(size, i, j - 1); }
  }

  /** The first begins with the file and the last ends with it. */
  lemma EndsMeet(size: nat)
    requires WINDOW_BYTES * WINDOW_COUNT < size
    ensures Offset(size, 0) == 0 && Offset(size, WINDOW_COUNT - 1) + WINDOW_BYTES == size
  {
  }

  predicate Rising(s: seq<nat>) { forall i, j :: 0 <= i < j < |s| ==> s[i] < s[j] }

  lemma Between(low: seq<nat>, x: nat, high: seq<nat>)
    requires Rising(low + high)
    requires forall i :: 0 <= i < |low| ==> low[i] < x
    requires forall i :: 0 <= i < |high| ==> x < high[i]
    ensures Rising(low + [x] + high)
    ensures forall y :: y in low + [x] + high <==> y in low + high || y == x
  {
    var all, more := low + high, low + [x] + high;
    forall i, j | 0 <= i < j < |more| ensures more[i] < more[j] {
      assert i < |low| ==> more[i] == all[i];
      assert j < |low| ==> more[j] == all[j];
      assert |low| < i ==> more[i] == all[i - 1];
      assert |low| < j ==> more[j] == all[j - 1];
    }
  }

  /** Puts a number in its place, unless it is there. */
  method Insert(sorted: seq<nat>, x: nat) returns (more: seq<nat>)
    requires Rising(sorted)
    ensures Rising(more)
    ensures forall y :: y in more <==> y in sorted || y == x
    ensures (forall i :: 0 <= i < |sorted| ==> sorted[i] < x) ==> more == sorted + [x]
  {
    hide Rising;
    var at := |sorted|;
    while 0 < at && x <= sorted[at - 1]
      invariant 0 <= at <= |sorted|
      invariant at < |sorted| ==> x <= sorted[at]
    {
      at := at - 1;
    }
    if at < |sorted| && sorted[at] == x {
      return sorted;
    }
    Splits(sorted, at, x);
    var low, high := sorted[..at], sorted[at..];
    assert sorted == low + high;
    more := low + [x] + high;
    Between(low, x, high);
    if forall i :: 0 <= i < |sorted| ==> sorted[i] < x {
      assert at == |sorted| && high == [];
      assert more == sorted + [x];
    }
  }

  lemma Splits(sorted: seq<nat>, at: nat, x: nat)
    requires Rising(sorted) && at <= |sorted|
    requires at < |sorted| ==> x < sorted[at]
    requires 0 < at ==> sorted[at - 1] < x
    ensures forall i :: 0 <= i < at ==> sorted[..at][i] < x
    ensures forall i :: 0 <= i < |sorted| - at ==> x < sorted[at..][i]
  {
  }

  /** `sorted(set(offsets))`. */
  method SortedDistinct(offsets: seq<nat>) returns (sorted: seq<nat>)
    ensures Rising(sorted)
    ensures forall x :: x in sorted <==> x in offsets
    ensures Rising(offsets) ==> sorted == offsets
  {
    sorted := [];
    for k := 0 to |offsets|
      invariant Rising(sorted)
      invariant forall x :: x in sorted <==> x in offsets[..k]
      invariant Rising(offsets) ==> sorted == offsets[..k]
    {
      assert offsets[..k + 1] == offsets[..k] + [offsets[k]];
      sorted := Insert(sorted, offsets[k]);
    }
    assert offsets[..|offsets|] == offsets;
  }

  /** The offsets of the windows. Above a mebibyte there are exactly sixteen windows of
      64 KiB: they are in order, do not touch each other and lie in the file, the first
      at its start and the last at its end, and removing duplicates removes none. */
  method WindowOffsets(size: nat) returns (offsets: seq<nat>)
    ensures size <= WINDOW_BYTES * WINDOW_COUNT ==> offsets == [0]
    ensures WINDOW_BYTES * WINDOW_COUNT < size ==>
              && |offsets| == WINDOW_COUNT
              && offsets[0] == 0 && offsets[WINDOW_COUNT - 1] + WINDOW_BYTES == size
              && (forall i, j :: 0 <= i < j < WINDOW_COUNT ==> offsets[i] + WINDOW_BYTES <= offsets[j])
              && (forall i :: 0 <= i < WINDOW_COUNT ==> offsets[i] + WINDOW_BYTES <= size)
              && (forall i :: 0 <= i < WINDOW_COUNT ==>
                    -15 < 2 * (15 * offsets[i] - i * (size - WINDOW_BYTES)) < 15)   // the nearest, and no tie
  {
    if size <= WINDOW_BYTES * WINDOW_COUNT { return [0]; }
    var all: seq<nat> := [];
    for i := 0 to WINDOW_COUNT
      invariant |all| == i && forall k :: 0 <= k < i ==> all[k] == Offset(size, k)
    {
      all := all + [Offset(size, i)];
    }
    forall i, j | 0 <= i < j < WINDOW_COUNT ensures all[i] + WINDOW_BYTES <= all[j] { WindowsAreApart(size, i, j); }
    EndsMeet(size);
    assert Rising(all);
    offsets := SortedDistinct(all);
    forall i | 0 <= i < WINDOW_COUNT ensures -15 < 2 * (15 * offsets[i] - i * (size - WINDOW_BYTES)) < 15 {
      NoTies(size, i);
    }
  }
}
