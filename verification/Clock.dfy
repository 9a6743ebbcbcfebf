/** The text form of a point in time, which is the only one the database holds.

    Leases and claims are compared as text (`lease_expires_at > ?`). That is sound
    because the order of the texts is the order of the times, even though
    `isoformat` leaves the fraction out when it is zero.
 */
module Clock {
  import opened Naming

  datatype Instant = Instant(year: nat, month: nat, day: nat, hour: nat, minute: nat, second: nat, micro: nat)
  {
    predicate Valid()
    {
      year < 10000 && month < 100 && day < 100 && hour < 100 && minute < 100 && second < 100 && micro < 1000000
    }

    function Fields(): seq<nat> { [year, month, day, hour, minute, second, micro] }
  }

  /** Calendar order of two UTC times: the first field that differs decides. */
  predicate Before(a: seq<nat>, b: seq<nat>)
    requires |a| == |b|
  {
    a != [] && (a[0] < b[0] || (a[0] == b[0] && Before(a[1..], b[1..])))
  }

  /** SQLite's comparison of two texts. */
  predicate TextLess(s: string, t: string)
  {
    t != "" && (s == "" || s[0] < t[0] || (s[0] == t[0] && TextLess(s[1..], t[1..])))
  }

  function Pow10(w: nat): nat { if w == 0 then 1 else 10 * Pow10(w - 1) }

  /** `n` with exactly `w` digits. */
  function Pad(n: nat, w: nat): (s: string)
    requires n < Pow10(w)
    ensures |s| == w
  {
    if w == 0 then "" else Pad(n / 10, w - 1) + [Digit(n % 10)]
  }

  function Fraction(micro: nat): string
    requires micro < 1000000
  {
    if micro == 0 then "+00:00" else "." + Pad(micro, 6) + "+00:00"
  }

  function Iso(t: Instant): string
    requires t.Valid()
  {
    Pad(t.year, 4) + ("-" + (Pad(t.month, 2) + ("-" + (Pad(t.day, 2) + ("T" + (Pad(t.hour, 2) +
    (":" + (Pad(t.minute, 2) + (":" + (Pad(t.second, 2) + Fraction(t.micro)))))))))))
  }

  /** Texts that start with parts of the same length are compared part by part. */
  lemma {:induction false} PartByPart(p: string, q: string, x: string, y: string)
    requires |p| == |q|
    ensures TextLess(p + x, q + y) == (TextLess(p, q) || (p == q && TextLess(x, y)))
  {
    if p == "" {
      assert p + x == x && q + y == y;
    } else {
      assert (p + x)[1..] == p[1..] + x && (q + y)[1..] == q[1..] + y;
      PartByPart(p[1..], q[1..], x, y);
      assert p == [p[0]] + p[1..] && q == [q[0]] + q[1..];
    }
  }

  lemma {:induction false} PadOrder(a: nat, b: nat, w: nat)
    requires a < Pow10(w) && b < Pow10(w)
    ensures TextLess(Pad(a, w), Pad(b, w)) == (a < b)
    ensures Pad(a, w) == Pad(b, w) ==> a == b
  {
    if w > 0 {
      var p, q, x, y := Pad(a / 10, w - 1), Pad(b / 10, w - 1), [Digit(a % 10)], [Digit(b % 10)];
      PadOrder(a / 10, b / 10, w - 1);
      PartByPart(p, q, x, y);
      assert Pad(a, w) == p + x && Pad(b, w) == q + y;
      if Pad(a, w) == Pad(b, w) {
        assert (p + x)[..w - 1] == p && (q + y)[..w - 1] == q;
        assert (p + x)[w - 1] == x[0] && (q + y)[w - 1] == y[0];
      }
    }
  }

  /** One padded field and what follows it. */
  lemma FieldOrder(a: nat, b: nat, w: nat, x: string, y: string)
    requires a < Pow10(w) && b < Pow10(w)
    ensures TextLess(Pad(a, w) + x, Pad(b, w) + y) == (a < b || (a == b && TextLess(x, y)))
  {
    PadOrder(a, b, w);
    PartByPart(Pad(a, w), Pad(b, w), x, y);
    if a == b { NotLess(Pad(a, w)); }
  }

  lemma {:induction false} NotLess(s: string)
    ensures !TextLess(s, s)
  {
    if s != "" { NotLess(s[1..]); }
  }

  lemma FractionOrder(a: nat, b: nat)
    requires a < 1000000 && b < 1000000
    ensures TextLess(Fraction(a), Fraction(b)) == (a < b)
  {
    assert Pow10(6) == 1000000;
    if a == 0 && b == 0 {
      NotLess(Fraction(0));
    } else if a == 0 {
      assert Fraction(b)[0] == '.';
    } else if b == 0 {
      assert Fraction(a)[0] == '.';
    } else {
      FieldOrder(a, b, 6, "+00:00", "+00:00");
      NotLess("+00:00");
      PartByPart(".", ".", Pad(a, 6) + "+00:00", Pad(b, 6) + "+00:00");
      NotLess(".");
      assert Fraction(a) == "." + (Pad(a, 6) + "+00:00") && Fraction(b) == "." + (Pad(b, 6) + "+00:00");
    }
  }

  lemma SeparatorOrder(c: char, x: string, y: string)
    ensures TextLess([c] + x, [c] + y) == TextLess(x, y)
  {
    assert ([c] + x)[1..] == x && ([c] + y)[1..] == y;
  }

  /** The order of the texts is the order of the times. */
  lemma IsoOrder(a: Instant, b: Instant)
    requires a.Valid() && b.Valid()
    ensures TextLess(Iso(a), Iso(b)) == Before(a.Fields(), b.Fields())
  {
    assert Pow10(2) == 100 && Pow10(4) == 10000;
    FractionOrder(a.micro, b.micro);
    var s6, t6 := Fraction(a.micro), Fraction(b.micro);
    FieldOrder(a.second, b.second, 2, s6, t6);
    var s5, t5 := Pad(a.second, 2) + s6, Pad(b.second, 2) + t6;
    SeparatorOrder(':', s5, t5);
    FieldOrder(a.minute, b.minute, 2, ":" + s5, ":" + t5);
    var s4, t4 := Pad(a.minute, 2) + (":" + s5), Pad(b.minute, 2) + (":" + t5);
    SeparatorOrder(':', s4, t4);
    FieldOrder(a.hour, b.hour, 2, ":" + s4, ":" + t4);
    var s3, t3 := Pad(a.hour, 2) + (":" + s4), Pad(b.hour, 2) + (":" + t4);
    SeparatorOrder('T', s3, t3);
    FieldOrder(a.day, b.day, 2, "T" + s3, "T" + t3);
    var s2, t2 := Pad(a.day, 2) + ("T" + s3), Pad(b.day, 2) + ("T" + t3);
    SeparatorOrder('-', s2, t2);
    FieldOrder(a.month, b.month, 2, "-" + s2, "-" + t2);
    var s1, t1 := Pad(a.month, 2) + ("-" + s2), Pad(b.month, 2) + ("-" + t2);
    SeparatorOrder('-', s1, t1);
    FieldOrder(a.year, b.year, 4, "-" + s1, "-" + t1);
    FieldsOrder(a, b);
  }

  lemma FieldsOrder(a: Instant, b: Instant)
    ensures Before(a.Fields(), b.Fields()) ==
            (a.year < b.year || (a.year == b.year &&
            (a.month < b.month || (a.month == b.month &&
            (a.day < b.day || (a.day == b.day &&
            (a.hour < b.hour || (a.hour == b.hour &&
            (a.minute < b.minute || (a.minute == b.minute &&
            (a.second < b.second || (a.second == b.second && a.micro < b.micro))))))))))))
  {
    var f, g := a.Fields(), b.Fields();
    assert f[1..][1..] == f[2..] && f[2..][1..] == f[3..] && f[3..][1..] == f[4..] && f[4..][1..] == f[5..]
        && f[5..][1..] == f[6..];
    assert g[1..][1..] == g[2..] && g[2..][1..] == g[3..] && g[3..][1..] == g[4..] && g[4..][1..] == g[5..]
        && g[5..][1..] == g[6..];
    assert f[6..] == [a.micro] && g[6..] == [b.micro];
    assert Before(f[6..], g[6..]) == (a.micro < b.micro);
    assert Before(f[5..], g[5..]) == (a.second < b.second || (a.second == b.second && Before(f[6..], g[6..])));
    assert Before(f[4..], g[4..]) == (a.minute < b.minute || (a.minute == b.minute && Before(f[5..], g[5..])));
    assert Before(f[3..], g[3..]) == (a.hour < b.hour || (a.hour == b.hour && Before(f[4..], g[4..])));
    assert Before(f[2..], g[2..]) == (a.day < b.day || (a.day == b.day && Before(f[3..], g[3..])));
    assert Before(f[1..], g[1..]) == (a.month < b.month || (a.month == b.month && Before(f[2..], g[2..])));
  }
}
