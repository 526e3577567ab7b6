/** The text of an audit timestamp: fixed-width fields, an optional fraction, and the order of
    strings by character code. */
module AuditStamps {
  import opened AuditTime
  import opened Options

  // ---------------------------------------------------------------- strings in order

  /** Python's `<` on strings. */
  predicate Below(a: string, b: string) {
    b != [] && (a == [] || a[0] < b[0] || (a[0] == b[0] && Below(a[1..], b[1..])))
  }

  lemma {:induction false} NotBoth(a: string, b: string)
    ensures !(Below(a, b) && Below(b, a))
    ensures !Below(a, a)
  {
    if a != [] {
      NotBoth(a[1..], if b == [] then [] else b[1..]);
    }
  }

  lemma {:induction false} SamePrefix(p: string, a: string, b: string)
    ensures Below(p + a, p + b) <==> Below(a, b)
  {
    if p == [] {
      assert p + a == a && p + b == b;
    } else {
      assert (p + a)[1..] == p[1..] + a && (p + b)[1..] == p[1..] + b;
      SamePrefix(p[1..], a, b);
    }
  }

  lemma {:induction false} EarlierPrefix(a: string, b: string, x: string, y: string)
    requires |a| == |b| && Below(a, b)
    ensures Below(a + x, b + y)
  {
    assert (a + x)[1..] == a[1..] + x && (b + y)[1..] == b[1..] + y;
    if a[0] == b[0] {
      EarlierPrefix(a[1..], b[1..], x, y);
    }
  }

  // ---------------------------------------------------------------- digits and rows of digits

  function Digit(d: nat): char
    requires d < 10
  {
    ('0' as int + d) as char
  }

  /** The last `width` decimal digits, with leading zeros. */
  function Digits(n: nat, width: nat): (s: string)
    ensures |s| == width
  {
    if width == 0 then "" else Digits(n / 10, width - 1) + [Digit(n % 10)]
  }

  function Power(width: nat): (p: nat)
    ensures p > 0
  {
    if width == 0 then 1 else 10 * Power(width - 1)
  }

  lemma {:induction false} DigitsInOrder(m: nat, n: nat, width: nat)
    requires m < n < Power(width)
    ensures Below(Digits(m, width), Digits(n, width))
  {
    if m / 10 < n / 10 {
      DigitsInOrder(m / 10, n / 10, width - 1);
      EarlierPrefix(Digits(m / 10, width - 1), Digits(n / 10, width - 1), [Digit(m % 10)], [Digit(n % 10)]);
    } else {
      SamePrefix(Digits(m / 10, width - 1), [Digit(m % 10)], [Digit(n % 10)]);
    }
  }

  datatype Field = Field(width: nat, after: string)

  /** The layout `YYYY-MM-DD HH:MM:SS`, with what separates date and time. */
  function Layout(separator: string): seq<Field> {
    [Field(4, "-"), Field(2, "-"), Field(2, separator), Field(2, ":"), Field(2, ":"), Field(2, "")]
  }

  function Row(values: seq<nat>, layout: seq<Field>): string
    requires |values| == |layout|
  {
    if values == [] then ""
    else Digits(values[0], layout[0].width) + layout[0].after + Row(values[1..], layout[1..])
  }

  predicate Fits(values: seq<nat>, layout: seq<Field>) {
    |values| == |layout| && forall k :: 0 <= k < |values| ==> values[k] < Power(layout[k].width)
  }

  predicate Lexical(a: seq<nat>, b: seq<nat>) {
    a != [] && b != [] && (a[0] < b[0] || (a[0] == b[0] && Lexical(a[1..], b[1..])))
  }

  lemma {:induction false} RowsInOrder(a: seq<nat>, b: seq<nat>, layout: seq<Field>, x: string, y: string)
    requires Fits(a, layout) && Fits(b, layout) && Lexical(a, b)
    ensures Below(Row(a, layout) + x, Row(b, layout) + y)
  {
    var f := layout[0];
    var p, q := Digits(a[0], f.width), Digits(b[0], f.width);
    var r, s := Row(a[1..], layout[1..]), Row(b[1..], layout[1..]);
    assert Row(a, layout) + x == p + (f.after + (r + x));
    assert Row(b, layout) + y == q + (f.after + (s + y));
    if a[0] < b[0] {
      DigitsInOrder(a[0], b[0], f.width);
      EarlierPrefix(p, q, f.after + (r + x), f.after + (s + y));
    } else {
      RowsInOrder(a[1..], b[1..], layout[1..], x, y);
      SamePrefix(f.after, r + x, s + y);
      SamePrefix(p, f.after + (r + x), f.after + (s + y));
    }
  }

  lemma {:induction false} RowLength(a: seq<nat>, b: seq<nat>, layout: seq<Field>)
    requires |a| == |b| == |layout|
    ensures |Row(a, layout)| == |Row(b, layout)|
  {
    if a != [] {
      RowLength(a[1..], b[1..], layout[1..]);
    }
  }

  // ---------------------------------------------------------------- the fields of an instant

  function Seconds(clock: int): nat
    requires 0 <= clock < DAY
  {
    clock / SECOND
  }

  function Micros(t: int): (us: nat)
    requires Representable(t)
    ensures us < SECOND
  {
    t % DAY % SECOND
  }

  /** Year to second. */
  function Values(t: int): (v: seq<nat>)
    requires Representable(t)
    ensures |v| == 6
  {
    var c, s := CivilOf(t / DAY), Seconds(t % DAY);
    [c.year, c.month, c.day, s / 60 / 60, s / 60 % 60, s % 60]
  }

  lemma Sixty(a: nat, b: nat)
    requires a < b
    ensures a / 60 < b / 60 || (a / 60 == b / 60 && a % 60 < b % 60)
  {
  }

  lemma ClocksInOrder(a: nat, b: nat)
    requires a < b
    ensures a / 60 / 60 < b / 60 / 60
            || (a / 60 / 60 == b / 60 / 60
                && (a / 60 % 60 < b / 60 % 60 || (a / 60 % 60 == b / 60 % 60 && a % 60 < b % 60)))
  {
    Sixty(a, b);
    if a / 60 < b / 60 {
      Sixty(a / 60, b / 60);
    }
  }

  lemma MicrosSplit(a: int, b: int)
    requires 0 <= a < b < DAY
    ensures a / SECOND < b / SECOND || (a / SECOND == b / SECOND && a % SECOND < b % SECOND)
  {
  }

  lemma DaySplit(a: int, b: int)
    requires 0 <= a < b
    ensures a / DAY < b / DAY || (a / DAY == b / DAY && a % DAY < b % DAY)
  {
  }

  /** Later instants have later fields, or the same fields and more microseconds. */
  lemma ValuesInOrder(a: int, b: int)
    requires Representable(a) && Representable(b) && a < b
    ensures Lexical(Values(a), Values(b)) || (Values(a) == Values(b) && Micros(a) < Micros(b))
  {
    DaySplit(a, b);
    var v, w := Values(a), Values(b);
    if a / DAY < b / DAY {
      CivilMonotone(a / DAY, b / DAY);
      LexicalByDate(v, w);
    } else {
      MicrosSplit(a % DAY, b % DAY);
      if Seconds(a % DAY) < Seconds(b % DAY) {
        ClocksInOrder(Seconds(a % DAY), Seconds(b % DAY));
        LexicalByClock(v, w);
      }
    }
  }

  lemma LexicalByDate(v: seq<nat>, w: seq<nat>)
    requires |v| == |w| == 6
    requires v[0] < w[0] || (v[0] == w[0] && (v[1] < w[1] || (v[1] == w[1] && v[2] < w[2])))
    ensures Lexical(v, w)
  {
    assert v[1..][0] == v[1] && w[1..][0] == w[1];
    assert v[1..][1..][0] == v[2] && w[1..][1..][0] == w[2];
    assert Lexical(v[1..][1..], w[1..][1..]) <==>
      v[2] < w[2] || (v[2] == w[2] && Lexical(v[1..][1..][1..], w[1..][1..][1..]));
  }

  lemma LexicalByClock(v: seq<nat>, w: seq<nat>)
    requires |v| == |w| == 6 && v[..3] == w[..3]
    requires v[3] < w[3] || (v[3] == w[3] && (v[4] < w[4] || (v[4] == w[4] && v[5] < w[5])))
    ensures Lexical(v, w)
  {
    assert v[0] == v[..3][0] && v[1] == v[..3][1] && v[2] == v[..3][2];
    assert w[0] == w[..3][0] && w[1] == w[..3][1] && w[2] == w[..3][2];
    SameHead(v, w, 3);
    LexicalTail(v[3..], w[3..]);
  }

  lemma {:induction false} SameHead(v: seq<nat>, w: seq<nat>, k: nat)
    requires k < |v| && k < |w|
    requires forall j :: 0 <= j < k ==> v[j] == w[j]
    ensures Lexical(v, w) <==> Lexical(v[k..], w[k..])
  {
    if k > 0 {
      SameHead(v[1..], w[1..], k - 1);
      assert v[1..][k - 1..] == v[k..] && w[1..][k - 1..] == w[k..];
    } else {
      assert v[0..] == v && w[0..] == w;
    }
  }

  lemma LexicalTail(v: seq<nat>, w: seq<nat>)
    requires |v| == |w| == 3
    requires v[0] < w[0] || (v[0] == w[0] && (v[1] < w[1] || (v[1] == w[1] && v[2] < w[2])))
    ensures Lexical(v, w)
  {
    assert v[1..][0] == v[1] && w[1..][0] == w[1];
    assert v[1..][1..][0] == v[2] && w[1..][1..][0] == w[2];
  }

  lemma ValuesFit(t: int, separator: string)
    requires Representable(t)
    ensures Fits(Values(t), Layout(separator))
  {
    YearsEnd(t / DAY);
    SplitInstant(t);
    assert Power(2) == 100;
    assert Power(3) == 1000;
    assert Power(4) == 10000;
  }

  // ---------------------------------------------------------------- stamps

  const UTC := "+00:00"
  const LEGACY_SUFFIX := ".000000+00:00"

  /** What follows the seconds in `isoformat()`: six digits, or none at all. */
  function Fraction(us: nat): string {
    if us == 0 then UTC else "." + Digits(us, 6) + UTC
  }

  /** `isoformat()` of an instant in UTC. */
  function Iso(t: int): string
    requires Representable(t)
  {
    Row(Values(t), Layout("T")) + Fraction(Micros(t))
  }

  /** `CURRENT_TIMESTAMP` of SQLite. */
  function Legacy(t: int): string
    requires Representable(t)
  {
    Row(Values(t), Layout(" "))
  }

  /** The one-time migration: nineteen characters with a space become canonical; others stay. */
  function Migrate(row: string): string {
    if |row| == 19 && row[10] == ' ' then row[..10] + "T" + row[11..] + LEGACY_SUFFIX else row
  }

  /** A stored row: a fresh stamp, or an old one after the migration. */
  datatype Stored = Fresh(at: int) | Migrated(at: int)

  predicate Writable(r: Stored) {
    Representable(r.at) && (r.Migrated? ==> Micros(r.at) == 0)
  }

  function TextOf(r: Stored): string
    requires Writable(r)
  {
    if r.Fresh? then Iso(r.at) else Row(Values(r.at), Layout("T")) + LEGACY_SUFFIX
  }

  function Rest(r: Stored): string
    requires Writable(r)
  {
    if r.Fresh? then Fraction(Micros(r.at)) else LEGACY_SUFFIX
  }

  lemma Zeros()
    ensures Digits(0, 6) == "000000"
    ensures LEGACY_SUFFIX == "." + Digits(0, 6) + UTC
  {
    assert Digits(0, 3) == "000";
    assert Digits(0, 5) == "00000";
  }

  /** `+` comes before `.`, so the missing fraction sorts as the zero that it is. */
  lemma FractionsInOrder(r: Stored, s: Stored)
    requires Writable(r) && Writable(s) && Micros(r.at) < Micros(s.at)
    ensures Below(Rest(r), Rest(s))
  {
    var m, n := Micros(r.at), Micros(s.at);
    if m == 0 && r.Fresh? {
      assert Rest(r)[0] == '+' && Rest(s)[0] == '.';
    } else {
      Zeros();
      assert Power(2) == 100;
      assert Power(4) == 10000;
      assert Power(6) == 1000000;
      assert Rest(r) == "." + (Digits(m, 6) + UTC);
      assert Rest(s) == "." + (Digits(n, 6) + UTC);
      DigitsInOrder(m, n, 6);
      EarlierPrefix(Digits(m, 6), Digits(n, 6), UTC, UTC);
      SamePrefix(".", Digits(m, 6) + UTC, Digits(n, 6) + UTC);
    }
  }

  /** The order theorem: stamps of different instants sort as the instants do, fresh and migrated
      rows in any mixture. */
  lemma EarlierSortsFirst(r: Stored, s: Stored)
    requires Writable(r) && Writable(s) && r.at < s.at
    ensures Below(TextOf(r), TextOf(s))
  {
    ValuesInOrder(r.at, s.at);
    if Lexical(Values(r.at), Values(s.at)) {
      ValuesFit(r.at, "T");
      ValuesFit(s.at, "T");
      RowsInOrder(Values(r.at), Values(s.at), Layout("T"), Rest(r), Rest(s));
    } else {
      FractionsInOrder(r, s);
      SamePrefix(Row(Values(r.at), Layout("T")), Rest(r), Rest(s));
    }
  }

  lemma FreshStampsAgreeIff(a: int, b: int)
    requires Representable(a) && Representable(b)
    ensures Iso(a) == Iso(b) <==> a == b
    ensures Below(Iso(a), Iso(b)) <==> a < b
  {
    NotBoth(Iso(a), Iso(b));
    if a < b {
      EarlierSortsFirst(Fresh(a), Fresh(b));
    } else if b < a {
      EarlierSortsFirst(Fresh(b), Fresh(a));
    }
  }

  /** The promise of the migration that does not hold: a migrated row is not what `isoformat()` gives
      for its instant, and sorts strictly after it. */
  lemma MigratedRowsNeverMatch(r: Stored)
    requires Writable(r) && r.Migrated?
    ensures Below(Iso(r.at), TextOf(r)) && Iso(r.at) != TextOf(r)
  {
    var row := Row(Values(r.at), Layout("T"));
    assert UTC[0] == '+' && LEGACY_SUFFIX[0] == '.';
    SamePrefix(row, UTC, LEGACY_SUFFIX);
    NotBoth(Iso(r.at), TextOf(r));
  }

  function DateText(v: seq<nat>): (s: string)
    requires |v| == 6
    ensures |s| == 10
  {
    Digits(v[0], 4) + "-" + Digits(v[1], 2) + "-" + Digits(v[2], 2)
  }

  function ClockText(v: seq<nat>): (s: string)
    requires |v| == 6
    ensures |s| == 8
  {
    Digits(v[3], 2) + ":" + Digits(v[4], 2) + ":" + Digits(v[5], 2)
  }

  lemma ClockRow(v: seq<nat>, layout: seq<Field>)
    requires |v| == 3 && layout == [Field(2, ":"), Field(2, ":"), Field(2, "")]
    ensures Row(v, layout) == Digits(v[0], 2) + ":" + Digits(v[1], 2) + ":" + Digits(v[2], 2)
  {
    assert v[1..][1..] == [v[2]] && layout[1..][1..] == [Field(2, "")];
    assert Row([v[2]], [Field(2, "")]) == Digits(v[2], 2) + "" + Row([], []);
    assert Row(v[1..], layout[1..]) == Digits(v[1], 2) + ":" + Digits(v[2], 2);
  }

  lemma RowSplits(v: seq<nat>, separator: string)
    requires |v| == 6
    ensures Row(v, Layout(separator)) == DateText(v) + separator + ClockText(v)
  {
    var l := Layout(separator);
    ClockRow(v[3..], l[3..]);
    assert Row(v[2..], l[2..]) == Digits(v[2], 2) + separator + ClockText(v) by {
      assert v[2..][1..] == v[3..] && l[2..][1..] == l[3..];
    }
    assert Row(v[1..], l[1..]) == Digits(v[1], 2) + "-" + Row(v[2..], l[2..]) by {
      assert v[1..][1..] == v[2..] && l[1..][1..] == l[2..];
    }
    SeparatorInside(Digits(v[0], 4), "-", Digits(v[1], 2), Digits(v[2], 2), separator, ClockText(v));
  }

  lemma SeparatorInside(a: string, dash: string, b: string, c: string, d: string, e: string)
    ensures a + dash + (b + dash + (c + d + e)) == (a + dash + b + dash + c) + d + e
  {
    assert b + dash + (c + d + e) == (b + dash + c) + (d + e);
    assert a + dash + ((b + dash + c) + (d + e)) == (a + dash + b + dash + c) + (d + e);
  }

  /** What made the migration necessary: within one day a legacy row sorts before every canonical
      one, whatever the times are. */
  lemma LegacyRowsSortFirst(a: int, b: int)
    requires Representable(a) && Representable(b) && a / DAY == b / DAY
    ensures Below(Legacy(a), Iso(b))
  {
    RowSplits(Values(a), " ");
    RowSplits(Values(b), "T");
    SameDay(Values(a), Values(b));
    SeparatorsDecide(Legacy(a), Iso(b), DateText(Values(a)), ClockText(Values(a)), ClockText(Values(b)),
                     Fraction(Micros(b)));
  }

  lemma SameDay(v: seq<nat>, w: seq<nat>)
    requires |v| == |w| == 6 && v[0] == w[0] && v[1] == w[1] && v[2] == w[2]
    ensures DateText(v) == DateText(w)
  {
  }

  lemma SeparatorsDecide(a: string, b: string, date: string, x: string, y: string, z: string)
    requires a == date + " " + x && b == date + "T" + y + z
    ensures Below(a, b)
  {
    assert (" " + x)[0] == ' ' && ("T" + (y + z))[0] == 'T';
    assert a == date + (" " + x);
    assert b == date + ("T" + (y + z));
    SamePrefix(date, " " + x, "T" + (y + z));
  }

  /** The migration turns legacy rows into migrated ones, and running it again changes nothing. */
  lemma MigrationIsRight(r: Stored)
    requires Writable(r) && r.Migrated?
    ensures Migrate(Legacy(r.at)) == TextOf(r)
    ensures Migrate(TextOf(r)) == TextOf(r)
  {
    RowSplits(Values(r.at), " ");
    RowSplits(Values(r.at), "T");
    var row := Legacy(r.at);
    var date, clock := DateText(Values(r.at)), ClockText(Values(r.at));
    assert row[..10] == date && row[10] == ' ' && row[11..] == clock;
  }

  // ---------------------------------------------------------------- what the text shows

  function Number(s: string): int {
    if s == "" then 0 else 10 * Number(s[..|s| - 1]) + (s[|s| - 1] as int - '0' as int)
  }

  /** Digits are decimal: they stand for the number again. */
  lemma {:induction false} DigitsShowTheNumber(n: nat, width: nat)
    requires n < Power(width)
    ensures Number(Digits(n, width)) == n
  {
    if width > 0 {
      DigitsShowTheNumber(n / 10, width - 1);
      assert Digits(n, width)[..width - 1] == Digits(n / 10, width - 1);
    }
  }

  /** The text of an instant, from its calendar fields. */
  lemma IsoShowsItsFields(c: Civil, hour: nat, minute: nat, second: nat, us: nat)
    requires ValidDate(c) && c.year <= 9999 && hour < 24 && minute < 60 && second < 60 && us < 1_000_000
    ensures
      var clock := ((hour * 60 + minute) * 60 + second) * 1_000_000 + us;
      var t := Instant(DateTime(c, clock, None));
      var date := Digits(c.year, 4) + "-" + Digits(c.month, 2) + "-" + Digits(c.day, 2);
      var time := Digits(hour, 2) + ":" + Digits(minute, 2) + ":" + Digits(second, 2);
      && Representable(t)
      && Iso(t) == date + "T" + time + (if us == 0 then "+00:00" else "." + Digits(us, 6) + "+00:00")
      && Legacy(t) == date + " " + time
  {
    var s := (hour * 60 + minute) * 60 + second;
    var clock := s * 1_000_000 + us;
    ClockFields(hour, minute, second, us);
    var t := Instant(DateTime(c, clock, None));
    UtcKeepsFields(DateTime(c, clock, None));
    assert CivilOf(t / DAY) == c && t % DAY == clock;
    RowSplits(Values(t), "T");
    RowSplits(Values(t), " ");
    FieldsOf(t, c, hour, minute, second, us);
  }

  lemma ClockFields(hour: nat, minute: nat, second: nat, us: nat)
    requires hour < 24 && minute < 60 && second < 60 && us < 1_000_000
    ensures
      var s := (hour * 60 + minute) * 60 + second;
      var clock := s * 1_000_000 + us;
      && 0 <= clock < DAY && clock / SECOND == s && clock % SECOND == us
      && s / 60 / 60 == hour && s / 60 % 60 == minute && s % 60 == second
  {
    var s := (hour * 60 + minute) * 60 + second;
    assert s / 60 == hour * 60 + minute;
  }

  lemma FieldsOf(t: int, c: Civil, hour: nat, minute: nat, second: nat, us: nat)
    requires hour < 24 && minute < 60 && second < 60 && us < 1_000_000
    requires Representable(t) && CivilOf(t / DAY) == c
    requires t % DAY == ((hour * 60 + minute) * 60 + second) * 1_000_000 + us
    ensures Values(t) == [c.year, c.month, c.day, hour, minute, second] && Micros(t) == us
  {
    ClockFields(hour, minute, second, us);
  }
}
