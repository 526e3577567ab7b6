/** `normalize_audit_timestamp`: any value to the canonical text of its instant. */
module AuditNormalize {
  import opened AuditTime
  import opened AuditStamps
  import opened Options
  import opened WhiteSpace

  type Moment = d: DateTime | ValidDateTime(d) witness DateTime(Civil(1, 1, 1), 0, None)

  datatype Value = Missing | Time(at: Moment) | Text(text: string)

  datatype Normalized = Canonical(text: string) | Overflows

  /** `datetime.fromisoformat` and `strptime` with the two formats of SQLite. */
  datatype Parsers = Parsers(iso: string -> Option<Moment>, fractional: string -> Option<Moment>,
                             plain: string -> Option<Moment>)

  /** `s.replace("Z", "+00:00")`. */
  function WithoutZ(s: string): string {
    if s == "" then "" else (if s[0] == 'Z' then UTC else [s[0]]) + WithoutZ(s[1..])
  }

  function Parse(s: string, p: Parsers): Option<Moment> {
    var iso := p.iso(WithoutZ(s));
    if iso.Some? then iso
    else
      var fractional := p.fractional(s);
      if fractional.Some? then fractional else p.plain(s)
  }

  function Stamp(d: Moment): Normalized {
    if Representable(Instant(d)) then Canonical(Iso(Instant(d))) else Overflows
  }

  /** `astimezone` raises `OverflowError`, which nothing here catches. */
  function Normalize(v: Value, p: Parsers): Normalized {
    match v
    case Missing => Canonical("")
    case Time(d) => Stamp(d)
    case Text(text) =>
      var s := Strip(text);
      if s == "" then Canonical("")
      else
        var parsed := Parse(s, p);
        if parsed.None? then Canonical(s) else Stamp(parsed.value)
  }

  /** The time that a value denotes, if it denotes one. */
  function Denotes(v: Value, p: Parsers): Option<Moment> {
    match v
    case Missing => None
    case Time(d) => Some(d)
    case Text(text) => if Strip(text) == "" then None else Parse(Strip(text), p)
  }

  /** The one assumption: `fromisoformat` reads what `isoformat` has written, with any fraction. */
  ghost predicate ReadsBack(p: Parsers) {
    forall r: Stored :: Writable(r) ==> p.iso(TextOf(r)) == Some(AtUtc(r.at))
  }

  // ---------------------------------------------------------------- canonical text is left alone

  predicate Plain(s: string) {
    forall k :: 0 <= k < |s| ==> s[k] != 'Z'
  }

  lemma {:induction false} PlainStays(s: string)
    requires Plain(s)
    ensures WithoutZ(s) == s
  {
    if s != "" {
      PlainStays(s[1..]);
      assert s == [s[0]] + s[1..];
    }
  }

  lemma {:induction false} PlainStaysBefore(a: string, b: string)
    requires Plain(a)
    ensures WithoutZ(a + b) == a + WithoutZ(b)
  {
    if a == "" {
      assert a + b == b;
    } else {
      PlainStaysBefore(a[1..], b);
      assert (a + b)[1..] == a[1..] + b;
      assert a == [a[0]] + a[1..];
    }
  }

  /** Each Z becomes the offset of UTC, wherever it stands, and nothing else is changed. */
  lemma EachZBecomesUtc(a: string, b: string)
    requires Plain(a)
    ensures WithoutZ(a + "Z" + b) == a + "+00:00" + WithoutZ(b)
  {
    PlainStaysBefore(a, ['Z'] + b);
    assert a + "Z" + b == a + (['Z'] + b) && (['Z'] + b)[1..] == b;
  }

  /** So an ISO time with a Z is read as the same time in UTC. */
  lemma ZMeansUtc(time: string, p: Parsers)
    requires Plain(time) && time != "" && !IsSpace(time[0]) && p.iso(time + "+00:00").Some?
    ensures Denotes(Text(time + "Z"), p) == p.iso(time + "+00:00") == Denotes(Text(time + "+00:00"), p)
    ensures Normalize(Text(time + "Z"), p) == Normalize(Text(time + "+00:00"), p)
  {
    hide Strip;
    TightStays(time + "Z");
    TightStays(time + "+00:00");
    EachZBecomesUtc(time, "");
    assert time + "Z" + "" == time + "Z" && time + "+00:00" + "" == time + "+00:00";
    PlainStays(time + "+00:00");
  }

  lemma {:induction false} DigitsArePlain(n: nat, width: nat)
    ensures forall k :: 0 <= k < width ==> '0' <= Digits(n, width)[k] <= '9'
  {
    if width > 0 {
      DigitsArePlain(n / 10, width - 1);
    }
  }

  lemma {:induction false} RowIsPlain(values: seq<nat>, layout: seq<Field>)
    requires |values| == |layout|
    requires forall f :: f in layout ==> Plain(f.after)
    ensures Plain(Row(values, layout))
  {
    if values != [] {
      RowIsPlain(values[1..], layout[1..]);
      DigitsArePlain(values[0], layout[0].width);
      assert layout[0] in layout;
    }
  }

  lemma RowBeginsWithDigit(values: seq<nat>)
    requires |values| == 6
    ensures Row(values, Layout("T")) != "" && '0' <= Row(values, Layout("T"))[0] <= '9'
  {
    DigitsArePlain(values[0], 4);
    var rest := Row(values[1..], Layout("T")[1..]);
    assert Row(values, Layout("T")) == Digits(values[0], 4) + "-" + rest;
  }

  lemma RestIsPlain(r: Stored)
    requires Writable(r)
    ensures Plain(Rest(r)) && Rest(r) != "" && Rest(r)[|Rest(r)| - 1] == '0'
  {
    DigitsArePlain(Micros(r.at), 6);
  }

  lemma StampInTwo(r: Stored)
    requires Writable(r)
    ensures TextOf(r) == Row(Values(r.at), Layout("T")) + Rest(r)
  {
  }

  lemma StampIsPlain(r: Stored)
    requires Writable(r)
    ensures Plain(TextOf(r))
    ensures TextOf(r) != "" && !IsSpace(TextOf(r)[0]) && !IsSpace(TextOf(r)[|TextOf(r)| - 1])
  {
    hide Row, Values, Rest;
    RowIsPlain(Values(r.at), Layout("T"));
    RowBeginsWithDigit(Values(r.at));
    RestIsPlain(r);
    Join(Row(Values(r.at), Layout("T")), Rest(r));
    StampInTwo(r);
  }

  lemma Join(a: string, b: string)
    requires Plain(a) && Plain(b) && a != "" && b != ""
    ensures Plain(a + b) && (a + b)[0] == a[0] && (a + b)[|a + b| - 1] == b[|b| - 1]
  {
  }

  lemma StampReadsBack(r: Stored, p: Parsers)
    requires ReadsBack(p) && Writable(r)
    ensures Denotes(Text(TextOf(r)), p) == Some(AtUtc(r.at))
    ensures Normalize(Text(TextOf(r)), p) == Canonical(Iso(r.at))
  {
    StampIsPlain(r);
    TightStays(TextOf(r));
    PlainStays(TextOf(r));
    AtUtcIsValid(r.at);
  }

  // ---------------------------------------------------------------- the promises

  /** Order of text is order of time, in both directions, and equal instants get equal text. */
  lemma TextOrderIsTimeOrder(v: Value, w: Value, p: Parsers)
    requires Denotes(v, p).Some? && Denotes(w, p).Some?
    requires Representable(Instant(Denotes(v, p).value)) && Representable(Instant(Denotes(w, p).value))
    ensures Normalize(v, p).Canonical? && Normalize(w, p).Canonical?
    ensures Below(Normalize(v, p).text, Normalize(w, p).text)
            <==> Instant(Denotes(v, p).value) < Instant(Denotes(w, p).value)
    ensures Normalize(v, p) == Normalize(w, p) <==> Instant(Denotes(v, p).value) == Instant(Denotes(w, p).value)
  {
    FreshStampsAgreeIff(Instant(Denotes(v, p).value), Instant(Denotes(w, p).value));
  }

  /** Whatever comes out goes through unchanged. */
  lemma Idempotent(v: Value, p: Parsers)
    requires ReadsBack(p) && Normalize(v, p).Canonical?
    ensures Normalize(Text(Normalize(v, p).text), p) == Normalize(v, p)
  {
    var d := Denotes(v, p);
    if d.Some? {
      StampReadsBack(Fresh(Instant(d.value)), p);
    } else if v.Text? {
      StripTwice(v.text);
    }
  }

  /** Normalising fails exactly on times whose UTC form lies outside the years 1 to 9999. */
  lemma OverflowsIff(v: Value, p: Parsers)
    ensures Normalize(v, p).Overflows? <==> Denotes(v, p).Some? && !Representable(Instant(Denotes(v, p).value))
  {
  }

  /** That needs an offset: naive times and times in UTC keep their fields and always pass. */
  lemma UtcNeverOverflows(d: Moment, p: Parsers)
    requires d.offset.None? || d.offset.value == 0
    ensures Normalize(Time(d), p).Canonical? && AtUtc(Instant(d)) == d.(offset := Some(0))
    ensures Normalize(Time(d.(offset := None)), p) == Normalize(Time(d.(offset := Some(0))), p)
  {
    UtcKeepsFields(d);
  }

  /** An offset is taken off: the text shows the UTC date and clock, on the day before or after where that
      leads over midnight. */
  lemma OffsetsAreTakenOff(d: Moment, e: Moment, p: Parsers)
    requires d.offset.Some? && e.offset.None?
    requires
      var clock := d.clock - d.offset.value;
      || (0 <= clock < DAY && e.date == d.date && e.clock == clock)
      || (clock < 0 && d.date == NextDay(e.date) && e.clock == clock + DAY)
      || (clock >= DAY && e.date == NextDay(d.date) && e.clock == clock - DAY)
    ensures Normalize(Time(d), p) == Normalize(Time(e), p)
  {
    hide Ordinal, NextDay, CivilOf, Iso, Representable;
    NextDayFollows(d.date);
    NextDayFollows(e.date);
    OneDay(Ordinal(d.date), Ordinal(e.date));
    assert Instant(d) == Instant(e);
  }

  lemma OneDay(m: int, n: int)
    ensures m == n + 1 ==> m * DAY == n * DAY + DAY
    ensures n == m + 1 ==> n * DAY == m * DAY + DAY
  {
  }

  lemma OverflowHappens(p: Parsers)
    ensures exists d: Moment :: Normalize(Time(d), p).Overflows?
  {
    var d := DateTime(Civil(1, 1, 1), 0, Some(MINUTE));
    assert Ordinal(d.date) == 0;
    assert Normalize(Time(d), p).Overflows?;
  }

  /** Text that denotes no time loses its surrounding white space, and nothing else; so it comes out
      unchanged exactly if it has none. */
  lemma UnparsableTextStays(text: string, p: Parsers)
    requires Denotes(Text(text), p).None?
    ensures Normalize(Text(text), p) == Canonical(Strip(text))
    ensures Normalize(Text(text), p) == Canonical(text)
       <==> text == "" || (!IsSpace(text[0]) && !IsSpace(text[|text| - 1]))
  {
    StripLeftStops(text);
    StripRightStops(StripLeft(text));
    if text != "" && !IsSpace(text[0]) && !IsSpace(text[|text| - 1]) {
      TightStays(text);
    }
  }

  /** A migrated row denotes its instant, so it normalises to the text that it should have had. */
  lemma MigratedRowsNormalize(t: int, p: Parsers)
    requires ReadsBack(p) && Writable(Migrated(t))
    ensures Normalize(Text(Migrate(Legacy(t))), p) == Canonical(Iso(t))
  {
    MigrationIsRight(Migrated(t));
    StampReadsBack(Migrated(t), p);
  }

  // ---------------------------------------------------------------- the assumption can be met

  lemma StoredTextDenotesOnce(r: Stored, s: Stored)
    requires Writable(r) && Writable(s) && TextOf(r) == TextOf(s)
    ensures r.at == s.at
  {
    if r.at < s.at {
      EarlierSortsFirst(r, s);
      NotBoth(TextOf(r), TextOf(s));
    } else if s.at < r.at {
      EarlierSortsFirst(s, r);
      NotBoth(TextOf(r), TextOf(s));
    }
  }

  ghost function ReadStored(s: string): Option<Moment> {
    if exists r: Stored :: Writable(r) && TextOf(r) == s then
      var r: Stored :| Writable(r) && TextOf(r) == s;
      AtUtcIsValid(r.at);
      Some(AtUtc(r.at))
    else None
  }

  ghost function StoredOnly(): Parsers {
    Parsers(s => ReadStored(s), (s: string) => None, (s: string) => None)
  }

  lemma SomeParserReadsBack()
    ensures ReadsBack(StoredOnly())
  {
    var p := StoredOnly();
    forall r: Stored | Writable(r)
      ensures p.iso(TextOf(r)) == Some(AtUtc(r.at))
    {
      var s := TextOf(r);
      var q: Stored :| Writable(q) && TextOf(q) == s && ReadStored(s) == Some(AtUtc(q.at));
      StoredTextDenotesOnce(r, q);
    }
  }

  lemma NobodyWrites(text: string)
    requires text != "" && !('0' <= text[0] <= '9')
    ensures ReadStored(text).None?
  {
    hide TextOf, Row, Layout, Values;
    forall r: Stored | Writable(r)
      ensures TextOf(r) != text
    {
      StampBeginsWithDigit(r);
    }
  }

  lemma StampBeginsWithDigit(r: Stored)
    requires Writable(r)
    ensures TextOf(r) != "" && '0' <= TextOf(r)[0] <= '9'
  {
    hide Row, Layout, Values;
    RowBeginsWithDigit(Values(r.at));
  }

  lemma PaddingGoes()
    ensures Strip(" never") == "never"
  {
    assert " never"[1..] == "never";
    assert StripLeft(" never") == StripLeft("never") == "never";
  }

  /** An unparsable text that does not come out unchanged, with parsers that meet the assumption. */
  lemma PaddedTextChanges()
    ensures ReadsBack(StoredOnly()) && Normalize(Text(" never"), StoredOnly()) == Canonical("never")
  {
    hide ReadsBack, ReadStored, Strip, WithoutZ;
    SomeParserReadsBack();
    PaddingGoes();
    PlainStays("never");
    NobodyWrites("never");
  }
}
