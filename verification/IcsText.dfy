/**
  The outbound feed (internal/ics/ics.go): escaping, folding and the content lines of a
  calendar. A `char` is a rune; octets are those of its UTF-8 form.
*/
module IcsText {
  import opened Options
  import opened Civil
  import opened Core
  import opened Seqs

  // ---- text ------------------------------------------------------------------

  /** RFC 5545 escapes; a line break of any kind becomes one escaped newline. */
  function Escape(s: string): string {
    if s == "" then ""
    else if s[0] == '\r' && |s| > 1 && s[1] == '\n' then ['\\', 'n'] + Escape(s[2..])
    else if s[0] == '\r' || s[0] == '\n' then ['\\', 'n'] + Escape(s[1..])
    else if s[0] == '\\' || s[0] == ';' || s[0] == ',' then ['\\', s[0]] + Escape(s[1..])
    else [s[0]] + Escape(s[1..])
  }

  /** No line break in it: it cannot leave its line. */
  predicate OneLine(s: string) {
    forall i | 0 <= i < |s| :: s[i] != '\r' && s[i] != '\n'
  }

  lemma {:induction false} EscapeIsOneLine(s: string)
    ensures OneLine(Escape(s))
    decreases |s|
  {
    if s != "" {
      if s[0] == '\r' && |s| > 1 && s[1] == '\n' {
        EscapeIsOneLine(s[2..]);
      } else {
        EscapeIsOneLine(s[1..]);
      }
    }
  }

  // ---- numbers and stamps ----------------------------------------------------

  function DigitChar(d: nat): char
    requires d < 10
  {
    '0' + d as char
  }

  /** The last `width` digits of n, zero padded. */
  function Pad(n: nat, width: nat): (r: string)
    ensures |r| == width
  {
    if width == 0 then "" else Pad(n / 10, width - 1) + [DigitChar(n % 10)]
  }

  function Itoa(n: nat): string {
    if n < 10 then [DigitChar(n)] else Itoa(n / 10) + [DigitChar(n % 10)]
  }

  /** A year is printed with at least four digits. */
  function YearText(y: int): string {
    var digits := (n: nat) => if n <= 9999 then Pad(n, 4) else Itoa(n);
    if y < 0 then ['-'] + digits(-y) else digits(y)
  }

  /** Whole seconds; what is below is cut off. */
  function SecondOf(t: Time): int {
    t / 1_000_000_000
  }

  /** A second as a UTC stamp like 20260102T150405Z. */
  function Stamp(second: int): string {
    var day, clock := second / 86400, second % 86400;
    YearText(YearOf(day)) + Pad(MonthOf(day), 2) + Pad(DayOf(day), 2) + ['T']
    + Pad(clock / 3600, 2) + Pad(clock / 60 % 60, 2) + Pad(clock % 60, 2) + ['Z']
  }

  // ---- folding ---------------------------------------------------------------

  function RuneLen(c: char): (n: nat)
    ensures 1 <= n <= 4
  {
    var v := c as int;
    if v < 0x80 then 1 else if v < 0x800 then 2 else if v < 0x10000 then 3 else 4
  }

  function Octets(s: string): nat {
    if s == "" then 0 else Octets(s[..|s| - 1]) + RuneLen(s[|s| - 1])
  }

  /** Physical lines: those already broken off, and the one being filled. */
  datatype Folding = Folding(broken: seq<string>, last: string)

  const LIMIT := 74

  /** Folding the first n runes. */
  function Fold(s: string, n: nat): Folding
    requires n <= |s|
  {
    if n == 0 then Folding([], "")
    else
      var f := Fold(s, n - 1);
      if Octets(f.last) + RuneLen(s[n - 1]) > LIMIT
      then Folding(f.broken + [f.last], [' ', s[n - 1]])
      else f.(last := f.last + [s[n - 1]])
  }

  /** The physical lines of a content line. */
  function Physical(s: string): (r: seq<string>)
    ensures |r| >= 1
  {
    Fold(s, |s|).broken + [Fold(s, |s|).last]
  }

  const CRLF: string := ['\r', '\n']

  /** Physical lines as text. */
  function TextOf(lines: seq<string>): string {
    if lines == [] then "" else TextOf(lines[..|lines| - 1]) + lines[|lines| - 1] + CRLF
  }

  lemma TextMore(lines: seq<string>, l: string)
    ensures TextOf(lines + [l]) == TextOf(lines) + l + CRLF
  {
    assert (lines + [l])[..|lines|] == lines;
  }

  lemma {:induction false} TextJoin(a: seq<string>, b: seq<string>)
    ensures TextOf(a + b) == TextOf(a) + TextOf(b)
  {
    if b == [] {
      assert a + b == a;
    } else {
      var n := |b| - 1;
      TextJoin(a, b[..n]);
      TextMore(a + b[..n], b[n]);
      assert a + b == (a + b[..n]) + [b[n]];
      assert TextOf(b) == TextOf(b[..n]) + b[n] + CRLF;
    }
  }

  lemma OctetsMore(s: string, c: char)
    ensures Octets(s + [c]) == Octets(s) + RuneLen(c)
  {
    assert (s + [c])[..|s|] == s;
  }

  /** What folding the first n runes has written. */
  function Written(s: string, n: nat): string
    requires n <= |s|
  {
    TextOf(Fold(s, n).broken) + Fold(s, n).last
  }

  predicate Breaks(s: string, n: nat)
    requires n < |s|
  {
    Octets(Fold(s, n).last) + RuneLen(s[n]) > LIMIT
  }

  lemma WrittenBreaks(s: string, n: nat)
    requires n < |s| && Breaks(s, n)
    ensures Written(s, n + 1) == (Written(s, n) + CRLF) + [' ', s[n]]
    ensures Octets(Fold(s, n + 1).last) == 1 + RuneLen(s[n])
  {
    TextMore(Fold(s, n).broken, Fold(s, n).last);
    assert [' ', s[n]][..1] == [' '] && [' '][..0] == [];
  }

  lemma WrittenGoesOn(s: string, n: nat)
    requires n < |s| && !Breaks(s, n)
    ensures Written(s, n + 1) == Written(s, n) + [s[n]]
    ensures Octets(Fold(s, n + 1).last) == Octets(Fold(s, n).last) + RuneLen(s[n])
  {
    OctetsMore(Fold(s, n).last, s[n]);
    Assoc(TextOf(Fold(s, n).broken), Fold(s, n).last, [s[n]]);
  }

  /** One rune, on a new physical line when the old one is full. */
  method Rune(written: string, octets: nat, s: string, i: nat, ghost before: string) returns (out: string, now: nat)
    requires i < |s| && octets == Octets(Fold(s, i).last) && written == before + Written(s, i)
    ensures out == before + Written(s, i + 1) && now == Octets(Fold(s, i + 1).last)
  {
    var n := RuneLen(s[i]);
    if octets + n > 74 {
      WrittenBreaks(s, i);
      Assoc(before, Written(s, i) + CRLF, [' ', s[i]]);
      Assoc(before, Written(s, i), CRLF);
      return (written + CRLF) + [' ', s[i]], 1 + n;
    }
    WrittenGoesOn(s, i);
    Assoc(before, Written(s, i), [s[i]]);
    return written + [s[i]], octets + n;
  }

  /** One content line, folded, on top of what was written. */
  method PutLine(written: string, s: string) returns (out: string)
    ensures out == written + TextOf(Physical(s))
  {
    out := written;
    var octets := 0;
    var i := 0;
    assert Written(s, 0) == "";
    while i < |s|
      invariant 0 <= i <= |s|
      invariant octets == Octets(Fold(s, i).last)
      invariant out == written + Written(s, i)
    {
      out, octets := Rune(out, octets, s, i, written);
      i := i + 1;
    }
    TextMore(Fold(s, |s|).broken, Fold(s, |s|).last);
    Assoc(written, Written(s, |s|), CRLF);
    out := out + CRLF;
  }

  // ---- the calendar ----------------------------------------------------------

  /** What the public feed carries of an event. */
  datatype Entry = Entry(id: string, title: string, startsAt: Time, endsAt: Option<Time>, seqNo: nat, status: Status)

  function StatusText(s: Status): string {
    match s
    case Confirmed => "CONFIRMED"
    case Cancelled => "CANCELLED"
    case Scheduled => "TENTATIVE"
  }

  /** A property and its value; printed with a colon between them. */
  datatype Prop = Prop(name: string, value: string) {
    function Printed(): string {
      name + [':'] + value
    }
  }

  function TimeProps(uid: string, stamp: string, start: string, end: Option<string>): seq<Prop> {
    [Prop("BEGIN", "VEVENT"), Prop("UID", uid), Prop("DTSTAMP", stamp), Prop("DTSTART", start)]
    + if end.Some? then [Prop("DTEND", end.value)] else []
  }

  function EndStamp(e: Entry): Option<string> {
    if e.endsAt.Some? then Some(Stamp(SecondOf(e.endsAt.value))) else None
  }

  function TitleProps(e: Entry): seq<Prop> {
    [Prop("SUMMARY", Escape(e.title)),
     Prop("SEQUENCE", Itoa(e.seqNo)),
     Prop("STATUS", StatusText(e.status)),
     Prop("END", "VEVENT")]
  }

  function EntryProps(e: Entry, now: Time): seq<Prop> {
    TimeProps(e.id + "@stattii", Stamp(SecondOf(now)), Stamp(SecondOf(e.startsAt)), EndStamp(e)) + TitleProps(e)
  }

  function HeadProps(name: string): seq<Prop> {
    [Prop("BEGIN", "VCALENDAR"),
     Prop("VERSION", "2.0"),
     Prop("PRODID", "-//stattii//stattii//EN"),
     Prop("CALSCALE", "GREGORIAN")]
    + if name != "" then [Prop("X-WR-CALNAME", Escape(name))] else []
  }

  const FOOT: Prop := Prop("END", "VCALENDAR")

  function EntryLists(entries: seq<Entry>, now: Time): (r: seq<seq<Prop>>)
    ensures |r| == |entries| && forall i | 0 <= i < |r| :: r[i] == EntryProps(entries[i], now)
  {
    seq(|entries|, i requires 0 <= i < |entries| => EntryProps(entries[i], now))
  }

  /** The first n lists, joined. */
  function Flat(lists: seq<seq<Prop>>, n: nat): seq<Prop>
    requires n <= |lists|
  {
    if n == 0 then [] else Flat(lists, n - 1) + lists[n - 1]
  }

  /** The content lines of a calendar. */
  function CalendarProps(name: string, entries: seq<Entry>, now: Time): seq<Prop> {
    HeadProps(name) + Flat(EntryLists(entries, now), |entries|) + [FOOT]
  }

  /** The physical lines of these properties. */
  function PhysicalLines(props: seq<Prop>): seq<string> {
    if props == [] then []
    else PhysicalLines(props[..|props| - 1]) + Physical(props[|props| - 1].Printed())
  }

  lemma PhysicalMore(props: seq<Prop>, p: Prop)
    ensures PhysicalLines(props + [p]) == PhysicalLines(props) + Physical(p.Printed())
    ensures TextOf(PhysicalLines(props + [p])) == TextOf(PhysicalLines(props)) + TextOf(Physical(p.Printed()))
  {
    assert (props + [p])[..|props|] == props;
    TextJoin(PhysicalLines(props), Physical(p.Printed()));
  }

  /** One property on top of what was written. */
  method Put(written: string, name: string, value: string, ghost props: seq<Prop>) returns (out: string)
    requires written == TextOf(PhysicalLines(props))
    ensures out == TextOf(PhysicalLines(props + [Prop(name, value)]))
  {
    PhysicalMore(props, Prop(name, value));
    out := PutLine(written, name + [':'] + value);
  }

  method PutTimes(written: string, uid: string, stamp: string, start: string, end: Option<string>, ghost props: seq<Prop>) returns (out: string)
    requires written == TextOf(PhysicalLines(props))
    ensures out == TextOf(PhysicalLines(props + TimeProps(uid, stamp, start, end)))
  {
    ghost var p := props;
    out := Put(written, "BEGIN", "VEVENT", p);
    p := p + [Prop("BEGIN", "VEVENT")];
    out := Put(out, "UID", uid, p);
    p := p + [Prop("UID", uid)];
    out := Put(out, "DTSTAMP", stamp, p);
    p := p + [Prop("DTSTAMP", stamp)];
    out := Put(out, "DTSTART", start, p);
    p := p + [Prop("DTSTART", start)];
    FourMore(props, Prop("BEGIN", "VEVENT"), Prop("UID", uid), Prop("DTSTAMP", stamp), Prop("DTSTART", start));
    ghost var four := [Prop("BEGIN", "VEVENT"), Prop("UID", uid), Prop("DTSTAMP", stamp), Prop("DTSTART", start)];
    if end.Some? {
      out := Put(out, "DTEND", end.value, p);
      Assoc(props, four, [Prop("DTEND", end.value)]);
    } else {
      Assoc(props, four, []);
      assert p + [] == p;
    }
  }

  lemma FourMore(props: seq<Prop>, a: Prop, b: Prop, c: Prop, d: Prop)
    ensures props + [a] + [b] + [c] + [d] == props + [a, b, c, d]
  {
  }

  method PutTitle(written: string, e: Entry, ghost props: seq<Prop>) returns (out: string)
    requires written == TextOf(PhysicalLines(props))
    ensures out == TextOf(PhysicalLines(props + TitleProps(e)))
  {
    ghost var p := props;
    out := Put(written, "SUMMARY", Escape(e.title), p);
    p := p + [Prop("SUMMARY", Escape(e.title))];
    out := Put(out, "SEQUENCE", Itoa(e.seqNo), p);
    p := p + [Prop("SEQUENCE", Itoa(e.seqNo))];
    out := Put(out, "STATUS", StatusText(e.status), p);
    p := p + [Prop("STATUS", StatusText(e.status))];
    out := Put(out, "END", "VEVENT", p);
    p := p + [Prop("END", "VEVENT")];
    assert p == props + TitleProps(e);
  }

  method PutEntry(written: string, e: Entry, now: Time, ghost props: seq<Prop>) returns (out: string)
    requires written == TextOf(PhysicalLines(props))
    ensures out == TextOf(PhysicalLines(props + EntryProps(e, now)))
  {
    var end := if e.endsAt.Some? then Some(Stamp(SecondOf(e.endsAt.value))) else None;
    ghost var times := TimeProps(e.id + "@stattii", Stamp(SecondOf(now)), Stamp(SecondOf(e.startsAt)), end);
    out := PutTimes(written, e.id + "@stattii", Stamp(SecondOf(now)), Stamp(SecondOf(e.startsAt)), end, props);
    out := PutTitle(out, e, props + times);
    Assoc(props, times, TitleProps(e));
  }

  method PutHead(name: string) returns (out: string)
    ensures out == TextOf(PhysicalLines(HeadProps(name)))
  {
    ghost var p: seq<Prop> := [];
    out := Put("", "BEGIN", "VCALENDAR", p);
    p := p + [Prop("BEGIN", "VCALENDAR")];
    out := Put(out, "VERSION", "2.0", p);
    p := p + [Prop("VERSION", "2.0")];
    out := Put(out, "PRODID", "-//stattii//stattii//EN", p);
    p := p + [Prop("PRODID", "-//stattii//stattii//EN")];
    out := Put(out, "CALSCALE", "GREGORIAN", p);
    p := p + [Prop("CALSCALE", "GREGORIAN")];
    if name != "" {
      out := Put(out, "X-WR-CALNAME", Escape(name), p);
      p := p + [Prop("X-WR-CALNAME", Escape(name))];
    }
    assert p == HeadProps(name);
  }

  predicate ListIs(lists: seq<seq<Prop>>, entries: seq<Entry>, now: Time, i: nat) {
    i < |lists| && i < |entries| ==> lists[i] == EntryProps(entries[i], now)
  }

  ghost predicate ListsAre(lists: seq<seq<Prop>>, entries: seq<Entry>, now: Time) {
    |lists| == |entries| && forall i: nat {:trigger ListIs(lists, entries, now, i)} :: ListIs(lists, entries, now, i)
  }

  method PutNth(written: string, entries: seq<Entry>, i: nat, now: Time, ghost props: seq<Prop>, ghost lists: seq<seq<Prop>>) returns (out: string)
    requires i < |entries| && ListsAre(lists, entries, now) && written == TextOf(PhysicalLines(props))
    ensures out == TextOf(PhysicalLines(props + lists[i]))
  {
    assert ListIs(lists, entries, now, i);
    out := PutEntry(written, entries[i], now, props);
  }

  method PutEntries(written: string, entries: seq<Entry>, now: Time, ghost head: seq<Prop>, ghost lists: seq<seq<Prop>>) returns (out: string)
    requires ListsAre(lists, entries, now) && written == TextOf(PhysicalLines(head))
    ensures out == TextOf(PhysicalLines(head + Flat(lists, |lists|)))
  {
    out := written;
    assert head + Flat(lists, 0) == head;
    var i := 0;
    while i < |entries|
      invariant 0 <= i <= |entries|
      invariant out == TextOf(PhysicalLines(head + Flat(lists, i)))
    {
      Assoc(head, Flat(lists, i), lists[i]);
      out := PutNth(out, entries, i, now, head + Flat(lists, i), lists);
      i := i + 1;
    }
  }

  /** The feed is the folded text of the calendar's content lines. */
  method Feed(name: string, entries: seq<Entry>, now: Time) returns (out: string)
    ensures out == TextOf(PhysicalLines(CalendarProps(name, entries, now)))
  {
    ghost var lists := EntryLists(entries, now);
    out := PutHead(name);
    out := PutEntries(out, entries, now, HeadProps(name), lists);
    out := Put(out, "END", "VCALENDAR", HeadProps(name) + Flat(lists, |entries|));
  }
}
