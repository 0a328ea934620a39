/**
  Parsing a foreign feed (internal/icsimport/parse.go): unfolding, splitting a content line,
  unescaping, the three shapes of a time, and the walk over the lines that collects events.
*/
module IcsParse {
  import opened Options
  import opened Civil
  import opened Recurrence
  import opened Seqs

  // ---- library text functions ------------------------------------------------

  /** Every CR LF pair becomes LF. */
  function ReplaceCrlf(s: string): string {
    if s == "" then ""
    else
      var n := |s| - 1;
      if s[n] == '\n' && n > 0 && s[n - 1] == '\r' then ReplaceCrlf(s[..n - 1]) + ['\n']
      else ReplaceCrlf(s[..n]) + [s[n]]
  }

  /** The parts between the separators; always at least one. */
  function Split(s: string, sep: char): (r: seq<string>)
    ensures |r| >= 1
  {
    if s == "" then [""]
    else
      var front := Split(s[..|s| - 1], sep);
      var c := s[|s| - 1];
      if c == sep then front + [""] else front[..|front| - 1] + [front[|front| - 1] + [c]]
  }

  /** ASCII upper case. */
  function UpperChar(c: char): char {
    if 'a' <= c <= 'z' then 'A' + (c as int - 'a' as int) as char else c
  }

  function Upper(s: string): (r: string)
    ensures |r| == |s| && forall i | 0 <= i < |s| :: r[i] == UpperChar(s[i])
  {
    seq(|s|, i requires 0 <= i < |s| => UpperChar(s[i]))
  }

  function IndexOf(s: string, c: char): (i: nat)
    ensures i <= |s| && (i < |s| ==> s[i] == c) && forall j | 0 <= j < i :: s[j] != c
  {
    if s == "" then 0 else if s[0] == c then 0 else 1 + IndexOf(s[1..], c)
  }

  function TrimLeft(s: string, cut: set<char>): string {
    if s != "" && s[0] in cut then TrimLeft(s[1..], cut) else s
  }

  function TrimRight(s: string, cut: set<char>): string {
    if s != "" && s[|s| - 1] in cut then TrimRight(s[..|s| - 1], cut) else s
  }

  function Trim(s: string, cut: set<char>): string {
    TrimRight(TrimLeft(s, cut), cut)
  }

  const SPACES: set<char> := {' ', '\t', '\n', '\r'}

  // ---- unfolding -------------------------------------------------------------

  /** The lines so far, the one being joined, and whether there is one. */
  datatype Joining = Joining(lines: seq<string>, cur: string, started: bool) {
    function Flushed(): seq<string> {
      if started then lines + [cur] else lines
    }
  }

  function JoinLine(j: Joining, l: string): Joining {
    if l == "" then j
    else if (l[0] == ' ' || l[0] == '\t') && j.started then j.(cur := j.cur + l[1..])
    else Joining(j.Flushed(), l, true)
  }

  function JoinAll(physical: seq<string>): Joining {
    if physical == [] then Joining([], "", false)
    else JoinLine(JoinAll(physical[..|physical| - 1]), physical[|physical| - 1])
  }

  /** The logical lines of a feed. */
  function Unfolded(raw: string): seq<string> {
    JoinAll(Split(ReplaceCrlf(raw), '\n')).Flushed()
  }

  method Unfold(raw: string) returns (lines: seq<string>)
    ensures lines == Unfolded(raw)
  {
    var physical := Split(ReplaceCrlf(raw), '\n');
    lines := [];
    var cur := "";
    var started := false;
    var i := 0;
    while i < |physical|
      invariant 0 <= i <= |physical|
      invariant Joining(lines, cur, started) == JoinAll(physical[..i])
    {
      assert physical[..i + 1][..i] == physical[..i];
      var l := physical[i];
      i := i + 1;
      if l == "" {
        continue;
      }
      if (l[0] == ' ' || l[0] == '\t') && started {
        cur := cur + l[1..];
        continue;
      }
      if started {
        lines := lines + [cur];
      }
      cur := l;
      started := true;
    }
    assert physical[..i] == physical;
    if started {
      lines := lines + [cur];
    }
  }

  // ---- one content line ------------------------------------------------------

  datatype Line = Line(name: string, params: map<string, string>, value: string)

  /** The first colon from i on that stands outside quotes. */
  function Colon(line: string, i: nat, inQuote: bool): (k: nat)
    requires i <= |line|
    ensures i <= k <= |line|
    decreases |line| - i
  {
    if i == |line| then i
    else if line[i] == '\"' then Colon(line, i + 1, !inQuote)
    else if line[i] == ':' && !inQuote then i
    else Colon(line, i + 1, inQuote)
  }

  function Param(params: map<string, string>, p: string): map<string, string> {
    var k := IndexOf(p, '=');
    if k == |p| then params else params[Upper(p[..k]) := Trim(p[k + 1..], {'\"'})]
  }

  function Params(parts: seq<string>, n: nat): map<string, string>
    requires n <= |parts|
  {
    if n <= 1 then map[] else Param(Params(parts, n - 1), parts[n - 1])
  }

  /** A line taken apart: the name in upper case, the parameters, and what follows the colon. */
  function SplitLine(line: string): Line {
    var k := Colon(line, 0, false);
    var parts := Split(line[..k], ';');
    Line(Upper(parts[0]), Params(parts, |parts|), if k < |line| then line[k + 1..] else "")
  }

  /** The part before the first colon outside quotes, and the part after it. */
  method CutAtColon(line: string) returns (head: string, value: string)
    ensures var k := Colon(line, 0, false); head == line[..k] && value == if k < |line| then line[k + 1..] else ""
  {
    var inQuote := false;
    var i := 0;
    while i < |line|
      invariant 0 <= i <= |line|
      invariant Colon(line, 0, false) == Colon(line, i, inQuote)
    {
      if line[i] == '\"' {
        inQuote := !inQuote;
      } else if line[i] == ':' && !inQuote {
        return line[..i], line[i + 1..];
      }
      i := i + 1;
    }
    return line[..i], "";
  }

  method SplitProp(line: string) returns (name: string, params: map<string, string>, value: string)
    ensures Line(name, params, value) == SplitLine(line)
  {
    var head;
    head, value := CutAtColon(line);
    var parts := Split(head, ';');
    name := Upper(parts[0]);
    params := map[];
    var j := 1;
    while j < |parts|
      invariant 1 <= j <= |parts|
      invariant params == Params(parts, j)
    {
      var k := IndexOf(parts[j], '=');
      if k < |parts[j]| {
        params := params[Upper(parts[j][..k]) := Trim(parts[j][k + 1..], {'\"'})];
      }
      j := j + 1;
    }
  }

  /** What an escaped text says. */
  function Unescape(s: string): string {
    if s == "" then ""
    else if s[0] != '\\' || |s| == 1 then [s[0]] + Unescape(s[1..])
    else (if s[1] == 'n' || s[1] == 'N' then ['\n'] else [s[1]]) + Unescape(s[2..])
  }

  lemma UnescapePlain(s: string, i: nat, out: string)
    requires i < |s| && (s[i] != '\\' || i + 1 == |s|)
    ensures out + Unescape(s[i..]) == out + [s[i]] + Unescape(s[i + 1..])
  {
    assert s[i..][1..] == s[i + 1..];
    assert Unescape(s[i..]) == [s[i]] + Unescape(s[i + 1..]);
  }

  function Unescaped(c: char): char {
    if c == 'n' || c == 'N' then '\n' else c
  }

  lemma UnescapePair(s: string, i: nat, out: string)
    requires i + 1 < |s| && s[i] == '\\'
    ensures out + Unescape(s[i..]) == out + [Unescaped(s[i + 1])] + Unescape(s[i + 2..])
  {
    assert s[i..][2..] == s[i + 2..];
    assert Unescape(s[i..]) == [Unescaped(s[i + 1])] + Unescape(s[i + 2..]);
  }

  method UnescapeText(s: string) returns (out: string)
    ensures out == Unescape(s)
  {
    out := "";
    var i := 0;
    assert s[0..] == s;
    while i < |s|
      invariant 0 <= i <= |s|
      invariant Unescape(s) == out + Unescape(s[i..])
    {
      if s[i] != '\\' || i + 1 == |s| {
        UnescapePlain(s, i, out);
        out := out + [s[i]];
        i := i + 1;
        continue;
      }
      UnescapePair(s, i, out);
      i := i + 1;
      if s[i] == 'n' || s[i] == 'N' {
        out := out + ['\n'];
      } else {
        out := out + [s[i]];
      }
      i := i + 1;
    }
    assert s[i..] == "";
  }

  // ---- times -----------------------------------------------------------------

  predicate IsDigit(c: char) {
    '0' <= c <= '9'
  }

  predicate Digits(s: string, from: nat, n: nat) {
    from + n <= |s| && forall i | from <= i < from + n :: IsDigit(s[i])
  }

  /** The number the n digits from a position on denote. */
  function Number(s: string, from: nat, n: nat): nat
    requires Digits(s, from, n)
  {
    if n == 0 then 0 else 10 * Number(s, from, n - 1) + (s[from + n - 1] as int - '0' as int)
  }

  /** A date like 20060102 at the start of the text, as a day. */
  function DateAt(s: string): Option<int> {
    if !Digits(s, 0, 8) then None
    else
      var y, m, d := Number(s, 0, 4), Number(s, 4, 2), Number(s, 6, 2);
      if 1 <= m <= 12 && 1 <= d <= DaysIn(y, m) then Some(DayNumber(y, m, d)) else None
  }

  /** A time of day like T150405 from the ninth character on. */
  function ClockAt(s: string): Option<int> {
    if |s| < 15 || s[8] != 'T' || !Digits(s, 9, 6) then None
    else
      var h, mi, sec := Number(s, 9, 2), Number(s, 11, 2), Number(s, 13, 2);
      if h < 24 && mi < 60 && sec < 60 then Some(h * 3600 + mi * 60 + sec) else None
  }

  /** The locations a feed can name: the local one, and those the time zone database knows. */
  datatype Places = Places(local: Zone, load: string -> Option<Zone>)

  /** An instant, whether only its day was given, and the location it was given in. */
  datatype Moment = Moment(at: Instant, allDay: bool, zone: Zone)

  function ParamOf(params: map<string, string>, key: string): string {
    if key in params then params[key] else ""
  }

  /** The three shapes: a date, a UTC time, a local time with an optional TZID. */
  function ParseTime(pl: Places, value: string, params: map<string, string>): Option<Moment> {
    if ParamOf(params, "VALUE") == "DATE" || |value| == 8 then
      var day := DateAt(value);
      if |value| == 8 && day.Some? then Some(Moment(pl.local.at(day.value, 0), true, pl.local)) else None
    else if value != "" && value[|value| - 1] == 'Z' then
      var day, clock := DateAt(value), ClockAt(value);
      if |value| == 16 && day.Some? && clock.Some? then Some(Moment(day.value * DAY + clock.value, false, UTC)) else None
    else
      var zone := if ParamOf(params, "TZID") == "" then Some(pl.local) else pl.load(ParamOf(params, "TZID"));
      var day, clock := DateAt(value), ClockAt(value);
      if zone.Some? && |value| == 15 && day.Some? && clock.Some?
      then Some(Moment(zone.value.at(day.value, clock.value), false, zone.value))
      else None
  }

  // ---- events ----------------------------------------------------------------

  /** An event of the feed; `zone` is the location of its start. */
  datatype IcsEvent = IcsEvent(
    uid: string, summary: string, location: string, start: Instant, end: Instant, allDay: bool,
    rrule: string, exDates: seq<Instant>, rDates: seq<Instant>, recurrenceId: Instant, status: string, zone: Zone)

  const EMPTY_EVENT: IcsEvent := IcsEvent("", "", "", 0, 0, false, "", [], [], 0, "", UTC)

  datatype Problem = BadTime(prop: string) | PeriodRDate | MissingUidOrStart
  datatype IcsSkipped = IcsSkipped(uid: string, summary: string, reason: Problem)

  /** The event being read and the last thing that went wrong in it. */
  datatype Reading = Reading(cur: IcsEvent, err: Option<Problem>)

  /** A list of times; the first that cannot be read ends it. */
  function ParseTimes(pl: Places, parts: seq<string>, i: nat, params: map<string, string>): (r: (seq<Instant>, bool))
    requires i <= |parts|
    decreases |parts| - i
  {
    if i == |parts| then ([], true)
    else
      var t := ParseTime(pl, Trim(parts[i], SPACES), params);
      if t.None? then ([], false)
      else
        var (rest, ok) := ParseTimes(pl, parts, i + 1, params);
        ([t.value.at] + rest, ok)
  }

  /** What one property does to the event being read. */
  function ReadProp(pl: Places, r: Reading, l: Line): Reading {
    if l.name == "UID" then r.(cur := r.cur.(uid := l.value))
    else if l.name == "SUMMARY" then r.(cur := r.cur.(summary := Unescape(l.value)))
    else if l.name == "LOCATION" then r.(cur := r.cur.(location := Unescape(l.value)))
    else if l.name == "STATUS" then r.(cur := r.cur.(status := Upper(l.value)))
    else if l.name == "RRULE" then r.(cur := r.cur.(rrule := l.value))
    else if l.name == "DTSTART" then
      var t := ParseTime(pl, l.value, l.params);
      if t.None? then r.(err := Some(BadTime(l.name))) else r.(cur := r.cur.(start := t.value.at, allDay := t.value.allDay, zone := t.value.zone))
    else if l.name == "DTEND" then
      var t := ParseTime(pl, l.value, l.params);
      if t.None? then r.(err := Some(BadTime(l.name))) else r.(cur := r.cur.(end := t.value.at))
    else if l.name == "RECURRENCE-ID" then
      var t := ParseTime(pl, l.value, l.params);
      if t.None? then r.(err := Some(BadTime(l.name))) else r.(cur := r.cur.(recurrenceId := t.value.at))
    else if l.name == "EXDATE" then
      var (ts, ok) := ParseTimes(pl, Split(l.value, ','), 0, l.params);
      Reading(r.cur.(exDates := r.cur.exDates + ts), if ok then r.err else Some(BadTime(l.name)))
    else if l.name == "RDATE" then
      if Upper(ParamOf(l.params, "VALUE")) == "PERIOD" then r.(err := Some(PeriodRDate))
      else
        var (ts, ok) := ParseTimes(pl, Split(l.value, ','), 0, l.params);
        Reading(r.cur.(rDates := r.cur.rDates + ts), if ok then r.err else Some(BadTime(l.name)))
    else r
  }

  /** The default end: the start, or the next day for an all-day event. */
  function WithEnd(pl: Places, e: IcsEvent): IcsEvent {
    if e.end != 0 then e
    else if e.allDay then e.(end := pl.local.at(pl.local.dayOf(e.start) + 1, pl.local.clockOf(e.start)))
    else e.(end := e.start)
  }

  /** Where the walk over the lines stands. */
  datatype Walk = Walk(events: seq<IcsEvent>, skipped: seq<IcsSkipped>, cur: Option<Reading>)

  function CloseEvent(pl: Places, w: Walk, r: Reading): Walk {
    if r.err.Some? then Walk(w.events, w.skipped + [IcsSkipped(r.cur.uid, r.cur.summary, r.err.value)], None)
    else if r.cur.uid == "" || r.cur.start == 0 then
      Walk(w.events, w.skipped + [IcsSkipped(r.cur.uid, r.cur.summary, MissingUidOrStart)], None)
    else Walk(w.events + [WithEnd(pl, r.cur)], w.skipped, None)
  }

  function WalkLine(pl: Places, w: Walk, l: Line): Walk {
    if l.name == "BEGIN" then
      if l.value == "VEVENT" then w.(cur := Some(Reading(EMPTY_EVENT, None))) else w
    else if l.name == "END" then
      if l.value == "VEVENT" && w.cur.Some? then CloseEvent(pl, w, w.cur.value) else w
    else if w.cur.None? then w
    else w.(cur := Some(ReadProp(pl, w.cur.value, l)))
  }

  function WalkAll(pl: Places, lines: seq<string>): Walk {
    if lines == [] then Walk([], [], None)
    else WalkLine(pl, WalkAll(pl, lines[..|lines| - 1]), SplitLine(lines[|lines| - 1]))
  }

  /** How many VEVENTs the lines close, and whether one is open at their end. */
  datatype Tally = Tally(closed: nat, open: bool)

  function TallyLine(t: Tally, l: Line): Tally {
    if l.value != "VEVENT" then t
    else if l.name == "BEGIN" then t.(open := true)
    else if l.name == "END" && t.open then Tally(t.closed + 1, false)
    else t
  }

  function Closed(lines: seq<string>): Tally {
    if lines == [] then Tally(0, false)
    else TallyLine(Closed(lines[..|lines| - 1]), SplitLine(lines[|lines| - 1]))
  }

  predicate Counted(w: Walk, t: Tally) {
    |w.events| + |w.skipped| == t.closed && w.cur.Some? == t.open
  }

  lemma LineCounted(pl: Places, w: Walk, t: Tally, l: Line)
    requires Counted(w, t)
    ensures Counted(WalkLine(pl, w, l), TallyLine(t, l))
  {
  }

  /** No closed event is lost: each is returned or listed as skipped. */
  lemma {:induction false} EveryClosedEventCounts(pl: Places, lines: seq<string>)
    ensures Counted(WalkAll(pl, lines), Closed(lines))
  {
    if lines != [] {
      var n := |lines| - 1;
      EveryClosedEventCounts(pl, lines[..n]);
      LineCounted(pl, WalkAll(pl, lines[..n]), Closed(lines[..n]), SplitLine(lines[n]));
    }
  }

  lemma ParseTimesStep(pl: Places, parts: seq<string>, i: nat, params: map<string, string>)
    requires i < |parts|
    ensures var t := ParseTime(pl, Trim(parts[i], SPACES), params);
      var r := ParseTimes(pl, parts, i, params);
      if t.None? then r == ([], false)
      else r.0 == [t.value.at] + ParseTimes(pl, parts, i + 1, params).0 && r.1 == ParseTimes(pl, parts, i + 1, params).1
  {
  }

  /** The list of an EXDATE or RDATE property, on top of the dates so far. */
  method ReadTimes(pl: Places, value: string, params: map<string, string>, dates: seq<Instant>) returns (out: seq<Instant>, ok: bool)
    ensures out == dates + ParseTimes(pl, Split(value, ','), 0, params).0 && ok == ParseTimes(pl, Split(value, ','), 0, params).1
  {
    var parts := Split(value, ',');
    out := dates;
    var i := 0;
    while i < |parts|
      invariant 0 <= i <= |parts|
      invariant dates + ParseTimes(pl, parts, 0, params).0 == out + ParseTimes(pl, parts, i, params).0
      invariant ParseTimes(pl, parts, 0, params).1 == ParseTimes(pl, parts, i, params).1
    {
      ParseTimesStep(pl, parts, i, params);
      var t := ParseTime(pl, Trim(parts[i], SPACES), params);
      if t.None? {
        return out, false;
      }
      Assoc(out, [t.value.at], ParseTimes(pl, parts, i + 1, params).0);
      out := out + [t.value.at];
      i := i + 1;
    }
    ok := true;
  }

  /** One property of an open event. */
  method ReadOne(pl: Places, l: Line, before: IcsEvent, errBefore: Option<Problem>) returns (cur: IcsEvent, err: Option<Problem>)
    ensures Reading(cur, err) == ReadProp(pl, Reading(before, errBefore), l)
  {
    cur, err := before, errBefore;
    if l.name == "UID" {
      cur := cur.(uid := l.value);
    } else if l.name == "SUMMARY" {
      var text := UnescapeText(l.value);
      cur := cur.(summary := text);
    } else if l.name == "LOCATION" {
      var text := UnescapeText(l.value);
      cur := cur.(location := text);
    } else if l.name == "STATUS" {
      cur := cur.(status := Upper(l.value));
    } else if l.name == "RRULE" {
      cur := cur.(rrule := l.value);
    } else if l.name == "DTSTART" || l.name == "DTEND" || l.name == "RECURRENCE-ID" {
      var t := ParseTime(pl, l.value, l.params);
      if t.None? {
        return cur, Some(BadTime(l.name));
      }
      if l.name == "DTSTART" {
        cur := cur.(start := t.value.at, allDay := t.value.allDay, zone := t.value.zone);
      } else if l.name == "DTEND" {
        cur := cur.(end := t.value.at);
      } else {
        cur := cur.(recurrenceId := t.value.at);
      }
    } else if l.name == "EXDATE" {
      var dates, ok := ReadTimes(pl, l.value, l.params, cur.exDates);
      cur := cur.(exDates := dates);
      err := if ok then err else Some(BadTime(l.name));
    } else if l.name == "RDATE" {
      if Upper(ParamOf(l.params, "VALUE")) == "PERIOD" {
        return cur, Some(PeriodRDate);
      }
      var dates, ok := ReadTimes(pl, l.value, l.params, cur.rDates);
      cur := cur.(rDates := dates);
      err := if ok then err else Some(BadTime(l.name));
    }
  }

  /** Every event of the feed is returned or listed as skipped. */
  method Parse(pl: Places, raw: string) returns (events: seq<IcsEvent>, skipped: seq<IcsSkipped>)
    ensures var w := WalkAll(pl, Unfolded(raw)); events == w.events && skipped == w.skipped
    ensures |events| + |skipped| == Closed(Unfolded(raw)).closed
  {
    var lines := Unfold(raw);
    events, skipped := [], [];
    var open: Option<Reading> := None;
    var i := 0;
    while i < |lines|
      invariant 0 <= i <= |lines|
      invariant Walk(events, skipped, open) == WalkAll(pl, lines[..i])
    {
      assert lines[..i + 1][..i] == lines[..i];
      var name, params, value := SplitProp(lines[i]);
      var l := Line(name, params, value);
      i := i + 1;
      if name == "BEGIN" {
        if value == "VEVENT" {
          open := Some(Reading(EMPTY_EVENT, None));
        }
        continue;
      }
      if name == "END" {
        if value != "VEVENT" || open.None? {
          continue;
        }
        var r := open.value;
        if r.err.Some? {
          skipped := skipped + [IcsSkipped(r.cur.uid, r.cur.summary, r.err.value)];
        } else if r.cur.uid == "" || r.cur.start == 0 {
          skipped := skipped + [IcsSkipped(r.cur.uid, r.cur.summary, MissingUidOrStart)];
        } else {
          events := events + [WithEnd(pl, r.cur)];
        }
        open := None;
      }
      if open.None? {
        continue;
      }
      var cur, err := ReadOne(pl, l, open.value.cur, open.value.err);
      open := Some(Reading(cur, err));
    }
    assert lines[..i] == lines;
    EveryClosedEventCounts(pl, lines);
  }
}
