/**
  Reading the text of a recurrence rule (parseRule in internal/icsimport/expand.go): its parts
  from left to right, within the limits that keep the enumeration small.
*/
module RuleParse {
  import opened Options
  import opened Civil
  import opened Recurrence
  import opened IcsParse
  import opened FeedExpansion

  // ---- numbers and weekdays --------------------------------------------------

  const INT64: int := 0x8000_0000_0000_0000

  /** A decimal number with an optional sign that fits a machine integer. */
  function Atoi(s: string): Option<int> {
    var signed := s != "" && (s[0] == '-' || s[0] == '+');
    var body := if signed then s[1..] else s;
    if body == "" || !Digits(body, 0, |body|) then None
    else
      var v: int := Number(body, 0, |body|);
      var n := if signed && s[0] == '-' then -v else v;
      if -INT64 <= n < INT64 then Some(n) else None
  }

  /** Monday is 0. */
  function WeekdayOf(s: string): Option<nat> {
    if s == "MO" then Some(0)
    else if s == "TU" then Some(1)
    else if s == "WE" then Some(2)
    else if s == "TH" then Some(3)
    else if s == "FR" then Some(4)
    else if s == "SA" then Some(5)
    else if s == "SU" then Some(6)
    else None
  }

  /** An entry of BYDAY: a weekday, and which of its kind when a number precedes it. */
  function DayEntry(s: string): Option<ByDay> {
    var d := Trim(s, SPACES);
    var k := if |d| > 2 then |d| - 2 else 0;
    var ord := if k == 0 then Some(0) else Atoi(d[..k]);
    var weekday := WeekdayOf(d[k..]);
    if ord.None? || weekday.None? then None else Some(ByDay(ord.value, weekday.value))
  }

  /** The first n entries, unless one of them cannot be read. */
  function DayEntries(entries: seq<string>, n: nat): Option<seq<ByDay>>
    requires n <= |entries|
  {
    if n == 0 then Some([])
    else
      var front, d := DayEntries(entries, n - 1), DayEntry(entries[n - 1]);
      if front.None? || d.None? then None else Some(front.value + [d.value])
  }

  /** The numbers a part may list: months, or days and positions, which count from either end. */
  datatype Kind = Months | Positions

  predicate Allowed(kind: Kind, n: int) {
    if kind == Months then 1 <= n <= 12 else n != 0
  }

  function Numbers(kind: Kind, entries: seq<string>, n: nat): Option<seq<int>>
    requires n <= |entries|
  {
    if n == 0 then Some([])
    else
      var front, v := Numbers(kind, entries, n - 1), Atoi(entries[n - 1]);
      if front.None? || v.None? || !Allowed(kind, v.value) then None else Some(front.value + [v.value])
  }

  // ---- the parts -------------------------------------------------------------

  /** The rule so far; the frequency is looked up at the end. */
  datatype Draft = Draft(freq: string, rule: Rule)

  const EMPTY_DRAFT: Draft := Draft("", Rule(Daily, 1, 0, 0, [], [], [], []))

  /** The three shapes of UNTIL; a day counts until its last second. */
  function Until(zone: Zone, v: string): Option<Instant> {
    var day, clock := DateAt(v), ClockAt(v);
    if v != "" && v[|v| - 1] == 'Z' then
      if |v| == 16 && day.Some? && clock.Some? then Some(day.value * DAY + clock.value) else None
    else if |v| == 8 then
      if day.None? then None
      else
        var t := zone.at(day.value, 0);
        Some(zone.at(zone.dayOf(t) + 1, zone.clockOf(t)) - 1)
    else if |v| == 15 && day.Some? && clock.Some? then Some(zone.at(day.value, clock.value))
    else None
  }

  /** A number from 1 to the limit. */
  function Limited(v: string, limit: nat): Option<nat> {
    var n := Atoi(v);
    if n.Some? && 1 <= n.value <= limit then Some(n.value) else None
  }

  datatype Part = Frequency | Interval | UntilPart | Count | ByDays | ByMonths | ByMonthDays | ByPositions | WeekStart

  function PartOf(name: string): Option<Part> {
    if name == "FREQ" then Some(Frequency)
    else if name == "INTERVAL" then Some(Interval)
    else if name == "UNTIL" then Some(UntilPart)
    else if name == "COUNT" then Some(Count)
    else if name == "BYDAY" then Some(ByDays)
    else if name == "BYMONTH" then Some(ByMonths)
    else if name == "BYMONTHDAY" then Some(ByMonthDays)
    else if name == "BYSETPOS" then Some(ByPositions)
    else if name == "WKST" then Some(WeekStart)
    else None
  }

  /** What the value of a part does to the rule; the start of the week is accepted and ignored. */
  function ReadValue(zone: Zone, d: Draft, part: Part, v: string): Option<Draft> {
    var r := d.rule;
    match part
    case Frequency => Some(d.(freq := Upper(v)))
    case Interval =>
      var n := Limited(v, MAX_INTERVAL);
      if n.None? then None else Some(d.(rule := r.(interval := n.value)))
    case UntilPart =>
      var t := Until(zone, v);
      if t.None? then None else Some(d.(rule := r.(until := t.value)))
    case Count =>
      var n := Limited(v, MAX_COUNT);
      if n.None? then None else Some(d.(rule := r.(count := n.value)))
    case ByDays =>
      var ds := DayEntries(Split(v, ','), |Split(v, ',')|);
      if ds.None? then None else Some(d.(rule := r.(byDay := r.byDay + ds.value)))
    case ByMonths =>
      var ns := Numbers(Months, Split(v, ','), |Split(v, ',')|);
      if ns.None? then None else Some(d.(rule := r.(byMonth := r.byMonth + ns.value)))
    case ByMonthDays =>
      var ns := Numbers(Positions, Split(v, ','), |Split(v, ',')|);
      if ns.None? then None else Some(d.(rule := r.(byMonthDay := r.byMonthDay + ns.value)))
    case ByPositions =>
      var ns := Numbers(Positions, Split(v, ','), |Split(v, ',')|);
      if ns.None? then None else Some(d.(rule := r.(bySetPos := r.bySetPos + ns.value)))
    case WeekStart => Some(d)
  }

  function ReadPart(zone: Zone, d: Draft, text: string): Option<Draft> {
    var k := IndexOf(text, '=');
    var part := PartOf(Upper(text[..k]));
    if k == |text| || part.None? then None else ReadValue(zone, d, part.value, text[k + 1..])
  }

  type PartReader = (Draft, string) -> Option<Draft>

  /** The first n parts; the first that cannot be read spoils the rule. */
  function ReadParts(read: PartReader, parts: seq<string>, n: nat): Option<Draft>
    requires n <= |parts|
  {
    if n == 0 then Some(EMPTY_DRAFT)
    else
      var d := ReadParts(read, parts, n - 1);
      if d.None? then None else read(d.value, parts[n - 1])
  }

  function Reader(zone: Zone): PartReader {
    (d, text) => ReadPart(zone, d, text)
  }

  function FreqOf(s: string): Option<Freq> {
    if s == "DAILY" then Some(Daily)
    else if s == "WEEKLY" then Some(Weekly)
    else if s == "MONTHLY" then Some(Monthly)
    else if s == "YEARLY" then Some(Yearly)
    else None
  }

  /** The rule of all parts, once its frequency is known. */
  function Finished(d: Option<Draft>): RuleText {
    if d.None? || FreqOf(d.value.freq).None? then BadRule
    else Parsed(d.value.rule.(freq := FreqOf(d.value.freq).value))
  }

  /** What the text of a rule says in the location of its event. */
  function ReadRule(text: string, zone: Zone): RuleText {
    var parts := Split(text, ';');
    Finished(ReadParts(Reader(zone), parts, |parts|))
  }

  // ---- the limits ------------------------------------------------------------

  lemma {:induction false} NumbersAllowed(kind: Kind, entries: seq<string>, n: nat)
    requires n <= |entries|
    ensures var ns := Numbers(kind, entries, n);
      ns.Some? ==> |ns.value| == n && forall i | 0 <= i < n :: Allowed(kind, ns.value[i])
  {
    if n > 0 {
      NumbersAllowed(kind, entries, n - 1);
    }
  }

  /** Nothing listed is out of its range. */
  predicate InLimits(r: Rule) {
    && r.Valid()
    && (forall i | 0 <= i < |r.byMonthDay| :: r.byMonthDay[i] != 0)
    && (forall i | 0 <= i < |r.bySetPos| :: r.bySetPos[i] != 0)
    && (forall i | 0 <= i < |r.byDay| :: r.byDay[i].weekday < 7)
  }

  lemma EntryReal(s: string)
    ensures DayEntry(s).Some? ==> DayEntry(s).value.weekday < 7
  {
  }

  lemma {:induction false} WeekdaysReal(entries: seq<string>, n: nat)
    requires n <= |entries|
    ensures var ds := DayEntries(entries, n);
      ds.Some? ==> |ds.value| == n && forall i | 0 <= i < n :: ds.value[i].weekday < 7
  {
    if n > 0 {
      WeekdaysReal(entries, n - 1);
      EntryReal(entries[n - 1]);
    }
  }

  lemma ValueKeepsLimits(zone: Zone, d: Draft, part: Part, v: string)
    requires InLimits(d.rule)
    ensures ReadValue(zone, d, part, v).Some? ==> InLimits(ReadValue(zone, d, part, v).value.rule)
  {
    var entries := Split(v, ',');
    if part.ByDays? {
      WeekdaysReal(entries, |entries|);
    } else if part.ByMonths? {
      NumbersAllowed(Months, entries, |entries|);
    } else {
      NumbersAllowed(Positions, entries, |entries|);
    }
  }

  lemma PartKeepsLimits(zone: Zone, d: Draft, text: string)
    requires InLimits(d.rule)
    ensures ReadPart(zone, d, text).Some? ==> InLimits(ReadPart(zone, d, text).value.rule)
  {
    var k := IndexOf(text, '=');
    var part := PartOf(Upper(text[..k]));
    if k < |text| && part.Some? {
      ValueKeepsLimits(zone, d, part.value, text[k + 1..]);
    }
  }

  lemma {:induction false} PartsKeepLimits(zone: Zone, parts: seq<string>, n: nat)
    requires n <= |parts|
    ensures var d := ReadParts(Reader(zone), parts, n);
      d.Some? ==> InLimits(d.value.rule)
  {
    if n > 0 {
      var d := ReadParts(Reader(zone), parts, n - 1);
      PartsKeepLimits(zone, parts, n - 1);
      if d.Some? {
        PartKeepsLimits(zone, d.value, parts[n - 1]);
      }
    }
  }

  /** Whatever the text, a rule that is read keeps the limits of interval and count and the ranges of its lists. */
  lemma RulesKeepTheLimits(text: string, zone: Zone)
    ensures ReadRule(text, zone).Parsed? ==> InLimits(ReadRule(text, zone).rule)
  {
    var parts := Split(text, ';');
    PartsKeepLimits(zone, parts, |parts|);
  }

  // ---- the loops -------------------------------------------------------------

  lemma {:induction false} SpoiltStays(read: PartReader, parts: seq<string>, n: nat, m: nat)
    requires n <= m <= |parts| && ReadParts(read, parts, n).None?
    ensures ReadParts(read, parts, m).None?
  {
    if n < m {
      SpoiltStays(read, parts, n, m - 1);
    }
  }

  lemma {:induction false} DaysSpoilt(entries: seq<string>, n: nat, m: nat)
    requires n <= m <= |entries| && DayEntries(entries, n).None?
    ensures DayEntries(entries, m).None?
  {
    if n < m {
      DaysSpoilt(entries, n, m - 1);
    }
  }

  lemma {:induction false} NumbersSpoilt(kind: Kind, entries: seq<string>, n: nat, m: nat)
    requires n <= m <= |entries| && Numbers(kind, entries, n).None?
    ensures Numbers(kind, entries, m).None?
  {
    if n < m {
      NumbersSpoilt(kind, entries, n, m - 1);
    }
  }

  method ParseDays(entries: seq<string>) returns (r: Option<seq<ByDay>>)
    ensures r == DayEntries(entries, |entries|)
  {
    var days: seq<ByDay> := [];
    var i := 0;
    while i < |entries|
      invariant 0 <= i <= |entries| && DayEntries(entries, i) == Some(days)
    {
      var d := DayEntry(entries[i]);
      if d.None? {
        DaysSpoilt(entries, i + 1, |entries|);
        return None;
      }
      days := days + [d.value];
      i := i + 1;
    }
    return Some(days);
  }

  method ParseNumbers(kind: Kind, entries: seq<string>) returns (r: Option<seq<int>>)
    ensures r == Numbers(kind, entries, |entries|)
  {
    var numbers: seq<int> := [];
    var i := 0;
    while i < |entries|
      invariant 0 <= i <= |entries| && Numbers(kind, entries, i) == Some(numbers)
    {
      var n := Atoi(entries[i]);
      if n.None? || !Allowed(kind, n.value) {
        NumbersSpoilt(kind, entries, i + 1, |entries|);
        return None;
      }
      numbers := numbers + [n.value];
      i := i + 1;
    }
    return Some(numbers);
  }

  method ParsePart(zone: Zone, d: Draft, text: string) returns (r: Option<Draft>)
    ensures r == ReadPart(zone, d, text)
  {
    var k := IndexOf(text, '=');
    var part := PartOf(Upper(text[..k]));
    if k == |text| || part.None? {
      return None;
    }
    r := ParseValue(zone, d, part.value, text[k + 1..]);
  }

  method ParseValue(zone: Zone, d: Draft, part: Part, v: string) returns (r: Option<Draft>)
    ensures r == ReadValue(zone, d, part, v)
  {
    if part.ByDays? {
      var days := ParseDays(Split(v, ','));
      return if days.None? then None else Some(d.(rule := d.rule.(byDay := d.rule.byDay + days.value)));
    }
    if part.ByMonths? || part.ByMonthDays? || part.ByPositions? {
      var numbers := ParseNumbers(if part.ByMonths? then Months else Positions, Split(v, ','));
      if numbers.None? {
        return None;
      }
      if part.ByMonths? {
        return Some(d.(rule := d.rule.(byMonth := d.rule.byMonth + numbers.value)));
      }
      if part.ByMonthDays? {
        return Some(d.(rule := d.rule.(byMonthDay := d.rule.byMonthDay + numbers.value)));
      }
      return Some(d.(rule := d.rule.(bySetPos := d.rule.bySetPos + numbers.value)));
    }
    return ReadValue(zone, d, part, v);
  }

  /** What this reader makes of a part is what the zone's reader makes of it. */
  ghost predicate ReadsLike(read: PartReader, zone: Zone, d: Draft, text: string) {
    read(d, text) == ReadPart(zone, d, text)
  }

  ghost predicate ReadsIn(read: PartReader, zone: Zone) {
    forall d, text {:trigger ReadsLike(read, zone, d, text)} :: ReadsLike(read, zone, d, text)
  }

  method ParseNext(zone: Zone, d: Draft, text: string, ghost read: PartReader) returns (r: Option<Draft>)
    requires ReadsIn(read, zone)
    ensures r == read(d, text)
  {
    assert ReadsLike(read, zone, d, text);
    r := ParsePart(zone, d, text);
  }

  method ParseParts(zone: Zone, parts: seq<string>, ghost read: PartReader) returns (r: Option<Draft>)
    requires ReadsIn(read, zone)
    ensures r == ReadParts(read, parts, |parts|)
  {
    var d := EMPTY_DRAFT;
    var i := 0;
    while i < |parts|
      invariant 0 <= i <= |parts| && ReadParts(read, parts, i) == Some(d)
    {
      var next := ParseNext(zone, d, parts[i], read);
      if next.None? {
        SpoiltStays(read, parts, i + 1, |parts|);
        return None;
      }
      d := next.value;
      i := i + 1;
    }
    return Some(d);
  }

  method ParseRule(text: string, zone: Zone) returns (r: RuleText)
    ensures r == ReadRule(text, zone)
    ensures r.Parsed? ==> InLimits(r.rule)
  {
    RulesKeepTheLimits(text, zone);
    assert ReadsIn(Reader(zone), zone);
    var d := ParseParts(zone, Split(text, ';'), Reader(zone));
    r := Finished(d);
  }
}
