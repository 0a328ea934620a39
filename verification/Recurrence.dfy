/**
  What a recurrence rule means (internal/icsimport/expand.go): the candidate starts of a
  series, as plain enumeration from its anchor and as enumeration from the window edge.

  An instant is a number of seconds; 0 is the zero time, which stands for "not given".
*/
module Recurrence {
  import opened Options
  import opened Civil

  type Instant = int

  const DAY: int := 86400

  /** A location: which instant a day and time of day is, and which day and time an instant is. */
  datatype Zone = Zone(at: (int, int) -> Instant, dayOf: Instant -> int, clockOf: Instant -> int) {
    predicate KeepsDay(day: int, clock: int) {
      0 <= clock < DAY ==> dayOf(at(day, clock)) == day
    }

    predicate KeepsOrder(s: Instant, t: Instant) {
      s <= t ==> dayOf(s) <= dayOf(t)
    }

    predicate HasClock(t: Instant) {
      0 <= clockOf(t) < DAY
    }

    /** Days come back, in order; true of every fixed offset and of every location whose clock changes stay within a day. */
    ghost predicate Regular() {
      && (forall day, clock :: KeepsDay(day, clock))
      && (forall s, t :: KeepsOrder(s, t))
      && (forall t :: HasClock(t))
    }
  }

  function FixedOffset(offset: int): Zone {
    Zone((day, clock) => day * DAY + clock - offset, t => (t + offset) / DAY, t => (t + offset) % DAY)
  }

  const UTC: Zone := FixedOffset(0)

  lemma FixedOffsetIsRegular(offset: int)
    ensures FixedOffset(offset).Regular()
  {
    var z := FixedOffset(offset);
    forall day, clock ensures z.KeepsDay(day, clock) {
    }
  }

  lemma AtGrows(z: Zone, a: int, c: int, b: int, d: int)
    requires z.Regular() && a < b && 0 <= c < DAY && 0 <= d < DAY
    ensures z.at(a, c) < z.at(b, d)
  {
    assert z.KeepsDay(a, c) && z.KeepsDay(b, d) && z.KeepsOrder(z.at(b, d), z.at(a, c));
  }

  datatype Freq = Daily | Weekly | Monthly | Yearly
  datatype ByDay = ByDay(ord: int, weekday: nat)

  const MAX_INTERVAL := 10_000
  const MAX_COUNT := 10_000

  /** A parsed rule; count 0 and until 0 mean that the part was not given. */
  datatype Rule = Rule(freq: Freq, interval: nat, until: Instant, count: nat,
                       byDay: seq<ByDay>, byMonth: seq<int>, byMonthDay: seq<int>, bySetPos: seq<int>) {
    predicate Valid() {
      1 <= interval <= MAX_INTERVAL && count <= MAX_COUNT && forall i | 0 <= i < |byMonth| :: 1 <= byMonth[i] <= 12
    }
  }

  /** A rule at its anchor. */
  datatype Series = Series(zone: Zone, anchor: Instant, rule: Rule) {
    ghost predicate Valid() {
      zone.Regular() && rule.Valid()
    }

    function Day0(): int { zone.dayOf(anchor) }
    function Clock(): int { zone.clockOf(anchor) }

    /** The months are numbered; the anchor's is the first of a monthly series. */
    function Month0(): int { 12 * YearOf(Day0()) + MonthOf(Day0()) - 1 }

    function OnDay(day: int): Instant { zone.at(day, Clock()) }

    function End(windowEnd: Instant): Instant {
      if rule.until != 0 && rule.until < windowEnd then rule.until else windowEnd
    }
  }

  lemma OnDayGrows(s: Series, a: int, b: int)
    requires s.Valid() && a < b
    ensures s.OnDay(a) < s.OnDay(b)
  {
    assert s.zone.HasClock(s.anchor);
    AtGrows(s.zone, a, s.zone.clockOf(s.anchor), b, s.zone.clockOf(s.anchor));
  }

  lemma OnDayIsDay(s: Series, day: int)
    requires s.Valid()
    ensures s.zone.dayOf(s.OnDay(day)) == day
  {
    assert s.zone.HasClock(s.anchor) && s.zone.KeepsDay(day, s.Clock());
  }

  // ---- days and weeks --------------------------------------------------------

  function DaysBetween(z: Zone, a: Instant, b: Instant): int {
    z.dayOf(b) - z.dayOf(a)
  }

  /** Midnight of the Monday of the week of t. */
  function StartOfIsoWeek(z: Zone, t: Instant): Instant {
    z.at(z.dayOf(t) - Weekday(z.dayOf(t)), 0)
  }

  /** The weekdays of a weekly series: those asked for, or the anchor's. */
  function WeekdaysOf(s: Series): set<nat> {
    if s.rule.byDay == [] then {Weekday(s.Day0())} else set i | 0 <= i < |s.rule.byDay| :: s.rule.byDay[i].weekday
  }

  /** Weekday asked for, in a week that is a multiple of the interval away. */
  predicate WeekSelects(s: Series, day: int) {
    var d := s.OnDay(day);
    var week := DaysBetween(s.zone, StartOfIsoWeek(s.zone, s.anchor), StartOfIsoWeek(s.zone, d)) / 7;
    s.rule.interval > 0 && week % s.rule.interval == 0 && Weekday(s.zone.dayOf(d)) in WeekdaysOf(s)
  }

  // ---- months ----------------------------------------------------------------

  function YearOfMonth(n: int): int { n / 12 }

  function MonthOfMonth(n: int): (m: int)
    ensures 1 <= m <= 12
  {
    n % 12 + 1
  }

  function FirstOf(n: int): int {
    DayNumber(YearOfMonth(n), MonthOfMonth(n), 1)
  }

  lemma NextMonth(n: int)
    ensures FirstOf(n + 1) == FirstOf(n) + DaysIn(YearOfMonth(n), MonthOfMonth(n))
  {
    if n % 12 == 11 {
      YearOfMonths(n / 12);
      YearLength(n / 12);
      assert (n + 1) / 12 == n / 12 + 1;
      assert DaysBeforeMonth(n / 12, 13) == DaysBeforeMonth(n / 12, 12) + DaysIn(n / 12, 12);
    } else {
      assert (n + 1) / 12 == n / 12 && (n + 1) % 12 == n % 12 + 1;
    }
  }

  lemma {:induction false} MonthsApart(n: int, k: nat)
    requires k > 0
    ensures FirstOf(n) < FirstOf(n + k)
  {
    NextMonth(n + k - 1);
    if k > 1 {
      MonthsApart(n, k - 1);
    }
  }

  /** The days of the month up to the given one that fall on this weekday. */
  function Matching(y: int, m: int, weekday: nat, upto: nat): seq<int>
    requires 1 <= m <= 12
  {
    if upto == 0 then []
    else Matching(y, m, weekday, upto - 1) + if Weekday(DayNumber(y, m, upto)) == weekday then [upto] else []
  }

  function NthWeekday(y: int, m: int, weekday: nat, ord: int): Option<int>
    requires 1 <= m <= 12
  {
    var matches := Matching(y, m, weekday, DaysIn(y, m));
    var idx := if ord < 0 then |matches| + ord else ord - 1;
    if 0 <= idx < |matches| then Some(matches[idx]) else None
  }

  /** These days of the month, at the series' time of day. */
  function OnDays(s: Series, y: int, m: int, days: seq<int>): (r: seq<Instant>)
    requires 1 <= m <= 12
    ensures |r| == |days| && forall i | 0 <= i < |r| :: r[i] == s.OnDay(DayNumber(y, m, days[i]))
  {
    seq(|days|, i requires 0 <= i < |days| => s.OnDay(DayNumber(y, m, days[i])))
  }

  /** What one BYDAY entry selects. */
  function DaysOfEntry(y: int, m: int, bd: ByDay): seq<int>
    requires 1 <= m <= 12
  {
    if bd.ord == 0 then Matching(y, m, bd.weekday, DaysIn(y, m))
    else
      var d := NthWeekday(y, m, bd.weekday, bd.ord);
      if d.Some? then [d.value] else []
  }

  /** What the first n BYDAY entries select. */
  function DaysByDay(y: int, m: int, entries: seq<ByDay>, n: nat): seq<int>
    requires 1 <= m <= 12 && n <= |entries|
  {
    if n == 0 then [] else DaysByDay(y, m, entries, n - 1) + DaysOfEntry(y, m, entries[n - 1])
  }

  /** What one BYMONTHDAY number selects; negative numbers count from the end. */
  function DaysOfNumber(y: int, m: int, md: int): seq<int>
    requires 1 <= m <= 12
  {
    var day := if md < 0 then DaysIn(y, m) + 1 + md else md;
    if 1 <= day <= DaysIn(y, m) then [day] else []
  }

  function DaysByMonthDay(y: int, m: int, numbers: seq<int>, n: nat): seq<int>
    requires 1 <= m <= 12 && n <= |numbers|
  {
    if n == 0 then [] else DaysByMonthDay(y, m, numbers, n - 1) + DaysOfNumber(y, m, numbers[n - 1])
  }

  function DaysOfMonth(s: Series, y: int, m: int): seq<int>
    requires 1 <= m <= 12
  {
    if s.rule.byDay != [] then DaysByDay(y, m, s.rule.byDay, |s.rule.byDay|)
    else if s.rule.byMonthDay != [] then DaysByMonthDay(y, m, s.rule.byMonthDay, |s.rule.byMonthDay|)
    else DaysOfNumber(y, m, DayOf(s.Day0()))
  }

  predicate Sorted(ts: seq<int>) {
    forall i, j | 0 <= i < j < |ts| :: ts[i] <= ts[j]
  }

  function Insert(ts: seq<int>, t: int): seq<int> {
    if ts == [] || ts[|ts| - 1] <= t then ts + [t]
    else Insert(ts[..|ts| - 1], t) + [ts[|ts| - 1]]
  }

  lemma {:induction false} InsertAdds(ts: seq<int>, t: int)
    ensures multiset(Insert(ts, t)) == multiset(ts) + multiset{t}
  {
    if ts != [] && ts[|ts| - 1] > t {
      InsertAdds(ts[..|ts| - 1], t);
      assert ts == ts[..|ts| - 1] + [ts[|ts| - 1]];
    }
  }

  lemma {:induction false} InsertSorts(ts: seq<int>, t: int)
    requires Sorted(ts)
    ensures Sorted(Insert(ts, t))
  {
    if ts != [] && ts[|ts| - 1] > t {
      var n := |ts| - 1;
      var front := Insert(ts[..n], t);
      InsertSorts(ts[..n], t);
      InsertAdds(ts[..n], t);
      forall i | 0 <= i < |front| ensures front[i] <= ts[n] {
        assert front[i] in multiset(front);
        assert front[i] in multiset(ts[..n]) || front[i] == t;
      }
    }
  }

  /** The ascending order of these instants. */
  function Sort(ts: seq<int>): seq<int> {
    if ts == [] then [] else Insert(Sort(ts[..|ts| - 1]), ts[|ts| - 1])
  }

  lemma {:induction false} SortSorts(ts: seq<int>)
    ensures Sorted(Sort(ts)) && multiset(Sort(ts)) == multiset(ts)
  {
    if ts != [] {
      assert ts == ts[..|ts| - 1] + [ts[|ts| - 1]];
      SortSorts(ts[..|ts| - 1]);
      InsertAdds(Sort(ts[..|ts| - 1]), ts[|ts| - 1]);
      InsertSorts(Sort(ts[..|ts| - 1]), ts[|ts| - 1]);
    }
  }

  /** The position a BYSETPOS number means among n candidates. */
  function Rank(pos: int, n: nat): int {
    if pos < 0 then n + pos else pos - 1
  }

  function PickRanks(cands: seq<Instant>, positions: seq<int>, n: nat): seq<Instant>
    requires n <= |positions|
  {
    if n == 0 then []
    else
      var idx := Rank(positions[n - 1], |cands|);
      PickRanks(cands, positions, n - 1) + if 0 <= idx < |cands| then [cands[idx]] else []
  }

  function MonthCandidates(s: Series, y: int, m: int): seq<Instant>
    requires 1 <= m <= 12
  {
    var cands := Sort(OnDays(s, y, m, DaysOfMonth(s, y, m)));
    if s.rule.bySetPos == [] then cands else Sort(PickRanks(cands, s.rule.bySetPos, |s.rule.bySetPos|))
  }

  /** The candidates of each of these months, by position. */
  function YearCandidates(s: Series, y: int, months: seq<int>): int -> seq<Instant> {
    i => if 0 <= i < |months| && 1 <= months[i] <= 12 then MonthCandidates(s, y, months[i]) else []
  }

  /** The first n of these, joined. */
  function Joined(cands: int -> seq<Instant>, n: nat): seq<Instant> {
    if n == 0 then [] else Joined(cands, n - 1) + cands(n - 1)
  }

  /** The months of a yearly series: those asked for, or the anchor's. */
  function MonthsOf(s: Series): (r: seq<int>)
    requires s.rule.Valid()
    ensures forall i | 0 <= i < |r| :: 1 <= r[i] <= 12
  {
    if s.rule.byMonth == [] then [MonthOf(s.Day0())] else s.rule.byMonth
  }

  // ---- the candidates of a series, in the order they are enumerated ----------

  /** The periods of a series: when each opens and what it contributes. */
  datatype Periods = Periods(opens: int -> Instant, cands: int -> seq<Instant>) {
    predicate OpensLater(i: int) {
      opens(i) < opens(i + 1)
    }

    ghost predicate Rising() {
      forall i :: OpensLater(i)
    }
  }

  function Left(t: Instant, end: Instant): nat {
    if t > end then 0 else end - t + 1
  }

  /** The candidates of the periods from the i-th on that open by the end. */
  function From(p: Periods, i: int, end: Instant): seq<Instant>
    requires p.Rising()
    decreases Left(p.opens(i), end)
  {
    assert p.OpensLater(i);
    if p.opens(i) > end then [] else p.cands(i) + From(p, i + 1, end)
  }

  function DailyPeriods(s: Series): Periods {
    Periods(i => s.OnDay(s.Day0() + i * s.rule.interval), i => [s.OnDay(s.Day0() + i * s.rule.interval)])
  }

  function WeeklyPeriods(s: Series): Periods {
    Periods(i => s.OnDay(s.Day0() + i), i => if WeekSelects(s, s.Day0() + i) then [s.OnDay(s.Day0() + i)] else [])
  }

  /** The number of the month that opens the i-th period of a monthly series. */
  function NthMonth(s: Series, i: int): int {
    s.Month0() + i * s.rule.interval
  }

  function MonthlyPeriods(s: Series): Periods {
    Periods(i => s.zone.at(FirstOf(NthMonth(s, i)), 0),
            i => MonthCandidates(s, YearOfMonth(NthMonth(s, i)), MonthOfMonth(NthMonth(s, i))))
  }

  function NthYear(s: Series, i: int): int {
    YearOf(s.Day0()) + i * s.rule.interval
  }

  function YearlyPeriods(s: Series): Periods
    requires s.rule.Valid()
  {
    Periods(i => s.zone.at(DayNumber(NthYear(s, i), 1, 1), 0),
            i => Joined(YearCandidates(s, NthYear(s, i), MonthsOf(s)), |MonthsOf(s)|))
  }

  function PeriodsOf(s: Series): Periods
    requires s.rule.Valid()
  {
    match s.rule.freq
    case Daily => DailyPeriods(s)
    case Weekly => WeeklyPeriods(s)
    case Monthly => MonthlyPeriods(s)
    case Yearly => YearlyPeriods(s)
  }

  lemma DailyRise(s: Series)
    requires s.Valid()
    ensures DailyPeriods(s).Rising()
  {
    forall i ensures DailyPeriods(s).OpensLater(i) {
      assert (i + 1) * s.rule.interval == i * s.rule.interval + s.rule.interval;
      OnDayGrows(s, s.Day0() + i * s.rule.interval, s.Day0() + (i + 1) * s.rule.interval);
    }
  }

  lemma WeeklyRise(s: Series)
    requires s.Valid()
    ensures WeeklyPeriods(s).Rising()
  {
    forall i ensures WeeklyPeriods(s).OpensLater(i) {
      OnDayGrows(s, s.Day0() + i, s.Day0() + (i + 1));
    }
  }

  lemma MonthlyRise(s: Series)
    requires s.Valid()
    ensures MonthlyPeriods(s).Rising()
  {
    forall i ensures MonthlyPeriods(s).OpensLater(i) {
      assert NthMonth(s, i + 1) == NthMonth(s, i) + s.rule.interval;
      MonthsApart(NthMonth(s, i), s.rule.interval);
      AtGrows(s.zone, FirstOf(NthMonth(s, i)), 0, FirstOf(NthMonth(s, i + 1)), 0);
    }
  }

  lemma YearlyRise(s: Series)
    requires s.Valid()
    ensures YearlyPeriods(s).Rising()
  {
    forall i ensures YearlyPeriods(s).OpensLater(i) {
      assert NthYear(s, i + 1) == NthYear(s, i) + s.rule.interval;
      YearsGrow(NthYear(s, i), NthYear(s, i + 1));
      AtGrows(s.zone, DayNumber(NthYear(s, i), 1, 1), 0, DayNumber(NthYear(s, i + 1), 1, 1), 0);
    }
  }

  lemma PeriodsRise(s: Series)
    requires s.Valid()
    ensures PeriodsOf(s).Rising()
  {
    match s.rule.freq
    case Daily => DailyRise(s);
    case Weekly => WeeklyRise(s);
    case Monthly => MonthlyRise(s);
    case Yearly => YearlyRise(s);
  }

  /** Everything from the anchor on. */
  function Plain(s: Series, end: Instant): seq<Instant>
    requires s.Valid()
  {
    PeriodsRise(s);
    From(PeriodsOf(s), 0, end)
  }

  function Max(a: int, b: int): int {
    if a >= b then a else b
  }

  /** Division as the program's integers divide: toward zero. */
  function Quotient(a: int, b: int): int
    requires b > 0
  {
    if a >= 0 then a / b else -((-a) / b)
  }

  /** How far enumeration may skip ahead: only a series without a count, and not before its anchor. */
  function Lower(s: Series, windowStart: Instant): Instant {
    if s.rule.count == 0 && windowStart > s.anchor then windowStart else s.anchor
  }

  /** Daily and weekly series start at the window edge, less some slack; the others at the anchor. */
  function SkipAhead(s: Series, windowStart: Instant): nat
    requires s.rule.interval > 0
  {
    var days := DaysBetween(s.zone, s.anchor, Lower(s, windowStart));
    match s.rule.freq
    case Daily => Max(0, Quotient(days, s.rule.interval) - 1)
    case Weekly => Max(0, days - 7)
    case _ => 0
  }

  function FastForwarded(s: Series, windowStart: Instant, end: Instant): seq<Instant>
    requires s.Valid()
  {
    PeriodsRise(s);
    From(PeriodsOf(s), SkipAhead(s, windowStart), end)
  }

  // ---- from candidates to starts ---------------------------------------------

  function InRange(cands: seq<Instant>, anchor: Instant, end: Instant): seq<Instant> {
    if cands == [] then []
    else
      var t := cands[|cands| - 1];
      InRange(cands[..|cands| - 1], anchor, end) + if anchor <= t <= end then [t] else []
  }

  function Cut(ts: seq<Instant>, count: nat): seq<Instant> {
    if count == 0 || |ts| <= count then ts else ts[..count]
  }

  function StartsFrom(s: Series, cands: seq<Instant>, end: Instant): seq<Instant> {
    Cut(InRange(cands, s.anchor, end), s.rule.count)
  }

  lemma {:induction false} InRangeJoin(a: seq<Instant>, b: seq<Instant>, anchor: Instant, end: Instant)
    ensures InRange(a + b, anchor, end) == InRange(a, anchor, end) + InRange(b, anchor, end)
  {
    if b == [] {
      assert a + b == a;
    } else {
      InRangeJoin(a, b[..|b| - 1], anchor, end);
      assert (a + b)[..|a + b| - 1] == a + b[..|b| - 1];
    }
  }

  lemma {:induction false} InRangeIs(cands: seq<Instant>, anchor: Instant, end: Instant)
    ensures forall t :: t in InRange(cands, anchor, end) <==> t in cands && anchor <= t <= end
    ensures |InRange(cands, anchor, end)| <= |cands|
  {
    if cands != [] {
      InRangeIs(cands[..|cands| - 1], anchor, end);
      assert cands == cands[..|cands| - 1] + [cands[|cands| - 1]];
    }
  }
}
