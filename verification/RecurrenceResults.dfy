/**
  Facts about rules: what the ordinals select, what a counted series is, and that starting
  at the window edge loses no start a plain enumeration has there.
*/
module RecurrenceResults {
  import opened Options
  import opened Civil
  import opened Recurrence

  // ---- ordinals --------------------------------------------------------------

  /** How many days from lo to hi (both included) of this month fall on the weekday. */
  function CountDays(y: int, m: int, weekday: nat, lo: int, hi: int): nat
    requires 1 <= m <= 12
    decreases if hi >= lo then hi - lo + 1 else 0
  {
    if hi < lo then 0
    else CountDays(y, m, weekday, lo, hi - 1) + if Weekday(DayNumber(y, m, hi)) == weekday then 1 else 0
  }

  lemma {:induction false} CountDaysSplit(y: int, m: int, weekday: nat, lo: int, mid: int, hi: int)
    requires 1 <= m <= 12 && lo - 1 <= mid <= hi
    ensures CountDays(y, m, weekday, lo, hi) == CountDays(y, m, weekday, lo, mid) + CountDays(y, m, weekday, mid + 1, hi)
    decreases hi - mid
  {
    if mid < hi {
      CountDaysSplit(y, m, weekday, lo, mid, hi - 1);
    }
  }

  /** The matching days ascend, are exactly the days of the weekday, and the i-th has i before it. */
  lemma {:induction false} MatchingDays(y: int, m: int, weekday: nat, upto: nat)
    requires 1 <= m <= 12
    ensures var ms := Matching(y, m, weekday, upto);
      && |ms| == CountDays(y, m, weekday, 1, upto)
      && (forall i | 0 <= i < |ms| :: 1 <= ms[i] <= upto && Weekday(DayNumber(y, m, ms[i])) == weekday && CountDays(y, m, weekday, 1, ms[i] - 1) == i)
      && (forall i, j | 0 <= i < j < |ms| :: ms[i] < ms[j])
  {
    if upto > 0 {
      MatchingDays(y, m, weekday, upto - 1);
    }
  }

  /**
    The n-th weekday of a month is a day of that weekday with exactly n - 1 such days before it,
    counted from the end for negative n; there is none exactly when the month has fewer.
  */
  lemma NthWeekdayMeans(y: int, m: int, weekday: nat, ord: int)
    requires 1 <= m <= 12 && ord != 0
    ensures var days := DaysIn(y, m);
      var r := NthWeekday(y, m, weekday, ord);
      && (r.None? <==> CountDays(y, m, weekday, 1, days) < if ord > 0 then ord else -ord)
      && (r.Some? ==>
            && 1 <= r.value <= days && Weekday(DayNumber(y, m, r.value)) == weekday
            && (ord > 0 ==> CountDays(y, m, weekday, 1, r.value - 1) == ord - 1)
            && (ord < 0 ==> CountDays(y, m, weekday, r.value + 1, days) == -ord - 1))
  {
    var days := DaysIn(y, m);
    MatchingDays(y, m, weekday, days);
    var r := NthWeekday(y, m, weekday, ord);
    if r.Some? {
      CountDaysSplit(y, m, weekday, 1, r.value, days);
      CountDaysSplit(y, m, weekday, 1, r.value - 1, r.value);
      assert CountDays(y, m, weekday, r.value, r.value) == 1;
    }
  }

  predicate PickedAt(cands: seq<Instant>, positions: seq<int>, n: nat, t: Instant) {
    exists i | 0 <= i < n <= |positions| :: 0 <= Rank(positions[i], |cands|) < |cands| && cands[Rank(positions[i], |cands|)] == t
  }

  /** BYSETPOS picks exactly the candidates at the asked ranks of the sorted period. */
  lemma {:induction false} PicksByRank(cands: seq<Instant>, positions: seq<int>, n: nat)
    requires n <= |positions|
    ensures forall t :: t in PickRanks(cands, positions, n) <==> PickedAt(cands, positions, n, t)
  {
    if n > 0 {
      PicksByRank(cands, positions, n - 1);
    }
  }

  /** A month's candidates: its selected days in order, or those of them at the asked ranks. */
  lemma MonthCandidatesMean(s: Series, y: int, m: int)
    requires 1 <= m <= 12
    ensures var cands := MonthCandidates(s, y, m);
      var all := Sort(OnDays(s, y, m, DaysOfMonth(s, y, m)));
      && Sorted(cands) && Sorted(all) && multiset(all) == multiset(OnDays(s, y, m, DaysOfMonth(s, y, m)))
      && (s.rule.bySetPos == [] ==> cands == all)
      && (s.rule.bySetPos != [] ==> forall t :: t in cands <==> PickedAt(all, s.rule.bySetPos, |s.rule.bySetPos|, t))
  {
    var all := Sort(OnDays(s, y, m, DaysOfMonth(s, y, m)));
    var picked := PickRanks(all, s.rule.bySetPos, |s.rule.bySetPos|);
    SortSorts(OnDays(s, y, m, DaysOfMonth(s, y, m)));
    SortSorts(picked);
    PicksByRank(all, s.rule.bySetPos, |s.rule.bySetPos|);
    SameMembers(Sort(picked), picked);
  }

  lemma SameMembers(a: seq<int>, b: seq<int>)
    requires multiset(a) == multiset(b)
    ensures forall t :: t in a <==> t in b
  {
    forall t ensures t in a <==> t in b {
      assert t in multiset(a) <==> t in multiset(b);
    }
  }

  // ---- periods ---------------------------------------------------------------

  lemma {:induction false} OpensInOrder(p: Periods, i: int, k: int)
    requires p.Rising() && i <= k
    ensures p.opens(i) <= p.opens(k)
    decreases k - i
  {
    if i < k {
      OpensInOrder(p, i, k - 1);
      assert p.OpensLater(k - 1);
    }
  }

  /** Some period from the i-th on that opens by the end contributes t. */
  ghost predicate Contributes(p: Periods, i: int, end: Instant, t: Instant) {
    exists j :: i <= j && p.opens(j) <= end && t in p.cands(j)
  }

  lemma {:induction false} FromMembers(p: Periods, i: int, end: Instant, t: Instant)
    requires p.Rising()
    ensures t in From(p, i, end) <==> Contributes(p, i, end, t)
    decreases Left(p.opens(i), end)
  {
    assert p.OpensLater(i);
    if p.opens(i) <= end {
      FromMembers(p, i + 1, end, t);
    }
    if Contributes(p, i, end, t) {
      var j :| i <= j && p.opens(j) <= end && t in p.cands(j);
      OpensInOrder(p, i, j);
    }
  }

  /** The candidates of a series are what its periods contribute, from the anchor's on. */
  lemma CandidatesMean(s: Series, end: Instant, t: Instant)
    requires s.Valid()
    ensures t in Plain(s, end) <==> Contributes(PeriodsOf(s), 0, end, t)
  {
    PeriodsRise(s);
    FromMembers(PeriodsOf(s), 0, end, t);
  }

  /** The candidates of a daily series are the multiples of its interval after the anchor day, up to the end. */
  lemma DailyMeans(s: Series, end: Instant, t: Instant)
    requires s.Valid() && s.rule.freq == Daily
    ensures t in Plain(s, end) <==> exists k: nat :: t == s.OnDay(s.Day0() + k * s.rule.interval) && t <= end
  {
    CandidatesMean(s, end, t);
    var p := PeriodsOf(s);
    if k: nat :| t == s.OnDay(s.Day0() + k * s.rule.interval) && t <= end {
      assert p.opens(k) <= end && t in p.cands(k);
    }
    if Contributes(p, 0, end, t) {
      var j :| 0 <= j && p.opens(j) <= end && t in p.cands(j);
      var k: nat := j;
      assert t == s.OnDay(s.Day0() + k * s.rule.interval);
    }
  }

  /** A weekly series selects a day by its weekday and by how many whole weeks lie between its Monday and the anchor's. */
  predicate InSelectedWeek(s: Series, day: int) {
    var apart := (day - Weekday(day)) - (s.Day0() - Weekday(s.Day0()));
    s.rule.interval > 0 && Weekday(day) in WeekdaysOf(s) && apart / 7 % s.rule.interval == 0
  }

  lemma WeekSelectsMeans(s: Series, day: int)
    requires s.Valid()
    ensures WeekSelects(s, day) <==> InSelectedWeek(s, day)
  {
    var z := s.zone;
    OnDayIsDay(s, day);
    assert z.KeepsDay(day - Weekday(day), 0) && z.KeepsDay(s.Day0() - Weekday(s.Day0()), 0);
  }

  /** The candidates of a weekly series are the selected days from the anchor day up to the end. */
  lemma WeeklyMeans(s: Series, end: Instant, t: Instant)
    requires s.Valid() && s.rule.freq == Weekly
    ensures t in Plain(s, end) <==> exists day :: s.Day0() <= day && InSelectedWeek(s, day) && t == s.OnDay(day) && t <= end
  {
    CandidatesMean(s, end, t);
    var p := PeriodsOf(s);
    if day :| s.Day0() <= day && InSelectedWeek(s, day) && t == s.OnDay(day) && t <= end {
      WeekSelectsMeans(s, day);
      var k := day - s.Day0();
      assert p.opens(k) <= end && t in p.cands(k);
    }
    if Contributes(p, 0, end, t) {
      var j :| 0 <= j && p.opens(j) <= end && t in p.cands(j);
      WeekSelectsMeans(s, s.Day0() + j);
      assert t == s.OnDay(s.Day0() + j);
    }
  }

  // ---- fast-forward ----------------------------------------------------------

  predicate AllBefore(ts: seq<Instant>, edge: Instant) {
    forall i | 0 <= i < |ts| :: ts[i] < edge
  }

  /** Starting k periods later loses what the skipped periods contribute. */
  lemma {:induction false} SkipPeriods(p: Periods, i: int, k: int, edge: Instant, end: Instant) returns (skipped: seq<Instant>)
    requires p.Rising() && i <= k && forall j | i <= j < k :: AllBefore(p.cands(j), edge)
    ensures AllBefore(skipped, edge)
    ensures From(p, i, end) == skipped + From(p, k, end)
    decreases k - i
  {
    skipped := [];
    if i < k {
      OpensInOrder(p, i, k);
      if p.opens(i) <= end {
        var rest := SkipPeriods(p, i + 1, k, edge, end);
        skipped := p.cands(i) + rest;
      }
    }
  }

  lemma DayBeforeEdge(s: Series, day: int, edge: Instant)
    requires s.Valid() && day < s.zone.dayOf(edge)
    ensures s.OnDay(day) < edge
  {
    OnDayIsDay(s, day);
    assert s.zone.KeepsOrder(edge, s.OnDay(day));
  }

  lemma TimesGrows(a: nat, b: nat, c: nat)
    requires a <= b
    ensures a * c <= b * c
  {
    assert b * c == a * c + (b - a) * c;
  }

  lemma StepsShort(j: nat, q: nat, interval: nat, days: nat)
    requires interval > 0 && q == days / interval && j < q - 1
    ensures j * interval < days
  {
    assert days == q * interval + days % interval;
    TimesGrows(j + 1, q, interval);
    assert (j + 1) * interval == j * interval + interval;
  }

  /** Every skipped period lies before the edge. */
  lemma SkippedBefore(s: Series, windowStart: Instant, j: nat)
    requires s.Valid() && j < SkipAhead(s, windowStart)
    ensures AllBefore(PeriodsOf(s).cands(j), Lower(s, windowStart))
  {
    var edge := Lower(s, windowStart);
    var days := DaysBetween(s.zone, s.anchor, edge);
    assert s.zone.KeepsOrder(s.anchor, edge);
    if s.rule.freq == Daily {
      StepsShort(j, Quotient(days, s.rule.interval), s.rule.interval, days);
      DayBeforeEdge(s, s.Day0() + j * s.rule.interval, edge);
    } else {
      DayBeforeEdge(s, s.Day0() + j, edge);
    }
  }

  /**
    Starting at the window edge only loses candidates before that edge, and nothing at all
    when the series is counted.
  */
  lemma FastForwardLosesOnlyEarlier(s: Series, windowStart: Instant, end: Instant) returns (skipped: seq<Instant>)
    requires s.Valid()
    ensures Plain(s, end) == skipped + FastForwarded(s, windowStart, end)
    ensures AllBefore(skipped, windowStart)
    ensures s.rule.count > 0 ==> skipped == []
  {
    var k := SkipAhead(s, windowStart);
    PeriodsRise(s);
    skipped := [];
    if Lower(s, windowStart) == s.anchor {
      assert Quotient(0, s.rule.interval) == 0;
      assert k == 0;
    } else {
      forall j | 0 <= j < k ensures AllBefore(PeriodsOf(s).cands(j), windowStart) {
        SkippedBefore(s, windowStart, j);
      }
      skipped := SkipPeriods(PeriodsOf(s), 0, k, windowStart, end);
    }
  }

  // ---- counted series --------------------------------------------------------

  lemma {:induction false} AscendingRange(cands: seq<Instant>, anchor: Instant, end: Instant)
    requires Sorted(cands)
    ensures Sorted(InRange(cands, anchor, end))
  {
    if cands != [] {
      var n := |cands| - 1;
      var front := InRange(cands[..n], anchor, end);
      AscendingRange(cands[..n], anchor, end);
      InRangeIs(cands[..n], anchor, end);
      forall i | 0 <= i < |front| ensures front[i] <= cands[n] {
        assert front[i] in front;
        assert front[i] in cands[..n];
      }
    }
  }

  /**
    The starts of a counted series are the first n of its candidates from the anchor to the end:
    nothing between two of them, and nothing before the last of them, is left out.
  */
  lemma CountedAreFirst(s: Series, cands: seq<Instant>, end: Instant)
    requires Sorted(cands) && s.rule.count > 0
    ensures var starts := StartsFrom(s, cands, end);
      var all := InRange(cands, s.anchor, end);
      && |starts| == (if |all| <= s.rule.count then |all| else s.rule.count)
      && starts <= all && Sorted(starts)
      && (forall t | t in cands && s.anchor <= t <= end && starts != [] && t < starts[|starts| - 1] :: t in starts)
      && (|starts| < s.rule.count ==> forall t | t in cands && s.anchor <= t <= end :: t in starts)
  {
    var starts := StartsFrom(s, cands, end);
    var all := InRange(cands, s.anchor, end);
    AscendingRange(cands, s.anchor, end);
    InRangeIs(cands, s.anchor, end);
    forall t | t in all && starts != [] && t < starts[|starts| - 1] ensures t in starts {
      var i :| 0 <= i < |all| && all[i] == t;
      assert i < |starts|;
    }
  }

  // ---- candidates come in order ----------------------------------------------

  /** The period's candidates are in order, on days before the next period's floor. */
  predicate PeriodInOrder(s: Series, p: Periods, floor: int -> int, j: int) {
    && floor(j) < floor(j + 1) && Sorted(p.cands(j))
    && forall i | 0 <= i < |p.cands(j)| :: floor(j) <= s.zone.dayOf(p.cands(j)[i]) < floor(j + 1)
  }

  predicate NotBefore(s: Series, ts: seq<Instant>, day: int) {
    Sorted(ts) && forall i | 0 <= i < |ts| :: day <= s.zone.dayOf(ts[i])
  }

  lemma {:induction false} FromInOrder(s: Series, p: Periods, floor: int -> int, i: int, end: Instant)
    requires s.Valid() && p.Rising() && forall j :: PeriodInOrder(s, p, floor, j)
    ensures NotBefore(s, From(p, i, end), floor(i))
    decreases Left(p.opens(i), end)
  {
    assert p.OpensLater(i);
    if p.opens(i) <= end {
      FromInOrder(s, p, floor, i + 1, end);
      assert PeriodInOrder(s, p, floor, i);
      LaterPeriod(s, p.cands(i), floor(i), From(p, i + 1, end), floor(i + 1));
    }
  }

  lemma LaterPeriod(s: Series, here: seq<Instant>, lo: int, rest: seq<Instant>, hi: int)
    requires s.Valid() && lo < hi && Sorted(here) && NotBefore(s, rest, hi)
    requires forall i | 0 <= i < |here| :: lo <= s.zone.dayOf(here[i]) < hi
    ensures NotBefore(s, here + rest, lo)
  {
    forall i, j | 0 <= i < |here| && 0 <= j < |rest| ensures here[i] <= rest[j] {
      assert s.zone.dayOf(here[i]) < s.zone.dayOf(rest[j]) && s.zone.KeepsOrder(rest[j], here[i]);
    }
  }

  lemma EntryValid(y: int, m: int, bd: ByDay)
    requires 1 <= m <= 12
    ensures forall i | 0 <= i < |DaysOfEntry(y, m, bd)| :: 1 <= DaysOfEntry(y, m, bd)[i] <= DaysIn(y, m)
  {
    MatchingDays(y, m, bd.weekday, DaysIn(y, m));
  }

  lemma {:induction false} DaysByDayValid(y: int, m: int, entries: seq<ByDay>, n: nat)
    requires 1 <= m <= 12 && n <= |entries|
    ensures forall i | 0 <= i < |DaysByDay(y, m, entries, n)| :: 1 <= DaysByDay(y, m, entries, n)[i] <= DaysIn(y, m)
  {
    if n > 0 {
      DaysByDayValid(y, m, entries, n - 1);
      EntryValid(y, m, entries[n - 1]);
    }
  }

  lemma {:induction false} DaysByMonthDayValid(y: int, m: int, numbers: seq<int>, n: nat)
    requires 1 <= m <= 12 && n <= |numbers|
    ensures forall i | 0 <= i < |DaysByMonthDay(y, m, numbers, n)| :: 1 <= DaysByMonthDay(y, m, numbers, n)[i] <= DaysIn(y, m)
  {
    if n > 0 {
      DaysByMonthDayValid(y, m, numbers, n - 1);
    }
  }

  lemma DaysOfMonthValid(s: Series, y: int, m: int)
    requires 1 <= m <= 12
    ensures forall i | 0 <= i < |DaysOfMonth(s, y, m)| :: 1 <= DaysOfMonth(s, y, m)[i] <= DaysIn(y, m)
  {
    DaysByDayValid(y, m, s.rule.byDay, |s.rule.byDay|);
    DaysByMonthDayValid(y, m, s.rule.byMonthDay, |s.rule.byMonthDay|);
  }

  /** Every candidate is one of the selected days. */
  lemma CandidateIsDay(s: Series, y: int, m: int, t: Instant)
    requires 1 <= m <= 12 && t in MonthCandidates(s, y, m)
    ensures t in OnDays(s, y, m, DaysOfMonth(s, y, m))
  {
    MonthCandidatesMean(s, y, m);
    SameMembers(Sort(OnDays(s, y, m, DaysOfMonth(s, y, m))), OnDays(s, y, m, DaysOfMonth(s, y, m)));
  }

  /** The candidates of a month lie inside it. */
  lemma CandidateWithin(s: Series, n: int, t: Instant)
    requires s.Valid() && t in MonthCandidates(s, YearOfMonth(n), MonthOfMonth(n))
    ensures FirstOf(n) <= s.zone.dayOf(t) < FirstOf(n + 1)
  {
    var y, m := YearOfMonth(n), MonthOfMonth(n);
    var days := DaysOfMonth(s, y, m);
    var all := OnDays(s, y, m, days);
    DaysOfMonthValid(s, y, m);
    NextMonth(n);
    CandidateIsDay(s, y, m, t);
    var j :| 0 <= j < |all| && all[j] == t;
    OnDayIsDay(s, DayNumber(y, m, days[j]));
  }

  lemma MonthSpan(s: Series, n: int)
    requires s.Valid()
    ensures FirstOf(n) < FirstOf(n + 1) <= FirstOf(n + s.rule.interval)
  {
    MonthsApart(n, 1);
    if s.rule.interval > 1 {
      MonthsApart(n + 1, s.rule.interval - 1);
    }
  }

  lemma MonthInOrder(s: Series, n: int, cands: seq<Instant>)
    requires s.Valid() && cands == MonthCandidates(s, YearOfMonth(n), MonthOfMonth(n))
    ensures Sorted(cands)
    ensures forall i | 0 <= i < |cands| :: FirstOf(n) <= s.zone.dayOf(cands[i]) < FirstOf(n + 1)
  {
    MonthCandidatesMean(s, YearOfMonth(n), MonthOfMonth(n));
    forall i | 0 <= i < |cands| ensures FirstOf(n) <= s.zone.dayOf(cands[i]) < FirstOf(n + 1) {
      CandidateWithin(s, n, cands[i]);
    }
  }

  lemma PeriodFits(s: Series, p: Periods, floor: int -> int, j: int, lo: int, mid: int, hi: int, cands: seq<Instant>)
    requires floor(j) == lo < mid <= hi == floor(j + 1) && p.cands(j) == cands && Sorted(cands)
    requires forall i | 0 <= i < |cands| :: lo <= s.zone.dayOf(cands[i]) < mid
    ensures PeriodInOrder(s, p, floor, j)
  {
  }

  function MonthFloor(s: Series): int -> int {
    i => FirstOf(NthMonth(s, i))
  }

  lemma MonthlyInOrder(s: Series, j: int)
    requires s.Valid()
    ensures PeriodInOrder(s, MonthlyPeriods(s), MonthFloor(s), j)
  {
    var n, k := NthMonth(s, j), NthMonth(s, j + 1);
    var cands := MonthlyPeriods(s).cands(j);
    NextNthMonth(s, j);
    MonthSpan(s, n);
    MonthInOrder(s, n, cands);
    PeriodFits(s, MonthlyPeriods(s), MonthFloor(s), j, FirstOf(n), FirstOf(n + 1), FirstOf(k), cands);
  }

  lemma NextNthMonth(s: Series, j: int)
    ensures NthMonth(s, j + 1) == NthMonth(s, j) + s.rule.interval
  {
    assert (j + 1) * s.rule.interval == j * s.rule.interval + s.rule.interval;
  }

  lemma DailyInOrder(s: Series, j: int)
    requires s.Valid()
    ensures PeriodInOrder(s, DailyPeriods(s), i => s.Day0() + i * s.rule.interval, j)
  {
    assert (j + 1) * s.rule.interval == j * s.rule.interval + s.rule.interval;
    OnDayIsDay(s, s.Day0() + j * s.rule.interval);
  }

  lemma WeeklyInOrder(s: Series, j: int)
    requires s.Valid()
    ensures PeriodInOrder(s, WeeklyPeriods(s), i => s.Day0() + i, j)
  {
    OnDayIsDay(s, s.Day0() + j);
  }

  // ---- the months of a year --------------------------------------------------

  /** The months of a yearly series are listed in calendar order, none twice. */
  predicate MonthsRise(s: Series)
    requires s.rule.Valid()
  {
    var months := MonthsOf(s);
    forall i, j | 0 <= i < j < |months| :: months[i] < months[j]
  }

  /** In order, on days from lo on and before hi. */
  predicate InSpan(s: Series, ts: seq<Instant>, lo: int, hi: int) {
    Sorted(ts) && forall i | 0 <= i < |ts| :: lo <= s.zone.dayOf(ts[i]) < hi
  }

  lemma SpansJoin(s: Series, a: seq<Instant>, b: seq<Instant>, lo: int, mid: int, next: int, hi: int)
    requires s.Valid() && InSpan(s, a, lo, mid) && InSpan(s, b, next, hi) && lo <= mid <= next <= hi
    ensures InSpan(s, a + b, lo, hi)
  {
    forall i, j | 0 <= i < |a| && 0 <= j < |b| ensures a[i] <= b[j] {
      assert s.zone.dayOf(a[i]) < s.zone.dayOf(b[j]) && s.zone.KeepsOrder(b[j], a[i]);
    }
  }

  /** A name for the first day of the k-th month; the spans below only need that months rise. */
  ghost predicate MonthAt(at: int -> int, k: int) {
    at(k) == FirstOf(k)
  }

  ghost predicate Opens(at: int -> int) {
    forall k {:trigger MonthAt(at, k)} :: MonthAt(at, k)
  }

  lemma MonthsOrdered(at: int -> int, n: int, k: int)
    requires Opens(at) && n <= k
    ensures at(n) <= at(k) && (n < k ==> at(n) < at(k))
  {
    assert MonthAt(at, n) && MonthAt(at, k);
    if n < k {
      MonthsApart(n, k - n);
    }
  }

  lemma MonthNumber(y: int, m: int, n: int)
    requires 1 <= m <= 12 && n == 12 * y + m - 1
    ensures YearOfMonth(n) == y && MonthOfMonth(n) == m
  {
  }

  lemma MonthSpans(s: Series, at: int -> int, n: int, y: int, m: int, cands: seq<Instant>)
    requires s.Valid() && Opens(at) && y == YearOfMonth(n) && m == MonthOfMonth(n) && cands == MonthCandidates(s, y, m)
    ensures InSpan(s, cands, at(n), at(n + 1))
  {
    MonthInOrder(s, n, cands);
    SpanAt(s, at, cands, n);
  }

  lemma SpanAt(s: Series, at: int -> int, cands: seq<Instant>, n: int)
    requires Opens(at) && InSpan(s, cands, FirstOf(n), FirstOf(n + 1))
    ensures InSpan(s, cands, at(n), at(n + 1))
  {
    assert MonthAt(at, n) && MonthAt(at, n + 1);
  }

  /** The last of the first n months, 0 for none. */
  function LastMonth(months: seq<int>, n: nat): int
    requires n <= |months|
  {
    if n == 0 then 0 else months[n - 1]
  }

  predicate MonthsListed(months: seq<int>) {
    && (forall i | 0 <= i < |months| :: 1 <= months[i] <= 12)
    && (forall i, j | 0 <= i < j < |months| :: months[i] < months[j])
  }

  lemma LastMonthGrows(months: seq<int>, n: nat)
    requires MonthsListed(months) && 0 < n <= |months|
    ensures 0 <= LastMonth(months, n - 1) <= LastMonth(months, n) - 1 < 12
  {
  }

  /** One more month behind those before it. */
  lemma MonthJoins(s: Series, at: int -> int, y: int, front: seq<Instant>, cands: seq<Instant>, last: int, m: int)
    requires s.Valid() && Opens(at) && 0 <= last <= m - 1 < 12 && InSpan(s, front, at(12 * y), at(12 * y + last))
    requires InSpan(s, cands, at(12 * y + m - 1), at(12 * y + m))
    ensures InSpan(s, front + cands, at(12 * y), at(12 * y + m))
  {
    var n := 12 * y;
    MonthsOrdered(at, n, n + last);
    MonthsOrdered(at, n + last, n + m - 1);
    MonthsOrdered(at, n + m - 1, n + m);
    SpansJoin(s, front, cands, at(n), at(n + last), at(n + m - 1), at(n + m));
  }

  /** The i-th candidates lie in the i-th month, counted from `base`. */
  ghost predicate SpansMonth(s: Series, at: int -> int, base: int, months: seq<int>, cands: int -> seq<Instant>, i: nat) {
    i < |months| ==> InSpan(s, cands(i), at(base + months[i] - 1), at(base + months[i]))
  }

  lemma {:induction false} SpansInOrder(s: Series, at: int -> int, y: int, months: seq<int>, cands: int -> seq<Instant>, n: nat)
    requires s.Valid() && Opens(at) && n <= |months| && MonthsListed(months)
    requires forall i: nat :: SpansMonth(s, at, 12 * y, months, cands, i)
    ensures InSpan(s, Joined(cands, n), at(12 * y), at(12 * y + LastMonth(months, n)))
  {
    if n > 0 {
      SpansInOrder(s, at, y, months, cands, n - 1);
      LastMonthGrows(months, n);
      assert SpansMonth(s, at, 12 * y, months, cands, n - 1);
      MonthJoins(s, at, y, Joined(cands, n - 1), cands(n - 1), LastMonth(months, n - 1), months[n - 1]);
    }
  }

  lemma YearSpansMonth(s: Series, at: int -> int, y: int, months: seq<int>, i: nat)
    requires s.Valid() && Opens(at) && MonthsListed(months)
    ensures SpansMonth(s, at, 12 * y, months, YearCandidates(s, y, months), i)
  {
    if i < |months| {
      var m, cands := months[i], YearCandidates(s, y, months)(i);
      var n := 12 * y + m - 1;
      MonthNumber(y, m, n);
      MonthSpans(s, at, n, y, m, cands);
      assert at(n + 1) == at(12 * y + m);
    }
  }

  lemma YearSpans(s: Series, at: int -> int, y: int, months: seq<int>)
    requires s.Valid() && Opens(at) && MonthsListed(months)
    ensures forall i: nat :: SpansMonth(s, at, 12 * y, months, YearCandidates(s, y, months), i)
  {
    forall i: nat ensures SpansMonth(s, at, 12 * y, months, YearCandidates(s, y, months), i) {
      YearSpansMonth(s, at, y, months, i);
    }
  }

  /** The candidates of the year, one after the other, with what is known of each. */
  lemma JoinedInOrder(s: Series, at: int -> int, y: int, months: seq<int>, cands: int -> seq<Instant>, joined: seq<Instant>)
    requires s.Valid() && Opens(at) && MonthsListed(months) && joined == Joined(cands, |months|)
    requires forall i: nat :: SpansMonth(s, at, 12 * y, months, cands, i)
    ensures InSpan(s, joined, at(12 * y), at(12 * y + LastMonth(months, |months|)))
  {
    SpansInOrder(s, at, y, months, cands, |months|);
  }

  /** A period that holds the candidates of one year, before the next period's year. */
  lemma YearInOrder(s: Series, at: int -> int, p: Periods, floor: int -> int, j: int, months: seq<int>, cands: seq<Instant>, y: int, next: int)
    requires s.Valid() && Opens(at) && MonthsListed(months) && y < next
    requires p.cands(j) == cands && InSpan(s, cands, at(12 * y), at(12 * y + LastMonth(months, |months|)))
    requires floor(j) == at(12 * y) && floor(j + 1) == at(12 * next)
    ensures PeriodInOrder(s, p, floor, j)
  {
    var last := LastMonth(months, |months|);
    MonthsOrdered(at, 12 * y, 12 * next);
    MonthsOrdered(at, 12 * y + last, 12 * next);
  }

  function YearFloor(s: Series, at: int -> int): int -> int {
    i => at(12 * NthYear(s, i))
  }

  lemma NextNthYear(s: Series, j: int)
    ensures NthYear(s, j + 1) == NthYear(s, j) + s.rule.interval
  {
    assert (j + 1) * s.rule.interval == j * s.rule.interval + s.rule.interval;
  }

  lemma YearlyCands(s: Series, j: int)
    requires s.Valid()
    ensures YearlyPeriods(s).cands(j) == Joined(YearCandidates(s, NthYear(s, j), MonthsOf(s)), |MonthsOf(s)|)
  {
  }

  lemma YearlyInOrder(s: Series, at: int -> int, p: Periods, floor: int -> int, j: int)
    requires s.Valid() && MonthsRise(s) && Opens(at) && p == YearlyPeriods(s) && floor == YearFloor(s, at)
    ensures PeriodInOrder(s, p, floor, j)
  {
    var y, next, months := NthYear(s, j), NthYear(s, j + 1), MonthsOf(s);
    var cands := YearCandidates(s, y, months);
    NextNthYear(s, j);
    YearlyCands(s, j);
    YearSpans(s, at, y, months);
    JoinedInOrder(s, at, y, months, cands, p.cands(j));
    YearInOrder(s, at, p, floor, j, months, p.cands(j), y, next);
  }

  lemma YearlyAscends(s: Series, end: Instant)
    requires s.Valid() && s.rule.freq == Yearly && MonthsRise(s)
    ensures Sorted(Plain(s, end))
  {
    var at := k => FirstOf(k);
    assert Opens(at);
    var p, floor := YearlyPeriods(s), YearFloor(s, at);
    YearlyRise(s);
    forall j ensures PeriodInOrder(s, p, floor, j) {
      YearlyInOrder(s, at, p, floor, j);
    }
    FromInOrder(s, p, floor, 0, end);
  }

  /** The enumeration comes in order: always, but for yearly rules that list their months in another order. */
  predicate Orderly(s: Series)
    requires s.rule.Valid()
  {
    s.rule.freq == Yearly ==> MonthsRise(s)
  }

  /** So the candidates of daily, weekly, monthly and orderly yearly series come in order. */
  lemma PlainAscends(s: Series, end: Instant)
    requires s.Valid() && Orderly(s)
    ensures Sorted(Plain(s, end))
  {
    PeriodsRise(s);
    match s.rule.freq
    case Daily =>
      var floor := i => s.Day0() + i * s.rule.interval;
      forall j ensures PeriodInOrder(s, DailyPeriods(s), floor, j) { DailyInOrder(s, j); }
      FromInOrder(s, DailyPeriods(s), floor, 0, end);
    case Weekly =>
      var floor := i => s.Day0() + i;
      forall j ensures PeriodInOrder(s, WeeklyPeriods(s), floor, j) { WeeklyInOrder(s, j); }
      FromInOrder(s, WeeklyPeriods(s), floor, 0, end);
    case Monthly =>
      var floor := MonthFloor(s);
      forall j ensures PeriodInOrder(s, MonthlyPeriods(s), floor, j) { MonthlyInOrder(s, j); }
      FromInOrder(s, MonthlyPeriods(s), floor, 0, end);
    case Yearly =>
      YearlyAscends(s, end);
  }

  /** An orderly series with COUNT=n starts at its first n candidates from the anchor on. */
  lemma CountedSeries(s: Series, windowEnd: Instant)
    requires s.Valid() && s.rule.count > 0
    ensures var end := s.End(windowEnd);
      var starts := StartsFrom(s, Plain(s, end), end);
      var all := InRange(Plain(s, end), s.anchor, end);
      && starts <= all && |starts| == (if |all| <= s.rule.count then |all| else s.rule.count)
      && (forall t | t in starts :: t in Plain(s, end) && s.anchor <= t <= windowEnd && (s.rule.until != 0 ==> t <= s.rule.until))
      && (|starts| < s.rule.count ==> forall t | t in Plain(s, end) && s.anchor <= t <= end :: t in starts)
      && (Orderly(s) ==>
            && Sorted(starts)
            && forall t | t in Plain(s, end) && s.anchor <= t <= end && starts != [] && t < starts[|starts| - 1] :: t in starts)
  {
    var end := s.End(windowEnd);
    var starts := StartsFrom(s, Plain(s, end), end);
    var all := InRange(Plain(s, end), s.anchor, end);
    if Orderly(s) {
      PlainAscends(s, end);
      CountedAreFirst(s, Plain(s, end), end);
    }
    InRangeIs(Plain(s, end), s.anchor, end);
    assert |starts| < s.rule.count ==> starts == all;
    forall t | t in starts ensures t in all {
      var i :| 0 <= i < |starts| && starts[i] == t;
      assert all[i] == t;
    }
  }
}
