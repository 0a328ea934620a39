/**
  Expanding a parsed feed into occurrences (internal/icsimport/expand.go): the enumeration
  budget, the rules step by step, and the feed as a whole. The loops spend from the budget,
  which is what makes every one of them end.
*/
module Expansion {
  import opened Options
  import opened Civil
  import opened Recurrence
  import opened RecurrenceResults

  const MAX_EVENT_STEPS := 500_000
  const MAX_FEED_STEPS := 2_000_000

  // ---- the budget ------------------------------------------------------------

  class Budget {
    var event: int
    var feed: int
    var hit: bool

    /** Nothing is overspent, and a spend was only denied when an allowance was used up. */
    predicate Counts()
      reads this
    {
      event >= 0 && feed >= 0 && (hit ==> event == 0 || feed == 0)
    }

    constructor ()
      ensures Counts() && !hit && feed == MAX_FEED_STEPS
    {
      event, feed, hit := MAX_EVENT_STEPS, MAX_FEED_STEPS, false;
    }

    /** A fresh allowance for the next event; the feed's goes on counting down. */
    method NextEvent()
      requires Counts()
      modifies this
      ensures Counts() && !hit && event == MAX_EVENT_STEPS && feed == old(feed)
    {
      event, hit := MAX_EVENT_STEPS, false;
    }

    method Spend() returns (ok: bool)
      requires Counts()
      modifies this
      ensures Counts() && ok == (old(event) > 0 && old(feed) > 0)
      ensures ok ==> event == old(event) - 1 && feed == old(feed) - 1 && hit == old(hit)
      ensures !ok ==> event == old(event) && feed == old(feed) && hit
    {
      if event <= 0 || feed <= 0 {
        hit := true;
        return false;
      }
      event := event - 1;
      feed := feed - 1;
      ok := true;
    }
  }

  // ---- months ----------------------------------------------------------------

  /** The loop over the days of a month finds the n-th weekday. */
  method FindNthWeekday(y: int, m: int, weekday: nat, ord: int) returns (r: Option<int>)
    requires 1 <= m <= 12
    ensures r == NthWeekday(y, m, weekday, ord)
  {
    var daysInMonth := DaysIn(y, m);
    var matches: seq<int> := [];
    var day := 1;
    while day <= daysInMonth
      invariant 1 <= day <= daysInMonth + 1
      invariant matches == Matching(y, m, weekday, day - 1)
    {
      if Weekday(DayNumber(y, m, day)) == weekday {
        matches := matches + [day];
      }
      day := day + 1;
    }
    var idx := ord - 1;
    if ord < 0 {
      idx := |matches| + ord;
    }
    if idx < 0 || idx >= |matches| {
      return None;
    }
    return Some(matches[idx]);
  }

  lemma OnDaysJoin(s: Series, y: int, m: int, a: seq<int>, b: seq<int>)
    requires 1 <= m <= 12
    ensures OnDays(s, y, m, a + b) == OnDays(s, y, m, a) + OnDays(s, y, m, b)
  {
  }

  /** Every day of the month on this weekday, each at the cost of a step. */
  method AddEveryWeekday(s: Series, y: int, m: int, weekday: nat, b: Budget, cands: seq<Instant>) returns (ok: bool, out: seq<Instant>)
    requires s.Valid() && 1 <= m <= 12 && b.Counts() && !b.hit
    modifies b
    ensures b.Counts() && b.event <= old(b.event) && b.event - b.feed == old(b.event - b.feed)
    ensures ok == !b.hit
    ensures ok ==> out == cands + OnDays(s, y, m, Matching(y, m, weekday, DaysIn(y, m)))
  {
    out := cands;
    var daysInMonth := DaysIn(y, m);
    var day := 1;
    while day <= daysInMonth
      invariant 1 <= day <= daysInMonth + 1
      invariant b.Counts() && !b.hit && b.event <= old(b.event) && b.event - b.feed == old(b.event - b.feed)
      invariant out == cands + OnDays(s, y, m, Matching(y, m, weekday, day - 1))
    {
      var d := s.OnDay(DayNumber(y, m, day));
      OnDayIsDay(s, DayNumber(y, m, day));
      if Weekday(s.zone.dayOf(d)) == weekday {
        var paid := b.Spend();
        if !paid {
          return false, [];
        }
        OnDaysJoin(s, y, m, Matching(y, m, weekday, day - 1), [day]);
        out := out + [d];
      }
      day := day + 1;
    }
    ok := true;
  }

  /** What one BYDAY entry adds. */
  method AddEntry(s: Series, y: int, m: int, bd: ByDay, b: Budget, cands: seq<Instant>) returns (ok: bool, out: seq<Instant>)
    requires s.Valid() && 1 <= m <= 12 && b.Counts() && !b.hit
    modifies b
    ensures b.Counts() && b.event <= old(b.event) && b.event - b.feed == old(b.event - b.feed)
    ensures ok == !b.hit
    ensures ok ==> out == cands + OnDays(s, y, m, DaysOfEntry(y, m, bd))
  {
    var paid := b.Spend();
    if !paid {
      return false, [];
    }
    if bd.ord == 0 {
      ok, out := AddEveryWeekday(s, y, m, bd.weekday, b, cands);
      return;
    }
    var d := FindNthWeekday(y, m, bd.weekday, bd.ord);
    if d.Some? {
      return true, cands + [s.OnDay(DayNumber(y, m, d.value))];
    }
    return true, cands + [];
  }

  method AddByDay(s: Series, y: int, m: int, b: Budget) returns (ok: bool, cands: seq<Instant>)
    requires s.Valid() && 1 <= m <= 12 && b.Counts() && !b.hit
    modifies b
    ensures b.Counts() && b.event <= old(b.event) && b.event - b.feed == old(b.event - b.feed)
    ensures ok == !b.hit
    ensures ok ==> cands == OnDays(s, y, m, DaysByDay(y, m, s.rule.byDay, |s.rule.byDay|))
  {
    cands := [];
    var i := 0;
    while i < |s.rule.byDay|
      invariant 0 <= i <= |s.rule.byDay|
      invariant b.Counts() && !b.hit && b.event <= old(b.event) && b.event - b.feed == old(b.event - b.feed)
      invariant cands == OnDays(s, y, m, DaysByDay(y, m, s.rule.byDay, i))
    {
      OnDaysJoin(s, y, m, DaysByDay(y, m, s.rule.byDay, i), DaysOfEntry(y, m, s.rule.byDay[i]));
      var more;
      more, cands := AddEntry(s, y, m, s.rule.byDay[i], b, cands);
      if !more {
        return false, [];
      }
      i := i + 1;
    }
    ok := true;
  }

  method AddByMonthDay(s: Series, y: int, m: int, b: Budget) returns (ok: bool, cands: seq<Instant>)
    requires s.Valid() && 1 <= m <= 12 && b.Counts() && !b.hit
    modifies b
    ensures b.Counts() && b.event <= old(b.event) && b.event - b.feed == old(b.event - b.feed)
    ensures ok == !b.hit
    ensures ok ==> cands == OnDays(s, y, m, DaysByMonthDay(y, m, s.rule.byMonthDay, |s.rule.byMonthDay|))
  {
    cands := [];
    var daysInMonth := DaysIn(y, m);
    var i := 0;
    while i < |s.rule.byMonthDay|
      invariant 0 <= i <= |s.rule.byMonthDay|
      invariant b.Counts() && !b.hit && b.event <= old(b.event) && b.event - b.feed == old(b.event - b.feed)
      invariant cands == OnDays(s, y, m, DaysByMonthDay(y, m, s.rule.byMonthDay, i))
    {
      OnDaysJoin(s, y, m, DaysByMonthDay(y, m, s.rule.byMonthDay, i), DaysOfNumber(y, m, s.rule.byMonthDay[i]));
      var paid := b.Spend();
      if !paid {
        return false, [];
      }
      var day := s.rule.byMonthDay[i];
      if day < 0 {
        day := daysInMonth + 1 + day;
      }
      if day >= 1 && day <= daysInMonth {
        cands := cands + [s.OnDay(DayNumber(y, m, day))];
      }
      i := i + 1;
    }
    ok := true;
  }

  /** BYSETPOS as the last filter of the period. */
  method PickPositions(s: Series, cands: seq<Instant>, b: Budget) returns (ok: bool, picked: seq<Instant>)
    requires b.Counts() && !b.hit
    modifies b
    ensures b.Counts() && b.event <= old(b.event) && b.event - b.feed == old(b.event - b.feed)
    ensures ok == !b.hit
    ensures ok ==> picked == PickRanks(cands, s.rule.bySetPos, |s.rule.bySetPos|)
  {
    picked := [];
    var i := 0;
    while i < |s.rule.bySetPos|
      invariant 0 <= i <= |s.rule.bySetPos|
      invariant b.Counts() && !b.hit && b.event <= old(b.event) && b.event - b.feed == old(b.event - b.feed)
      invariant picked == PickRanks(cands, s.rule.bySetPos, i)
    {
      var paid := b.Spend();
      if !paid {
        return false, [];
      }
      var idx := s.rule.bySetPos[i] - 1;
      if s.rule.bySetPos[i] < 0 {
        idx := |cands| + s.rule.bySetPos[i];
      }
      if idx >= 0 && idx < |cands| {
        picked := picked + [cands[idx]];
      }
      i := i + 1;
    }
    ok := true;
  }

  method SelectMonth(s: Series, y: int, m: int, b: Budget) returns (ok: bool, cands: seq<Instant>)
    requires s.Valid() && 1 <= m <= 12 && b.Counts() && !b.hit
    modifies b
    ensures b.Counts() && b.event <= old(b.event) && b.event - b.feed == old(b.event - b.feed)
    ensures ok == !b.hit
    ensures ok ==> cands == MonthCandidates(s, y, m)
  {
    if |s.rule.byDay| > 0 {
      ok, cands := AddByDay(s, y, m, b);
    } else if |s.rule.byMonthDay| > 0 {
      ok, cands := AddByMonthDay(s, y, m, b);
    } else {
      cands := [];
      ok := b.Spend();
      if ok && DayOf(s.Day0()) <= DaysIn(y, m) {
        cands := [s.OnDay(DayNumber(y, m, DayOf(s.Day0())))];
      }
    }
    if !ok {
      return;
    }
    assert cands == OnDays(s, y, m, DaysOfMonth(s, y, m));
    cands := Sort(cands);
    if |s.rule.bySetPos| == 0 {
      return;
    }
    ok, cands := PickPositions(s, cands, b);
    if ok {
      cands := Sort(cands);
    }
  }

  // ---- one rule --------------------------------------------------------------

  /** Room for another start. */
  predicate Open(s: Series, out: seq<Instant>) {
    s.rule.count == 0 || |out| < s.rule.count
  }

  /** One candidate: it may be out of range, it may be the last, or the budget may be gone. */
  method Add(s: Series, b: Budget, starts: seq<Instant>, t: Instant, end: Instant) returns (out: seq<Instant>, more: bool)
    requires b.Counts() && !b.hit && Open(s, starts)
    modifies b
    ensures b.Counts() && b.event <= old(b.event) && b.event - b.feed == old(b.event - b.feed)
    ensures |out| - |starts| <= old(b.event) - b.event
    ensures !b.hit ==> out == Cut(starts + InRange([t], s.anchor, end), s.rule.count) && more == Open(s, out)
    ensures b.hit ==> !more
  {
    var paid := b.Spend();
    if !paid {
      return starts, false;
    }
    assert [t][..0] == [];
    if t < s.anchor || t > end {
      return starts, true;
    }
    out := starts + [t];
    more := s.rule.count == 0 || |out| < s.rule.count;
  }

  /** The periods before the i-th are enumerated: `out` holds what they have in range, and there is room. */
  ghost predicate Progress(s: Series, p: Periods, first: int, i: int, end: Instant, out: seq<Instant>)
    requires p.Rising()
  {
    Open(s, out) && exists done: seq<Instant> :: From(p, first, end) == done + From(p, i, end) && out == InRange(done, s.anchor, end)
  }

  lemma ProgressStarts(s: Series, p: Periods, first: int, end: Instant)
    requires p.Rising()
    ensures Progress(s, p, first, first, end, [])
  {
    assert From(p, first, end) == [] + From(p, first, end) && [] == InRange([], s.anchor, end);
  }

  /** No period is left: `out` is the result. */
  lemma ProgressEnds(s: Series, p: Periods, first: int, i: int, end: Instant, out: seq<Instant>)
    requires p.Rising() && Progress(s, p, first, i, end, out) && p.opens(i) > end
    ensures out == StartsFrom(s, From(p, first, end), end)
  {
    var done: seq<Instant> :| From(p, first, end) == done + From(p, i, end) && out == InRange(done, s.anchor, end);
    assert From(p, first, end) == done;
  }

  /** One more period: the count is reached in it, or there is room for the next. */
  lemma ProgressMoves(s: Series, p: Periods, first: int, i: int, end: Instant, out: seq<Instant>)
    requires p.Rising() && Progress(s, p, first, i, end, out) && p.opens(i) <= end
    ensures var next := Cut(out + InRange(p.cands(i), s.anchor, end), s.rule.count);
      if Open(s, next) then Progress(s, p, first, i + 1, end, next) else next == StartsFrom(s, From(p, first, end), end)
  {
    var done: seq<Instant> :| From(p, first, end) == done + From(p, i, end) && out == InRange(done, s.anchor, end);
    var rest := From(p, i + 1, end);
    assert From(p, first, end) == (done + p.cands(i)) + rest;
    InRangeJoin(done, p.cands(i), s.anchor, end);
    InRangeJoin(done + p.cands(i), rest, s.anchor, end);
  }

  method EnumerateDaily(s: Series, b: Budget, first: nat, end: Instant, ghost p: Periods) returns (out: seq<Instant>)
    requires p == DailyPeriods(s) && p.Rising()
    requires s.Valid() && b.Counts() && !b.hit
    modifies b
    ensures b.Counts() && b.event <= old(b.event) && b.event - b.feed == old(b.event - b.feed)
    ensures |out| <= old(b.event) - b.event
    ensures !b.hit ==> out == StartsFrom(s, From(p, first, end), end)
  {
    var i := first;
    out := [];
    ProgressStarts(s, p, first, end);
    while true
      invariant b.Counts() && !b.hit && b.event <= old(b.event) && b.event - b.feed == old(b.event - b.feed)
      invariant |out| <= old(b.event) - b.event
      invariant Progress(s, p, first, i, end, out)
      decreases b.event
    {
      var paid := b.Spend();
      if !paid {
        return;
      }
      var d := s.OnDay(s.Day0() + i * s.rule.interval);
      if d > end {
        ProgressEnds(s, p, first, i, end, out);
        return;
      }
      ProgressMoves(s, p, first, i, end, out);
      var more;
      out, more := Add(s, b, out, d, end);
      if !more {
        return;
      }
      i := i + 1;
    }
  }

  method WeekdaySet(s: Series) returns (days: set<nat>)
    ensures days == WeekdaysOf(s)
  {
    days := {};
    var i := 0;
    while i < |s.rule.byDay|
      invariant 0 <= i <= |s.rule.byDay|
      invariant forall k | 0 <= k < i :: s.rule.byDay[k].weekday in days
      invariant forall w | w in days :: exists k | 0 <= k < i :: s.rule.byDay[k].weekday == w
    {
      days := days + {s.rule.byDay[i].weekday};
      i := i + 1;
    }
    if |s.rule.byDay| > 0 {
      assert s.rule.byDay[0].weekday in days;
      assert forall w :: w in days <==> w in WeekdaysOf(s);
    }
    if days == {} {
      days := {Weekday(s.zone.dayOf(s.anchor))};
    }
  }

  predicate WeeklyAt(s: Series, p: Periods, i: int) {
    && p.opens(i) == s.OnDay(s.Day0() + i)
    && p.cands(i) == if WeekSelects(s, s.Day0() + i) then [s.OnDay(s.Day0() + i)] else []
  }

  ghost predicate IsWeekly(s: Series, p: Periods) {
    p.Rising() && forall i {:trigger WeeklyAt(s, p, i)} :: WeeklyAt(s, p, i)
  }

  lemma WeeklyPeriodsAre(s: Series)
    requires s.Valid()
    ensures IsWeekly(s, WeeklyPeriods(s))
  {
    WeeklyRise(s);
  }

  method DayOpens(s: Series, i: nat, ghost p: Periods) returns (t: Instant)
    requires IsWeekly(s, p)
    ensures t == p.opens(i)
  {
    assert WeeklyAt(s, p, i);
    t := s.OnDay(s.Day0() + i);
  }

  /** The week is a multiple of the interval away, and the weekday is asked for. */
  method IsSelected(s: Series, i: nat, d: Instant, anchorMonday: Instant, days: set<nat>, ghost p: Periods) returns (r: bool)
    requires s.rule.interval > 0 && anchorMonday == StartOfIsoWeek(s.zone, s.anchor) && days == WeekdaysOf(s)
    requires IsWeekly(s, p) && d == p.opens(i)
    ensures p.cands(i) == if r then [d] else []
  {
    assert WeeklyAt(s, p, i);
    var week := DaysBetween(s.zone, anchorMonday, StartOfIsoWeek(s.zone, d)) / 7;
    r := week % s.rule.interval == 0 && Weekday(s.zone.dayOf(d)) in days;
  }

  /** One day of a weekly series, if it is selected. */
  method AddDay(s: Series, b: Budget, starts: seq<Instant>, i: nat, d: Instant, end: Instant, anchorMonday: Instant, days: set<nat>, ghost p: Periods)
    returns (out: seq<Instant>, more: bool)
    requires s.rule.interval > 0 && anchorMonday == StartOfIsoWeek(s.zone, s.anchor) && days == WeekdaysOf(s)
    requires IsWeekly(s, p) && d == p.opens(i) && b.Counts() && !b.hit && Open(s, starts)
    modifies b
    ensures b.Counts() && b.event <= old(b.event) && b.event - b.feed == old(b.event - b.feed)
    ensures |out| - |starts| <= old(b.event) - b.event
    ensures !b.hit ==> out == Cut(starts + InRange(p.cands(i), s.anchor, end), s.rule.count) && more == Open(s, out)
    ensures b.hit ==> !more
  {
    var selected := IsSelected(s, i, d, anchorMonday, days, p);
    if !selected {
      assert starts + [] == starts;
      return starts, true;
    }
    out, more := Add(s, b, starts, d, end);
  }

  method EnumerateWeekly(s: Series, b: Budget, first: nat, end: Instant, ghost p: Periods) returns (out: seq<Instant>)
    requires IsWeekly(s, p)
    requires s.Valid() && b.Counts() && !b.hit
    modifies b
    ensures b.Counts() && b.event <= old(b.event) && b.event - b.feed == old(b.event - b.feed)
    ensures |out| <= old(b.event) - b.event
    ensures !b.hit ==> out == StartsFrom(s, From(p, first, end), end)
  {
    var days := WeekdaySet(s);
    var anchorMonday := StartOfIsoWeek(s.zone, s.anchor);
    var day := first;
    out := [];
    ProgressStarts(s, p, first, end);
    while true
      invariant b.Counts() && !b.hit && b.event <= old(b.event) && b.event - b.feed == old(b.event - b.feed)
      invariant |out| <= old(b.event) - b.event
      invariant Progress(s, p, first, day, end, out)
      decreases b.event
    {
      var paid := b.Spend();
      if !paid {
        return;
      }
      var d := DayOpens(s, day, p);
      if d > end {
        ProgressEnds(s, p, first, day, end, out);
        return;
      }
      ProgressMoves(s, p, first, day, end, out);
      var more;
      out, more := AddDay(s, b, out, day, d, end, anchorMonday, days, p);
      if !more {
        return;
      }
      day := day + 1;
    }
  }

  /** The candidates of one month, one by one; `more` is false when the series is done or the budget gone. */
  method AddAll(s: Series, b: Budget, starts: seq<Instant>, cands: seq<Instant>, end: Instant) returns (out: seq<Instant>, more: bool)
    requires b.Counts() && !b.hit && Open(s, starts)
    modifies b
    ensures b.Counts() && b.event <= old(b.event) && b.event - b.feed == old(b.event - b.feed)
    ensures |out| - |starts| <= old(b.event) - b.event
    ensures b.hit ==> !more
    ensures !b.hit ==> out == Cut(starts + InRange(cands, s.anchor, end), s.rule.count) && more == Open(s, out)
  {
    out := starts;
    var i := 0;
    while i < |cands|
      invariant 0 <= i <= |cands|
      invariant b.Counts() && !b.hit && b.event <= old(b.event) && b.event - b.feed == old(b.event - b.feed)
      invariant |out| - |starts| <= old(b.event) - b.event
      invariant out == starts + InRange(cands[..i], s.anchor, end) && Open(s, out)
    {
      AddMoves(s, starts, cands, i, out, end);
      out, more := Add(s, b, out, cands[i], end);
      if !more {
        return;
      }
      i := i + 1;
    }
    assert cands[..i] == cands;
    more := true;
  }

  lemma AddMoves(s: Series, starts: seq<Instant>, cands: seq<Instant>, i: nat, out: seq<Instant>, end: Instant)
    requires i < |cands| && out == starts + InRange(cands[..i], s.anchor, end) && Open(s, out)
    ensures var next := Cut(out + InRange([cands[i]], s.anchor, end), s.rule.count);
      if Open(s, next) then next == starts + InRange(cands[..i + 1], s.anchor, end)
      else next == Cut(starts + InRange(cands, s.anchor, end), s.rule.count)
  {
    var a, b, c := InRange(cands[..i], s.anchor, end), InRange([cands[i]], s.anchor, end), InRange(cands[i + 1..], s.anchor, end);
    InRangeJoin(cands[..i], [cands[i]], s.anchor, end);
    InRangeJoin(cands[..i + 1], cands[i + 1..], s.anchor, end);
    assert cands[..i + 1] == cands[..i] + [cands[i]];
    assert cands == cands[..i + 1] + cands[i + 1..];
    CutMoves(s, starts, a, b, c);
  }

  predicate MonthlyAt(s: Series, p: Periods, i: int) {
    var n := NthMonth(s, i);
    p.opens(i) == s.zone.at(FirstOf(n), 0) && p.cands(i) == MonthCandidates(s, YearOfMonth(n), MonthOfMonth(n))
  }

  ghost predicate IsMonthly(s: Series, p: Periods) {
    p.Rising() && forall i {:trigger MonthlyAt(s, p, i)} :: MonthlyAt(s, p, i)
  }

  method MonthOpens(s: Series, i: nat, ghost p: Periods) returns (t: Instant)
    requires IsMonthly(s, p)
    ensures t == p.opens(i)
  {
    assert MonthlyAt(s, p, i);
    t := s.zone.at(FirstOf(NthMonth(s, i)), 0);
  }

  method SelectNth(s: Series, i: nat, b: Budget, ghost p: Periods) returns (ok: bool, cands: seq<Instant>)
    requires s.Valid() && IsMonthly(s, p) && b.Counts() && !b.hit
    modifies b
    ensures b.Counts() && b.event <= old(b.event) && b.event - b.feed == old(b.event - b.feed)
    ensures ok == !b.hit
    ensures ok ==> cands == p.cands(i)
  {
    assert MonthlyAt(s, p, i);
    var n := NthMonth(s, i);
    ok, cands := SelectMonth(s, YearOfMonth(n), MonthOfMonth(n), b);
  }

  method EnumerateMonthly(s: Series, b: Budget, end: Instant, ghost p: Periods) returns (out: seq<Instant>)
    requires IsMonthly(s, p)
    requires s.Valid() && b.Counts() && !b.hit
    modifies b
    ensures b.Counts() && b.event <= old(b.event) && b.event - b.feed == old(b.event - b.feed)
    ensures |out| <= old(b.event) - b.event
    ensures !b.hit ==> out == StartsFrom(s, From(p, 0, end), end)
  {
    var i := 0;
    out := [];
    ProgressStarts(s, p, 0, end);
    while true
      invariant b.Counts() && !b.hit && b.event <= old(b.event) && b.event - b.feed == old(b.event - b.feed)
      invariant |out| <= old(b.event) - b.event
      invariant Progress(s, p, 0, i, end, out)
      decreases b.event
    {
      var paid := b.Spend();
      if !paid {
        return;
      }
      var opens := MonthOpens(s, i, p);
      if opens > end {
        ProgressEnds(s, p, 0, i, end, out);
        return;
      }
      var ok, cands := SelectNth(s, i, b, p);
      if !ok {
        return;
      }
      ProgressMoves(s, p, 0, i, end, out);
      var more;
      out, more := AddAll(s, b, out, cands, end);
      if !more {
        return;
      }
      i := i + 1;
    }
  }

  /** The function gives the candidates of the i-th of these months. */
  predicate MonthAt(s: Series, y: int, months: seq<int>, cands: int -> seq<Instant>, i: nat) {
    i < |months| && 1 <= months[i] <= 12 ==> cands(i) == MonthCandidates(s, y, months[i])
  }

  ghost predicate IsYear(s: Series, y: int, months: seq<int>, cands: int -> seq<Instant>) {
    && (forall i | 0 <= i < |months| :: 1 <= months[i] <= 12)
    && forall i: nat {:trigger MonthAt(s, y, months, cands, i)} :: MonthAt(s, y, months, cands, i)
  }

  lemma {:induction false} JoinedMore(cands: int -> seq<Instant>, i: nat, n: nat) returns (rest: seq<Instant>)
    requires i <= n
    ensures Joined(cands, n) == Joined(cands, i) + rest
  {
    if i == n {
      rest := [];
    } else {
      var front := JoinedMore(cands, i, n - 1);
      rest := front + cands(n - 1);
    }
  }

  method SelectMonthOfYear(s: Series, y: int, months: seq<int>, i: nat, b: Budget, ghost f: int -> seq<Instant>) returns (ok: bool, cands: seq<Instant>)
    requires s.Valid() && i < |months| && IsYear(s, y, months, f) && b.Counts() && !b.hit
    modifies b
    ensures b.Counts() && b.event <= old(b.event) && b.event - b.feed == old(b.event - b.feed)
    ensures ok == !b.hit
    ensures ok ==> cands == f(i)
  {
    assert MonthAt(s, y, months, f, i);
    ok, cands := SelectMonth(s, y, months[i], b);
  }

  /** The months of one year of a yearly series. */
  method AddYear(s: Series, b: Budget, starts: seq<Instant>, y: int, months: seq<int>, end: Instant, ghost f: int -> seq<Instant>) returns (out: seq<Instant>, more: bool)
    requires s.Valid() && b.Counts() && !b.hit && Open(s, starts) && IsYear(s, y, months, f)
    modifies b
    ensures b.Counts() && b.event <= old(b.event) && b.event - b.feed == old(b.event - b.feed)
    ensures |out| - |starts| <= old(b.event) - b.event
    ensures b.hit ==> !more
    ensures !b.hit ==> out == Cut(starts + InRange(Joined(f, |months|), s.anchor, end), s.rule.count) && more == Open(s, out)
  {
    out := starts;
    var i := 0;
    while i < |months|
      invariant 0 <= i <= |months|
      invariant b.Counts() && !b.hit && b.event <= old(b.event) && b.event - b.feed == old(b.event - b.feed)
      invariant |out| - |starts| <= old(b.event) - b.event
      invariant YearProgress(s, f, i, starts, out, end)
    {
      YearMoves(s, f, i, |months|, starts, out, end);
      var ok, cands := SelectMonthOfYear(s, y, months, i, b, f);
      if !ok {
        return out, false;
      }
      out, more := AddAll(s, b, out, cands, end);
      if !more {
        return;
      }
      i := i + 1;
    }
    more := true;
  }

  /** The first i months are added, and there is room. */
  predicate YearProgress(s: Series, f: int -> seq<Instant>, i: nat, starts: seq<Instant>, out: seq<Instant>, end: Instant) {
    out == starts + InRange(Joined(f, i), s.anchor, end) && Open(s, out)
  }

  lemma YearMoves(s: Series, f: int -> seq<Instant>, i: nat, n: nat, starts: seq<Instant>, out: seq<Instant>, end: Instant)
    requires i < n && YearProgress(s, f, i, starts, out, end)
    ensures var next := Cut(out + InRange(f(i), s.anchor, end), s.rule.count);
      if Open(s, next) then YearProgress(s, f, i + 1, starts, next, end)
      else next == Cut(starts + InRange(Joined(f, n), s.anchor, end), s.rule.count)
  {
    var rest := JoinedMore(f, i + 1, n);
    var a, b, c := InRange(Joined(f, i), s.anchor, end), InRange(f(i), s.anchor, end), InRange(rest, s.anchor, end);
    JoinedAre(f, i, n, rest, s.anchor, end, a, b, c);
    CutMoves(s, starts, a, b, c);
  }

  /** Cutting after the second part cuts the whole, when there was room after the first. */
  lemma CutMoves(s: Series, starts: seq<Instant>, a: seq<Instant>, b: seq<Instant>, c: seq<Instant>)
    requires Open(s, starts + a)
    ensures var next := Cut((starts + a) + b, s.rule.count);
      if Open(s, next) then next == starts + (a + b) else next == Cut(starts + ((a + b) + c), s.rule.count)
  {
    var ab := (starts + a) + b;
    assert ab == starts + (a + b);
    assert starts + ((a + b) + c) == ab + c;
    if s.rule.count > 0 && |ab| >= s.rule.count {
      assert (ab + c)[..s.rule.count] == ab[..s.rule.count];
    }
  }

  lemma JoinedAre(f: int -> seq<Instant>, i: nat, n: nat, rest: seq<Instant>, anchor: Instant, end: Instant,
                  a: seq<Instant>, b: seq<Instant>, c: seq<Instant>)
    requires a == InRange(Joined(f, i), anchor, end) && b == InRange(f(i), anchor, end) && c == InRange(rest, anchor, end)
    requires Joined(f, n) == Joined(f, i + 1) + rest
    ensures InRange(Joined(f, i + 1), anchor, end) == a + b
    ensures InRange(Joined(f, n), anchor, end) == (a + b) + c
  {
    InRangeJoin(Joined(f, i), f(i), anchor, end);
    InRangeJoin(Joined(f, i + 1), rest, anchor, end);
  }

  predicate YearlyAt(s: Series, p: Periods, i: int)
    requires s.rule.Valid()
  {
    p.opens(i) == s.zone.at(DayNumber(NthYear(s, i), 1, 1), 0)
    && p.cands(i) == Joined(YearCandidates(s, NthYear(s, i), MonthsOf(s)), |MonthsOf(s)|)
  }

  ghost predicate IsYearly(s: Series, p: Periods)
    requires s.rule.Valid()
  {
    p.Rising() && forall i {:trigger YearlyAt(s, p, i)} :: YearlyAt(s, p, i)
  }

  method YearOpens(s: Series, i: nat, ghost p: Periods) returns (t: Instant)
    requires s.Valid() && IsYearly(s, p)
    ensures t == p.opens(i)
  {
    assert YearlyAt(s, p, i);
    t := s.zone.at(DayNumber(NthYear(s, i), 1, 1), 0);
  }

  lemma YearCandidatesAre(s: Series, y: int, months: seq<int>)
    requires forall i | 0 <= i < |months| :: 1 <= months[i] <= 12
    ensures IsYear(s, y, months, YearCandidates(s, y, months))
  {
  }

  /** The i-th period of a yearly series: all the months of one year. */
  method AddNthYear(s: Series, b: Budget, starts: seq<Instant>, i: nat, months: seq<int>, end: Instant, ghost p: Periods) returns (out: seq<Instant>, more: bool)
    requires s.Valid() && b.Counts() && !b.hit && Open(s, starts) && IsYearly(s, p) && months == MonthsOf(s)
    modifies b
    ensures b.Counts() && b.event <= old(b.event) && b.event - b.feed == old(b.event - b.feed)
    ensures |out| - |starts| <= old(b.event) - b.event
    ensures b.hit ==> !more
    ensures !b.hit ==> out == Cut(starts + InRange(p.cands(i), s.anchor, end), s.rule.count) && more == Open(s, out)
  {
    var y := NthYear(s, i);
    assert YearlyAt(s, p, i);
    YearCandidatesAre(s, y, months);
    out, more := AddYear(s, b, starts, y, months, end, YearCandidates(s, y, months));
  }

  method EnumerateYearly(s: Series, b: Budget, end: Instant, ghost p: Periods) returns (out: seq<Instant>)
    requires s.rule.Valid() && IsYearly(s, p)
    requires s.Valid() && b.Counts() && !b.hit
    modifies b
    ensures b.Counts() && b.event <= old(b.event) && b.event - b.feed == old(b.event - b.feed)
    ensures |out| <= old(b.event) - b.event
    ensures !b.hit ==> out == StartsFrom(s, From(p, 0, end), end)
  {
    var months := s.rule.byMonth;
    if |months| == 0 {
      months := [MonthOf(s.Day0())];
    }
    var i := 0;
    out := [];
    ProgressStarts(s, p, 0, end);
    while true
      invariant b.Counts() && !b.hit && b.event <= old(b.event) && b.event - b.feed == old(b.event - b.feed)
      invariant |out| <= old(b.event) - b.event
      invariant Progress(s, p, 0, i, end, out)
      decreases b.event
    {
      var paid := b.Spend();
      if !paid {
        return;
      }
      var opens := YearOpens(s, i, p);
      if opens > end {
        ProgressEnds(s, p, 0, i, end, out);
        return;
      }
      ProgressMoves(s, p, 0, i, end, out);
      var more;
      out, more := AddNthYear(s, b, out, i, months, end, p);
      if !more {
        return;
      }
      i := i + 1;
    }
  }

  lemma MonthlyPeriodsAre(s: Series)
    requires s.Valid()
    ensures IsMonthly(s, MonthlyPeriods(s))
  {
    MonthlyRise(s);
  }

  lemma YearlyPeriodsAre(s: Series)
    requires s.Valid()
    ensures IsYearly(s, YearlyPeriods(s))
  {
    YearlyRise(s);
  }

  /**
    Every start of a series from the skip-ahead point to the window end, or nothing when the
    budget ran out on the way.
  */
  method ExpandRule(s: Series, b: Budget, windowStart: Instant, windowEnd: Instant) returns (r: Option<seq<Instant>>)
    requires s.Valid() && b.Counts() && !b.hit
    modifies b
    ensures b.Counts() && b.event <= old(b.event) && b.event - b.feed == old(b.event - b.feed)
    ensures r.None? <==> b.hit
    ensures r.Some? ==> |r.value| <= old(b.event) - b.event
    ensures r.Some? ==> r.value == StartsFrom(s, FastForwarded(s, windowStart, s.End(windowEnd)), s.End(windowEnd))
  {
    var end := windowEnd;
    if s.rule.until != 0 && s.rule.until < end {
      end := s.rule.until;
    }
    var lower := s.anchor;
    if s.rule.count == 0 && windowStart > lower {
      lower := windowStart;
    }
    PeriodsRise(s);
    ghost var p := PeriodsOf(s);
    var out;
    match s.rule.freq {
      case Daily =>
        out := EnumerateDaily(s, b, Max(0, Quotient(DaysBetween(s.zone, s.anchor, lower), s.rule.interval) - 1), end, p);
      case Weekly =>
        WeeklyPeriodsAre(s);
        out := EnumerateWeekly(s, b, Max(0, DaysBetween(s.zone, s.anchor, lower) - 7), end, p);
      case Monthly =>
        MonthlyPeriodsAre(s);
        out := EnumerateMonthly(s, b, end, p);
      case Yearly =>
        YearlyPeriodsAre(s);
        out := EnumerateYearly(s, b, end, p);
    }
    if b.hit {
      return None;
    }
    return Some(out);
  }
}
