/**
  A whole feed (Expand in internal/icsimport/expand.go): every master event contributes its
  complete expansion, seen from its anchor, or is listed as skipped and contributes nothing.
*/
module FeedExpansion {
  import opened Options
  import opened Recurrence
  import opened RecurrenceResults
  import opened Expansion

  datatype RuleText = NoRule | BadRule | Parsed(rule: Rule)

  /** A parsed VEVENT; a recurrence id other than 0 marks an override of one occurrence. */
  datatype VEvent = VEvent(
    uid: string, summary: string, location: string, start: Instant, end: Instant, rule: RuleText,
    exDates: seq<Instant>, rDates: seq<Instant>, recurrenceId: Instant, cancelled: bool, zone: Zone)
  {
    ghost predicate Valid() {
      zone.Regular() && (rule.Parsed? ==> rule.rule.Valid())
    }

    function SeriesOf(): Series
      requires rule.Parsed?
    {
      Series(zone, start, rule.rule)
    }

    predicate Overrides() {
      recurrenceId != 0
    }
  }

  /** The uid and the original start: what stays when an occurrence is moved. */
  datatype Key = Key(uid: string, original: Instant)

  datatype Occurrence = Occurrence(key: Key, uid: string, summary: string, location: string, start: Instant, end: Instant)
  datatype Reason = CancelledInSource | BadRecurrence | TooLarge
  datatype Skipped = Skipped(uid: string, summary: string, reason: Reason)

  ghost predicate AllValid(events: seq<VEvent>) {
    forall i | 0 <= i < |events| :: events[i].Valid()
  }

  // ---- overrides -------------------------------------------------------------

  /** The override of an occurrence among the first n events: the last one given. */
  function OverrideOf(events: seq<VEvent>, n: nat, key: Key): Option<VEvent>
    requires n <= |events|
  {
    if n == 0 then None
    else if events[n - 1].Overrides() && Key(events[n - 1].uid, events[n - 1].recurrenceId) == key then Some(events[n - 1])
    else OverrideOf(events, n - 1, key)
  }

  /** The earliest original start at which the series is overridden, if that is before `from`. */
  function Edge(events: seq<VEvent>, n: nat, uid: string, from: Instant): Instant
    requires n <= |events|
  {
    if n == 0 then from
    else
      var e := events[n - 1];
      var edge := Edge(events, n - 1, uid, from);
      if e.Overrides() && e.uid == uid && e.recurrenceId < edge then e.recurrenceId else edge
  }

  /** Before the edge nothing is overridden. */
  lemma {:induction false} NoOverrideBefore(events: seq<VEvent>, n: nat, uid: string, from: Instant, t: Instant)
    requires n <= |events| && t < Edge(events, n, uid, from)
    ensures OverrideOf(events, n, Key(uid, t)).None? && t < from
  {
    if n > 0 {
      NoOverrideBefore(events, n - 1, uid, from, t);
    }
  }

  /** The map of overrides knows exactly those of the first n events. */
  ghost predicate Known(events: seq<VEvent>, n: nat, overrides: map<Key, VEvent>, key: Key)
    requires n <= |events|
  {
    var ov := OverrideOf(events, n, key);
    if key in overrides then ov == Some(overrides[key]) else ov == None
  }

  ghost predicate Indexed(events: seq<VEvent>, n: nat, overrides: map<Key, VEvent>)
    requires n <= |events|
  {
    forall key {:trigger Known(events, n, overrides, key)} :: Known(events, n, overrides, key)
  }

  predicate EdgeKnown(events: seq<VEvent>, n: nat, first: map<string, Instant>, uid: string, from: Instant)
    requires n <= |events|
  {
    Edge(events, n, uid, from) == if uid in first && first[uid] < from then first[uid] else from
  }

  ghost predicate EdgesKnown(events: seq<VEvent>, n: nat, first: map<string, Instant>)
    requires n <= |events|
  {
    forall uid, from {:trigger EdgeKnown(events, n, first, uid, from)} :: EdgeKnown(events, n, first, uid, from)
  }

  method IndexOverrides(events: seq<VEvent>) returns (overrides: map<Key, VEvent>, first: map<string, Instant>)
    ensures Indexed(events, |events|, overrides) && EdgesKnown(events, |events|, first)
  {
    overrides, first := map[], map[];
    var i := 0;
    while i < |events|
      invariant 0 <= i <= |events|
      invariant Indexed(events, i, overrides) && EdgesKnown(events, i, first)
    {
      var e := events[i];
      ghost var before, firstBefore := overrides, first;
      if e.Overrides() {
        overrides := overrides[Key(e.uid, e.recurrenceId) := e];
        if e.uid !in first || e.recurrenceId < first[e.uid] {
          first := first[e.uid := e.recurrenceId];
        }
      }
      i := i + 1;
      forall key ensures Known(events, i, overrides, key) {
        assert Known(events, i - 1, before, key);
      }
      forall uid, from ensures EdgeKnown(events, i, first, uid, from) {
        assert EdgeKnown(events, i - 1, firstBefore, uid, from);
      }
    }
  }

  // ---- one start -------------------------------------------------------------

  /** The occurrence of a start, unless it is excluded, cancelled, or outside the window. */
  function Resolve(e: VEvent, ov: Option<VEvent>, st: Instant, from: Instant, to: Instant): seq<Occurrence> {
    var duration := e.end - e.start;
    var base := Occurrence(Key(e.uid, st), e.uid, e.summary, e.location, st, st + duration);
    var occ :=
      if ov.None? then base
      else base.(summary := ov.value.summary, location := ov.value.location, start := ov.value.start,
                 end := if ov.value.end == 0 then ov.value.start + duration else ov.value.end);
    if st in e.exDates || (ov.Some? && ov.value.cancelled) || occ.start < from || occ.start > to then [] else [occ]
  }

  function ResolveIn(events: seq<VEvent>, e: VEvent, st: Instant, from: Instant, to: Instant): seq<Occurrence> {
    Resolve(e, OverrideOf(events, |events|, Key(e.uid, st)), st, from, to)
  }

  /** The occurrences of the first n starts. */
  function Occurrences(events: seq<VEvent>, e: VEvent, starts: seq<Instant>, n: nat, from: Instant, to: Instant): seq<Occurrence>
    requires n <= |starts|
  {
    if n == 0 then [] else Occurrences(events, e, starts, n - 1, from, to) + ResolveIn(events, e, starts[n - 1], from, to)
  }

  lemma {:induction false} OccurrencesBound(events: seq<VEvent>, e: VEvent, starts: seq<Instant>, n: nat, from: Instant, to: Instant)
    requires n <= |starts|
    ensures |Occurrences(events, e, starts, n, from, to)| <= n
  {
    if n > 0 {
      OccurrencesBound(events, e, starts, n - 1, from, to);
    }
  }

  method ResolveStart(e: VEvent, overrides: map<Key, VEvent>, exdates: set<Instant>, st: Instant, from: Instant, to: Instant, ghost events: seq<VEvent>)
    returns (occs: seq<Occurrence>)
    requires Indexed(events, |events|, overrides) && (forall t :: t in exdates <==> t in e.exDates)
    ensures occs == ResolveIn(events, e, st, from, to)
  {
    assert Known(events, |events|, overrides, Key(e.uid, st));
    if st in exdates {
      return [];
    }
    var duration := e.end - e.start;
    var occ := Occurrence(Key(e.uid, st), e.uid, e.summary, e.location, st, st + duration);
    if occ.key in overrides {
      var ov := overrides[occ.key];
      if ov.cancelled {
        return [];
      }
      occ := occ.(summary := ov.summary, location := ov.location, start := ov.start, end := ov.end);
      if occ.end == 0 {
        occ := occ.(end := occ.start + duration);
      }
    }
    if occ.start < from || occ.start > to {
      return [];
    }
    return [occ];
  }

  method ResolveAll(e: VEvent, overrides: map<Key, VEvent>, starts: seq<Instant>, from: Instant, to: Instant, ghost events: seq<VEvent>)
    returns (occs: seq<Occurrence>)
    requires Indexed(events, |events|, overrides)
    ensures occs == Occurrences(events, e, starts, |starts|, from, to)
  {
    var exdates := set t | t in e.exDates;
    occs := [];
    var i := 0;
    while i < |starts|
      invariant 0 <= i <= |starts|
      invariant occs == Occurrences(events, e, starts, i, from, to)
    {
      var more := ResolveStart(e, overrides, exdates, starts[i], from, to, events);
      occs := occs + more;
      i := i + 1;
    }
  }

  // ---- RDATE -----------------------------------------------------------------

  /** The first n RDATEs on top of the starts, none twice. */
  function WithRDates(starts: seq<Instant>, rDates: seq<Instant>, n: nat): seq<Instant>
    requires n <= |rDates|
  {
    if n == 0 then starts
    else
      var front := WithRDates(starts, rDates, n - 1);
      if rDates[n - 1] in front then front else front + [rDates[n - 1]]
  }

  method AddRDates(b: Budget, starts: seq<Instant>, rDates: seq<Instant>) returns (ok: bool, out: seq<Instant>)
    requires b.Counts() && !b.hit
    modifies b
    ensures b.Counts() && b.event <= old(b.event) && b.event - b.feed == old(b.event - b.feed)
    ensures ok == !b.hit
    ensures ok ==> out == WithRDates(starts, rDates, |rDates|) && |out| - |starts| <= old(b.event) - b.event
  {
    out := starts;
    var have := set t | t in starts;
    var i := 0;
    while i < |rDates|
      invariant 0 <= i <= |rDates|
      invariant b.Counts() && !b.hit && b.event <= old(b.event) && b.event - b.feed == old(b.event - b.feed)
      invariant out == WithRDates(starts, rDates, i) && |out| - |starts| <= old(b.event) - b.event
      invariant forall t :: t in have <==> t in out
    {
      var paid := b.Spend();
      if !paid {
        return false, [];
      }
      var rd := rDates[i];
      if rd !in have {
        have := have + {rd};
        out := out + [rd];
      }
      i := i + 1;
    }
    ok := true;
  }

  // ---- fast-forward loses nothing --------------------------------------------

  /** The part of a list of starts from the edge on. */
  function Late(ts: seq<Instant>, edge: Instant): seq<Instant> {
    if ts == [] then []
    else Late(ts[..|ts| - 1], edge) + if ts[|ts| - 1] >= edge then [ts[|ts| - 1]] else []
  }

  lemma {:induction false} LateJoin(a: seq<Instant>, b: seq<Instant>, edge: Instant)
    ensures Late(a + b, edge) == Late(a, edge) + Late(b, edge)
  {
    if b == [] {
      assert a + b == a;
    } else {
      LateJoin(a, b[..|b| - 1], edge);
      assert (a + b)[..|a + b| - 1] == a + b[..|b| - 1];
    }
  }

  lemma {:induction false} LateOfEarly(ts: seq<Instant>, edge: Instant)
    requires AllBefore(ts, edge)
    ensures Late(ts, edge) == []
  {
    if ts != [] {
      LateOfEarly(ts[..|ts| - 1], edge);
    }
  }

  lemma {:induction false} LateMembers(ts: seq<Instant>, edge: Instant, t: Instant)
    requires t >= edge
    ensures t in Late(ts, edge) <==> t in ts
  {
    if ts != [] {
      LateMembers(ts[..|ts| - 1], edge, t);
      assert ts == ts[..|ts| - 1] + [ts[|ts| - 1]];
    }
  }

  /** RDATEs on top of two lists that agree from the edge on agree from the edge on. */
  lemma {:induction false} RDatesAgree(a: seq<Instant>, b: seq<Instant>, rDates: seq<Instant>, n: nat, edge: Instant)
    requires n <= |rDates| && Late(a, edge) == Late(b, edge)
    ensures Late(WithRDates(a, rDates, n), edge) == Late(WithRDates(b, rDates, n), edge)
  {
    if n > 0 {
      var x, y, t := WithRDates(a, rDates, n - 1), WithRDates(b, rDates, n - 1), rDates[n - 1];
      RDatesAgree(a, b, rDates, n - 1, edge);
      LateJoin(x, [t], edge);
      LateJoin(y, [t], edge);
      assert Late([t], edge) == if t >= edge then [t] else [] by {
        assert [t][..0] == [];
      }
      if t >= edge {
        LateMembers(x, edge, t);
        LateMembers(y, edge, t);
      }
    }
  }

  /** Only starts from the edge on leave an occurrence. */
  lemma {:induction false} LateOccurrences(events: seq<VEvent>, e: VEvent, starts: seq<Instant>, n: nat, from: Instant, to: Instant)
    requires n <= |starts|
    ensures var late := Late(starts[..n], Edge(events, |events|, e.uid, from));
      Occurrences(events, e, starts, n, from, to) == Occurrences(events, e, late, |late|, from, to)
  {
    var edge := Edge(events, |events|, e.uid, from);
    if n > 0 {
      var st := starts[n - 1];
      LateOccurrences(events, e, starts, n - 1, from, to);
      assert starts[..n][..n - 1] == starts[..n - 1];
      var late := Late(starts[..n - 1], edge);
      if st < edge {
        NoOverrideBefore(events, |events|, e.uid, from, st);
        assert ResolveIn(events, e, st, from, to) == [];
        assert Late(starts[..n], edge) == late;
      } else {
        assert Late(starts[..n], edge) == late + [st];
        OccurrencesPrefix(events, e, late, [st], |late|, from, to);
      }
    }
  }

  lemma {:induction false} OccurrencesPrefix(events: seq<VEvent>, e: VEvent, a: seq<Instant>, b: seq<Instant>, n: nat, from: Instant, to: Instant)
    requires n <= |a|
    ensures Occurrences(events, e, a + b, n, from, to) == Occurrences(events, e, a, n, from, to)
  {
    if n > 0 {
      OccurrencesPrefix(events, e, a, b, n - 1, from, to);
    }
  }

  /** The starts of an event as its anchor gives them. */
  function PlainStarts(e: VEvent, to: Instant): seq<Instant>
    requires e.Valid() && !e.rule.BadRule?
  {
    if e.rule.NoRule? then [e.start]
    else
      var s := e.SeriesOf();
      StartsFrom(s, Plain(s, s.End(to)), s.End(to))
  }

  /** Everything an event stands for: starts from its anchor, RDATEs, EXDATEs and overrides, in the window. */
  function Contribution(events: seq<VEvent>, e: VEvent, from: Instant, to: Instant): seq<Occurrence>
    requires e.Valid() && !e.rule.BadRule?
  {
    var starts := WithRDates(PlainStarts(e, to), e.rDates, |e.rDates|);
    Occurrences(events, e, starts, |starts|, from, to)
  }

  /** The starts of an event when enumeration begins at the edge. */
  function EdgeStarts(events: seq<VEvent>, e: VEvent, from: Instant, to: Instant): seq<Instant>
    requires e.Valid() && !e.rule.BadRule?
  {
    if e.rule.NoRule? then [e.start]
    else
      var s := e.SeriesOf();
      StartsFrom(s, FastForwarded(s, Edge(events, |events|, e.uid, from), s.End(to)), s.End(to))
  }

  lemma StartsAgree(events: seq<VEvent>, e: VEvent, from: Instant, to: Instant)
    requires e.Valid() && !e.rule.BadRule?
    ensures var edge := Edge(events, |events|, e.uid, from);
      Late(PlainStarts(e, to), edge) == Late(EdgeStarts(events, e, from, to), edge)
  {
    if e.rule.Parsed? {
      var edge := Edge(events, |events|, e.uid, from);
      var s := e.SeriesOf();
      var end := s.End(to);
      var skipped := FastForwardLosesOnlyEarlier(s, edge, end);
      if s.rule.count > 0 {
        assert [] + FastForwarded(s, edge, end) == FastForwarded(s, edge, end);
      } else {
        SkippedRange(s, skipped, FastForwarded(s, edge, end), edge, end);
      }
    }
  }

  lemma SkippedRange(s: Series, skipped: seq<Instant>, rest: seq<Instant>, edge: Instant, end: Instant)
    requires AllBefore(skipped, edge)
    ensures Late(InRange(skipped + rest, s.anchor, end), edge) == Late(InRange(rest, s.anchor, end), edge)
  {
    var early := InRange(skipped, s.anchor, end);
    InRangeJoin(skipped, rest, s.anchor, end);
    InRangeIs(skipped, s.anchor, end);
    LateJoin(early, InRange(rest, s.anchor, end), edge);
    forall i | 0 <= i < |early| ensures early[i] < edge {
      var t := early[i];
      assert t in early && t in skipped;
    }
    LateOfEarly(early, edge);
  }

  /**
    Enumerating from the window edge, or from the earliest override, yields the same occurrences
    as enumerating from the anchor: no skipped start can be moved into the window.
  */
  lemma FastForwardRefines(events: seq<VEvent>, e: VEvent, from: Instant, to: Instant)
    requires e.Valid() && !e.rule.BadRule?
    ensures var starts := WithRDates(EdgeStarts(events, e, from, to), e.rDates, |e.rDates|);
      Occurrences(events, e, starts, |starts|, from, to) == Contribution(events, e, from, to)
  {
    var edge := Edge(events, |events|, e.uid, from);
    var a := WithRDates(PlainStarts(e, to), e.rDates, |e.rDates|);
    var b := WithRDates(EdgeStarts(events, e, from, to), e.rDates, |e.rDates|);
    StartsAgree(events, e, from, to);
    RDatesAgree(PlainStarts(e, to), EdgeStarts(events, e, from, to), e.rDates, |e.rDates|, edge);
    LateOccurrences(events, e, a, |a|, from, to);
    LateOccurrences(events, e, b, |b|, from, to);
    assert a[..|a|] == a && b[..|b|] == b;
  }

  // ---- one event -------------------------------------------------------------

  /** What becomes of an event of the feed. */
  datatype Verdict = AnOverride | Dropped(reason: Reason) | Complete

  method StartsOf(e: VEvent, b: Budget, lower: Instant, to: Instant) returns (r: Option<seq<Instant>>)
    requires e.Valid() && !e.rule.BadRule? && b.Counts() && !b.hit
    modifies b
    ensures b.Counts() && b.event <= old(b.event) && b.event - b.feed == old(b.event - b.feed)
    ensures r.None? <==> b.hit
    ensures r.Some? ==> |r.value| <= old(b.event) - b.event + 1
    ensures r.Some? && e.rule.NoRule? ==> r.value == [e.start]
    ensures r.Some? && e.rule.Parsed? ==>
      var s := e.SeriesOf(); r.value == StartsFrom(s, FastForwarded(s, lower, s.End(to)), s.End(to))
  {
    if e.rule.NoRule? {
      return Some([e.start]);
    }
    r := ExpandRule(e.SeriesOf(), b, lower, to);
  }

  /** What the verdict on an event means. */
  ghost predicate Judged(events: seq<VEvent>, e: VEvent, verdict: Verdict, occs: seq<Occurrence>, spent: nat, from: Instant, to: Instant)
    requires e.Valid()
  {
    && (verdict.AnOverride? <==> e.Overrides())
    && (verdict == Dropped(CancelledInSource) <==> !e.Overrides() && e.cancelled)
    && (verdict == Dropped(BadRecurrence) <==> !e.Overrides() && !e.cancelled && e.rule.BadRule?)
    && (if verdict.Complete? then !e.rule.BadRule? && occs == Contribution(events, e, from, to) else occs == [])
    && |occs| <= spent + 1
  }

  method ExpandEvent(events: seq<VEvent>, e: VEvent, b: Budget, overrides: map<Key, VEvent>, first: map<string, Instant>, from: Instant, to: Instant)
    returns (verdict: Verdict, occs: seq<Occurrence>)
    requires e.Valid() && b.Counts() && Indexed(events, |events|, overrides) && EdgesKnown(events, |events|, first)
    modifies b
    ensures b.Counts() && b.feed <= old(b.feed) && old(b.feed) - b.feed <= MAX_EVENT_STEPS
    ensures Judged(events, e, verdict, occs, old(b.feed) - b.feed, from, to)
    ensures verdict == Dropped(TooLarge) ==> b.feed == 0 || old(b.feed) - b.feed == MAX_EVENT_STEPS
  {
    if e.Overrides() {
      return AnOverride, [];
    }
    if e.cancelled {
      return Dropped(CancelledInSource), [];
    }
    b.NextEvent();
    if e.rule.BadRule? {
      return Dropped(BadRecurrence), [];
    }
    var lower := from;
    if e.uid in first && first[e.uid] < lower {
      lower := first[e.uid];
    }
    assert EdgeKnown(events, |events|, first, e.uid, from);
    var starts := StartsOf(e, b, lower, to);
    if starts.None? {
      return Dropped(TooLarge), [];
    }
    assert starts.value == EdgeStarts(events, e, from, to);
    var ok, list := AddRDates(b, starts.value, e.rDates);
    if !ok {
      return Dropped(TooLarge), [];
    }
    occs := ResolveAll(e, overrides, list, from, to, events);
    OccurrencesBound(events, e, list, |list|, from, to);
    FastForwardRefines(events, e, from, to);
    verdict := Complete;
  }

  // ---- the feed --------------------------------------------------------------

  /** What one event came to: the verdict, what it contributed and the steps it cost. */
  datatype Outcome = Outcome(verdict: Verdict, occs: seq<Occurrence>, spent: nat)

  /** The steps of all of them. */
  function Spent(outcomes: seq<Outcome>): nat {
    if outcomes == [] then 0 else Spent(outcomes[..|outcomes| - 1]) + outcomes[|outcomes| - 1].spent
  }

  /** The contributions of all of them, in the order of the feed. */
  function Contributed(outcomes: seq<Outcome>): seq<Occurrence> {
    if outcomes == [] then [] else Contributed(outcomes[..|outcomes| - 1]) + outcomes[|outcomes| - 1].occs
  }

  /** Who is listed as skipped, and why. */
  function SkippedOf(events: seq<VEvent>, outcomes: seq<Outcome>): seq<Skipped>
    requires |outcomes| <= |events|
  {
    if outcomes == [] then []
    else
      var n := |outcomes| - 1;
      SkippedOf(events, outcomes[..n])
      + if outcomes[n].verdict.Dropped? then [Skipped(events[n].uid, events[n].summary, outcomes[n].verdict.reason)] else []
  }

  /** The outcome of the i-th event is judged right, and too large only for want of steps. */
  ghost predicate Fits(events: seq<VEvent>, outcomes: seq<Outcome>, i: nat, from: Instant, to: Instant)
    requires i < |outcomes| <= |events| && AllValid(events)
  {
    var o := outcomes[i];
    && Judged(events, events[i], o.verdict, o.occs, o.spent, from, to) && o.spent <= MAX_EVENT_STEPS
    && (o.verdict == Dropped(TooLarge) ==> o.spent == MAX_EVENT_STEPS || Spent(outcomes[..i + 1]) == MAX_FEED_STEPS)
  }

  ghost predicate AllFit(events: seq<VEvent>, outcomes: seq<Outcome>, from: Instant, to: Instant)
    requires |outcomes| <= |events| && AllValid(events)
  {
    forall i: nat | i < |outcomes| :: Fits(events, outcomes, i, from, to)
  }

  lemma OneMore(events: seq<VEvent>, outcomes: seq<Outcome>, o: Outcome, from: Instant, to: Instant)
    requires |outcomes| < |events| && AllValid(events) && AllFit(events, outcomes, from, to)
    requires Judged(events, events[|outcomes|], o.verdict, o.occs, o.spent, from, to) && o.spent <= MAX_EVENT_STEPS
    requires o.verdict == Dropped(TooLarge) ==> o.spent == MAX_EVENT_STEPS || Spent(outcomes) + o.spent == MAX_FEED_STEPS
    ensures AllFit(events, outcomes + [o], from, to)
    ensures Spent(outcomes + [o]) == Spent(outcomes) + o.spent
    ensures Contributed(outcomes + [o]) == Contributed(outcomes) + o.occs
    ensures SkippedOf(events, outcomes + [o]) == SkippedOf(events, outcomes)
      + if o.verdict.Dropped? then [Skipped(events[|outcomes|].uid, events[|outcomes|].summary, o.verdict.reason)] else []
  {
    var all := outcomes + [o];
    assert all[..|outcomes|] == outcomes;
    forall i: nat | i < |all| ensures Fits(events, all, i, from, to) {
      if i < |outcomes| {
        assert Fits(events, outcomes, i, from, to);
        assert all[..i + 1] == outcomes[..i + 1];
      } else {
        assert all[..i + 1] == all;
      }
    }
  }

  lemma {:induction false} ContributedBound(events: seq<VEvent>, outcomes: seq<Outcome>, from: Instant, to: Instant)
    requires |outcomes| <= |events| && AllValid(events) && AllFit(events, outcomes, from, to)
    ensures |Contributed(outcomes)| <= Spent(outcomes) + |outcomes|
  {
    if outcomes != [] {
      var n := |outcomes| - 1;
      forall i: nat | i < n ensures Fits(events, outcomes[..n], i, from, to) {
        assert Fits(events, outcomes, i, from, to);
        assert outcomes[..n][..i + 1] == outcomes[..i + 1];
      }
      ContributedBound(events, outcomes[..n], from, to);
      assert Fits(events, outcomes, n, from, to);
    }
  }

  predicate ByStart(occs: seq<Occurrence>) {
    forall i, j | 0 <= i < j < |occs| :: occs[i].start <= occs[j].start
  }

  function InsertByStart(occs: seq<Occurrence>, occ: Occurrence): seq<Occurrence> {
    if occs == [] || occs[|occs| - 1].start <= occ.start then occs + [occ]
    else InsertByStart(occs[..|occs| - 1], occ) + [occs[|occs| - 1]]
  }

  lemma {:induction false} InsertByStartSorts(occs: seq<Occurrence>, occ: Occurrence)
    requires ByStart(occs)
    ensures var r := InsertByStart(occs, occ);
      ByStart(r) && multiset(r) == multiset(occs) + multiset{occ} && |r| == |occs| + 1
  {
    if occs != [] && occs[|occs| - 1].start > occ.start {
      var n := |occs| - 1;
      var front := InsertByStart(occs[..n], occ);
      InsertByStartSorts(occs[..n], occ);
      assert occs == occs[..n] + [occs[n]];
      forall i | 0 <= i < |front| ensures front[i].start <= occs[n].start {
        assert front[i] in multiset(front);
        assert front[i] in multiset(occs[..n]) || front[i] == occ;
      }
    }
  }

  /** The order by start; occurrences with one start may come in any order. */
  method SortByStart(occs: seq<Occurrence>) returns (r: seq<Occurrence>)
    ensures ByStart(r) && multiset(r) == multiset(occs) && |r| == |occs|
  {
    r := [];
    var i := 0;
    while i < |occs|
      invariant 0 <= i <= |occs| && |r| == i
      invariant ByStart(r) && multiset(r) == multiset(occs[..i])
    {
      InsertByStartSorts(r, occs[i]);
      assert occs[..i + 1] == occs[..i] + [occs[i]];
      r := InsertByStart(r, occs[i]);
      i := i + 1;
    }
    assert occs[..i] == occs;
  }

  /**
    The expansion of a feed ends, whatever the feed: every event contributes its complete
    expansion or is skipped and contributes nothing, it is too large only when an allowance was
    spent in full, and there are no more occurrences than steps and events.
  */
  method Expand(events: seq<VEvent>, from: Instant, to: Instant)
    returns (occs: seq<Occurrence>, skipped: seq<Skipped>, ghost outcomes: seq<Outcome>)
    requires AllValid(events)
    ensures |outcomes| == |events| && AllFit(events, outcomes, from, to) && Spent(outcomes) <= MAX_FEED_STEPS
    ensures ByStart(occs) && multiset(occs) == multiset(Contributed(outcomes))
    ensures skipped == SkippedOf(events, outcomes)
    ensures |occs| <= MAX_FEED_STEPS + |events|
  {
    var overrides, first := IndexOverrides(events);
    var b := new Budget();
    occs, skipped := [], [];
    outcomes := [];
    var i := 0;
    while i < |events|
      invariant 0 <= i <= |events| && |outcomes| == i && b.Counts() && fresh(b)
      invariant Spent(outcomes) == MAX_FEED_STEPS - b.feed && AllFit(events, outcomes, from, to)
      invariant occs == Contributed(outcomes) && skipped == SkippedOf(events, outcomes)
    {
      ghost var before := b.feed;
      var verdict, more := ExpandEvent(events, events[i], b, overrides, first, from, to);
      OneMore(events, outcomes, Outcome(verdict, more, before - b.feed), from, to);
      outcomes := outcomes + [Outcome(verdict, more, before - b.feed)];
      if verdict.Dropped? {
        skipped := skipped + [Skipped(events[i].uid, events[i].summary, verdict.reason)];
      }
      occs := occs + more;
      i := i + 1;
    }
    ContributedBound(events, outcomes, from, to);
    occs := SortByStart(occs);
  }
}
