/**
  From the text of a foreign feed to its occurrences (internal/core/import.go): parsing, then
  expansion. Every VEVENT the text closes is accounted for.
*/
module FeedImport {
  import opened Options
  import opened Recurrence
  import opened IcsParse
  import opened FeedExpansion
  import opened Expansion
  import opened RuleParse

  ghost predicate RegularPlaces(pl: Places) {
    pl.local.Regular() && forall name :: pl.load(name).Some? ==> pl.load(name).value.Regular()
  }

  /** A parsed event as the expansion takes it, with its rule read in the location of its start. */
  function VEventOf(e: IcsEvent): VEvent {
    VEvent(e.uid, e.summary, e.location, e.start, e.end, if e.rrule == "" then NoRule else ReadRule(e.rrule, e.zone),
           e.exDates, e.rDates, e.recurrenceId, e.status == "CANCELLED", e.zone)
  }

  function VEventsOf(events: seq<IcsEvent>): (r: seq<VEvent>)
    ensures |r| == |events| && forall i | 0 <= i < |r| :: r[i] == VEventOf(events[i])
  {
    seq(|events|, i requires 0 <= i < |events| => VEventOf(events[i]))
  }

  method ReadRules(events: seq<IcsEvent>) returns (r: seq<VEvent>)
    ensures r == VEventsOf(events)
  {
    r := [];
    var i := 0;
    while i < |events|
      invariant 0 <= i <= |events| && |r| == i
      invariant forall j | 0 <= j < i :: r[j] == VEventOf(events[j])
    {
      var e := events[i];
      var rule := NoRule;
      if e.rrule != "" {
        rule := ParseRule(e.rrule, e.zone);
      }
      r := r + [VEvent(e.uid, e.summary, e.location, e.start, e.end, rule, e.exDates, e.rDates, e.recurrenceId,
                       e.status == "CANCELLED", e.zone)];
      i := i + 1;
    }
  }

  // ---- what the parser hands over --------------------------------------------

  lemma TimesAreRegular(pl: Places, value: string, params: map<string, string>)
    requires RegularPlaces(pl)
    ensures ParseTime(pl, value, params).Some? ==> ParseTime(pl, value, params).value.zone.Regular()
  {
    FixedOffsetIsRegular(0);
  }

  /** An event the parser returns: it has a uid and a start, in a location that gives days back. */
  ghost predicate Sane(e: IcsEvent) {
    e.uid != "" && e.start != 0 && e.zone.Regular()
  }

  ghost predicate SaneWalk(w: Walk) {
    && (forall i | 0 <= i < |w.events| :: Sane(w.events[i]))
    && (w.cur.Some? ==> w.cur.value.cur.zone.Regular())
  }

  lemma PropKeepsZone(pl: Places, r: Reading, l: Line)
    requires RegularPlaces(pl) && r.cur.zone.Regular()
    ensures ReadProp(pl, r, l).cur.zone.Regular()
  {
    TimesAreRegular(pl, l.value, l.params);
  }

  lemma EndKeepsSane(pl: Places, e: IcsEvent)
    requires Sane(e)
    ensures Sane(WithEnd(pl, e))
  {
  }

  lemma LineKeepsSane(pl: Places, w: Walk, l: Line)
    requires RegularPlaces(pl) && SaneWalk(w)
    ensures SaneWalk(WalkLine(pl, w, l))
  {
    if l.name == "BEGIN" {
      FixedOffsetIsRegular(0);
    } else if w.cur.Some? {
      var r := w.cur.value;
      if l.name != "END" {
        PropKeepsZone(pl, r, l);
      } else if r.cur.uid != "" && r.cur.start != 0 {
        EndKeepsSane(pl, r.cur);
      }
    }
  }

  lemma {:induction false} ParsedIsSane(pl: Places, lines: seq<string>)
    requires RegularPlaces(pl)
    ensures SaneWalk(WalkAll(pl, lines))
  {
    if lines != [] {
      var n := |lines| - 1;
      ParsedIsSane(pl, lines[..n]);
      LineKeepsSane(pl, WalkAll(pl, lines[..n]), SplitLine(lines[n]));
    }
  }

  /** Whatever the text, what the parser returns is what the expansion asks for. */
  lemma ParsedExpands(pl: Places, raw: string)
    requires RegularPlaces(pl)
    ensures var events := WalkAll(pl, Unfolded(raw)).events;
      && AllValid(VEventsOf(events))
      && forall i | 0 <= i < |events| :: events[i].uid != "" && events[i].start != 0
  {
    ParsedIsSane(pl, Unfolded(raw));
    var events := WalkAll(pl, Unfolded(raw)).events;
    forall i | 0 <= i < |events| ensures VEventsOf(events)[i].Valid() && events[i].uid != "" && events[i].start != 0 {
      assert Sane(events[i]);
      RulesKeepTheLimits(events[i].rrule, events[i].zone);
    }
  }

  // ---- the whole import ------------------------------------------------------

  function Overriding(outcomes: seq<Outcome>): nat {
    if outcomes == [] then 0
    else Overriding(outcomes[..|outcomes| - 1]) + if outcomes[|outcomes| - 1].verdict.AnOverride? then 1 else 0
  }

  function Completed(outcomes: seq<Outcome>): nat {
    if outcomes == [] then 0
    else Completed(outcomes[..|outcomes| - 1]) + if outcomes[|outcomes| - 1].verdict.Complete? then 1 else 0
  }

  lemma {:induction false} VerdictsAddUp(events: seq<VEvent>, outcomes: seq<Outcome>)
    requires |outcomes| <= |events|
    ensures |outcomes| == Overriding(outcomes) + Completed(outcomes) + |SkippedOf(events, outcomes)|
  {
    if outcomes != [] {
      VerdictsAddUp(events, outcomes[..|outcomes| - 1]);
    }
  }

  /**
    Every VEVENT the text closes is listed as unreadable, overrides an occurrence, is listed as
    skipped, or contributes its complete expansion; and the occurrences are bounded.
  */
  method ImportFeed(pl: Places, raw: string, from: Instant, to: Instant)
    returns (occs: seq<Occurrence>, unread: seq<IcsSkipped>, skipped: seq<Skipped>, ghost events: seq<VEvent>, ghost outcomes: seq<Outcome>)
    requires RegularPlaces(pl)
    ensures events == VEventsOf(WalkAll(pl, Unfolded(raw)).events) && unread == WalkAll(pl, Unfolded(raw)).skipped
    ensures AllValid(events) && |outcomes| == |events| && AllFit(events, outcomes, from, to)
    ensures ByStart(occs) && multiset(occs) == multiset(Contributed(outcomes)) && skipped == SkippedOf(events, outcomes)
    ensures Closed(Unfolded(raw)).closed == |unread| + Overriding(outcomes) + |skipped| + Completed(outcomes)
    ensures |occs| <= MAX_FEED_STEPS + Closed(Unfolded(raw)).closed
  {
    var parsed;
    parsed, unread := Parse(pl, raw);
    ParsedExpands(pl, raw);
    var list := ReadRules(parsed);
    events := list;
    occs, skipped, outcomes := Expand(list, from, to);
    VerdictsAddUp(events, outcomes);
  }
}
