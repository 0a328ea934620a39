/**
  The second ask: what a tick that nudges leaves the staff, and under which configurations
  a nudge happens at all.
*/
module Nudging {
  import opened Options
  import opened Core
  import opened Transitions
  import opened Ticks
  import opened Delivery
  import opened CalendarSync
  import opened Operations
  import opened Actions
  import opened Coverage
  import opened Rows
  import opened Protocol
  import opened Cycles
  import opened Silence

  // ---- the acts a tick enters in the trail -----------------------------------

  /** An entry about an ask, a nudge, a warning or a deadline. */
  predicate IsAct(entry: Audit) {
    entry.ReminderSent? || entry.ReminderNudged? || entry.StaffingUnreachable? || entry.DeadlinePassed?
  }

  /** The stamp such an entry stands for. */
  function StampOf(e: Event, entry: Audit): Option<Time>
    requires IsAct(entry)
  {
    match entry
    case ReminderSent(_, _) => e.reminderSentAt
    case ReminderNudged(_, _) => e.nudgeSentAt
    case StaffingUnreachable(_, _) => e.unreachableNotifiedAt
    case DeadlinePassed(_, _) => e.deadlineFiredAt
  }

  predicate SetNow(before: Option<Time>, after: Option<Time>, now: Time) {
    before.None? && after == Some(now)
  }

  /** No stamp is taken back or overwritten. */
  predicate StampsGrow(e: Event, f: Event, now: Time) {
    && (f.reminderSentAt == e.reminderSentAt || SetNow(e.reminderSentAt, f.reminderSentAt, now))
    && (f.nudgeSentAt == e.nudgeSentAt || SetNow(e.nudgeSentAt, f.nudgeSentAt, now))
    && (f.unreachableNotifiedAt == e.unreachableNotifiedAt || SetNow(e.unreachableNotifiedAt, f.unreachableNotifiedAt, now))
    && (f.deadlineFiredAt == e.deadlineFiredAt || SetNow(e.deadlineFiredAt, f.deadlineFiredAt, now))
  }

  /** The k-th event carries the stamp of this entry, and did not before. */
  predicate StampedFor(s: State, t: State, entry: Audit, k: nat, now: Time) {
    && IsAct(entry) && k < |s.events| && k < |t.events|
    && s.events[k].id == entry.event && entry.at == now
    && SetNow(StampOf(s.events[k], entry), StampOf(t.events[k], entry), now)
  }

  ghost predicate Entered(s: State, t: State, entry: Audit, now: Time) {
    IsAct(entry) ==> exists k: nat :: StampedFor(s, t, entry, k, now)
  }

  /** What a tick adds to the trail are acts it has stamped on their events. */
  ghost predicate Trail(s: State, t: State, now: Time) {
    && |s.events| == |t.events| && (forall k | 0 <= k < |s.events| :: StampsGrow(s.events[k], t.events[k], now))
    && (forall k | 0 <= k < |s.events| :: t.events[k].id == s.events[k].id)
    && |s.audit| <= |t.audit| && (forall i | |s.audit| <= i < |t.audit| :: Entered(s, t, t.audit[i], now))
  }

  lemma NeutralTrail(s: State, t: State, u: State, entries: seq<Audit>, now: Time)
    requires Trail(s, t, now) && u.events == t.events && u.audit == t.audit + entries && Neutral(entries)
    ensures Trail(s, u, now)
  {
    forall i | |s.audit| <= i < |u.audit| ensures Entered(s, u, u.audit[i], now) {
      if i < |t.audit| {
        EnteredSame(s, t, u, t.audit[i], now);
      }
    }
  }

  lemma EnteredSame(s: State, t: State, u: State, entry: Audit, now: Time)
    requires Entered(s, t, entry, now) && u.events == t.events
    ensures Entered(s, u, entry, now)
  {
    if IsAct(entry) {
      var k: nat :| StampedFor(s, t, entry, k, now);
      assert StampedFor(s, u, entry, k, now);
    }
  }

  /** A stamp set during the tick stays until its end. */
  lemma EnteredGrows(s: State, t: State, u: State, entry: Audit, now: Time)
    requires Entered(s, t, entry, now) && |t.events| == |u.events|
    requires forall k | 0 <= k < |t.events| :: StampsGrow(t.events[k], u.events[k], now)
    ensures Entered(s, u, entry, now)
  {
    if IsAct(entry) {
      var k: nat :| StampedFor(s, t, entry, k, now);
      assert StampsGrow(t.events[k], u.events[k], now);
      assert StampedFor(s, u, entry, k, now);
    }
  }

  /** What one action of a tick does to its event's stamps, and the entry that goes with it. */
  lemma ActGrows(t: State, a: Action, op: Op, cfg: Config)
    requires op.TickOp? && Can(t, a, op, cfg) && (a.AskStaff? || a.Warn? || a.Nudge? || a.Expire?)
    ensures var f := Do(t, a, op, cfg).events[a.k];
      f == Stamped(t.events[a.k], a) && StampsGrow(t.events[a.k], f, op.now)
  {
    DoStamps(t, a, op, cfg);
  }

  lemma TouchGrows(t: State, a: Action, op: Op, cfg: Config)
    requires op.TickOp? && Can(t, a, op, cfg) && Touches(a) && !a.Spread?
    ensures StampsGrow(t.events[a.k], Do(t, a, op, cfg).events[a.k], op.now)
  {
    if a.CallOff? {
      DoFlips(t, a, op, cfg);
    } else {
      ActGrows(t, a, op, cfg);
    }
  }

  lemma ActStamps(t: State, a: Action, op: Op, cfg: Config)
    requires op.TickOp? && Can(t, a, op, cfg) && (a.AskStaff? || a.Warn? || a.Nudge? || a.Expire?)
    ensures StampedFor(t, Do(t, a, op, cfg), EntryOf(t.events[a.k].id, a)[0], a.k, op.now)
  {
    TouchKeeps(t, a, op, cfg);
    DoStamps(t, a, op, cfg);
  }

  lemma GrowsTwice(e: Event, f: Event, g: Event, now: Time)
    requires StampsGrow(e, f, now) && StampsGrow(f, g, now)
    ensures StampsGrow(e, g, now)
  {
  }

  /** The k-th event was replaced by one with more stamps. */
  lemma ReplacedTrail(s: State, t: State, u: State, k: nat, now: Time)
    requires Trail(s, t, now) && k < |t.events| == |u.events| && u.events == t.events[k := u.events[k]]
    requires u.audit == t.audit && u.events[k].id == t.events[k].id && StampsGrow(t.events[k], u.events[k], now)
    ensures Trail(s, u, now)
  {
    GrowsTwice(s.events[k], t.events[k], u.events[k], now);
    forall i | |s.audit| <= i < |u.audit| ensures Entered(s, u, u.audit[i], now) {
      EnteredGrows(s, t, u, t.audit[i], now);
    }
  }

  /** One more entry, of an act its event carries. */
  lemma LoggedTrail(s: State, t: State, u: State, entry: Audit, now: Time)
    requires Trail(s, t, now) && u.events == t.events && u.audit == t.audit + [entry] && Entered(s, t, entry, now)
    ensures Trail(s, u, now)
  {
    forall i | |s.audit| <= i < |u.audit| ensures Entered(s, u, u.audit[i], now) {
      EnteredSame(s, t, u, if i < |t.audit| then t.audit[i] else entry, now);
    }
  }

  lemma ActTrail(s: State, t: State, a: Action, op: Op, cfg: Config)
    requires op.TickOp? && Trail(s, t, op.now) && Can(t, a, op, cfg) && (a.AskStaff? || a.Warn? || a.Nudge? || a.Expire?)
    ensures Entered(s, Do(t, a, op, cfg), EntryOf(t.events[a.k].id, a)[0], op.now)
  {
    var u := Do(t, a, op, cfg);
    var entry := EntryOf(t.events[a.k].id, a)[0];
    ActStamps(t, a, op, cfg);
    assert StampsGrow(s.events[a.k], t.events[a.k], op.now);
    assert StampedFor(s, u, entry, a.k, op.now);
  }

  lemma TouchTrail(s: State, t: State, a: Action, op: Op, cfg: Config)
    requires op.TickOp? && Trail(s, t, op.now) && Can(t, a, op, cfg) && Touches(a) && !a.Spread?
    ensures Trail(s, Do(t, a, op, cfg), op.now)
  {
    var u := Do(t, a, op, cfg);
    var mid := u.(audit := t.audit);
    TouchKeeps(t, a, op, cfg);
    TouchGrows(t, a, op, cfg);
    TouchLogs(t, a, op, cfg);
    ReplacedTrail(s, t, mid, a.k, op.now);
    if a.CallOff? {
      LoggedTrail(s, mid, u, EventCancelled(t.events[a.k].id, a.byDeadline), op.now);
    } else {
      var entry := EntryOf(t.events[a.k].id, a)[0];
      ActTrail(s, t, a, op, cfg);
      EnteredSame(s, u, mid, entry, op.now);
      LoggedTrail(s, mid, u, entry, op.now);
    }
  }

  lemma SpreadTrail(s: State, t: State, k: nat, purpose: Purpose, cfg: Config, clock: Time, now: Time)
    requires Trail(s, t, now) && k < |t.events|
    ensures Trail(s, FanOut(t, k, purpose, cfg, clock), now)
  {
    var u := FanOut(t, k, purpose, cfg, clock);
    var d := Draft(Some(t.events[k].id), purpose, Some(t.nextId), "", "", Plain);
    var mid := u.(audit := t.audit);
    SkipsNeutral(Assignees(t, t.events[k].id), d);
    forall i | |s.audit| <= i < |t.audit| ensures Entered(s, mid, t.audit[i], now) {
      EnteredGrows(s, t, mid, t.audit[i], now);
    }
    NeutralTrail(s, mid, u, PeopleSkips(Assignees(t, t.events[k].id), d), now);
  }

  lemma DoTrail(s: State, t: State, a: Action, op: Op, cfg: Config)
    requires op.TickOp? && Trail(s, t, op.now) && Can(t, a, op, cfg)
    ensures Trail(s, Do(t, a, op, cfg), op.now)
  {
    if a.Spread? {
      SpreadTrail(s, t, a.k, a.purpose, cfg, a.clock, op.now);
    } else if Touches(a) {
      TouchTrail(s, t, a, op, cfg);
    } else if a.Note? {
      NeutralTrail(s, t, Do(t, a, op, cfg), a.entries, op.now);
    } else {
      assert a.Post?;
      NeutralTrail(s, t, Do(t, a, op, cfg), [], op.now);
    }
  }

  lemma {:induction false} PathTrail(s: State, path: seq<Action>, op: Op, cfg: Config)
    requires op.TickOp?
    ensures Trail(s, End(s, path, op, cfg), op.now)
  {
    if path != [] {
      var t := End(s, path[..|path| - 1], op, cfg);
      PathTrail(s, path[..|path| - 1], op, cfg);
      if Can(t, path[|path| - 1], op, cfg) {
        DoTrail(s, t, path[|path| - 1], op, cfg);
      }
    }
  }

  lemma TickTrail(s: State, op: Op, cfg: Config)
    requires Sound(s) && op.TickOp?
    ensures Trail(s, Apply(s, op, cfg), op.now)
  {
    ApplyLeads(s, op, cfg);
    var path :| End(s, path, op, cfg) == Apply(s, op, cfg);
    PathTrail(s, path, op, cfg);
  }

  /** An act the tick has entered about an event, as a change of that event. */
  lemma EnteredActs(s: State, op: Op, cfg: Config, i: nat) returns (k: nat)
    requires Sound(s) && op.TickOp?
    requires var t := Apply(s, op, cfg); |s.audit| <= i < |t.audit| && IsAct(t.audit[i])
    ensures var t := Apply(s, op, cfg);
      k < |s.events| == |t.events| && FindEvent(s.events, t.audit[i].event) == k && StampedFor(s, t, t.audit[i], k, op.now)
  {
    var t := Apply(s, op, cfg);
    TickTrail(s, op, cfg);
    assert Entered(s, t, t.audit[i], op.now);
    k :| StampedFor(s, t, t.audit[i], k, op.now);
    FindDistinct(s.events, k);
  }

  /** Whatever the leads, one tick enters at most one act about an event, and enters it once. */
  lemma OneActInTheTrail(s: State, op: Op, cfg: Config, i: nat, j: nat)
    requires Sound(s) && op.TickOp?
    requires var t := Apply(s, op, cfg); |s.audit| <= i < j < |t.audit| && IsAct(t.audit[i]) && IsAct(t.audit[j])
    ensures var t := Apply(s, op, cfg); t.audit[i].event != t.audit[j].event
  {
    var k := EnteredActs(s, op, cfg, i);
    var l := EnteredActs(s, op, cfg, j);
    OneActPerTick(s, op, cfg, k);
    TickOnce(s, op, cfg);
  }

  predicate Once(s: State, t: State) {
    |s.audit| <= |t.audit| && forall i, j | |s.audit| <= i < j < |t.audit| && IsAct(t.audit[i]) :: t.audit[i] != t.audit[j]
  }

  lemma NeutralOnce(s: State, t: State, u: State, entries: seq<Audit>)
    requires Once(s, t) && u.audit == t.audit + entries && Neutral(entries)
    ensures Once(s, u)
  {
  }

  lemma LoggedOnce(s: State, t: State, u: State, entry: Audit)
    requires Once(s, t) && u.audit == t.audit + [entry]
    requires forall i | |s.audit| <= i < |t.audit| :: IsAct(entry) ==> t.audit[i] != entry
    ensures Once(s, u)
  {
  }

  /** An act is due only where its stamp is still missing, so it was not entered before. */
  lemma ActIsNew(s: State, t: State, a: Action, op: Op, cfg: Config, i: nat)
    requires Sound(s) && op.TickOp? && Trail(s, t, op.now) && Can(t, a, op, cfg) && (a.AskStaff? || a.Warn? || a.Nudge? || a.Expire?)
    requires |s.audit| <= i < |t.audit|
    ensures t.audit[i] != EntryOf(t.events[a.k].id, a)[0]
  {
    var entry := EntryOf(t.events[a.k].id, a)[0];
    ActStamps(t, a, op, cfg);
    assert Entered(s, t, t.audit[i], op.now);
  }

  lemma DoOnce(s: State, t: State, a: Action, op: Op, cfg: Config)
    requires Sound(s) && op.TickOp? && Trail(s, t, op.now) && Once(s, t) && Can(t, a, op, cfg)
    ensures Once(s, Do(t, a, op, cfg))
  {
    var u := Do(t, a, op, cfg);
    if a.Spread? {
      var d := Draft(Some(t.events[a.k].id), a.purpose, Some(t.nextId), "", "", Plain);
      SkipsNeutral(Assignees(t, t.events[a.k].id), d);
      NeutralOnce(s, t, u, PeopleSkips(Assignees(t, t.events[a.k].id), d));
    } else if Touches(a) {
      TouchLogs(t, a, op, cfg);
      if !a.CallOff? {
        forall i | |s.audit| <= i < |t.audit| ensures t.audit[i] != EntryOf(t.events[a.k].id, a)[0] {
          ActIsNew(s, t, a, op, cfg, i);
        }
      }
      LoggedOnce(s, t, u, EntryOf(t.events[a.k].id, a)[0]);
    } else {
      NeutralOnce(s, t, u, if a.Note? then a.entries else []);
    }
  }

  lemma {:induction false} PathOnce(s: State, path: seq<Action>, op: Op, cfg: Config)
    requires Sound(s) && op.TickOp?
    ensures Once(s, End(s, path, op, cfg))
  {
    if path != [] {
      var t := End(s, path[..|path| - 1], op, cfg);
      PathOnce(s, path[..|path| - 1], op, cfg);
      PathTrail(s, path[..|path| - 1], op, cfg);
      if Can(t, path[|path| - 1], op, cfg) {
        DoOnce(s, t, path[|path| - 1], op, cfg);
      }
    }
  }

  lemma TickOnce(s: State, op: Op, cfg: Config)
    requires Sound(s) && op.TickOp?
    ensures Once(s, Apply(s, op, cfg))
  {
    ApplyLeads(s, op, cfg);
    var path :| End(s, path, op, cfg) == Apply(s, op, cfg);
    PathOnce(s, path, op, cfg);
  }

  // ---- when a tick nudges ----------------------------------------------------

  /** The assigned people a nudge would go to: reachable, and silent since the ask. */
  function Silent(s: State, e: Event): seq<Person>
    requires e.reminderSentAt.Some?
  {
    SilentOf(Reachable(s, e.id), s.responses, e.id, e.reminderSentAt.value)
  }

  /** What the nudge pass looks at. */
  predicate MustNudge(s: State, e: Event, now: Time, cfg: Config) {
    cfg.nudgeLead > 0 && NudgeDue(e, now, cfg) && Silent(s, e) != []
  }

  predicate SameAnswers(s: State, t: State) {
    SameStaff(s, t) && s.responses == t.responses
  }

  lemma DoAnswers(t: State, a: Action, op: Op, cfg: Config)
    requires op.TickOp? && Can(t, a, op, cfg)
    ensures SameAnswers(t, Do(t, a, op, cfg))
  {
    if Touches(a) {
      TouchStaff(t, a, op, cfg);
    }
  }

  /** No tick answers. */
  lemma {:induction false} PathAnswers(s: State, path: seq<Action>, op: Op, cfg: Config)
    requires op.TickOp?
    ensures SameAnswers(s, End(s, path, op, cfg))
  {
    if path != [] {
      var t := End(s, path[..|path| - 1], op, cfg);
      PathAnswers(s, path[..|path| - 1], op, cfg);
      if Can(t, path[|path| - 1], op, cfg) {
        DoAnswers(t, path[|path| - 1], op, cfg);
      }
    }
  }

  lemma TickAnswers(s: State, t: State, op: Op, cfg: Config)
    requires op.TickOp? && Leads(s, t, op, cfg)
    ensures SameAnswers(s, t)
  {
    var path :| End(s, path, op, cfg) == t;
    PathAnswers(s, path, op, cfg);
  }

  /** The event as the nudge pass leaves it. */
  function AfterNudge(s: State, e: Event, now: Time, cfg: Config): Event {
    if MustNudge(s, e, now, cfg) then e.(nudgeSentAt := Some(now)) else e
  }

  lemma NudgeOneMoves(s: State, i: nat, now: Time, cfg: Config, clock: Time)
    requires i < |s.events| && cfg.nudgeLead > 0
    ensures var t := NudgeOne(s, i, now, cfg, clock);
      SameAnswers(s, t) && t.events == s.events[i := AfterNudge(s, s.events[i], now, cfg)]
  {
  }

  lemma AfterNudgeSame(s: State, t: State, e: Event, now: Time, cfg: Config)
    requires SameAnswers(s, t)
    ensures AfterNudge(s, e, now, cfg) == AfterNudge(t, e, now, cfg)
  {
  }

  /** The nudge pass reaches exactly the events that are due. */
  lemma {:induction false} NudgesReach(s: State, i: nat, now: Time, cfg: Config, clock: Time, k: nat)
    requires k < |s.events| && cfg.nudgeLead > 0
    ensures NudgesFrom(s, i, now, cfg, clock).events[k] == if i <= k then AfterNudge(s, s.events[k], now, cfg) else s.events[k]
    decreases |s.events| - i
  {
    if i < |s.events| {
      var next := NudgeOne(s, i, now, cfg, clock);
      NudgeOneMoves(s, i, now, cfg, clock);
      NudgesReach(next, i + 1, now, cfg, clock, k);
      if i < k {
        AfterNudgeSame(s, next, s.events[k], now, cfg);
      }
    }
  }

  /** A nudge does not depend on the unreachable warning. */
  lemma NudgeDueAlike(e: Event, f: Event, now: Time, cfg: Config)
    requires f == e.(unreachableNotifiedAt := f.unreachableNotifiedAt) && e.reminderSentAt.Some?
    ensures NudgeDue(e, now, cfg) == NudgeDue(f, now, cfg)
    ensures forall s :: Silent(s, e) == Silent(s, f)
  {
  }

  /** The event as the deadline pass of a tick finds it. */
  lemma BeforeDeadlines(s: State, op: Op, cfg: Config, k: nat)
    requires op.TickOp? && k < |s.events| && s.events[k].reminderSentAt.Some?
    ensures var e := s.events[k];
      var nudged := Nudges(RemindersFrom(s, 0, op.now, cfg, op.clock), op.now, cfg, op.clock);
      nudged.events[k] == if MustNudge(s, e, op.now, cfg) then e.(nudgeSentAt := Some(op.now), unreachableNotifiedAt := nudged.events[k].unreachableNotifiedAt)
                          else e.(unreachableNotifiedAt := nudged.events[k].unreachableNotifiedAt)
  {
    var reminded := RemindersFrom(s, 0, op.now, cfg, op.clock);
    Stay(s, op, cfg);
    RemindersLead(s, s, 0, op, cfg);
    TickAnswers(s, reminded, op, cfg);
    RemindersReach(s, 0, op.now, cfg, op.clock, k);
    if cfg.nudgeLead > 0 {
      NudgesReach(reminded, 0, op.now, cfg, op.clock, k);
      NudgeDueAlike(s.events[k], reminded.events[k], op.now, cfg);
      AfterNudgeSame(s, reminded, reminded.events[k], op.now, cfg);
    }
  }

  /** The deadline pass leaves an event whose deadline is not open as it is. */
  lemma DeadlinesSpare(s: State, op: Op, cfg: Config, k: nat)
    requires Sound(s) && op.TickOp? && k < |s.events| && op.now < s.events[k].startsAt - cfg.deadlineLead
    ensures Apply(s, op, cfg).events[k] == Nudges(RemindersFrom(s, 0, op.now, cfg, op.clock), op.now, cfg, op.clock).events[k]
  {
    var reminded := RemindersFrom(s, 0, op.now, cfg, op.clock);
    var nudged := Nudges(reminded, op.now, cfg, op.clock);
    RemindersReach(s, 0, op.now, cfg, op.clock, k);
    RemindersKeepIds(s, 0, op.now, cfg, op.clock);
    NudgesLeave(reminded, 0, op.now, cfg, op.clock, k);
    DeadlinesReach(nudged, 0, op.now, cfg, op.clock, k);
  }

  /** A tick nudges an event exactly when nudging is on, the nudge is due and somebody reachable is silent. */
  lemma TickNudgesIff(s: State, op: Op, cfg: Config, k: nat)
    requires Sound(s) && op.TickOp? && k < |s.events|
    ensures |Apply(s, op, cfg).events| == |s.events|
    ensures NudgedIn(s.events[k], Apply(s, op, cfg).events[k]) <==> MustNudge(s, s.events[k], op.now, cfg)
  {
    var e, f := s.events[k], Apply(s, op, cfg).events[k];
    TickIsTicked(s, op, cfg);
    assert TickedEvent(e, f, |Reachable(s, e.id)|, op.now, cfg);
    if NudgedIn(e, f) || MustNudge(s, e, op.now, cfg) {
      BeforeDeadlines(s, op, cfg, k);
      DeadlinesSpare(s, op, cfg, k);
    }
  }

  /**
    A nudge on the trail of a tick leaves the staff the grace after their ask and the grace
    before the deadline opens, and is the only thing that tick does about the event.
  */
  lemma NudgeLeavesTheGrace(s: State, op: Op, cfg: Config, i: nat)
    requires Sound(s) && op.TickOp?
    requires var t := Apply(s, op, cfg); |s.audit| <= i < |t.audit| && t.audit[i].ReminderNudged?
    ensures var t := Apply(s, op, cfg);
      var id := t.audit[i].event;
      && Of(s, id).Some?
      && var e := Of(s, id).value;
      && t.audit[i].at == op.now && e.status == Scheduled && e.nudgeSentAt.None?
      && e.reminderSentAt.Some? && e.reminderSentAt.value + CONFIRM_GRACE <= op.now
      && op.now + CONFIRM_GRACE < e.startsAt - cfg.deadlineLead
      && (forall j | |s.audit| <= j < |t.audit| && j != i && IsAct(t.audit[j]) :: t.audit[j].event != id)
  {
    var t := Apply(s, op, cfg);
    var k := EnteredActs(s, op, cfg, i);
    TickNudgesIff(s, op, cfg, k);
    forall j | |s.audit| <= j < |t.audit| && j != i && IsAct(t.audit[j]) ensures t.audit[j].event != t.audit[i].event {
      OneActInTheTrail(s, op, cfg, if i < j then i else j, if i < j then j else i);
    }
  }

  // ---- when a run nudges -----------------------------------------------------

  /** An ask on an event was sent inside its window. */
  predicate AskInWindow(e: Event, cfg: Config) {
    e.reminderSentAt.Some? ==> e.startsAt - cfg.reminderLead <= e.reminderSentAt.value <= e.startsAt
  }

  predicate AsksInWindow(s: State, cfg: Config) {
    forall k | 0 <= k < |s.events| :: AskInWindow(s.events[k], cfg)
  }

  lemma TouchAsks(s: State, a: Action, op: Op, cfg: Config)
    requires Can(s, a, op, cfg) && Touches(a) && AskInWindow(s.events[a.k], cfg)
    ensures AskInWindow(Do(s, a, op, cfg).events[a.k], cfg)
  {
  }

  lemma ForgetAsks(s: State, id: Id, cfg: Config)
    requires AsksInWindow(s, cfg)
    ensures AsksInWindow(DropRowsOf(s, id), cfg)
  {
    FilterMembers(s.events, id);
    var kept := Filter(s.events, IsEvent(id));
    forall k | 0 <= k < |kept| ensures AskInWindow(kept[k], cfg) {
      assert kept[k] in s.events;
    }
  }

  lemma ReplacedAsks(s: State, t: State, k: nat, cfg: Config)
    requires AsksInWindow(s, cfg) && k < |s.events| == |t.events| && t.events == s.events[k := t.events[k]]
    requires AskInWindow(t.events[k], cfg)
    ensures AsksInWindow(t, cfg)
  {
  }

  lemma OtherAsks(s: State, a: Action, op: Op, cfg: Config)
    requires Can(s, a, op, cfg) && AsksInWindow(s, cfg) && !Touches(a) && !a.Forget?
    ensures AsksInWindow(Do(s, a, op, cfg), cfg)
  {
  }

  lemma DoAsks(s: State, a: Action, op: Op, cfg: Config)
    requires Can(s, a, op, cfg) && AsksInWindow(s, cfg)
    ensures AsksInWindow(Do(s, a, op, cfg), cfg)
  {
    if a.Forget? {
      ForgetAsks(s, a.id, cfg);
    } else if Touches(a) {
      TouchKeeps(s, a, op, cfg);
      TouchAsks(s, a, op, cfg);
      ReplacedAsks(s, Do(s, a, op, cfg), a.k, cfg);
    } else {
      OtherAsks(s, a, op, cfg);
    }
  }

  /** What no configuration without room for a nudge ever logs. */
  predicate Unnudged(audit: seq<Audit>) {
    forall i | 0 <= i < |audit| :: !audit[i].ReminderNudged?
  }

  /**
    Nudging is on, its window lies between the ask and the deadline's grace, and the ask
    window opens more than twice the grace before the deadline.
  */
  predicate NudgesPossible(cfg: Config) {
    && cfg.nudgeLead > 0 && cfg.deadlineLead + CONFIRM_GRACE < cfg.nudgeLead < cfg.reminderLead
    && cfg.deadlineLead + 2 * CONFIRM_GRACE < cfg.reminderLead
  }

  lemma NoNudgeAllowed(s: State, a: Action, op: Op, cfg: Config)
    requires AsksInWindow(s, cfg) && Can(s, a, op, cfg) && a.Nudge?
    ensures NudgesPossible(cfg)
  {
    assert AskInWindow(s.events[a.k], cfg);
  }

  lemma DoUnnudged(s: State, a: Action, op: Op, cfg: Config)
    requires Can(s, a, op, cfg) && Unnudged(s.audit) && !a.Nudge?
    ensures Unnudged(Do(s, a, op, cfg).audit)
  {
    if a.Spread? {
      SkipsNeutral(Assignees(s, s.events[a.k].id), Draft(Some(s.events[a.k].id), a.purpose, Some(s.nextId), "", "", Plain));
    } else if Touches(a) {
      TouchLogs(s, a, op, cfg);
    }
  }

  lemma {:induction false} PathAsks(s: State, path: seq<Action>, op: Op, cfg: Config)
    requires AsksInWindow(s, cfg)
    ensures AsksInWindow(End(s, path, op, cfg), cfg)
    ensures Unnudged(s.audit) && !NudgesPossible(cfg) ==> Unnudged(End(s, path, op, cfg).audit)
  {
    if path != [] {
      var t := End(s, path[..|path| - 1], op, cfg);
      var a := path[|path| - 1];
      PathAsks(s, path[..|path| - 1], op, cfg);
      if Can(t, a, op, cfg) {
        DoAsks(t, a, op, cfg);
        if a.Nudge? {
          NoNudgeAllowed(t, a, op, cfg);
        } else if Unnudged(t.audit) {
          DoUnnudged(t, a, op, cfg);
        }
      }
    }
  }

  lemma {:induction false} PageStuckUnnudged(s: State, rows: seq<Id>, cfg: Config, clock: Time)
    requires Unnudged(s.audit)
    ensures Unnudged(PageStuck(s, rows, cfg, clock).audit)
  {
    if rows != [] {
      PageStuckUnnudged(s, rows[..|rows| - 1], cfg, clock);
    }
  }

  lemma {:induction false} BookAllUnnudged(s: State, results: seq<Result>, at: Time, cfg: Config)
    requires Unnudged(s.audit)
    ensures Unnudged(BookAll(s, results, at, cfg).audit)
    decreases |results|
  {
    if results != [] {
      BookAllUnnudged(BookOne(s, results[0], at, cfg), results[1..], at, cfg);
    }
  }

  lemma DeliveryUnnudged(w: World, step: Step, cfg: Config)
    requires !step.Operate? && Unnudged(w.s.audit)
    ensures Unnudged(Next(w, step, cfg).s.audit)
  {
    match step
    case CollectPass(now, only, clock) => PageStuckUnnudged(Select(w.s, now, only, cfg).0, StuckRows(w.s.outbox, now, cfg), cfg, clock);
    case BookPass(p, clock) =>
      if CanBook(w, p) {
        BookAllUnnudged(w.s, ResultsOf(w.passes[p]), BookingClock(w.passes[p].now, clock), cfg);
      }
    case _ =>
  }

  lemma AskStep(w: World, step: Step, cfg: Config)
    requires Sound(w.s) && AsksInWindow(w.s, cfg)
    ensures AsksInWindow(Next(w, step, cfg).s, cfg)
    ensures Unnudged(w.s.audit) && !NudgesPossible(cfg) ==> Unnudged(Next(w, step, cfg).s.audit)
  {
    if step.Operate? {
      ApplyLeads(w.s, step.op, cfg);
      var path :| End(w.s, path, step.op, cfg) == Apply(w.s, step.op, cfg);
      PathAsks(w.s, path, step.op, cfg);
    } else {
      DeliveryLeaves(w, step, cfg);
      if Unnudged(w.s.audit) {
        DeliveryUnnudged(w, step, cfg);
      }
    }
  }

  /** In every reachable state every ask was sent inside its event's window. */
  lemma {:induction false} AsksFallInTheirWindow(steps: seq<Step>, cfg: Config)
    ensures AsksInWindow(Run(steps, cfg).s, cfg)
    ensures !NudgesPossible(cfg) ==> Unnudged(Run(steps, cfg).s.audit)
  {
    if steps != [] {
      var before := steps[..|steps| - 1];
      AsksFallInTheirWindow(before, cfg);
      AlwaysSafe(before, cfg);
      AskStep(Run(before, cfg), steps[|steps| - 1], cfg);
    }
  }

  // ---- a run that nudges -----------------------------------------------------

  const REACHABLE_PERSON: Person := Person(0, [Address("email", "somebody")])

  /** An event at time 0 with one person who can be asked. */
  function Opening(): seq<Step> {
    [Operate(CreateOp("", "", 0, None, false, 0)),
     Operate(StaffOp([REACHABLE_PERSON], [Assignment(0, 0)], [], [], [], []))]
  }

  lemma TickAt(now: Time) returns (op: Op)
    ensures op.TickOp? && op.now == now
  {
    op := TickOp(now, 0);
  }

  lemma RunMore(steps: seq<Step>, step: Step, cfg: Config)
    ensures Run(steps + [step], cfg) == Next(Run(steps, cfg), step, cfg)
  {
    assert (steps + [step])[..|steps|] == steps;
  }

  predicate Staged(s: State, asked: Option<Time>) {
    && |s.events| == 1 && s.events[0].id == 0 && s.events[0].status == Scheduled && s.events[0].startsAt == 0
    && s.events[0].reminderSentAt == asked && s.events[0].nudgeSentAt.None?
    && s.people == [REACHABLE_PERSON] && s.assignments == [Assignment(0, 0)] && s.responses == []
  }

  lemma StagedReach(s: State, asked: Option<Time>)
    requires Staged(s, asked)
    ensures Reachable(s, 0) == [REACHABLE_PERSON]
  {
    assert REACHABLE_PERSON.channels[0].Usable();
    assert REACHABLE_PERSON.Reachable();
    assert s.people[0].id == 0 && FindPerson(s.people, 0) == 0;
    assert s.assignments[..0] == [] && AssigneesIn([], s.people, 0) == [];
    assert Assignees(s, 0) == [] + [REACHABLE_PERSON];
    assert [REACHABLE_PERSON][..0] == [] && ReachableOf([]) == [];
    assert ReachableOf([REACHABLE_PERSON]) == [] + [REACHABLE_PERSON];
  }

  lemma OpeningStages(cfg: Config) returns (steps: seq<Step>)
    ensures Staged(Run(steps, cfg).s, None)
  {
    steps := Opening();
    var create, staff := Opening()[0], Opening()[1];
    assert [] + [create] == [create] && [create] + [staff] == Opening();
    RunMore([], create, cfg);
    RunMore([create], staff, cfg);
    assert FireWebhooks(Store(EMPTY_STATE, NewEvent(0, "", "", 0, None, false, "", "", 0)), "event.created", 0).events
        == [NewEvent(0, "", "", 0, None, false, "", "", 0)];
  }

  /** An ask tick before the deadline, seen from one event. */
  lemma AskTickStamps(s: State, op: Op, cfg: Config, k: nat)
    requires Sound(s) && op.TickOp? && k < |s.events| && op.now < s.events[k].startsAt - cfg.deadlineLead
    requires AskDue(s.events[k], op.now, cfg) && Reachable(s, s.events[k].id) != []
    ensures var t := Apply(s, op, cfg);
      && |t.events| == |s.events|
      && t.events[k] == s.events[k].(reminderSentAt := Some(op.now), unreachableNotifiedAt := t.events[k].unreachableNotifiedAt)
  {
    var reminded := RemindersFrom(s, 0, op.now, cfg, op.clock);
    RemindersReach(s, 0, op.now, cfg, op.clock, k);
    NudgesLeave(reminded, 0, op.now, cfg, op.clock, k);
    DeadlinesSpare(s, op, cfg, k);
    TickNudgesIff(s, op, cfg, k);
  }

  lemma TickKeepsAnswers(s: State, op: Op, cfg: Config)
    requires Sound(s) && op.TickOp?
    ensures SameAnswers(s, Apply(s, op, cfg))
  {
    ApplyLeads(s, op, cfg);
    TickAnswers(s, Apply(s, op, cfg), op, cfg);
  }

  /** The only event is asked by this tick and by no deadline reached. */
  predicate AskedBy(s: State, op: Op, cfg: Config) {
    && op.TickOp? && |s.events| == 1 && op.now < s.events[0].startsAt - cfg.deadlineLead
    && AskDue(s.events[0], op.now, cfg) && Reachable(s, s.events[0].id) != []
  }

  lemma StagedAskedBy(s: State, op: Op, cfg: Config)
    requires Staged(s, None) && NudgesPossible(cfg) && op.TickOp? && op.now == -cfg.reminderLead
    ensures AskedBy(s, op, cfg)
  {
    StagedReach(s, None);
  }

  /** What such a tick leaves of the only event. */
  predicate AskedOnly(s: State, t: State, now: Time) {
    && |t.events| == |s.events| == 1 && SameAnswers(s, t)
    && t.events[0] == s.events[0].(reminderSentAt := Some(now), unreachableNotifiedAt := t.events[0].unreachableNotifiedAt)
  }

  lemma AskTickOnly(s: State, op: Op, cfg: Config)
    requires Sound(s) && AskedBy(s, op, cfg)
    ensures AskedOnly(s, Apply(s, op, cfg), op.now)
  {
    TickKeepsAnswers(s, op, cfg);
    AskTickStamps(s, op, cfg, 0);
  }

  lemma StagedAsked(s: State, t: State, asked: Time)
    requires Staged(s, None) && AskedOnly(s, t, asked)
    ensures Staged(t, Some(asked))
  {
  }

  lemma AskTickAsks(s: State, op: Op, cfg: Config)
    requires Sound(s) && Staged(s, None) && NudgesPossible(cfg) && op.TickOp? && op.now == -cfg.reminderLead
    ensures Staged(Apply(s, op, cfg), Some(op.now))
  {
    StagedAskedBy(s, op, cfg);
    AskTickOnly(s, op, cfg);
    StagedAsked(s, Apply(s, op, cfg), op.now);
  }

  lemma StagedSilent(s: State, asked: Time)
    requires Staged(s, Some(asked))
    ensures Silent(s, s.events[0]) == [REACHABLE_PERSON]
  {
    StagedReach(s, Some(asked));
    assert [REACHABLE_PERSON][..0] == [] && SilentOf([], [], 0, asked) == [];
    assert SilentOf([REACHABLE_PERSON], [], 0, asked) == [] + [REACHABLE_PERSON];
  }

  lemma StagedMustNudge(s: State, op: Op, cfg: Config)
    requires Staged(s, Some(-cfg.reminderLead)) && NudgesPossible(cfg)
    requires op.TickOp? && op.now == -cfg.deadlineLead - CONFIRM_GRACE - 1
    ensures MustNudge(s, s.events[0], op.now, cfg)
  {
    StagedSilent(s, -cfg.reminderLead);
  }

  /** A nudged event carries the stamp. */
  lemma MustNudgeStamps(s: State, op: Op, cfg: Config, k: nat)
    requires Sound(s) && op.TickOp? && k < |s.events| && MustNudge(s, s.events[k], op.now, cfg)
    ensures |Apply(s, op, cfg).events| == |s.events| && Apply(s, op, cfg).events[k].nudgeSentAt == Some(op.now)
  {
    TickNudgesIff(s, op, cfg, k);
    TickTrail(s, op, cfg);
    assert StampsGrow(s.events[k], Apply(s, op, cfg).events[k], op.now);
  }

  lemma NudgeTickNudges(s: State, op: Op, cfg: Config)
    requires Sound(s) && Staged(s, Some(-cfg.reminderLead)) && NudgesPossible(cfg)
    requires op.TickOp? && op.now == -cfg.deadlineLead - CONFIRM_GRACE - 1
    ensures Nudged(Apply(s, op, cfg))
  {
    StagedMustNudge(s, op, cfg);
    MustNudgeStamps(s, op, cfg, 0);
  }

  lemma {:induction false} NudgeOnTheTrail(audit: seq<Audit>, id: Id) returns (i: nat)
    requires CycleOf(audit, id).nudges != []
    ensures i < |audit| && audit[i].ReminderNudged? && audit[i].event == id
  {
    i := |audit| - 1;
    if CycleOf(audit[..i], id).nudges != [] {
      i := NudgeOnTheTrail(audit[..i], id);
    }
  }

  ghost predicate LogsNudge(steps: seq<Step>, cfg: Config) {
    !Unnudged(Run(steps, cfg).s.audit)
  }

  /** An ask tick on top of a run that staged the event. */
  lemma AskedAfter(front: seq<Step>, op: Op, cfg: Config)
    requires NudgesPossible(cfg) && Staged(Run(front, cfg).s, None) && op.TickOp? && op.now == -cfg.reminderLead
    ensures Staged(Run(front + [Operate(op)], cfg).s, Some(op.now))
  {
    AlwaysSafe(front, cfg);
    RunMore(front, Operate(op), cfg);
    AskTickAsks(Run(front, cfg).s, op, cfg);
  }

  lemma AskedStage(cfg: Config) returns (steps: seq<Step>)
    requires NudgesPossible(cfg)
    ensures Staged(Run(steps, cfg).s, Some(-cfg.reminderLead))
  {
    var front := OpeningStages(cfg);
    var op := TickAt(-cfg.reminderLead);
    AskedAfter(front, op, cfg);
    steps := front + [Operate(op)];
  }

  predicate Nudged(s: State) {
    |s.events| == 1 && s.events[0].nudgeSentAt.Some?
  }

  lemma NudgedAfter(front: seq<Step>, op: Op, cfg: Config)
    requires NudgesPossible(cfg) && Staged(Run(front, cfg).s, Some(-cfg.reminderLead))
    requires op.TickOp? && op.now == -cfg.deadlineLead - CONFIRM_GRACE - 1
    ensures Nudged(Run(front + [Operate(op)], cfg).s)
  {
    AlwaysSafe(front, cfg);
    RunMore(front, Operate(op), cfg);
    NudgeTickNudges(Run(front, cfg).s, op, cfg);
  }

  /** Create, staff, ask, and nudge at the last moment of the window. */
  lemma NudgedStage(cfg: Config) returns (steps: seq<Step>)
    requires NudgesPossible(cfg)
    ensures Nudged(Run(steps, cfg).s)
  {
    var front := AskedStage(cfg);
    var op := TickAt(-cfg.deadlineLead - CONFIRM_GRACE - 1);
    NudgedAfter(front, op, cfg);
    steps := front + [Operate(op)];
  }

  /** What an event's stamps say happened is on the trail. */
  lemma NudgedLogs(steps: seq<Step>, cfg: Config)
    requires Nudged(Run(steps, cfg).s)
    ensures LogsNudge(steps, cfg)
  {
    var s := Run(steps, cfg).s;
    AlwaysFaithful(steps, cfg);
    assert Faithful(s.events[0], s.audit);
    var i := NudgeOnTheTrail(s.audit, s.events[0].id);
  }

  /**
    A configuration, accepted or not, lets some run nudge exactly when nudging is on, its window
    is not empty, and an ask can be sent more than twice the grace before the deadline opens.
  */
  lemma RunsNudgeIff(cfg: Config)
    ensures (exists steps :: LogsNudge(steps, cfg)) <==> NudgesPossible(cfg)
  {
    if NudgesPossible(cfg) {
      var steps := NudgedStage(cfg);
      NudgedLogs(steps, cfg);
    } else {
      forall steps ensures !LogsNudge(steps, cfg) {
        AsksFallInTheirWindow(steps, cfg);
      }
    }
  }

  /** Of the accepted configurations with a nudge lead, which nudge at all. */
  lemma AcceptedNudgesIff(cfg: Config)
    requires cfg.Accepted() && cfg.nudgeLead != 0
    ensures (exists steps :: LogsNudge(steps, cfg)) <==> cfg.nudgeLead > 0 && cfg.reminderLead > cfg.deadlineLead + 2 * CONFIRM_GRACE
  {
    RunsNudgeIff(cfg);
  }

  /** Two configurations with a nudge lead that are accepted, and under which no run ever nudges. */
  lemma AcceptedYetNeverNudges(cfg: Config, steps: seq<Step>)
    requires
      || (cfg.deadlineLead == 24 * HOUR && cfg.nudgeLead == 25 * HOUR + 1 && cfg.reminderLead == 26 * HOUR)
      || (cfg.deadlineLead == -10 * HOUR && cfg.nudgeLead == -5 * HOUR && cfg.reminderLead == 48 * HOUR)
    requires cfg.calendarFetchEvery == 0
    ensures cfg.nudgeLead != 0 && cfg.Accepted() && Unnudged(Run(steps, cfg).s.audit)
  {
    AsksFallInTheirWindow(steps, cfg);
  }
}
