/**
  The confirmation cycle of an event, read from the audit trail, and what the ticks may do
  in it: ask, nudge, warn and close once each, and call an event off only when silence was
  a choice or nobody could be asked.
*/
module Cycles {
  import opened Options
  import opened Core
  import opened Transitions
  import opened Ticks
  import opened Delivery
  import opened CalendarSync
  import opened Operations
  import opened Actions
  import opened Coverage
  import opened Rows
  import opened Protocol

  // ---- the trail -------------------------------------------------------------

  /** What the trail says about an event since it was last created, moved or reinstated. */
  datatype Cycle = Cycle(asks: seq<Time>, nudges: seq<Time>, warnings: seq<Time>, deadlines: seq<Time>, confirmed: bool)

  const NEW_CYCLE: Cycle := Cycle([], [], [], [], false)

  function CycleStep(c: Cycle, entry: Audit, id: Id): Cycle {
    match entry
    case EventCreated(e) => if e == id then NEW_CYCLE else c
    case EventMoved(e) => if e == id then NEW_CYCLE else c
    case EventReinstated(e) => if e == id then NEW_CYCLE else c
    case EventConfirmed(e) => if e == id then c.(confirmed := true) else c
    case ReminderSent(e, at) => if e == id then c.(asks := c.asks + [at]) else c
    case ReminderNudged(e, at) => if e == id then c.(nudges := c.nudges + [at]) else c
    case StaffingUnreachable(e, at) => if e == id then c.(warnings := c.warnings + [at]) else c
    case DeadlinePassed(e, at) => if e == id then c.(deadlines := c.deadlines + [at]) else c
    case _ => c
  }

  function CycleOf(audit: seq<Audit>, id: Id): Cycle {
    if audit == [] then NEW_CYCLE
    else CycleStep(CycleOf(audit[..|audit| - 1], id), audit[|audit| - 1], id)
  }

  lemma CycleAppend(audit: seq<Audit>, entry: Audit, id: Id)
    ensures CycleOf(audit + [entry], id) == CycleStep(CycleOf(audit, id), entry, id)
  {
    assert (audit + [entry])[..|audit|] == audit;
  }

  lemma {:induction false} CycleNeutral(audit: seq<Audit>, entries: seq<Audit>, id: Id)
    requires Neutral(entries)
    ensures CycleOf(audit + entries, id) == CycleOf(audit, id)
  {
    if entries == [] {
      assert audit + entries == audit;
    } else {
      var n := |entries| - 1;
      CycleNeutral(audit, entries[..n], id);
      CycleAppend(audit + entries[..n], entries[n], id);
      assert audit + entries == audit + entries[..n] + [entries[n]];
    }
  }

  function Times(stamp: Option<Time>): seq<Time> {
    if stamp.Some? then [stamp.value] else []
  }

  /** The stamps of the event are the whole history of its cycle. */
  predicate Matches(e: Event, c: Cycle) {
    && c.asks == Times(e.reminderSentAt) && c.nudges == Times(e.nudgeSentAt)
    && c.warnings == Times(e.unreachableNotifiedAt) && c.deadlines == Times(e.deadlineFiredAt)
    && (c.confirmed ==> e.status != Scheduled)
  }

  predicate Faithful(e: Event, audit: seq<Audit>) {
    Matches(e, CycleOf(audit, e.id))
  }

  predicate AllFaithful(s: State) {
    forall k | 0 <= k < |s.events| :: Faithful(s.events[k], s.audit)
  }

  // ---- every action keeps it -------------------------------------------------

  lemma NeutralFaithful(s: State, t: State, entries: seq<Audit>)
    requires AllFaithful(s) && t.events == s.events && t.audit == s.audit + entries && Neutral(entries)
    ensures AllFaithful(t)
  {
    forall k | 0 <= k < |t.events| ensures Faithful(t.events[k], t.audit) {
      assert Faithful(s.events[k], s.audit);
      CycleNeutral(s.audit, entries, s.events[k].id);
    }
  }

  /** One event replaced, one entry logged about it. */
  lemma LoggedFaithful(s: State, t: State, k: nat, entry: Audit)
    requires AllFaithful(s) && DistinctEventIds(s.events) && k < |s.events| == |t.events|
    requires t.events == s.events[k := t.events[k]] && t.events[k].id == s.events[k].id
    requires t.audit == s.audit + [entry]
    requires forall id | id != s.events[k].id :: CycleStep(CycleOf(s.audit, id), entry, id) == CycleOf(s.audit, id)
    requires Faithful(s.events[k], s.audit) ==> Faithful(t.events[k], t.audit)
    ensures AllFaithful(t)
  {
    forall j | 0 <= j < |t.events| ensures Faithful(t.events[j], t.audit) {
      assert Faithful(s.events[j], s.audit);
      if j != k {
        CycleAppend(s.audit, entry, s.events[j].id);
      }
    }
  }

  /** The entry a touching action logs. */
  function EntryOf(id: Id, a: Action): seq<Audit> {
    match a
    case Affirm(_) => [EventConfirmed(id)]
    case CallOff(_, byDeadline, _) => [EventCancelled(id, byDeadline)]
    case Shift(_, _, _) => [EventMoved(id)]
    case Revive(_) => [EventReinstated(id)]
    case AskStaff(_, now) => [ReminderSent(id, now)]
    case Warn(_, now) => [StaffingUnreachable(id, now)]
    case Nudge(_, now) => [ReminderNudged(id, now)]
    case Expire(_, now) => [DeadlinePassed(id, now)]
    case _ => []
  }

  lemma TouchLogs(s: State, a: Action, op: Op, cfg: Config)
    requires Can(s, a, op, cfg) && Touches(a) && !a.Spread?
    ensures Do(s, a, op, cfg).audit == s.audit + EntryOf(s.events[a.k].id, a)
  {
  }

  lemma TouchedFaithful(s: State, a: Action, op: Op, cfg: Config)
    requires Can(s, a, op, cfg) && Touches(a) && !a.Spread? && EntryOf(s.events[a.k].id, a) != []
    requires Faithful(s.events[a.k], s.audit)
    ensures Faithful(Do(s, a, op, cfg).events[a.k], s.audit + EntryOf(s.events[a.k].id, a))
  {
    if a.AskStaff? || a.Warn? || a.Nudge? || a.Expire? {
      StampedFaithful(s, a, op, cfg);
    } else {
      FlippedFaithful(s, a, op, cfg);
    }
  }

  /** The event as one of the four acts leaves it. */
  function Stamped(e: Event, a: Action): Event {
    match a
    case AskStaff(_, now) => e.(reminderSentAt := Some(now))
    case Warn(_, now) => e.(unreachableNotifiedAt := Some(now))
    case Nudge(_, now) => e.(nudgeSentAt := Some(now))
    case Expire(_, now) => e.(deadlineFiredAt := Some(now))
    case _ => e
  }

  lemma DoStamps(s: State, a: Action, op: Op, cfg: Config)
    requires Can(s, a, op, cfg) && (a.AskStaff? || a.Warn? || a.Nudge? || a.Expire?)
    ensures Do(s, a, op, cfg).events[a.k] == Stamped(s.events[a.k], a)
    ensures a.AskStaff? || a.Warn? ==> s.events[a.k].reminderSentAt.None?
    ensures a.Warn? ==> s.events[a.k].unreachableNotifiedAt.None?
    ensures a.Nudge? ==> s.events[a.k].nudgeSentAt.None?
    ensures a.Expire? ==> s.events[a.k].deadlineFiredAt.None?
  {
  }

  lemma StampMatches(e: Event, c: Cycle, a: Action)
    requires Matches(e, c) && (a.AskStaff? || a.Warn? || a.Nudge? || a.Expire?)
    requires a.AskStaff? ==> e.reminderSentAt.None?
    requires a.Warn? ==> e.unreachableNotifiedAt.None?
    requires a.Nudge? ==> e.nudgeSentAt.None?
    requires a.Expire? ==> e.deadlineFiredAt.None?
    ensures Matches(Stamped(e, a), CycleStep(c, EntryOf(e.id, a)[0], e.id))
  {
  }

  lemma StampedFaithful(s: State, a: Action, op: Op, cfg: Config)
    requires Can(s, a, op, cfg) && (a.AskStaff? || a.Warn? || a.Nudge? || a.Expire?)
    requires Faithful(s.events[a.k], s.audit)
    ensures Faithful(Do(s, a, op, cfg).events[a.k], s.audit + EntryOf(s.events[a.k].id, a))
  {
    DoStamps(s, a, op, cfg);
    StampMatches(s.events[a.k], CycleOf(s.audit, s.events[a.k].id), a);
    CycleAppend(s.audit, EntryOf(s.events[a.k].id, a)[0], s.events[a.k].id);
  }

  predicate Flips(a: Action) {
    a.Affirm? || a.CallOff? || a.Shift? || a.Revive?
  }

  /** What a transition leaves of the fields the cycle knows. */
  predicate FlippedTo(e: Event, f: Event, a: Action) {
    && f.id == e.id
    && (a.Affirm? || a.CallOff? ==>
          && f.status != Scheduled && f.reminderSentAt == e.reminderSentAt && f.nudgeSentAt == e.nudgeSentAt
          && f.unreachableNotifiedAt == e.unreachableNotifiedAt && f.deadlineFiredAt == e.deadlineFiredAt)
    && (a.Shift? || a.Revive? ==>
          f.reminderSentAt.None? && f.nudgeSentAt.None? && f.unreachableNotifiedAt.None? && f.deadlineFiredAt.None?)
  }

  lemma DoFlips(s: State, a: Action, op: Op, cfg: Config)
    requires Can(s, a, op, cfg) && Flips(a)
    ensures FlippedTo(s.events[a.k], Do(s, a, op, cfg).events[a.k], a)
  {
  }

  lemma FlipMatches(e: Event, f: Event, c: Cycle, a: Action)
    requires Matches(e, c) && Flips(a) && FlippedTo(e, f, a)
    ensures Matches(f, CycleStep(c, EntryOf(e.id, a)[0], e.id))
  {
  }

  lemma FlippedFaithful(s: State, a: Action, op: Op, cfg: Config)
    requires Can(s, a, op, cfg) && Flips(a)
    requires Faithful(s.events[a.k], s.audit)
    ensures Faithful(Do(s, a, op, cfg).events[a.k], s.audit + EntryOf(s.events[a.k].id, a))
  {
    var e := s.events[a.k];
    DoFlips(s, a, op, cfg);
    FlipMatches(e, Do(s, a, op, cfg).events[a.k], CycleOf(s.audit, e.id), a);
    CycleAppend(s.audit, EntryOf(e.id, a)[0], e.id);
  }

  lemma TouchFaithful(s: State, a: Action, op: Op, cfg: Config)
    requires Sound(s) && AllFaithful(s) && Can(s, a, op, cfg) && Touches(a) && !a.Spread?
    ensures AllFaithful(Do(s, a, op, cfg))
  {
    var t := Do(s, a, op, cfg);
    TouchKeeps(s, a, op, cfg);
    TouchLogs(s, a, op, cfg);
    if EntryOf(s.events[a.k].id, a) == [] {
      AmendFaithful(s, a.k, t.events[a.k], t);
    } else {
      TouchedFaithful(s, a, op, cfg);
      LoggedFaithful(s, t, a.k, EntryOf(s.events[a.k].id, a)[0]);
    }
  }

  /** An update of fields the cycle does not know. */
  lemma AmendFaithful(s: State, k: nat, f: Event, t: State)
    requires AllFaithful(s) && k < |s.events| && t.events == s.events[k := f] && t.audit == s.audit
    requires var e := s.events[k];
      f.id == e.id && f.status == e.status && f.reminderSentAt == e.reminderSentAt && f.nudgeSentAt == e.nudgeSentAt
      && f.unreachableNotifiedAt == e.unreachableNotifiedAt && f.deadlineFiredAt == e.deadlineFiredAt
    ensures AllFaithful(t)
  {
    forall j | 0 <= j < |t.events| ensures Faithful(t.events[j], t.audit) {
      assert Faithful(s.events[j], s.audit);
    }
  }

  lemma SpreadFaithful(s: State, k: nat, purpose: Purpose, cfg: Config, clock: Time)
    requires AllFaithful(s) && k < |s.events|
    ensures AllFaithful(FanOut(s, k, purpose, cfg, clock))
  {
    var t := FanOut(s, k, purpose, cfg, clock);
    var d := Draft(Some(s.events[k].id), purpose, Some(s.nextId), "", "", Plain);
    var skips := PeopleSkips(Assignees(s, s.events[k].id), d);
    SkipsNeutral(Assignees(s, s.events[k].id), d);
    AmendFaithful(s, k, t.events[k], t.(audit := s.audit));
    NeutralFaithful(t.(audit := s.audit), t, skips);
  }

  lemma EnrolFaithful(s: State, e: Event, op: Op, cfg: Config)
    requires Sound(s) && AllFaithful(s) && Can(s, Enrol(e), op, cfg)
    ensures AllFaithful(Store(s, e))
  {
    forall j | 0 <= j < |s.events| + 1 ensures Faithful(Store(s, e).events[j], Store(s, e).audit) {
      CycleAppend(s.audit, EventCreated(e.id), Store(s, e).events[j].id);
      if j < |s.events| {
        assert Faithful(s.events[j], s.audit);
      }
    }
  }

  lemma ForgetFaithful(s: State, id: Id)
    requires AllFaithful(s)
    ensures AllFaithful(Log(DropRowsOf(s, id), EventDeleted(id)))
  {
    FilterMembers(s.events, id);
    var t := Log(DropRowsOf(s, id), EventDeleted(id));
    forall j | 0 <= j < |t.events| ensures Faithful(t.events[j], t.audit) {
      assert t.events[j] in s.events;
      CycleAppend(s.audit, EventDeleted(id), t.events[j].id);
    }
  }

  lemma DoFaithful(s: State, a: Action, op: Op, cfg: Config)
    requires Sound(s) && AllFaithful(s) && Can(s, a, op, cfg)
    ensures AllFaithful(Do(s, a, op, cfg))
  {
    match a
    case Note(entries) => NeutralFaithful(s, Do(s, a, op, cfg), entries);
    case Enrol(e) => EnrolFaithful(s, e, op, cfg);
    case Spread(k, purpose, clock) => SpreadFaithful(s, k, purpose, cfg, clock);
    case Forget(id) => ForgetFaithful(s, id);
    case _ => if Touches(a) { TouchFaithful(s, a, op, cfg); }
  }

  lemma {:induction false} PathFaithful(s: State, path: seq<Action>, op: Op, cfg: Config)
    requires Sound(s) && AllFaithful(s)
    ensures AllFaithful(End(s, path, op, cfg))
  {
    if path != [] {
      var t := End(s, path[..|path| - 1], op, cfg);
      PathFaithful(s, path[..|path| - 1], op, cfg);
      PathSound(s, path[..|path| - 1], op, cfg);
      if Can(t, path[|path| - 1], op, cfg) {
        DoFaithful(t, path[|path| - 1], op, cfg);
      }
    }
  }

  // ---- the delivery steps ----------------------------------------------------

  lemma {:induction false} PageStuckFaithful(s: State, rows: seq<Id>, cfg: Config, clock: Time)
    requires AllFaithful(s)
    ensures AllFaithful(PageStuck(s, rows, cfg, clock))
  {
    if rows != [] {
      var front := PageStuck(s, rows[..|rows| - 1], cfg, clock);
      PageStuckFaithful(s, rows[..|rows| - 1], cfg, clock);
      if cfg.adminNotify.None? {
        NeutralFaithful(front, PageStuck(s, rows, cfg, clock), [AdminUnnotified(DeliveryStuck(rows[|rows| - 1]))]);
      }
    }
  }

  lemma {:induction false} BookAllFaithful(s: State, results: seq<Result>, at: Time, cfg: Config)
    requires AllFaithful(s)
    ensures AllFaithful(BookAll(s, results, at, cfg))
    decreases |results|
  {
    if results != [] {
      var r := results[0];
      var next := BookOne(s, r, at, cfg);
      NeutralFaithful(s, next, [if r.ok then DeliveryOk(r.attempt.id) else DeliveryFail(r.attempt.id)]);
      BookAllFaithful(next, results[1..], at, cfg);
    }
  }

  lemma FaithfulOperate(s: State, op: Op, cfg: Config)
    requires Sound(s) && AllFaithful(s)
    ensures AllFaithful(Apply(s, op, cfg))
  {
    ApplyLeads(s, op, cfg);
    var path :| End(s, path, op, cfg) == Apply(s, op, cfg);
    PathFaithful(s, path, op, cfg);
  }

  lemma FaithfulCollect(w: World, now: Time, only: Option<set<Id>>, cfg: Config, clock: Time)
    requires AllFaithful(w.s)
    ensures AllFaithful(CollectStep(w, now, only, cfg, clock).s)
  {
    var t := Select(w.s, now, only, cfg).0;
    assert AllFaithful(t);
    PageStuckFaithful(t, StuckRows(w.s.outbox, now, cfg), cfg, clock);
  }

  lemma FaithfulPrune(s: State, now: Time, cfg: Config)
    requires AllFaithful(s)
    ensures AllFaithful(Prune(s, now, cfg))
  {
    var gone := |Dropped(s.outbox, s.events, now - cfg.outboxRetention)|;
    if gone > 0 {
      NeutralFaithful(s, Prune(s, now, cfg), [OutboxPruned(gone)]);
    }
  }

  lemma FaithfulRetry(s: State, id: Id, clock: Time)
    requires AllFaithful(s)
    ensures AllFaithful(Retry(s, id, clock).0)
  {
    if Retry(s, id, clock).1 == Retried {
      NeutralFaithful(s, Retry(s, id, clock).0, [OutboxRetry(id)]);
    }
  }

  lemma FaithfulStep(w: World, step: Step, cfg: Config)
    requires Sound(w.s) && AllFaithful(w.s)
    ensures AllFaithful(Next(w, step, cfg).s)
  {
    match step
    case Operate(op) => FaithfulOperate(w.s, op, cfg);
    case CollectPass(now, only, clock) => FaithfulCollect(w, now, only, cfg, clock);
    case SendReturns(p, ok) =>
    case BookPass(p, clock) =>
      if CanBook(w, p) {
        BookAllFaithful(w.s, ResultsOf(w.passes[p]), BookingClock(w.passes[p].now, clock), cfg);
      }
    case RetryRow(id, clock) => FaithfulRetry(w.s, id, clock);
    case PruneRows(now) => FaithfulPrune(w.s, now, cfg);
  }

  lemma {:induction false} AlwaysFaithful(steps: seq<Step>, cfg: Config)
    ensures AllFaithful(Run(steps, cfg).s)
  {
    if steps != [] {
      var before := steps[..|steps| - 1];
      AlwaysFaithful(before, cfg);
      AlwaysSafe(before, cfg);
      FaithfulStep(Run(before, cfg), steps[|steps| - 1], cfg);
    }
  }

  /**
    Between two resets an event gets at most one ask, one nudge, one unreachable warning and
    one deadline, each stamped on it; a confirmation in the cycle means it is not scheduled.
  */
  lemma OncePerCycle(steps: seq<Step>, cfg: Config, k: nat)
    requires k < |Run(steps, cfg).s.events|
    ensures var s := Run(steps, cfg).s;
      var c := CycleOf(s.audit, s.events[k].id);
      && |c.asks| <= 1 && |c.nudges| <= 1 && |c.warnings| <= 1 && |c.deadlines| <= 1
      && Faithful(s.events[k], s.audit)
  {
    AlwaysFaithful(steps, cfg);
    assert Faithful(Run(steps, cfg).s.events[k], Run(steps, cfg).s.audit);
  }

  // ---- what one tick does to one event ---------------------------------------

  predicate AskedIn(e: Event, f: Event) { f.reminderSentAt != e.reminderSentAt }
  predicate NudgedIn(e: Event, f: Event) { f.nudgeSentAt != e.nudgeSentAt }
  predicate WarnedIn(e: Event, f: Event) { f.unreachableNotifiedAt != e.unreachableNotifiedAt }
  predicate ClosedIn(e: Event, f: Event) { f.deadlineFiredAt != e.deadlineFiredAt }

  /** What each of the four acts tells about the event and the tick. */
  predicate ActsOf(e: Event, f: Event, reachable: nat, now: Time, cfg: Config) {
    && (AskedIn(e, f) ==> e.reminderSentAt.None? && f.reminderSentAt == Some(now) && reachable > 0)
    && (NudgedIn(e, f) ==> !AskedIn(e, f) && e.reminderSentAt.Some? && now < e.startsAt - cfg.deadlineLead - CONFIRM_GRACE)
    && (WarnedIn(e, f) ==> !AskedIn(e, f) && e.reminderSentAt.None? && reachable == 0 && now < e.startsAt - cfg.deadlineLead)
    && (ClosedIn(e, f) ==> !AskedIn(e, f) && (e.reminderSentAt.None? ==> reachable == 0) && e.startsAt - cfg.deadlineLead <= now)
  }

  /** The dead-man switch had its reasons. */
  predicate Justified(e: Event, reachable: nat, now: Time, cfg: Config) {
    && e.status == Scheduled && e.cancelIfSilent
    && e.startsAt - cfg.deadlineLead <= now <= e.startsAt
    && (e.reminderSentAt.None? ==> reachable == 0)
    && (e.reminderSentAt.Some? ==> now - e.reminderSentAt.value >= CONFIRM_GRACE)
  }

  predicate TickedEvent(e: Event, f: Event, reachable: nat, now: Time, cfg: Config) {
    && f.id == e.id && f.startsAt == e.startsAt && f.cancelIfSilent == e.cancelIfSilent
    && ActsOf(e, f, reachable, now, cfg)
    && (f.status == e.status || (f.status == Cancelled && Justified(e, reachable, now, cfg)))
  }

  predicate SameStaff(s: State, t: State) {
    s.people == t.people && s.assignments == t.assignments
  }

  predicate Ticked(s: State, t: State, now: Time, cfg: Config) {
    && SameStaff(s, t) && |s.events| == |t.events|
    && forall i | 0 <= i < |s.events| :: TickedEvent(s.events[i], t.events[i], |Reachable(s, s.events[i].id)|, now, cfg)
  }

  lemma ActTicked(e: Event, s: State, k: nat, a: Action, op: Op, cfg: Config)
    requires op.TickOp? && Can(s, a, op, cfg) && Touches(a) && a.k == k && k < |s.events|
    requires TickedEvent(e, s.events[k], |Reachable(s, e.id)|, op.now, cfg)
    ensures TickedEvent(e, Do(s, a, op, cfg).events[k], |Reachable(s, e.id)|, op.now, cfg)
  {
  }

  lemma DoTicked(s: State, t: State, a: Action, op: Op, cfg: Config)
    requires op.TickOp? && Ticked(s, t, op.now, cfg) && Can(t, a, op, cfg)
    ensures Ticked(s, Do(t, a, op, cfg), op.now, cfg)
  {
    var u := Do(t, a, op, cfg);
    if Touches(a) {
      TouchKeeps(t, a, op, cfg);
      ActTicked(s.events[a.k], t, a.k, a, op, cfg);
      TouchStaff(t, a, op, cfg);
    }
  }

  lemma TouchStaff(t: State, a: Action, op: Op, cfg: Config)
    requires Can(t, a, op, cfg) && Touches(a)
    ensures SameStaff(t, Do(t, a, op, cfg))
  {
  }

  lemma {:induction false} PathTicked(s: State, path: seq<Action>, op: Op, cfg: Config)
    requires op.TickOp?
    ensures Ticked(s, End(s, path, op, cfg), op.now, cfg)
  {
    if path != [] {
      var t := End(s, path[..|path| - 1], op, cfg);
      PathTicked(s, path[..|path| - 1], op, cfg);
      if Can(t, path[|path| - 1], op, cfg) {
        DoTicked(s, t, path[|path| - 1], op, cfg);
      }
    }
  }

  lemma TickIsTicked(s: State, op: Op, cfg: Config)
    requires Sound(s) && op.TickOp?
    ensures Ticked(s, Apply(s, op, cfg), op.now, cfg)
  {
    ApplyLeads(s, op, cfg);
    var path :| End(s, path, op, cfg) == Apply(s, op, cfg);
    PathTicked(s, path, op, cfg);
  }

  /** Whatever the order of the configured leads, no tick does two of the four to one event. */
  lemma OneActPerTick(s: State, op: Op, cfg: Config, i: nat)
    requires Sound(s) && op.TickOp? && i < |s.events|
    ensures var t := Apply(s, op, cfg);
      && |t.events| == |s.events|
      && var e, f := s.events[i], t.events[i];
      && !(AskedIn(e, f) && NudgedIn(e, f)) && !(AskedIn(e, f) && WarnedIn(e, f)) && !(AskedIn(e, f) && ClosedIn(e, f))
      && !(NudgedIn(e, f) && WarnedIn(e, f)) && !(NudgedIn(e, f) && ClosedIn(e, f)) && !(WarnedIn(e, f) && ClosedIn(e, f))
  {
    TickIsTicked(s, op, cfg);
    assert TickedEvent(s.events[i], Apply(s, op, cfg).events[i], |Reachable(s, s.events[i].id)|, op.now, cfg);
  }

  /**
    An automatic cancellation hits a scheduled event nobody confirmed in this cycle, inside the
    deadline window, and only after an ask at least the grace old or with nobody to ask.
  */
  lemma DeadManIsFair(steps: seq<Step>, op: Op, cfg: Config, i: nat)
    requires op.TickOp? && i < |Run(steps, cfg).s.events|
    requires Run(steps, cfg).s.events[i].status != Cancelled
    requires Apply(Run(steps, cfg).s, op, cfg).events[i].status == Cancelled
    ensures var s := Run(steps, cfg).s;
      var e := s.events[i];
      var c := CycleOf(s.audit, e.id);
      && e.status == Scheduled && !c.confirmed && e.cancelIfSilent
      && e.startsAt - cfg.deadlineLead <= op.now <= e.startsAt
      && ((|c.asks| == 1 && op.now - c.asks[0] >= CONFIRM_GRACE) || (c.asks == [] && Reachable(s, e.id) == []))
  {
    var s := Run(steps, cfg).s;
    AlwaysSafe(steps, cfg);
    AlwaysFaithful(steps, cfg);
    TickIsTicked(s, op, cfg);
    assert Faithful(s.events[i], s.audit);
    assert TickedEvent(s.events[i], Apply(s, op, cfg).events[i], |Reachable(s, s.events[i].id)|, op.now, cfg);
  }

  // ---- only ticks cancel on their own ----------------------------------------

  /** No new record of an automatic cancellation. */
  predicate NoAutoCancel(s: State, t: State) {
    |s.audit| <= |t.audit| && forall i | |s.audit| <= i < |t.audit| :: !(t.audit[i].EventCancelled? && t.audit[i].byDeadline)
  }

  lemma {:induction false} PathNoAutoCancel(s: State, path: seq<Action>, op: Op, cfg: Config)
    requires !op.TickOp?
    ensures NoAutoCancel(s, End(s, path, op, cfg))
  {
    if path != [] {
      var t := End(s, path[..|path| - 1], op, cfg);
      var a := path[|path| - 1];
      PathNoAutoCancel(s, path[..|path| - 1], op, cfg);
      if Can(t, a, op, cfg) {
        DoNoAutoCancel(t, a, op, cfg);
      }
    }
  }

  lemma DoNoAutoCancel(t: State, a: Action, op: Op, cfg: Config)
    requires !op.TickOp? && Can(t, a, op, cfg)
    ensures NoAutoCancel(t, Do(t, a, op, cfg)) && Do(t, a, op, cfg).audit[..|t.audit|] == t.audit
  {
    if a.Spread? {
      SkipsNeutral(Assignees(t, t.events[a.k].id), Draft(Some(t.events[a.k].id), a.purpose, Some(t.nextId), "", "", Plain));
    }
  }

  lemma OnlyTicksCancelOnTheirOwn(s: State, op: Op, cfg: Config)
    requires Sound(s) && !op.TickOp?
    ensures NoAutoCancel(s, Apply(s, op, cfg))
  {
    ApplyLeads(s, op, cfg);
    var path :| End(s, path, op, cfg) == Apply(s, op, cfg);
    PathNoAutoCancel(s, path, op, cfg);
  }
}
