/**
  Every operation is a path of actions.
*/
module Coverage {
  import opened Options
  import opened Core
  import opened Transitions
  import opened Ticks
  import opened Delivery
  import opened CalendarSync
  import opened Operations
  import opened Actions

  // ---- the parts the operations share ----------------------------------------

  lemma Asked(s: State, t: State, people: seq<Person>, d: Item, clock: Time, op: Op, cfg: Config)
    requires Leads(s, t, op, cfg)
    requires Untried(d) && d.txn.None? && d.purpose !in PROPAGATED
    ensures Leads(s, EnqueueToPeople(t, people, d, clock), op, cfg)
  {
    PeopleCopies(people, d);
    Then(s, t, Post(PeopleDrafts(people, d), clock), op, cfg);
    SkipsNeutral(people, d);
    Then(s, EnqueueAll(t, PeopleDrafts(people, d), clock), Note(PeopleSkips(people, d)), op, cfg);
  }

  lemma Fired(s: State, t: State, event: string, clock: Time, op: Op, cfg: Config)
    requires Leads(s, t, op, cfg)
    ensures Leads(s, FireWebhooks(t, event, clock), op, cfg)
  {
    WebhookRows(t.webhooks, event);
    Then(s, t, Post(WebhookDrafts(t.webhooks, event), clock), op, cfg);
  }

  lemma Logged(s: State, t: State, entry: Audit, op: Op, cfg: Config)
    requires Leads(s, t, op, cfg) && Neutral([entry])
    ensures Leads(s, Log(t, entry), op, cfg)
  {
    Then(s, t, Note([entry]), op, cfg);
  }

  lemma Paged(s: State, t: State, page: Page, clock: Time, op: Op, cfg: Config)
    requires Leads(s, t, op, cfg)
    ensures Leads(s, NotifyAdmin(t, page, cfg, clock), op, cfg)
  {
    if cfg.adminNotify.None? {
      Logged(s, t, AdminUnnotified(page), op, cfg);
    } else {
      Then(s, t, Post([Draft(None, Escalation, None, cfg.adminNotify.value.kind, cfg.adminNotify.value.to, Admin(page))], clock), op, cfg);
    }
  }

  lemma Propagated(s: State, t: State, k: nat, purpose: Purpose, hook: string, page: bool, clock: Time, op: Op, cfg: Config)
    requires Leads(s, t, op, cfg) && k < |t.events| && purpose in PROPAGATED && Propagates(op)
    requires (t.events[k].status == Cancelled <==> purpose == Cancellation) && (op.SyncOp? ==> purpose == Moved)
    ensures Leads(s, Propagate(t, k, purpose, hook, page, cfg, clock), op, cfg)
  {
    var out := FanOut(t, k, purpose, cfg, clock);
    Then(s, t, Spread(k, purpose, clock), op, cfg);
    Fired(s, out, hook, clock, op, cfg);
    var told := FireWebhooks(out, hook, clock);
    var logged := Log(told, PropagationEmpty(told.events[k].id, purpose));
    Logged(s, told, PropagationEmpty(told.events[k].id, purpose), op, cfg);
    Paged(s, logged, NobodyTold(told.events[k].id, purpose), clock, op, cfg);
  }

  lemma Created(s: State, t: State, title: string, location: string, startsAt: Time, endsAt: Option<Time>,
                cancelIfSilent: bool, uid: string, key: string, clock: Time, op: Op, cfg: Config)
    requires Leads(s, t, op, cfg)
    requires (op.CreateOp? && key == "") || (op.SyncOp? && key in KeysOf(op.occs) && FindKey(t.events, key) == |t.events|)
    ensures Leads(s, Create(t, title, location, startsAt, endsAt, cancelIfSilent, uid, key, clock), op, cfg)
  {
    var e := NewEvent(t.nextId, title, location, startsAt, endsAt, cancelIfSilent, uid, key, clock);
    Then(s, t, Enrol(e), op, cfg);
    Fired(s, Store(t, e), "event.created", clock, op, cfg);
  }

  lemma Shifted(s: State, t: State, event: Id, start: Option<Time>, end: Option<Time>, byImport: bool, clock: Time, op: Op, cfg: Config)
    requires Leads(s, t, op, cfg) && (op.SyncOp? || (op.MoveOp? && event == op.event))
    requires op.SyncOp? ==> forall k | 0 <= k < |t.events| && t.events[k].id == event :: t.events[k].sourceKey in KeysOf(op.occs)
    ensures Leads(s, MoveSpec(t, event, start, end, byImport, cfg, clock).0, op, cfg)
  {
    var k := FindEvent(t.events, event);
    if !BadMove(start, end) && k < |t.events| && t.events[k].status != Cancelled {
      Then(s, t, Shift(k, start.value, end), op, cfg);
      Propagated(s, MarkMoved(t, k, start.value, end), k, Moved, "event.moved", !byImport, clock, op, cfg);
    }
  }

  lemma CalledOff(s: State, t: State, k: nat, person: Option<Id>, byDeadline: bool, clock: Time, op: Op, cfg: Config)
    requires Leads(s, t, op, cfg) && Can(t, CallOff(k, byDeadline, clock), op, cfg)
    requires person.Some? ==> !byDeadline
    ensures Leads(s, CancelAt(t, k, person, byDeadline, cfg, clock), op, cfg)
  {
    var flipped := MarkCancelled(t, k, person, byDeadline, clock);
    if person.Some? {
      var answered := Respond(t, t.events[k].id, person, false, clock);
      Then(s, t, Answer(Response(clock, t.events[k].id, person.value, false)), op, cfg);
      Then(s, answered, CallOff(k, byDeadline, clock), op, cfg);
      assert Do(answered, CallOff(k, byDeadline, clock), op, cfg) == flipped;
    } else {
      Then(s, t, CallOff(k, byDeadline, clock), op, cfg);
    }
    Propagated(s, flipped, k, Cancellation, "event.cancelled", !byDeadline, clock, op, cfg);
  }

  // ---- one tick --------------------------------------------------------------

  lemma RemindOneLeads(s: State, t: State, i: nat, op: Op, cfg: Config)
    requires Leads(s, t, op, cfg) && i < |t.events| && op.TickOp?
    ensures Leads(s, RemindOne(t, i, op.now, cfg, op.clock), op, cfg)
  {
    var now, clock := op.now, op.clock;
    var e := t.events[i];
    var all := Assignees(t, e.id);
    if AskDue(e, now, cfg) {
      if ReachableOf(all) != [] {
        RemindAsks(s, t, i, op, cfg);
      } else if all != [] && e.unreachableNotifiedAt.None? && now < e.startsAt - cfg.deadlineLead {
        Then(s, t, Warn(i, now), op, cfg);
        Paged(s, Do(t, Warn(i, now), op, cfg), UnreachableStaff(e.id), clock, op, cfg);
      }
    }
  }

  /** What goes out with the ask, before the stamp. */
  function AskRows(t: State, e: Event, cfg: Config, clock: Time): State {
    var all := Assignees(t, e.id);
    var queued := EnqueueToPeople(t, all, Ask(e.id), clock);
    if AnyValidChannel(all, cfg) then queued
    else NotifyAdmin(Log(queued, ChannelsBroken(e.id)), BrokenChannels(e.id), cfg, clock)
  }

  lemma AskRowsLeads(s: State, t: State, e: Event, clock: Time, op: Op, cfg: Config)
    requires Leads(s, t, op, cfg)
    ensures Leads(s, AskRows(t, e, cfg, clock), op, cfg)
  {
    var all := Assignees(t, e.id);
    var queued := EnqueueToPeople(t, all, Ask(e.id), clock);
    Asked(s, t, all, Ask(e.id), clock, op, cfg);
    if !AnyValidChannel(all, cfg) {
      Logged(s, queued, ChannelsBroken(e.id), op, cfg);
      Paged(s, Log(queued, ChannelsBroken(e.id)), BrokenChannels(e.id), clock, op, cfg);
    }
  }

  /** The ask, with its stamp and record moved to the end of the path. */
  lemma RemindAsks(s: State, t: State, i: nat, op: Op, cfg: Config)
    requires Leads(s, t, op, cfg) && i < |t.events| && op.TickOp?
    requires AskDue(t.events[i], op.now, cfg) && Reachable(t, t.events[i].id) != []
    ensures Leads(s, RemindOne(t, i, op.now, cfg, op.clock), op, cfg)
  {
    var e := t.events[i];
    var rows := AskRows(t, e, cfg, op.clock);
    AskRowsLeads(s, t, e, op.clock, op, cfg);
    AskRowsKeep(t, e, cfg, op.clock);
    AskStamped(s, rows, i, op, cfg);
    var done := Log(SetEvent(rows, i, e.(reminderSentAt := Some(op.now))), ReminderSent(e.id, op.now));
    Fired(s, done, "reminder.sent", op.clock, op, cfg);
    RemindIsAsk(t, i, op.now, cfg, op.clock);
  }

  lemma AskRowsKeep(t: State, e: Event, cfg: Config, clock: Time)
    ensures var r := AskRows(t, e, cfg, clock);
      r.events == t.events && r.people == t.people && r.assignments == t.assignments
  {
  }

  lemma AskStamped(s: State, rows: State, i: nat, op: Op, cfg: Config)
    requires Leads(s, rows, op, cfg) && i < |rows.events| && op.TickOp?
    requires AskDue(rows.events[i], op.now, cfg) && Reachable(rows, rows.events[i].id) != []
    ensures var e := rows.events[i];
      Leads(s, Log(SetEvent(rows, i, e.(reminderSentAt := Some(op.now))), ReminderSent(e.id, op.now)), op, cfg)
  {
    Then(s, rows, AskStaff(i, op.now), op, cfg);
  }

  lemma RemindIsAsk(t: State, i: nat, now: Time, cfg: Config, clock: Time)
    requires i < |t.events| && AskDue(t.events[i], now, cfg) && Reachable(t, t.events[i].id) != []
    ensures var e := t.events[i];
      var rows := AskRows(t, e, cfg, clock);
      RemindOne(t, i, now, cfg, clock)
      == FireWebhooks(Log(SetEvent(rows, i, e.(reminderSentAt := Some(now))), ReminderSent(e.id, now)), "reminder.sent", clock)
  {
  }

  lemma {:induction false} RemindersLead(s: State, t: State, i: nat, op: Op, cfg: Config)
    requires Leads(s, t, op, cfg) && op.TickOp?
    ensures Leads(s, RemindersFrom(t, i, op.now, cfg, op.clock), op, cfg)
    decreases |t.events| - i
  {
    if i < |t.events| {
      RemindOneLeads(s, t, i, op, cfg);
      RemindersLead(s, RemindOne(t, i, op.now, cfg, op.clock), i + 1, op, cfg);
    }
  }

  lemma NudgeOneLeads(s: State, t: State, i: nat, op: Op, cfg: Config)
    requires Leads(s, t, op, cfg) && i < |t.events| && op.TickOp? && cfg.nudgeLead > 0
    ensures Leads(s, NudgeOne(t, i, op.now, cfg, op.clock), op, cfg)
  {
    var e := t.events[i];
    if NudgeDue(e, op.now, cfg) {
      var silent := SilentOf(Reachable(t, e.id), t.responses, e.id, e.reminderSentAt.value);
      if silent != [] {
        Asked(s, t, silent, Ask(e.id), op.clock, op, cfg);
        Then(s, EnqueueToPeople(t, silent, Ask(e.id), op.clock), Nudge(i, op.now), op, cfg);
      }
    }
  }

  lemma {:induction false} NudgesLead(s: State, t: State, i: nat, op: Op, cfg: Config)
    requires Leads(s, t, op, cfg) && op.TickOp? && cfg.nudgeLead > 0
    ensures Leads(s, NudgesFrom(t, i, op.now, cfg, op.clock), op, cfg)
    decreases |t.events| - i
  {
    if i < |t.events| {
      NudgeOneLeads(s, t, i, op, cfg);
      NudgesLead(s, NudgeOne(t, i, op.now, cfg, op.clock), i + 1, op, cfg);
    }
  }

  lemma DeadlineOneLeads(s: State, t: State, i: nat, op: Op, cfg: Config)
    requires Leads(s, t, op, cfg) && i < |t.events| && op.TickOp?
    requires Sound(s)
    ensures Leads(s, DeadlineOne(t, i, op.now, cfg, op.clock), op, cfg)
  {
    var now, clock := op.now, op.clock;
    var e := t.events[i];
    if DeadlineDue(e, |Reachable(t, e.id)|, now, cfg) {
      var fired := Log(SetEvent(t, i, e.(deadlineFiredAt := Some(now))), DeadlinePassed(e.id, now));
      var told := FireWebhooks(fired, "deadline.passed", clock);
      Then(s, t, Expire(i, now), op, cfg);
      Fired(s, fired, "deadline.passed", clock, op, cfg);
      if e.cancelIfSilent {
        LeadsSound(s, told, op, cfg);
        FindDistinct(told.events, i);
        CalledOff(s, told, i, None, true, clock, op, cfg);
        var cancelled := CancelAt(told, i, None, true, cfg, clock);
        Paged(s, cancelled, AutoCancelled(e.id, cancelled.events[i].fanOutCount == 0), clock, op, cfg);
      } else {
        Paged(s, told, NoResponse(e.id), clock, op, cfg);
      }
    }
  }

  lemma {:induction false} DeadlinesLead(s: State, t: State, i: nat, op: Op, cfg: Config)
    requires Leads(s, t, op, cfg) && op.TickOp? && Sound(s)
    ensures Leads(s, DeadlinesFrom(t, i, op.now, cfg, op.clock), op, cfg)
    decreases |t.events| - i
  {
    if i < |t.events| {
      DeadlineOneLeads(s, t, i, op, cfg);
      DeadlinesLead(s, DeadlineOne(t, i, op.now, cfg, op.clock), i + 1, op, cfg);
    }
  }

  // ---- the calendar sync -----------------------------------------------------

  lemma {:induction false} InheritLeads(s: State, t: State, series: seq<SeriesAssignment>, uid: string, op: Op, cfg: Config)
    requires Leads(s, t, op, cfg) && op.SyncOp? && t.events != [] && t.events[|t.events| - 1].sourceKey in KeysOf(op.occs)
    requires t.events[|t.events| - 1].fanOutTxn.None?
    ensures var r := InheritSeries(t, series, t.events[|t.events| - 1].id, uid);
      Leads(s, r, op, cfg) && r.events == t.events
  {
    if series != [] {
      var front := InheritSeries(t, series[..|series| - 1], t.events[|t.events| - 1].id, uid);
      var sa := series[|series| - 1];
      InheritLeads(s, t, series[..|series| - 1], uid, op, cfg);
      Then(s, front, AssignLast(sa.personId), op, cfg);
    }
  }

  lemma SyncNewLeads(s: State, t: State, o: Occurrence, op: Op, cfg: Config)
    requires Leads(s, t, op, cfg) && op.SyncOp? && o in op.occs && FindKey(t.events, o.key) == |t.events|
    ensures Leads(s, SyncNew(t, o, op.clock), op, cfg)
  {
    var created := Create(t, TitleOf(o), o.location, o.start, o.end, false, o.uid, o.key, op.clock);
    Created(s, t, TitleOf(o), o.location, o.start, o.end, false, o.uid, o.key, op.clock, op, cfg);
    InheritLeads(s, created, created.series, o.uid, op, cfg);
  }

  lemma Amended(s: State, t: State, k: nat, e: Event, op: Op, cfg: Config)
    requires Leads(s, t, op, cfg) && Can(t, Amend(k, e), op, cfg)
    ensures Leads(s, SetEvent(t, k, e), op, cfg)
  {
    Then(s, t, Amend(k, e), op, cfg);
  }

  lemma ReappearLeads(s: State, t: State, k: nat, op: Op, cfg: Config)
    requires Leads(s, t, op, cfg) && op.SyncOp? && k < |t.events| && t.events[k].status != Cancelled
    ensures Leads(s, Reappear(t, k), op, cfg)
  {
    var e := t.events[k];
    if e.vanishedAt.Some? {
      Amended(s, t, k, e.(vanishedAt := None), op, cfg);
      Logged(s, SetEvent(t, k, e.(vanishedAt := None)), ImportReappeared(e.id), op, cfg);
    }
  }

  lemma SyncMoveLeads(s: State, t: State, rep: Report, k: nat, o: Occurrence, op: Op, cfg: Config)
    requires Leads(s, t, op, cfg) && Sound(s) && op.SyncOp? && k < |t.events| && t.events[k].status != Cancelled
    requires o in op.occs && t.events[k].sourceKey == o.key
    ensures Leads(s, SyncMove(t, rep, k, o, cfg, op.clock).0, op, cfg)
  {
    var (moved, outcome) := MoveSpec(t, t.events[k].id, Some(o.start), o.end, true, cfg, op.clock);
    LeadsSound(s, t, op, cfg);
    FindDistinct(t.events, k);
    Shifted(s, t, t.events[k].id, Some(o.start), o.end, true, op.clock, op, cfg);
    if outcome == Done {
      MovedStatus(t, k, o.start, o.end, op.clock, cfg);
      var m := moved.events[k];
      Amended(s, moved, k, m.(title := TitleOf(o), location := o.location), op, cfg);
    }
  }

  lemma MovedStatus(t: State, k: nat, start: Time, end: Option<Time>, clock: Time, cfg: Config)
    requires k < |t.events|
    ensures MoveAt(t, k, start, end, true, cfg, clock).events[k].status == Scheduled
  {
  }

  lemma SyncQuietLeads(s: State, t: State, rep: Report, k: nat, o: Occurrence, op: Op, cfg: Config)
    requires Leads(s, t, op, cfg) && op.SyncOp? && k < |t.events| && t.events[k].status != Cancelled
    ensures Leads(s, SyncQuiet(t, rep, k, o).0, op, cfg)
  {
    var e := t.events[k];
    if e.endsAt != o.end || e.title != TitleOf(o) || e.location != o.location {
      var f := e.(endsAt := o.end, title := TitleOf(o), location := o.location, seqNo := e.seqNo + 1);
      Amended(s, t, k, f, op, cfg);
      Logged(s, SetEvent(t, k, f), ImportUpdated(e.id), op, cfg);
    }
  }

  lemma SyncOneLeads(s: State, t: State, rep: Report, o: Occurrence, op: Op, cfg: Config)
    requires Leads(s, t, op, cfg) && Sound(s) && op.SyncOp? && o in op.occs
    ensures Leads(s, SyncOne(t, rep, o, cfg, op.clock).0, op, cfg)
  {
    var k := FindKey(t.events, o.key);
    if k == |t.events| {
      SyncNewLeads(s, t, o, op, cfg);
    } else if t.events[k].status != Cancelled {
      ReappearLeads(s, t, k, op, cfg);
      if t.events[k].startsAt != o.start {
        SyncMoveLeads(s, Reappear(t, k), rep, k, o, op, cfg);
      } else {
        SyncQuietLeads(s, Reappear(t, k), rep, k, o, op, cfg);
      }
    }
  }

  lemma {:induction false} SyncAllLeads(s: State, t: State, rep: Report, occs: seq<Occurrence>, op: Op, cfg: Config)
    requires Leads(s, t, op, cfg) && Sound(s) && op.SyncOp? && forall o | o in occs :: o in op.occs
    ensures Leads(s, SyncAll(t, rep, occs, cfg, op.clock).0, op, cfg)
    decreases |occs|
  {
    if occs != [] {
      var (next, nextRep) := SyncOne(t, rep, occs[0], cfg, op.clock);
      SyncOneLeads(s, t, rep, occs[0], op, cfg);
      SyncAllLeads(s, next, nextRep, occs[1..], op, cfg);
    }
  }

  lemma MarkLeads(s: State, t: State, i: nat, op: Op, cfg: Config)
    requires Leads(s, t, op, cfg) && op.SyncOp? && i < |t.events| && t.events[i].status != Cancelled
    ensures var e := t.events[i];
      Leads(s, SetEvent(Log(t, ImportVanished(e.id)), i, e.(vanishedAt := Some(op.clock))), op, cfg)
  {
    var e := t.events[i];
    Logged(s, t, ImportVanished(e.id), op, cfg);
    Amended(s, Log(t, ImportVanished(e.id)), i, e.(vanishedAt := Some(op.clock)), op, cfg);
  }

  lemma {:induction false} SweepLeads(s: State, t: State, rep: Report, gone: seq<Id>, i: nat, occs: seq<Occurrence>, until: Time, op: Op, cfg: Config)
    requires Leads(s, t, op, cfg) && op.SyncOp?
    ensures Leads(s, SweepFrom(t, rep, gone, i, occs, until, op.clock).0, op, cfg)
    decreases |t.events| - i
  {
    if i < |t.events| {
      var e := t.events[i];
      if !Missing(e, KeysOf(occs), until, op.clock) {
        SweepLeads(s, t, rep, gone, i + 1, occs, until, op, cfg);
      } else if occs == [] {
        Logged(s, t, ImportSuspect, op, cfg);
      } else {
        var logged := Log(t, ImportVanished(e.id));
        var noted := rep.(vanished := rep.vanished + [e.id]);
        if e.vanishedAt.Some? {
          Logged(s, t, ImportVanished(e.id), op, cfg);
          SweepLeads(s, logged, noted, gone, i + 1, occs, until, op, cfg);
        } else {
          MarkLeads(s, t, i, op, cfg);
          SweepLeads(s, SetEvent(logged, i, e.(vanishedAt := Some(op.clock))), noted, gone + [e.id], i + 1, occs, until, op, cfg);
        }
      }
    }
  }

  lemma {:induction false} AskVanishedLeads(s: State, t: State, gone: seq<Id>, clock: Time, op: Op, cfg: Config)
    requires Leads(s, t, op, cfg)
    ensures Leads(s, AskVanished(t, gone, clock).0, op, cfg)
  {
    if gone != [] {
      var front := AskVanished(t, gone[..|gone| - 1], clock).0;
      var event := gone[|gone| - 1];
      var d := Draft(Some(event), VanishedAsk, None, "", "", Plain);
      AskVanishedLeads(s, t, gone[..|gone| - 1], clock, op, cfg);
      Asked(s, front, Reachable(front, event), d, clock, op, cfg);
      Logged(s, EnqueueToPeople(front, Reachable(front, event), d, clock), VanishedAsked(event, |Reachable(front, event)|), op, cfg);
    }
  }

  lemma SyncLeads(s: State, op: Op, cfg: Config)
    requires Sound(s) && op.SyncOp?
    ensures Leads(s, Sync(s, op.occs, op.until, cfg, op.clock).0, op, cfg)
  {
    var (synced, rep) := SyncAll(s, NO_REPORT, op.occs, cfg, op.clock);
    Stay(s, op, cfg);
    SyncAllLeads(s, s, NO_REPORT, op.occs, op, cfg);
    var (swept, rep', gone) := SweepFrom(synced, rep, [], 0, op.occs, op.until, op.clock);
    SweepLeads(s, synced, rep, [], 0, op.occs, op.until, op, cfg);
    var (asked, n) := AskVanished(swept, gone, op.clock);
    AskVanishedLeads(s, swept, gone, op.clock, op, cfg);
    Paged(s, asked, GoneFromCalendar(gone, n), op.clock, op, cfg);
    var paged := PageGone(swept, gone, cfg, op.clock);
    Paged(s, paged, SilentMoves(rep'.silent), op.clock, op, cfg);
    Logged(s, PageSilent(paged, rep'.silent, cfg, op.clock), ImportDone, op, cfg);
  }

  // ---- all operations --------------------------------------------------------

  lemma ConfirmLeads(s: State, op: Op, cfg: Config)
    requires op.ConfirmOp?
    ensures Leads(s, ConfirmSpec(s, op.event, op.person, op.clock).0, op, cfg)
  {
    var k := FindEvent(s.events, op.event);
    Stay(s, op, cfg);
    if k < |s.events| && s.events[k].status != Cancelled {
      var answered := Respond(s, op.event, op.person, true, op.clock);
      if op.person.Some? {
        Then(s, s, Answer(Response(op.clock, op.event, op.person.value, true)), op, cfg);
      }
      if s.events[k].status == Scheduled {
        Then(s, answered, Affirm(k), op, cfg);
        Fired(s, MarkConfirmed(answered, k), "event.confirmed", op.clock, op, cfg);
      }
    }
  }

  lemma TickLeads(s: State, op: Op, cfg: Config)
    requires op.TickOp? && Sound(s)
    ensures Leads(s, EventPasses(s, op.now, cfg, op.clock), op, cfg)
  {
    Stay(s, op, cfg);
    RemindersLead(s, s, 0, op, cfg);
    var reminded := RemindersFrom(s, 0, op.now, cfg, op.clock);
    if cfg.nudgeLead > 0 {
      NudgesLead(s, reminded, 0, op, cfg);
    }
    DeadlinesLead(s, Nudges(reminded, op.now, cfg, op.clock), 0, op, cfg);
  }

  lemma OnePerson(s: State, p: Person, d: Item, clock: Time)
    ensures EnqueueToPeople(s, [p], d, clock) == EnqueueToPerson(s, p, d, clock)
  {
    assert [p][..0] == [];
    assert PeopleDrafts([p], d) == [] + PersonDrafts(p, d);
    assert PeopleSkips([p], d) == [] + PersonSkips(p, d);
  }

  lemma OtherLeads(s: State, op: Op, cfg: Config)
    requires op.TestOp? || op.MessageOp? || op.StaffOp?
    ensures Leads(s, Apply(s, op, cfg), op, cfg)
  {
    Stay(s, op, cfg);
    match op
    case TestOp(person, clock) =>
      var k := FindPerson(s.people, person);
      if k < |s.people| && s.people[k].Reachable() {
        var d := Draft(None, TestMessage, None, "", "", Plain);
        OnePerson(s, s.people[k], d, clock);
        Asked(s, s, [s.people[k]], d, clock, op, cfg);
        Logged(s, EnqueueToPerson(s, s.people[k], d, clock), TestSent(person), op, cfg);
      }
    case MessageOp(kind, to, text, clock) => Then(s, s, Post([Draft(None, Other, None, kind, to, text)], clock), op, cfg);
    case StaffOp(people, assignments, series, broadcasts, guests, webhooks) =>
      Then(s, s, Restaff(people, assignments, series, broadcasts, guests, webhooks), op, cfg);
  }

  lemma ReinstateLeads(s: State, op: Op, cfg: Config)
    requires op.ReinstateOp?
    ensures Leads(s, ReinstateSpec(s, op.event, cfg, op.clock).0, op, cfg)
  {
    var k := FindEvent(s.events, op.event);
    Stay(s, op, cfg);
    if k < |s.events| && s.events[k].status == Cancelled {
      Then(s, s, Revive(k), op, cfg);
      Propagated(s, MarkReinstated(s, k), k, Reinstated, "event.reinstated", true, op.clock, op, cfg);
    }
  }

  lemma DeleteLeads(s: State, op: Op, cfg: Config)
    requires op.DeleteOp?
    ensures Leads(s, DeleteSpec(s, op.event, cfg, op.clock).0, op, cfg)
  {
    var k := FindEvent(s.events, op.event);
    Stay(s, op, cfg);
    if k < |s.events| && !DeletionRefused(s, s.events[k], cfg, op.clock) {
      Then(s, s, Forget(op.event), op, cfg);
      Fired(s, Do(s, Forget(op.event), op, cfg), "event.deleted", op.clock, op, cfg);
    }
  }

  /** Whatever an operation does, it does by actions the program allows there. */
  lemma ApplyLeads(s: State, op: Op, cfg: Config)
    requires Sound(s)
    ensures Leads(s, Apply(s, op, cfg), op, cfg)
  {
    Stay(s, op, cfg);
    match op
    case CreateOp(title, location, startsAt, endsAt, cancelIfSilent, clock) =>
      Created(s, s, title, location, startsAt, endsAt, cancelIfSilent, "", "", clock, op, cfg);
    case ConfirmOp(_, _, _) => ConfirmLeads(s, op, cfg);
    case CancelOp(event, person, clock) =>
      var k := FindEvent(s.events, event);
      if k < |s.events| && s.events[k].status != Cancelled {
        CalledOff(s, s, k, person, false, clock, op, cfg);
      }
    case MoveOp(event, start, end, clock) => Shifted(s, s, event, start, end, false, clock, op, cfg);
    case ReinstateOp(_, _) => ReinstateLeads(s, op, cfg);
    case DeleteOp(_, _) => DeleteLeads(s, op, cfg);
    case TickOp(_, _) => TickLeads(s, op, cfg);
    case SyncOp(_, _, _) => SyncLeads(s, op, cfg);
    case _ => OtherLeads(s, op, cfg);
  }

  /** No operation touches a stored row or a mark of a send that is out. */
  lemma ApplyExtends(s: State, op: Op, cfg: Config)
    requires Sound(s)
    ensures Extends(s, Apply(s, op, cfg)) && Sound(Apply(s, op, cfg))
  {
    ApplyLeads(s, op, cfg);
    var path :| End(s, path, op, cfg) == Apply(s, op, cfg);
    PathExtends(s, path, op, cfg);
    PathSound(s, path, op, cfg);
  }
}
