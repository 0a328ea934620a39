/**
  Every operation is a path of small actions. An action's guard says when the program may
  take it and inside which operation, so an invariant that holds across the actions holds
  across every operation.
*/
module Actions {
  import opened Options
  import opened Core
  import opened Transitions
  import opened Ticks
  import opened Delivery
  import opened CalendarSync
  import opened Operations

  datatype Action =
    | Post(drafts: seq<Item>, clock: Time)
    | Note(entries: seq<Audit>)
    | Restaff(people: seq<Person>, assignments: seq<Assignment>, series: seq<SeriesAssignment>,
              broadcasts: seq<Broadcast>, guests: seq<Guest>, webhooks: seq<Webhook>)
    | AssignLast(person: Id)
    | Answer(response: Response)
    | Enrol(e: Event)
    | Affirm(k: nat)
    | CallOff(k: nat, byDeadline: bool, clock: Time)
    | Shift(k: nat, start: Time, end: Option<Time>)
    | Revive(k: nat)
    | Spread(k: nat, purpose: Purpose, clock: Time)
    | AskStaff(k: nat, now: Time)
    | Warn(k: nat, now: Time)
    | Nudge(k: nat, now: Time)
    | Expire(k: nat, now: Time)
    | Amend(k: nat, e: Event)
    | Forget(id: Id)

  const PROPAGATED: set<Purpose> := {Cancellation, Moved, Reinstated}

  predicate Untried(o: Item) {
    o.attempts == 0 && o.deliveredAt.None?
  }

  /** Rows of no transaction. */
  predicate Loose(drafts: seq<Item>) {
    forall i | 0 <= i < |drafts| :: Untried(drafts[i]) && drafts[i].txn.None? && drafts[i].purpose !in PROPAGATED
  }

  /** Entries that record no step of an event's life. */
  predicate Neutral(entries: seq<Audit>) {
    forall i | 0 <= i < |entries| ::
      var a := entries[i];
      && !a.EventCreated? && !a.EventMoved? && !a.EventReinstated? && !a.EventConfirmed? && !a.EventCancelled?
      && !a.EventDeleted? && !a.ReminderSent? && !a.ReminderNudged? && !a.StaffingUnreachable? && !a.DeadlinePassed?
  }

  /** Only the quiet fields differ. */
  predicate Amends(e: Event, f: Event) {
    f == e.(title := f.title, location := f.location, endsAt := f.endsAt, seqNo := f.seqNo, vanishedAt := f.vanishedAt)
  }

  /** A scheduled event whose deadline acts, whether or not it was recorded already. */
  predicate Forfeits(e: Event, reachable: nat, now: Time, cfg: Config) {
    DeadlineDue(e.(deadlineFiredAt := None), reachable, now, cfg)
  }

  /** The operations that fan out. */
  predicate Propagates(op: Op) {
    op.CancelOp? || op.MoveOp? || op.ReinstateOp? || op.TickOp? || op.SyncOp?
  }

  /** What the program allows, operation by operation. */
  predicate Can(s: State, a: Action, op: Op, cfg: Config) {
    match a
    case Post(drafts, _) => Loose(drafts)
    case Note(entries) => Neutral(entries)
    case Restaff(people, assignments, series, broadcasts, guests, webhooks) =>
      op == StaffOp(people, assignments, series, broadcasts, guests, webhooks)
    case AssignLast(_) =>
      && op.SyncOp? && s.events != [] && s.events[|s.events| - 1].sourceKey in KeysOf(op.occs)
      && s.events[|s.events| - 1].fanOutTxn.None?
    case Answer(r) => (op.ConfirmOp? && r.eventId == op.event) || (op.CancelOp? && r.eventId == op.event)
    case Enrol(e) =>
      && e.id == s.nextId && e.status == Scheduled && e.reminderSentAt.None? && e.nudgeSentAt.None?
      && e.unreachableNotifiedAt.None? && e.deadlineFiredAt.None?
      && e.fanOutAt.None? && e.fanOutTxn.None? && e.fanOutCount == 0 && e.vanishedAt.None?
      && ((op.CreateOp? && e.sourceKey == "") || (op.SyncOp? && e.sourceKey in KeysOf(op.occs) && FindKey(s.events, e.sourceKey) == |s.events|))
    case Affirm(k) => k < |s.events| && s.events[k].status == Scheduled && op.ConfirmOp? && s.events[k].id == op.event
    case CallOff(k, byDeadline, _) =>
      && k < |s.events| && s.events[k].status != Cancelled
      && if byDeadline
         then op.TickOp? && s.events[k].cancelIfSilent && Forfeits(s.events[k], |Reachable(s, s.events[k].id)|, op.now, cfg)
         else op.CancelOp? && s.events[k].id == op.event
    case Shift(k, start, _) =>
      && k < |s.events| && s.events[k].status != Cancelled
      && ((op.SyncOp? && s.events[k].sourceKey in KeysOf(op.occs)) || (op.MoveOp? && s.events[k].id == op.event))
    case Revive(k) => k < |s.events| && s.events[k].status == Cancelled && op.ReinstateOp? && s.events[k].id == op.event
    case Spread(k, purpose, _) =>
      && k < |s.events| && purpose in PROPAGATED && Propagates(op)
      && (s.events[k].status == Cancelled <==> purpose == Cancellation) && (op.SyncOp? ==> purpose == Moved)
    case AskStaff(k, now) =>
      k < |s.events| && op.TickOp? && op.now == now && AskDue(s.events[k], now, cfg) && Reachable(s, s.events[k].id) != []
    case Warn(k, now) =>
      && k < |s.events| && op.TickOp? && op.now == now && AskDue(s.events[k], now, cfg) && Reachable(s, s.events[k].id) == []
      && s.events[k].unreachableNotifiedAt.None? && now < s.events[k].startsAt - cfg.deadlineLead
    case Nudge(k, now) =>
      k < |s.events| && op.TickOp? && op.now == now && cfg.nudgeLead > 0 && NudgeDue(s.events[k], now, cfg)
    case Expire(k, now) =>
      k < |s.events| && op.TickOp? && op.now == now && DeadlineDue(s.events[k], |Reachable(s, s.events[k].id)|, now, cfg)
    case Amend(k, e) => k < |s.events| && op.SyncOp? && s.events[k].status != Cancelled && Amends(s.events[k], e)
    case Forget(id) =>
      var k := FindEvent(s.events, id);
      op.DeleteOp? && op.event == id && k < |s.events| && !DeletionRefused(s, s.events[k], cfg, op.clock)
  }

  function Do(s: State, a: Action, op: Op, cfg: Config): State
    requires Can(s, a, op, cfg)
  {
    match a
    case Post(drafts, clock) => EnqueueAll(s, drafts, clock)
    case Note(entries) => s.(audit := s.audit + entries)
    case Restaff(people, assignments, series, broadcasts, guests, webhooks) =>
      s.(people := people, assignments := assignments, series := series,
         broadcasts := broadcasts, guests := guests, webhooks := webhooks)
    case AssignLast(person) =>
      s.(assignments := s.assignments + [Assignment(s.events[|s.events| - 1].id, person)])
    case Answer(r) => s.(responses := s.responses + [r])
    case Enrol(e) => Store(s, e)
    case Affirm(k) => MarkConfirmed(s, k)
    case CallOff(k, byDeadline, clock) => MarkCancelled(s, k, None, byDeadline, clock)
    case Shift(k, start, end) => MarkMoved(s, k, start, end)
    case Revive(k) => MarkReinstated(s, k)
    case Spread(k, purpose, clock) => FanOut(s, k, purpose, cfg, clock)
    case AskStaff(k, now) =>
      Log(SetEvent(s, k, s.events[k].(reminderSentAt := Some(now))), ReminderSent(s.events[k].id, now))
    case Warn(k, now) =>
      Log(SetEvent(s, k, s.events[k].(unreachableNotifiedAt := Some(now))), StaffingUnreachable(s.events[k].id, now))
    case Nudge(k, now) =>
      Log(SetEvent(s, k, s.events[k].(nudgeSentAt := Some(now))), ReminderNudged(s.events[k].id, now))
    case Expire(k, now) =>
      Log(SetEvent(s, k, s.events[k].(deadlineFiredAt := Some(now))), DeadlinePassed(s.events[k].id, now))
    case Amend(k, e) => SetEvent(s, k, e)
    case Forget(id) => Log(DropRowsOf(s, id), EventDeleted(id))
  }

  // ---- paths -----------------------------------------------------------------

  /** Where a path ends; an action that is not allowed is not taken. */
  function End(s: State, path: seq<Action>, op: Op, cfg: Config): State {
    if path == [] then s
    else
      var t := End(s, path[..|path| - 1], op, cfg);
      if Can(t, path[|path| - 1], op, cfg) then Do(t, path[|path| - 1], op, cfg) else t
  }

  ghost predicate Leads(s: State, t: State, op: Op, cfg: Config) {
    exists path :: End(s, path, op, cfg) == t
  }

  lemma Stay(s: State, op: Op, cfg: Config)
    ensures Leads(s, s, op, cfg)
  {
    assert End(s, [], op, cfg) == s;
  }

  /** One more action at the end. */
  lemma Then(s: State, t: State, a: Action, op: Op, cfg: Config)
    requires Leads(s, t, op, cfg) && Can(t, a, op, cfg)
    ensures Leads(s, Do(t, a, op, cfg), op, cfg)
  {
    var path :| End(s, path, op, cfg) == t;
    assert (path + [a])[..|path|] == path;
    assert End(s, path + [a], op, cfg) == Do(t, a, op, cfg);
  }

  // ---- drafts ----------------------------------------------------------------

  /** Copies of one draft, addressed differently. */
  predicate CopiesOf(drafts: seq<Item>, d: Item) {
    forall i | 0 <= i < |drafts| ::
      drafts[i].eventId == d.eventId && drafts[i].purpose == d.purpose && drafts[i].txn == d.txn
      && drafts[i].attempts == d.attempts && drafts[i].deliveredAt == d.deliveredAt && drafts[i].text == d.text
  }

  lemma {:induction false} ChannelCopies(channels: seq<Address>, person: Id, d: Item)
    ensures CopiesOf(ChannelDrafts(channels, person, d), d)
  {
    if channels != [] {
      ChannelCopies(channels[..|channels| - 1], person, d);
    }
  }

  lemma {:induction false} PeopleCopies(people: seq<Person>, d: Item)
    ensures CopiesOf(PeopleDrafts(people, d), d)
  {
    if people != [] {
      PeopleCopies(people[..|people| - 1], d);
      ChannelCopies(people[|people| - 1].channels, people[|people| - 1].id, d);
    }
  }

  lemma {:induction false} GuestCopies(guests: seq<Guest>, d: Item, cfg: Config)
    ensures CopiesOf(GuestDrafts(guests, d, cfg), d)
  {
    if guests != [] {
      GuestCopies(guests[..|guests| - 1], d, cfg);
    }
  }

  lemma FanOutCopies(s: State, event: Id, d: Item, cfg: Config)
    ensures CopiesOf(FanOutDrafts(s, event, d, cfg), d)
  {
    PeopleCopies(Assignees(s, event), d);
    GuestCopies(GuestsOf(s.guests, event), d, cfg);
  }

  lemma {:induction false} WebhookRows(hooks: seq<Webhook>, event: string)
    ensures Loose(WebhookDrafts(hooks, event))
  {
    if hooks != [] {
      WebhookRows(hooks[..|hooks| - 1], event);
    }
  }

  lemma {:induction false} SkipsNeutral(people: seq<Person>, d: Item)
    ensures Neutral(PeopleSkips(people, d))
  {
    if people != [] {
      SkipsNeutral(people[..|people| - 1], d);
    }
  }

  // ---- what every action leaves of the outbox --------------------------------

  /** New rows only: appended, with fresh increasing ids, untried and undelivered. */
  predicate Extends(s: State, t: State) {
    && |s.outbox| <= |t.outbox| && t.outbox[..|s.outbox|] == s.outbox
    && s.nextId <= t.nextId
    && s.sending == t.sending && s.sendingTo == t.sendingTo
    && (forall i | |s.outbox| <= i < |t.outbox| :: Untried(t.outbox[i]) && s.nextId <= t.outbox[i].id < t.nextId)
    && (forall i, j | |s.outbox| <= i < j < |t.outbox| :: t.outbox[i].id < t.outbox[j].id)
  }

  lemma ExtendsTrans(a: State, b: State, c: State)
    requires Extends(a, b) && Extends(b, c)
    ensures Extends(a, c)
  {
    forall i | |a.outbox| <= i < |c.outbox|
      ensures Untried(c.outbox[i]) && a.nextId <= c.outbox[i].id < c.nextId
    {
      if i < |b.outbox| {
        assert c.outbox[i] == c.outbox[..|b.outbox|][i];
      }
    }
    forall i, j | |a.outbox| <= i < j < |c.outbox|
      ensures c.outbox[i].id < c.outbox[j].id
    {
      assert i < |b.outbox| ==> c.outbox[i] == c.outbox[..|b.outbox|][i];
      assert j < |b.outbox| ==> c.outbox[j] == c.outbox[..|b.outbox|][j];
    }
    assert c.outbox[..|a.outbox|] == c.outbox[..|b.outbox|][..|a.outbox|];
  }

  lemma EnqueueExtends(s: State, drafts: seq<Item>, clock: Time)
    requires forall i | 0 <= i < |drafts| :: Untried(drafts[i])
    ensures Extends(s, EnqueueAll(s, drafts, clock))
  {
  }

  lemma NotifyExtends(s: State, page: Page, cfg: Config, clock: Time)
    ensures Extends(s, NotifyAdmin(s, page, cfg, clock))
  {
  }

  lemma SpreadExtends(s: State, k: nat, purpose: Purpose, cfg: Config, clock: Time)
    requires k < |s.events|
    ensures Extends(s, FanOut(s, k, purpose, cfg, clock))
  {
    var d := Draft(Some(s.events[k].id), purpose, Some(s.nextId), "", "", Plain);
    FanOutCopies(s, s.events[k].id, d, cfg);
    EnqueueExtends(s.(nextId := s.nextId + 1), FanOutDrafts(s, s.events[k].id, d, cfg), clock);
  }

  lemma KeptOutboxExtends(s: State, t: State)
    requires t.outbox == s.outbox && s.nextId <= t.nextId && t.sending == s.sending && t.sendingTo == s.sendingTo
    ensures Extends(s, t)
  {
  }

  lemma DoExtends(s: State, a: Action, op: Op, cfg: Config)
    requires Can(s, a, op, cfg)
    ensures Extends(s, Do(s, a, op, cfg))
  {
    if a.Spread? {
      SpreadExtends(s, a.k, a.purpose, cfg, a.clock);
    } else if a.Post? {
      EnqueueExtends(s, a.drafts, a.clock);
    } else {
      KeptOutboxExtends(s, Do(s, a, op, cfg));
    }
  }

  lemma {:induction false} PathExtends(s: State, path: seq<Action>, op: Op, cfg: Config)
    ensures Extends(s, End(s, path, op, cfg))
  {
    if path != [] {
      var t := End(s, path[..|path| - 1], op, cfg);
      var a := path[|path| - 1];
      PathExtends(s, path[..|path| - 1], op, cfg);
      if Can(t, a, op, cfg) {
        DoExtends(t, a, op, cfg);
        ExtendsTrans(s, t, End(s, path, op, cfg));
      }
    }
  }

  // ---- identities ------------------------------------------------------------

  predicate HandedOut(events: seq<Event>, next: Id) {
    forall i | 0 <= i < |events| :: events[i].id < next
  }

  predicate DistinctKeys(events: seq<Event>) {
    forall i, j | 0 <= i < j < |events| && events[i].sourceKey != "" :: events[i].sourceKey != events[j].sourceKey
  }

  /** Event ids are distinct and were handed out, and no two imported events share a key. */
  predicate Sound(s: State) {
    DistinctEventIds(s.events) && HandedOut(s.events, s.nextId) && DistinctKeys(s.events)
  }

  lemma {:induction false} FilterMembers(events: seq<Event>, id: Id)
    ensures forall e :: e in Filter(events, IsEvent(id)) <==> e in events && e.id != id
  {
    if events != [] {
      var n := |events| - 1;
      FilterMembers(events[..n], id);
      assert events == events[..n] + [events[n]];
    }
  }

  lemma {:induction false} FilterDistinct(events: seq<Event>, id: Id)
    requires DistinctEventIds(events) && DistinctKeys(events)
    ensures DistinctEventIds(Filter(events, IsEvent(id))) && DistinctKeys(Filter(events, IsEvent(id)))
  {
    if events != [] {
      var n := |events| - 1;
      FilterDistinct(events[..n], id);
      FilterMembers(events[..n], id);
      var front := Filter(events[..n], IsEvent(id));
      forall i | 0 <= i < |front|
        ensures front[i].id != events[n].id && (front[i].sourceKey != "" ==> front[i].sourceKey != events[n].sourceKey)
      {
        assert front[i] in events[..n];
      }
    }
  }

  lemma ForgetSound(s: State, id: Id)
    requires Sound(s)
    ensures Sound(DropRowsOf(s, id))
  {
    FilterDistinct(s.events, id);
    FilterMembers(s.events, id);
    var kept := Filter(s.events, IsEvent(id));
    forall i | 0 <= i < |kept| ensures kept[i].id < s.nextId {
      assert kept[i] in s.events;
    }
  }

  /** An update that keeps id and key. */
  lemma UpdateSound(s: State, k: nat, e: Event)
    requires Sound(s) && k < |s.events| && e.id == s.events[k].id && e.sourceKey == s.events[k].sourceKey
    ensures Sound(SetEvent(s, k, e))
  {
  }

  lemma EnrolSound(s: State, e: Event)
    requires Sound(s) && e.id == s.nextId
    requires e.sourceKey == "" || FindKey(s.events, e.sourceKey) == |s.events|
    ensures Sound(Store(s, e))
  {
  }

  lemma DoSound(s: State, a: Action, op: Op, cfg: Config)
    requires Sound(s) && Can(s, a, op, cfg)
    ensures Sound(Do(s, a, op, cfg))
  {
    if a.Forget? {
      ForgetSound(s, a.id);
    } else if a.Enrol? {
      EnrolSound(s, a.e);
    } else if Touches(a) {
      TouchKeeps(s, a, op, cfg);
      UpdateSound(s, a.k, Do(s, a, op, cfg).events[a.k]);
    }
  }

  /** Such an action changes the one event, and neither its id nor where it came from. */
  lemma TouchKeeps(s: State, a: Action, op: Op, cfg: Config)
    requires Can(s, a, op, cfg) && Touches(a)
    ensures var t := Do(s, a, op, cfg);
      && a.k < |s.events| == |t.events|
      && t.events == s.events[a.k := t.events[a.k]] && s.nextId <= t.nextId
      && t.events[a.k].id == s.events[a.k].id && t.events[a.k].sourceKey == s.events[a.k].sourceKey
      && t.events[a.k].sourceUid == s.events[a.k].sourceUid
  {
  }

  /** The actions that replace one event. */
  predicate Touches(a: Action) {
    a.Affirm? || a.CallOff? || a.Shift? || a.Revive? || a.Spread? || a.AskStaff? || a.Warn? || a.Nudge? || a.Expire? || a.Amend?
  }

  lemma {:induction false} PathSound(s: State, path: seq<Action>, op: Op, cfg: Config)
    requires Sound(s)
    ensures Sound(End(s, path, op, cfg))
  {
    if path != [] {
      var t := End(s, path[..|path| - 1], op, cfg);
      PathSound(s, path[..|path| - 1], op, cfg);
      if Can(t, path[|path| - 1], op, cfg) {
        DoSound(t, path[|path| - 1], op, cfg);
      }
    }
  }

  lemma LeadsSound(s: State, t: State, op: Op, cfg: Config)
    requires Sound(s) && Leads(s, t, op, cfg)
    ensures Sound(t)
  {
    var path :| End(s, path, op, cfg) == t;
    PathSound(s, path, op, cfg);
  }

  lemma FindDistinct(events: seq<Event>, i: nat)
    requires DistinctEventIds(events) && i < |events|
    ensures FindEvent(events, events[i].id) == i
  {
    var k := FindEvent(events, events[i].id);
    assert k <= i;
  }
}
