/**
  The service object (internal/core/service.go, outbox.go, views.go, import.go, delete.go):
  one mutable world behind one lock. Every method is one locked section, walks the state's
  tables in loops and assigns fields in place, and is proved to do to the abstract state
  `St()` what the functions of `Transitions`, `Ticks`, `Delivery` and `CalendarSync` say.
*/
module Services {
  import opened Options
  import opened Core
  import T = Transitions
  import K = Ticks
  import D = Delivery
  import C = CalendarSync
  import R = Redaction

  class Service {
    const cfg: Config
    var events: seq<Event>
    var people: seq<Person>
    var assignments: seq<Assignment>
    var series: seq<SeriesAssignment>
    var broadcasts: seq<Broadcast>
    var guests: seq<Guest>
    var webhooks: seq<Webhook>
    var responses: seq<Response>
    var outbox: seq<Item>
    var sending: map<Id, nat>
    var sendingTo: map<Address, int>
    var audit: seq<Audit>
    var nextId: Id

    ghost function St(): State
      reads this
    {
      State(events, people, assignments, series, broadcasts, guests, webhooks, responses,
            outbox, sending, sendingTo, audit, nextId)
    }

    constructor (cfg: Config)
      ensures St() == EMPTY_STATE && this.cfg == cfg.Filled()
    {
      this.cfg := cfg.Filled();
      events, people, assignments, series := [], [], [], [];
      broadcasts, guests, webhooks, responses := [], [], [], [];
      outbox, sending, sendingTo, audit, nextId := [], map[], map[], [], 0;
    }

    method NewId() returns (id: Id)
      modifies this`nextId
      ensures id == old(nextId) && nextId == old(nextId) + 1
    {
      id := nextId;
      nextId := nextId + 1;
    }

    method Log(entry: Audit)
      modifies this`audit
      ensures St() == T.Log(old(St()), entry)
    {
      audit := audit + [entry];
    }

    // ---- enqueueing ------------------------------------------------------------

    method Enqueue(draft: Item, clock: Time) returns (id: Id)
      modifies this
      ensures St() == T.EnqueueAll(old(St()), [draft], clock)
      ensures id == old(nextId)
    {
      id := NewId();
      var row := draft.(id := id, createdAt := clock, nextAttempt := clock);
      outbox := outbox + [row];
      assert [row] == T.Stamp([draft], old(nextId), clock);
    }

    method EnqueueToPerson(p: Person, d: Item, clock: Time) returns (ids: set<Id>)
      modifies this
      ensures St() == T.EnqueueToPerson(old(St()), p, d, clock)
      ensures |outbox| >= |old(outbox)|
      ensures ids == set o | o in outbox[|old(outbox)|..] :: o.id
    {
      ids := {};
      if !p.Reachable() {
        UnreachableHasNoDrafts(p.channels, p.id, d);
        Log(DeliverySkipped(d.eventId, p.id));
        return;
      }
      ghost var s := St();
      for i := 0 to |p.channels|
        invariant St() == T.EnqueueAll(s, T.ChannelDrafts(p.channels[..i], p.id, d), clock)
        invariant |outbox| >= |s.outbox| && ids == set o | o in outbox[|s.outbox|..] :: o.id
      {
        assert p.channels[..i + 1][..i] == p.channels[..i];
        ids := EnqueueToChannel(p.channels[i], p.id, d, clock, ids, |s.outbox|);
        T.EnqueueTwice(s, T.ChannelDrafts(p.channels[..i], p.id, d), ChannelDraft(p.channels[i], p.id, d), clock);
      }
      assert p.channels[..|p.channels|] == p.channels;
    }

    /** One channel: a row if it can carry a message. */
    method EnqueueToChannel(ch: Address, person: Id, d: Item, clock: Time, before: set<Id>, ghost n: nat) returns (ids: set<Id>)
      requires n <= |outbox| && before == set o | o in outbox[n..] :: o.id
      modifies this
      ensures St() == T.EnqueueAll(old(St()), ChannelDraft(ch, person, d), clock)
      ensures n <= |outbox| && ids == set o | o in outbox[n..] :: o.id
    {
      ids := before;
      if ch.Usable() {
        var id := Enqueue(d.(personId := Some(person), kind := ch.kind, to := ch.to), clock);
        NewestId(old(outbox), outbox, n, before, id);
        ids := ids + {id};
      } else {
        assert outbox + [] == outbox;
      }
    }

    method EnqueueToPeople(ps: seq<Person>, d: Item, clock: Time)
      modifies this
      ensures St() == T.EnqueueToPeople(old(St()), ps, d, clock)
    {
      ghost var s := St();
      for i := 0 to |ps|
        invariant St() == T.EnqueueToPeople(s, ps[..i], d, clock)
      {
        assert ps[..i + 1][..i] == ps[..i];
        T.EnqueueTwice(s, T.PeopleDrafts(ps[..i], d), T.PersonDrafts(ps[i], d), clock);
        var _ := EnqueueToPerson(ps[i], d, clock);
      }
      assert ps[..|ps|] == ps;
    }

    method FireWebhooks(event: string, clock: Time)
      modifies this
      ensures St() == T.FireWebhooks(old(St()), event, clock)
    {
      ghost var s := St();
      for i := 0 to |webhooks|
        invariant webhooks == s.webhooks
        invariant St() == T.EnqueueAll(s, T.WebhookDrafts(webhooks[..i], event), clock)
      {
        assert webhooks[..i + 1][..i] == webhooks[..i];
        if WebhookMatches(webhooks[i], event) {
          var draft := T.Draft(None, WebhookCall, None, "webhook", webhooks[i].url, Plain);
          T.EnqueueTwice(s, T.WebhookDrafts(webhooks[..i], event), [draft], clock);
          var _ := Enqueue(draft, clock);
        }
      }
      assert webhooks[..|webhooks|] == webhooks;
    }

    method NotifyAdmin(page: Page, clock: Time)
      modifies this
      ensures St() == T.NotifyAdmin(old(St()), page, cfg, clock)
    {
      if cfg.adminNotify.None? {
        Log(AdminUnnotified(page));
      } else {
        var _ := Enqueue(T.Draft(None, Escalation, None, cfg.adminNotify.value.kind, cfg.adminNotify.value.to, Admin(page)), clock);
      }
    }

    // ---- scans -----------------------------------------------------------------

    method EventIndex(id: Id) returns (k: nat)
      ensures k == FindEvent(events, id)
    {
      k := 0;
      while k < |events| && events[k].id != id
        invariant k <= |events|
        invariant FindEvent(events, id) == k + FindEvent(events[k..], id)
      {
        assert events[k..][1..] == events[k + 1..];
        k := k + 1;
      }
    }

    method KeyIndex(key: string) returns (k: nat)
      ensures k == FindKey(events, key)
    {
      k := 0;
      while k < |events| && events[k].sourceKey != key
        invariant k <= |events|
        invariant FindKey(events, key) == k + FindKey(events[k..], key)
      {
        assert events[k..][1..] == events[k + 1..];
        k := k + 1;
      }
    }

    method PersonIndex(id: Id) returns (k: nat)
      ensures k == FindPerson(people, id)
    {
      k := 0;
      while k < |people| && people[k].id != id
        invariant k <= |people|
        invariant FindPerson(people, id) == k + FindPerson(people[k..], id)
      {
        assert people[k..][1..] == people[k + 1..];
        k := k + 1;
      }
    }

    method ItemIndex(id: Id) returns (k: nat)
      ensures k == FindItem(outbox, id)
    {
      k := 0;
      while k < |outbox| && outbox[k].id != id
        invariant k <= |outbox|
        invariant FindItem(outbox, id) == k + FindItem(outbox[k..], id)
      {
        assert outbox[k..][1..] == outbox[k + 1..];
        k := k + 1;
      }
    }

    method AssigneesOf(event: Id) returns (out: seq<Person>)
      ensures out == Assignees(St(), event)
    {
      out := [];
      for i := 0 to |assignments|
        invariant out == AssigneesIn(assignments[..i], people, event)
      {
        assert assignments[..i + 1][..i] == assignments[..i];
        if assignments[i].eventId == event {
          var k := PersonIndex(assignments[i].personId);
          if k < |people| {
            out := out + [people[k]];
          }
        }
      }
      assert assignments[..|assignments|] == assignments;
    }

    method ReachableAmong(all: seq<Person>) returns (reachable: seq<Person>)
      ensures reachable == ReachableOf(all)
    {
      reachable := [];
      for i := 0 to |all|
        invariant reachable == ReachableOf(all[..i])
      {
        assert all[..i + 1][..i] == all[..i];
        if all[i].Reachable() {
          reachable := reachable + [all[i]];
        }
      }
      assert all[..|all|] == all;
    }

    method GuestsFor(event: Id) returns (out: seq<Guest>)
      ensures out == GuestsOf(guests, event)
    {
      out := [];
      for i := 0 to |guests|
        invariant out == GuestsOf(guests[..i], event)
      {
        assert guests[..i + 1][..i] == guests[..i];
        if guests[i].eventId == event {
          out := out + [guests[i]];
        }
      }
      assert guests[..|guests|] == guests;
    }

    // ---- the propagation transaction -------------------------------------------

    method EnqueueBroadcasts(d: Item, clock: Time) returns (n: nat)
      modifies this
      ensures St() == T.EnqueueAll(old(St()), T.BroadcastDrafts(broadcasts, d), clock)
      ensures n == |broadcasts|
    {
      ghost var s := St();
      n := 0;
      for i := 0 to |broadcasts|
        invariant broadcasts == s.broadcasts && n == i
        invariant St() == T.EnqueueAll(s, T.BroadcastDrafts(broadcasts[..i], d), clock)
      {
        var draft := d.(kind := broadcasts[i].kind, to := broadcasts[i].to);
        assert T.BroadcastDrafts(broadcasts[..i], d) + [draft] == T.BroadcastDrafts(broadcasts[..i + 1], d);
        T.EnqueueTwice(s, T.BroadcastDrafts(broadcasts[..i], d), [draft], clock);
        var _ := Enqueue(draft, clock);
        n := n + 1;
      }
      assert broadcasts[..|broadcasts|] == broadcasts;
    }

    method EnqueueGuests(event: Id, d: Item, clock: Time) returns (n: nat)
      modifies this
      ensures St() == T.EnqueueAll(old(St()), T.GuestDrafts(GuestsOf(guests, event), d, cfg), clock)
      ensures n == |T.GuestDrafts(GuestsOf(guests, event), d, cfg)|
    {
      ghost var s := St();
      var mine := GuestsFor(event);
      var seen: set<string> := {};
      n := 0;
      for i := 0 to |mine|
        invariant St() == T.EnqueueAll(s, T.GuestDrafts(mine[..i], d, cfg), clock)
        invariant seen == T.Folded(mine[..i], cfg)
        invariant n == |T.GuestDrafts(mine[..i], d, cfg)|
      {
        assert mine[..i + 1] == mine[..i] + [mine[i]];
        GuestMore(s, mine[..i], mine[i], mine[..i + 1], d, cfg, clock);
        var key := cfg.foldCase(mine[i].email);
        if mine[i].email != "" && key !in seen {
          seen := seen + {key};
          var _ := Enqueue(GuestDraft(mine[i], d), clock);
          n := n + 1;
        }
      }
      assert mine[..|mine|] == mine;
    }

    method EnqueueFanOut(event: Id, d: Item, clock: Time) returns (n: nat)
      modifies this
      ensures St() == T.EnqueueFanOut(old(St()), event, d, cfg, clock)
      ensures n == |T.FanOutDrafts(old(St()), event, d, cfg)|
    {
      ghost var s := St();
      n := EnqueueBroadcasts(d, clock);
      var staff := AssigneesOf(event);
      var before := |outbox|;
      EnqueueToPeople(staff, d, clock);
      n := n + (|outbox| - before);
      ghost var a, b := T.BroadcastDrafts(s.broadcasts, d), T.PeopleDrafts(staff, d);
      T.EnqueueTwice(s, a, b, clock);
      assert St() == T.EnqueueAll(s, a + b, clock).(audit := s.audit + T.PeopleSkips(staff, d));
      var m := EnqueueGuests(event, d, clock);
      n := n + m;
      T.EnqueueTwice(s, a + b, T.GuestDrafts(GuestsOf(s.guests, event), d, cfg), clock);
    }

    /** Enqueue one row per recipient under one fresh transaction id and record it on the event. */
    method FanOut(k: nat, purpose: Purpose, clock: Time) returns (n: nat)
      requires k < |events|
      modifies this
      ensures St() == T.FanOut(old(St()), k, purpose, cfg, clock)
      ensures |events| == |old(events)| && n == events[k].fanOutCount
    {
      ghost var s := St();
      var txn := NewId();
      var e := events[k];
      FanOutIs(s, k, purpose, cfg, clock);
      n := EnqueueFanOut(e.id, T.Draft(Some(e.id), purpose, Some(txn), "", "", Plain), clock);
      events := events[k := e.(fanOutAt := Some(clock), fanOutCount := n, fanOutTxn := Some(txn))];
    }

    method Propagate(k: nat, purpose: Purpose, hook: string, page: bool, clock: Time)
      requires k < |events|
      modifies this
      ensures St() == T.Propagate(old(St()), k, purpose, hook, page, cfg, clock)
    {
      var n := FanOut(k, purpose, clock);
      FireWebhooks(hook, clock);
      AlarmIfNobodyTold(k, purpose, n, page, clock);
    }

    method AlarmIfNobodyTold(k: nat, purpose: Purpose, n: nat, page: bool, clock: Time)
      requires k < |events| && n == events[k].fanOutCount
      modifies this
      ensures St() == T.AlarmIfNobodyTold(old(St()), k, purpose, page, cfg, clock)
    {
      if n > 0 {
        return;
      }
      Log(PropagationEmpty(events[k].id, purpose));
      if page {
        NotifyAdmin(NobodyTold(events[k].id, purpose), clock);
      }
    }

    // ---- transitions -----------------------------------------------------------

    method Create(title: string, location: string, startsAt: Time, endsAt: Option<Time>,
                  cancelIfSilent: bool, sourceUid: string, sourceKey: string, clock: Time)
      returns (id: Id)
      modifies this
      ensures St() == T.Create(old(St()), title, location, startsAt, endsAt, cancelIfSilent, sourceUid, sourceKey, clock)
      ensures id == old(nextId)
    {
      id := NewId();
      events := events + [T.NewEvent(id, title, location, startsAt, endsAt, cancelIfSilent, sourceUid, sourceKey, clock)];
      Log(EventCreated(id));
      FireWebhooks("event.created", clock);
    }

    method RecordResponse(event: Id, person: Option<Id>, confirms: bool, clock: Time)
      modifies this`responses
      ensures St() == T.Respond(old(St()), event, person, confirms, clock)
    {
      if person.Some? {
        responses := responses + [Response(clock, event, person.value, confirms)];
      }
    }

    method Confirm(event: Id, person: Option<Id>, clock: Time) returns (outcome: T.Outcome)
      modifies this
      ensures (St(), outcome) == T.ConfirmSpec(old(St()), event, person, clock)
    {
      var k := EventIndex(event);
      if k == |events| {
        return T.NotFound;
      }
      if events[k].status == Cancelled {
        return T.AlreadyCancelled;
      }
      RecordResponse(event, person, true, clock);
      if events[k].status == Scheduled {
        events := events[k := events[k].(status := Confirmed, seqNo := events[k].seqNo + 1)];
        Log(EventConfirmed(event));
        FireWebhooks("event.confirmed", clock);
      }
      return T.Done;
    }

    method Cancel(event: Id, person: Option<Id>, byDeadline: bool, clock: Time) returns (outcome: T.Outcome)
      modifies this
      ensures (St(), outcome) == T.CancelSpec(old(St()), event, person, byDeadline, cfg, clock)
      ensures |events| == |old(events)|
    {
      var k := EventIndex(event);
      if k == |events| {
        return T.NotFound;
      }
      if events[k].status == Cancelled {
        return T.AlreadyCancelled;
      }
      events := events[k := events[k].(status := Cancelled, cancelledAt := Some(clock), seqNo := events[k].seqNo + 1)];
      RecordResponse(event, person, false, clock);
      Log(EventCancelled(event, byDeadline));
      assert St() == T.MarkCancelled(old(St()), k, person, byDeadline, clock);
      Propagate(k, Cancellation, "event.cancelled", !byDeadline, clock);
      return T.Done;
    }

    method Move(event: Id, start: Option<Time>, end: Option<Time>, byImport: bool, clock: Time) returns (outcome: T.Outcome)
      modifies this
      ensures (St(), outcome) == T.MoveSpec(old(St()), event, start, end, byImport, cfg, clock)
      ensures |events| == |old(events)|
    {
      if start.None? {
        return T.Refused;
      }
      if end.Some? && end.value < start.value {
        return T.Refused;
      }
      var k := EventIndex(event);
      if k == |events| {
        return T.NotFound;
      }
      if events[k].status == Cancelled {
        return T.AlreadyCancelled;
      }
      var e := events[k];
      e := e.(startsAt := start.value, endsAt := end, seqNo := e.seqNo + 1, status := Scheduled);
      e := e.(reminderSentAt := None, nudgeSentAt := None, deadlineFiredAt := None, unreachableNotifiedAt := None);
      events := events[k := e];
      Log(EventMoved(event));
      assert St() == T.MarkMoved(old(St()), k, start.value, end);
      Propagate(k, Moved, "event.moved", !byImport, clock);
      return T.Done;
    }

    method Reinstate(event: Id, clock: Time) returns (outcome: T.Outcome)
      modifies this
      ensures (St(), outcome) == T.ReinstateSpec(old(St()), event, cfg, clock)
    {
      var k := EventIndex(event);
      if k == |events| {
        return T.NotFound;
      }
      if events[k].status != Cancelled {
        return T.NotCancelled;
      }
      var e := events[k];
      e := e.(status := Scheduled, cancelledAt := None, seqNo := e.seqNo + 1);
      e := e.(reminderSentAt := None, nudgeSentAt := None, deadlineFiredAt := None, unreachableNotifiedAt := None);
      events := events[k := e];
      Log(EventReinstated(event));
      assert St() == T.MarkReinstated(old(St()), k);
      Propagate(k, Reinstated, "event.reinstated", true, clock);
      return T.Done;
    }

    // ---- the event passes of a tick --------------------------------------------

    method TickReminders(now: Time, clock: Time)
      modifies this
      ensures St() == K.RemindersFrom(old(St()), 0, now, cfg, clock)
    {
      ghost var s := St();
      var i := 0;
      while i < |events|
        invariant K.RemindersFrom(St(), i, now, cfg, clock) == K.RemindersFrom(s, 0, now, cfg, clock)
        decreases |s.events| - i
        invariant |events| == |s.events|
      {
        ghost var before := St();
        RemindEvent(i, now, clock);
        assert K.RemindersFrom(before, i, now, cfg, clock) == K.RemindersFrom(St(), i + 1, now, cfg, clock);
        i := i + 1;
      }
    }

    /** The body of the reminder loop for the i-th event. */
    method RemindEvent(i: nat, now: Time, clock: Time)
      requires i < |events|
      modifies this
      ensures St() == K.RemindOne(old(St()), i, now, cfg, clock)
    {
      var e := events[i];
      if e.status != Scheduled || e.reminderSentAt.Some? {
        return;
      }
      if now < e.startsAt - cfg.reminderLead || now > e.startsAt {
        return;
      }
      var all := AssigneesOf(e.id);
      var reachable := ReachableAmong(all);
      if |reachable| == 0 {
        if |all| > 0 && e.unreachableNotifiedAt.None? && now < e.startsAt - cfg.deadlineLead {
          events := events[i := e.(unreachableNotifiedAt := Some(now))];
          Log(StaffingUnreachable(e.id, now));
          NotifyAdmin(UnreachableStaff(e.id), clock);
        }
        return;
      }
      EnqueueToPeople(all, K.Ask(e.id), clock);
      events := events[i := e.(reminderSentAt := Some(now))];
      if !K.AnyValidChannel(all, cfg) {
        Log(ChannelsBroken(e.id));
        NotifyAdmin(BrokenChannels(e.id), clock);
      }
      Log(ReminderSent(e.id, now));
      FireWebhooks("reminder.sent", clock);
    }

    method SilentAmong(reachable: seq<Person>, event: Id, since: Time) returns (silent: seq<Person>)
      ensures silent == K.SilentOf(reachable, responses, event, since)
    {
      silent := [];
      for i := 0 to |reachable|
        invariant silent == K.SilentOf(reachable[..i], responses, event, since)
      {
        assert reachable[..i + 1][..i] == reachable[..i];
        var answered := AnsweredSince(event, reachable[i].id, since);
        if !answered {
          silent := silent + [reachable[i]];
        }
      }
      assert reachable[..|reachable|] == reachable;
    }

    method AnsweredSince(event: Id, person: Id, since: Time) returns (answered: bool)
      ensures answered == K.Answered(responses, event, person, since)
    {
      for i := 0 to |responses|
        invariant forall j | 0 <= j < i ::
          !(responses[j].eventId == event && responses[j].personId == person && responses[j].at >= since)
      {
        var r := responses[i];
        if r.eventId == event && r.personId == person && r.at >= since {
          return true;
        }
      }
      return false;
    }

    method TickNudges(now: Time, clock: Time)
      modifies this
      ensures St() == K.Nudges(old(St()), now, cfg, clock)
    {
      if cfg.nudgeLead <= 0 {
        return;
      }
      ghost var s := St();
      var i := 0;
      while i < |events|
        invariant K.NudgesFrom(St(), i, now, cfg, clock) == K.NudgesFrom(s, 0, now, cfg, clock)
        decreases |s.events| - i
        invariant |events| == |s.events|
      {
        ghost var before := St();
        NudgeEvent(i, now, clock);
        assert K.NudgesFrom(before, i, now, cfg, clock) == K.NudgesFrom(St(), i + 1, now, cfg, clock);
        i := i + 1;
      }
    }

    /** The body of the nudge loop for the i-th event. */
    method NudgeEvent(i: nat, now: Time, clock: Time)
      requires i < |events|
      modifies this
      ensures St() == K.NudgeOne(old(St()), i, now, cfg, clock)
    {
      var e := events[i];
      if e.status != Scheduled || e.reminderSentAt.None? || e.nudgeSentAt.Some? {
        return;
      }
      var nudgeAt := e.startsAt - cfg.nudgeLead;
      if now < nudgeAt || !(e.reminderSentAt.value < nudgeAt) || now - e.reminderSentAt.value < CONFIRM_GRACE {
        return;
      }
      if !(now < e.startsAt - cfg.deadlineLead - CONFIRM_GRACE) {
        return;
      }
      var all := AssigneesOf(e.id);
      var reachable := ReachableAmong(all);
      var silent := SilentAmong(reachable, e.id, e.reminderSentAt.value);
      if |silent| == 0 {
        return;
      }
      EnqueueToPeople(silent, K.Ask(e.id), clock);
      events := events[i := e.(nudgeSentAt := Some(now))];
      Log(ReminderNudged(e.id, now));
    }

    method TickDeadlines(now: Time, clock: Time)
      modifies this
      ensures St() == K.DeadlinesFrom(old(St()), 0, now, cfg, clock)
    {
      ghost var s := St();
      var i := 0;
      while i < |events|
        invariant K.DeadlinesFrom(St(), i, now, cfg, clock) == K.DeadlinesFrom(s, 0, now, cfg, clock)
        decreases |s.events| - i
        invariant |events| == |s.events|
      {
        ghost var before := St();
        DeadlineEvent(i, now, clock);
        assert K.DeadlinesFrom(before, i, now, cfg, clock) == K.DeadlinesFrom(St(), i + 1, now, cfg, clock);
        i := i + 1;
      }
    }

    /** The body of the deadline loop for the i-th event. */
    method DeadlineEvent(i: nat, now: Time, clock: Time)
      requires i < |events|
      modifies this
      ensures St() == K.DeadlineOne(old(St()), i, now, cfg, clock)
    {
      var e := events[i];
      if e.status != Scheduled || e.deadlineFiredAt.Some? {
        return;
      }
      var all := AssigneesOf(e.id);
      var reachable := ReachableAmong(all);
      if e.reminderSentAt.None? && |reachable| > 0 {
        return;
      }
      if e.reminderSentAt.Some? && now - e.reminderSentAt.value < CONFIRM_GRACE {
        return;
      }
      if now < e.startsAt - cfg.deadlineLead || now > e.startsAt {
        return;
      }
      events := events[i := e.(deadlineFiredAt := Some(now))];
      Log(DeadlinePassed(e.id, now));
      FireWebhooks("deadline.passed", clock);
      if e.cancelIfSilent {
        var outcome := Cancel(e.id, None, true, clock);
        if outcome == T.Done {
          NotifyAdmin(AutoCancelled(e.id, events[i].fanOutCount == 0), clock);
        }
      } else {
        NotifyAdmin(NoResponse(e.id), clock);
      }
    }

    // ---- delivery --------------------------------------------------------------

    /**
      The selection step for one row: `mine` holds the recipients this pass has already
      taken, and only an earlier pass's sends keep a recipient from being taken.
    */
    method TakeIfDue(o: Item, now: Time, only: Option<set<Id>>, mine: set<Address>) returns (taken: bool, after: set<Address>)
      modifies this`sending, this`sendingTo
      ensures var who := D.RecipientKey(o.kind, o.to);
        && taken == (D.Due(o, now, only, cfg) && !(D.Sending(old(sendingTo), who) > 0 && who !in mine))
        && after == (if taken then mine + {who} else mine)
        && sending == (if taken then old(sending)[o.id := 0] else old(sending))
        && sendingTo == (if taken then old(sendingTo)[who := D.Sending(old(sendingTo), who) + 1] else old(sendingTo))
    {
      taken, after := false, mine;
      if o.Delivered() {
        return;
      }
      if only.Some? && o.id !in only.value {
        return;
      }
      if o.attempts >= cfg.maxAttempts || now < o.nextAttempt {
        return;
      }
      var who := D.RecipientKey(o.kind, o.to);
      if D.Sending(sendingTo, who) > 0 && who !in mine {
        return;
      }
      taken, after := true, mine + {who};
      sending := sending[o.id := 0];
      sendingTo := sendingTo[who := D.Sending(sendingTo, who) + 1];
    }

    /** Mark a row that has been undelivered for too long, once. */
    method EscalateIfStuck(i: nat, now: Time) returns (late: bool)
      requires i < |outbox|
      modifies this`outbox
      ensures late == D.Stuck(old(outbox)[i], now, cfg)
      ensures outbox == if late then old(outbox)[i := old(outbox)[i].(escalatedAt := Some(now))] else old(outbox)
    {
      var o := outbox[i];
      late := !o.Delivered() && o.escalatedAt.None? && o.purpose != Escalation && now - o.createdAt >= cfg.escalateAfter;
      if late {
        outbox := outbox[i := o.(escalatedAt := Some(now))];
      }
    }

    /** The body of the selection loop for the i-th row. */
    method ScanRow(i: nat, now: Time, only: Option<set<Id>>, mine: set<Address>, attempts: seq<D.Attempt>, stuck: seq<Id>)
      returns (mine': set<Address>, attempts': seq<D.Attempt>, stuck': seq<Id>)
      requires i < |outbox|
      modifies this`outbox, this`sending, this`sendingTo
      ensures |outbox| == |old(outbox)|
      ensures D.Scan(outbox, sending, sendingTo, mine', attempts', stuck')
        == var before := D.Scan(old(outbox), old(sending), old(sendingTo), mine, attempts, stuck);
           D.ScanSelection(D.ScanEscalation(before, i, now, cfg), old(outbox)[i], now, only, cfg)
    {
      mine', attempts', stuck' := mine, attempts, stuck;
      var o := outbox[i];
      var late := EscalateIfStuck(i, now);
      if late {
        stuck' := stuck' + [o.id];
      }
      var taken;
      taken, mine' := TakeIfDue(o, now, only, mine');
      if taken {
        attempts' := attempts' + [D.AttemptOf(o)];
      }
    }

    /** The selection loop: escalation marks, the due rows in queue order, and their marks. */
    method SelectDue(now: Time, only: Option<set<Id>>) returns (attempts: seq<D.Attempt>, stuck: seq<Id>)
      modifies this`outbox, this`sending, this`sendingTo
      ensures (St(), attempts) == D.Select(old(St()), now, only, cfg)
      ensures stuck == D.StuckRows(old(outbox), now, cfg)
    {
      ghost var s := St();
      var mine: set<Address> := {};
      stuck := [];
      attempts := [];
      for i := 0 to |outbox|
        invariant |outbox| == |s.outbox|
        invariant D.Scan(outbox, sending, sendingTo, mine, attempts, stuck) == D.ScanTo(s, i, now, only, cfg)
      {
        mine, attempts, stuck := ScanRow(i, now, only, mine, attempts, stuck);
      }
      D.ScanIsSelect(s, now, only, cfg);
    }

    /** Page the admin about stuck rows; the pages go out with a later pass. */
    method PageStuck(stuck: seq<Id>, clock: Time)
      modifies this
      ensures St() == D.PageStuck(old(St()), stuck, cfg, clock)
    {
      ghost var s := St();
      for i := 0 to |stuck|
        invariant St() == D.PageStuck(s, stuck[..i], cfg, clock)
      {
        assert stuck[..i + 1][..i] == stuck[..i];
        NotifyAdmin(DeliveryStuck(stuck[i]), clock);
      }
      assert stuck[..|stuck|] == stuck;
    }

    /** Escalate stuck rows, pick the due ones and mark them as being sent. */
    method CollectOutbox(now: Time, only: Option<set<Id>>, clock: Time) returns (attempts: seq<D.Attempt>)
      modifies this
      ensures (St(), attempts) == D.Collect(old(St()), now, only, cfg, clock)
    {
      var stuck;
      attempts, stuck := SelectDue(now, only);
      PageStuck(stuck, clock);
    }

    /** Book a finished pass; every row is looked up again by its id. */
    method RecordDeliveries(now: Time, results: seq<D.Result>, clock: Time)
      modifies this
      ensures St() == D.Book(old(St()), results, now, clock, cfg)
    {
      ghost var s := St();
      var at := now;
      if clock > at {
        at := clock;
      }
      for i := 0 to |results|
        invariant D.BookAll(s, results, at, cfg) == D.BookAll(St(), results[i..], at, cfg)
      {
        assert results[i..][0] == results[i] && results[i..][1..] == results[i + 1..];
        BookResult(results[i], at);
      }
      assert results[|results|..] == [];
    }

    /** The send is back: forget its marks and say whether the row was re-armed meanwhile. */
    method ReleaseMarks(a: D.Attempt) returns (rearmed: bool)
      modifies this`sending, this`sendingTo
      ensures rearmed == D.Rearmed(old(sending), a.id)
      ensures sending == old(sending) - {a.id}
      ensures sendingTo == D.Lower(old(sendingTo), D.Who(a))
    {
      rearmed := a.id in sending && sending[a.id] > 0;
      sending := sending - {a.id};
      var who := D.Who(a);
      var left := D.Sending(sendingTo, who) - 1;
      if left <= 0 {
        sendingTo := sendingTo - {who};
      } else {
        sendingTo := sendingTo[who := left];
      }
    }

    /** The body of the booking loop for one returned send. */
    method BookResult(r: D.Result, at: Time)
      modifies this
      ensures St() == D.BookOne(old(St()), r, at, cfg)
    {
      var a := r.attempt;
      var rearmed := ReleaseMarks(a);
      var k := ItemIndex(a.id);
      if r.ok {
        Log(DeliveryOk(a.id));
        if k == |outbox| || outbox[k].Delivered() {
          return;
        }
        outbox := outbox[k := outbox[k].(attempts := a.attempts + 1, deliveredAt := Some(at))];
      } else {
        Log(DeliveryFail(a.id));
        if k == |outbox| || outbox[k].Delivered() || rearmed {
          return;
        }
        var wait := D.Backoff(a.attempts + 1, cfg);
        outbox := outbox[k := outbox[k].(attempts := a.attempts + 1, nextAttempt := at + wait)];
      }
    }

    method RetryOutbox(id: Id, clock: Time) returns (outcome: D.RetryOutcome)
      modifies this
      ensures (St(), outcome) == D.Retry(old(St()), id, clock)
    {
      var k := ItemIndex(id);
      if k == |outbox| {
        return D.NoSuchRow;
      }
      if outbox[k].Delivered() {
        return D.AlreadyDelivered;
      }
      outbox := outbox[k := outbox[k].(attempts := 0, nextAttempt := clock)];
      if id in sending {
        sending := sending[id := sending[id] + 1];
      }
      Log(OutboxRetry(id));
      return D.Retried;
    }

    /** Drop delivered rows whose story is over. */
    method PruneOutbox(now: Time)
      modifies this
      ensures St() == D.Prune(old(St()), now, cfg)
    {
      var cutoff := now - cfg.outboxRetention;
      var kept: seq<Item> := [];
      var pruned := 0;
      for i := 0 to |outbox|
        invariant St() == old(St())
        invariant kept == D.Kept(outbox[..i], events, cutoff)
        invariant pruned == |D.Dropped(outbox[..i], events, cutoff)|
      {
        assert outbox[..i + 1][..i] == outbox[..i];
        var o := outbox[i];
        var keep := !o.Delivered() || o.deliveredAt.value > cutoff;
        if !keep && o.eventId.Some? {
          var k := EventIndex(o.eventId.value);
          if k < |events| {
            var end := events[k].endsAt;
            keep := (if end.Some? then end.value else events[k].startsAt) > cutoff;
          }
        }
        if keep {
          kept := kept + [o];
        } else {
          pruned := pruned + 1;
        }
      }
      assert outbox[..|outbox|] == outbox;
      if pruned == 0 {
        return;
      }
      outbox := kept;
      Log(OutboxPruned(pruned));
    }

    /** The locked half of a tick: the event passes, then selection, then pruning. */
    method Tick(now: Time, clock: Time) returns (attempts: seq<D.Attempt>)
      modifies this
      ensures var (collected, picked) := D.Collect(K.EventPasses(old(St()), now, cfg, clock), now, None, cfg, clock);
        attempts == picked && St() == D.Prune(collected, now, cfg)
    {
      TickReminders(now, clock);
      TickNudges(now, clock);
      TickDeadlines(now, clock);
      attempts := CollectOutbox(now, None, clock);
      PruneOutbox(now);
    }

    method EnqueueTest(person: Id, clock: Time) returns (attempts: Option<seq<D.Attempt>>)
      modifies this
      ensures attempts.None? <==> D.EnqueueTest(old(St()), person, cfg, clock).None?
      ensures attempts.None? ==> St() == old(St())
      ensures attempts.Some? ==> D.EnqueueTest(old(St()), person, cfg, clock) == Some((St(), attempts.value))
    {
      var k := PersonIndex(person);
      if k == |people| || !people[k].Reachable() {
        return None;
      }
      var ids := EnqueueToPerson(people[k], T.Draft(None, TestMessage, None, "", "", Plain), clock);
      Log(TestSent(person));
      var collected := CollectOutbox(clock, Some(ids), clock);
      return Some(collected);
    }

    /** How far the event's last propagation transaction has come. */
    method Propagation(event: Id) returns (status: Option<D.PropagationStatus>)
      ensures var k := FindEvent(events, event);
        status == if k == |events| then None
                  else Some(D.Propagation(St(), k, cfg).(items := R.ShownRows(D.Propagation(St(), k, cfg).items, cfg.redact)))
    {
      var k := EventIndex(event);
      if k == |events| {
        return None;
      }
      var of := StatusRows(events[k]);
      var shown := R.ShowRows(of.items, cfg.redact);
      status := Some(of.(items := shown));
    }

    /** The rows of the event's last transaction, listed and counted. */
    method StatusRows(e: Event) returns (status: D.PropagationStatus)
      ensures status == D.StatusOf(e, D.RowsInLastFanOut(e, outbox), cfg)
    {
      var rows: seq<Item> := [];
      var delivered, pending, failed := 0, 0, 0;
      for i := 0 to |outbox|
        invariant rows == D.RowsInLastFanOut(e, outbox[..i])
        invariant Tallied(rows, delivered, pending, failed, cfg)
      {
        assert outbox[..i + 1][..i] == outbox[..i];
        if D.InLastFanOut(e, outbox[i]) {
          TalliedMore(rows, outbox[i], delivered, pending, failed, cfg);
          rows := rows + [outbox[i]];
          match D.OutboxState(outbox[i], cfg)
          case DeliveredRow => delivered := delivered + 1;
          case FailedRow => failed := failed + 1;
          case RetryingRow => pending := pending + 1;
          case QueuedRow => pending := pending + 1;
        }
      }
      assert outbox[..|outbox|] == outbox;
      var total := |rows|;
      status := D.PropagationStatus(total, delivered, pending, failed, total > 0 && delivered == total,
                                    e.fanOutAt.Some? && e.fanOutCount == 0 && total == 0, rows);
    }

    // ---- calendar sync ---------------------------------------------------------

    method AssignOnce(event: Id, person: Id)
      modifies this`assignments
      ensures St() == C.Assign(old(St()), event, person)
    {
      for i := 0 to |assignments|
        invariant Assignment(event, person) !in assignments[..i]
      {
        if assignments[i] == Assignment(event, person) {
          return;
        }
      }
      assert assignments[..|assignments|] == assignments;
      assignments := assignments + [Assignment(event, person)];
    }

    method InheritSeries(event: Id, uid: string)
      modifies this`assignments
      ensures St() == C.InheritSeries(old(St()), series, event, uid)
    {
      ghost var s := St();
      for i := 0 to |series|
        invariant St() == C.InheritSeries(s, series[..i], event, uid)
      {
        assert series[..i + 1][..i] == series[..i];
        var sa := series[i];
        if sa.sourceUid == uid {
          var k := PersonIndex(sa.personId);
          if k < |people| {
            AssignOnce(event, sa.personId);
          }
        }
      }
      assert series[..|series|] == series;
    }

    /** The feed has moved the k-th event. */
    method SyncMove(k: nat, o: C.Occurrence, rep: C.Report, clock: Time) returns (after: C.Report)
      requires k < |events|
      modifies this
      ensures (St(), after) == C.SyncMove(old(St()), rep, k, o, cfg, clock)
    {
      var outcome := Move(events[k].id, Some(o.start), o.end, true, clock);
      if outcome != T.Done {
        return rep.(conflicts := rep.conflicts + 1);
      }
      events := events[k := events[k].(title := C.TitleOf(o), location := o.location)];
      after := rep.(moved := rep.moved + 1);
      if events[k].fanOutCount == 0 {
        after := after.(silent := after.silent + [events[k].id]);
      }
    }

    method SyncNew(o: C.Occurrence, clock: Time)
      modifies this
      ensures St() == C.SyncNew(old(St()), o, clock)
    {
      var id := Create(C.TitleOf(o), o.location, o.start, o.end, false, o.uid, o.key, clock);
      InheritSeries(id, o.uid);
    }

    method SyncQuiet(k: nat, o: C.Occurrence, rep: C.Report) returns (after: C.Report)
      requires k < |events|
      modifies this
      ensures (St(), after) == C.SyncQuiet(old(St()), rep, k, o)
    {
      var e := events[k];
      if e.endsAt != o.end {
        events := events[k := e.(endsAt := o.end, title := C.TitleOf(o), location := o.location, seqNo := e.seqNo + 1)];
        Log(ImportUpdated(e.id));
        return rep.(updated := rep.updated + 1);
      }
      if e.title != C.TitleOf(o) || e.location != o.location {
        events := events[k := e.(title := C.TitleOf(o), location := o.location, seqNo := e.seqNo + 1)];
        assert events[k] == e.(endsAt := o.end, title := C.TitleOf(o), location := o.location, seqNo := e.seqNo + 1);
        Log(ImportUpdated(e.id));
        return rep.(updated := rep.updated + 1);
      }
      return rep.(same := rep.same + 1);
    }

    /** Back in the feed: the glitch is over. */
    method Reappear(k: nat)
      requires k < |events|
      modifies this
      ensures St() == C.Reappear(old(St()), k)
    {
      var e := events[k];
      if e.vanishedAt.Some? {
        events := events[k := e.(vanishedAt := None)];
        Log(ImportReappeared(e.id));
      }
    }

    /** The body of the sync loop for one occurrence of the feed. */
    method SyncOccurrence(o: C.Occurrence, rep: C.Report, clock: Time) returns (after: C.Report)
      modifies this
      ensures (St(), after) == C.SyncOne(old(St()), rep, o, cfg, clock)
    {
      var k := KeyIndex(o.key);
      if k == |events| {
        SyncNew(o, clock);
        return rep.(created := rep.created + 1);
      }
      if events[k].status == Cancelled {
        return if events[k].startsAt != o.start then rep.(conflicts := rep.conflicts + 1) else rep;
      }
      Reappear(k);
      if events[k].startsAt != o.start {
        after := SyncMove(k, o, rep, clock);
      } else {
        after := SyncQuiet(k, o, rep);
      }
    }

    /** Report, and mark once, the live imported events the feed no longer carries. */
    method SweepVanished(occs: seq<C.Occurrence>, rep: C.Report, until: Time, clock: Time) returns (after: C.Report, gone: seq<Id>)
      modifies this
      ensures (St(), after, gone) == C.SweepFrom(old(St()), rep, [], 0, occs, until, clock)
    {
      ghost var s := St();
      var seen := set o | o in occs :: o.key;
      after, gone := rep, [];
      var i := 0;
      while i < |events|
        invariant |events| == |s.events|
        invariant C.SweepFrom(St(), after, gone, i, occs, until, clock) == C.SweepFrom(s, rep, [], 0, occs, until, clock)
        decreases |s.events| - i
      {
        var e := events[i];
        if e.sourceKey == "" || e.sourceKey in seen || e.status == Cancelled {
          i := i + 1;
          continue;
        }
        if e.startsAt < clock || e.startsAt > until {
          i := i + 1;
          continue;
        }
        assert C.Missing(e, C.KeysOf(occs), until, clock);
        if |occs| == 0 {
          after := after.(suspect := true);
          Log(ImportSuspect);
          return;
        }
        after := after.(vanished := after.vanished + [e.id]);
        Log(ImportVanished(e.id));
        if e.vanishedAt.None? {
          events := events[i := e.(vanishedAt := Some(clock))];
          gone := gone + [e.id];
        }
        i := i + 1;
      }
    }

    /** The one extra ask of a vanished event; returns how many people were asked. */
    method AskVanishedEvent(event: Id, clock: Time) returns (asked: nat)
      modifies this
      ensures (St(), asked) == C.AskVanishedOne(old(St()), event, clock)
    {
      var all := AssigneesOf(event);
      var reachable := ReachableAmong(all);
      asked := |reachable|;
      if asked == 0 {
        return;
      }
      EnqueueToPeople(reachable, T.Draft(Some(event), VanishedAsk, None, "", "", Plain), clock);
      Log(VanishedAsked(event, asked));
    }

    /** One more vanished event on top of those before it. */
    method AskNext(event: Id, soFar: nat, clock: Time, ghost s: State, ghost before: seq<Id>, ghost all: seq<Id>) returns (asked: nat)
      requires all == before + [event] && St() == C.AskVanished(s, before, clock).0 && soFar == C.AskVanished(s, before, clock).1
      modifies this
      ensures St() == C.AskVanished(s, all, clock).0 && asked == C.AskVanished(s, all, clock).1
    {
      AskOneMore(s, before, event, all, clock);
      var n := AskVanishedEvent(event, clock);
      asked := soFar + n;
    }

    method AskVanished(gone: seq<Id>, clock: Time) returns (asked: nat)
      modifies this
      ensures (St(), asked) == C.AskVanished(old(St()), gone, clock)
    {
      ghost var s := St();
      asked := 0;
      for i := 0 to |gone|
        invariant St() == C.AskVanished(s, gone[..i], clock).0 && asked == C.AskVanished(s, gone[..i], clock).1
      {
        asked := AskNext(gone[i], asked, clock, s, gone[..i], gone[..i + 1]);
      }
      assert gone[..|gone|] == gone;
    }

    /** Ask first, page second: the page says how many people were asked. */
    method PageGone(gone: seq<Id>, clock: Time)
      modifies this
      ensures St() == C.PageGone(old(St()), gone, cfg, clock)
    {
      if |gone| == 0 {
        return;
      }
      var asked := AskVanished(gone, clock);
      NotifyAdmin(GoneFromCalendar(gone, asked), clock);
    }

    method SyncCalendar(occs: seq<C.Occurrence>, until: Time, clock: Time) returns (rep: C.Report)
      modifies this
      ensures (St(), rep) == C.Sync(old(St()), occs, until, cfg, clock)
    {
      ghost var s := St();
      rep := C.NO_REPORT;
      for i := 0 to |occs|
        invariant C.SyncAll(s, C.NO_REPORT, occs, cfg, clock) == C.SyncAll(St(), rep, occs[i..], cfg, clock)
      {
        assert occs[i..][1..] == occs[i + 1..];
        rep := SyncOccurrence(occs[i], rep, clock);
      }
      assert occs[|occs|..] == [];
      var gone;
      rep, gone := SweepVanished(occs, rep, until, clock);
      PageGone(gone, clock);
      if |rep.silent| > 0 {
        NotifyAdmin(SilentMoves(rep.silent), clock);
      }
      Log(ImportDone);
    }

    // ---- deletion --------------------------------------------------------------

    method DropWhere<R>(rows: seq<R>, drop: R -> bool) returns (kept: seq<R>, n: nat)
      ensures kept == C.Filter(rows, drop) && |kept| + n == |rows|
    {
      kept, n := [], 0;
      for i := 0 to |rows|
        invariant kept == C.Filter(rows[..i], drop) && |kept| + n == i
      {
        assert rows[..i + 1][..i] == rows[..i];
        if drop(rows[i]) {
          n := n + 1;
        } else {
          kept := kept + [rows[i]];
        }
      }
      assert rows[..|rows|] == rows;
    }

    method DropRowsOf(event: Id)
      modifies this
      ensures St() == C.DropRowsOf(old(St()), event)
    {
      var n;
      assignments, n := DropWhere(assignments, C.AssignmentOf(event));
      responses, n := DropWhere(responses, C.ResponseTo(event));
      guests, n := DropWhere(guests, C.GuestOf(event));
      events, n := DropWhere(events, C.IsEvent(event));
    }

    /** Rows of the event's last transaction that are still moving. */
    method FanOutInFlight(e: Event) returns (n: nat)
      ensures n == D.FanOutInFlight(St(), e, cfg)
    {
      n := 0;
      ghost var rows: seq<Item> := [];
      for i := 0 to |outbox|
        invariant rows == D.RowsInLastFanOut(e, outbox[..i])
        invariant n == D.CountRows(rows, {D.RetryingRow, D.QueuedRow}, cfg)
      {
        assert outbox[..i + 1][..i] == outbox[..i];
        if D.InLastFanOut(e, outbox[i]) {
          assert (rows + [outbox[i]])[..|rows|] == rows;
          rows := rows + [outbox[i]];
          var st := D.OutboxState(outbox[i], cfg);
          if st == D.QueuedRow || st == D.RetryingRow {
            n := n + 1;
          }
        }
      }
      assert outbox[..|outbox|] == outbox;
    }

    method Delete(event: Id, clock: Time) returns (outcome: T.Outcome)
      modifies this
      ensures (St(), outcome) == C.DeleteSpec(old(St()), event, cfg, clock)
    {
      var k := EventIndex(event);
      if k == |events| {
        return T.NotFound;
      }
      var e := events[k];
      if e.status != Cancelled && !(e.End() < clock) {
        return T.Refused;
      }
      if e.sourceUid != "" && (e.status == Cancelled || e.vanishedAt.None?) {
        return T.Refused;
      }
      var n := FanOutInFlight(e);
      if n > 0 {
        return T.Refused;
      }
      DropRowsOf(event);
      Log(EventDeleted(event));
      FireWebhooks("event.deleted", clock);
      return T.Done;
    }
  }

  /** A configuration that would do nothing, or something silly, gets no service. */
  method NewService(cfg: Config) returns (service: Option<Service>)
    ensures service.Some? <==> cfg.Filled().Accepted()
    ensures service.Some? ==> fresh(service.value) && service.value.St() == EMPTY_STATE && service.value.cfg == cfg.Filled()
  {
    if !cfg.Filled().Accepted() {
      return None;
    }
    var s := new Service(cfg);
    service := Some(s);
  }

  /** Handing out an id does not change whom a fan-out reaches. */
  lemma FanOutIs(s: State, k: nat, purpose: Purpose, cfg: Config, clock: Time)
    requires k < |s.events|
    ensures var e, t := s.events[k], s.(nextId := s.nextId + 1);
      var d := T.Draft(Some(e.id), purpose, Some(s.nextId), "", "", Plain);
      var n := |T.FanOutDrafts(t, e.id, d, cfg)|;
      && T.EnqueueFanOut(t, e.id, d, cfg, clock).events == s.events
      && T.FanOut(s, k, purpose, cfg, clock)
         == T.EnqueueFanOut(t, e.id, d, cfg, clock).(events := s.events[k := e.(fanOutAt := Some(clock), fanOutCount := n, fanOutTxn := Some(s.nextId))])
  {
    var e := s.events[k];
    var d := T.Draft(Some(e.id), purpose, Some(s.nextId), "", "", Plain);
    assert T.FanOutDrafts(s.(nextId := s.nextId + 1), e.id, d, cfg) == T.FanOutDrafts(s, e.id, d, cfg);
  }

  /** The counters of a status. */
  predicate Tallied(rows: seq<Item>, delivered: nat, pending: nat, failed: nat, cfg: Config) {
    && delivered == D.CountRows(rows, {D.DeliveredRow}, cfg)
    && pending == D.CountRows(rows, {D.RetryingRow, D.QueuedRow}, cfg)
    && failed == D.CountRows(rows, {D.FailedRow}, cfg)
  }

  lemma CountMore(rows: seq<Item>, o: Item, states: set<D.RowState>, cfg: Config)
    ensures D.CountRows(rows + [o], states, cfg) == D.CountRows(rows, states, cfg) + if D.OutboxState(o, cfg) in states then 1 else 0
  {
    assert (rows + [o])[..|rows|] == rows;
  }

  lemma TalliedMore(rows: seq<Item>, o: Item, delivered: nat, pending: nat, failed: nat, cfg: Config)
    requires Tallied(rows, delivered, pending, failed, cfg)
    ensures var st := D.OutboxState(o, cfg);
      Tallied(rows + [o], if st == D.DeliveredRow then delivered + 1 else delivered,
              if st == D.RetryingRow || st == D.QueuedRow then pending + 1 else pending,
              if st == D.FailedRow then failed + 1 else failed, cfg)
  {
    CountMore(rows, o, {D.DeliveredRow}, cfg);
    CountMore(rows, o, {D.RetryingRow, D.QueuedRow}, cfg);
    CountMore(rows, o, {D.FailedRow}, cfg);
  }

  function GuestDraft(g: Guest, d: Item): Item {
    d.(guestId := Some(g.id), kind := "email", to := g.email)
  }

  /** One more guest: a row unless there is no address or it was served. */
  lemma GuestMore(s: State, before: seq<Guest>, g: Guest, all: seq<Guest>, d: Item, cfg: Config, clock: Time)
    requires all == before + [g]
    ensures var served := g.email == "" || cfg.foldCase(g.email) in T.Folded(before, cfg);
      && T.Folded(all, cfg) == T.Folded(before, cfg) + (if served then {} else {cfg.foldCase(g.email)})
      && |T.GuestDrafts(all, d, cfg)| == |T.GuestDrafts(before, d, cfg)| + (if served then 0 else 1)
      && T.EnqueueAll(s, T.GuestDrafts(all, d, cfg), clock)
         == if served then T.EnqueueAll(s, T.GuestDrafts(before, d, cfg), clock)
            else T.EnqueueAll(T.EnqueueAll(s, T.GuestDrafts(before, d, cfg), clock), [GuestDraft(g, d)], clock)
  {
    assert all[..|all| - 1] == before && all[|all| - 1] == g;
    T.EnqueueTwice(s, T.GuestDrafts(before, d, cfg), [GuestDraft(g, d)], clock);
  }

  lemma AskOneMore(s: State, before: seq<Id>, event: Id, all: seq<Id>, clock: Time)
    requires all == before + [event]
    ensures C.AskVanished(s, all, clock).0 == C.AskVanishedOne(C.AskVanished(s, before, clock).0, event, clock).0
    ensures C.AskVanished(s, all, clock).1 == C.AskVanished(s, before, clock).1 + C.AskVanishedOne(C.AskVanished(s, before, clock).0, event, clock).1
  {
    assert all[..|all| - 1] == before && all[|all| - 1] == event;
  }

  function ChannelDraft(ch: Address, person: Id, d: Item): seq<Item> {
    if ch.Usable() then [d.(personId := Some(person), kind := ch.kind, to := ch.to)] else []
  }

  /** The ids of the rows from the n-th on, after one more. */
  lemma NewestId(before: seq<Item>, after: seq<Item>, n: nat, ids: set<Id>, id: Id)
    requires n <= |before| && |after| == |before| + 1 && after[..|before|] == before && after[|before|].id == id
    requires ids == set o | o in before[n..] :: o.id
    ensures ids + {id} == set o | o in after[n..] :: o.id
  {
    assert after[n..] == before[n..] + [after[|before|]];
  }

  lemma UnreachableHasNoDrafts(channels: seq<Address>, person: Id, d: Item)
    requires !(exists i | 0 <= i < |channels| :: channels[i].Usable())
    ensures T.ChannelDrafts(channels, person, d) == []
  {
  }
}
