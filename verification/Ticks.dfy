/**
  The event passes of one scheduler tick (internal/core/outbox.go): the ask, the nudge
  and the deadline. Each pass walks the events by index; `RemindOne`, `NudgeOne` and
  `DeadlineOne` say what it does to one of them.
*/
module Ticks {
  import opened Options
  import opened Core
  import opened Transitions

  function Ask(event: Id): Item {
    Draft(Some(event), Reminder, None, "", "", Plain)
  }

  predicate AnyValidChannel(people: seq<Person>, cfg: Config) {
    exists p | p in people :: exists ch | ch in p.channels :: ch.Usable() && cfg.sound(ch)
  }

  /** The reminder window is open for an event that was not asked in this cycle. */
  predicate AskDue(e: Event, now: Time, cfg: Config) {
    e.status == Scheduled && e.reminderSentAt.None? && e.startsAt - cfg.reminderLead <= now <= e.startsAt
  }

  function RemindOne(s: State, i: nat, now: Time, cfg: Config, clock: Time): (r: State)
    requires i < |s.events|
    ensures |r.events| == |s.events|
  {
    var e := s.events[i];
    var all := Assignees(s, e.id);
    if !AskDue(e, now, cfg) then s
    else if ReachableOf(all) == [] then
      if all != [] && e.unreachableNotifiedAt.None? && now < e.startsAt - cfg.deadlineLead then
        var warned := Log(SetEvent(s, i, e.(unreachableNotifiedAt := Some(now))), StaffingUnreachable(e.id, now));
        NotifyAdmin(warned, UnreachableStaff(e.id), cfg, clock)
      else s
    else
      var asked := SetEvent(EnqueueToPeople(s, all, Ask(e.id), clock), i, e.(reminderSentAt := Some(now)));
      var checked :=
        if AnyValidChannel(all, cfg) then asked
        else NotifyAdmin(Log(asked, ChannelsBroken(e.id)), BrokenChannels(e.id), cfg, clock);
      FireWebhooks(Log(checked, ReminderSent(e.id, now)), "reminder.sent", clock)
  }

  function RemindersFrom(s: State, i: nat, now: Time, cfg: Config, clock: Time): (r: State)
    ensures |r.events| == |s.events|
    decreases |s.events| - i
  {
    if i >= |s.events| then s else RemindersFrom(RemindOne(s, i, now, cfg, clock), i + 1, now, cfg, clock)
  }

  predicate Answered(responses: seq<Response>, event: Id, person: Id, since: Time) {
    exists r | r in responses :: r.eventId == event && r.personId == person && r.at >= since
  }

  function SilentOf(people: seq<Person>, responses: seq<Response>, event: Id, since: Time): seq<Person> {
    if people == [] then []
    else
      var front := SilentOf(people[..|people| - 1], responses, event, since);
      var p := people[|people| - 1];
      if Answered(responses, event, p.id, since) then front else front + [p]
  }

  predicate NudgeDue(e: Event, now: Time, cfg: Config) {
    && e.status == Scheduled && e.reminderSentAt.Some? && e.nudgeSentAt.None?
    && e.reminderSentAt.value < e.startsAt - cfg.nudgeLead <= now
    && now - e.reminderSentAt.value >= CONFIRM_GRACE
    && now < e.startsAt - cfg.deadlineLead - CONFIRM_GRACE
  }

  function NudgeOne(s: State, i: nat, now: Time, cfg: Config, clock: Time): (r: State)
    requires i < |s.events|
    ensures |r.events| == |s.events|
  {
    var e := s.events[i];
    if !NudgeDue(e, now, cfg) then s
    else
      var silent := SilentOf(Reachable(s, e.id), s.responses, e.id, e.reminderSentAt.value);
      if silent == [] then s
      else
        var asked := EnqueueToPeople(s, silent, Ask(e.id), clock);
        Log(SetEvent(asked, i, e.(nudgeSentAt := Some(now))), ReminderNudged(e.id, now))
  }

  function NudgesFrom(s: State, i: nat, now: Time, cfg: Config, clock: Time): (r: State)
    ensures |r.events| == |s.events|
    decreases |s.events| - i
  {
    if i >= |s.events| then s else NudgesFrom(NudgeOne(s, i, now, cfg, clock), i + 1, now, cfg, clock)
  }

  function Nudges(s: State, now: Time, cfg: Config, clock: Time): (r: State)
    ensures |r.events| == |s.events|
  {
    if cfg.nudgeLead <= 0 then s else NudgesFrom(s, 0, now, cfg, clock)
  }

  /** The deadline acts: `reachable` is how many assignees can be asked. */
  predicate DeadlineDue(e: Event, reachable: nat, now: Time, cfg: Config) {
    && e.status == Scheduled && e.deadlineFiredAt.None?
    && (e.reminderSentAt.None? ==> reachable == 0)
    && (e.reminderSentAt.Some? ==> now - e.reminderSentAt.value >= CONFIRM_GRACE)
    && e.startsAt - cfg.deadlineLead <= now <= e.startsAt
  }

  function DeadlineOne(s: State, i: nat, now: Time, cfg: Config, clock: Time): (r: State)
    requires i < |s.events|
    ensures |r.events| == |s.events|
  {
    var e := s.events[i];
    if !DeadlineDue(e, |Reachable(s, e.id)|, now, cfg) then s
    else
      var fired := Log(SetEvent(s, i, e.(deadlineFiredAt := Some(now))), DeadlinePassed(e.id, now));
      var told := FireWebhooks(fired, "deadline.passed", clock);
      if e.cancelIfSilent then
        var (cancelled, outcome) := CancelSpec(told, e.id, None, true, cfg, clock);
        if outcome != Done then cancelled
        else NotifyAdmin(cancelled, AutoCancelled(e.id, cancelled.events[i].fanOutCount == 0), cfg, clock)
      else NotifyAdmin(told, NoResponse(e.id), cfg, clock)
  }

  function DeadlinesFrom(s: State, i: nat, now: Time, cfg: Config, clock: Time): (r: State)
    ensures |r.events| == |s.events|
    decreases |s.events| - i
  {
    if i >= |s.events| then s else DeadlinesFrom(DeadlineOne(s, i, now, cfg, clock), i + 1, now, cfg, clock)
  }

  /** The event passes of one tick, in their order. */
  function EventPasses(s: State, now: Time, cfg: Config, clock: Time): (r: State)
    ensures |r.events| == |s.events|
  {
    DeadlinesFrom(Nudges(RemindersFrom(s, 0, now, cfg, clock), now, cfg, clock), 0, now, cfg, clock)
  }
}
