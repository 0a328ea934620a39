/**
  The operations that act on the state under the lock, apart from delivery: what the
  administrator, the people asked, the scheduler and the calendar fetch can do. `Apply` is
  one locked section. Staffing edits are one arbitrary step, so every property below holds
  whatever people, channels, guests and targets are added or taken away in between.
*/
module Operations {
  import opened Options
  import opened Core
  import opened Transitions
  import opened Ticks
  import opened Delivery
  import opened CalendarSync

  datatype Op =
    | CreateOp(title: string, location: string, startsAt: Time, endsAt: Option<Time>, cancelIfSilent: bool, clock: Time)
    | ConfirmOp(event: Id, person: Option<Id>, clock: Time)
    | CancelOp(event: Id, person: Option<Id>, clock: Time)
    | MoveOp(event: Id, start: Option<Time>, end: Option<Time>, clock: Time)
    | ReinstateOp(event: Id, clock: Time)
    | DeleteOp(event: Id, clock: Time)
    | TickOp(now: Time, clock: Time)
    | SyncOp(occs: seq<Occurrence>, until: Time, clock: Time)
    | TestOp(recipient: Id, clock: Time)
    | MessageOp(kind: string, to: string, text: Text, clock: Time)
    | StaffOp(people: seq<Person>, assignments: seq<Assignment>, series: seq<SeriesAssignment>,
              broadcasts: seq<Broadcast>, guests: seq<Guest>, webhooks: seq<Webhook>)

  function Apply(s: State, op: Op, cfg: Config): State {
    match op
    case CreateOp(title, location, startsAt, endsAt, cancelIfSilent, clock) =>
      Create(s, title, location, startsAt, endsAt, cancelIfSilent, "", "", clock)
    case ConfirmOp(event, person, clock) => ConfirmSpec(s, event, person, clock).0
    case CancelOp(event, person, clock) => CancelSpec(s, event, person, false, cfg, clock).0
    case MoveOp(event, start, end, clock) => MoveSpec(s, event, start, end, false, cfg, clock).0
    case ReinstateOp(event, clock) => ReinstateSpec(s, event, cfg, clock).0
    case DeleteOp(event, clock) => DeleteSpec(s, event, cfg, clock).0
    case TickOp(now, clock) => EventPasses(s, now, cfg, clock)
    case SyncOp(occs, until, clock) => Sync(s, occs, until, cfg, clock).0
    case TestOp(person, clock) => QueueTest(s, person, clock)
    case MessageOp(kind, to, text, clock) => EnqueueAll(s, [Draft(None, Other, None, kind, to, text)], clock)
    case StaffOp(people, assignments, series, broadcasts, guests, webhooks) =>
      s.(people := people, assignments := assignments, series := series,
         broadcasts := broadcasts, guests := guests, webhooks := webhooks)
  }

  function QueueTest(s: State, person: Id, clock: Time): State {
    var k := FindPerson(s.people, person);
    if k == |s.people| || !s.people[k].Reachable() then s
    else Log(EnqueueToPerson(s, s.people[k], Draft(None, TestMessage, None, "", "", Plain), clock), TestSent(person))
  }
}
