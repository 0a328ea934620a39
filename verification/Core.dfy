/**
  The records of the domain (internal/core/core.go) and the scans over them.

  A stamp that Go leaves at the zero time is `None` here. Identifiers are numbers
  handed out by one counter, which is what the random, prefixed identifiers of the
  program stand for: every one is fresh. Message wording is reduced to `Text`: which
  page an admin message is and which events it names.
*/
module Core {
  import opened Options

  type Time = int
  type Duration = int
  type Id = nat

  const HOUR: Duration := 3_600_000_000_000

  /** The least time between the ask and the dead-man switch. */
  const CONFIRM_GRACE: Duration := HOUR

  const MIN_FETCH_EVERY: Duration := HOUR / 60

  datatype Status = Scheduled | Confirmed | Cancelled

  datatype Event = Event(
    id: Id,
    title: string,
    location: string,
    startsAt: Time,
    endsAt: Option<Time>,
    status: Status,
    seqNo: nat,
    cancelIfSilent: bool,
    createdAt: Time,
    cancelledAt: Option<Time>,
    reminderSentAt: Option<Time>,
    deadlineFiredAt: Option<Time>,
    unreachableNotifiedAt: Option<Time>,
    nudgeSentAt: Option<Time>,
    fanOutAt: Option<Time>,
    fanOutCount: nat,
    fanOutTxn: Option<Id>,
    sourceUid: string,
    sourceKey: string,
    vanishedAt: Option<Time>
  ) {
    /** When the event is over: its end, or its start when no end was given. */
    function End(): Time {
      if endsAt.Some? then endsAt.value else startsAt
    }
  }

  datatype Address = Address(kind: string, to: string) {
    predicate Usable() {
      kind != "" && to != ""
    }
  }

  datatype Person = Person(id: Id, channels: seq<Address>) {
    /** At least one channel can carry a message. */
    predicate Reachable() {
      exists i | 0 <= i < |channels| :: channels[i].Usable()
    }
  }

  datatype Assignment = Assignment(eventId: Id, personId: Id)
  datatype SeriesAssignment = SeriesAssignment(sourceUid: string, personId: Id)
  datatype Guest = Guest(id: Id, eventId: Id, email: string)
  datatype Broadcast = Broadcast(kind: string, to: string)
  datatype Webhook = Webhook(url: string, events: seq<string>)
  datatype Response = Response(at: Time, eventId: Id, personId: Id, confirms: bool)

  datatype Purpose =
    | Reminder | VanishedAsk | Cancellation | Moved | Reinstated
    | Escalation | WebhookCall | TestMessage | Other

  /** The admin pages; each names the events (or the outbox row) it is about. */
  datatype Page =
    | NobodyTold(event: Id, purpose: Purpose)
    | AutoCancelled(event: Id, nobodyTold: bool)
    | NoResponse(event: Id)
    | UnreachableStaff(event: Id)
    | BrokenChannels(event: Id)
    | DeliveryStuck(row: Id)
    | GoneFromCalendar(events: seq<Id>, asked: nat)
    | SilentMoves(events: seq<Id>)

  datatype Text = Plain | Admin(page: Page)

  datatype Item = Item(
    id: Id,
    eventId: Option<Id>,
    personId: Option<Id>,
    guestId: Option<Id>,
    purpose: Purpose,
    txn: Option<Id>,
    kind: string,
    to: string,
    text: Text,
    attempts: nat,
    nextAttempt: Time,
    deliveredAt: Option<Time>,
    escalatedAt: Option<Time>,
    createdAt: Time
  ) {
    predicate Delivered() {
      deliveredAt.Some?
    }
  }

  /** The audit trail, reduced to the kinds some property speaks about. */
  datatype Audit =
    | EventCreated(event: Id)
    | EventMoved(event: Id)
    | EventReinstated(event: Id)
    | EventConfirmed(event: Id)
    | EventCancelled(event: Id, byDeadline: bool)
    | EventDeleted(event: Id)
    | PropagationEmpty(event: Id, purpose: Purpose)
    | AdminUnnotified(page: Page)
    | DeliverySkipped(about: Option<Id>, person: Id)
    | ReminderSent(event: Id, at: Time)
    | ReminderNudged(event: Id, at: Time)
    | StaffingUnreachable(event: Id, at: Time)
    | ChannelsBroken(event: Id)
    | DeadlinePassed(event: Id, at: Time)
    | DeliveryOk(row: Id)
    | DeliveryFail(row: Id)
    | OutboxRetry(row: Id)
    | OutboxPruned(count: nat)
    | TestSent(person: Id)
    | ImportReappeared(event: Id)
    | ImportUpdated(event: Id)
    | ImportVanished(event: Id)
    | ImportSuspect
    | VanishedAsked(event: Id, count: nat)
    | ImportDone

  datatype State = State(
    events: seq<Event>,
    people: seq<Person>,
    assignments: seq<Assignment>,
    series: seq<SeriesAssignment>,
    broadcasts: seq<Broadcast>,
    guests: seq<Guest>,
    webhooks: seq<Webhook>,
    responses: seq<Response>,
    outbox: seq<Item>,
    sending: map<Id, nat>,
    sendingTo: map<Address, int>,
    audit: seq<Audit>,
    nextId: Id
  )

  const EMPTY_STATE: State :=
    State([], [], [], [], [], [], [], [], [], map[], map[], [], 0)

  /**
    `sound` is the format check of an address, `foldCase` the case folding of a guest's mail
    address and `redact` the cut of a target to scheme and host; all three are library
    behaviour and stay uninterpreted.
  */
  datatype Config = Config(
    reminderLead: Duration,
    deadlineLead: Duration,
    nudgeLead: Duration,
    retryDelay: Duration,
    maxAttempts: int,
    escalateAfter: Duration,
    outboxRetention: Duration,
    adminNotify: Option<Address>,
    calendarSource: string,
    calendarFetchEvery: Duration,
    sound: Address -> bool,
    foldCase: string -> string,
    redact: string -> string
  ) {
    /** The defaults for fields left at zero. */
    function Filled(): Config {
      this.(
        reminderLead := if reminderLead == 0 then 48 * HOUR else reminderLead,
        deadlineLead := if deadlineLead == 0 then 24 * HOUR else deadlineLead,
        retryDelay := if retryDelay == 0 then HOUR / 60 else retryDelay,
        maxAttempts := if maxAttempts == 0 then 5 else maxAttempts,
        escalateAfter := if escalateAfter == 0 then HOUR / 6 else escalateAfter,
        outboxRetention := if outboxRetention == 0 then 90 * 24 * HOUR else outboxRetention)
    }

    /** Whether a service may start with this (filled) configuration. */
    predicate Accepted() {
      && (calendarFetchEvery > 0 ==> calendarSource != "" && calendarFetchEvery >= MIN_FETCH_EVERY)
      && (nudgeLead != 0 ==> deadlineLead + CONFIRM_GRACE < nudgeLead < reminderLead)
    }
  }

  // ---- scans -----------------------------------------------------------------

  /** The position of the first event with this id, or |events|. */
  function FindEvent(events: seq<Event>, id: Id): (k: nat)
    ensures k <= |events|
    ensures k < |events| ==> events[k].id == id
    ensures forall i | 0 <= i < k :: events[i].id != id
  {
    if events == [] then 0
    else if events[0].id == id then 0
    else 1 + FindEvent(events[1..], id)
  }

  /** The position of the first event imported under this key, or |events|. */
  function FindKey(events: seq<Event>, key: string): (k: nat)
    ensures k <= |events|
    ensures k < |events| ==> events[k].sourceKey == key
    ensures forall i | 0 <= i < k :: events[i].sourceKey != key
  {
    if events == [] then 0
    else if events[0].sourceKey == key then 0
    else 1 + FindKey(events[1..], key)
  }

  function FindPerson(people: seq<Person>, id: Id): (k: nat)
    ensures k <= |people|
    ensures k < |people| ==> people[k].id == id
    ensures forall i | 0 <= i < k :: people[i].id != id
  {
    if people == [] then 0
    else if people[0].id == id then 0
    else 1 + FindPerson(people[1..], id)
  }

  function FindItem(outbox: seq<Item>, id: Id): (k: nat)
    ensures k <= |outbox|
    ensures k < |outbox| ==> outbox[k].id == id
    ensures forall i | 0 <= i < k :: outbox[i].id != id
  {
    if outbox == [] then 0
    else if outbox[0].id == id then 0
    else 1 + FindItem(outbox[1..], id)
  }

  /** The people assigned to an event, in the order of the assignments. */
  function AssigneesIn(assignments: seq<Assignment>, people: seq<Person>, event: Id): seq<Person> {
    if assignments == [] then []
    else
      var front := AssigneesIn(assignments[..|assignments| - 1], people, event);
      var a := assignments[|assignments| - 1];
      var k := FindPerson(people, a.personId);
      if a.eventId == event && k < |people| then front + [people[k]] else front
  }

  function Assignees(s: State, event: Id): seq<Person> {
    AssigneesIn(s.assignments, s.people, event)
  }

  function ReachableOf(people: seq<Person>): (r: seq<Person>)
    ensures forall p | p in r :: p in people && p.Reachable()
    ensures forall p | p in people && p.Reachable() :: p in r
  {
    if people == [] then []
    else
      var front := ReachableOf(people[..|people| - 1]);
      var p := people[|people| - 1];
      assert people == people[..|people| - 1] + [p];
      if p.Reachable() then front + [p] else front
  }

  function Reachable(s: State, event: Id): seq<Person> {
    ReachableOf(Assignees(s, event))
  }

  function GuestsOf(guests: seq<Guest>, event: Id): seq<Guest> {
    if guests == [] then []
    else
      var front := GuestsOf(guests[..|guests| - 1], event);
      var g := guests[|guests| - 1];
      if g.eventId == event then front + [g] else front
  }

  function WebhookMatches(w: Webhook, event: string): bool {
    w.events == [] || event in w.events
  }

  predicate DistinctEventIds(events: seq<Event>) {
    forall i, j | 0 <= i < j < |events| :: events[i].id != events[j].id
  }
}
