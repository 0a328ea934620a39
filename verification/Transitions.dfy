/**
  What the event transitions of internal/core/service.go do to the state, as functions:
  enqueueing, admin pages, the fan-out of one propagation transaction, and confirm,
  cancel, move and reinstate. The class `Service` implements them step by step.
*/
module Transitions {
  import opened Options
  import opened Core

  /** A row before it is stored: identity and clock are filled in by `Stamp`. */
  function Draft(eventId: Option<Id>, purpose: Purpose, txn: Option<Id>, kind: string, to: string, text: Text): Item {
    Item(0, eventId, None, None, purpose, txn, kind, to, text, 0, 0, None, None, 0)
  }

  function Stamp(drafts: seq<Item>, base: Id, clock: Time): (r: seq<Item>)
    ensures |r| == |drafts|
    ensures forall i | 0 <= i < |r| ::
      r[i] == drafts[i].(id := base + i, createdAt := clock, nextAttempt := clock)
  {
    seq(|drafts|, i requires 0 <= i < |drafts| =>
      drafts[i].(id := base + i, createdAt := clock, nextAttempt := clock))
  }

  /** Append rows with consecutive fresh ids. */
  function EnqueueAll(s: State, drafts: seq<Item>, clock: Time): State {
    s.(outbox := s.outbox + Stamp(drafts, s.nextId, clock), nextId := s.nextId + |drafts|)
  }

  function Log(s: State, entry: Audit): State {
    s.(audit := s.audit + [entry])
  }

  // ---- recipients ------------------------------------------------------------

  /** One row per usable channel, in the person's order. */
  function ChannelDrafts(channels: seq<Address>, person: Id, d: Item): seq<Item> {
    if channels == [] then []
    else
      var front := ChannelDrafts(channels[..|channels| - 1], person, d);
      var ch := channels[|channels| - 1];
      if ch.Usable() then front + [d.(personId := Some(person), kind := ch.kind, to := ch.to)] else front
  }

  function PersonDrafts(p: Person, d: Item): seq<Item> {
    ChannelDrafts(p.channels, p.id, d)
  }

  function PersonSkips(p: Person, d: Item): seq<Audit> {
    if p.Reachable() then [] else [DeliverySkipped(d.eventId, p.id)]
  }

  function EnqueueToPerson(s: State, p: Person, d: Item, clock: Time): State {
    EnqueueAll(s, PersonDrafts(p, d), clock).(audit := s.audit + PersonSkips(p, d))
  }

  function PeopleDrafts(people: seq<Person>, d: Item): seq<Item> {
    if people == [] then []
    else PeopleDrafts(people[..|people| - 1], d) + PersonDrafts(people[|people| - 1], d)
  }

  function PeopleSkips(people: seq<Person>, d: Item): seq<Audit> {
    if people == [] then []
    else PeopleSkips(people[..|people| - 1], d) + PersonSkips(people[|people| - 1], d)
  }

  function EnqueueToPeople(s: State, people: seq<Person>, d: Item, clock: Time): State {
    EnqueueAll(s, PeopleDrafts(people, d), clock).(audit := s.audit + PeopleSkips(people, d))
  }

  function BroadcastDrafts(targets: seq<Broadcast>, d: Item): (r: seq<Item>)
    ensures |r| == |targets|
    ensures forall i | 0 <= i < |r| :: r[i] == d.(kind := targets[i].kind, to := targets[i].to)
  {
    seq(|targets|, i requires 0 <= i < |targets| => d.(kind := targets[i].kind, to := targets[i].to))
  }

  /** The folded addresses among these guests. */
  function Folded(guests: seq<Guest>, cfg: Config): set<string> {
    set g | g in guests && g.email != "" :: cfg.foldCase(g.email)
  }

  /** One row per folded address: the first guest who left it. */
  function GuestDrafts(guests: seq<Guest>, d: Item, cfg: Config): seq<Item> {
    if guests == [] then []
    else
      var rest := guests[..|guests| - 1];
      var front := GuestDrafts(rest, d, cfg);
      var g := guests[|guests| - 1];
      if g.email == "" || cfg.foldCase(g.email) in Folded(rest, cfg) then front
      else front + [d.(guestId := Some(g.id), kind := "email", to := g.email)]
  }

  function WebhookDrafts(hooks: seq<Webhook>, event: string): seq<Item> {
    if hooks == [] then []
    else
      var front := WebhookDrafts(hooks[..|hooks| - 1], event);
      var w := hooks[|hooks| - 1];
      if WebhookMatches(w, event)
      then front + [Draft(None, WebhookCall, None, "webhook", w.url, Plain)]
      else front
  }

  function FireWebhooks(s: State, event: string, clock: Time): State {
    EnqueueAll(s, WebhookDrafts(s.webhooks, event), clock)
  }

  function NotifyAdmin(s: State, page: Page, cfg: Config, clock: Time): State {
    if cfg.adminNotify.None? then Log(s, AdminUnnotified(page))
    else
      EnqueueAll(s, [Draft(None, Escalation, None, cfg.adminNotify.value.kind, cfg.adminNotify.value.to, Admin(page))], clock)
  }

  // ---- fan-out ---------------------------------------------------------------

  function FanOutDrafts(s: State, event: Id, d: Item, cfg: Config): seq<Item> {
    BroadcastDrafts(s.broadcasts, d) + PeopleDrafts(Assignees(s, event), d) + GuestDrafts(GuestsOf(s.guests, event), d, cfg)
  }

  /** The rows and audit entries of one fan-out. */
  function EnqueueFanOut(s: State, event: Id, d: Item, cfg: Config, clock: Time): State {
    EnqueueAll(s, FanOutDrafts(s, event, d, cfg), clock).(audit := s.audit + PeopleSkips(Assignees(s, event), d))
  }

  /** One propagation transaction for the k-th event. */
  function FanOut(s: State, k: nat, purpose: Purpose, cfg: Config, clock: Time): State
    requires k < |s.events|
  {
    var e := s.events[k];
    var d := Draft(Some(e.id), purpose, Some(s.nextId), "", "", Plain);
    var sent := EnqueueFanOut(s.(nextId := s.nextId + 1), e.id, d, cfg, clock);
    sent.(events := s.events[k := e.(fanOutAt := Some(clock), fanOutCount := |FanOutDrafts(s, e.id, d, cfg)|, fanOutTxn := Some(s.nextId))])
  }

  /** The alarm behind an empty fan-out; `page` says whether the admin is paged here. */
  function AlarmIfNobodyTold(s: State, k: nat, purpose: Purpose, page: bool, cfg: Config, clock: Time): State
    requires k < |s.events|
  {
    var e := s.events[k];
    if e.fanOutCount > 0 then s
    else
      var logged := Log(s, PropagationEmpty(e.id, purpose));
      if page then NotifyAdmin(logged, NobodyTold(e.id, purpose), cfg, clock) else logged
  }

  /** Fan out, tell the webhooks, raise the alarm when nobody heard. */
  function Propagate(s: State, k: nat, purpose: Purpose, hook: string, page: bool, cfg: Config, clock: Time): (r: State)
    requires k < |s.events|
    ensures |r.events| == |s.events|
  {
    AlarmIfNobodyTold(FireWebhooks(FanOut(s, k, purpose, cfg, clock), hook, clock), k, purpose, page, cfg, clock)
  }

  // ---- transitions -----------------------------------------------------------

  datatype Outcome = Done | NotFound | AlreadyCancelled | NotCancelled | Refused

  function SetEvent(s: State, k: nat, e: Event): State
    requires k < |s.events|
  {
    s.(events := s.events[k := e])
  }

  /** A fresh confirmation cycle. */
  function ResetCycle(e: Event): Event {
    e.(reminderSentAt := None, nudgeSentAt := None, deadlineFiredAt := None, unreachableNotifiedAt := None)
  }

  function NewEvent(id: Id, title: string, location: string, startsAt: Time, endsAt: Option<Time>,
                    cancelIfSilent: bool, sourceUid: string, sourceKey: string, clock: Time): Event {
    Event(id, title, location, startsAt, endsAt, Scheduled, 0, cancelIfSilent, clock,
          None, None, None, None, None, None, 0, None, sourceUid, sourceKey, None)
  }

  function Store(s: State, e: Event): State {
    Log(s.(events := s.events + [e], nextId := s.nextId + 1), EventCreated(e.id))
  }

  function Create(s: State, title: string, location: string, startsAt: Time, endsAt: Option<Time>,
                  cancelIfSilent: bool, sourceUid: string, sourceKey: string, clock: Time): State {
    var e := NewEvent(s.nextId, title, location, startsAt, endsAt, cancelIfSilent, sourceUid, sourceKey, clock);
    FireWebhooks(Store(s, e), "event.created", clock)
  }

  function Respond(s: State, event: Id, person: Option<Id>, confirms: bool, clock: Time): State {
    if person.None? then s
    else s.(responses := s.responses + [Response(clock, event, person.value, confirms)])
  }

  function MarkConfirmed(s: State, k: nat): (r: State)
    requires k < |s.events|
    ensures |r.events| == |s.events|
  {
    var e := s.events[k];
    Log(SetEvent(s, k, e.(status := Confirmed, seqNo := e.seqNo + 1)), EventConfirmed(e.id))
  }

  function ConfirmAt(s: State, k: nat, person: Option<Id>, clock: Time): (r: State)
    requires k < |s.events|
    ensures |r.events| == |s.events|
  {
    var answered := Respond(s, s.events[k].id, person, true, clock);
    if s.events[k].status != Scheduled then answered
    else FireWebhooks(MarkConfirmed(answered, k), "event.confirmed", clock)
  }

  function ConfirmSpec(s: State, event: Id, person: Option<Id>, clock: Time): (r: (State, Outcome))
    ensures |r.0.events| == |s.events|
  {
    var k := FindEvent(s.events, event);
    if k == |s.events| then (s, NotFound)
    else if s.events[k].status == Cancelled then (s, AlreadyCancelled)
    else (ConfirmAt(s, k, person, clock), Done)
  }

  /** The flip, the answer and the record; the fan-out comes after. */
  function MarkCancelled(s: State, k: nat, person: Option<Id>, byDeadline: bool, clock: Time): (r: State)
    requires k < |s.events|
    ensures |r.events| == |s.events|
  {
    var e := s.events[k];
    var flipped := SetEvent(s, k, e.(status := Cancelled, cancelledAt := Some(clock), seqNo := e.seqNo + 1));
    Log(Respond(flipped, e.id, person, false, clock), EventCancelled(e.id, byDeadline))
  }

  function CancelAt(s: State, k: nat, person: Option<Id>, byDeadline: bool, cfg: Config, clock: Time): (r: State)
    requires k < |s.events|
    ensures |r.events| == |s.events|
  {
    Propagate(MarkCancelled(s, k, person, byDeadline, clock), k, Cancellation, "event.cancelled", !byDeadline, cfg, clock)
  }

  function CancelSpec(s: State, event: Id, person: Option<Id>, byDeadline: bool, cfg: Config, clock: Time): (r: (State, Outcome))
    ensures |r.0.events| == |s.events|
  {
    var k := FindEvent(s.events, event);
    if k == |s.events| then (s, NotFound)
    else if s.events[k].status == Cancelled then (s, AlreadyCancelled)
    else (CancelAt(s, k, person, byDeadline, cfg, clock), Done)
  }

  function MarkMoved(s: State, k: nat, start: Time, end: Option<Time>): (r: State)
    requires k < |s.events|
    ensures |r.events| == |s.events|
  {
    var e := s.events[k];
    Log(SetEvent(s, k, ResetCycle(e.(startsAt := start, endsAt := end, seqNo := e.seqNo + 1, status := Scheduled))), EventMoved(e.id))
  }

  function MoveAt(s: State, k: nat, start: Time, end: Option<Time>, byImport: bool, cfg: Config, clock: Time): (r: State)
    requires k < |s.events|
    ensures |r.events| == |s.events|
  {
    Propagate(MarkMoved(s, k, start, end), k, Moved, "event.moved", !byImport, cfg, clock)
  }

  predicate BadMove(start: Option<Time>, end: Option<Time>) {
    start.None? || (end.Some? && end.value < start.value)
  }

  function MoveSpec(s: State, event: Id, start: Option<Time>, end: Option<Time>, byImport: bool, cfg: Config, clock: Time): (r: (State, Outcome))
    ensures |r.0.events| == |s.events|
  {
    var k := FindEvent(s.events, event);
    if BadMove(start, end) then (s, Refused)
    else if k == |s.events| then (s, NotFound)
    else if s.events[k].status == Cancelled then (s, AlreadyCancelled)
    else (MoveAt(s, k, start.value, end, byImport, cfg, clock), Done)
  }

  function MarkReinstated(s: State, k: nat): (r: State)
    requires k < |s.events|
    ensures |r.events| == |s.events|
  {
    var e := s.events[k];
    Log(SetEvent(s, k, ResetCycle(e.(status := Scheduled, cancelledAt := None, seqNo := e.seqNo + 1))), EventReinstated(e.id))
  }

  function ReinstateAt(s: State, k: nat, cfg: Config, clock: Time): (r: State)
    requires k < |s.events|
    ensures |r.events| == |s.events|
  {
    Propagate(MarkReinstated(s, k), k, Reinstated, "event.reinstated", true, cfg, clock)
  }

  function ReinstateSpec(s: State, event: Id, cfg: Config, clock: Time): (r: (State, Outcome))
    ensures |r.0.events| == |s.events|
  {
    var k := FindEvent(s.events, event);
    if k == |s.events| then (s, NotFound)
    else if s.events[k].status != Cancelled then (s, NotCancelled)
    else (ReinstateAt(s, k, cfg, clock), Done)
  }

  // ---- joining rows ----------------------------------------------------------

  lemma EnqueueTwice(s: State, a: seq<Item>, b: seq<Item>, clock: Time)
    ensures EnqueueAll(EnqueueAll(s, a, clock), b, clock) == EnqueueAll(s, a + b, clock)
  {
    assert Stamp(a, s.nextId, clock) + Stamp(b, s.nextId + |a|, clock) == Stamp(a + b, s.nextId, clock);
    assert (s.outbox + Stamp(a, s.nextId, clock)) + Stamp(b, s.nextId + |a|, clock)
        == s.outbox + (Stamp(a, s.nextId, clock) + Stamp(b, s.nextId + |a|, clock));
  }
}
