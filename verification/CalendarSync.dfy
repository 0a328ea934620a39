/**
  Reconciling the expanded calendar with the stored events (internal/core/import.go)
  and deleting an event (internal/core/delete.go).
*/
module CalendarSync {
  import opened Options
  import opened Core
  import opened Transitions
  import opened Delivery

  datatype Occurrence = Occurrence(key: string, uid: string, summary: string, location: string, start: Time, end: Option<Time>)

  datatype Report = Report(
    created: nat, moved: nat, updated: nat, same: nat, conflicts: nat,
    vanished: seq<Id>, silent: seq<Id>, suspect: bool)

  const NO_REPORT: Report := Report(0, 0, 0, 0, 0, [], [], false)

  function TitleOf(o: Occurrence): string {
    if o.summary == "" then "(untitled)" else o.summary
  }

  /** Record an assignment unless it exists already. */
  function Assign(s: State, event: Id, person: Id): State {
    if Assignment(event, person) in s.assignments then s
    else s.(assignments := s.assignments + [Assignment(event, person)])
  }

  function InheritSeries(s: State, series: seq<SeriesAssignment>, event: Id, uid: string): State {
    if series == [] then s
    else
      var front := InheritSeries(s, series[..|series| - 1], event, uid);
      var sa := series[|series| - 1];
      if sa.sourceUid == uid && FindPerson(front.people, sa.personId) < |front.people|
      then Assign(front, event, sa.personId)
      else front
  }

  function Reappear(s: State, k: nat): (r: State)
    requires k < |s.events|
    ensures |r.events| == |s.events| && r.events[k] == s.events[k].(vanishedAt := None)
  {
    var e := s.events[k];
    if e.vanishedAt.None? then s
    else Log(SetEvent(s, k, e.(vanishedAt := None)), ImportReappeared(e.id))
  }

  /** The feed has moved the k-th event. */
  function SyncMove(s: State, rep: Report, k: nat, o: Occurrence, cfg: Config, clock: Time): (State, Report)
    requires k < |s.events|
  {
    var (moved, outcome) := MoveSpec(s, s.events[k].id, Some(o.start), o.end, true, cfg, clock);
    if outcome != Done then (moved, rep.(conflicts := rep.conflicts + 1))
    else
      var m := moved.events[k];
      (SetEvent(moved, k, m.(title := TitleOf(o), location := o.location)),
       rep.(moved := rep.moved + 1, silent := if m.fanOutCount == 0 then rep.silent + [m.id] else rep.silent))
  }

  /** Same start: a changed end, title or place is a quiet update, not a move. */
  function SyncQuiet(s: State, rep: Report, k: nat, o: Occurrence): (State, Report)
    requires k < |s.events|
  {
    var e := s.events[k];
    if e.endsAt != o.end || e.title != TitleOf(o) || e.location != o.location then
      (Log(SetEvent(s, k, e.(endsAt := o.end, title := TitleOf(o), location := o.location, seqNo := e.seqNo + 1)), ImportUpdated(e.id)),
       rep.(updated := rep.updated + 1))
    else (s, rep.(same := rep.same + 1))
  }

  /** The feed carries an occurrence that is not stored yet. */
  function SyncNew(s: State, o: Occurrence, clock: Time): State {
    var created := Create(s, TitleOf(o), o.location, o.start, o.end, false, o.uid, o.key, clock);
    InheritSeries(created, created.series, s.nextId, o.uid)
  }

  /** One occurrence of the feed against the store. */
  function SyncOne(s: State, rep: Report, o: Occurrence, cfg: Config, clock: Time): (State, Report) {
    var k := FindKey(s.events, o.key);
    if k == |s.events| then (SyncNew(s, o, clock), rep.(created := rep.created + 1))
    else if s.events[k].status == Cancelled then
      (s, if s.events[k].startsAt != o.start then rep.(conflicts := rep.conflicts + 1) else rep)
    else if s.events[k].startsAt != o.start then SyncMove(Reappear(s, k), rep, k, o, cfg, clock)
    else SyncQuiet(Reappear(s, k), rep, k, o)
  }

  function SyncAll(s: State, rep: Report, occs: seq<Occurrence>, cfg: Config, clock: Time): (State, Report)
    decreases |occs|
  {
    if occs == [] then (s, rep)
    else
      var (next, nextRep) := SyncOne(s, rep, occs[0], cfg, clock);
      SyncAll(next, nextRep, occs[1..], cfg, clock)
  }

  function KeysOf(occs: seq<Occurrence>): set<string> {
    set o | o in occs :: o.key
  }

  /** A live imported event inside the fetch window that the feed does not carry. */
  predicate Missing(e: Event, seen: set<string>, until: Time, clock: Time) {
    e.sourceKey != "" && e.sourceKey !in seen && e.status != Cancelled && clock <= e.startsAt <= until
  }

  /** The sweep from the i-th event on; `gone` collects the events that just vanished. */
  function SweepFrom(s: State, rep: Report, gone: seq<Id>, i: nat, occs: seq<Occurrence>, until: Time, clock: Time): (r: (State, Report, seq<Id>))
    ensures |r.0.events| == |s.events|
    decreases |s.events| - i
  {
    if i >= |s.events| then (s, rep, gone)
    else if !Missing(s.events[i], KeysOf(occs), until, clock) then SweepFrom(s, rep, gone, i + 1, occs, until, clock)
    else if occs == [] then (Log(s, ImportSuspect), rep.(suspect := true), gone)
    else
      var e := s.events[i];
      var logged := Log(s, ImportVanished(e.id));
      var noted := rep.(vanished := rep.vanished + [e.id]);
      if e.vanishedAt.Some? then SweepFrom(logged, noted, gone, i + 1, occs, until, clock)
      else SweepFrom(SetEvent(logged, i, e.(vanishedAt := Some(clock))), noted, gone + [e.id], i + 1, occs, until, clock)
  }

  /** The one extra ask of a vanished event, and how many people it went to. */
  function AskVanishedOne(s: State, event: Id, clock: Time): (State, nat) {
    var reachable := Reachable(s, event);
    if reachable == [] then (s, 0)
    else
      (Log(EnqueueToPeople(s, reachable, Draft(Some(event), VanishedAsk, None, "", "", Plain), clock),
           VanishedAsked(event, |reachable|)),
       |reachable|)
  }

  /** Ask the reachable assignees of the events that just vanished; counts the people asked. */
  function AskVanished(s: State, gone: seq<Id>, clock: Time): (State, nat) {
    if gone == [] then (s, 0)
    else
      var (front, asked) := AskVanished(s, gone[..|gone| - 1], clock);
      var (after, n) := AskVanishedOne(front, gone[|gone| - 1], clock);
      (after, asked + n)
  }

  function PageGone(s: State, gone: seq<Id>, cfg: Config, clock: Time): State {
    if gone == [] then s
    else
      var (after, asked) := AskVanished(s, gone, clock);
      NotifyAdmin(after, GoneFromCalendar(gone, asked), cfg, clock)
  }

  function PageSilent(s: State, silent: seq<Id>, cfg: Config, clock: Time): State {
    if silent == [] then s else NotifyAdmin(s, SilentMoves(silent), cfg, clock)
  }

  function Sync(s: State, occs: seq<Occurrence>, until: Time, cfg: Config, clock: Time): (State, Report) {
    var (synced, rep) := SyncAll(s, NO_REPORT, occs, cfg, clock);
    var (swept, rep', gone) := SweepFrom(synced, rep, [], 0, occs, until, clock);
    (Log(PageSilent(PageGone(swept, gone, cfg, clock), rep'.silent, cfg, clock), ImportDone), rep')
  }

  // ---- deletion --------------------------------------------------------------

  function Filter<T>(rows: seq<T>, drop: T -> bool): seq<T> {
    if rows == [] then []
    else
      var front := Filter(rows[..|rows| - 1], drop);
      var r := rows[|rows| - 1];
      if drop(r) then front else front + [r]
  }

  /** Why an event may not be deleted: still on, still imported, or its notices still out. */
  predicate DeletionRefused(s: State, e: Event, cfg: Config, clock: Time) {
    || (e.status != Cancelled && clock <= e.End())
    || (e.sourceUid != "" && (e.status == Cancelled || e.vanishedAt.None?))
    || FanOutInFlight(s, e, cfg) > 0
  }

  function IsEvent(id: Id): Event -> bool { (e: Event) => e.id == id }
  function AssignmentOf(id: Id): Assignment -> bool { (a: Assignment) => a.eventId == id }
  function ResponseTo(id: Id): Response -> bool { (r: Response) => r.eventId == id }
  function GuestOf(id: Id): Guest -> bool { (g: Guest) => g.eventId == id }

  /** Everything that only existed for the event; the outbox and the audit trail stay. */
  function DropRowsOf(s: State, id: Id): State {
    s.(
      events := Filter(s.events, IsEvent(id)),
      assignments := Filter(s.assignments, AssignmentOf(id)),
      responses := Filter(s.responses, ResponseTo(id)),
      guests := Filter(s.guests, GuestOf(id)))
  }

  function DeleteAt(s: State, id: Id, clock: Time): State {
    FireWebhooks(Log(DropRowsOf(s, id), EventDeleted(id)), "event.deleted", clock)
  }

  function DeleteSpec(s: State, id: Id, cfg: Config, clock: Time): (State, Outcome) {
    var k := FindEvent(s.events, id);
    if k == |s.events| then (s, NotFound)
    else if DeletionRefused(s, s.events[k], cfg, clock) then (s, Refused)
    else (DeleteAt(s, id, clock), Done)
  }
}
