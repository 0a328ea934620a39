/**
  Silence cancels: an event that cancels when unconfirmed is called off by its start if
  nobody answers, provided the ticks come often enough, whatever else the program does
  meanwhile.
*/
module Silence {
  import opened Options
  import opened Core
  import opened Transitions
  import opened Ticks
  import opened Delivery
  import opened CalendarSync
  import opened Operations
  import opened Actions
  import opened Coverage
  import opened Rows
  import opened Protocol
  import opened Cycles

  function Of(s: State, id: Id): Option<Event> {
    var k := FindEvent(s.events, id);
    if k < |s.events| then Some(s.events[k]) else None
  }

  lemma OfMember(s: State, e: Event)
    requires DistinctEventIds(s.events) && e in s.events
    ensures Of(s, e.id) == Some(e)
  {
    var i :| 0 <= i < |s.events| && s.events[i] == e;
    FindDistinct(s.events, i);
  }

  /** What waiting for an answer depends on. */
  predicate SameWait(e: Event, f: Event) {
    && e.id == f.id && e.status == f.status && e.startsAt == f.startsAt && e.cancelIfSilent == f.cancelIfSilent
    && e.sourceKey == f.sourceKey && e.reminderSentAt == f.reminderSentAt && e.deadlineFiredAt == f.deadlineFiredAt
  }

  /** Somebody assigned to it can be asked. */
  predicate Staffed(s: State, id: Id) {
    Reachable(s, id) != []
  }

  predicate Kept(s: State, e: Event, reach: bool) {
    && Of(s, e.id).Some? && SameWait(e, Of(s, e.id).value) && Staffed(s, e.id) == reach
  }

  /** Nobody answers, moves, cancels, reinstates or deletes the event, and whether it has reachable staff stays as it is. */
  predicate LeavesAlone(op: Op, id: Id, reach: bool) {
    match op
    case ConfirmOp(event, _, _) => event != id
    case CancelOp(event, _, _) => event != id
    case MoveOp(event, _, _, _) => event != id
    case ReinstateOp(event, _) => event != id
    case DeleteOp(event, _) => event != id
    case SyncOp(occs, _, _) => "" !in KeysOf(occs)
    case StaffOp(people, assignments, _, _, _, _) => (ReachableOf(AssigneesIn(assignments, people, id)) != []) == reach
    case _ => true
  }

  // ---- operations that leave it alone ----------------------------------------

  lemma {:induction false} DroppedAssignees(assignments: seq<Assignment>, people: seq<Person>, id: Id, event: Id)
    requires id != event
    ensures AssigneesIn(Filter(assignments, AssignmentOf(id)), people, event) == AssigneesIn(assignments, people, event)
  {
    if assignments != [] {
      var n := |assignments| - 1;
      DroppedAssignees(assignments[..n], people, id, event);
      var front := Filter(assignments[..n], AssignmentOf(id));
      assert (front + [assignments[n]])[..|front|] == front;
    }
  }

  lemma OtherAssigned(assignments: seq<Assignment>, people: seq<Person>, a: Assignment, event: Id)
    requires a.eventId != event
    ensures AssigneesIn(assignments + [a], people, event) == AssigneesIn(assignments, people, event)
  {
    assert (assignments + [a])[..|assignments|] == assignments;
  }

  lemma FindAppended(events: seq<Event>, e: Event, id: Id)
    requires FindEvent(events, id) < |events|
    ensures FindEvent(events + [e], id) == FindEvent(events, id)
  {
    var j, k := FindEvent(events, id), FindEvent(events + [e], id);
    assert (events + [e])[j].id == id;
  }

  lemma FindReplaced(events: seq<Event>, k: nat, e: Event, id: Id)
    requires k < |events| && e.id == events[k].id
    ensures FindEvent(events[k := e], id) == FindEvent(events, id)
  {
    var i, j := FindEvent(events, id), FindEvent(events[k := e], id);
    if i < |events| {
      assert events[k := e][i].id == id;
    }
    if j < |events| {
      assert events[j].id == id;
    }
  }

  lemma TouchLeaves(s: State, a: Action, op: Op, cfg: Config, e: Event, reach: bool)
    requires !op.TickOp? && LeavesAlone(op, e.id, reach) && e.sourceKey == ""
    requires Kept(s, e, reach) && Can(s, a, op, cfg) && Touches(a)
    ensures Kept(Do(s, a, op, cfg), e, reach)
  {
    TouchKeeps(s, a, op, cfg);
    TouchStaff(s, a, op, cfg);
    FindReplaced(s.events, a.k, Do(s, a, op, cfg).events[a.k], e.id);
  }

  lemma ForgetLeaves(s: State, id: Id, e: Event, reach: bool)
    requires Sound(s) && id != e.id && Kept(s, e, reach)
    ensures Kept(DropRowsOf(s, id), e, reach)
  {
    var f := Of(s, e.id).value;
    FilterMembers(s.events, id);
    FilterDistinct(s.events, id);
    OfMember(DropRowsOf(s, id), f);
    DroppedAssignees(s.assignments, s.people, id, e.id);
  }

  lemma DoLeaves(s: State, a: Action, op: Op, cfg: Config, e: Event, reach: bool)
    requires Sound(s) && !op.TickOp? && LeavesAlone(op, e.id, reach) && e.sourceKey == ""
    requires Kept(s, e, reach) && Can(s, a, op, cfg)
    ensures Kept(Do(s, a, op, cfg), e, reach)
  {
    match a
    case AssignLast(person) =>
      OtherAssigned(s.assignments, s.people, Assignment(s.events[|s.events| - 1].id, person), e.id);
    case Enrol(f) => FindAppended(s.events, f, e.id);
    case Forget(id) => ForgetLeaves(s, id, e, reach);
    case _ => if Touches(a) { TouchLeaves(s, a, op, cfg, e, reach); }
  }

  lemma {:induction false} PathLeaves(s: State, path: seq<Action>, op: Op, cfg: Config, e: Event, reach: bool)
    requires Sound(s) && !op.TickOp? && LeavesAlone(op, e.id, reach) && e.sourceKey == "" && Kept(s, e, reach)
    ensures Kept(End(s, path, op, cfg), e, reach)
  {
    if path != [] {
      var t := End(s, path[..|path| - 1], op, cfg);
      PathLeaves(s, path[..|path| - 1], op, cfg, e, reach);
      PathSound(s, path[..|path| - 1], op, cfg);
      if Can(t, path[|path| - 1], op, cfg) {
        DoLeaves(t, path[|path| - 1], op, cfg, e, reach);
      }
    }
  }

  /** Delivery does not touch events or staff. */
  lemma DeliveryLeaves(w: World, step: Step, cfg: Config)
    requires !step.Operate?
    ensures var s, t := w.s, Next(w, step, cfg).s;
      t.events == s.events && t.people == s.people && t.assignments == s.assignments
  {
    match step
    case CollectPass(now, only, clock) =>
      PageStuckKeeps(Select(w.s, now, only, cfg).0, StuckRows(w.s.outbox, now, cfg), cfg, clock);
    case BookPass(p, clock) =>
      if CanBook(w, p) {
        BookAllFrame(w.s, ResultsOf(w.passes[p]), BookingClock(w.passes[p].now, clock), cfg);
      }
    case _ =>
  }

  // ---- what one tick brings about --------------------------------------------

  lemma RemindOneOthers(s: State, i: nat, now: Time, cfg: Config, clock: Time)
    requires i < |s.events|
    ensures var t := RemindOne(s, i, now, cfg, clock);
      && SameStaff(s, t) && t.events == s.events[i := t.events[i]]
      && t.events[i] == s.events[i].(reminderSentAt := t.events[i].reminderSentAt, unreachableNotifiedAt := t.events[i].unreachableNotifiedAt)
      && t.events[i].reminderSentAt == (if AskDue(s.events[i], now, cfg) && Reachable(s, s.events[i].id) != [] then Some(now) else s.events[i].reminderSentAt)
  {
  }

  /** The reminder pass reaches every event that is due. */
  lemma {:induction false} RemindersReach(s: State, i: nat, now: Time, cfg: Config, clock: Time, k: nat)
    requires i <= k < |s.events|
    ensures var t := RemindersFrom(s, i, now, cfg, clock);
      && SameStaff(s, t)
      && t.events[k] == s.events[k].(reminderSentAt := t.events[k].reminderSentAt, unreachableNotifiedAt := t.events[k].unreachableNotifiedAt)
      && t.events[k].reminderSentAt == (if AskDue(s.events[k], now, cfg) && Reachable(s, s.events[k].id) != [] then Some(now) else s.events[k].reminderSentAt)
    decreases k - i
  {
    var next := RemindOne(s, i, now, cfg, clock);
    RemindOneOthers(s, i, now, cfg, clock);
    if i == k {
      RemindersPast(next, i + 1, now, cfg, clock, k);
    } else {
      RemindersReach(next, i + 1, now, cfg, clock, k);
    }
  }

  lemma {:induction false} RemindersPast(s: State, i: nat, now: Time, cfg: Config, clock: Time, k: nat)
    requires k < i && k < |s.events|
    ensures var t := RemindersFrom(s, i, now, cfg, clock); SameStaff(s, t) && t.events[k] == s.events[k]
    decreases |s.events| - i
  {
    if i < |s.events| {
      RemindOneOthers(s, i, now, cfg, clock);
      RemindersPast(RemindOne(s, i, now, cfg, clock), i + 1, now, cfg, clock, k);
    }
  }

  lemma NudgeOneOthers(s: State, i: nat, now: Time, cfg: Config, clock: Time)
    requires i < |s.events|
    ensures var t := NudgeOne(s, i, now, cfg, clock);
      && SameStaff(s, t) && t.events == s.events[i := s.events[i].(nudgeSentAt := t.events[i].nudgeSentAt)]
  {
  }

  lemma {:induction false} NudgesLeave(s: State, i: nat, now: Time, cfg: Config, clock: Time, k: nat)
    requires k < |s.events|
    ensures var t := NudgesFrom(s, i, now, cfg, clock);
      && SameStaff(s, t) && t.events[k] == s.events[k].(nudgeSentAt := t.events[k].nudgeSentAt)
      && forall j | 0 <= j < |s.events| :: t.events[j].id == s.events[j].id
    decreases |s.events| - i
  {
    if i < |s.events| {
      NudgeOneOthers(s, i, now, cfg, clock);
      NudgesLeave(NudgeOne(s, i, now, cfg, clock), i + 1, now, cfg, clock, k);
    }
  }

  lemma CancelAtOthers(s: State, k: nat, cfg: Config, clock: Time)
    requires k < |s.events|
    ensures var t := CancelAt(s, k, None, true, cfg, clock);
      && SameStaff(s, t) && t.events == s.events[k := t.events[k]]
      && t.events[k].id == s.events[k].id && t.events[k].sourceKey == s.events[k].sourceKey && t.events[k].status == Cancelled
  {
  }

  /** The state the deadline hands to the switch. */
  function Told(s: State, i: nat, now: Time, clock: Time): State
    requires i < |s.events|
  {
    var e := s.events[i];
    FireWebhooks(Log(SetEvent(s, i, e.(deadlineFiredAt := Some(now))), DeadlinePassed(e.id, now)), "deadline.passed", clock)
  }

  lemma ToldKeeps(s: State, i: nat, now: Time, clock: Time)
    requires i < |s.events|
    ensures var t := Told(s, i, now, clock);
      SameStaff(s, t) && t.events == s.events[i := s.events[i].(deadlineFiredAt := Some(now))]
  {
  }

  /** Without the switch the deadline only pages. */
  lemma DeadlinePages(s: State, i: nat, now: Time, cfg: Config, clock: Time)
    requires i < |s.events| && DeadlineDue(s.events[i], |Reachable(s, s.events[i].id)|, now, cfg) && !s.events[i].cancelIfSilent
    ensures var told, t := Told(s, i, now, clock), DeadlineOne(s, i, now, cfg, clock);
      t.events == told.events && SameStaff(t, told)
  {
  }

  lemma CancelFinds(told: State, i: nat, cfg: Config, clock: Time)
    requires i < |told.events| && DistinctEventIds(told.events) && told.events[i].status != Cancelled
    ensures CancelSpec(told, told.events[i].id, None, true, cfg, clock) == (CancelAt(told, i, None, true, cfg, clock), Done)
  {
    FindDistinct(told.events, i);
  }

  lemma NotifyKeeps(s: State, page: Page, cfg: Config, clock: Time)
    ensures NotifyAdmin(s, page, cfg, clock).events == s.events && SameStaff(NotifyAdmin(s, page, cfg, clock), s)
  {
  }

  /** With it, it cancels. */
  lemma DeadlineCancels(s: State, i: nat, now: Time, cfg: Config, clock: Time)
    requires i < |s.events| && DistinctEventIds(s.events)
    requires DeadlineDue(s.events[i], |Reachable(s, s.events[i].id)|, now, cfg) && s.events[i].cancelIfSilent
    ensures var cancelled, t := CancelAt(Told(s, i, now, clock), i, None, true, cfg, clock), DeadlineOne(s, i, now, cfg, clock);
      t.events == cancelled.events && SameStaff(t, cancelled)
  {
    var told := Told(s, i, now, clock);
    ToldKeeps(s, i, now, clock);
    CancelFinds(told, i, cfg, clock);
    var cancelled := CancelAt(told, i, None, true, cfg, clock);
    NotifyKeeps(cancelled, AutoCancelled(s.events[i].id, cancelled.events[i].fanOutCount == 0), cfg, clock);
  }

  predicate Due(s: State, k: nat, now: Time, cfg: Config)
    requires k < |s.events|
  {
    DeadlineDue(s.events[k], |Reachable(s, s.events[k].id)|, now, cfg)
  }

  /** The deadline acts on the i-th event only, and calls it off if it cancels when silent. */
  predicate DeadlineMoves(s: State, t: State, i: nat, now: Time, cfg: Config) {
    && i < |s.events| == |t.events|
    && SameStaff(s, t) && t.events == s.events[i := t.events[i]]
    && t.events[i].id == s.events[i].id && t.events[i].sourceKey == s.events[i].sourceKey
    && (!Due(s, i, now, cfg) ==> t.events[i] == s.events[i])
    && (Due(s, i, now, cfg) && s.events[i].cancelIfSilent ==> t.events[i].status == Cancelled)
  }

  lemma DeadlineOneOthers(s: State, i: nat, now: Time, cfg: Config, clock: Time)
    requires i < |s.events| && DistinctEventIds(s.events)
    ensures DeadlineMoves(s, DeadlineOne(s, i, now, cfg, clock), i, now, cfg)
  {
    if Due(s, i, now, cfg) {
      var told := Told(s, i, now, clock);
      ToldKeeps(s, i, now, clock);
      if s.events[i].cancelIfSilent {
        DeadlineCancels(s, i, now, cfg, clock);
        CancelAtOthers(told, i, cfg, clock);
        DeadlineMoved(s, told, CancelAt(told, i, None, true, cfg, clock), DeadlineOne(s, i, now, cfg, clock), i, now, cfg);
      } else {
        DeadlinePages(s, i, now, cfg, clock);
        DeadlineMoved(s, told, told, DeadlineOne(s, i, now, cfg, clock), i, now, cfg);
      }
    }
  }

  /** From the flip through what follows it to the end of the step. */
  lemma DeadlineMoved(s: State, told: State, done: State, t: State, i: nat, now: Time, cfg: Config)
    requires i < |s.events| == |told.events| == |done.events| && Due(s, i, now, cfg)
    requires SameStaff(s, told) && told.events == s.events[i := s.events[i].(deadlineFiredAt := Some(now))]
    requires SameStaff(told, done) && done.events == told.events[i := done.events[i]]
    requires done.events[i].id == told.events[i].id && done.events[i].sourceKey == told.events[i].sourceKey
    requires s.events[i].cancelIfSilent ==> done.events[i].status == Cancelled
    requires t.events == done.events && SameStaff(t, done)
    ensures DeadlineMoves(s, t, i, now, cfg)
  {
  }

  /** The passes from the i-th event on, as far as the k-th event and everybody's identity go. */
  predicate DeadlinesMove(s: State, t: State, i: nat, k: nat, now: Time, cfg: Config) {
    && k < |s.events| == |t.events| && SameStaff(s, t)
    && (forall j | 0 <= j < |s.events| :: t.events[j].id == s.events[j].id && t.events[j].sourceKey == s.events[j].sourceKey)
    && var due := i <= k && Due(s, k, now, cfg);
    && (!due ==> t.events[k] == s.events[k])
    && (due && s.events[k].cancelIfSilent ==> t.events[k].status == Cancelled)
  }

  lemma DeadlinesChain(s: State, next: State, t: State, i: nat, k: nat, now: Time, cfg: Config)
    requires DistinctEventIds(s.events) && DeadlineMoves(s, next, i, now, cfg) && DeadlinesMove(next, t, i + 1, k, now, cfg)
    ensures DeadlinesMove(s, t, i, k, now, cfg)
  {
    if i != k {
      assert next.events[k] == s.events[k];
    }
  }

  lemma {:induction false} DeadlinesReach(s: State, i: nat, now: Time, cfg: Config, clock: Time, k: nat)
    requires k < |s.events| && DistinctEventIds(s.events)
    ensures DeadlinesMove(s, DeadlinesFrom(s, i, now, cfg, clock), i, k, now, cfg)
    decreases |s.events| - i
  {
    if i < |s.events| {
      var next := DeadlineOne(s, i, now, cfg, clock);
      var t := DeadlinesFrom(next, i + 1, now, cfg, clock);
      DeadlineOneOthers(s, i, now, cfg, clock);
      assert DistinctEventIds(next.events);
      DeadlinesReach(next, i + 1, now, cfg, clock, k);
      DeadlinesChain(s, next, t, i, k, now, cfg);
    }
  }

  /** The event after the asking half of a tick. */
  function AfterAsk(e: Event, reach: bool, now: Time, cfg: Config): Event {
    if AskDue(e, now, cfg) && reach then e.(reminderSentAt := Some(now)) else e
  }

  lemma TickBrings(s: State, op: Op, cfg: Config, k: nat)
    requires Sound(s) && op.TickOp? && k < |s.events| && s.events[k].cancelIfSilent
    ensures var t := Apply(s, op, cfg);
      var reachable := |Reachable(s, s.events[k].id)|;
      var e := AfterAsk(s.events[k], reachable > 0, op.now, cfg);
      && SameStaff(s, t) && |t.events| == |s.events|
      && (forall j | 0 <= j < |s.events| :: t.events[j].id == s.events[j].id)
      && (if DeadlineDue(e, reachable, op.now, cfg) then t.events[k].status == Cancelled && t.events[k].id == e.id && t.events[k].sourceKey == e.sourceKey
          else SameWait(e, t.events[k]))
  {
    var now, clock := op.now, op.clock;
    var reminded := RemindersFrom(s, 0, now, cfg, clock);
    var nudged := Nudges(reminded, now, cfg, clock);
    RemindersReach(s, 0, now, cfg, clock, k);
    NudgesLeave(reminded, 0, now, cfg, clock, k);
    RemindersKeepIds(s, 0, now, cfg, clock);
    assert DistinctEventIds(nudged.events);
    DeadlinesReach(nudged, 0, now, cfg, clock, k);
  }

  lemma {:induction false} RemindersKeepIds(s: State, i: nat, now: Time, cfg: Config, clock: Time)
    ensures var t := RemindersFrom(s, i, now, cfg, clock); forall j | 0 <= j < |s.events| :: t.events[j].id == s.events[j].id
    decreases |s.events| - i
  {
    if i < |s.events| {
      RemindOneOthers(s, i, now, cfg, clock);
      RemindersKeepIds(RemindOne(s, i, now, cfg, clock), i + 1, now, cfg, clock);
    }
  }

  // ---- a run -----------------------------------------------------------------

  /** The worlds of a run, one more than its steps. */
  ghost predicate Traces(trace: seq<World>, steps: seq<Step>, cfg: Config) {
    |trace| == |steps| + 1 && forall i: nat | i < |steps| :: Linked(trace, steps, i, cfg)
  }

  ghost predicate Linked(trace: seq<World>, steps: seq<Step>, i: nat, cfg: Config) {
    i < |steps| && i + 1 < |trace| && trace[i + 1] == Next(trace[i], steps[i], cfg)
  }

  predicate IsTick(step: Step) {
    step.Operate? && step.op.TickOp?
  }

  /** The ticks of the run go forward in time. */
  predicate Forward(steps: seq<Step>) {
    forall i, j | 0 <= i < j < |steps| && IsTick(steps[i]) && IsTick(steps[j]) :: steps[i].op.now <= steps[j].op.now
  }

  /** From `from` to `upto` no stretch of length g is without a tick. */
  ghost predicate Dense(steps: seq<Step>, from: Time, upto: Time, g: Duration) {
    forall u: Time | from <= u && u + g <= upto :: TickWithin(steps, u, g)
  }

  ghost predicate TickWithin(steps: seq<Step>, u: Time, g: Duration) {
    exists i: nat :: i < |steps| && IsTick(steps[i]) && u <= steps[i].op.now <= u + g
  }

  /** Scheduled, unfired, and due to be cancelled when silent. */
  predicate Waits(s: State, id: Id, start: Time) {
    && Of(s, id).Some?
    && var e := Of(s, id).value;
    && e.status == Scheduled && e.startsAt == start && e.cancelIfSilent && e.sourceKey == "" && e.deadlineFiredAt.None?
  }

  predicate IsOff(s: State, id: Id) {
    Of(s, id).Some? && Of(s, id).value.status == Cancelled && Of(s, id).value.sourceKey == ""
  }


  predicate StepLeaves(step: Step, id: Id, reach: bool) {
    step.Operate? ==> LeavesAlone(step.op, id, reach)
  }

  predicate AllLeave(steps: seq<Step>, id: Id, reach: bool) {
    forall i | 0 <= i < |steps| :: StepLeaves(steps[i], id, reach)
  }

  lemma OtherStep(w: World, step: Step, cfg: Config, id: Id, reach: bool)
    requires Sound(w.s) && !IsTick(step) && StepLeaves(step, id, reach)
    requires Of(w.s, id).Some? && Of(w.s, id).value.sourceKey == "" && Staffed(w.s, id) == reach
    ensures Kept(Next(w, step, cfg).s, Of(w.s, id).value, reach)
  {
    var e := Of(w.s, id).value;
    if step.Operate? {
      ApplyLeads(w.s, step.op, cfg);
      var path :| End(w.s, path, step.op, cfg) == Apply(w.s, step.op, cfg);
      PathLeaves(w.s, path, step.op, cfg, e, reach);
    } else {
      DeliveryLeaves(w, step, cfg);
    }
  }

  lemma {:induction false} FindSameIds(a: seq<Event>, b: seq<Event>, id: Id)
    requires |a| == |b| && forall i | 0 <= i < |a| :: a[i].id == b[i].id
    ensures FindEvent(a, id) == FindEvent(b, id)
  {
    var i, j := FindEvent(a, id), FindEvent(b, id);
    if i < |a| {
      assert b[i].id == id;
    }
    if j < |b| {
      assert a[j].id == id;
    }
  }

  /** A tick while the event waits: it asks when it may, and closes when it must. */
  lemma TickStep(s: State, op: Op, cfg: Config, id: Id, start: Time, reach: bool)
    requires Sound(s) && op.TickOp? && Waits(s, id, start) && Staffed(s, id) == reach
    ensures var t := Apply(s, op, cfg);
      var e := AfterAsk(Of(s, id).value, reach, op.now, cfg);
      && Staffed(t, id) == reach
      && if (e.reminderSentAt.None? ==> !reach) && (e.reminderSentAt.Some? ==> op.now - e.reminderSentAt.value >= CONFIRM_GRACE)
         && start - cfg.deadlineLead <= op.now <= start
      then IsOff(t, id)
      else Waits(t, id, start) && Of(t, id).value.reminderSentAt == e.reminderSentAt
  {
    var k := FindEvent(s.events, id);
    TickBrings(s, op, cfg, k);
    FindSameIds(s.events, Apply(s, op, cfg).events, id);
  }

  lemma TickOff(s: State, op: Op, cfg: Config, id: Id)
    requires Sound(s) && op.TickOp? && IsOff(s, id)
    ensures IsOff(Apply(s, op, cfg), id) && Staffed(Apply(s, op, cfg), id) == Staffed(s, id)
  {
    var k := FindEvent(s.events, id);
    TickIsTicked(s, op, cfg);
    var t := Apply(s, op, cfg);
    assert TickedEvent(s.events[k], t.events[k], |Reachable(s, s.events[k].id)|, op.now, cfg);
    forall j | 0 <= j < |s.events| ensures t.events[j].id == s.events[j].id {
      assert TickedEvent(s.events[j], t.events[j], |Reachable(s, s.events[j].id)|, op.now, cfg);
    }
    FindSameIds(s.events, t.events, id);
    TickKeepsKey(s, op, cfg, k);
  }

  lemma TickKeepsKey(s: State, op: Op, cfg: Config, k: nat)
    requires Sound(s) && op.TickOp? && k < |s.events|
    ensures Apply(s, op, cfg).events[k].sourceKey == s.events[k].sourceKey
  {
    var reminded := RemindersFrom(s, 0, op.now, cfg, op.clock);
    RemindersReach(s, 0, op.now, cfg, op.clock, k);
    RemindersKeepIds(s, 0, op.now, cfg, op.clock);
    NudgesLeave(reminded, 0, op.now, cfg, op.clock, k);
    DeadlinesReach(Nudges(reminded, op.now, cfg, op.clock), 0, op.now, cfg, op.clock, k);
  }

  /** The event after n steps: called off, or still waiting with an ask no later than any tick to come. */
  ghost predicate Fate(trace: seq<World>, steps: seq<Step>, n: nat, cfg: Config, id: Id, start: Time, reach: bool)
    requires n <= |steps| && n < |trace|
  {
    var s := trace[n].s;
    && Sound(s) && Staffed(s, id) == reach
    && (IsOff(s, id) || (Waits(s, id, start) && AskedBefore(Of(s, id).value, steps, n) && (!reach ==> Of(s, id).value.reminderSentAt.None?)))
  }

  predicate AskedBefore(e: Event, steps: seq<Step>, n: nat) {
    e.reminderSentAt.Some? ==> forall j | n <= j < |steps| && IsTick(steps[j]) :: e.reminderSentAt.value <= steps[j].op.now
  }

  /** Off stays off, and an ask made stays the ask of the cycle. */
  predicate Persists(s: State, t: State, id: Id) {
    && (IsOff(s, id) ==> IsOff(t, id))
    && (!IsOff(t, id) ==>
          && Of(s, id).Some? && Of(t, id).Some?
          && (Of(s, id).value.reminderSentAt.Some? ==> Of(t, id).value.reminderSentAt == Of(s, id).value.reminderSentAt))
  }

  lemma PersistsTrans(s: State, t: State, u: State, id: Id)
    requires Persists(s, t, id) && Persists(t, u, id)
    ensures Persists(s, u, id)
  {
  }

  lemma FateStep(trace: seq<World>, steps: seq<Step>, n: nat, cfg: Config, id: Id, start: Time, reach: bool)
    requires Traces(trace, steps, cfg)
    requires n < |steps| && Forward(steps) && StepLeaves(steps[n], id, reach)
    requires Fate(trace, steps, n, cfg, id, start, reach)
    ensures Fate(trace, steps, n + 1, cfg, id, start, reach)
    ensures Persists(trace[n].s, trace[n + 1].s, id)
  {
    var v := trace[n];
    assert Linked(trace, steps, n, cfg);
    SoundStep(v, steps[n], cfg);
    if !IsTick(steps[n]) {
      OtherStep(v, steps[n], cfg, id, reach);
    } else if IsOff(v.s, id) {
      TickOff(v.s, steps[n].op, cfg, id);
    } else {
      TickStep(v.s, steps[n].op, cfg, id, start, reach);
    }
  }

  lemma {:induction false} FateFrom(trace: seq<World>, steps: seq<Step>, m: nat, n: nat, cfg: Config, id: Id, start: Time, reach: bool)
    requires Traces(trace, steps, cfg)
    requires m <= n <= |steps| && Forward(steps) && AllLeave(steps, id, reach)
    requires Fate(trace, steps, m, cfg, id, start, reach)
    ensures Fate(trace, steps, n, cfg, id, start, reach)
    ensures Persists(trace[m].s, trace[n].s, id)
    decreases n - m
  {
    if m < n {
      FateFrom(trace, steps, m, n - 1, cfg, id, start, reach);
      FateStep(trace, steps, n - 1, cfg, id, start, reach);
      PersistsTrans(trace[m].s, trace[n - 1].s, trace[n].s, id);
    }
  }

  /** The tick at position i asks, when it falls into the reminder window. */
  lemma AskHappens(trace: seq<World>, steps: seq<Step>, i: nat, cfg: Config, id: Id, start: Time)
    requires Traces(trace, steps, cfg)
    requires i < |steps| && IsTick(steps[i]) && Forward(steps)
    requires Fate(trace, steps, i, cfg, id, start, true)
    requires start - cfg.reminderLead <= steps[i].op.now <= start
    ensures var t := trace[i + 1].s;
      || IsOff(t, id)
      || (Waits(t, id, start) && Of(t, id).value.reminderSentAt.Some? && Of(t, id).value.reminderSentAt.value <= steps[i].op.now)
  {
    var s := trace[i].s;
    assert Linked(trace, steps, i, cfg);
    if IsOff(s, id) {
      TickOff(s, steps[i].op, cfg, id);
    } else {
      TickStep(s, steps[i].op, cfg, id, start, true);
    }
  }

  /** The tick at position i calls the event off, when the deadline is open and the ask is old enough. */
  lemma CloseHappens(trace: seq<World>, steps: seq<Step>, i: nat, cfg: Config, id: Id, start: Time, reach: bool)
    requires Traces(trace, steps, cfg)
    requires i < |steps| && IsTick(steps[i])
    requires Fate(trace, steps, i, cfg, id, start, reach)
    requires start - cfg.deadlineLead <= steps[i].op.now <= start
    requires reach && !IsOff(trace[i].s, id) ==>
      var asked := Of(trace[i].s, id).value.reminderSentAt;
      asked.Some? && steps[i].op.now - asked.value >= CONFIRM_GRACE
    ensures IsOff(trace[i + 1].s, id)
  {
    var s := trace[i].s;
    assert Linked(trace, steps, i, cfg);
    if IsOff(s, id) {
      TickOff(s, steps[i].op, cfg, id);
    } else {
      TickStep(s, steps[i].op, cfg, id, start, reach);
    }
  }

  function Later(a: Time, b: Time): Time {
    if a >= b then a else b
  }

  /** The tick that closes is one of the run's, no later than the start. */
  ghost predicate OffByStart(trace: seq<World>, steps: seq<Step>, id: Id, start: Time) {
    exists i: nat :: i < |steps| && i + 1 < |trace| && IsTick(steps[i]) && steps[i].op.now <= start && IsOff(trace[i + 1].s, id)
  }

  lemma UnreachableCloses(trace: seq<World>, steps: seq<Step>, cfg: Config, id: Id, start: Time, from: Time, g: Duration)
    requires Traces(trace, steps, cfg)
    requires Fate(trace, steps, 0, cfg, id, start, false)
    requires Forward(steps) && AllLeave(steps, id, false)
    requires Dense(steps, from, start, g) && 0 <= g <= cfg.deadlineLead && from + g <= start
    ensures OffByStart(trace, steps, id, start)
  {
    var u := Later(from, start - cfg.deadlineLead);
    assert TickWithin(steps, u, g);
    var i: nat :| i < |steps| && IsTick(steps[i]) && u <= steps[i].op.now <= u + g;
    FateFrom(trace, steps, 0, i, cfg, id, start, false);
    CloseHappens(trace, steps, i, cfg, id, start, false);
  }

  lemma ReachableCloses(trace: seq<World>, steps: seq<Step>, cfg: Config, id: Id, start: Time, from: Time, g: Duration)
    requires Traces(trace, steps, cfg)
    requires Fate(trace, steps, 0, cfg, id, start, true)
    requires Forward(steps) && AllLeave(steps, id, true)
    requires Dense(steps, from, start, g) && 0 <= g <= cfg.deadlineLead
    requires Later(from, start - cfg.reminderLead) + 2 * g + CONFIRM_GRACE <= start
    ensures OffByStart(trace, steps, id, start)
  {
    var u := Later(from, start - cfg.reminderLead);
    assert TickWithin(steps, u, g);
    var i: nat :| i < |steps| && IsTick(steps[i]) && u <= steps[i].op.now <= u + g;
    FateFrom(trace, steps, 0, i, cfg, id, start, true);
    FateStep(trace, steps, i, cfg, id, start, true);
    AskHappens(trace, steps, i, cfg, id, start);
    AskThenClose(trace, steps, i, cfg, id, start, from, g);
  }

  /** After the ask at position i the deadline finds an old enough ask. */
  lemma AskThenClose(trace: seq<World>, steps: seq<Step>, i: nat, cfg: Config, id: Id, start: Time, from: Time, g: Duration)
    requires Traces(trace, steps, cfg)
    requires i < |steps| && IsTick(steps[i]) && Fate(trace, steps, i + 1, cfg, id, start, true)
    requires Forward(steps) && AllLeave(steps, id, true)
    requires Dense(steps, from, start, g) && 0 <= g <= cfg.deadlineLead
    requires from <= steps[i].op.now && steps[i].op.now + CONFIRM_GRACE + g <= start
    requires var t := trace[i + 1].s;
      IsOff(t, id) || (Of(t, id).value.reminderSentAt.Some? && Of(t, id).value.reminderSentAt.value <= steps[i].op.now)
    ensures OffByStart(trace, steps, id, start)
  {
    var v := Later(steps[i].op.now + CONFIRM_GRACE, start - cfg.deadlineLead);
    assert TickWithin(steps, v, g);
    var j: nat :| j < |steps| && IsTick(steps[j]) && v <= steps[j].op.now <= v + g;
    assert i < j;
    FateFrom(trace, steps, i + 1, j, cfg, id, start, true);
    CloseHappens(trace, steps, j, cfg, id, start, true);
  }

  /**
    If ticks come at most g apart with g no longer than the deadline lead, whether anyone can be
    reached does not change, and there is room for two ticks and the grace after the later of
    `from` and the opening of the reminder window, then an unasked event that cancels when
    silent and that nobody answers, moves, cancels, reinstates or deletes is called off by its
    start and stays off, whatever else the program does in between.
  */
  lemma SilenceCancels(trace: seq<World>, steps: seq<Step>, cfg: Config, id: Id, start: Time, reach: bool, from: Time, g: Duration)
    requires Traces(trace, steps, cfg)
    requires Sound(trace[0].s) && Staffed(trace[0].s, id) == reach && Waits(trace[0].s, id, start) && Of(trace[0].s, id).value.reminderSentAt.None?
    requires Forward(steps) && AllLeave(steps, id, reach)
    requires Dense(steps, from, start, g) && 0 <= g <= cfg.deadlineLead
    requires Later(from, start - cfg.reminderLead) + 2 * g + CONFIRM_GRACE <= start
    ensures OffByStart(trace, steps, id, start)
    ensures IsOff(trace[|steps|].s, id)
  {
    assert Fate(trace, steps, 0, cfg, id, start, reach);
    if reach {
      ReachableCloses(trace, steps, cfg, id, start, from, g);
    } else {
      UnreachableCloses(trace, steps, cfg, id, start, from, g);
    }
    StaysOff(trace, steps, cfg, id, start, reach);
  }

  lemma StaysOff(trace: seq<World>, steps: seq<Step>, cfg: Config, id: Id, start: Time, reach: bool)
    requires Traces(trace, steps, cfg) && Forward(steps) && AllLeave(steps, id, reach)
    requires Fate(trace, steps, 0, cfg, id, start, reach) && OffByStart(trace, steps, id, start)
    ensures IsOff(trace[|steps|].s, id)
  {
    var i: nat :| i < |steps| && i + 1 < |trace| && IsTick(steps[i]) && steps[i].op.now <= start && IsOff(trace[i + 1].s, id);
    FateFrom(trace, steps, 0, i + 1, cfg, id, start, reach);
    FateFrom(trace, steps, i + 1, |steps|, cfg, id, start, reach);
  }

  /** Ticks at most g apart, the first soon enough and the last late enough, leave no gap. */
  lemma {:induction false} SpacedIsDense(steps: seq<Step>, at: seq<nat>, from: Time, upto: Time, g: Duration)
    requires at != []
    requires forall k | 0 <= k < |at| :: at[k] < |steps| && IsTick(steps[at[k]])
    requires at[0] < |steps| && IsTick(steps[at[0]]) && steps[at[0]].op.now <= from + g
    requires forall k, l | 0 <= k < |at| && l == k + 1 && l < |at| :: IsTick(steps[at[k]]) && IsTick(steps[at[l]]) && steps[at[l]].op.now - steps[at[k]].op.now <= g
    requires at[|at| - 1] < |steps| && IsTick(steps[at[|at| - 1]]) && upto - g <= steps[at[|at| - 1]].op.now
    ensures Dense(steps, from, upto, g)
  {
    forall u: Time | from <= u && u + g <= upto ensures TickWithin(steps, u, g) {
      var k := 0;
      while steps[at[k]].op.now < u
        invariant 0 <= k < |at| && steps[at[k]].op.now <= u + g
        decreases |at| - k
      {
        assert k + 1 < |at|;
        k := k + 1;
      }
      assert u <= steps[at[k]].op.now <= u + g;
    }
  }
}
