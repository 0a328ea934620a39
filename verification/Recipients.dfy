/**
  Whatever operation propagates an event, the rows under its new transaction are one per
  recipient the event has when the operation ends, and no others.
*/
module Recipients {
  import opened Options
  import opened Core
  import opened Transitions
  import opened Delivery
  import opened CalendarSync
  import opened Operations
  import opened Actions
  import opened Coverage
  import opened Protocol
  import opened Telling
  import opened Silence
  import Record

  /** The rows of a transaction, in queue order. */
  function Under(rows: seq<Item>, txn: Id): seq<Item> {
    if rows == [] then []
    else Under(rows[..|rows| - 1], txn) + if rows[|rows| - 1].txn == Some(txn) then [rows[|rows| - 1]] else []
  }

  lemma {:induction false} UnderJoin(a: seq<Item>, b: seq<Item>, txn: Id)
    ensures Under(a + b, txn) == Under(a, txn) + Under(b, txn)
  {
    if b == [] {
      assert a + b == a;
    } else {
      UnderJoin(a, b[..|b| - 1], txn);
      assert (a + b)[..|a + b| - 1] == a + b[..|b| - 1];
    }
  }

  lemma {:induction false} UnderNone(rows: seq<Item>, txn: Id)
    requires forall i | 0 <= i < |rows| :: rows[i].txn != Some(txn)
    ensures Under(rows, txn) == []
  {
    if rows != [] {
      UnderNone(rows[..|rows| - 1], txn);
    }
  }

  lemma {:induction false} UnderAll(rows: seq<Item>, txn: Id)
    requires forall i | 0 <= i < |rows| :: rows[i].txn == Some(txn)
    ensures Under(rows, txn) == rows
  {
    if rows != [] {
      UnderAll(rows[..|rows| - 1], txn);
      assert rows == rows[..|rows| - 1] + [rows[|rows| - 1]];
    }
  }

  /** Transactions were handed out before `next`. */
  predicate RowsKnown(rows: seq<Item>, next: Id) {
    forall i | 0 <= i < |rows| && rows[i].txn.Some? :: rows[i].txn.value < next
  }

  predicate EventsKnown(events: seq<Event>, next: Id) {
    forall k | 0 <= k < |events| && events[k].fanOutTxn.Some? :: events[k].fanOutTxn.value < next
  }

  predicate Known(s: State) {
    RowsKnown(s.outbox, s.nextId) && EventsKnown(s.events, s.nextId)
  }

  /** The last transaction of the event reaches exactly whom it should. */
  ghost predicate ReachesExactly(s: State, e: Event, cfg: Config)
    requires e.fanOutTxn.Some?
  {
    var rows := Under(s.outbox, e.fanOutTxn.value);
    e.fanOutCount == |rows| && ReachesAll(rows, s, e.id, cfg)
  }

  ghost predicate ExactSince(s: State, from: Id, cfg: Config) {
    forall k | 0 <= k < |s.events| && s.events[k].fanOutTxn.Some? && s.events[k].fanOutTxn.value >= from :: ReachesExactly(s, s.events[k], cfg)
  }

  /** What every step of an operation keeps. */
  ghost predicate Exact(s: State, from: Id, op: Op, cfg: Config) {
    && Known(s) && from <= s.nextId && ExactSince(s, from, cfg)
    && (!Propagates(op) ==> EventsKnown(s.events, from))
  }

  // ---- the actions -----------------------------------------------------------

  /** Whom an event's propagation reaches depends on these only. */
  predicate SameAudience(s: State, t: State, event: Id) {
    && t.broadcasts == s.broadcasts && t.guests == s.guests && Assignees(t, event) == Assignees(s, event)
  }

  lemma ReachSame(s: State, t: State, e: Event, f: Event, cfg: Config)
    requires e.fanOutTxn.Some? && ReachesExactly(s, e, cfg) && SameAudience(s, t, e.id)
    requires f.id == e.id && f.fanOutTxn == e.fanOutTxn && f.fanOutCount == e.fanOutCount
    requires Under(t.outbox, e.fanOutTxn.value) == Under(s.outbox, e.fanOutTxn.value)
    ensures ReachesExactly(t, f, cfg)
  {
    ReachesAllSame(s, t, Under(s.outbox, e.fanOutTxn.value), e.id, cfg);
  }

  /** Rows of no transaction come on top. */
  lemma PostExact(s: State, drafts: seq<Item>, clock: Time, from: Id, op: Op, cfg: Config)
    requires Exact(s, from, op, cfg) && Loose(drafts)
    ensures Exact(EnqueueAll(s, drafts, clock), from, op, cfg)
  {
    var t := EnqueueAll(s, drafts, clock);
    var rows := Transitions.Stamp(drafts, s.nextId, clock);
    forall k | 0 <= k < |t.events| && t.events[k].fanOutTxn.Some? && t.events[k].fanOutTxn.value >= from
      ensures ReachesExactly(t, t.events[k], cfg)
    {
      UnderJoin(s.outbox, rows, t.events[k].fanOutTxn.value);
      UnderNone(rows, t.events[k].fanOutTxn.value);
      ReachSame(s, t, s.events[k], t.events[k], cfg);
    }
  }

  /** What the fan-out appended. */
  lemma SpreadRows(s: State, k: nat, purpose: Purpose, cfg: Config, clock: Time) returns (rows: seq<Item>)
    requires k < |s.events|
    ensures var t := FanOut(s, k, purpose, cfg, clock);
      && t.outbox == s.outbox + rows && (forall i | 0 <= i < |rows| :: rows[i].txn == Some(s.nextId))
      && t.events == s.events[k := t.events[k]] && t.events[k].id == s.events[k].id
      && t.events[k].fanOutTxn == Some(s.nextId) && t.events[k].fanOutCount == |rows|
      && s.nextId < t.nextId && ReachesAll(rows, s, s.events[k].id, cfg)
      && t.broadcasts == s.broadcasts && t.guests == s.guests && t.people == s.people && t.assignments == s.assignments
  {
    rows := FanOut(s, k, purpose, cfg, clock).outbox[|s.outbox|..];
    FanOutIsExact(s, k, purpose, cfg, clock);
  }

  lemma SpreadOne(s: State, t: State, k: nat, rows: seq<Item>, cfg: Config)
    requires RowsKnown(s.outbox, s.nextId) && k < |t.events| && t.events[k].fanOutTxn == Some(s.nextId)
    requires t.outbox == s.outbox + rows && (forall i | 0 <= i < |rows| :: rows[i].txn == Some(s.nextId))
    requires t.events[k].fanOutCount == |rows| && ReachesAll(rows, t, t.events[k].id, cfg)
    ensures ReachesExactly(t, t.events[k], cfg)
  {
    UnderJoin(s.outbox, rows, s.nextId);
    UnderNone(s.outbox, s.nextId);
    UnderAll(rows, s.nextId);
    assert [] + rows == rows;
  }

  lemma SpreadOther(s: State, t: State, e: Event, rows: seq<Item>, cfg: Config)
    requires e.fanOutTxn.Some? && e.fanOutTxn.value < s.nextId && ReachesExactly(s, e, cfg) && SameAudience(s, t, e.id)
    requires t.outbox == s.outbox + rows && (forall i | 0 <= i < |rows| :: rows[i].txn == Some(s.nextId))
    ensures ReachesExactly(t, e, cfg)
  {
    UnderJoin(s.outbox, rows, e.fanOutTxn.value);
    UnderNone(rows, e.fanOutTxn.value);
    ReachSame(s, t, e, e, cfg);
  }

  /** All events after the k-th was propagated to these rows. */
  lemma SpreadSince(s: State, t: State, k: nat, rows: seq<Item>, from: Id, cfg: Config)
    requires Known(s) && ExactSince(s, from, cfg) && k < |s.events| == |t.events| && t.events == s.events[k := t.events[k]]
    requires t.broadcasts == s.broadcasts && t.guests == s.guests && t.people == s.people && t.assignments == s.assignments
    requires t.outbox == s.outbox + rows && (forall i | 0 <= i < |rows| :: rows[i].txn == Some(s.nextId))
    requires t.events[k].fanOutTxn == Some(s.nextId) && t.events[k].fanOutCount == |rows|
    requires ReachesAll(rows, t, t.events[k].id, cfg)
    ensures ExactSince(t, from, cfg)
  {
    forall j | 0 <= j < |t.events| && t.events[j].fanOutTxn.Some? && t.events[j].fanOutTxn.value >= from
      ensures ReachesExactly(t, t.events[j], cfg)
    {
      if j == k {
        SpreadOne(s, t, k, rows, cfg);
      } else {
        SpreadOther(s, t, s.events[j], rows, cfg);
      }
    }
  }

  lemma SpreadExact(s: State, k: nat, purpose: Purpose, clock: Time, from: Id, op: Op, cfg: Config)
    requires Exact(s, from, op, cfg) && k < |s.events| && Propagates(op)
    ensures Exact(FanOut(s, k, purpose, cfg, clock), from, op, cfg)
  {
    var t := FanOut(s, k, purpose, cfg, clock);
    var rows := SpreadRows(s, k, purpose, cfg, clock);
    ReachesAllSame(s, t, rows, t.events[k].id, cfg);
    SpreadSince(s, t, k, rows, from, cfg);
  }

  lemma ReachesAllSame(s: State, t: State, rows: seq<Item>, event: Id, cfg: Config)
    requires SameAudience(s, t, event) && ReachesAll(rows, s, event, cfg)
    ensures ReachesAll(rows, t, event, cfg)
  {
  }

  /** The outbox stays, and the event replaced keeps its last transaction. */
  lemma ReplacedExact(s: State, t: State, k: nat, from: Id, op: Op, cfg: Config)
    requires Exact(s, from, op, cfg) && k < |s.events| == |t.events| && t.events == s.events[k := t.events[k]]
    requires t.events[k].id == s.events[k].id && t.events[k].fanOutTxn == s.events[k].fanOutTxn && t.events[k].fanOutCount == s.events[k].fanOutCount
    requires t.outbox == s.outbox && t.nextId == s.nextId
    requires t.broadcasts == s.broadcasts && t.guests == s.guests && t.people == s.people && t.assignments == s.assignments
    ensures Exact(t, from, op, cfg)
  {
    forall j | 0 <= j < |t.events| && t.events[j].fanOutTxn.Some? && t.events[j].fanOutTxn.value >= from
      ensures ReachesExactly(t, t.events[j], cfg)
    {
      ReachSame(s, t, s.events[j], t.events[j], cfg);
    }
  }

  lemma TouchKeepsTxn(s: State, a: Action, op: Op, cfg: Config)
    requires Can(s, a, op, cfg) && Touches(a) && !a.Spread?
    ensures var t := Do(s, a, op, cfg);
      && t.events[a.k].fanOutTxn == s.events[a.k].fanOutTxn && t.events[a.k].fanOutCount == s.events[a.k].fanOutCount
      && t.outbox == s.outbox && t.nextId == s.nextId
      && t.broadcasts == s.broadcasts && t.guests == s.guests && t.people == s.people && t.assignments == s.assignments
  {
  }

  lemma EnrolExact(s: State, e: Event, from: Id, op: Op, cfg: Config)
    requires Exact(s, from, op, cfg) && e.fanOutTxn.None?
    ensures Exact(Store(s, e), from, op, cfg)
  {
    var t := Store(s, e);
    forall j | 0 <= j < |t.events| && t.events[j].fanOutTxn.Some? && t.events[j].fanOutTxn.value >= from
      ensures ReachesExactly(t, t.events[j], cfg)
    {
      ReachSame(s, t, s.events[j], t.events[j], cfg);
    }
  }

  /** A freshly created event inherits an assignee: it was not propagated yet. */
  lemma AssignExact(s: State, person: Id, from: Id, op: Op, cfg: Config)
    requires Sound(s) && Exact(s, from, op, cfg) && s.events != [] && s.events[|s.events| - 1].fanOutTxn.None?
    ensures Exact(s.(assignments := s.assignments + [Assignment(s.events[|s.events| - 1].id, person)]), from, op, cfg)
  {
    var last := s.events[|s.events| - 1].id;
    var t := s.(assignments := s.assignments + [Assignment(last, person)]);
    forall j | 0 <= j < |t.events| && t.events[j].fanOutTxn.Some? && t.events[j].fanOutTxn.value >= from
      ensures ReachesExactly(t, t.events[j], cfg)
    {
      OtherAssigned(s.assignments, s.people, Assignment(last, person), s.events[j].id);
      ReachSame(s, t, s.events[j], t.events[j], cfg);
    }
  }

  /** Staffing and deletion propagate nothing, so nothing is claimed afterwards. */
  lemma NothingNew(t: State, from: Id, op: Op, cfg: Config)
    requires Known(t) && from <= t.nextId && EventsKnown(t.events, from)
    ensures Exact(t, from, op, cfg)
  {
  }

  lemma ForgetExact(s: State, id: Id, from: Id, op: Op, cfg: Config)
    requires Exact(s, from, op, cfg) && !Propagates(op)
    ensures Exact(Log(DropRowsOf(s, id), EventDeleted(id)), from, op, cfg)
  {
    var t := Log(DropRowsOf(s, id), EventDeleted(id));
    FilterMembers(s.events, id);
    forall k | 0 <= k < |t.events| ensures t.events[k] in s.events {
    }
    NothingNew(t, from, op, cfg);
  }

  lemma DoExact(s: State, a: Action, from: Id, op: Op, cfg: Config)
    requires Sound(s) && Exact(s, from, op, cfg) && Can(s, a, op, cfg)
    ensures Exact(Do(s, a, op, cfg), from, op, cfg)
  {
    if Touches(a) && !a.Spread? {
      TouchKeeps(s, a, op, cfg);
      TouchKeepsTxn(s, a, op, cfg);
      ReplacedExact(s, Do(s, a, op, cfg), a.k, from, op, cfg);
    } else if a.Restaff? {
      NothingNew(Do(s, a, op, cfg), from, op, cfg);
    } else {
      DoOtherExact(s, a, from, op, cfg);
    }
  }

  lemma DoOtherExact(s: State, a: Action, from: Id, op: Op, cfg: Config)
    requires Sound(s) && Exact(s, from, op, cfg) && Can(s, a, op, cfg) && (!Touches(a) || a.Spread?) && !a.Restaff?
    ensures Exact(Do(s, a, op, cfg), from, op, cfg)
  {
    if a.Post? {
      PostExact(s, a.drafts, a.clock, from, op, cfg);
    } else if a.Spread? {
      SpreadExact(s, a.k, a.purpose, a.clock, from, op, cfg);
    } else if a.Enrol? {
      EnrolExact(s, a.e, from, op, cfg);
    } else if a.AssignLast? {
      AssignExact(s, a.person, from, op, cfg);
    } else if a.Forget? {
      ForgetExact(s, a.id, from, op, cfg);
    } else {
      UntouchedExact(s, Do(s, a, op, cfg), from, op, cfg);
    }
  }

  lemma UntouchedExact(s: State, t: State, from: Id, op: Op, cfg: Config)
    requires Exact(s, from, op, cfg) && t == s.(audit := t.audit, responses := t.responses)
    ensures Exact(t, from, op, cfg)
  {
    forall j | 0 <= j < |t.events| && t.events[j].fanOutTxn.Some? && t.events[j].fanOutTxn.value >= from
      ensures ReachesExactly(t, t.events[j], cfg)
    {
      ReachSame(s, t, s.events[j], t.events[j], cfg);
    }
  }

  lemma {:induction false} PathExact(s: State, path: seq<Action>, from: Id, op: Op, cfg: Config)
    requires Sound(s) && Exact(s, from, op, cfg)
    ensures Exact(End(s, path, op, cfg), from, op, cfg)
  {
    if path != [] {
      var t := End(s, path[..|path| - 1], op, cfg);
      PathExact(s, path[..|path| - 1], from, op, cfg);
      PathSound(s, path[..|path| - 1], op, cfg);
      if Can(t, path[|path| - 1], op, cfg) {
        DoExact(t, path[|path| - 1], from, op, cfg);
      }
    }
  }

  // ---- every operation in every reachable state ------------------------------

  lemma ReachableKnown(steps: seq<Step>, cfg: Config)
    ensures Known(Run(steps, cfg).s)
  {
    var w := Run(steps, cfg);
    Record.AlwaysRecorded(steps, cfg);
    forall k | 0 <= k < |w.s.events| && w.s.events[k].fanOutTxn.Some? ensures w.s.events[k].fanOutTxn.value < w.s.nextId {
      assert Record.EventRecorded(w.s.events[k], w.s.outbox, w.pruned, w.s.nextId);
    }
    forall i | 0 <= i < |w.s.outbox| && w.s.outbox[i].txn.Some? ensures w.s.outbox[i].txn.value < w.s.nextId {
      assert Record.Tagged(w.s.outbox[i], w.s.nextId);
    }
  }

  lemma ApplyExact(s: State, op: Op, cfg: Config)
    requires Sound(s) && Known(s)
    ensures ExactSince(Apply(s, op, cfg), s.nextId, cfg)
  {
    ApplyLeads(s, op, cfg);
    var path :| End(s, path, op, cfg) == Apply(s, op, cfg);
    PathExact(s, path, s.nextId, op, cfg);
  }

  /**
    An operation in a reachable state that cancels, reinstates or moves an event leaves it with a
    new transaction, whose rows in the outbox are exactly one per broadcast, usable channel of
    each assignee and distinct guest address, as many as the event counts; if there are none,
    the administrator is told.
  */
  lemma EveryChangeReachesExactly(steps: seq<Step>, op: Op, cfg: Config, i: nat, j: nat)
    requires var s := Run(steps, cfg).s;
      && i < |s.events| && j < |Apply(s, op, cfg).events| && Apply(s, op, cfg).events[j].id == s.events[i].id
    requires var s := Run(steps, cfg).s;
      var e, f := s.events[i], Apply(s, op, cfg).events[j];
      (e.status == Cancelled) != (f.status == Cancelled) || e.startsAt != f.startsAt || e.fanOutTxn != f.fanOutTxn
    ensures var s := Run(steps, cfg).s;
      var t := Apply(s, op, cfg);
      var f := t.events[j];
      && f.fanOutTxn.Some? && f.fanOutTxn.value >= s.nextId
      && ReachesExactly(t, f, cfg) && (f.fanOutCount == 0 ==> AdminTold(s, t, f.id))
  {
    var s := Run(steps, cfg).s;
    AlwaysSafe(steps, cfg);
    ReachableKnown(steps, cfg);
    NeverSilent(s, op, cfg, i, j);
    ApplyExact(s, op, cfg);
  }
}
