/**
  The delivery record of an event's last propagation: in every reachable state the rows of
  its transaction, stored or pruned, are exactly as many as the fan-out counted.
*/
module Record {
  import opened Options
  import opened Core
  import opened Transitions
  import opened Delivery
  import opened CalendarSync
  import opened Operations
  import opened Actions
  import opened Coverage
  import opened Rows
  import opened Protocol

  /** How many of these rows were enqueued under this transaction. */
  function TxnRows(rows: seq<Item>, txn: Id): nat {
    if rows == [] then 0
    else TxnRows(rows[..|rows| - 1], txn) + if rows[|rows| - 1].txn == Some(txn) then 1 else 0
  }

  predicate Tagged(o: Item, next: Id) {
    && (o.purpose in PROPAGATED <==> o.txn.Some?)
    && (o.txn.Some? ==> o.txn.value < next && o.eventId.Some? && o.eventId.value < next)
  }

  predicate AllTagged(rows: seq<Item>, next: Id) {
    forall i | 0 <= i < |rows| :: Tagged(rows[i], next)
  }

  predicate Unheard(e: Event, outbox: seq<Item>) {
    e.fanOutCount == 0 && forall i | 0 <= i < |outbox| :: outbox[i].purpose in PROPAGATED ==> outbox[i].eventId != Some(e.id)
  }

  predicate Counted(e: Event, txn: Id, outbox: seq<Item>, pruned: seq<Item>, next: Id) {
    && txn < next
    && e.fanOutCount == TxnRows(outbox, txn) + TxnRows(pruned, txn)
    && forall i | 0 <= i < |outbox| :: outbox[i].txn == Some(txn) ==> outbox[i].eventId == Some(e.id)
  }

  predicate EventRecorded(e: Event, outbox: seq<Item>, pruned: seq<Item>, next: Id) {
    && (e.fanOutAt.Some? <==> e.fanOutTxn.Some?)
    && (e.fanOutTxn.None? ==> Unheard(e, outbox))
    && (e.fanOutTxn.Some? ==> Counted(e, e.fanOutTxn.value, outbox, pruned, next))
  }

  predicate DistinctTxns(events: seq<Event>) {
    forall i, j | 0 <= i < j < |events| && events[i].fanOutTxn.Some? :: events[i].fanOutTxn != events[j].fanOutTxn
  }

  predicate Recorded(s: State, pruned: seq<Item>) {
    && (forall k | 0 <= k < |s.events| :: EventRecorded(s.events[k], s.outbox, pruned, s.nextId))
    && AllTagged(s.outbox, s.nextId) && AllTagged(pruned, s.nextId)
    && (forall i | 0 <= i < |pruned| :: pruned[i].Delivered())
    && DistinctTxns(s.events)
  }

  // ---- counting --------------------------------------------------------------

  lemma {:induction false} TxnRowsJoin(a: seq<Item>, b: seq<Item>, txn: Id)
    ensures TxnRows(a + b, txn) == TxnRows(a, txn) + TxnRows(b, txn)
  {
    if b == [] {
      assert a + b == a;
    } else {
      TxnRowsJoin(a, b[..|b| - 1], txn);
      assert (a + b)[..|a + b| - 1] == a + b[..|b| - 1];
    }
  }

  lemma {:induction false} TxnRowsNone(rows: seq<Item>, txn: Id)
    requires forall i | 0 <= i < |rows| :: rows[i].txn != Some(txn)
    ensures TxnRows(rows, txn) == 0
  {
    if rows != [] {
      TxnRowsNone(rows[..|rows| - 1], txn);
    }
  }

  lemma {:induction false} TxnRowsAll(rows: seq<Item>, txn: Id)
    requires forall i | 0 <= i < |rows| :: rows[i].txn == Some(txn)
    ensures TxnRows(rows, txn) == |rows|
  {
    if rows != [] {
      TxnRowsAll(rows[..|rows| - 1], txn);
    }
  }

  /** The same rows as far as the record is concerned. */
  predicate SameTags(a: seq<Item>, b: seq<Item>) {
    |a| == |b| && forall i | 0 <= i < |a| :: a[i].txn == b[i].txn && a[i].eventId == b[i].eventId && a[i].purpose == b[i].purpose
  }

  lemma {:induction false} TxnRowsSame(a: seq<Item>, b: seq<Item>, txn: Id)
    requires SameTags(a, b)
    ensures TxnRows(a, txn) == TxnRows(b, txn)
  {
    if a != [] {
      TxnRowsSame(a[..|a| - 1], b[..|b| - 1], txn);
    }
  }

  lemma {:induction false} TxnRowsPruned(outbox: seq<Item>, events: seq<Event>, cutoff: Time, txn: Id)
    ensures TxnRows(Kept(outbox, events, cutoff), txn) + TxnRows(Dropped(outbox, events, cutoff), txn) == TxnRows(outbox, txn)
  {
    if outbox != [] {
      var n := |outbox| - 1;
      TxnRowsPruned(outbox[..n], events, cutoff, txn);
      TxnRowsJoin(Kept(outbox[..n], events, cutoff), [outbox[n]], txn);
      TxnRowsJoin(Dropped(outbox[..n], events, cutoff), [outbox[n]], txn);
      assert [outbox[n]][..0] == [];
    }
  }

  // ---- one event's record under a change of the rows -------------------------

  lemma RecordRetagged(e: Event, a: seq<Item>, b: seq<Item>, pruned: seq<Item>, next: Id, later: Id)
    requires EventRecorded(e, a, pruned, next) && SameTags(a, b) && next <= later
    ensures EventRecorded(e, b, pruned, later)
  {
    if e.fanOutTxn.Some? {
      TxnRowsSame(a, b, e.fanOutTxn.value);
    }
  }

  /** Appended rows are of no transaction, or of a newer one of another event. */
  lemma RecordAppended(e: Event, outbox: seq<Item>, rows: seq<Item>, pruned: seq<Item>, next: Id, later: Id)
    requires EventRecorded(e, outbox, pruned, next) && next <= later
    requires forall i | 0 <= i < |rows| :: rows[i].txn.Some? ==> next <= rows[i].txn.value
    requires forall i | 0 <= i < |rows| :: rows[i].purpose in PROPAGATED ==> rows[i].eventId != Some(e.id)
    ensures EventRecorded(e, outbox + rows, pruned, later)
  {
    if e.fanOutTxn.Some? {
      TxnRowsJoin(outbox, rows, e.fanOutTxn.value);
      TxnRowsNone(rows, e.fanOutTxn.value);
    }
  }

  lemma RecordPruned(e: Event, outbox: seq<Item>, pruned: seq<Item>, next: Id, events: seq<Event>, cutoff: Time)
    requires EventRecorded(e, outbox, pruned, next)
    ensures EventRecorded(e, Kept(outbox, events, cutoff), pruned + Dropped(outbox, events, cutoff), next)
  {
    var kept := Kept(outbox, events, cutoff);
    KeptRows(outbox, events, cutoff);
    forall i | 0 <= i < |kept| ensures kept[i] in outbox {
    }
    if e.fanOutTxn.Some? {
      TxnRowsPruned(outbox, events, cutoff, e.fanOutTxn.value);
      TxnRowsJoin(pruned, Dropped(outbox, events, cutoff), e.fanOutTxn.value);
    }
  }

  /** The event that was just propagated to these rows. */
  lemma RecordFannedOut(e: Event, outbox: seq<Item>, rows: seq<Item>, pruned: seq<Item>, txn: Id, later: Id)
    requires AllTagged(outbox, txn) && AllTagged(pruned, txn) && txn < later
    requires forall i | 0 <= i < |rows| :: rows[i].txn == Some(txn) && rows[i].eventId == Some(e.id)
    requires e.fanOutAt.Some? && e.fanOutTxn == Some(txn) && e.fanOutCount == |rows|
    ensures EventRecorded(e, outbox + rows, pruned, later)
  {
    TxnRowsJoin(outbox, rows, txn);
    TxnRowsNone(outbox, txn);
    TxnRowsNone(pruned, txn);
    TxnRowsAll(rows, txn);
  }

  // ---- the actions -----------------------------------------------------------

  lemma PostRecorded(s: State, drafts: seq<Item>, clock: Time, pruned: seq<Item>)
    requires Recorded(s, pruned) && Loose(drafts)
    ensures Recorded(EnqueueAll(s, drafts, clock), pruned)
  {
    var t := EnqueueAll(s, drafts, clock);
    var rows := Stamp(drafts, s.nextId, clock);
    forall k | 0 <= k < |t.events| ensures EventRecorded(t.events[k], t.outbox, pruned, t.nextId) {
      RecordAppended(s.events[k], s.outbox, rows, pruned, s.nextId, t.nextId);
    }
  }

  lemma SpreadRecorded(s: State, k: nat, purpose: Purpose, clock: Time, cfg: Config, pruned: seq<Item>)
    requires Sound(s) && Recorded(s, pruned) && k < |s.events| && purpose in PROPAGATED
    ensures Recorded(FanOut(s, k, purpose, cfg, clock), pruned)
  {
    var t := FanOut(s, k, purpose, cfg, clock);
    var d := Draft(Some(s.events[k].id), purpose, Some(s.nextId), "", "", Plain);
    var drafts := FanOutDrafts(s, s.events[k].id, d, cfg);
    var rows := Stamp(drafts, s.nextId + 1, clock);
    FanOutCopies(s, s.events[k].id, d, cfg);
    SpreadEvents(s, k, t.events, rows, pruned, t.nextId);
    FreshTxn(s, k, t.events[k], pruned);
  }

  /** The records of all events after the k-th was propagated to these rows. */
  lemma SpreadEvents(s: State, k: nat, events: seq<Event>, rows: seq<Item>, pruned: seq<Item>, later: Id)
    requires Sound(s) && Recorded(s, pruned) && k < |s.events| == |events| && events == s.events[k := events[k]]
    requires s.nextId < later && events[k].id == s.events[k].id
    requires forall i | 0 <= i < |rows| :: rows[i].txn == Some(s.nextId) && rows[i].eventId == Some(events[k].id)
    requires events[k].fanOutAt.Some? && events[k].fanOutTxn == Some(s.nextId) && events[k].fanOutCount == |rows|
    ensures forall j | 0 <= j < |events| :: EventRecorded(events[j], s.outbox + rows, pruned, later)
  {
    forall j | 0 <= j < |events| ensures EventRecorded(events[j], s.outbox + rows, pruned, later) {
      if j == k {
        RecordFannedOut(events[k], s.outbox, rows, pruned, s.nextId, later);
      } else {
        RecordAppended(s.events[j], s.outbox, rows, pruned, s.nextId, later);
      }
    }
  }

  lemma FreshTxn(s: State, k: nat, e: Event, pruned: seq<Item>)
    requires Recorded(s, pruned) && k < |s.events| && e.fanOutTxn == Some(s.nextId)
    ensures DistinctTxns(s.events[k := e])
  {
    forall j | 0 <= j < |s.events| ensures s.events[j].fanOutTxn != Some(s.nextId) {
      assert EventRecorded(s.events[j], s.outbox, pruned, s.nextId);
    }
  }

  /** An event was replaced, its record untouched. */
  lemma UpdateRecorded(s: State, k: nat, e: Event, next: Id, pruned: seq<Item>)
    requires Recorded(s, pruned) && k < |s.events| && s.nextId <= next
    requires e.id == s.events[k].id && e.fanOutAt == s.events[k].fanOutAt
    requires e.fanOutCount == s.events[k].fanOutCount && e.fanOutTxn == s.events[k].fanOutTxn
    ensures Recorded(SetEvent(s, k, e).(nextId := next), pruned)
  {
    forall j | 0 <= j < |s.events| ensures EventRecorded(SetEvent(s, k, e).events[j], s.outbox, pruned, next) {
      assert EventRecorded(s.events[j], s.outbox, pruned, s.nextId);
    }
  }

  lemma EnrolRecorded(s: State, e: Event, pruned: seq<Item>)
    requires Recorded(s, pruned)
    requires e.id == s.nextId && e.fanOutAt.None? && e.fanOutTxn.None? && e.fanOutCount == 0
    ensures Recorded(Store(s, e), pruned)
  {
    forall j | 0 <= j < |s.events| ensures EventRecorded(s.events[j], s.outbox, pruned, s.nextId + 1) {
      assert EventRecorded(s.events[j], s.outbox, pruned, s.nextId);
    }
    assert Unheard(e, s.outbox);
  }

  lemma {:induction false} FilterTxns(events: seq<Event>, id: Id)
    requires DistinctTxns(events)
    ensures DistinctTxns(Filter(events, IsEvent(id)))
  {
    if events != [] {
      var n := |events| - 1;
      FilterTxns(events[..n], id);
      FilterMembers(events[..n], id);
      var front := Filter(events[..n], IsEvent(id));
      forall i | 0 <= i < |front| ensures front[i].fanOutTxn.Some? ==> front[i].fanOutTxn != events[n].fanOutTxn {
        assert front[i] in events[..n];
      }
    }
  }

  lemma ForgetRecorded(s: State, id: Id, pruned: seq<Item>)
    requires Recorded(s, pruned)
    ensures Recorded(DropRowsOf(s, id), pruned)
  {
    FilterTxns(s.events, id);
    FilterMembers(s.events, id);
    var kept := Filter(s.events, IsEvent(id));
    forall j | 0 <= j < |kept| ensures EventRecorded(kept[j], s.outbox, pruned, s.nextId) {
      assert kept[j] in s.events;
    }
  }

  lemma DoRecorded(s: State, a: Action, op: Op, cfg: Config, pruned: seq<Item>)
    requires Sound(s) && Recorded(s, pruned) && Can(s, a, op, cfg)
    ensures Recorded(Do(s, a, op, cfg), pruned)
  {
    if a.Post? {
      PostRecorded(s, a.drafts, a.clock, pruned);
    } else if a.Spread? {
      SpreadRecorded(s, a.k, a.purpose, a.clock, cfg, pruned);
    } else if a.Enrol? {
      EnrolRecorded(s, a.e, pruned);
    } else if a.Forget? {
      ForgetRecorded(s, a.id, pruned);
    } else if Touches(a) {
      TouchRecorded(s, a, op, cfg, pruned);
    }
  }

  lemma TouchRecorded(s: State, a: Action, op: Op, cfg: Config, pruned: seq<Item>)
    requires Recorded(s, pruned) && Can(s, a, op, cfg) && Touches(a) && !a.Spread?
    ensures Recorded(Do(s, a, op, cfg), pruned)
  {
    var t := Do(s, a, op, cfg);
    assert t.outbox == s.outbox && t.nextId == s.nextId && t.events == s.events[a.k := t.events[a.k]];
    UpdateRecorded(s, a.k, t.events[a.k], s.nextId, pruned);
  }

  lemma {:induction false} PathRecorded(s: State, path: seq<Action>, op: Op, cfg: Config, pruned: seq<Item>)
    requires Sound(s) && Recorded(s, pruned)
    ensures Recorded(End(s, path, op, cfg), pruned)
  {
    if path != [] {
      var t := End(s, path[..|path| - 1], op, cfg);
      PathRecorded(s, path[..|path| - 1], op, cfg, pruned);
      PathSound(s, path[..|path| - 1], op, cfg);
      if Can(t, path[|path| - 1], op, cfg) {
        DoRecorded(t, path[|path| - 1], op, cfg, pruned);
      }
    }
  }

  // ---- the delivery steps ----------------------------------------------------

  /** The rows were only retagged with attempts, deliveries and escalations. */
  lemma RetaggedRecorded(s: State, t: State, pruned: seq<Item>)
    requires Recorded(s, pruned) && t.events == s.events && s.nextId <= t.nextId && SameTags(s.outbox, t.outbox)
    ensures Recorded(t, pruned)
  {
    forall k | 0 <= k < |t.events| ensures EventRecorded(t.events[k], t.outbox, pruned, t.nextId) {
      RecordRetagged(s.events[k], s.outbox, t.outbox, pruned, s.nextId, t.nextId);
    }
  }

  lemma {:induction false} PageStuckRecorded(s: State, rows: seq<Id>, cfg: Config, clock: Time, pruned: seq<Item>)
    requires Recorded(s, pruned)
    ensures Recorded(PageStuck(s, rows, cfg, clock), pruned)
  {
    if rows != [] {
      var front := PageStuck(s, rows[..|rows| - 1], cfg, clock);
      PageStuckRecorded(s, rows[..|rows| - 1], cfg, clock, pruned);
      if cfg.adminNotify.Some? {
        var page := Draft(None, Escalation, None, cfg.adminNotify.value.kind, cfg.adminNotify.value.to, Admin(DeliveryStuck(rows[|rows| - 1])));
        PostRecorded(front, [page], clock, pruned);
      }
    }
  }

  lemma {:induction false} BookAllTags(s: State, results: seq<Result>, at: Time, cfg: Config)
    ensures SameTags(s.outbox, BookAll(s, results, at, cfg).outbox)
    decreases |results|
  {
    if results != [] {
      var next := BookOne(s, results[0], at, cfg);
      assert SameTags(s.outbox, next.outbox);
      BookAllTags(next, results[1..], at, cfg);
    }
  }

  lemma PruneRecorded(s: State, now: Time, cfg: Config, pruned: seq<Item>)
    requires Recorded(s, pruned)
    ensures Recorded(Prune(s, now, cfg), pruned + Dropped(s.outbox, s.events, now - cfg.outboxRetention))
  {
    var cutoff := now - cfg.outboxRetention;
    var t := Prune(s, now, cfg);
    var kept := Kept(s.outbox, s.events, cutoff);
    var dropped := Dropped(s.outbox, s.events, cutoff);
    PruneOutbox(s, now, cfg);
    KeptRows(s.outbox, s.events, cutoff);
    DroppedRows(s.outbox, s.events, cutoff);
    forall k | 0 <= k < |t.events| ensures EventRecorded(t.events[k], t.outbox, pruned + dropped, t.nextId) {
      RecordPruned(s.events[k], s.outbox, pruned, s.nextId, s.events, cutoff);
    }
    forall i | 0 <= i < |kept| ensures Tagged(kept[i], s.nextId) {
      assert kept[i] in s.outbox;
    }
    forall i | 0 <= i < |dropped| ensures Tagged(dropped[i], s.nextId) && dropped[i].Delivered() {
      assert dropped[i] in s.outbox;
    }
  }

  lemma OperateRecorded(s: State, op: Op, cfg: Config, pruned: seq<Item>)
    requires Sound(s) && Recorded(s, pruned)
    ensures Recorded(Apply(s, op, cfg), pruned)
  {
    ApplyLeads(s, op, cfg);
    var path :| End(s, path, op, cfg) == Apply(s, op, cfg);
    PathRecorded(s, path, op, cfg, pruned);
  }

  lemma CollectRecorded(w: World, now: Time, only: Option<set<Id>>, cfg: Config, clock: Time)
    requires Recorded(w.s, w.pruned)
    ensures Recorded(CollectStep(w, now, only, cfg, clock).s, w.pruned)
  {
    var t := Select(w.s, now, only, cfg).0;
    RetaggedRecorded(w.s, t, w.pruned);
    PageStuckRecorded(t, StuckRows(w.s.outbox, now, cfg), cfg, clock, w.pruned);
  }

  lemma BookRecorded(w: World, p: nat, cfg: Config, clock: Time)
    requires Recorded(w.s, w.pruned) && CanBook(w, p)
    ensures Recorded(BookStep(w, p, cfg, clock).s, w.pruned)
  {
    var at := BookingClock(w.passes[p].now, clock);
    BookAllTags(w.s, ResultsOf(w.passes[p]), at, cfg);
    BookAllFrame(w.s, ResultsOf(w.passes[p]), at, cfg);
    RetaggedRecorded(w.s, BookStep(w, p, cfg, clock).s, w.pruned);
  }

  lemma RetryRecorded(s: State, id: Id, clock: Time, pruned: seq<Item>)
    requires Recorded(s, pruned)
    ensures Recorded(Retry(s, id, clock).0, pruned)
  {
    RetaggedRecorded(s, Retry(s, id, clock).0, pruned);
  }

  lemma RecordedStep(w: World, step: Step, cfg: Config)
    requires Sound(w.s) && Recorded(w.s, w.pruned)
    ensures Recorded(Next(w, step, cfg).s, Next(w, step, cfg).pruned)
  {
    match step
    case Operate(op) => OperateRecorded(w.s, op, cfg, w.pruned);
    case CollectPass(now, only, clock) => CollectRecorded(w, now, only, cfg, clock);
    case SendReturns(p, ok) =>
    case BookPass(p, clock) => if CanBook(w, p) { BookRecorded(w, p, cfg, clock); }
    case RetryRow(id, clock) => RetryRecorded(w.s, id, clock, w.pruned);
    case PruneRows(now) => PruneRecorded(w.s, now, cfg, w.pruned);
  }

  lemma {:induction false} AlwaysRecorded(steps: seq<Step>, cfg: Config)
    ensures Recorded(Run(steps, cfg).s, Run(steps, cfg).pruned)
  {
    if steps != [] {
      var before := steps[..|steps| - 1];
      AlwaysRecorded(before, cfg);
      AlwaysSafe(before, cfg);
      RecordedStep(Run(before, cfg), steps[|steps| - 1], cfg);
    }
  }

  // ---- what the record says --------------------------------------------------

  lemma {:induction false} LastFanOutRows(e: Event, outbox: seq<Item>)
    ensures forall o :: o in RowsInLastFanOut(e, outbox) <==> o in outbox && InLastFanOut(e, o)
  {
    if outbox != [] {
      var n := |outbox| - 1;
      LastFanOutRows(e, outbox[..n]);
      assert outbox == outbox[..n] + [outbox[n]];
    }
  }

  lemma {:induction false} LastFanOutCount(e: Event, txn: Id, outbox: seq<Item>)
    requires e.fanOutTxn == Some(txn)
    requires forall i | 0 <= i < |outbox| :: outbox[i].txn == Some(txn) ==> outbox[i].eventId == Some(e.id)
    ensures |RowsInLastFanOut(e, outbox)| == TxnRows(outbox, txn)
  {
    if outbox != [] {
      LastFanOutCount(e, txn, outbox[..|outbox| - 1]);
    }
  }

  lemma {:induction false} CountsPartition(rows: seq<Item>, cfg: Config)
    ensures |rows| == CountRows(rows, {DeliveredRow}, cfg) + CountRows(rows, {RetryingRow, QueuedRow}, cfg) + CountRows(rows, {FailedRow}, cfg)
    ensures CountRows(rows, {DeliveredRow}, cfg) == |rows| <==> forall o | o in rows :: o.Delivered()
  {
    if rows != [] {
      var n := |rows| - 1;
      CountsPartition(rows[..n], cfg);
      assert rows == rows[..n] + [rows[n]];
    }
  }

  /**
    In every reachable state the propagation status is exact: what is stored plus what was
    pruned after delivery is what the fan-out enqueued, the parts add up, `empty` means the
    fan-out reached nobody, and the rows listed are those of the last transaction and no older one.
  */
  lemma DeliveryRecordExact(steps: seq<Step>, cfg: Config, k: nat)
    requires k < |Run(steps, cfg).s.events|
    ensures var w := Run(steps, cfg);
      var e := w.s.events[k];
      var p := Propagation(w.s, k, cfg);
      && p.total == p.delivered + p.pending + p.failed
      && (e.fanOutTxn.None? ==> p.total == 0 && !p.empty && !p.complete && e.fanOutAt.None?)
      && (e.fanOutTxn.Some? ==>
            && p.total + TxnRows(w.pruned, e.fanOutTxn.value) == e.fanOutCount
            && (p.empty <==> e.fanOutCount == 0)
            && (p.complete ==> forall o | o in w.s.outbox && o.txn == e.fanOutTxn :: o.Delivered()))
      && !(p.empty && p.complete)
      && (forall o | o in w.pruned :: o.Delivered())
      && p.total == |p.items|
      && (forall o :: o in p.items <==> o in w.s.outbox && o.txn.Some? && o.txn == e.fanOutTxn)
      && (forall o | o in p.items :: o.eventId == Some(e.id))
  {
    var w := Run(steps, cfg);
    var e := w.s.events[k];
    var rows := RowsInLastFanOut(e, w.s.outbox);
    AlwaysRecorded(steps, cfg);
    assert EventRecorded(e, w.s.outbox, w.pruned, w.s.nextId);
    LastFanOutRows(e, w.s.outbox);
    CountsPartition(rows, cfg);
    if e.fanOutTxn.Some? {
      LastFanOutCount(e, e.fanOutTxn.value, w.s.outbox);
    } else {
      NothingInFanOut(e, w.s.outbox);
    }
  }

  lemma {:induction false} NothingInFanOut(e: Event, outbox: seq<Item>)
    requires e.fanOutTxn.None? && Unheard(e, outbox)
    ensures RowsInLastFanOut(e, outbox) == []
  {
    if outbox != [] {
      NothingInFanOut(e, outbox[..|outbox| - 1]);
    }
  }
}
