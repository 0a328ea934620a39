/**
  What the delivery protocol guarantees in every interleaving, on top of `Protocol.Safe`:
  at most one successful send per row, bounded sends, a retry that is never undone, and
  the order of sends to one recipient.
*/
module ProtocolResults {
  import opened Options
  import opened Core
  import opened Transitions
  import opened Delivery
  import opened Operations
  import opened Actions
  import opened Coverage
  import opened Rows
  import opened Protocol

  // ---- counting sends --------------------------------------------------------

  function Sends(log: seq<Sent>, id: Id): nat {
    if log == [] then 0
    else Sends(log[..|log| - 1], id) + if log[|log| - 1].id == id then 1 else 0
  }

  function Successes(log: seq<Sent>, id: Id): nat {
    if log == [] then 0
    else Successes(log[..|log| - 1], id) + if log[|log| - 1].id == id && log[|log| - 1].ok then 1 else 0
  }

  lemma {:induction false} NeverSent(log: seq<Sent>, id: Id)
    requires forall i | 0 <= i < |log| :: log[i].id != id
    ensures Sends(log, id) == 0 && Successes(log, id) == 0
  {
    if log != [] {
      NeverSent(log[..|log| - 1], id);
    }
  }

  lemma SentOnce(log: seq<Sent>, s: Sent, id: Id)
    ensures Sends(log + [s], id) == Sends(log, id) + if s.id == id then 1 else 0
    ensures Successes(log + [s], id) == Successes(log, id) + if s.id == id && s.ok then 1 else 0
  {
    assert (log + [s])[..|log|] == log;
  }

  predicate LogKnown(w: World) {
    forall i | 0 <= i < |w.log| :: w.log[i].id < w.s.nextId
  }

  /** A row stored by this operation was never sent and is not in flight. */
  lemma NewRow(w: World, t: State, id: Id)
    requires Safe(w) && LogKnown(w) && Extends(w.s, t)
    requires Row(w.s.outbox, id).None? && Row(t.outbox, id).Some?
    ensures Sends(w.log, id) == 0 && Successes(w.log, id) == 0 && !Out(w, id)
    ensures Untried(Row(t.outbox, id).value)
  {
    RowExtends(w.s, t, id);
    NeverSent(w.log, id);
  }

  lemma NextIdGrows(w: World, step: Step, cfg: Config)
    requires Safe(w) && Sound(w.s)
    ensures w.s.nextId <= Next(w, step, cfg).s.nextId
  {
    match step
    case Operate(op) => ApplyExtends(w.s, op, cfg);
    case CollectPass(now, only, clock) =>
      PageStuckExtends(Selected(w, now, only, cfg).s, StuckRows(w.s.outbox, now, cfg), cfg, clock);
    case SendReturns(p, ok) =>
    case BookPass(p, clock) =>
      if CanBook(w, p) {
        BookAllFrame(w.s, ResultsOf(w.passes[p]), BookingClock(w.passes[p].now, clock), cfg);
      }
    case RetryRow(id, clock) =>
    case PruneRows(now) =>
  }

  lemma LogKnownStep(w: World, step: Step, cfg: Config)
    requires Safe(w) && Sound(w.s) && LogKnown(w)
    ensures LogKnown(Next(w, step, cfg))
  {
    NextIdGrows(w, step, cfg);
    if step.SendReturns? && CanSend(w, step.p) {
      var k := |w.passes[step.p].results|;
      assert InFlight(w, step.p, k) && Holds(w.s, At(w, step.p, k));
    }
  }

  // ---- at most one success ---------------------------------------------------

  /** A successful send of this row is back and not booked yet. */
  ghost predicate SuccessPending(w: World, id: Id) {
    exists p: nat, k: nat :: InFlight(w, p, k) && At(w, p, k).id == id && k < |w.passes[p].results| && w.passes[p].results[k]
  }

  /** A stored row was sent successfully exactly when it is delivered or about to be booked so. */
  ghost predicate OnceAt(w: World, id: Id) {
    && Successes(w.log, id) <= 1
    && (Row(w.s.outbox, id).Some? ==>
          (Successes(w.log, id) == 1 <==> Row(w.s.outbox, id).value.Delivered() || SuccessPending(w, id)))
  }

  lemma PendingSame(w: World, v: World, id: Id)
    requires |w.passes| == |v.passes|
    requires forall p | 0 <= p < |w.passes| ::
      w.passes[p].open == v.passes[p].open && w.passes[p].attempts == v.passes[p].attempts && w.passes[p].results == v.passes[p].results
    ensures SuccessPending(w, id) <==> SuccessPending(v, id)
  {
    if SuccessPending(w, id) {
      var p: nat, k: nat :| InFlight(w, p, k) && At(w, p, k).id == id && k < |w.passes[p].results| && w.passes[p].results[k];
      assert InFlight(v, p, k) && At(v, p, k).id == id;
    }
    if SuccessPending(v, id) {
      var p: nat, k: nat :| InFlight(v, p, k) && At(v, p, k).id == id && k < |v.passes[p].results| && v.passes[p].results[k];
      assert InFlight(w, p, k) && At(w, p, k).id == id;
    }
  }

  /** Nothing is pending for a row that is not out. */
  lemma PendingIsOut(w: World, id: Id)
    requires SuccessPending(w, id)
    ensures Out(w, id)
  {
    var p: nat, k: nat :| InFlight(w, p, k) && At(w, p, k).id == id && k < |w.passes[p].results| && w.passes[p].results[k];
  }

  lemma OnceOperate(w: World, t: State, id: Id)
    requires Safe(w) && LogKnown(w) && OnceAt(w, id) && Extends(w.s, t)
    ensures OnceAt(w.(s := t), id)
  {
    var v := w.(s := t);
    PendingSame(w, v, id);
    RowExtends(w.s, t, id);
    if Row(w.s.outbox, id).None? && Row(t.outbox, id).Some? {
      NewRow(w, t, id);
      if SuccessPending(w, id) {
        PendingIsOut(w, id);
      }
    }
  }

  lemma OnceSelect(w: World, now: Time, only: Option<set<Id>>, cfg: Config, id: Id)
    requires Safe(w) && OnceAt(w, id)
    ensures OnceAt(Selected(w, now, only, cfg), id)
  {
    var v := Selected(w, now, only, cfg);
    RowSelect(w.s, now, only, cfg, id);
    PendingSelect(w, now, only, cfg, id);
  }

  lemma PendingSelect(w: World, now: Time, only: Option<set<Id>>, cfg: Config, id: Id)
    ensures SuccessPending(Selected(w, now, only, cfg), id) <==> SuccessPending(w, id)
  {
    var v := Selected(w, now, only, cfg);
    SelectedFlights(w, now, only, cfg);
    if SuccessPending(v, id) {
      var p: nat, k: nat :| InFlight(v, p, k) && At(v, p, k).id == id && k < |v.passes[p].results| && v.passes[p].results[k];
      assert InFlight(w, p, k) && At(w, p, k).id == id;
    }
    if SuccessPending(w, id) {
      var p: nat, k: nat :| InFlight(w, p, k) && At(w, p, k).id == id && k < |w.passes[p].results| && w.passes[p].results[k];
      assert InFlight(v, p, k) && At(v, p, k).id == id;
    }
  }

  lemma OnceSend(w: World, p: nat, ok: bool, id: Id)
    requires Safe(w) && OnceAt(w, id) && CanSend(w, p)
    ensures OnceAt(SendStep(w, p, ok), id)
  {
    var v := SendStep(w, p, ok);
    var n := |w.passes[p].results|;
    var a := w.passes[p].attempts[n];
    InFlightSame(w, v);
    SentOnce(w.log, v.log[|w.log|], id);
    assert InFlight(w, p, n) && At(w, p, n) == a && Holds(w.s, a);
    if SuccessPending(v, id) {
      var q: nat, k: nat :| InFlight(v, q, k) && At(v, q, k).id == id && k < |v.passes[q].results| && v.passes[q].results[k];
      assert InFlight(w, q, k) && At(w, q, k).id == id;
    }
    if SuccessPending(w, id) {
      var q: nat, k: nat :| InFlight(w, q, k) && At(w, q, k).id == id && k < |w.passes[q].results| && w.passes[q].results[k];
      assert InFlight(v, q, k) && At(v, q, k).id == id;
    }
    if ok && a.id == id {
      assert InFlight(v, p, n) && At(v, p, n).id == id;
    }
  }

  lemma OnceBook(w: World, p: nat, cfg: Config, clock: Time, id: Id)
    requires Safe(w) && OnceAt(w, id) && CanBook(w, p)
    ensures OnceAt(BookStep(w, p, cfg, clock), id)
  {
    var v := BookStep(w, p, cfg, clock);
    BookStepFrame(w, p, cfg, clock);
    if k: nat :| k < |w.passes[p].attempts| && w.passes[p].attempts[k].id == id {
      assert InFlight(w, p, k) && At(w, p, k).id == id;
      BookBooks(w, p, cfg, clock, k);
    } else {
      BookLeaves(w, p, cfg, clock, id);
      if SuccessPending(w, id) {
        var q: nat, k: nat :| InFlight(w, q, k) && At(w, q, k).id == id && k < |w.passes[q].results| && w.passes[q].results[k];
        assert InFlight(v, q, k) && At(v, q, k).id == id;
      }
    }
  }

  lemma OnceStep(w: World, step: Step, cfg: Config, id: Id)
    requires Safe(w) && Sound(w.s) && LogKnown(w) && OnceAt(w, id)
    ensures OnceAt(Next(w, step, cfg), id)
  {
    match step
    case Operate(op) => ApplyExtends(w.s, op, cfg); OnceOperate(w, Apply(w.s, op, cfg), id);
    case CollectPass(now, only, clock) =>
      var v := Selected(w, now, only, cfg);
      OnceSelect(w, now, only, cfg, id);
      SelectSafe(w, now, only, cfg);
      PageStuckExtends(v.s, StuckRows(w.s.outbox, now, cfg), cfg, clock);
      OnceOperate(v, PageStuck(v.s, StuckRows(w.s.outbox, now, cfg), cfg, clock), id);
    case SendReturns(p, ok) => if CanSend(w, p) { OnceSend(w, p, ok, id); }
    case BookPass(p, clock) => if CanBook(w, p) { OnceBook(w, p, cfg, clock, id); }
    case RetryRow(x, clock) =>
      RowRetry(w.s, x, clock, id);
      PendingSame(w, RetryStep(w, x, clock), id);
    case PruneRows(now) =>
      RowPrune(w.s, now, cfg, id);
      PendingSame(w, PruneStep(w, now, cfg), id);
  }

  /** However passes, retries and prunes overlap, no row is sent successfully twice. */
  lemma {:induction false} AtMostOneSuccess(steps: seq<Step>, cfg: Config, id: Id)
    ensures LogKnown(Run(steps, cfg)) && OnceAt(Run(steps, cfg), id)
    ensures Successes(Run(steps, cfg).log, id) <= 1
  {
    if steps == [] {
      if SuccessPending(START, id) {
        PendingIsOut(START, id);
        assert false;
      }
    } else {
      var before := steps[..|steps| - 1];
      AtMostOneSuccess(before, cfg, id);
      AlwaysSafe(before, cfg);
      LogKnownStep(Run(before, cfg), steps[|steps| - 1], cfg);
      OnceStep(Run(before, cfg), steps[|steps| - 1], cfg, id);
    }
  }

  // ---- bounded sends ---------------------------------------------------------

  function Cap(cfg: Config): nat {
    if cfg.maxAttempts > 0 then cfg.maxAttempts else 0
  }

  /** What r retries allow. */
  function Quota(cfg: Config, r: nat): nat {
    Cap(cfg) * r
  }

  lemma QuotaStep(cfg: Config, r: nat)
    ensures Quota(cfg, r + 1) == Quota(cfg, r) + Cap(cfg)
  {
  }

  /** The attempt count a row in flight has: none once it was re-armed. */
  ghost predicate MeteredFlight(w: World, p: nat, k: nat, cfg: Config)
    requires InFlight(w, p, k)
  {
    var a := At(w, p, k);
    var row := Row(w.s.outbox, a.id);
    var rearmed := Rearmed(w.s.sending, a.id);
    && a.attempts < cfg.maxAttempts
    && row.Some? && row.value.attempts == (if rearmed then 0 else a.attempts)
    && Sends(w.log, a.id) + (if k < |w.passes[p].results| then 0 else 1)
       <= Quota(cfg, w.retried[a.id]) + (if rearmed then 0 else a.attempts + 1)
  }

  ghost predicate MeteredRow(w: World, id: Id, cfg: Config) {
    && Sends(w.log, id) <= Quota(cfg, w.retried[id] + 1)
    && (Row(w.s.outbox, id).Some? ==>
          && Row(w.s.outbox, id).value.attempts <= Cap(cfg)
          && (!Out(w, id) ==> Sends(w.log, id) <= Quota(cfg, w.retried[id]) + Row(w.s.outbox, id).value.attempts))
  }

  ghost predicate Metered(w: World, cfg: Config) {
    && (forall p, k | InFlight(w, p, k) :: MeteredFlight(w, p, k, cfg))
    && (forall id :: MeteredRow(w, id, cfg))
  }

  lemma MeteredOperate(w: World, t: State, cfg: Config)
    requires Safe(w) && LogKnown(w) && Metered(w, cfg) && Extends(w.s, t)
    ensures Metered(w.(s := t), cfg)
  {
    var v := w.(s := t);
    InFlightSame(w, v);
    forall p, k | InFlight(v, p, k) ensures MeteredFlight(v, p, k, cfg) {
      assert MeteredFlight(w, p, k, cfg);
      RowExtends(w.s, t, At(w, p, k).id);
    }
    forall id ensures MeteredRow(v, id, cfg) {
      assert MeteredRow(w, id, cfg);
      RowExtends(w.s, t, id);
      if Row(w.s.outbox, id).None? && Row(t.outbox, id).Some? {
        NewRow(w, t, id);
      }
    }
  }

  /** A row being collected was not in flight before. */
  lemma CollectedWasIdle(w: World, now: Time, only: Option<set<Id>>, cfg: Config, k: nat)
    requires Safe(w)
    requires k < |Picked(w.s.outbox, now, only, w.s.sendingTo, cfg)|
    ensures !Out(w, Picked(w.s.outbox, now, only, w.s.sendingTo, cfg)[k].id)
  {
    forall p, l | InFlight(w, p, l) ensures At(w, p, l).id != Picked(w.s.outbox, now, only, w.s.sendingTo, cfg)[k].id {
      CollectedFree(w, now, only, cfg, k, p, l);
    }
  }

  lemma MeteredSelectFlight(w: World, now: Time, only: Option<set<Id>>, cfg: Config, p: nat, k: nat)
    requires Safe(w) && Metered(w, cfg)
    requires InFlight(Selected(w, now, only, cfg), p, k)
    ensures MeteredFlight(Selected(w, now, only, cfg), p, k, cfg)
  {
    var v := Selected(w, now, only, cfg);
    var attempts := Picked(w.s.outbox, now, only, w.s.sendingTo, cfg);
    SelectedFlights(w, now, only, cfg);
    RowSelect(w.s, now, only, cfg, At(v, p, k).id);
    if p == |w.passes| {
      CollectedRow(w, now, only, cfg, k);
      CollectedWasIdle(w, now, only, cfg, k);
      assert MeteredRow(w, attempts[k].id, cfg);
      assert attempts[k] in attempts;
    } else {
      assert InFlight(w, p, k) && MeteredFlight(w, p, k, cfg);
      forall l | 0 <= l < |attempts| ensures attempts[l].id != At(w, p, k).id {
        CollectedFree(w, now, only, cfg, l, p, k);
      }
    }
  }

  lemma MeteredSelect(w: World, now: Time, only: Option<set<Id>>, cfg: Config)
    requires Safe(w) && Metered(w, cfg)
    ensures Metered(Selected(w, now, only, cfg), cfg)
  {
    var v := Selected(w, now, only, cfg);
    SelectedFlights(w, now, only, cfg);
    forall p, k | InFlight(v, p, k) ensures MeteredFlight(v, p, k, cfg) {
      MeteredSelectFlight(w, now, only, cfg, p, k);
    }
    forall id ensures MeteredRow(v, id, cfg) {
      MeteredSelectRow(w, now, only, cfg, id);
    }
  }

  lemma MeteredSelectRow(w: World, now: Time, only: Option<set<Id>>, cfg: Config, id: Id)
    requires MeteredRow(w, id, cfg)
    ensures MeteredRow(Selected(w, now, only, cfg), id, cfg)
  {
    var v := Selected(w, now, only, cfg);
    SelectedFlights(w, now, only, cfg);
    RowSelect(w.s, now, only, cfg, id);
    if Out(w, id) {
      var p: nat, k: nat :| InFlight(w, p, k) && At(w, p, k).id == id;
      assert InFlight(v, p, k) && At(v, p, k).id == id;
    }
  }

  lemma MeteredSend(w: World, p: nat, ok: bool, cfg: Config)
    requires Safe(w) && Metered(w, cfg) && CanSend(w, p)
    ensures Metered(SendStep(w, p, ok), cfg)
  {
    var v := SendStep(w, p, ok);
    InFlightSame(w, v);
    forall q, k | InFlight(v, q, k) ensures MeteredFlight(v, q, k, cfg) {
      assert InFlight(w, q, k);
      MeteredSendFlight(w, p, ok, cfg, q, k);
    }
    forall id ensures MeteredRow(v, id, cfg) {
      MeteredSendRow(w, p, ok, cfg, id);
    }
  }

  lemma MeteredSendFlight(w: World, p: nat, ok: bool, cfg: Config, q: nat, k: nat)
    requires Safe(w) && Metered(w, cfg) && CanSend(w, p) && InFlight(w, q, k)
    ensures MeteredFlight(SendStep(w, p, ok), q, k, cfg)
  {
    var v := SendStep(w, p, ok);
    var n := |w.passes[p].results|;
    SentOnce(w.log, v.log[|w.log|], At(v, q, k).id);
    assert MeteredFlight(w, q, k, cfg) && At(v, q, k) == At(w, q, k);
    assert InFlight(w, p, n) && At(w, p, n) == w.passes[p].attempts[n];
    if At(w, q, k).id == At(w, p, n).id {
      assert q == p && k == n;
    }
  }

  lemma MeteredSendRow(w: World, p: nat, ok: bool, cfg: Config, id: Id)
    requires Safe(w) && Metered(w, cfg) && CanSend(w, p)
    ensures MeteredRow(SendStep(w, p, ok), id, cfg)
  {
    var v := SendStep(w, p, ok);
    var n := |w.passes[p].results|;
    InFlightSame(w, v);
    SentOnce(w.log, v.log[|w.log|], id);
    QuotaStep(cfg, w.retried[id]);
    assert MeteredRow(w, id, cfg);
    assert InFlight(w, p, n) && At(w, p, n) == w.passes[p].attempts[n] && MeteredFlight(w, p, n, cfg);
    if id == At(w, p, n).id {
      assert Out(w, id);
    }
  }

  lemma MeteredBookRow(w: World, p: nat, cfg: Config, clock: Time, id: Id)
    requires Safe(w) && Metered(w, cfg) && CanBook(w, p)
    ensures MeteredRow(BookStep(w, p, cfg, clock), id, cfg)
  {
    var v := BookStep(w, p, cfg, clock);
    assert MeteredRow(w, id, cfg);
    OutAfterBooking(w, p, cfg, clock, id);
    if k: nat :| k < |w.passes[p].attempts| && w.passes[p].attempts[k].id == id {
      assert InFlight(w, p, k) && MeteredFlight(w, p, k, cfg);
      BookBooks(w, p, cfg, clock, k);
    } else {
      BookLeaves(w, p, cfg, clock, id);
    }
  }

  lemma MeteredBook(w: World, p: nat, cfg: Config, clock: Time)
    requires Safe(w) && Metered(w, cfg) && CanBook(w, p)
    ensures Metered(BookStep(w, p, cfg, clock), cfg)
  {
    var v := BookStep(w, p, cfg, clock);
    BookStepFrame(w, p, cfg, clock);
    forall q, l | InFlight(v, q, l) ensures MeteredFlight(v, q, l, cfg) {
      assert InFlight(w, q, l) && MeteredFlight(w, q, l, cfg);
      forall k | 0 <= k < |w.passes[p].attempts| ensures w.passes[p].attempts[k].id != At(w, q, l).id {
        assert InFlight(w, p, k) && At(w, p, k) == w.passes[p].attempts[k];
      }
      BookLeaves(w, p, cfg, clock, At(w, q, l).id);
    }
    forall id ensures MeteredRow(v, id, cfg) {
      MeteredBookRow(w, p, cfg, clock, id);
    }
  }

  lemma MeteredRetryFlight(w: World, x: Id, clock: Time, cfg: Config, p: nat, k: nat)
    requires InFlight(w, p, k) && Holds(w.s, At(w, p, k)) && At(w, p, k).id in w.s.sending
    requires MeteredFlight(w, p, k, cfg)
    ensures MeteredFlight(RetryStep(w, x, clock), p, k, cfg)
  {
    var v := RetryStep(w, x, clock);
    var a := At(w, p, k);
    assert At(v, p, k) == a;
    RowRetry(w.s, x, clock, a.id);
    if x == a.id {
      QuotaStep(cfg, w.retried[a.id]);
      assert v.retried[a.id] == w.retried[a.id] + 1;
      assert Rearmed(v.s.sending, a.id);
    } else {
      assert v.retried[a.id] == w.retried[a.id];
      assert Rearmed(v.s.sending, a.id) == Rearmed(w.s.sending, a.id);
    }
  }

  lemma MeteredRetryRow(w: World, x: Id, clock: Time, cfg: Config, id: Id)
    requires MeteredRow(w, id, cfg)
    ensures MeteredRow(RetryStep(w, x, clock), id, cfg)
  {
    var v := RetryStep(w, x, clock);
    InFlightSame(w, v);
    RowRetry(w.s, x, clock, id);
    QuotaStep(cfg, w.retried[id]);
    QuotaStep(cfg, w.retried[id] + 1);
  }

  lemma MeteredRetry(w: World, x: Id, clock: Time, cfg: Config)
    requires Safe(w) && Metered(w, cfg)
    ensures Metered(RetryStep(w, x, clock), cfg)
  {
    var v := RetryStep(w, x, clock);
    forall p, k | InFlight(v, p, k) ensures MeteredFlight(v, p, k, cfg) {
      assert InFlight(w, p, k) && Out(w, At(w, p, k).id);
      MeteredRetryFlight(w, x, clock, cfg, p, k);
    }
    forall id ensures MeteredRow(v, id, cfg) {
      MeteredRetryRow(w, x, clock, cfg, id);
    }
  }

  lemma MeteredPrune(w: World, now: Time, cfg: Config)
    requires Safe(w) && Metered(w, cfg)
    ensures Metered(PruneStep(w, now, cfg), cfg)
  {
    var v := PruneStep(w, now, cfg);
    InFlightSame(w, v);
    forall p, k | InFlight(v, p, k) ensures MeteredFlight(v, p, k, cfg) {
      assert InFlight(w, p, k) && MeteredFlight(w, p, k, cfg) && Holds(w.s, At(w, p, k));
      RowPrune(w.s, now, cfg, At(w, p, k).id);
    }
    forall id ensures MeteredRow(v, id, cfg) {
      assert MeteredRow(w, id, cfg);
      RowPrune(w.s, now, cfg, id);
    }
  }

  lemma MeteredStep(w: World, step: Step, cfg: Config)
    requires Safe(w) && Sound(w.s) && LogKnown(w) && Metered(w, cfg)
    ensures Metered(Next(w, step, cfg), cfg)
  {
    match step
    case Operate(op) => ApplyExtends(w.s, op, cfg); MeteredOperate(w, Apply(w.s, op, cfg), cfg);
    case CollectPass(now, only, clock) =>
      var v := Selected(w, now, only, cfg);
      MeteredSelect(w, now, only, cfg);
      SelectSafe(w, now, only, cfg);
      PageStuckExtends(v.s, StuckRows(w.s.outbox, now, cfg), cfg, clock);
      MeteredOperate(v, PageStuck(v.s, StuckRows(w.s.outbox, now, cfg), cfg, clock), cfg);
    case SendReturns(p, ok) => if CanSend(w, p) { MeteredSend(w, p, ok, cfg); }
    case BookPass(p, clock) => if CanBook(w, p) { MeteredBook(w, p, cfg, clock); }
    case RetryRow(x, clock) => MeteredRetry(w, x, clock, cfg);
    case PruneRows(now) => MeteredPrune(w, now, cfg);
  }

  lemma {:induction false} AlwaysMetered(steps: seq<Step>, cfg: Config)
    ensures Metered(Run(steps, cfg), cfg)
  {
    if steps != [] {
      var before := steps[..|steps| - 1];
      AlwaysMetered(before, cfg);
      AlwaysSafe(before, cfg);
      AtMostOneSuccess(before, cfg, 0);
      MeteredStep(Run(before, cfg), steps[|steps| - 1], cfg);
    }
  }

  lemma MeteredBounds(w: World, cfg: Config)
    requires Metered(w, cfg)
    ensures forall id :: Sends(w.log, id) <= Cap(cfg) * (w.retried[id] + 1)
    ensures forall id | Row(w.s.outbox, id).Some? :: Row(w.s.outbox, id).value.attempts <= Cap(cfg)
  {
    forall id ensures Sends(w.log, id) <= Cap(cfg) * (w.retried[id] + 1)
              ensures Row(w.s.outbox, id).Some? ==> Row(w.s.outbox, id).value.attempts <= Cap(cfg) {
      assert MeteredRow(w, id, cfg);
    }
  }

  /** A row with r retries is sent at most MaxAttempts * (r + 1) times and never counts more than MaxAttempts. */
  lemma SendsBounded(steps: seq<Step>, cfg: Config)
    ensures Metered(Run(steps, cfg), cfg)
    ensures forall id :: Sends(Run(steps, cfg).log, id) <= Cap(cfg) * (Run(steps, cfg).retried[id] + 1)
    ensures forall id | Row(Run(steps, cfg).s.outbox, id).Some? :: Row(Run(steps, cfg).s.outbox, id).value.attempts <= Cap(cfg)
  {
    AlwaysMetered(steps, cfg);
    MeteredBounds(Run(steps, cfg), cfg);
  }

  // ---- the operator's retry wins ---------------------------------------------

  /** Re-armed at `clock` while its send is out. */
  ghost predicate Armed(w: World, id: Id, clock: Time) {
    var row := Row(w.s.outbox, id);
    && Out(w, id) && Rearmed(w.s.sending, id)
    && row.Some? && !row.value.Delivered() && row.value.attempts == 0 && row.value.nextAttempt == clock
  }

  /** A retry of an undelivered row whose send is out re-arms it. */
  lemma RetryArms(w: World, id: Id, clock: Time)
    requires Safe(w) && Out(w, id)
    ensures Armed(RetryStep(w, id, clock), id, clock)
  {
    var p: nat, k: nat :| InFlight(w, p, k) && At(w, p, k).id == id;
    assert Holds(w.s, At(w, p, k));
    RowRetry(w.s, id, clock, id);
    InFlightSame(w, RetryStep(w, id, clock));
  }

  /** Re-armed and back in the queue: the failure did not count. */
  ghost predicate Requeued(w: World, id: Id, clock: Time) {
    var row := Row(w.s.outbox, id);
    !Out(w, id) && row.Some? && !row.value.Delivered() && row.value.attempts == 0 && row.value.nextAttempt == clock
  }

  ghost predicate DeliveredIn(w: World, id: Id) {
    Row(w.s.outbox, id).Some? && Row(w.s.outbox, id).value.Delivered()
  }

  /** The k-th attempt of the pass being booked is the row's, and the row became what its result says. */
  ghost predicate BookedAs(w: World, p: nat, k: nat, v: World, id: Id, clock: Time) {
    && InFlight(w, p, k) && At(w, p, k).id == id && k < |w.passes[p].results|
    && if w.passes[p].results[k] then DeliveredIn(v, id) else Requeued(v, id, clock)
  }

  /** The step booked the row's own send: delivered if it succeeded, as the operator armed it if it failed. */
  ghost predicate Settles(w: World, step: Step, v: World, id: Id, clock: Time) {
    step.BookPass? && CanBook(w, step.p) && exists k: nat :: BookedAs(w, step.p, k, v, id, clock)
  }

  /** When the row was last re-armed, after this step. */
  function ArmClock(step: Step, id: Id, clock: Time): Time {
    if step.RetryRow? && step.id == id then step.clock else clock
  }

  /**
    Whatever step comes next, the re-armed row stays untried and due at the last retry's clock,
    until its own pass is booked: a success delivers it, a failure leaves it exactly as the
    operator armed it.
  */
  lemma RearmWins(w: World, step: Step, cfg: Config, id: Id, clock: Time)
    requires Safe(w) && Sound(w.s) && Armed(w, id, clock)
    ensures var v := Next(w, step, cfg);
      Armed(v, id, ArmClock(step, id, clock)) || Settles(w, step, v, id, clock)
  {
    match step
    case Operate(op) => ArmedOperate(w, op, cfg, id, clock);
    case CollectPass(now, only, c) => ArmedCollect(w, now, only, cfg, c, id, clock);
    case SendReturns(q, ok) => if CanSend(w, q) { ArmedSame(w, SendStep(w, q, ok), id, clock); }
    case BookPass(q, c) => if CanBook(w, q) { ArmedBook(w, q, cfg, c, id, clock); }
    case RetryRow(x, c) => if x == id { RetryArms(w, id, c); } else { ArmedRetry(w, x, c, id, clock); }
    case PruneRows(now) =>
      RowPrune(w.s, now, cfg, id);
      ArmedSame(w, PruneStep(w, now, cfg), id, clock);
  }

  lemma ArmedRetry(w: World, x: Id, c: Time, id: Id, clock: Time)
    requires Armed(w, id, clock) && x != id
    ensures Armed(RetryStep(w, x, c), id, clock)
  {
    RowRetry(w.s, x, c, id);
    ArmedSame(w, RetryStep(w, x, c), id, clock);
  }

  /** The world after more steps. */
  function RunOn(w: World, steps: seq<Step>, cfg: Config): World {
    if steps == [] then w else Next(RunOn(w, steps[..|steps| - 1], cfg), steps[|steps| - 1], cfg)
  }

  /** When the row was last re-armed, after these steps. */
  function LastArm(steps: seq<Step>, id: Id, clock: Time): Time {
    if steps == [] then clock else ArmClock(steps[|steps| - 1], id, LastArm(steps[..|steps| - 1], id, clock))
  }

  /** After these steps the next one books the row's own send. */
  ghost predicate SettlesAfter(w: World, front: seq<Step>, last: Step, cfg: Config, id: Id, clock: Time) {
    var before := RunOn(w, front, cfg);
    Settles(before, last, Next(before, last, cfg), id, LastArm(front, id, clock))
  }

  lemma {:induction false} SafeOn(w: World, steps: seq<Step>, cfg: Config)
    requires Safe(w) && Sound(w.s)
    ensures Safe(RunOn(w, steps, cfg)) && Sound(RunOn(w, steps, cfg).s)
  {
    if steps != [] {
      var m := |steps| - 1;
      SafeOn(w, steps[..m], cfg);
      SafeStep(RunOn(w, steps[..m], cfg), steps[m], cfg);
      SoundStep(RunOn(w, steps[..m], cfg), steps[m], cfg);
    }
  }

  /** One of these steps booked the row's own send, as the last retry before it left the row. */
  ghost predicate SettledBy(w: World, steps: seq<Step>, cfg: Config, id: Id, clock: Time) {
    exists n: nat :: n < |steps| && SettlesAfter(w, steps[..n], steps[n], cfg, id, clock)
  }

  lemma SettledEarlier(w: World, front: seq<Step>, last: Step, cfg: Config, id: Id, clock: Time)
    requires SettledBy(w, front, cfg, id, clock)
    ensures SettledBy(w, front + [last], cfg, id, clock)
  {
    var n: nat :| n < |front| && SettlesAfter(w, front[..n], front[n], cfg, id, clock);
    assert (front + [last])[..n] == front[..n] && (front + [last])[n] == front[n];
  }

  lemma SettledNow(w: World, front: seq<Step>, last: Step, cfg: Config, id: Id, clock: Time)
    requires SettlesAfter(w, front, last, cfg, id, clock)
    ensures SettledBy(w, front + [last], cfg, id, clock)
  {
    var n := |front|;
    assert (front + [last])[..n] == front && (front + [last])[n] == last;
  }

  ghost predicate ArmedOn(w: World, steps: seq<Step>, cfg: Config, id: Id, clock: Time) {
    Armed(RunOn(w, steps, cfg), id, LastArm(steps, id, clock))
  }

  lemma RearmNext(w: World, front: seq<Step>, last: Step, cfg: Config, id: Id, clock: Time)
    requires Safe(w) && Sound(w.s) && ArmedOn(w, front, cfg, id, clock)
    ensures ArmedOn(w, front + [last], cfg, id, clock) || SettlesAfter(w, front, last, cfg, id, clock)
  {
    SafeOn(w, front, cfg);
    RearmWins(RunOn(w, front, cfg), last, cfg, id, LastArm(front, id, clock));
    assert (front + [last])[..|front|] == front;
  }

  /** The re-arm of the last retry holds along every run, until the booking that ends the send. */
  lemma {:induction false} RearmHolds(w: World, steps: seq<Step>, cfg: Config, id: Id, clock: Time)
    requires Safe(w) && Sound(w.s) && Armed(w, id, clock)
    ensures ArmedOn(w, steps, cfg, id, clock) || SettledBy(w, steps, cfg, id, clock)
  {
    if steps != [] {
      var front, last := steps[..|steps| - 1], steps[|steps| - 1];
      assert steps == front + [last];
      RearmHolds(w, front, cfg, id, clock);
      RearmMore(w, front, last, cfg, id, clock);
    }
  }

  lemma RearmMore(w: World, front: seq<Step>, last: Step, cfg: Config, id: Id, clock: Time)
    requires Safe(w) && Sound(w.s) && (ArmedOn(w, front, cfg, id, clock) || SettledBy(w, front, cfg, id, clock))
    ensures ArmedOn(w, front + [last], cfg, id, clock) || SettledBy(w, front + [last], cfg, id, clock)
  {
    if SettledBy(w, front, cfg, id, clock) {
      SettledEarlier(w, front, last, cfg, id, clock);
    } else {
      RearmNext(w, front, last, cfg, id, clock);
      if SettlesAfter(w, front, last, cfg, id, clock) {
        SettledNow(w, front, last, cfg, id, clock);
      }
    }
  }

  lemma ArmedSame(w: World, v: World, id: Id, clock: Time)
    requires Armed(w, id, clock)
    requires Row(v.s.outbox, id) == Row(w.s.outbox, id) && Rearmed(v.s.sending, id)
    requires |w.passes| == |v.passes|
    requires forall p | 0 <= p < |w.passes| :: w.passes[p].open == v.passes[p].open && w.passes[p].attempts == v.passes[p].attempts
    ensures Armed(v, id, clock)
  {
    InFlightSame(w, v);
  }

  lemma ArmedOperate(w: World, op: Op, cfg: Config, id: Id, clock: Time)
    requires Safe(w) && Sound(w.s) && Armed(w, id, clock)
    ensures Armed(w.(s := Apply(w.s, op, cfg)), id, clock)
  {
    ApplyExtends(w.s, op, cfg);
    RowExtends(w.s, Apply(w.s, op, cfg), id);
    InFlightSame(w, w.(s := Apply(w.s, op, cfg)));
  }

  lemma ArmedBook(w: World, q: nat, cfg: Config, c: Time, id: Id, clock: Time)
    requires Safe(w) && Armed(w, id, clock) && CanBook(w, q)
    ensures var v := BookStep(w, q, cfg, c);
      Armed(v, id, clock) || Settles(w, BookPass(q, c), v, id, clock)
  {
    if id in Ids(w.passes[q].attempts) {
      var k: nat :| k < |w.passes[q].attempts| && w.passes[q].attempts[k].id == id;
      ArmedBooked(w, q, cfg, c, k, id, clock);
    } else {
      OutAfterBooking(w, q, cfg, c, id);
      BookStepFrame(w, q, cfg, c);
      forall l | 0 <= l < |w.passes[q].attempts| ensures w.passes[q].attempts[l].id != id {
        assert w.passes[q].attempts[l] in w.passes[q].attempts;
      }
      BookLeaves(w, q, cfg, c, id);
    }
  }

  /** The booking of the re-armed row itself. */
  lemma ArmedBooked(w: World, q: nat, cfg: Config, c: Time, k: nat, id: Id, clock: Time)
    requires Safe(w) && Armed(w, id, clock) && CanBook(w, q)
    requires k < |w.passes[q].attempts| && w.passes[q].attempts[k].id == id
    ensures BookedAs(w, q, k, BookStep(w, q, cfg, c), id, clock)
  {
    assert w.passes[q].attempts[k] in w.passes[q].attempts;
    assert InFlight(w, q, k) && At(w, q, k).id == id;
    OutAfterBooking(w, q, cfg, c, id);
    BookBooks(w, q, cfg, c, k);
  }

  lemma ArmedCollect(w: World, now: Time, only: Option<set<Id>>, cfg: Config, c: Time, id: Id, clock: Time)
    requires Safe(w) && Armed(w, id, clock)
    ensures Armed(CollectStep(w, now, only, cfg, c), id, clock)
  {
    var s := Selected(w, now, only, cfg);
    var v := CollectStep(w, now, only, cfg, c);
    ArmedSelect(w, now, only, cfg, id, clock);
    SelectSafe(w, now, only, cfg);
    PageStuckExtends(s.s, StuckRows(w.s.outbox, now, cfg), cfg, c);
    RowExtends(s.s, v.s, id);
    InFlightSame(s, v);
  }

  lemma ArmedSelect(w: World, now: Time, only: Option<set<Id>>, cfg: Config, id: Id, clock: Time)
    requires Safe(w) && Armed(w, id, clock)
    ensures Armed(Selected(w, now, only, cfg), id, clock)
  {
    var s := Selected(w, now, only, cfg);
    var attempts := Picked(w.s.outbox, now, only, w.s.sendingTo, cfg);
    var p: nat, k: nat :| InFlight(w, p, k) && At(w, p, k).id == id;
    forall l | 0 <= l < |attempts| ensures attempts[l].id != id {
      CollectedFree(w, now, only, cfg, l, p, k);
    }
    SelectedFlights(w, now, only, cfg);
    RowSelect(w.s, now, only, cfg, id);
    assert InFlight(s, p, k) && At(s, p, k).id == id;
  }

  /** A failure that was not overtaken waits between one and sixteen retry delays, doubling. */
  lemma BackoffBounds(o: Item, a: Attempt, at: Time, cfg: Config)
    requires !o.Delivered() && cfg.retryDelay >= 0
    ensures var booked := Booked(o, Result(a, false), false, at, cfg);
      && booked.attempts == a.attempts + 1
      && cfg.retryDelay <= booked.nextAttempt - at <= 16 * cfg.retryDelay
      && (a.attempts > 0 && a.attempts <= 4 ==>
            booked.nextAttempt - at == 2 * (Booked(o, Result(a.(attempts := a.attempts - 1), false), false, at, cfg).nextAttempt - at))
  {
    var n := Min(a.attempts, 4);
    Pow2Bounds(n);
    assert cfg.retryDelay * 1 <= cfg.retryDelay * Pow2(n) <= cfg.retryDelay * 16;
    if 0 < a.attempts <= 4 {
      assert Pow2(n) == 2 * Pow2(n - 1);
      assert cfg.retryDelay * (2 * Pow2(n - 1)) == 2 * (cfg.retryDelay * Pow2(n - 1));
    }
  }

  lemma Pow2Bounds(n: nat)
    requires n <= 4
    ensures 1 <= Pow2(n) <= 16
  {
    assert Pow2(1) == 2 && Pow2(2) == 4 && Pow2(3) == 8 && Pow2(4) == 16;
  }

  // ---- order per recipient ---------------------------------------------------

  /** What is known about the log while a pass is open. */
  ghost predicate OrderedPass(w: World, p: nat) {
    p < |w.passes| && w.passes[p].open ==>
      && w.passes[p].start <= |w.log|
      && (forall i | 0 <= i < |w.log| && w.log[i].pass == p :: w.passes[p].start <= i && w.log[i].pos < |w.passes[p].results|)
      && (forall i, k | w.passes[p].start <= i < |w.log| && InFlight(w, p, k) && w.log[i].who == Who(At(w, p, k)) :: w.log[i].pass == p)
  }

  /** Sends to one recipient never interleave two passes, and inside one pass follow its order. */
  predicate OrderedSends(log: seq<Sent>) {
    && (forall i, j, k | 0 <= i < j < k < |log| && log[i].who == log[j].who == log[k].who && log[i].pass == log[k].pass ::
          log[j].pass == log[i].pass)
    && (forall i, j | 0 <= i < j < |log| && log[i].pass == log[j].pass :: log[i].pos < log[j].pos)
  }

  predicate OrderedLog(w: World) {
    && OrderedSends(w.log)
    && (forall i | 0 <= i < |w.log| :: SentBy(w, w.log[i]))
  }

  /** The log entry is the send its pass and position say it is. */
  predicate SentBy(w: World, e: Sent) {
    && e.pass < |w.passes| && e.pos < |w.passes[e.pass].attempts|
    && w.passes[e.pass].attempts[e.pos].id == e.id && Who(w.passes[e.pass].attempts[e.pos]) == e.who
  }

  /** Every pass holds its rows in queue order. */
  predicate QueueOrder(w: World) {
    forall p, k, l | 0 <= p < |w.passes| && 0 <= k < l < |w.passes[p].attempts| ::
      w.passes[p].attempts[k].id < w.passes[p].attempts[l].id
  }

  ghost predicate InOrder(w: World) {
    && (forall p :: OrderedPass(w, p)) && OrderedLog(w) && QueueOrder(w)
  }

  lemma InOrderSame(w: World, v: World)
    requires InOrder(w) && v.log == w.log && |v.passes| == |w.passes|
    requires forall p | 0 <= p < |w.passes| ::
      && v.passes[p].attempts == w.passes[p].attempts && v.passes[p].results == w.passes[p].results
      && v.passes[p].start == w.passes[p].start && (v.passes[p].open ==> w.passes[p].open)
    ensures InOrder(v)
  {
    forall p ensures OrderedPass(v, p) {
      assert OrderedPass(w, p);
      forall k | InFlight(v, p, k) ensures InFlight(w, p, k) && At(v, p, k) == At(w, p, k) {
      }
    }
    forall i | 0 <= i < |v.log| ensures SentBy(v, v.log[i]) {
      assert SentBy(w, w.log[i]);
    }
  }

  lemma InOrderSelect(w: World, now: Time, only: Option<set<Id>>, cfg: Config)
    requires Safe(w) && InOrder(w)
    ensures InOrder(Selected(w, now, only, cfg))
  {
    var v := Selected(w, now, only, cfg);
    SelectedFlights(w, now, only, cfg);
    CollectedDistinct(w, now, only, cfg);
    forall p ensures OrderedPass(v, p) {
      assert OrderedPass(w, p);
      if p == |w.passes| {
        forall i | 0 <= i < |w.log| ensures w.log[i].pass != p {
          assert SentBy(w, w.log[i]);
        }
      }
    }
    forall i | 0 <= i < |v.log| ensures SentBy(v, v.log[i]) {
      assert SentBy(w, w.log[i]);
    }
  }

  /** The send of an open pass: no other pass has sent to its recipient since it was opened. */
  lemma OrderedSendPass(w: World, p: nat, ok: bool, q: nat)
    requires Safe(w) && InOrder(w) && CanSend(w, p)
    ensures OrderedPass(SendStep(w, p, ok), q)
  {
    var v := SendStep(w, p, ok);
    var n := |w.passes[p].results|;
    assert OrderedPass(w, q);
    assert InFlight(w, p, n) && At(w, p, n) == w.passes[p].attempts[n];
    if q < |w.passes| && w.passes[q].open {
      forall i, k | v.passes[q].start <= i < |v.log| && InFlight(v, q, k) && v.log[i].who == Who(At(v, q, k))
        ensures v.log[i].pass == q
      {
        assert InFlight(w, q, k) && At(w, q, k) == At(v, q, k);
      }
    }
  }

  lemma OrderedSendLog(w: World, p: nat, ok: bool)
    requires Safe(w) && InOrder(w) && CanSend(w, p)
    ensures OrderedLog(SendStep(w, p, ok))
  {
    var v := SendStep(w, p, ok);
    var m := |w.log|;
    var n := |w.passes[p].results|;
    assert OrderedPass(w, p);
    assert InFlight(w, p, n) && At(w, p, n) == w.passes[p].attempts[n];
    forall i | 0 <= i < |v.log| ensures SentBy(v, v.log[i]) {
      if i < m {
        assert SentBy(w, w.log[i]);
      }
    }
    forall i, j | 0 <= i < j < m && w.log[i].who == w.log[j].who == v.log[m].who && w.log[i].pass == p
      ensures w.log[j].pass == p
    {
      assert w.passes[p].start <= i;
    }
    OrderedLogAppend(w.log, v.log[m]);
  }

  /** One more send keeps the log ordered when its pass was not overtaken and it comes last in it. */
  lemma OrderedLogAppend(log: seq<Sent>, e: Sent)
    requires OrderedSends(log)
    requires forall i, j | 0 <= i < j < |log| && log[i].who == log[j].who == e.who && log[i].pass == e.pass :: log[j].pass == e.pass
    requires forall i | 0 <= i < |log| && log[i].pass == e.pass :: log[i].pos < e.pos
    ensures OrderedSends(log + [e])
  {
  }

  lemma InOrderSend(w: World, p: nat, ok: bool)
    requires Safe(w) && InOrder(w) && CanSend(w, p)
    ensures InOrder(SendStep(w, p, ok))
  {
    forall q ensures OrderedPass(SendStep(w, p, ok), q) {
      OrderedSendPass(w, p, ok, q);
    }
    OrderedSendLog(w, p, ok);
  }

  lemma InOrderStep(w: World, step: Step, cfg: Config)
    requires Safe(w) && Sound(w.s) && InOrder(w)
    ensures InOrder(Next(w, step, cfg))
  {
    match step
    case CollectPass(now, only, clock) =>
      InOrderSelect(w, now, only, cfg);
      InOrderSame(Selected(w, now, only, cfg), CollectStep(w, now, only, cfg, clock));
    case SendReturns(p, ok) => if CanSend(w, p) { InOrderSend(w, p, ok); }
    case _ => InOrderSame(w, Next(w, step, cfg));
  }

  lemma {:induction false} AlwaysInOrder(steps: seq<Step>, cfg: Config)
    ensures InOrder(Run(steps, cfg))
  {
    if steps != [] {
      var before := steps[..|steps| - 1];
      AlwaysInOrder(before, cfg);
      AlwaysSafe(before, cfg);
      InOrderStep(Run(before, cfg), steps[|steps| - 1], cfg);
    }
  }

  /**
    Of two sends to one recipient in the same pass the earlier one is of the earlier row, and
    no send of another pass to that recipient lies between them.
  */
  lemma SendsFollowTheQueue(steps: seq<Step>, cfg: Config, i: nat, k: nat)
    requires i < k < |Run(steps, cfg).log|
    requires Run(steps, cfg).log[i].pass == Run(steps, cfg).log[k].pass
    ensures Run(steps, cfg).log[i].id < Run(steps, cfg).log[k].id
    ensures Run(steps, cfg).log[i].who == Run(steps, cfg).log[k].who ==>
      forall j | i < j < k && Run(steps, cfg).log[j].who == Run(steps, cfg).log[i].who ::
        Run(steps, cfg).log[j].pass == Run(steps, cfg).log[i].pass
  {
    var w := Run(steps, cfg);
    AlwaysInOrder(steps, cfg);
    assert SentBy(w, w.log[i]) && SentBy(w, w.log[k]);
  }
}
