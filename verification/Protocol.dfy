/**
  The delivery protocol as a step system: any number of open passes (scheduler, tick
  endpoint, test messages), each selected under the lock, sent with the lock free and booked
  under the lock again. Between any two of these steps every other operation may run.
*/
module Protocol {
  import opened Options
  import opened Core
  import opened Transitions
  import opened Delivery
  import opened Operations
  import opened Actions
  import opened Coverage
  import opened Rows

  /** A pass: what it collected, how its first sends came back, and the log length at its start. */
  datatype Pass = Pass(attempts: seq<Attempt>, results: seq<bool>, now: Time, start: nat, open: bool)

  /** One send that has returned: the `pos`-th of pass `pass`. */
  datatype Sent = Sent(pass: nat, pos: nat, id: Id, who: Address, ok: bool)

  /** The state, the passes ever opened, the sends in the order they returned, and two tallies. */
  datatype World = World(s: State, passes: seq<Pass>, log: seq<Sent>, retried: multiset<Id>, pruned: seq<Item>)

  const START: World := World(EMPTY_STATE, [], [], multiset{}, [])

  datatype Step =
    | Operate(op: Op)
    | CollectPass(now: Time, only: Option<set<Id>>, clock: Time)
    | SendReturns(p: nat, ok: bool)
    | BookPass(p: nat, clock: Time)
    | RetryRow(id: Id, clock: Time)
    | PruneRows(now: Time)

  predicate CanSend(w: World, p: nat) {
    p < |w.passes| && w.passes[p].open && |w.passes[p].results| < |w.passes[p].attempts|
  }

  predicate CanBook(w: World, p: nat) {
    p < |w.passes| && w.passes[p].open && |w.passes[p].results| == |w.passes[p].attempts|
  }

  function ResultsOf(pass: Pass): (r: seq<Result>)
    requires |pass.results| == |pass.attempts|
    ensures Attempts(r) == pass.attempts
    ensures |r| == |pass.attempts| && forall i | 0 <= i < |r| :: r[i].ok == pass.results[i]
  {
    var r := seq(|pass.attempts|, i requires 0 <= i < |pass.attempts| => Result(pass.attempts[i], pass.results[i]));
    assert Attempts(r) == pass.attempts;
    r
  }

  function CollectStep(w: World, now: Time, only: Option<set<Id>>, cfg: Config, clock: Time): World {
    var (t, attempts) := Collect(w.s, now, only, cfg, clock);
    w.(s := t, passes := w.passes + [Pass(attempts, [], now, |w.log|, true)])
  }

  function SendStep(w: World, p: nat, ok: bool): World
    requires CanSend(w, p)
  {
    var pass := w.passes[p];
    var a := pass.attempts[|pass.results|];
    w.(passes := w.passes[p := pass.(results := pass.results + [ok])],
       log := w.log + [Sent(p, |pass.results|, a.id, Who(a), ok)])
  }

  function BookStep(w: World, p: nat, cfg: Config, clock: Time): World
    requires CanBook(w, p)
  {
    var pass := w.passes[p];
    w.(s := Book(w.s, ResultsOf(pass), pass.now, clock, cfg), passes := w.passes[p := pass.(open := false)])
  }

  function RetryStep(w: World, id: Id, clock: Time): World {
    var (t, outcome) := Retry(w.s, id, clock);
    w.(s := t, retried := if outcome == Retried then w.retried + multiset{id} else w.retried)
  }

  function PruneStep(w: World, now: Time, cfg: Config): World {
    w.(s := Prune(w.s, now, cfg),
       pruned := w.pruned + Dropped(w.s.outbox, w.s.events, now - cfg.outboxRetention))
  }

  /** One step; a send or a booking that is not due leaves the world alone. */
  function Next(w: World, step: Step, cfg: Config): World {
    match step
    case Operate(op) => w.(s := Apply(w.s, op, cfg))
    case CollectPass(now, only, clock) => CollectStep(w, now, only, cfg, clock)
    case SendReturns(p, ok) => if CanSend(w, p) then SendStep(w, p, ok) else w
    case BookPass(p, clock) => if CanBook(w, p) then BookStep(w, p, cfg, clock) else w
    case RetryRow(id, clock) => RetryStep(w, id, clock)
    case PruneRows(now) => PruneStep(w, now, cfg)
  }

  /** The world after a run from the empty state. */
  function Run(steps: seq<Step>, cfg: Config): World {
    if steps == [] then START
    else Next(Run(steps[..|steps| - 1], cfg), steps[|steps| - 1], cfg)
  }

  // ---- what is in flight -----------------------------------------------------

  /** The k-th attempt of pass p is collected and not booked yet. */
  predicate InFlight(w: World, p: nat, k: nat) {
    p < |w.passes| && w.passes[p].open && k < |w.passes[p].attempts|
  }

  function At(w: World, p: nat, k: nat): Attempt
    requires InFlight(w, p, k)
  {
    w.passes[p].attempts[k]
  }

  ghost predicate Out(w: World, id: Id) {
    exists p, k :: InFlight(w, p, k) && At(w, p, k).id == id
  }

  /** How many attempts to this recipient are collected and not booked yet. */
  function InFlightTo(passes: seq<Pass>, who: Address): nat {
    if passes == [] then 0
    else
      var last := passes[|passes| - 1];
      InFlightTo(passes[..|passes| - 1], who) + if last.open then CountTo(last.attempts, who) else 0
  }

  lemma {:induction false} InFlightToZero(passes: seq<Pass>, who: Address)
    ensures InFlightTo(passes, who) == 0 <==>
      forall p, k | 0 <= p < |passes| && passes[p].open && 0 <= k < |passes[p].attempts| :: Who(passes[p].attempts[k]) != who
  {
    if passes != [] {
      var front, last := passes[..|passes| - 1], passes[|passes| - 1];
      InFlightToZero(front, who);
      CountToPositive(last.attempts, who);
      assert forall p | 0 <= p < |front| :: front[p] == passes[p];
    }
  }

  lemma {:induction false} InFlightToUpdate(passes: seq<Pass>, p: nat, pass: Pass, who: Address)
    requires p < |passes| && passes[p].open && pass.attempts == passes[p].attempts
    ensures InFlightTo(passes[p := pass], who)
         == InFlightTo(passes, who) - if pass.open then 0 else CountTo(pass.attempts, who)
  {
    var n := |passes| - 1;
    if p < n {
      assert passes[p := pass][..n] == passes[..n][p := pass];
      InFlightToUpdate(passes[..n], p, pass, who);
    } else {
      assert passes[p := pass][..n] == passes[..n];
    }
  }

  // ---- the invariant ---------------------------------------------------------

  /** The stored row of an attempt in flight: still there, undelivered, same recipient. */
  predicate Holds(s: State, a: Attempt) {
    var row := Row(s.outbox, a.id);
    row.Some? && !row.value.Delivered() && RecipientKey(row.value.kind, row.value.to) == Who(a)
  }

  ghost predicate Safe(w: World) {
    && Ordered(w.s.outbox, w.s.nextId)
    && (forall p, k | InFlight(w, p, k) :: Holds(w.s, At(w, p, k)))
    && (forall p, k, q, l | InFlight(w, p, k) && InFlight(w, q, l) && At(w, p, k).id == At(w, q, l).id :: p == q && k == l)
    && (forall p, k, q, l | InFlight(w, p, k) && InFlight(w, q, l) && Who(At(w, p, k)) == Who(At(w, q, l)) :: p == q)
    && (forall id :: id in w.s.sending <==> Out(w, id))
    && (forall who | who in w.s.sendingTo :: w.s.sendingTo[who] > 0)
    && (forall who :: Sending(w.s.sendingTo, who) == InFlightTo(w.passes, who))
    && (forall p | 0 <= p < |w.passes| :: |w.passes[p].results| <= |w.passes[p].attempts|)
  }

  lemma InFlightSame(w: World, t: World)
    requires |w.passes| == |t.passes|
    requires forall p | 0 <= p < |w.passes| :: w.passes[p].open == t.passes[p].open && w.passes[p].attempts == t.passes[p].attempts
    ensures forall p, k :: InFlight(w, p, k) <==> InFlight(t, p, k)
    ensures forall p, k | InFlight(w, p, k) :: At(w, p, k) == At(t, p, k)
    ensures forall id :: Out(w, id) <==> Out(t, id)
  {
    forall id ensures Out(w, id) <==> Out(t, id) {
      if Out(w, id) {
        var p, k :| InFlight(w, p, k) && At(w, p, k).id == id;
        assert InFlight(t, p, k) && At(t, p, k).id == id;
      }
      if Out(t, id) {
        var p, k :| InFlight(t, p, k) && At(t, p, k).id == id;
        assert InFlight(w, p, k) && At(w, p, k).id == id;
      }
    }
  }

  lemma SafeOperate(w: World, t: State)
    requires Safe(w) && Extends(w.s, t)
    ensures Safe(w.(s := t))
  {
    var v := w.(s := t);
    OrderedExtends(w.s, t);
    InFlightSame(w, v);
    forall p, k | InFlight(v, p, k) ensures Holds(v.s, At(v, p, k)) {
      RowExtends(w.s, t, At(w, p, k).id);
    }
  }

  /** What a collected attempt is a copy of. */
  lemma CollectedRow(w: World, now: Time, only: Option<set<Id>>, cfg: Config, k: nat)
    requires Ordered(w.s.outbox, w.s.nextId)
    requires k < |Picked(w.s.outbox, now, only, w.s.sendingTo, cfg)|
    ensures var a := Picked(w.s.outbox, now, only, w.s.sendingTo, cfg)[k];
      var row := Row(w.s.outbox, a.id);
      row.Some? && AttemptOf(row.value) == a && Picks(row.value, now, only, w.s.sendingTo, cfg)
  {
    PickedRows(w.s.outbox, now, only, w.s.sendingTo, cfg);
    RowAt(w.s.outbox, PickedAt(w.s.outbox, now, only, w.s.sendingTo, cfg)[k], w.s.nextId);
  }

  lemma CollectedDistinct(w: World, now: Time, only: Option<set<Id>>, cfg: Config)
    requires Ordered(w.s.outbox, w.s.nextId)
    ensures var attempts := Picked(w.s.outbox, now, only, w.s.sendingTo, cfg);
      forall k, l | 0 <= k < l < |attempts| :: attempts[k].id < attempts[l].id
  {
    PickedRows(w.s.outbox, now, only, w.s.sendingTo, cfg);
  }

  /** The new pass shares no recipient with an open one. */
  lemma CollectedFree(w: World, now: Time, only: Option<set<Id>>, cfg: Config, k: nat, p: nat, l: nat)
    requires Safe(w) && InFlight(w, p, l)
    requires k < |Picked(w.s.outbox, now, only, w.s.sendingTo, cfg)|
    ensures var a := Picked(w.s.outbox, now, only, w.s.sendingTo, cfg)[k];
      Who(a) != Who(At(w, p, l)) && a.id != At(w, p, l).id
  {
    CollectedRow(w, now, only, cfg, k);
    var a := Picked(w.s.outbox, now, only, w.s.sendingTo, cfg)[k];
    InFlightToZero(w.passes, Who(a));
    assert At(w, p, l) == w.passes[p].attempts[l];
  }

  /** The world right after selection, before the stuck rows are paged. */
  function Selected(w: World, now: Time, only: Option<set<Id>>, cfg: Config): World {
    var (t, attempts) := Select(w.s, now, only, cfg);
    w.(s := t, passes := w.passes + [Pass(attempts, [], now, |w.log|, true)])
  }

  lemma SelectedFlights(w: World, now: Time, only: Option<set<Id>>, cfg: Config)
    ensures var v := Selected(w, now, only, cfg);
      var n := |w.passes|;
      && (forall p: nat, k: nat | p < n :: InFlight(v, p, k) <==> InFlight(w, p, k))
      && (forall p: nat, k: nat | InFlight(w, p, k) :: At(v, p, k) == At(w, p, k))
      && (forall k: nat :: InFlight(v, n, k) <==> k < |v.passes[n].attempts|)
      && v.passes[n].attempts == Picked(w.s.outbox, now, only, w.s.sendingTo, cfg)
  {
  }

  lemma SelectedHolds(w: World, now: Time, only: Option<set<Id>>, cfg: Config)
    requires Safe(w)
    ensures var v := Selected(w, now, only, cfg);
      && Ordered(v.s.outbox, v.s.nextId)
      && (forall p, k | InFlight(v, p, k) :: Holds(v.s, At(v, p, k)))
  {
    var v := Selected(w, now, only, cfg);
    SelectedFlights(w, now, only, cfg);
    RowSelect(w.s, now, only, cfg, 0);
    forall p, k | InFlight(v, p, k) ensures Holds(v.s, At(v, p, k)) {
      RowSelect(w.s, now, only, cfg, At(v, p, k).id);
      if p == |w.passes| {
        CollectedRow(w, now, only, cfg, k);
      }
    }
  }

  /** The new pass shares neither a row nor a recipient with an older open one. */
  lemma SelectedApart(w: World, now: Time, only: Option<set<Id>>, cfg: Config)
    requires Safe(w)
    ensures var v := Selected(w, now, only, cfg);
      var n := |w.passes|;
      forall p: nat, k: nat, l: nat | InFlight(w, p, k) && InFlight(v, n, l) ::
        Who(At(v, n, l)) != Who(At(w, p, k)) && At(v, n, l).id != At(w, p, k).id
  {
    var v := Selected(w, now, only, cfg);
    var n := |w.passes|;
    SelectedFlights(w, now, only, cfg);
    forall p: nat, k: nat, l: nat | InFlight(w, p, k) && InFlight(v, n, l)
      ensures Who(At(v, n, l)) != Who(At(w, p, k)) && At(v, n, l).id != At(w, p, k).id
    {
      CollectedFree(w, now, only, cfg, l, p, k);
    }
  }

  lemma SelectedDisjoint(w: World, now: Time, only: Option<set<Id>>, cfg: Config)
    requires Safe(w)
    ensures var v := Selected(w, now, only, cfg);
      && (forall p, k, q, l | InFlight(v, p, k) && InFlight(v, q, l) && At(v, p, k).id == At(v, q, l).id :: p == q && k == l)
      && (forall p, k, q, l | InFlight(v, p, k) && InFlight(v, q, l) && Who(At(v, p, k)) == Who(At(v, q, l)) :: p == q)
  {
    SelectedFlights(w, now, only, cfg);
    CollectedDistinct(w, now, only, cfg);
    SelectedApart(w, now, only, cfg);
  }

  lemma SelectedSending(w: World, now: Time, only: Option<set<Id>>, cfg: Config, id: Id)
    requires Safe(w)
    ensures var v := Selected(w, now, only, cfg);
      id in v.s.sending <==> Out(v, id)
  {
    var v := Selected(w, now, only, cfg);
    var n := |w.passes|;
    var attempts := v.passes[n].attempts;
    SelectedFlights(w, now, only, cfg);
    if Out(v, id) {
      var p: nat, k: nat :| InFlight(v, p, k) && At(v, p, k).id == id;
      if p < n {
        assert InFlight(w, p, k) && At(w, p, k).id == id;
      } else {
        assert attempts[k] in attempts;
      }
    }
    if Out(w, id) {
      var p: nat, k: nat :| InFlight(w, p, k) && At(w, p, k).id == id;
      assert InFlight(v, p, k) && At(v, p, k).id == id;
    }
    if id in Ids(attempts) {
      var a :| a in attempts && a.id == id;
      var k: nat :| k < |attempts| && attempts[k] == a;
      assert InFlight(v, n, k) && At(v, n, k).id == id;
    }
  }

  lemma SelectedCounts(w: World, now: Time, only: Option<set<Id>>, cfg: Config)
    requires Safe(w)
    ensures var v := Selected(w, now, only, cfg);
      && (forall who | who in v.s.sendingTo :: v.s.sendingTo[who] > 0)
      && (forall who :: Sending(v.s.sendingTo, who) == InFlightTo(v.passes, who))
  {
    var v := Selected(w, now, only, cfg);
    var n := |w.passes|;
    forall who ensures Sending(v.s.sendingTo, who) == InFlightTo(v.passes, who) {
      CountToPositive(v.passes[n].attempts, who);
      assert v.passes[..n] == w.passes;
    }
    forall who | who in v.s.sendingTo ensures v.s.sendingTo[who] > 0 {
      CountToPositive(v.passes[n].attempts, who);
    }
  }

  lemma SelectSafe(w: World, now: Time, only: Option<set<Id>>, cfg: Config)
    requires Safe(w)
    ensures Safe(Selected(w, now, only, cfg))
  {
    SelectedHolds(w, now, only, cfg);
    SelectedDisjoint(w, now, only, cfg);
    SelectedCounts(w, now, only, cfg);
    forall id ensures id in Selected(w, now, only, cfg).s.sending <==> Out(Selected(w, now, only, cfg), id) {
      SelectedSending(w, now, only, cfg, id);
    }
  }

  lemma SafeCollect(w: World, now: Time, only: Option<set<Id>>, cfg: Config, clock: Time)
    requires Safe(w)
    ensures Safe(CollectStep(w, now, only, cfg, clock))
  {
    var v := Selected(w, now, only, cfg);
    SelectSafe(w, now, only, cfg);
    PageStuckExtends(v.s, StuckRows(w.s.outbox, now, cfg), cfg, clock);
    SafeOperate(v, PageStuck(v.s, StuckRows(w.s.outbox, now, cfg), cfg, clock));
  }

  lemma SafeSend(w: World, p: nat, ok: bool)
    requires Safe(w) && CanSend(w, p)
    ensures Safe(SendStep(w, p, ok))
  {
    var v := SendStep(w, p, ok);
    InFlightSame(w, v);
    forall who ensures InFlightTo(v.passes, who) == InFlightTo(w.passes, who) {
      InFlightToUpdate(w.passes, p, v.passes[p], who);
    }
  }

  /** The booking finds every one of its rows and covers the marks it takes back. */
  lemma BookCovers(w: World, p: nat)
    requires Safe(w) && p < |w.passes| && w.passes[p].open
    ensures DistinctAttempts(w.passes[p].attempts)
    ensures Covers(w.s.sendingTo, w.passes[p].attempts)
  {
    var attempts := w.passes[p].attempts;
    forall i, j | 0 <= i < j < |attempts| ensures attempts[i].id != attempts[j].id {
      assert InFlight(w, p, i) && InFlight(w, p, j) && At(w, p, i) == attempts[i] && At(w, p, j) == attempts[j];
    }
    forall who ensures CountTo(attempts, who) <= Sending(w.s.sendingTo, who) {
      InFlightToUpdate(w.passes, p, w.passes[p].(open := false), who);
    }
  }

  lemma BookStepFrame(w: World, p: nat, cfg: Config, clock: Time)
    requires Safe(w) && CanBook(w, p)
    ensures var v := BookStep(w, p, cfg, clock);
      && (forall q, k :: InFlight(v, q, k) <==> InFlight(w, q, k) && q != p)
      && (forall q, k | InFlight(v, q, k) :: At(v, q, k) == At(w, q, k))
      && v.s.sending == w.s.sending - Ids(w.passes[p].attempts)
      && Ordered(v.s.outbox, v.s.nextId)
      && (forall who | who in v.s.sendingTo :: v.s.sendingTo[who] > 0)
      && (forall who :: Sending(v.s.sendingTo, who) == InFlightTo(v.passes, who))
  {
    var pass := w.passes[p];
    var results := ResultsOf(pass);
    var at := BookingClock(pass.now, clock);
    BookCovers(w, p);
    BookAllFrame(w.s, results, at, cfg);
    BookAllSending(w.s, results, at, cfg);
    BookAllSendingTo(w.s, results, at, cfg);
    RowBookAll(w.s, results, at, cfg, 0);
    forall who ensures Sending(BookStep(w, p, cfg, clock).s.sendingTo, who) == InFlightTo(w.passes[p := pass.(open := false)], who) {
      InFlightToUpdate(w.passes, p, pass.(open := false), who);
    }
  }

  /** The row of an attempt in flight after another pass was booked: untouched. */
  lemma BookLeaves(w: World, p: nat, cfg: Config, clock: Time, id: Id)
    requires Safe(w) && CanBook(w, p)
    requires forall k | 0 <= k < |w.passes[p].attempts| :: w.passes[p].attempts[k].id != id
    ensures Row(BookStep(w, p, cfg, clock).s.outbox, id) == Row(w.s.outbox, id)
  {
    var results := ResultsOf(w.passes[p]);
    BookCovers(w, p);
    RowBookAll(w.s, results, BookingClock(w.passes[p].now, clock), cfg, id);
    if Row(w.s.outbox, id).Some? {
      forall i | 0 <= i < |results| ensures results[i].attempt.id != id {
        assert results[i].attempt == w.passes[p].attempts[i];
      }
      BookedRowOther(Row(w.s.outbox, id).value, results, w.s.sending, BookingClock(w.passes[p].now, clock), cfg);
    }
  }

  /** The row of the k-th attempt of the booked pass. */
  lemma BookBooks(w: World, p: nat, cfg: Config, clock: Time, k: nat)
    requires Safe(w) && CanBook(w, p) && k < |w.passes[p].attempts|
    ensures var a := w.passes[p].attempts[k];
      var row := Row(w.s.outbox, a.id);
      && row.Some? && !row.value.Delivered()
      && Row(BookStep(w, p, cfg, clock).s.outbox, a.id)
         == Some(Booked(row.value, Result(a, w.passes[p].results[k]), Rearmed(w.s.sending, a.id),
                        BookingClock(w.passes[p].now, clock), cfg))
  {
    var results := ResultsOf(w.passes[p]);
    var a := w.passes[p].attempts[k];
    assert InFlight(w, p, k) && At(w, p, k) == a && results[k] == Result(a, w.passes[p].results[k]);
    BookCovers(w, p);
    RowBookAll(w.s, results, BookingClock(w.passes[p].now, clock), cfg, a.id);
    BookedRowAt(Row(w.s.outbox, a.id).value, results, k, w.s.sending, BookingClock(w.passes[p].now, clock), cfg);
  }

  lemma OutAfterBooking(w: World, p: nat, cfg: Config, clock: Time, id: Id)
    requires Safe(w) && CanBook(w, p)
    ensures Out(BookStep(w, p, cfg, clock), id) <==> Out(w, id) && id !in Ids(w.passes[p].attempts)
  {
    var v := BookStep(w, p, cfg, clock);
    BookStepFrame(w, p, cfg, clock);
    if Out(v, id) {
      var q, k :| InFlight(v, q, k) && At(v, q, k).id == id;
      forall l | 0 <= l < |w.passes[p].attempts| ensures w.passes[p].attempts[l].id != id {
        assert InFlight(w, p, l) && At(w, p, l) == w.passes[p].attempts[l];
      }
    }
    if Out(w, id) && id !in Ids(w.passes[p].attempts) {
      forall l | 0 <= l < |w.passes[p].attempts| ensures w.passes[p].attempts[l].id != id {
        assert w.passes[p].attempts[l] in w.passes[p].attempts;
      }
      var q, k :| InFlight(w, q, k) && At(w, q, k).id == id;
      assert InFlight(v, q, k) && At(v, q, k).id == id;
    }
  }

  lemma SafeBook(w: World, p: nat, cfg: Config, clock: Time)
    requires Safe(w) && CanBook(w, p)
    ensures Safe(BookStep(w, p, cfg, clock))
  {
    var v := BookStep(w, p, cfg, clock);
    BookStepFrame(w, p, cfg, clock);
    forall q, l | InFlight(v, q, l) ensures Holds(v.s, At(v, q, l)) {
      forall k | 0 <= k < |w.passes[p].attempts| ensures w.passes[p].attempts[k].id != At(w, q, l).id {
        assert InFlight(w, p, k) && At(w, p, k) == w.passes[p].attempts[k];
      }
      BookLeaves(w, p, cfg, clock, At(w, q, l).id);
    }
    forall id ensures id in v.s.sending <==> Out(v, id) {
      OutAfterBooking(w, p, cfg, clock, id);
    }
  }

  lemma SafeRetry(w: World, id: Id, clock: Time)
    requires Safe(w)
    ensures Safe(RetryStep(w, id, clock))
  {
    var v := RetryStep(w, id, clock);
    InFlightSame(w, v);
    RowRetry(w.s, id, clock, id);
    forall p, k | InFlight(v, p, k) ensures Holds(v.s, At(v, p, k)) {
      RowRetry(w.s, id, clock, At(w, p, k).id);
    }
  }

  lemma SafePrune(w: World, now: Time, cfg: Config)
    requires Safe(w)
    ensures Safe(PruneStep(w, now, cfg))
  {
    var v := PruneStep(w, now, cfg);
    InFlightSame(w, v);
    RowPrune(w.s, now, cfg, 0);
    forall p, k | InFlight(v, p, k) ensures Holds(v.s, At(v, p, k)) {
      RowPrune(w.s, now, cfg, At(w, p, k).id);
    }
  }

  /** Event identities survive every step. */
  lemma SoundStep(w: World, step: Step, cfg: Config)
    requires Sound(w.s)
    ensures Sound(Next(w, step, cfg).s)
  {
    match step
    case Operate(op) => ApplyExtends(w.s, op, cfg);
    case CollectPass(now, only, clock) =>
      PageStuckKeeps(Select(w.s, now, only, cfg).0, StuckRows(w.s.outbox, now, cfg), cfg, clock);
    case BookPass(p, clock) =>
      if CanBook(w, p) {
        BookAllFrame(w.s, ResultsOf(w.passes[p]), BookingClock(w.passes[p].now, clock), cfg);
      }
    case _ =>
  }

  lemma SafeStep(w: World, step: Step, cfg: Config)
    requires Safe(w) && Sound(w.s)
    ensures Safe(Next(w, step, cfg))
  {
    match step
    case Operate(op) => ApplyExtends(w.s, op, cfg); SafeOperate(w, Apply(w.s, op, cfg));
    case CollectPass(now, only, clock) => SafeCollect(w, now, only, cfg, clock);
    case SendReturns(p, ok) => if CanSend(w, p) { SafeSend(w, p, ok); }
    case BookPass(p, clock) => if CanBook(w, p) { SafeBook(w, p, cfg, clock); }
    case RetryRow(id, clock) => SafeRetry(w, id, clock);
    case PruneRows(now) => SafePrune(w, now, cfg);
  }

  /** In every interleaving the marks are exact and no recipient is served by two passes. */
  lemma {:induction false} AlwaysSafe(steps: seq<Step>, cfg: Config)
    ensures Safe(Run(steps, cfg)) && Sound(Run(steps, cfg).s)
  {
    if steps != [] {
      AlwaysSafe(steps[..|steps| - 1], cfg);
      SoundStep(Run(steps[..|steps| - 1], cfg), steps[|steps| - 1], cfg);
      SafeStep(Run(steps[..|steps| - 1], cfg), steps[|steps| - 1], cfg);
    }
  }
}
