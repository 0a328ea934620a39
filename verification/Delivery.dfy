/**
  The outbox half of internal/core/outbox.go and internal/core/views.go: which rows a
  pass picks, what booking its results does, the operator's retry, and pruning.
*/
module Delivery {
  import opened Options
  import opened Core
  import opened Transitions

  /** One due row copied out for an unlocked send. */
  datatype Attempt = Attempt(id: Id, eventId: Option<Id>, purpose: Purpose, kind: string, to: string, attempts: nat)

  /** What one attempt came back with; a panicking channel is a failure. */
  datatype Result = Result(attempt: Attempt, ok: bool)

  /** "The same recipient" for ordering: the pair a send is addressed to, not the person. */
  function RecipientKey(kind: string, to: string): Address {
    Address(kind, to)
  }

  function Who(a: Attempt): Address {
    RecipientKey(a.kind, a.to)
  }

  function AttemptOf(o: Item): Attempt {
    Attempt(o.id, o.eventId, o.purpose, o.kind, o.to, o.attempts)
  }

  function Sending(m: map<Address, int>, who: Address): int {
    if who in m then m[who] else 0
  }

  // ---- classification --------------------------------------------------------

  datatype RowState = DeliveredRow | FailedRow | RetryingRow | QueuedRow

  function OutboxState(o: Item, cfg: Config): RowState {
    if o.Delivered() then DeliveredRow
    else if o.attempts >= cfg.maxAttempts then FailedRow
    else if o.attempts > 0 then RetryingRow
    else QueuedRow
  }

  // ---- collecting ------------------------------------------------------------

  /** Undelivered, asked for, with attempts left and its backoff over. */
  predicate Due(o: Item, now: Time, only: Option<set<Id>>, cfg: Config) {
    && !o.Delivered()
    && (only.Some? ==> o.id in only.value)
    && o.attempts < cfg.maxAttempts
    && o.nextAttempt <= now
  }

  /** A pass takes a due row exactly when no earlier pass is sending to its recipient. */
  predicate Picks(o: Item, now: Time, only: Option<set<Id>>, sendingTo: map<Address, int>, cfg: Config) {
    Due(o, now, only, cfg) && Sending(sendingTo, RecipientKey(o.kind, o.to)) <= 0
  }

  function Picked(outbox: seq<Item>, now: Time, only: Option<set<Id>>, sendingTo: map<Address, int>, cfg: Config): seq<Attempt> {
    if outbox == [] then []
    else
      var front := Picked(outbox[..|outbox| - 1], now, only, sendingTo, cfg);
      var o := outbox[|outbox| - 1];
      if Picks(o, now, only, sendingTo, cfg) then front + [AttemptOf(o)] else front
  }

  /** Undelivered for too long and not yet reported. */
  predicate Stuck(o: Item, now: Time, cfg: Config) {
    && !o.Delivered() && o.escalatedAt.None? && o.purpose != Escalation
    && now - o.createdAt >= cfg.escalateAfter
  }

  function Escalated(outbox: seq<Item>, now: Time, cfg: Config): (r: seq<Item>)
    ensures |r| == |outbox|
    ensures forall i | 0 <= i < |r| ::
      r[i] == if Stuck(outbox[i], now, cfg) then outbox[i].(escalatedAt := Some(now)) else outbox[i]
  {
    seq(|outbox|, i requires 0 <= i < |outbox| =>
      if Stuck(outbox[i], now, cfg) then outbox[i].(escalatedAt := Some(now)) else outbox[i])
  }

  function StuckRows(outbox: seq<Item>, now: Time, cfg: Config): seq<Id> {
    if outbox == [] then []
    else
      var front := StuckRows(outbox[..|outbox| - 1], now, cfg);
      var o := outbox[|outbox| - 1];
      if Stuck(o, now, cfg) then front + [o.id] else front
  }

  function PageStuck(s: State, rows: seq<Id>, cfg: Config, clock: Time): State {
    if rows == [] then s
    else NotifyAdmin(PageStuck(s, rows[..|rows| - 1], cfg, clock), DeliveryStuck(rows[|rows| - 1]), cfg, clock)
  }

  function Ids(attempts: seq<Attempt>): set<Id> {
    set a | a in attempts :: a.id
  }

  function Recipients(attempts: seq<Attempt>): set<Address> {
    set a | a in attempts :: Who(a)
  }

  /** How many of these attempts are addressed to this recipient. */
  function CountTo(attempts: seq<Attempt>, who: Address): nat {
    if attempts == [] then 0
    else CountTo(attempts[..|attempts| - 1], who) + if Who(attempts[|attempts| - 1]) == who then 1 else 0
  }

  /** Every attempt is out, not re-armed so far. */
  function Mark(sending: map<Id, nat>, attempts: seq<Attempt>): map<Id, nat> {
    map id | id in sending.Keys + Ids(attempts) :: if id in Ids(attempts) then 0 else sending[id]
  }

  /** Every recipient has its attempts added. */
  function Raise(sendingTo: map<Address, int>, attempts: seq<Attempt>): map<Address, int> {
    map who | who in sendingTo.Keys + Recipients(attempts) :: Sending(sendingTo, who) + CountTo(attempts, who)
  }

  lemma {:induction false} CountToPositive(attempts: seq<Attempt>, who: Address)
    ensures CountTo(attempts, who) > 0 <==> who in Recipients(attempts)
  {
    if attempts != [] {
      var front := attempts[..|attempts| - 1];
      CountToPositive(front, who);
      assert attempts == front + [attempts[|attempts| - 1]];
    }
  }

  lemma MarkStep(sending: map<Id, nat>, attempts: seq<Attempt>, a: Attempt)
    ensures Mark(sending, attempts + [a]) == Mark(sending, attempts)[a.id := 0]
  {
    assert Ids(attempts + [a]) == Ids(attempts) + {a.id};
  }

  lemma RaiseStep(sendingTo: map<Address, int>, attempts: seq<Attempt>, a: Attempt)
    ensures Raise(sendingTo, attempts + [a])
         == Raise(sendingTo, attempts)[Who(a) := Sending(Raise(sendingTo, attempts), Who(a)) + 1]
  {
    var left := Raise(sendingTo, attempts + [a]);
    var right := Raise(sendingTo, attempts)[Who(a) := Sending(Raise(sendingTo, attempts), Who(a)) + 1];
    assert Recipients(attempts + [a]) == Recipients(attempts) + {Who(a)};
    assert left.Keys == right.Keys;
    CountToPositive(attempts, Who(a));
    forall who | who in left ensures left[who] == right[who] {
      CountToMore(attempts, a, who);
    }
  }

  lemma CountToMore(attempts: seq<Attempt>, a: Attempt, who: Address)
    ensures CountTo(attempts + [a], who) == CountTo(attempts, who) + if Who(a) == who then 1 else 0
  {
    assert (attempts + [a])[..|attempts|] == attempts;
  }

  /**
    The selection loop's own bookkeeping. `mine` holds the recipients this pass has already
    taken: only a send of an earlier pass keeps a recipient from being taken.
  */
  datatype Scan = Scan(
    outbox: seq<Item>, sending: map<Id, nat>, sendingTo: map<Address, int>,
    mine: set<Address>, attempts: seq<Attempt>, stuck: seq<Id>)

  predicate Takes(sc: Scan, o: Item, now: Time, only: Option<set<Id>>, cfg: Config) {
    var who := RecipientKey(o.kind, o.to);
    Due(o, now, only, cfg) && !(Sending(sc.sendingTo, who) > 0 && who !in sc.mine)
  }

  function ScanEscalation(sc: Scan, i: nat, now: Time, cfg: Config): Scan
    requires i < |sc.outbox|
  {
    var o := sc.outbox[i];
    if Stuck(o, now, cfg)
    then sc.(outbox := sc.outbox[i := o.(escalatedAt := Some(now))], stuck := sc.stuck + [o.id])
    else sc
  }

  function ScanSelection(sc: Scan, o: Item, now: Time, only: Option<set<Id>>, cfg: Config): Scan {
    var who := RecipientKey(o.kind, o.to);
    if !Takes(sc, o, now, only, cfg) then sc
    else
      sc.(
        mine := sc.mine + {who},
        sending := sc.sending[o.id := 0],
        sendingTo := sc.sendingTo[who := Sending(sc.sendingTo, who) + 1],
        attempts := sc.attempts + [AttemptOf(o)])
  }

  /** The bookkeeping after the first i rows. */
  function ScanTo(s: State, i: nat, now: Time, only: Option<set<Id>>, cfg: Config): (sc: Scan)
    requires i <= |s.outbox|
    ensures |sc.outbox| == |s.outbox|
    ensures forall j | i <= j < |s.outbox| :: sc.outbox[j] == s.outbox[j]
  {
    if i == 0 then Scan(s.outbox, s.sending, s.sendingTo, {}, [], [])
    else ScanSelection(ScanEscalation(ScanTo(s, i - 1, now, only, cfg), i - 1, now, cfg), s.outbox[i - 1], now, only, cfg)
  }

  /** The loop takes exactly the due rows to recipients no earlier pass is sending to. */
  lemma {:induction false} ScanSelects(s: State, i: nat, now: Time, only: Option<set<Id>>, cfg: Config)
    requires i <= |s.outbox|
    ensures var sc := ScanTo(s, i, now, only, cfg);
      && sc.attempts == Picked(s.outbox[..i], now, only, s.sendingTo, cfg)
      && (forall who | who in sc.mine :: Sending(s.sendingTo, who) <= 0)
      && (forall who | who !in sc.mine :: Sending(sc.sendingTo, who) == Sending(s.sendingTo, who))
  {
    if i > 0 {
      ScanSelects(s, i - 1, now, only, cfg);
      assert s.outbox[..i][..i - 1] == s.outbox[..i - 1];
    }
  }

  predicate Marked(sc: Scan, sending: map<Id, nat>, sendingTo: map<Address, int>) {
    sc.sending == Mark(sending, sc.attempts) && sc.sendingTo == Raise(sendingTo, sc.attempts)
  }

  lemma SelectionKeepsMarks(sc: Scan, o: Item, now: Time, only: Option<set<Id>>, cfg: Config,
                            sending: map<Id, nat>, sendingTo: map<Address, int>)
    requires Marked(sc, sending, sendingTo)
    ensures Marked(ScanSelection(sc, o, now, only, cfg), sending, sendingTo)
  {
    if Takes(sc, o, now, only, cfg) {
      MarkStep(sending, sc.attempts, AttemptOf(o));
      RaiseStep(sendingTo, sc.attempts, AttemptOf(o));
    }
  }

  lemma {:induction false} ScanMarks(s: State, i: nat, now: Time, only: Option<set<Id>>, cfg: Config)
    requires i <= |s.outbox|
    ensures Marked(ScanTo(s, i, now, only, cfg), s.sending, s.sendingTo)
  {
    if i == 0 {
      assert Mark(s.sending, []) == s.sending && Raise(s.sendingTo, []) == s.sendingTo;
    } else {
      ScanMarks(s, i - 1, now, only, cfg);
      var escalated := ScanEscalation(ScanTo(s, i - 1, now, only, cfg), i - 1, now, cfg);
      SelectionKeepsMarks(escalated, s.outbox[i - 1], now, only, cfg, s.sending, s.sendingTo);
    }
  }

  lemma {:induction false} ScanEscalates(s: State, i: nat, now: Time, only: Option<set<Id>>, cfg: Config)
    requires i <= |s.outbox|
    ensures var sc := ScanTo(s, i, now, only, cfg);
      && sc.stuck == StuckRows(s.outbox[..i], now, cfg)
      && (forall j | 0 <= j < i :: sc.outbox[j] == Escalated(s.outbox, now, cfg)[j])
  {
    if i > 0 {
      var before := ScanTo(s, i - 1, now, only, cfg);
      ScanEscalates(s, i - 1, now, only, cfg);
      SelectionKeepsRows(ScanEscalation(before, i - 1, now, cfg), s.outbox[i - 1], now, only, cfg);
      EscalationStep(s.outbox, before, i - 1, now, cfg);
    }
  }

  lemma SelectionKeepsRows(sc: Scan, o: Item, now: Time, only: Option<set<Id>>, cfg: Config)
    ensures ScanSelection(sc, o, now, only, cfg).outbox == sc.outbox && ScanSelection(sc, o, now, only, cfg).stuck == sc.stuck
  {
  }

  lemma EscalationStep(outbox: seq<Item>, sc: Scan, i: nat, now: Time, cfg: Config)
    requires i < |outbox| == |sc.outbox| && sc.outbox[i] == outbox[i] && sc.stuck == StuckRows(outbox[..i], now, cfg)
    requires forall j | 0 <= j < i :: sc.outbox[j] == Escalated(outbox, now, cfg)[j]
    ensures var next := ScanEscalation(sc, i, now, cfg);
      next.stuck == StuckRows(outbox[..i + 1], now, cfg) && forall j | 0 <= j < i + 1 :: next.outbox[j] == Escalated(outbox, now, cfg)[j]
  {
    assert outbox[..i + 1][..i] == outbox[..i];
  }

  /** The state and the attempts the loop ends with. */
  function Select(s: State, now: Time, only: Option<set<Id>>, cfg: Config): (State, seq<Attempt>) {
    var attempts := Picked(s.outbox, now, only, s.sendingTo, cfg);
    (s.(outbox := Escalated(s.outbox, now, cfg),
        sending := Mark(s.sending, attempts),
        sendingTo := Raise(s.sendingTo, attempts)),
     attempts)
  }

  lemma ScanIsSelect(s: State, now: Time, only: Option<set<Id>>, cfg: Config)
    ensures var sc := ScanTo(s, |s.outbox|, now, only, cfg);
      && Select(s, now, only, cfg) == (s.(outbox := sc.outbox, sending := sc.sending, sendingTo := sc.sendingTo), sc.attempts)
      && sc.stuck == StuckRows(s.outbox, now, cfg)
  {
    var n := |s.outbox|;
    assert s.outbox[..n] == s.outbox;
    ScanSelects(s, n, now, only, cfg);
    ScanMarks(s, n, now, only, cfg);
    ScanEscalates(s, n, now, only, cfg);
    assert ScanTo(s, n, now, only, cfg).outbox == Escalated(s.outbox, now, cfg);
  }

  function Collect(s: State, now: Time, only: Option<set<Id>>, cfg: Config, clock: Time): (State, seq<Attempt>) {
    var (marked, attempts) := Select(s, now, only, cfg);
    (PageStuck(marked, StuckRows(s.outbox, now, cfg), cfg, clock), attempts)
  }

  // ---- booking ---------------------------------------------------------------

  function Min(a: int, b: int): int {
    if a <= b then a else b
  }

  function Pow2(n: nat): nat {
    if n == 0 then 1 else 2 * Pow2(n - 1)
  }

  /** The wait after the given number of attempts: doubled each time, five steps at most. */
  function Backoff(attempts: nat, cfg: Config): Duration
    requires attempts > 0
  {
    cfg.retryDelay * Pow2(Min(attempts - 1, 4))
  }

  function BookedOk(o: Item, a: Attempt, at: Time): Item {
    o.(attempts := a.attempts + 1, deliveredAt := Some(at))
  }

  function BookedFail(o: Item, a: Attempt, at: Time, cfg: Config): Item {
    o.(attempts := a.attempts + 1, nextAttempt := at + Backoff(a.attempts + 1, cfg))
  }

  /** What a returned send makes of its row. */
  function Booked(o: Item, r: Result, rearmed: bool, at: Time, cfg: Config): Item {
    if o.Delivered() then o
    else if r.ok then BookedOk(o, r.attempt, at)
    else if rearmed then o
    else BookedFail(o, r.attempt, at, cfg)
  }

  function Rearmed(sending: map<Id, nat>, id: Id): bool {
    id in sending && sending[id] > 0
  }

  function Lower(sendingTo: map<Address, int>, who: Address): map<Address, int> {
    var left := Sending(sendingTo, who) - 1;
    if left <= 0 then sendingTo - {who} else sendingTo[who := left]
  }

  function BookOne(s: State, r: Result, at: Time, cfg: Config): State {
    var id := r.attempt.id;
    var k := FindItem(s.outbox, id);
    s.(
      sending := s.sending - {id},
      sendingTo := Lower(s.sendingTo, Who(r.attempt)),
      audit := s.audit + [if r.ok then DeliveryOk(id) else DeliveryFail(id)],
      outbox := if k == |s.outbox| then s.outbox
                else s.outbox[k := Booked(s.outbox[k], r, Rearmed(s.sending, id), at, cfg)])
  }

  function BookAll(s: State, results: seq<Result>, at: Time, cfg: Config): State
    decreases |results|
  {
    if results == [] then s
    else BookAll(BookOne(s, results[0], at, cfg), results[1..], at, cfg)
  }

  /** Bookings carry the later of the pass's own clock and the clock after the sends. */
  function BookingClock(now: Time, clock: Time): Time {
    if clock > now then clock else now
  }

  function Book(s: State, results: seq<Result>, now: Time, clock: Time, cfg: Config): State {
    BookAll(s, results, BookingClock(now, clock), cfg)
  }

  // ---- the operator's retry --------------------------------------------------

  datatype RetryOutcome = Retried | AlreadyDelivered | NoSuchRow

  function Retry(s: State, id: Id, clock: Time): (State, RetryOutcome) {
    var k := FindItem(s.outbox, id);
    if k == |s.outbox| then (s, NoSuchRow)
    else if s.outbox[k].Delivered() then (s, AlreadyDelivered)
    else
      (s.(
         outbox := s.outbox[k := s.outbox[k].(attempts := 0, nextAttempt := clock)],
         sending := if id in s.sending then s.sending[id := s.sending[id] + 1] else s.sending,
         audit := s.audit + [OutboxRetry(id)]),
       Retried)
  }

  // ---- pruning ---------------------------------------------------------------

  /** Delivered before the cutoff, with an event that is gone or over by then. */
  predicate Prunable(o: Item, events: seq<Event>, cutoff: Time) {
    && o.Delivered() && o.deliveredAt.value <= cutoff
    && (o.eventId.Some? ==>
          var k := FindEvent(events, o.eventId.value);
          k < |events| ==> events[k].End() <= cutoff)
  }

  function Kept(outbox: seq<Item>, events: seq<Event>, cutoff: Time): seq<Item> {
    if outbox == [] then []
    else
      var front := Kept(outbox[..|outbox| - 1], events, cutoff);
      var o := outbox[|outbox| - 1];
      if Prunable(o, events, cutoff) then front else front + [o]
  }

  function Dropped(outbox: seq<Item>, events: seq<Event>, cutoff: Time): seq<Item> {
    if outbox == [] then []
    else
      var front := Dropped(outbox[..|outbox| - 1], events, cutoff);
      var o := outbox[|outbox| - 1];
      if Prunable(o, events, cutoff) then front + [o] else front
  }

  function Prune(s: State, now: Time, cfg: Config): State {
    var cutoff := now - cfg.outboxRetention;
    var gone := |Dropped(s.outbox, s.events, cutoff)|;
    if gone == 0 then s
    else Log(s.(outbox := Kept(s.outbox, s.events, cutoff)), OutboxPruned(gone))
  }

  // ---- the delivery record ---------------------------------------------------

  /** Whether a row belongs to the event's latest propagation transaction. */
  predicate InLastFanOut(e: Event, o: Item) {
    && o.eventId == Some(e.id)
    && if e.fanOutTxn.Some? then o.txn == e.fanOutTxn
       else o.purpose in {Cancellation, Moved, Reinstated}
  }

  function RowsInLastFanOut(e: Event, outbox: seq<Item>): seq<Item> {
    if outbox == [] then []
    else
      var front := RowsInLastFanOut(e, outbox[..|outbox| - 1]);
      var o := outbox[|outbox| - 1];
      if InLastFanOut(e, o) then front + [o] else front
  }

  function CountRows(rows: seq<Item>, states: set<RowState>, cfg: Config): (n: nat)
    ensures n <= |rows|
  {
    if rows == [] then 0
    else CountRows(rows[..|rows| - 1], states, cfg) + if OutboxState(rows[|rows| - 1], cfg) in states then 1 else 0
  }

  datatype PropagationStatus = PropagationStatus(
    total: nat, delivered: nat, pending: nat, failed: nat, complete: bool, empty: bool, items: seq<Item>)

  /** What these rows of its last transaction say about an event. */
  function StatusOf(e: Event, rows: seq<Item>, cfg: Config): PropagationStatus {
    var delivered := CountRows(rows, {DeliveredRow}, cfg);
    PropagationStatus(|rows|, delivered,
                      CountRows(rows, {RetryingRow, QueuedRow}, cfg), CountRows(rows, {FailedRow}, cfg),
                      |rows| > 0 && delivered == |rows|,
                      e.fanOutAt.Some? && e.fanOutCount == 0 && |rows| == 0,
                      rows)
  }

  function Propagation(s: State, k: nat, cfg: Config): PropagationStatus
    requires k < |s.events|
  {
    StatusOf(s.events[k], RowsInLastFanOut(s.events[k], s.outbox), cfg)
  }

  /** Rows of the last transaction that are still queued or retrying. */
  function FanOutInFlight(s: State, e: Event, cfg: Config): nat {
    CountRows(RowsInLastFanOut(e, s.outbox), {RetryingRow, QueuedRow}, cfg)
  }

  // ---- the test message ------------------------------------------------------

  /** Queue a test message for a person and collect exactly those rows. */
  function EnqueueTest(s: State, person: Id, cfg: Config, clock: Time): Option<(State, seq<Attempt>)> {
    var k := FindPerson(s.people, person);
    if k == |s.people| || !s.people[k].Reachable() then None
    else
      var d := Draft(None, TestMessage, None, "", "", Plain);
      var queued := EnqueueToPerson(s, s.people[k], d, clock);
      var ids := set o | o in queued.outbox[|s.outbox|..] :: o.id;
      Some(Collect(Log(queued, TestSent(person)), clock, Some(ids), cfg, clock))
  }
}
