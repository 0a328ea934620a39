/**
  Looking at the outbox as a map from ids to rows, and what each delivery operation does to
  that map. Everything in `Protocol` is stated over `Row`.
*/
module Rows {
  import opened Options
  import opened Core
  import opened Transitions
  import opened Delivery
  import opened Actions

  function Row(outbox: seq<Item>, id: Id): Option<Item> {
    var k := FindItem(outbox, id);
    if k < |outbox| then Some(outbox[k]) else None
  }

  /** Queue order is id order: rows are appended with growing ids. */
  predicate Ordered(outbox: seq<Item>, next: Id) {
    && (forall i | 0 <= i < |outbox| :: outbox[i].id < next)
    && (forall i, j | 0 <= i < j < |outbox| :: outbox[i].id < outbox[j].id)
  }

  lemma RowAt(outbox: seq<Item>, i: nat, next: Id)
    requires Ordered(outbox, next) && i < |outbox|
    ensures Row(outbox, outbox[i].id) == Some(outbox[i])
  {
    var k := FindItem(outbox, outbox[i].id);
    assert k <= i;
  }

  predicate SameIds(a: seq<Item>, b: seq<Item>) {
    |a| == |b| && forall i | 0 <= i < |a| :: a[i].id == b[i].id
  }

  lemma SameIdsFind(a: seq<Item>, b: seq<Item>, id: Id)
    requires SameIds(a, b)
    ensures FindItem(a, id) == FindItem(b, id)
  {
    var j, k := FindItem(a, id), FindItem(b, id);
    assert j < |a| ==> b[j].id == id;
    assert k < |b| ==> a[k].id == id;
  }

  // ---- operations only append ------------------------------------------------

  lemma RowExtends(s: State, t: State, id: Id)
    requires Extends(s, t) && Ordered(s.outbox, s.nextId)
    ensures Row(s.outbox, id).Some? ==> Row(t.outbox, id) == Row(s.outbox, id)
    ensures Row(s.outbox, id).None? && Row(t.outbox, id).Some? ==> Untried(Row(t.outbox, id).value) && s.nextId <= id
  {
    var k := FindItem(t.outbox, id);
    forall i | 0 <= i < |s.outbox| ensures t.outbox[i] == s.outbox[i] {
      assert t.outbox[i] == t.outbox[..|s.outbox|][i];
    }
    var j := FindItem(s.outbox, id);
    if j < |s.outbox| {
      assert t.outbox[j].id == id && k <= j;
      assert s.outbox[k].id == id;
    }
  }

  lemma OrderedExtends(s: State, t: State)
    requires Extends(s, t) && Ordered(s.outbox, s.nextId)
    ensures Ordered(t.outbox, t.nextId)
  {
    forall i | 0 <= i < |s.outbox| ensures t.outbox[i] == s.outbox[i] {
      assert t.outbox[i] == t.outbox[..|s.outbox|][i];
    }
  }

  // ---- selection -------------------------------------------------------------

  /** The positions of the picked rows. */
  function PickedAt(outbox: seq<Item>, now: Time, only: Option<set<Id>>, sendingTo: map<Address, int>, cfg: Config): seq<nat> {
    if outbox == [] then []
    else
      var n := |outbox| - 1;
      var front := PickedAt(outbox[..n], now, only, sendingTo, cfg);
      if Picks(outbox[n], now, only, sendingTo, cfg) then front + [n] else front
  }

  /** The attempts are copies of picked rows, in queue order; every pickable row is among them. */
  lemma {:induction false} PickedRows(outbox: seq<Item>, now: Time, only: Option<set<Id>>, sendingTo: map<Address, int>, cfg: Config)
    ensures var at := PickedAt(outbox, now, only, sendingTo, cfg);
      var attempts := Picked(outbox, now, only, sendingTo, cfg);
      && |at| == |attempts|
      && (forall k | 0 <= k < |at| :: at[k] < |outbox| && attempts[k] == AttemptOf(outbox[at[k]]) && Picks(outbox[at[k]], now, only, sendingTo, cfg))
      && (forall k, l | 0 <= k < l < |at| :: at[k] < at[l])
      && (forall i | 0 <= i < |outbox| && Picks(outbox[i], now, only, sendingTo, cfg) :: i in at)
  {
    if outbox != [] {
      PickedRows(outbox[..|outbox| - 1], now, only, sendingTo, cfg);
    }
  }

  lemma RowSelect(s: State, now: Time, only: Option<set<Id>>, cfg: Config, id: Id)
    ensures var t := Select(s, now, only, cfg).0;
      && SameIds(s.outbox, t.outbox)
      && (Row(s.outbox, id).None? <==> Row(t.outbox, id).None?)
      && (Row(s.outbox, id).Some? ==>
            Row(t.outbox, id).value == Row(s.outbox, id).value.(escalatedAt := Row(t.outbox, id).value.escalatedAt))
  {
    SameIdsFind(s.outbox, Select(s, now, only, cfg).0.outbox, id);
  }

  lemma {:induction false} PageStuckExtends(s: State, rows: seq<Id>, cfg: Config, clock: Time)
    ensures Extends(s, PageStuck(s, rows, cfg, clock))
  {
    if rows != [] {
      var front := PageStuck(s, rows[..|rows| - 1], cfg, clock);
      PageStuckExtends(s, rows[..|rows| - 1], cfg, clock);
      NotifyExtends(front, DeliveryStuck(rows[|rows| - 1]), cfg, clock);
      ExtendsTrans(s, front, PageStuck(s, rows, cfg, clock));
    }
  }

  lemma {:induction false} PageStuckKeeps(s: State, rows: seq<Id>, cfg: Config, clock: Time)
    ensures var t := PageStuck(s, rows, cfg, clock);
      t == s.(outbox := t.outbox, audit := t.audit, nextId := t.nextId) && s.nextId <= t.nextId
  {
    if rows != [] {
      PageStuckKeeps(s, rows[..|rows| - 1], cfg, clock);
    }
  }

  // ---- booking ---------------------------------------------------------------

  function Attempts(results: seq<Result>): (r: seq<Attempt>)
    ensures |r| == |results|
    ensures forall i | 0 <= i < |r| :: r[i] == results[i].attempt
  {
    seq(|results|, i requires 0 <= i < |results| => results[i].attempt)
  }

  predicate DistinctAttempts(attempts: seq<Attempt>) {
    forall i, j | 0 <= i < j < |attempts| :: attempts[i].id != attempts[j].id
  }

  lemma {:induction false} CountToHead(attempts: seq<Attempt>, who: Address)
    requires attempts != []
    ensures CountTo(attempts, who) == (if Who(attempts[0]) == who then 1 else 0) + CountTo(attempts[1..], who)
  {
    if |attempts| > 1 {
      var front := attempts[..|attempts| - 1];
      CountToHead(front, who);
      assert front[1..] == attempts[1..][..|attempts| - 2];
    }
  }

  lemma RowBookOne(s: State, r: Result, at: Time, cfg: Config, id: Id)
    ensures var t := BookOne(s, r, at, cfg);
      && SameIds(s.outbox, t.outbox)
      && (Row(s.outbox, id).None? <==> Row(t.outbox, id).None?)
      && (Row(s.outbox, id).Some? ==>
            Row(t.outbox, id) == Some(if id == r.attempt.id
                                      then Booked(Row(s.outbox, id).value, r, Rearmed(s.sending, id), at, cfg)
                                      else Row(s.outbox, id).value))
  {
    SameIdsFind(s.outbox, BookOne(s, r, at, cfg).outbox, id);
  }

  ghost predicate Covers(sendingTo: map<Address, int>, attempts: seq<Attempt>) {
    && (forall who | who in sendingTo :: sendingTo[who] > 0)
    && (forall who :: CountTo(attempts, who) <= Sending(sendingTo, who))
  }

  lemma LowerStep(sendingTo: map<Address, int>, attempts: seq<Attempt>)
    requires attempts != [] && Covers(sendingTo, attempts)
    ensures Covers(Lower(sendingTo, Who(attempts[0])), attempts[1..])
    ensures forall who :: Sending(Lower(sendingTo, Who(attempts[0])), who)
                       == Sending(sendingTo, who) - if Who(attempts[0]) == who then 1 else 0
  {
    var low := Lower(sendingTo, Who(attempts[0]));
    CountToHead(attempts, Who(attempts[0]));
    forall who ensures Sending(low, who) == Sending(sendingTo, who) - if Who(attempts[0]) == who then 1 else 0 {
    }
    forall who ensures CountTo(attempts[1..], who) <= Sending(low, who) {
      CountToHead(attempts, who);
    }
  }

  lemma {:induction false} BookAllFrame(s: State, results: seq<Result>, at: Time, cfg: Config)
    ensures var t := BookAll(s, results, at, cfg);
      t == s.(outbox := t.outbox, sending := t.sending, sendingTo := t.sendingTo, audit := t.audit)
    decreases |results|
  {
    if results != [] {
      BookAllFrame(BookOne(s, results[0], at, cfg), results[1..], at, cfg);
    }
  }

  lemma {:induction false} BookAllSending(s: State, results: seq<Result>, at: Time, cfg: Config)
    ensures BookAll(s, results, at, cfg).sending == s.sending - Ids(Attempts(results))
    decreases |results|
  {
    if results == [] {
    } else {
      var attempts := Attempts(results);
      BookAllSending(BookOne(s, results[0], at, cfg), results[1..], at, cfg);
      assert attempts == [attempts[0]] + Attempts(results[1..]);
      assert Ids(attempts) == {attempts[0].id} + Ids(Attempts(results[1..]));
    }
  }

  /** Booking a pass takes back exactly the marks the pass has set. */
  lemma {:induction false} BookAllSendingTo(s: State, results: seq<Result>, at: Time, cfg: Config)
    requires Covers(s.sendingTo, Attempts(results))
    ensures var t := BookAll(s, results, at, cfg);
      && (forall who | who in t.sendingTo :: t.sendingTo[who] > 0)
      && (forall who :: Sending(t.sendingTo, who) == Sending(s.sendingTo, who) - CountTo(Attempts(results), who))
    decreases |results|
  {
    if results == [] {
    } else {
      var attempts := Attempts(results);
      var next := BookOne(s, results[0], at, cfg);
      LowerStep(s.sendingTo, attempts);
      assert attempts[1..] == Attempts(results[1..]);
      BookAllSendingTo(next, results[1..], at, cfg);
      var t := BookAll(s, results, at, cfg);
      forall who ensures Sending(t.sendingTo, who) == Sending(s.sendingTo, who) - CountTo(attempts, who) {
        CountToHead(attempts, who);
      }
    }
  }

  /** What booking a whole pass makes of the row with this id. */
  function BookedRow(o: Item, results: seq<Result>, sending: map<Id, nat>, at: Time, cfg: Config): Item {
    if results == [] then o
    else if results[0].attempt.id == o.id then Booked(o, results[0], Rearmed(sending, o.id), at, cfg)
    else BookedRow(o, results[1..], sending, at, cfg)
  }

  lemma {:induction false} RowBookAll(s: State, results: seq<Result>, at: Time, cfg: Config, id: Id)
    requires DistinctAttempts(Attempts(results))
    ensures var t := BookAll(s, results, at, cfg);
      && SameIds(s.outbox, t.outbox)
      && (Row(s.outbox, id).None? <==> Row(t.outbox, id).None?)
      && (Row(s.outbox, id).Some? ==> Row(t.outbox, id) == Some(BookedRow(Row(s.outbox, id).value, results, s.sending, at, cfg)))
    decreases |results|
  {
    if results != [] {
      var next := BookOne(s, results[0], at, cfg);
      RowBookOne(s, results[0], at, cfg, id);
      assert Attempts(results[1..]) == Attempts(results)[1..];
      RowBookAll(next, results[1..], at, cfg, id);
      if Row(s.outbox, id).Some? {
        if results[0].attempt.id == id {
          BookedRowOther(Row(next.outbox, id).value, results[1..], next.sending, at, cfg);
        } else {
          BookedRowMarks(Row(s.outbox, id).value, results[1..], s.sending, next.sending, at, cfg);
        }
      }
    }
  }

  lemma {:induction false} BookedRowOther(o: Item, results: seq<Result>, sending: map<Id, nat>, at: Time, cfg: Config)
    requires forall i | 0 <= i < |results| :: results[i].attempt.id != o.id
    ensures BookedRow(o, results, sending, at, cfg) == o
  {
    if results != [] {
      BookedRowOther(o, results[1..], sending, at, cfg);
    }
  }

  lemma {:induction false} BookedRowMarks(o: Item, results: seq<Result>, a: map<Id, nat>, b: map<Id, nat>, at: Time, cfg: Config)
    requires Rearmed(a, o.id) == Rearmed(b, o.id)
    ensures BookedRow(o, results, a, at, cfg) == BookedRow(o, results, b, at, cfg)
  {
    if results != [] {
      BookedRowMarks(o, results[1..], a, b, at, cfg);
    }
  }

  lemma {:induction false} BookedRowAt(o: Item, results: seq<Result>, k: nat, sending: map<Id, nat>, at: Time, cfg: Config)
    requires DistinctAttempts(Attempts(results))
    requires k < |results| && results[k].attempt.id == o.id
    ensures BookedRow(o, results, sending, at, cfg) == Booked(o, results[k], Rearmed(sending, o.id), at, cfg)
  {
    if k > 0 {
      assert Attempts(results)[0].id != Attempts(results)[k].id;
      assert Attempts(results[1..]) == Attempts(results)[1..];
      BookedRowAt(o, results[1..], k - 1, sending, at, cfg);
    }
  }

  // ---- retry and pruning -----------------------------------------------------

  lemma RowRetry(s: State, id: Id, clock: Time, x: Id)
    ensures var (t, outcome) := Retry(s, id, clock);
      && SameIds(s.outbox, t.outbox)
      && (Row(s.outbox, x).None? <==> Row(t.outbox, x).None?)
      && (outcome == Retried <==> Row(s.outbox, id).Some? && !Row(s.outbox, id).value.Delivered())
      && (Row(s.outbox, x).Some? ==>
            Row(t.outbox, x) == Some(if x == id && outcome == Retried
                                     then Row(s.outbox, x).value.(attempts := 0, nextAttempt := clock)
                                     else Row(s.outbox, x).value))
  {
    SameIdsFind(s.outbox, Retry(s, id, clock).0.outbox, x);
  }

  lemma {:induction false} KeptRows(outbox: seq<Item>, events: seq<Event>, cutoff: Time)
    ensures forall o :: o in Kept(outbox, events, cutoff) <==> o in outbox && !Prunable(o, events, cutoff)
  {
    if outbox != [] {
      var n := |outbox| - 1;
      KeptRows(outbox[..n], events, cutoff);
      assert outbox == outbox[..n] + [outbox[n]];
    }
  }

  lemma {:induction false} DroppedRows(outbox: seq<Item>, events: seq<Event>, cutoff: Time)
    ensures forall o :: o in Dropped(outbox, events, cutoff) <==> o in outbox && Prunable(o, events, cutoff)
  {
    if outbox != [] {
      var n := |outbox| - 1;
      DroppedRows(outbox[..n], events, cutoff);
      assert outbox == outbox[..n] + [outbox[n]];
    }
  }

  lemma {:induction false} KeptOrdered(outbox: seq<Item>, events: seq<Event>, cutoff: Time, next: Id)
    requires Ordered(outbox, next)
    ensures Ordered(Kept(outbox, events, cutoff), next)
  {
    if outbox != [] {
      var n := |outbox| - 1;
      KeptOrdered(outbox[..n], events, cutoff, next);
      var kept := Kept(outbox[..n], events, cutoff);
      KeptRows(outbox[..n], events, cutoff);
      forall i | 0 <= i < |kept| ensures kept[i].id < outbox[n].id {
        assert kept[i] in outbox[..n];
      }
    }
  }

  lemma {:induction false} NothingDropped(outbox: seq<Item>, events: seq<Event>, cutoff: Time)
    requires Dropped(outbox, events, cutoff) == []
    ensures Kept(outbox, events, cutoff) == outbox
  {
    if outbox != [] {
      NothingDropped(outbox[..|outbox| - 1], events, cutoff);
    }
  }

  lemma PruneOutbox(s: State, now: Time, cfg: Config)
    ensures Prune(s, now, cfg).outbox == Kept(s.outbox, s.events, now - cfg.outboxRetention)
  {
    if Dropped(s.outbox, s.events, now - cfg.outboxRetention) == [] {
      NothingDropped(s.outbox, s.events, now - cfg.outboxRetention);
    }
  }

  lemma RowOfMember(outbox: seq<Item>, o: Item, next: Id)
    requires Ordered(outbox, next) && o in outbox
    ensures Row(outbox, o.id) == Some(o)
  {
    var i :| 0 <= i < |outbox| && outbox[i] == o;
    RowAt(outbox, i, next);
  }

  lemma RowPrune(s: State, now: Time, cfg: Config, id: Id)
    requires Ordered(s.outbox, s.nextId)
    ensures Ordered(Prune(s, now, cfg).outbox, s.nextId)
    ensures Row(Prune(s, now, cfg).outbox, id)
         == (if Row(s.outbox, id).Some? && Prunable(Row(s.outbox, id).value, s.events, now - cfg.outboxRetention)
             then None else Row(s.outbox, id))
  {
    var cutoff := now - cfg.outboxRetention;
    var kept := Kept(s.outbox, s.events, cutoff);
    PruneOutbox(s, now, cfg);
    KeptRows(s.outbox, s.events, cutoff);
    KeptOrdered(s.outbox, s.events, cutoff, s.nextId);
    if Row(kept, id).Some? {
      RowOfMember(s.outbox, Row(kept, id).value, s.nextId);
    } else if Row(s.outbox, id).Some? && !Prunable(Row(s.outbox, id).value, s.events, cutoff) {
      RowOfMember(kept, Row(s.outbox, id).value, s.nextId);
    }
  }
}
