/**
  A fan-out reaches exactly the recipients the event has, and one that reaches nobody is
  never silent: the same operation pages the administrator about it.
*/
module Telling {
  import opened Options
  import opened Core
  import opened Transitions
  import opened Ticks
  import opened CalendarSync
  import opened Operations
  import opened Actions
  import opened Coverage

  // ---- exactly one row per recipient -----------------------------------------

  /** One entry per usable channel of each of these people. */
  function UsableChannels(people: seq<Person>): multiset<(Id, Address)> {
    if people == [] then multiset{}
    else UsableChannels(people[..|people| - 1]) + UsableOf(people[|people| - 1].id, people[|people| - 1].channels)
  }

  function UsableOf(person: Id, channels: seq<Address>): multiset<(Id, Address)> {
    if channels == [] then multiset{}
    else
      var ch := channels[|channels| - 1];
      UsableOf(person, channels[..|channels| - 1]) + if ch.Usable() then multiset{(person, ch)} else multiset{}
  }

  function Addressees(rows: seq<Item>): (r: seq<(Option<Id>, Address)>)
    ensures |r| == |rows|
    ensures forall i | 0 <= i < |r| :: r[i] == (rows[i].personId, Address(rows[i].kind, rows[i].to))
  {
    seq(|rows|, i requires 0 <= i < |rows| => (rows[i].personId, Address(rows[i].kind, rows[i].to)))
  }

  /** Whom these rows are addressed to. */
  function AddressedTo(rows: seq<Item>): multiset<(Option<Id>, Address)> {
    multiset(Addressees(rows))
  }

  lemma AddressedToJoin(a: seq<Item>, b: seq<Item>)
    ensures AddressedTo(a + b) == AddressedTo(a) + AddressedTo(b)
  {
    assert Addressees(a + b) == Addressees(a) + Addressees(b);
  }

  lemma {:induction false} ChannelsExact(channels: seq<Address>, person: Id, d: Item, to: Address)
    ensures AddressedTo(ChannelDrafts(channels, person, d))[(Some(person), to)] == UsableOf(person, channels)[(person, to)]
    ensures forall p, a :: p != Some(person) ==> AddressedTo(ChannelDrafts(channels, person, d))[(p, a)] == 0
    ensures forall p, a :: p != person ==> UsableOf(person, channels)[(p, a)] == 0
  {
    if channels != [] {
      var n := |channels| - 1;
      ChannelsExact(channels[..n], person, d, to);
      var ch := channels[n];
      if ch.Usable() {
        var row := d.(personId := Some(person), kind := ch.kind, to := ch.to);
        AddressedToJoin(ChannelDrafts(channels[..n], person, d), [row]);
        assert Addressees([row]) == [(Some(person), ch)];
      }
    }
  }

  lemma {:induction false} PeopleExact(people: seq<Person>, d: Item, person: Id, to: Address)
    ensures AddressedTo(PeopleDrafts(people, d))[(Some(person), to)] == UsableChannels(people)[(person, to)]
  {
    if people != [] {
      var n := |people| - 1;
      PeopleExact(people[..n], d, person, to);
      ChannelsExact(people[n].channels, people[n].id, d, to);
      AddressedToJoin(PeopleDrafts(people[..n], d), PersonDrafts(people[n], d));
    }
  }

  function FoldedKeys(rows: seq<Item>, cfg: Config): (r: seq<string>)
    ensures |r| == |rows| && forall i | 0 <= i < |r| :: r[i] == cfg.foldCase(rows[i].to)
  {
    seq(|rows|, i requires 0 <= i < |rows| => cfg.foldCase(rows[i].to))
  }

  predicate AllDifferent(keys: seq<string>) {
    forall i, j | 0 <= i < j < |keys| :: keys[i] != keys[j]
  }

  predicate FromGuest(o: Item, guests: seq<Guest>) {
    o.kind == "email" && exists g | g in guests :: o.guestId == Some(g.id) && o.to == g.email
  }

  /** One row for every folded address, no folded address twice, each to a guest of the event. */
  lemma {:induction false} GuestsExact(guests: seq<Guest>, d: Item, cfg: Config)
    ensures var rows := GuestDrafts(guests, d, cfg);
      var keys := FoldedKeys(rows, cfg);
      && (forall key :: key in keys <==> key in Folded(guests, cfg))
      && AllDifferent(keys)
      && (forall i | 0 <= i < |rows| :: FromGuest(rows[i], guests))
  {
    if guests != [] {
      var n := |guests| - 1;
      var g := guests[n];
      var front := GuestDrafts(guests[..n], d, cfg);
      var rows := GuestDrafts(guests, d, cfg);
      GuestsExact(guests[..n], d, cfg);
      assert guests == guests[..n] + [g];
      if rows == front {
        assert FoldedKeys(rows, cfg) == FoldedKeys(front, cfg);
      } else {
        assert FoldedKeys(rows, cfg) == FoldedKeys(front, cfg) + [cfg.foldCase(g.email)];
        assert g in guests && FromGuest(rows[|front|], guests);
      }
      forall i | 0 <= i < |front| ensures FromGuest(front[i], guests) {
        assert FromGuest(front[i], guests[..n]);
      }
    }
  }

  lemma {:induction false} DistinctImage(keys: seq<string>)
    requires AllDifferent(keys)
    ensures |(set k | k in keys)| == |keys|
  {
    if keys != [] {
      var n := |keys| - 1;
      DistinctImage(keys[..n]);
      assert keys == keys[..n] + [keys[n]];
      assert (set k | k in keys) == (set k | k in keys[..n]) + {keys[n]};
    }
  }

  /** As many guest rows as distinct folded addresses. */
  lemma GuestCount(guests: seq<Guest>, d: Item, cfg: Config)
    ensures |GuestDrafts(guests, d, cfg)| == |Folded(guests, cfg)|
  {
    var keys := FoldedKeys(GuestDrafts(guests, d, cfg), cfg);
    GuestsExact(guests, d, cfg);
    DistinctImage(keys);
    assert (set k | k in keys) == Folded(guests, cfg);
  }

  lemma {:induction false} PeopleSize(people: seq<Person>, d: Item)
    ensures |PeopleDrafts(people, d)| == |UsableChannels(people)|
  {
    if people != [] {
      PeopleSize(people[..|people| - 1], d);
      ChannelSize(people[|people| - 1].channels, people[|people| - 1].id, d);
    }
  }

  lemma {:induction false} ChannelSize(channels: seq<Address>, person: Id, d: Item)
    ensures |ChannelDrafts(channels, person, d)| == |UsableOf(person, channels)|
  {
    if channels != [] {
      ChannelSize(channels[..|channels| - 1], person, d);
    }
  }

  /** Addressed alike. */
  predicate SameAddress(a: seq<Item>, b: seq<Item>) {
    |a| == |b| && forall i | 0 <= i < |a| ::
      a[i].personId == b[i].personId && a[i].guestId == b[i].guestId && a[i].kind == b[i].kind && a[i].to == b[i].to
  }

  /** One row per broadcast, in their order. */
  predicate ToBroadcasts(rows: seq<Item>, targets: seq<Broadcast>) {
    |rows| == |targets| && forall i | 0 <= i < |rows| :: Broadcast(rows[i].kind, rows[i].to) == targets[i]
  }

  /** One row per usable channel of each of these people. */
  ghost predicate ToStaff(rows: seq<Item>, staff: seq<Person>) {
    |rows| == |UsableChannels(staff)| && forall person, to :: AddressedTo(rows)[(Some(person), to)] == UsableChannels(staff)[(person, to)]
  }

  /** One row per distinct folded address of these guests. */
  ghost predicate ToGuests(rows: seq<Item>, guests: seq<Guest>, cfg: Config) {
    && |rows| == |Folded(guests, cfg)| && AllDifferent(FoldedKeys(rows, cfg))
    && (forall key :: key in FoldedKeys(rows, cfg) <==> key in Folded(guests, cfg))
    && (forall i | 0 <= i < |rows| :: FromGuest(rows[i], guests))
  }

  lemma StaffRows(rows: seq<Item>, staff: seq<Person>, d: Item)
    requires SameAddress(PeopleDrafts(staff, d), rows)
    ensures ToStaff(rows, staff)
  {
    PeopleSize(staff, d);
    forall person, to ensures AddressedTo(rows)[(Some(person), to)] == UsableChannels(staff)[(person, to)] {
      PeopleExact(staff, d, person, to);
      assert Addressees(rows) == Addressees(PeopleDrafts(staff, d));
    }
  }

  lemma GuestRows(rows: seq<Item>, guests: seq<Guest>, d: Item, cfg: Config)
    requires SameAddress(GuestDrafts(guests, d, cfg), rows)
    ensures ToGuests(rows, guests, cfg)
  {
    var q := GuestDrafts(guests, d, cfg);
    GuestCount(guests, d, cfg);
    GuestsExact(guests, d, cfg);
    assert FoldedKeys(rows, cfg) == FoldedKeys(q, cfg);
    forall i | 0 <= i < |rows| ensures FromGuest(rows[i], guests) {
      assert FromGuest(q[i], guests);
    }
  }

  /** One row per broadcast, then one per usable channel of each of the staff, then one per distinct guest address. */
  ghost predicate ReachesThese(rows: seq<Item>, targets: seq<Broadcast>, staff: seq<Person>, guests: seq<Guest>, cfg: Config) {
    var b, g := |targets|, |targets| + |UsableChannels(staff)|;
    && g <= |rows| && ToBroadcasts(rows[..b], targets) && ToStaff(rows[b..g], staff) && ToGuests(rows[g..], guests, cfg)
  }

  /** Those an event has. */
  ghost predicate ReachesAll(rows: seq<Item>, s: State, event: Id, cfg: Config) {
    ReachesThese(rows, s.broadcasts, Assignees(s, event), GuestsOf(s.guests, event), cfg)
  }

  /** All of them of one transaction of one event. */
  predicate OfTransaction(rows: seq<Item>, event: Id, purpose: Purpose, txn: Id) {
    forall i | 0 <= i < |rows| :: rows[i].txn == Some(txn) && rows[i].eventId == Some(event) && rows[i].purpose == purpose
  }

  /**
    A fan-out stores, under one fresh transaction, one row per broadcast, one per usable
    channel of each assignee and one per distinct folded guest address, and records how many.
  */
  lemma FanOutIsExact(s: State, k: nat, purpose: Purpose, cfg: Config, clock: Time)
    requires k < |s.events|
    ensures var t := FanOut(s, k, purpose, cfg, clock);
      var event := s.events[k].id;
      var rows := t.outbox[|s.outbox|..];
      && t.events[k].fanOutTxn == Some(s.nextId) && t.events[k].fanOutCount == |rows|
      && OfTransaction(rows, event, purpose, s.nextId) && ReachesAll(rows, s, event, cfg)
  {
    var d := Draft(Some(s.events[k].id), purpose, Some(s.nextId), "", "", Plain);
    var rows := FanOutStored(s, k, purpose, cfg, clock);
    FanOutReaches(s, s.events[k].id, d, cfg, clock, s.nextId + 1, rows);
  }

  /** The stamped drafts of a fan-out, part by part. */
  lemma FanOutReaches(s: State, event: Id, d: Item, cfg: Config, clock: Time, base: Id, rows: seq<Item>)
    requires rows == Stamp(FanOutDrafts(s, event, d, cfg), base, clock)
    ensures ReachesAll(rows, s, event, cfg)
  {
    PartsReach(s.broadcasts, Assignees(s, event), GuestsOf(s.guests, event), d, cfg, clock, base, rows);
  }

  lemma PartsReach(targets: seq<Broadcast>, staff: seq<Person>, guests: seq<Guest>, d: Item, cfg: Config, clock: Time, base: Id, rows: seq<Item>)
    requires rows == Stamp(BroadcastDrafts(targets, d) + PeopleDrafts(staff, d) + GuestDrafts(guests, d, cfg), base, clock)
    ensures ReachesThese(rows, targets, staff, guests, cfg)
  {
    PeopleSize(staff, d);
    var b := |targets|;
    var g := b + |PeopleDrafts(staff, d)|;
    FanOutParts(BroadcastDrafts(targets, d), PeopleDrafts(staff, d), GuestDrafts(guests, d, cfg), rows, base, clock);
    BroadcastRows(rows[..b], targets, d);
    StaffRows(rows[b..g], staff, d);
    GuestRows(rows[g..], guests, d, cfg);
  }

  /** The rows a fan-out stores are its stamped drafts. */
  lemma FanOutStored(s: State, k: nat, purpose: Purpose, cfg: Config, clock: Time) returns (rows: seq<Item>)
    requires k < |s.events|
    ensures var t := FanOut(s, k, purpose, cfg, clock);
      var event := s.events[k].id;
      && rows == t.outbox[|s.outbox|..]
      && rows == Stamp(FanOutDrafts(s, event, Draft(Some(event), purpose, Some(s.nextId), "", "", Plain), cfg), s.nextId + 1, clock)
      && t.events[k].fanOutTxn == Some(s.nextId) && t.events[k].fanOutCount == |rows|
      && OfTransaction(rows, event, purpose, s.nextId)
  {
    var d := Draft(Some(s.events[k].id), purpose, Some(s.nextId), "", "", Plain);
    rows := Stamp(FanOutDrafts(s, s.events[k].id, d, cfg), s.nextId + 1, clock);
    FanOutCopies(s, s.events[k].id, d, cfg);
  }

  lemma BroadcastRows(rows: seq<Item>, targets: seq<Broadcast>, d: Item)
    requires SameAddress(BroadcastDrafts(targets, d), rows)
    ensures ToBroadcasts(rows, targets)
  {
  }

  lemma FanOutParts(x: seq<Item>, y: seq<Item>, z: seq<Item>, rows: seq<Item>, base: Id, clock: Time)
    requires rows == Stamp(x + y + z, base, clock)
    ensures |rows| == |x| + |y| + |z|
    ensures SameAddress(x, rows[..|x|]) && SameAddress(y, rows[|x|..|x| + |y|]) && SameAddress(z, rows[|x| + |y|..])
  {
  }

  // ---- never silent ----------------------------------------------------------

  /** The pages that say nobody heard about this event. */
  predicate Alarms(page: Page, event: Id) {
    match page
    case NobodyTold(id, _) => id == event
    case AutoCancelled(id, nobodyTold) => id == event && nobodyTold
    case SilentMoves(ids) => event in ids
    case _ => false
  }

  /** Between s and t the page was queued for the administrator, or on record as unsendable. */
  ghost predicate Announced(s: State, t: State, page: Page) {
    || (exists i :: |s.outbox| <= i < |t.outbox| && t.outbox[i].text == Admin(page))
    || (exists i :: |s.audit| <= i < |t.audit| && t.audit[i] == AdminUnnotified(page))
  }

  ghost predicate AdminTold(s: State, t: State, event: Id) {
    exists page :: Alarms(page, event) && Announced(s, t, page)
  }

  /** The outbox and the trail only grow. */
  predicate Grows(s: State, t: State) {
    && |s.outbox| <= |t.outbox| && t.outbox[..|s.outbox|] == s.outbox
    && |s.audit| <= |t.audit| && t.audit[..|s.audit|] == s.audit
    && s.nextId <= t.nextId
  }

  lemma GrowsTrans(s: State, t: State, u: State)
    requires Grows(s, t) && Grows(t, u)
    ensures Grows(s, u)
  {
    assert u.outbox[..|s.outbox|] == u.outbox[..|t.outbox|][..|s.outbox|];
    assert u.audit[..|s.audit|] == u.audit[..|t.audit|][..|s.audit|];
  }

  lemma AnnouncedWider(s: State, t: State, u: State, v: State, page: Page)
    requires Grows(s, t) && Grows(t, u) && Grows(u, v) && Announced(t, u, page)
    ensures Announced(s, v, page)
  {
    if i :| |t.outbox| <= i < |u.outbox| && u.outbox[i].text == Admin(page) {
      assert v.outbox[i] == v.outbox[..|u.outbox|][i];
      assert |s.outbox| <= i < |v.outbox| && v.outbox[i].text == Admin(page);
    } else {
      var i :| |t.audit| <= i < |u.audit| && u.audit[i] == AdminUnnotified(page);
      assert v.audit[i] == v.audit[..|u.audit|][i];
      assert |s.audit| <= i < |v.audit| && v.audit[i] == AdminUnnotified(page);
    }
  }

  lemma ToldWider(s: State, t: State, u: State, v: State, event: Id)
    requires Grows(s, t) && Grows(t, u) && Grows(u, v) && AdminTold(t, u, event)
    ensures AdminTold(s, v, event)
  {
    var page :| Alarms(page, event) && Announced(t, u, page);
    AnnouncedWider(s, t, u, v, page);
  }

  lemma NotifyAnnounces(s: State, page: Page, cfg: Config, clock: Time)
    ensures Grows(s, NotifyAdmin(s, page, cfg, clock)) && NotifyAdmin(s, page, cfg, clock).events == s.events
    ensures Announced(s, NotifyAdmin(s, page, cfg, clock), page)
  {
    var t := NotifyAdmin(s, page, cfg, clock);
    if cfg.adminNotify.None? {
      assert t.audit[|s.audit|] == AdminUnnotified(page);
    } else {
      assert t.outbox[|s.outbox|].text == Admin(page);
    }
  }

  /** What one propagation does to its event, and that an empty one is announced when asked to. */
  lemma PropagateTells(s: State, k: nat, purpose: Purpose, hook: string, page: bool, cfg: Config, clock: Time)
    requires k < |s.events|
    ensures var t := Propagate(s, k, purpose, hook, page, cfg, clock);
      && Grows(s, t)
      && t.events == s.events[k := s.events[k].(fanOutAt := Some(clock), fanOutCount := t.events[k].fanOutCount, fanOutTxn := Some(s.nextId))]
      && (page && t.events[k].fanOutCount == 0 ==> AdminTold(s, t, s.events[k].id))
  {
    var out := FanOut(s, k, purpose, cfg, clock);
    var told := FireWebhooks(out, hook, clock);
    assert Grows(s, told);
    if told.events[k].fanOutCount == 0 {
      var e := told.events[k];
      var logged := Log(told, PropagationEmpty(e.id, purpose));
      assert Grows(told, logged);
      GrowsTrans(s, told, logged);
      NotifyAnnounces(logged, NobodyTold(e.id, purpose), cfg, clock);
      var t := NotifyAdmin(logged, NobodyTold(e.id, purpose), cfg, clock);
      GrowsTrans(s, logged, t);
      assert Alarms(NobodyTold(e.id, purpose), e.id);
      assert AdminTold(logged, t, e.id);
      ToldWider(s, logged, t, t, e.id);
    }
  }

  /** Nothing happened to this event that people have to hear about. */
  predicate Quiet(e: Event, f: Event) {
    && e.id == f.id && (e.status == Cancelled <==> f.status == Cancelled) && e.startsAt == f.startsAt
    && e.fanOutTxn == f.fanOutTxn && e.fanOutCount == f.fanOutCount
  }

  /** It was propagated afresh, and if nobody heard the admin did or is about to. */
  ghost predicate Propagated(s: State, t: State, f: Event, silent: seq<Id>) {
    && f.fanOutTxn.Some? && s.nextId <= f.fanOutTxn.value
    && (f.fanOutCount == 0 ==> f.id in silent || AdminTold(s, t, f.id))
  }

  ghost predicate Heard(s: State, t: State, i: nat, silent: seq<Id>)
    requires i < |s.events|
  {
    && i < |t.events| && t.events[i].id == s.events[i].id
    && (Quiet(s.events[i], t.events[i]) || Propagated(s, t, t.events[i], silent))
  }

  ghost predicate AllHeard(s: State, t: State, silent: seq<Id>) {
    Grows(s, t) && forall i: nat | i < |s.events| :: Heard(s, t, i, silent)
  }

  /** A part of an operation that is quiet about every event. */
  lemma StillHeard(s: State, t: State, u: State, silent: seq<Id>)
    requires AllHeard(s, t, silent) && Grows(t, u) && |t.events| <= |u.events|
    requires forall i | 0 <= i < |t.events| :: Quiet(t.events[i], u.events[i])
    ensures AllHeard(s, u, silent)
  {
    GrowsTrans(s, t, u);
    forall i: nat | i < |s.events| ensures Heard(s, u, i, silent) {
      assert Heard(s, t, i, silent);
      if Propagated(s, t, t.events[i], silent) && t.events[i].fanOutCount == 0 && t.events[i].id !in silent {
        assert Grows(s, s);
        ToldWider(s, s, t, u, t.events[i].id);
      }
    }
  }

  /** A part of an operation that propagates the k-th event. */
  lemma HeardAfter(s: State, t: State, k: nat, u: State, silent: seq<Id>, more: seq<Id>)
    requires AllHeard(s, t, silent) && Grows(t, u) && |t.events| == |u.events| && k < |t.events|
    requires forall i | 0 <= i < |t.events| && i != k :: u.events[i] == t.events[i]
    requires u.events[k].id == t.events[k].id && Propagated(t, u, u.events[k], more)
    requires forall id | id in silent :: id in more
    ensures AllHeard(s, u, more)
  {
    GrowsTrans(s, t, u);
    assert Grows(s, s) && Grows(u, u);
    forall i: nat | i < |s.events| ensures Heard(s, u, i, more) {
      assert Heard(s, t, i, silent);
      if i == k {
        if u.events[k].fanOutCount == 0 && u.events[k].id !in more {
          ToldWider(s, t, u, u, u.events[k].id);
        }
      } else if Propagated(s, t, t.events[i], silent) && t.events[i].fanOutCount == 0 && t.events[i].id !in silent {
        ToldWider(s, s, t, u, t.events[i].id);
      }
    }
  }

  // ---- the operations --------------------------------------------------------

  lemma MoveTells(s: State, event: Id, start: Option<Time>, end: Option<Time>, byImport: bool, cfg: Config, clock: Time)
    ensures var (t, outcome) := MoveSpec(s, event, start, end, byImport, cfg, clock);
      var k := FindEvent(s.events, event);
      && Grows(s, t)
      && (outcome != Done ==> t == s)
      && (outcome == Done ==>
            && k < |s.events| == |t.events| && t.events == s.events[k := t.events[k]]
            && t.events[k].id == event && t.events[k].startsAt == start.value
            && Propagated(s, t, t.events[k], if byImport then [event] else []))
  {
    var k := FindEvent(s.events, event);
    if !BadMove(start, end) && k < |s.events| && s.events[k].status != Cancelled {
      MoveAtTells(s, k, start.value, end, byImport, cfg, clock);
    }
  }

  lemma MoveAtTells(s: State, k: nat, start: Time, end: Option<Time>, byImport: bool, cfg: Config, clock: Time)
    requires k < |s.events|
    ensures var t := MoveAt(s, k, start, end, byImport, cfg, clock);
      && Grows(s, t) && |t.events| == |s.events| && t.events == s.events[k := t.events[k]]
      && t.events[k].id == s.events[k].id && t.events[k].startsAt == start
      && Propagated(s, t, t.events[k], if byImport then [s.events[k].id] else [])
  {
    var moved := MarkMoved(s, k, start, end);
    var t := MoveAt(s, k, start, end, byImport, cfg, clock);
    PropagateTells(moved, k, Moved, "event.moved", !byImport, cfg, clock);
    assert Grows(s, moved);
    GrowsTrans(s, moved, t);
    assert Grows(t, t);
    if !byImport && t.events[k].fanOutCount == 0 {
      ToldWider(s, moved, t, t, s.events[k].id);
    }
  }

  lemma CancelTells(s: State, k: nat, person: Option<Id>, byDeadline: bool, cfg: Config, clock: Time)
    requires k < |s.events|
    ensures var t := CancelAt(s, k, person, byDeadline, cfg, clock);
      && Grows(s, t) && |t.events| == |s.events| && t.events == s.events[k := t.events[k]]
      && t.events[k].id == s.events[k].id && t.events[k].fanOutTxn == Some(s.nextId)
      && (!byDeadline && t.events[k].fanOutCount == 0 ==> AdminTold(s, t, s.events[k].id))
  {
    var flipped := MarkCancelled(s, k, person, byDeadline, clock);
    var t := CancelAt(s, k, person, byDeadline, cfg, clock);
    PropagateTells(flipped, k, Cancellation, "event.cancelled", !byDeadline, cfg, clock);
    assert Grows(s, flipped);
    GrowsTrans(s, flipped, t);
    assert Grows(t, t);
    if !byDeadline && t.events[k].fanOutCount == 0 {
      ToldWider(s, flipped, t, t, s.events[k].id);
    }
  }

  lemma ReinstateTells(s: State, k: nat, cfg: Config, clock: Time)
    requires k < |s.events|
    ensures var t := ReinstateAt(s, k, cfg, clock);
      && Grows(s, t) && |t.events| == |s.events| && t.events == s.events[k := t.events[k]]
      && t.events[k].id == s.events[k].id && Propagated(s, t, t.events[k], [])
  {
    var back := MarkReinstated(s, k);
    var t := ReinstateAt(s, k, cfg, clock);
    PropagateTells(back, k, Reinstated, "event.reinstated", true, cfg, clock);
    assert Grows(s, back);
    GrowsTrans(s, back, t);
    assert Grows(t, t);
    if t.events[k].fanOutCount == 0 {
      ToldWider(s, back, t, t, s.events[k].id);
    }
  }

  /** The dead-man switch folds the alarm into its own page. */
  lemma DeadlineTells(s: State, i: nat, now: Time, cfg: Config, clock: Time)
    requires i < |s.events| && DistinctEventIds(s.events)
    ensures var t := DeadlineOne(s, i, now, cfg, clock);
      && Grows(s, t) && t.events == s.events[i := t.events[i]]
      && t.events[i].id == s.events[i].id
      && (Quiet(s.events[i], t.events[i]) || Propagated(s, t, t.events[i], []))
  {
    var e := s.events[i];
    var t := DeadlineOne(s, i, now, cfg, clock);
    if !DeadlineDue(e, |Reachable(s, e.id)|, now, cfg) {
      assert Grows(s, t);
    } else {
      var fired := Log(SetEvent(s, i, e.(deadlineFiredAt := Some(now))), DeadlinePassed(e.id, now));
      var told := FireWebhooks(fired, "deadline.passed", clock);
      assert Grows(s, told);
      if e.cancelIfSilent {
        DeadlineCancelTells(s, told, i, cfg, clock);
      } else {
        NotifyAnnounces(told, NoResponse(e.id), cfg, clock);
        GrowsTrans(s, told, t);
      }
    }
  }

  lemma DeadlineCancelTells(s: State, told: State, i: nat, cfg: Config, clock: Time)
    requires Grows(s, told) && i < |told.events| && DistinctEventIds(told.events) && told.events[i].status != Cancelled
    ensures var (cancelled, outcome) := CancelSpec(told, told.events[i].id, None, true, cfg, clock);
      var t := NotifyAdmin(cancelled, AutoCancelled(told.events[i].id, cancelled.events[i].fanOutCount == 0), cfg, clock);
      && outcome == Done
      && Grows(s, t) && |t.events| == |told.events| && t.events == told.events[i := t.events[i]]
      && t.events[i].id == told.events[i].id && Propagated(s, t, t.events[i], [])
  {
    var id := told.events[i].id;
    FindDistinct(told.events, i);
    var cancelled := CancelAt(told, i, None, true, cfg, clock);
    CancelTells(told, i, None, true, cfg, clock);
    var page := AutoCancelled(id, cancelled.events[i].fanOutCount == 0);
    var t := NotifyAdmin(cancelled, page, cfg, clock);
    NotifyAnnounces(cancelled, page, cfg, clock);
    GrowsTrans(s, told, cancelled);
    GrowsTrans(s, cancelled, t);
    if t.events[i].fanOutCount == 0 {
      PageTells(s, cancelled, t, id, page);
    }
  }

  lemma PageTells(s: State, t: State, u: State, event: Id, page: Page)
    requires Grows(s, t) && Grows(t, u) && Alarms(page, event) && Announced(t, u, page)
    ensures AdminTold(s, u, event)
  {
    assert Grows(u, u);
    assert AdminTold(t, u, event);
    ToldWider(s, t, u, u, event);
  }

  lemma {:induction false} DeadlinesTell(s: State, t: State, i: nat, now: Time, cfg: Config, clock: Time)
    requires AllHeard(s, t, []) && DistinctEventIds(t.events)
    ensures AllHeard(s, DeadlinesFrom(t, i, now, cfg, clock), [])
    decreases |t.events| - i
  {
    if i < |t.events| {
      var next := DeadlineOne(t, i, now, cfg, clock);
      DeadlineTells(t, i, now, cfg, clock);
      if Quiet(t.events[i], next.events[i]) {
        StillHeard(s, t, next, []);
      } else {
        HeardAfter(s, t, i, next, [], []);
      }
      DeadlinesTell(s, next, i + 1, now, cfg, clock);
    }
  }

  /** The reminder and nudge passes propagate nothing. */
  predicate QuietStep(s: State, t: State) {
    Grows(s, t) && |t.events| == |s.events| && forall i | 0 <= i < |s.events| :: Quiet(s.events[i], t.events[i])
  }

  lemma QuietTrans(s: State, t: State, u: State)
    requires QuietStep(s, t) && QuietStep(t, u)
    ensures QuietStep(s, u)
  {
    GrowsTrans(s, t, u);
    forall i | 0 <= i < |s.events| ensures Quiet(s.events[i], u.events[i]) {
      assert Quiet(s.events[i], t.events[i]) && Quiet(t.events[i], u.events[i]);
    }
  }

  lemma AskRowsQuiet(s: State, e: Event, cfg: Config, clock: Time)
    ensures QuietStep(s, AskRows(s, e, cfg, clock))
  {
    var all := Assignees(s, e.id);
    var queued := EnqueueToPeople(s, all, Ask(e.id), clock);
    assert QuietStep(s, queued);
    var broken := Log(queued, ChannelsBroken(e.id));
    NotifyAnnounces(broken, BrokenChannels(e.id), cfg, clock);
    if !AnyValidChannel(all, cfg) {
      QuietTrans(s, queued, broken);
      QuietTrans(s, broken, AskRows(s, e, cfg, clock));
    }
  }

  lemma RemindOneQuiet(s: State, i: nat, now: Time, cfg: Config, clock: Time)
    requires i < |s.events|
    ensures QuietStep(s, RemindOne(s, i, now, cfg, clock))
  {
    var e := s.events[i];
    if AskDue(e, now, cfg) && Reachable(s, e.id) != [] {
      RemindIsAsk(s, i, now, cfg, clock);
      AskRowsQuiet(s, e, cfg, clock);
      AskRowsKeep(s, e, cfg, clock);
      var rows := AskRows(s, e, cfg, clock);
      var stamped := Log(SetEvent(rows, i, e.(reminderSentAt := Some(now))), ReminderSent(e.id, now));
      QuietTrans(s, rows, stamped);
      QuietTrans(s, stamped, FireWebhooks(stamped, "reminder.sent", clock));
    } else if AskDue(e, now, cfg) {
      var warned := Log(SetEvent(s, i, e.(unreachableNotifiedAt := Some(now))), StaffingUnreachable(e.id, now));
      assert QuietStep(s, warned);
      NotifyAnnounces(warned, UnreachableStaff(e.id), cfg, clock);
      QuietTrans(s, warned, NotifyAdmin(warned, UnreachableStaff(e.id), cfg, clock));
    }
  }

  lemma {:induction false} RemindersQuiet(s: State, i: nat, now: Time, cfg: Config, clock: Time)
    ensures QuietStep(s, RemindersFrom(s, i, now, cfg, clock))
    decreases |s.events| - i
  {
    if i < |s.events| {
      var next := RemindOne(s, i, now, cfg, clock);
      RemindOneQuiet(s, i, now, cfg, clock);
      RemindersQuiet(next, i + 1, now, cfg, clock);
      QuietTrans(s, next, RemindersFrom(next, i + 1, now, cfg, clock));
    }
  }

  lemma NudgeOneQuiet(s: State, i: nat, now: Time, cfg: Config, clock: Time)
    requires i < |s.events|
    ensures QuietStep(s, NudgeOne(s, i, now, cfg, clock))
  {
  }

  lemma {:induction false} NudgesQuiet(s: State, i: nat, now: Time, cfg: Config, clock: Time)
    ensures QuietStep(s, NudgesFrom(s, i, now, cfg, clock))
    decreases |s.events| - i
  {
    if i < |s.events| {
      var next := NudgeOne(s, i, now, cfg, clock);
      NudgeOneQuiet(s, i, now, cfg, clock);
      NudgesQuiet(next, i + 1, now, cfg, clock);
      QuietTrans(s, next, NudgesFrom(next, i + 1, now, cfg, clock));
    }
  }

  lemma TickTells(s: State, now: Time, cfg: Config, clock: Time)
    requires Sound(s)
    ensures AllHeard(s, EventPasses(s, now, cfg, clock), [])
  {
    var reminded := RemindersFrom(s, 0, now, cfg, clock);
    var nudged := Nudges(reminded, now, cfg, clock);
    RemindersQuiet(s, 0, now, cfg, clock);
    NudgesQuiet(reminded, 0, now, cfg, clock);
    assert QuietStep(reminded, nudged);
    QuietTrans(s, reminded, nudged);
    QuietHeard(s, nudged);
    forall i, j | 0 <= i < j < |nudged.events| ensures nudged.events[i].id != nudged.events[j].id {
      assert Quiet(s.events[i], nudged.events[i]) && Quiet(s.events[j], nudged.events[j]);
    }
    DeadlinesTell(s, nudged, 0, now, cfg, clock);
  }

  lemma QuietHeard(s: State, t: State)
    requires Grows(s, t) && |s.events| <= |t.events| && forall i | 0 <= i < |s.events| :: Quiet(s.events[i], t.events[i])
    ensures AllHeard(s, t, [])
  {
    forall i: nat | i < |s.events| ensures Heard(s, t, i, []) {
      assert Quiet(s.events[i], t.events[i]);
    }
  }

  // ---- the calendar sync -----------------------------------------------------

  lemma CreateQuiet(s: State, title: string, location: string, startsAt: Time, endsAt: Option<Time>,
                    cancelIfSilent: bool, uid: string, key: string, clock: Time)
    ensures var t := Create(s, title, location, startsAt, endsAt, cancelIfSilent, uid, key, clock);
      Grows(s, t) && |t.events| == |s.events| + 1 && t.events[..|s.events|] == s.events
  {
  }

  lemma {:induction false} InheritQuiet(s: State, series: seq<SeriesAssignment>, event: Id, uid: string)
    ensures var t := InheritSeries(s, series, event, uid);
      t == s.(assignments := t.assignments)
  {
    if series != [] {
      InheritQuiet(s, series[..|series| - 1], event, uid);
    }
  }

  lemma SyncMoveTells(s: State, t: State, rep: Report, k: nat, o: Occurrence, cfg: Config, clock: Time)
    requires AllHeard(s, t, rep.silent) && DistinctEventIds(t.events) && k < |t.events|
    ensures var (u, rep') := SyncMove(t, rep, k, o, cfg, clock);
      AllHeard(s, u, rep'.silent)
  {
    var (moved, outcome) := MoveSpec(t, t.events[k].id, Some(o.start), o.end, true, cfg, clock);
    var (u, rep') := SyncMove(t, rep, k, o, cfg, clock);
    FindDistinct(t.events, k);
    MoveTells(t, t.events[k].id, Some(o.start), o.end, true, cfg, clock);
    if outcome == Done {
      assert Grows(moved, u);
      GrowsTrans(t, moved, u);
      HeardAfter(s, t, k, u, rep.silent, rep'.silent);
    }
  }

  /** A new event is nobody's news: the stored ones stay as they are. */
  lemma SyncNewHeard(s: State, t: State, silent: seq<Id>, o: Occurrence, clock: Time)
    requires AllHeard(s, t, silent)
    ensures AllHeard(s, SyncNew(t, o, clock), silent)
  {
    var u := SyncNew(t, o, clock);
    var created := Create(t, TitleOf(o), o.location, o.start, o.end, false, o.uid, o.key, clock);
    CreateQuiet(t, TitleOf(o), o.location, o.start, o.end, false, o.uid, o.key, clock);
    InheritQuiet(created, created.series, t.nextId, o.uid);
    forall i | 0 <= i < |t.events| ensures Quiet(t.events[i], u.events[i]) {
      assert u.events[i] == u.events[..|t.events|][i];
    }
    assert Grows(created, u);
    GrowsTrans(t, created, u);
    StillHeard(s, t, u, silent);
  }

  lemma SyncOneTells(s: State, t: State, rep: Report, o: Occurrence, cfg: Config, clock: Time)
    requires AllHeard(s, t, rep.silent) && DistinctEventIds(t.events)
    ensures var (u, rep') := SyncOne(t, rep, o, cfg, clock);
      AllHeard(s, u, rep'.silent)
  {
    var k := FindKey(t.events, o.key);
    var (u, rep') := SyncOne(t, rep, o, cfg, clock);
    if k == |t.events| {
      SyncNewHeard(s, t, rep.silent, o, clock);
    } else if t.events[k].status != Cancelled {
      var back := Reappear(t, k);
      ReappearHeard(s, t, rep.silent, k);
      if t.events[k].startsAt != o.start {
        SyncMoveTells(s, back, rep, k, o, cfg, clock);
      } else {
        SyncQuietQuiet(back, rep, k, o);
        StillHeard(s, back, u, rep.silent);
      }
    }
  }

  lemma ReappearHeard(s: State, t: State, silent: seq<Id>, k: nat)
    requires AllHeard(s, t, silent) && DistinctEventIds(t.events) && k < |t.events|
    ensures AllHeard(s, Reappear(t, k), silent) && DistinctEventIds(Reappear(t, k).events)
  {
    var back := Reappear(t, k);
    assert Grows(t, back) && back.events == t.events[k := back.events[k]];
    StillHeard(s, t, back, silent);
  }

  lemma SyncQuietQuiet(s: State, rep: Report, k: nat, o: Occurrence)
    requires k < |s.events|
    ensures var (t, rep') := SyncQuiet(s, rep, k, o);
      QuietStep(s, t) && rep'.silent == rep.silent
  {
  }

  lemma {:induction false} SyncAllTells(s: State, t: State, rep: Report, occs: seq<Occurrence>, op: Op, cfg: Config)
    requires AllHeard(s, t, rep.silent) && Sound(s) && Leads(s, t, op, cfg) && op.SyncOp? && forall o | o in occs :: o in op.occs
    ensures var (u, rep') := SyncAll(t, rep, occs, cfg, op.clock);
      AllHeard(s, u, rep'.silent)
    decreases |occs|
  {
    if occs != [] {
      var (next, nextRep) := SyncOne(t, rep, occs[0], cfg, op.clock);
      LeadsSound(s, t, op, cfg);
      SyncOneTells(s, t, rep, occs[0], cfg, op.clock);
      SyncOneLeads(s, t, rep, occs[0], op, cfg);
      SyncAllTells(s, next, nextRep, occs[1..], op, cfg);
    }
  }

  lemma {:induction false} SweepQuiet(s: State, rep: Report, gone: seq<Id>, i: nat, occs: seq<Occurrence>, until: Time, clock: Time)
    ensures var (t, rep', gone') := SweepFrom(s, rep, gone, i, occs, until, clock);
      QuietStep(s, t) && rep'.silent == rep.silent
    decreases |s.events| - i
  {
    if i < |s.events| {
      var e := s.events[i];
      var logged := Log(s, ImportVanished(e.id));
      var noted := rep.(vanished := rep.vanished + [e.id]);
      if !Missing(e, KeysOf(occs), until, clock) {
        SweepQuiet(s, rep, gone, i + 1, occs, until, clock);
      } else if occs == [] {
        assert QuietStep(s, Log(s, ImportSuspect));
      } else if e.vanishedAt.Some? {
        assert QuietStep(s, logged);
        SweepQuiet(logged, noted, gone, i + 1, occs, until, clock);
        QuietTrans(s, logged, SweepFrom(logged, noted, gone, i + 1, occs, until, clock).0);
      } else {
        var marked := SetEvent(logged, i, e.(vanishedAt := Some(clock)));
        assert QuietStep(s, marked);
        SweepQuiet(marked, noted, gone + [e.id], i + 1, occs, until, clock);
        QuietTrans(s, marked, SweepFrom(marked, noted, gone + [e.id], i + 1, occs, until, clock).0);
      }
    }
  }

  lemma {:induction false} AskVanishedQuiet(s: State, gone: seq<Id>, clock: Time)
    ensures QuietStep(s, AskVanished(s, gone, clock).0)
  {
    if gone != [] {
      var front := AskVanished(s, gone[..|gone| - 1], clock).0;
      AskVanishedQuiet(s, gone[..|gone| - 1], clock);
      var after := AskVanishedOne(front, gone[|gone| - 1], clock).0;
      assert QuietStep(front, after);
      QuietTrans(s, front, after);
    }
  }

  /** Everything silent is announced in one page at the end. */
  lemma SyncTells(s: State, op: Op, cfg: Config)
    requires Sound(s) && op.SyncOp?
    ensures AllHeard(s, Sync(s, op.occs, op.until, cfg, op.clock).0, [])
  {
    var clock := op.clock;
    var (synced, rep) := SyncAll(s, NO_REPORT, op.occs, cfg, clock);
    Stay(s, op, cfg);
    QuietHeard(s, s);
    SyncAllTells(s, s, NO_REPORT, op.occs, op, cfg);
    var (swept, rep', gone) := SweepFrom(synced, rep, [], 0, op.occs, op.until, clock);
    SweepQuiet(synced, rep, [], 0, op.occs, op.until, clock);
    StillHeard(s, synced, swept, rep.silent);
    var (asked, n) := AskVanished(swept, gone, clock);
    AskVanishedQuiet(swept, gone, clock);
    var paged := PageGone(swept, gone, cfg, clock);
    NotifyAnnounces(asked, GoneFromCalendar(gone, n), cfg, clock);
    if gone != [] {
      QuietTrans(swept, asked, paged);
    }
    StillHeard(s, swept, paged, rep.silent);
    SilentAnnounced(s, paged, rep'.silent, cfg, clock);
    var done := PageSilent(paged, rep'.silent, cfg, clock);
    StillHeard(s, done, Log(done, ImportDone), []);
  }

  lemma SilentAnnounced(s: State, t: State, silent: seq<Id>, cfg: Config, clock: Time)
    requires AllHeard(s, t, silent)
    ensures AllHeard(s, PageSilent(t, silent, cfg, clock), [])
  {
    if silent != [] {
      var u := PageSilent(t, silent, cfg, clock);
      NotifyAnnounces(t, SilentMoves(silent), cfg, clock);
      GrowsTrans(s, t, u);
      forall i: nat | i < |s.events| ensures Heard(s, u, i, []) {
        assert Heard(s, t, i, silent);
        AnnouncedHeard(s, t, u, i, silent);
      }
    }
  }

  /** One event of a sync, once the page about the silent ones is out. */
  lemma AnnouncedHeard(s: State, t: State, u: State, i: nat, silent: seq<Id>)
    requires i < |s.events| && Heard(s, t, i, silent) && Grows(s, t) && Grows(t, u) && u.events == t.events
    requires Announced(t, u, SilentMoves(silent))
    ensures Heard(s, u, i, [])
  {
    var f := t.events[i];
    if !Quiet(s.events[i], f) && f.fanOutCount == 0 {
      assert Grows(s, s) && Grows(u, u);
      if f.id in silent {
        SilentTold(t, u, silent, f.id);
        ToldWider(s, t, u, u, f.id);
      } else {
        ToldWider(s, s, t, u, f.id);
      }
    }
  }

  lemma SilentTold(t: State, u: State, silent: seq<Id>, event: Id)
    requires event in silent && Announced(t, u, SilentMoves(silent))
    ensures AdminTold(t, u, event)
  {
    assert Alarms(SilentMoves(silent), event);
  }

  // ---- every operation -------------------------------------------------------

  lemma CreateHeard(s: State, op: Op, cfg: Config)
    requires op.CreateOp?
    ensures AllHeard(s, Apply(s, op, cfg), [])
  {
    var t := Apply(s, op, cfg);
    CreateQuiet(s, op.title, op.location, op.startsAt, op.endsAt, op.cancelIfSilent, "", "", op.clock);
    forall i | 0 <= i < |s.events| ensures Quiet(s.events[i], t.events[i]) {
      assert t.events[i] == t.events[..|s.events|][i];
    }
    QuietHeard(s, t);
  }

  /** The transitions an administrator or a portal visitor asks for. */
  lemma TransitionHeard(s: State, op: Op, cfg: Config)
    requires op.CancelOp? || op.MoveOp? || op.ReinstateOp?
    ensures AllHeard(s, Apply(s, op, cfg), [])
  {
    QuietHeard(s, s);
    var t := Apply(s, op, cfg);
    if t != s {
      TransitionTells(s, op, cfg);
      HeardAfter(s, s, FindEvent(s.events, op.event), t, [], []);
    }
  }

  lemma TransitionTells(s: State, op: Op, cfg: Config)
    requires op.CancelOp? || op.MoveOp? || op.ReinstateOp?
    requires Apply(s, op, cfg) != s
    ensures var t, k := Apply(s, op, cfg), FindEvent(s.events, op.event);
      && Grows(s, t) && k < |s.events| == |t.events| && t.events == s.events[k := t.events[k]]
      && t.events[k].id == s.events[k].id && Propagated(s, t, t.events[k], [])
  {
    var k := FindEvent(s.events, op.event);
    if op.CancelOp? {
      CancelTells(s, k, op.person, false, cfg, op.clock);
    } else if op.MoveOp? {
      MoveTells(s, op.event, op.start, op.end, false, cfg, op.clock);
    } else {
      ReinstateTells(s, k, cfg, op.clock);
    }
  }

  lemma ApplyHeard(s: State, op: Op, cfg: Config)
    requires Sound(s) && !op.DeleteOp?
    ensures AllHeard(s, Apply(s, op, cfg), [])
  {
    match op
    case CreateOp(_, _, _, _, _, _) => CreateHeard(s, op, cfg);
    case CancelOp(_, _, _) => TransitionHeard(s, op, cfg);
    case MoveOp(_, _, _, _) => TransitionHeard(s, op, cfg);
    case ReinstateOp(_, _) => TransitionHeard(s, op, cfg);
    case TickOp(now, clock) => TickTells(s, now, cfg, clock);
    case SyncOp(_, _, _) => SyncTells(s, op, cfg);
    case ConfirmOp(event, person, clock) =>
      ConfirmQuiet(s, event, person, clock);
      QuietHeard(s, Apply(s, op, cfg));
    case _ => QuietHeard(s, Apply(s, op, cfg));
  }

  lemma FireQuiet(s: State, event: string, clock: Time)
    ensures QuietStep(s, FireWebhooks(s, event, clock))
  {
  }

  lemma ConfirmAtQuiet(s: State, k: nat, person: Option<Id>, clock: Time)
    requires k < |s.events| && s.events[k].status == Scheduled
    ensures QuietStep(s, ConfirmAt(s, k, person, clock))
  {
    var answered := Respond(s, s.events[k].id, person, true, clock);
    var flipped := MarkConfirmed(answered, k);
    FlipQuiet(s, answered, k);
    FireQuiet(flipped, "event.confirmed", clock);
    QuietTrans(s, flipped, FireWebhooks(flipped, "event.confirmed", clock));
  }

  lemma ConfirmQuiet(s: State, event: Id, person: Option<Id>, clock: Time)
    ensures QuietStep(s, ConfirmSpec(s, event, person, clock).0)
  {
    var k := FindEvent(s.events, event);
    if k < |s.events| && s.events[k].status == Scheduled {
      ConfirmAtQuiet(s, k, person, clock);
    } else {
      RespondQuiet(s, ConfirmSpec(s, event, person, clock).0);
    }
  }

  lemma RespondQuiet(s: State, t: State)
    requires t == s.(responses := t.responses)
    ensures QuietStep(s, t)
  {
  }

  lemma FlipQuiet(s: State, answered: State, k: nat)
    requires k < |s.events| && s.events[k].status == Scheduled
    requires answered == s.(responses := answered.responses)
    ensures QuietStep(s, MarkConfirmed(answered, k))
  {
  }

  lemma DeleteQuiet(s: State, op: Op, cfg: Config)
    requires op.DeleteOp?
    ensures forall f :: f in Apply(s, op, cfg).events ==> f in s.events
  {
    FilterMembers(s.events, op.event);
  }

  /** What has to be told of an event that was e and is f, and that it was. */
  ghost predicate NotSilent(s: State, t: State, e: Event, f: Event) {
    ((e.status == Cancelled) != (f.status == Cancelled) || e.startsAt != f.startsAt || e.fanOutTxn != f.fanOutTxn) ==>
      && f.fanOutTxn.Some? && f.fanOutTxn.value >= s.nextId
      && (f.fanOutCount == 0 ==> AdminTold(s, t, f.id))
  }

  lemma HeardNotSilent(s: State, t: State, i: nat)
    requires i < |s.events| && Heard(s, t, i, [])
    ensures NotSilent(s, t, s.events[i], t.events[i])
  {
  }

  lemma SameIdSameEvent(events: seq<Event>, e: Event, i: nat)
    requires DistinctEventIds(events) && i < |events| && e in events && e.id == events[i].id
    ensures e == events[i]
  {
  }

  lemma SameIdSamePlace(events: seq<Event>, i: nat, j: nat)
    requires DistinctEventIds(events) && i < |events| && j < |events| && events[i].id == events[j].id
    ensures i == j
  {
  }

  /**
    Whatever operation cancels, reinstates or moves an event (or propagates it for any other
    reason) does so under a transaction that is new, and when that reached nobody the same
    operation tells the administrator or records that it could not.
  */
  lemma NeverSilent(s: State, op: Op, cfg: Config, i: nat, j: nat)
    requires Sound(s) && i < |s.events| && j < |Apply(s, op, cfg).events|
    requires Apply(s, op, cfg).events[j].id == s.events[i].id
    ensures NotSilent(s, Apply(s, op, cfg), s.events[i], Apply(s, op, cfg).events[j])
  {
    var t := Apply(s, op, cfg);
    if op.DeleteOp? {
      DeleteQuiet(s, op, cfg);
      SameIdSameEvent(s.events, t.events[j], i);
    } else {
      ApplyExtends(s, op, cfg);
      ApplyHeard(s, op, cfg);
      assert Heard(s, t, i, []);
      SameIdSamePlace(t.events, i, j);
      HeardNotSilent(s, t, i);
    }
  }
}
