/**
  From the occurrences of a feed to the stored events (internal/core/import.go): when a feed says
  one thing about each key, and what that means for fetching it again.
*/
module FeedSync {
  import opened Options
  import opened Recurrence
  import opened FeedExpansion
  import opened OccurrenceKeys
  import opened IcsParse
  import opened FeedImport
  import Core
  import C = CalendarSync
  import R = SyncResults
  import O = Operations
  import A = Actions
  import IcsRoundTrip
  import Services

  // ---- one thing about each key ----------------------------------------------

  /** Everything an event may start at: its enumeration from the anchor and its RDATEs. */
  function AllStarts(e: VEvent, to: Instant): seq<Instant>
    requires e.Valid() && !e.rule.BadRule?
  {
    WithRDates(PlainStarts(e, to), e.rDates, |e.rDates|)
  }

  predicate Agree(occs: seq<Occurrence>) {
    forall o, p | o in occs && p in occs && o.key == p.key :: o == p
  }

  /** The i-th event of the feed was expanded, starts at st, and has this occurrence there. */
  ghost predicate Says(events: seq<VEvent>, outcomes: seq<Outcome>, i: nat, st: Instant, o: Occurrence, from: Instant, to: Instant)
    requires |outcomes| <= |events| && AllValid(events) && AllFit(events, outcomes, from, to)
  {
    && i < |outcomes| && Fits(events, outcomes, i, from, to) && outcomes[i].verdict.Complete?
    && st in AllStarts(events[i], to) && ResolveIn(events, events[i], st, from, to) == [o]
  }

  /** Two events of one uid share a start and make different occurrences of it. */
  ghost predicate Contradict(events: seq<VEvent>, outcomes: seq<Outcome>, i: nat, j: nat, st: Instant, o: Occurrence, p: Occurrence, from: Instant, to: Instant)
    requires |outcomes| <= |events| && AllValid(events) && AllFit(events, outcomes, from, to)
  {
    && Says(events, outcomes, i, st, o, from, to) && Says(events, outcomes, j, st, p, from, to)
    && events[i].uid == events[j].uid && o != p
  }

  lemma ResolvedKey(events: seq<VEvent>, e: VEvent, st: Instant, o: Occurrence, from: Instant, to: Instant)
    requires o in ResolveIn(events, e, st, from, to)
    ensures o.key == Key(e.uid, st) && ResolveIn(events, e, st, from, to) == [o]
  {
  }

  lemma {:induction false} OccurrenceOf(events: seq<VEvent>, e: VEvent, starts: seq<Instant>, n: nat, from: Instant, to: Instant, o: Occurrence) returns (k: nat)
    requires n <= |starts| && o in Occurrences(events, e, starts, n, from, to)
    ensures k < n && o in ResolveIn(events, e, starts[k], from, to)
  {
    k := n - 1;
    if o in Occurrences(events, e, starts, n - 1, from, to) {
      k := OccurrenceOf(events, e, starts, n - 1, from, to, o);
    }
  }

  lemma {:induction false} OccurrenceIn(events: seq<VEvent>, e: VEvent, starts: seq<Instant>, n: nat, from: Instant, to: Instant, k: nat, o: Occurrence)
    requires k < n <= |starts| && o in ResolveIn(events, e, starts[k], from, to)
    ensures o in Occurrences(events, e, starts, n, from, to)
  {
    if k < n - 1 {
      OccurrenceIn(events, e, starts, n - 1, from, to, k, o);
    }
  }

  lemma {:induction false} ContributorOf(outcomes: seq<Outcome>, o: Occurrence) returns (i: nat)
    requires o in Contributed(outcomes)
    ensures i < |outcomes| && o in outcomes[i].occs
  {
    i := |outcomes| - 1;
    if o in Contributed(outcomes[..i]) {
      i := ContributorOf(outcomes[..i], o);
    }
  }

  lemma {:induction false} ContributedBy(outcomes: seq<Outcome>, i: nat, o: Occurrence)
    requires i < |outcomes| && o in outcomes[i].occs
    ensures o in Contributed(outcomes)
  {
    var n := |outcomes| - 1;
    if i < n {
      ContributedBy(outcomes[..n], i, o);
    }
  }

  /** Where an occurrence of the expansion comes from. */
  lemma SaidBy(events: seq<VEvent>, outcomes: seq<Outcome>, o: Occurrence, from: Instant, to: Instant) returns (i: nat)
    requires |outcomes| <= |events| && AllValid(events) && AllFit(events, outcomes, from, to) && o in Contributed(outcomes)
    ensures Says(events, outcomes, i, o.key.original, o, from, to) && o.key.uid == events[i].uid
  {
    i := ContributorOf(outcomes, o);
    assert Fits(events, outcomes, i, from, to);
    var starts := AllStarts(events[i], to);
    var k := OccurrenceOf(events, events[i], starts, |starts|, from, to, o);
    ResolvedKey(events, events[i], starts[k], o, from, to);
  }

  lemma SaidIsContributed(events: seq<VEvent>, outcomes: seq<Outcome>, i: nat, st: Instant, o: Occurrence, from: Instant, to: Instant)
    requires |outcomes| <= |events| && AllValid(events) && AllFit(events, outcomes, from, to)
    requires Says(events, outcomes, i, st, o, from, to)
    ensures o in Contributed(outcomes) && o.key == Key(events[i].uid, st)
  {
    var starts := AllStarts(events[i], to);
    var k :| 0 <= k < |starts| && starts[k] == st;
    ResolvedKey(events, events[i], st, o, from, to);
    OccurrenceIn(events, events[i], starts, |starts|, from, to, k, o);
    ContributedBy(outcomes, i, o);
  }

  /**
    An expansion says one thing about each key exactly when no two expanded events of one uid
    contradict each other about a start. Repeated days, positions and RDATEs do no harm.
  */
  lemma AgreesIff(events: seq<VEvent>, outcomes: seq<Outcome>, from: Instant, to: Instant)
    requires |outcomes| <= |events| && AllValid(events) && AllFit(events, outcomes, from, to)
    ensures Agree(Contributed(outcomes)) <==> !exists i: nat, j: nat, st, o, p :: Contradict(events, outcomes, i, j, st, o, p, from, to)
  {
    var all := Contributed(outcomes);
    forall o, p | o in all && p in all && o.key == p.key && o != p
      ensures exists i: nat, j: nat, st, o, p :: Contradict(events, outcomes, i, j, st, o, p, from, to)
    {
      var i := SaidBy(events, outcomes, o, from, to);
      var j := SaidBy(events, outcomes, p, from, to);
      assert Contradict(events, outcomes, i, j, o.key.original, o, p, from, to);
    }
    forall i: nat, j: nat, st, o, p | Contradict(events, outcomes, i, j, st, o, p, from, to) ensures !Agree(all) {
      SaidIsContributed(events, outcomes, i, st, o, from, to);
      SaidIsContributed(events, outcomes, j, st, p, from, to);
    }
  }

  /** Every uid has at most one event that was expanded. */
  predicate OneMaster(events: seq<VEvent>, outcomes: seq<Outcome>)
    requires |outcomes| <= |events|
  {
    forall i, j | 0 <= i < j < |outcomes| && outcomes[i].verdict.Complete? && outcomes[j].verdict.Complete? :: events[i].uid != events[j].uid
  }

  /** A feed with one series for each uid never contradicts itself, whatever its rules. */
  lemma OneMasterAgrees(events: seq<VEvent>, outcomes: seq<Outcome>, from: Instant, to: Instant)
    requires |outcomes| <= |events| && AllValid(events) && AllFit(events, outcomes, from, to) && OneMaster(events, outcomes)
    ensures Agree(Contributed(outcomes))
  {
    var all := Contributed(outcomes);
    forall o, p | o in all && p in all && o.key == p.key ensures o == p {
      var i := SaidBy(events, outcomes, o, from, to);
      var j := SaidBy(events, outcomes, p, from, to);
      assert i == j;
    }
  }

  // ---- as the sync takes them ------------------------------------------------

  /** An occurrence with its key as text and its times in nanoseconds. */
  function CalendarOf(o: Occurrence): C.Occurrence {
    C.Occurrence(KeyText(o.key), o.uid, o.summary, o.location, o.start * IcsRoundTrip.SECOND, if o.end == 0 then None else Some(o.end * IcsRoundTrip.SECOND))
  }

  function CalendarOfAll(occs: seq<Occurrence>): (r: seq<C.Occurrence>)
    ensures |r| == |occs| && forall i | 0 <= i < |r| :: r[i] == CalendarOf(occs[i])
  {
    seq(|occs|, i requires 0 <= i < |occs| => CalendarOf(occs[i]))
  }

  lemma MappedFrom(occs: seq<Occurrence>, c: C.Occurrence) returns (o: Occurrence)
    requires c in CalendarOfAll(occs)
    ensures o in occs && c == CalendarOf(o)
  {
    var i :| 0 <= i < |occs| && CalendarOfAll(occs)[i] == c;
    o := occs[i];
  }

  lemma MappedTo(occs: seq<Occurrence>, o: Occurrence)
    requires o in occs
    ensures CalendarOf(o) in CalendarOfAll(occs)
  {
    var i :| 0 <= i < |occs| && occs[i] == o;
    assert CalendarOfAll(occs)[i] == CalendarOf(o);
  }

  /** Agreement survives the key's way into text. */
  lemma AgreementCarries(occs: seq<Occurrence>)
    requires Agree(occs)
    ensures R.KeysAgree(CalendarOfAll(occs))
  {
    var all := CalendarOfAll(occs);
    forall c, d | c in all && d in all && c.key == d.key ensures c == d {
      var o := MappedFrom(occs, c);
      var p := MappedFrom(occs, d);
      KeyTells(o.key, p.key);
    }
  }

  lemma SameMembers(a: seq<Occurrence>, b: seq<Occurrence>)
    requires multiset(a) == multiset(b)
    ensures forall o :: o in a <==> o in b
  {
    forall o ensures o in a <==> o in b {
      assert o in a <==> o in multiset(a);
      assert o in b <==> o in multiset(b);
    }
  }

  lemma SortedAgrees(a: seq<Occurrence>, b: seq<Occurrence>)
    requires multiset(a) == multiset(b) && Agree(a)
    ensures Agree(b) && R.SameFeed(CalendarOfAll(a), CalendarOfAll(b))
  {
    SameMembers(a, b);
    forall c | c in CalendarOfAll(a) ensures c in CalendarOfAll(b) {
      var o := MappedFrom(a, c);
      MappedTo(b, o);
    }
    forall c | c in CalendarOfAll(b) ensures c in CalendarOfAll(a) {
      var o := MappedFrom(b, c);
      MappedTo(a, o);
    }
  }

  /**
    Syncing an expansion that does not contradict itself a second time, in whatever order its
    occurrences come, changes nothing but the trail.
  */
  lemma ExpansionSyncsOnce(events: seq<VEvent>, outcomes: seq<Outcome>, from: Instant, to: Instant, first: seq<Occurrence>, second: seq<Occurrence>,
                           s: Core.State, until: Core.Time, cfg: Core.Config, clock: Core.Time)
    requires |outcomes| <= |events| && AllValid(events) && AllFit(events, outcomes, from, to)
    requires !exists i: nat, j: nat, st, o, p :: Contradict(events, outcomes, i, j, st, o, p, from, to)
    requires multiset(first) == multiset(Contributed(outcomes)) && multiset(second) == multiset(first) && A.Sound(s)
    ensures var t := C.Sync(s, CalendarOfAll(first), until, cfg, clock).0;
      var (u, rep) := C.Sync(t, CalendarOfAll(second), until, cfg, clock);
      u == t.(audit := u.audit) && R.NothingDone(rep)
  {
    AgreesIff(events, outcomes, from, to);
    SortedAgrees(Contributed(outcomes), first);
    SortedAgrees(first, second);
    AgreementCarries(first);
    R.SyncIsIdempotent(s, O.SyncOp(CalendarOfAll(first), until, clock), CalendarOfAll(second), cfg);
  }

  // ---- one fetch -------------------------------------------------------------

  /** The text of the feed, parsed, expanded and reconciled with the store. */
  method FetchCalendar(service: Services.Service, pl: Places, raw: string, from: Instant, to: Instant, until: Core.Time, clock: Core.Time)
    returns (rep: C.Report, unread: seq<IcsSkipped>, skipped: seq<Skipped>, ghost occs: seq<Occurrence>, ghost outcomes: seq<Outcome>)
    requires RegularPlaces(pl)
    modifies service
    ensures var events := VEventsOf(WalkAll(pl, Unfolded(raw)).events);
      && AllValid(events) && |outcomes| == |events| && AllFit(events, outcomes, from, to)
      && unread == WalkAll(pl, Unfolded(raw)).skipped && skipped == SkippedOf(events, outcomes)
      && ByStart(occs) && multiset(occs) == multiset(Contributed(outcomes))
    ensures (service.St(), rep) == C.Sync(old(service.St()), CalendarOfAll(occs), until, service.cfg, clock)
  {
    var list;
    ghost var events;
    list, unread, skipped, events, outcomes := ImportFeed(pl, raw, from, to);
    occs := list;
    rep := service.SyncCalendar(CalendarOfAll(list), until, clock);
  }
}
