/**
  What the calendar sync promises: a second run changes nothing, an event is marked vanished
  exactly when the feed lacks it, and a cancelled occurrence stays cancelled.
*/
module SyncResults {
  import opened Options
  import opened Core
  import opened Transitions
  import opened Delivery
  import opened CalendarSync
  import opened Operations
  import opened Actions
  import opened Coverage
  import opened Rows
  import opened Protocol
  import opened Silence

  // ---- one occurrence --------------------------------------------------------

  /** The stored event already is what the feed says, or the program refuses to make it so. */
  predicate Agrees(e: Event, o: Occurrence) {
    || e.status == Cancelled
    || (e.vanishedAt.None? && e.startsAt != o.start && BadMove(Some(o.start), o.end))
    || (e.vanishedAt.None? && e.startsAt == o.start && e.endsAt == o.end && e.title == TitleOf(o) && e.location == o.location)
  }

  predicate Settled(s: State, o: Occurrence) {
    var k := FindKey(s.events, o.key);
    k < |s.events| && Agrees(s.events[k], o)
  }

  /** What the feed says twice it says alike. */
  predicate KeysAgree(occs: seq<Occurrence>) {
    forall o, p | o in occs && p in occs && o.key == p.key :: o == p
  }

  /** Only the event with this key changes, and no key does. */
  predicate OnlyKey(s: State, t: State, key: string) {
    && |s.events| <= |t.events|
    && (forall i | 0 <= i < |s.events| :: t.events[i].sourceKey == s.events[i].sourceKey)
    && (forall i | 0 <= i < |s.events| && s.events[i].sourceKey != key :: t.events[i] == s.events[i])
    && (forall i | |s.events| <= i < |t.events| :: t.events[i].sourceKey == key)
  }

  lemma MoveAtFields(s: State, k: nat, start: Time, end: Option<Time>, cfg: Config, clock: Time)
    requires k < |s.events|
    ensures var t := MoveAt(s, k, start, end, true, cfg, clock);
      && t.events == s.events[k := t.events[k]]
      && t.events[k].id == s.events[k].id && t.events[k].sourceKey == s.events[k].sourceKey
      && t.events[k].startsAt == start && t.events[k].endsAt == end && t.events[k].status == Scheduled
      && t.events[k].vanishedAt == s.events[k].vanishedAt
  {
  }

  lemma SyncMoveSettles(s: State, rep: Report, k: nat, o: Occurrence, cfg: Config, clock: Time)
    requires DistinctEventIds(s.events) && k < |s.events| && s.events[k].status != Cancelled
    requires s.events[k].vanishedAt.None? && s.events[k].startsAt != o.start && s.events[k].sourceKey == o.key
    ensures var t := SyncMove(s, rep, k, o, cfg, clock).0;
      && t.events == s.events[k := t.events[k]] && Agrees(t.events[k], o) && t.events[k].sourceKey == o.key
  {
    FindDistinct(s.events, k);
    if !BadMove(Some(o.start), o.end) {
      MoveAtFields(s, k, o.start, o.end, cfg, clock);
    }
  }

  lemma SyncQuietSettles(s: State, rep: Report, k: nat, o: Occurrence)
    requires k < |s.events| && s.events[k].vanishedAt.None? && s.events[k].startsAt == o.start && s.events[k].sourceKey == o.key
    ensures var t := SyncQuiet(s, rep, k, o).0;
      && t.events == s.events[k := t.events[k]] && Agrees(t.events[k], o) && t.events[k].sourceKey == o.key
  {
  }

  lemma SyncNewSettles(s: State, o: Occurrence, clock: Time)
    ensures var t := SyncNew(s, o, clock);
      && |t.events| == |s.events| + 1 && t.events[..|s.events|] == s.events
      && Agrees(t.events[|s.events|], o) && t.events[|s.events|].sourceKey == o.key
  {
    var created := Create(s, TitleOf(o), o.location, o.start, o.end, false, o.uid, o.key, clock);
    InheritEvents(created, created.series, s.nextId, o.uid);
  }

  lemma {:induction false} InheritEvents(s: State, series: seq<SeriesAssignment>, event: Id, uid: string)
    ensures InheritSeries(s, series, event, uid).events == s.events
  {
    if series != [] {
      InheritEvents(s, series[..|series| - 1], event, uid);
    }
  }

  lemma FindKeyAt(events: seq<Event>, key: string, k: nat)
    requires k < |events| && events[k].sourceKey == key && forall i | 0 <= i < k :: events[i].sourceKey != key
    ensures FindKey(events, key) == k
  {
  }

  lemma SyncNewOnly(s: State, o: Occurrence, clock: Time)
    requires FindKey(s.events, o.key) == |s.events|
    ensures var t := SyncNew(s, o, clock);
      OnlyKey(s, t, o.key) && Settled(t, o)
  {
    var t := SyncNew(s, o, clock);
    SyncNewSettles(s, o, clock);
    forall i | 0 <= i < |s.events| ensures t.events[i] == s.events[i] {
      assert t.events[i] == t.events[..|s.events|][i];
    }
    FindKeyAt(t.events, o.key, |s.events|);
  }

  lemma SyncOneSettles(s: State, rep: Report, o: Occurrence, cfg: Config, clock: Time)
    requires DistinctEventIds(s.events)
    ensures var t := SyncOne(s, rep, o, cfg, clock).0;
      OnlyKey(s, t, o.key) && Settled(t, o)
  {
    var k := FindKey(s.events, o.key);
    var t := SyncOne(s, rep, o, cfg, clock).0;
    if k == |s.events| {
      SyncNewOnly(s, o, clock);
    } else if s.events[k].status != Cancelled {
      SeenSettles(s, rep, k, o, cfg, clock);
      SettledAt(s, t, k, o);
    }
  }

  /** The stored event of an occurrence: moved, quietly updated or left. */
  lemma SeenSettles(s: State, rep: Report, k: nat, o: Occurrence, cfg: Config, clock: Time)
    requires DistinctEventIds(s.events) && k < |s.events| && k == FindKey(s.events, o.key) && s.events[k].status != Cancelled
    ensures var t := SyncOne(s, rep, o, cfg, clock).0;
      |t.events| == |s.events| && t.events == s.events[k := t.events[k]] && Agrees(t.events[k], o) && t.events[k].sourceKey == o.key
  {
    var back := Reappear(s, k);
    assert back.events == s.events[k := back.events[k]];
    if s.events[k].startsAt != o.start {
      SyncMoveSettles(back, rep, k, o, cfg, clock);
    } else {
      SyncQuietSettles(back, rep, k, o);
    }
  }

  lemma SettledAt(s: State, t: State, k: nat, o: Occurrence)
    requires k < |s.events| == |t.events| && k == FindKey(s.events, o.key)
    requires t.events == s.events[k := t.events[k]] && Agrees(t.events[k], o) && t.events[k].sourceKey == o.key
    ensures OnlyKey(s, t, o.key) && Settled(t, o)
  {
    FindKeyAt(t.events, o.key, k);
  }

  lemma OtherSettled(s: State, t: State, o: Occurrence, key: string)
    requires OnlyKey(s, t, key) && o.key != key && Settled(s, o)
    ensures Settled(t, o)
  {
    FindKeyAt(t.events, o.key, FindKey(s.events, o.key));
  }

  lemma {:induction false} SyncAllKeeps(s: State, rep: Report, occs: seq<Occurrence>, op: Op, cfg: Config, p: Occurrence, root: State)
    requires Sound(root) && Leads(root, s, op, cfg) && op.SyncOp? && forall o | o in occs :: o in op.occs
    requires Settled(s, p) && forall o | o in occs && o.key == p.key :: o == p
    ensures Settled(SyncAll(s, rep, occs, cfg, op.clock).0, p)
    decreases |occs|
  {
    if occs != [] {
      var (next, nextRep) := SyncOne(s, rep, occs[0], cfg, op.clock);
      LeadsSound(root, s, op, cfg);
      SyncOneSettles(s, rep, occs[0], cfg, op.clock);
      if occs[0].key != p.key {
        OtherSettled(s, next, p, occs[0].key);
      }
      SyncOneLeads(root, s, rep, occs[0], op, cfg);
      SyncAllKeeps(next, nextRep, occs[1..], op, cfg, p, root);
    }
  }

  lemma {:induction false} SyncAllSettles(s: State, rep: Report, occs: seq<Occurrence>, op: Op, cfg: Config, root: State)
    requires Sound(root) && Leads(root, s, op, cfg) && op.SyncOp? && forall o | o in occs :: o in op.occs
    requires KeysAgree(occs)
    ensures forall o | o in occs :: Settled(SyncAll(s, rep, occs, cfg, op.clock).0, o)
    decreases |occs|
  {
    if occs != [] {
      var (next, nextRep) := SyncOne(s, rep, occs[0], cfg, op.clock);
      LeadsSound(root, s, op, cfg);
      SyncOneSettles(s, rep, occs[0], cfg, op.clock);
      SyncOneLeads(root, s, rep, occs[0], op, cfg);
      SyncAllKeeps(next, nextRep, occs[1..], op, cfg, occs[0], root);
      SyncAllSettles(next, nextRep, occs[1..], op, cfg, root);
      assert occs == [occs[0]] + occs[1..];
    }
  }

  // ---- the sweep -------------------------------------------------------------

  /** The event after a sweep that was not suspect. */
  function Swept(e: Event, occs: seq<Occurrence>, until: Time, clock: Time): Event {
    if occs != [] && Missing(e, KeysOf(occs), until, clock) && e.vanishedAt.None? then e.(vanishedAt := Some(clock)) else e
  }

  lemma {:induction false} SweepMarks(s: State, rep: Report, gone: seq<Id>, i: nat, occs: seq<Occurrence>, until: Time, clock: Time)
    ensures var (t, rep', gone') := SweepFrom(s, rep, gone, i, occs, until, clock);
      && (forall j | 0 <= j < |s.events| :: t.events[j] == if j < i then s.events[j] else Swept(s.events[j], occs, until, clock))
      && t == s.(events := t.events, audit := t.audit)
      && rep' == rep.(vanished := rep'.vanished, suspect := rep'.suspect)
      && (rep'.suspect ==> rep.suspect || occs == [])
      && (t.events == s.events ==> gone' == gone)
    decreases |s.events| - i
  {
    if i < |s.events| {
      var e := s.events[i];
      var logged := Log(s, ImportVanished(e.id));
      var noted := rep.(vanished := rep.vanished + [e.id]);
      if !Missing(e, KeysOf(occs), until, clock) {
        SweepMarks(s, rep, gone, i + 1, occs, until, clock);
      } else if occs == [] {
      } else if e.vanishedAt.Some? {
        SweepMarks(logged, noted, gone, i + 1, occs, until, clock);
      } else {
        SweepMarks(SetEvent(logged, i, e.(vanishedAt := Some(clock))), noted, gone + [e.id], i + 1, occs, until, clock);
      }
    }
  }

  lemma {:induction false} AskVanishedKeeps(s: State, gone: seq<Id>, clock: Time)
    ensures var t := AskVanished(s, gone, clock).0;
      t == s.(outbox := t.outbox, audit := t.audit, nextId := t.nextId)
  {
    if gone != [] {
      AskVanishedKeeps(s, gone[..|gone| - 1], clock);
    }
  }

  lemma SweptSettled(s: State, t: State, o: Occurrence, occs: seq<Occurrence>, until: Time, clock: Time)
    requires Settled(s, o) && o in occs && |s.events| == |t.events|
    requires forall j | 0 <= j < |s.events| :: t.events[j] == Swept(s.events[j], occs, until, clock)
    ensures Settled(t, o)
  {
    var k := FindKey(s.events, o.key);
    assert o.key in KeysOf(occs);
    FindKeyAt(t.events, o.key, k);
  }

  /** After a sync every occurrence is settled. */
  lemma SyncSettles(s: State, op: Op, cfg: Config)
    requires Sound(s) && op.SyncOp? && KeysAgree(op.occs)
    ensures forall o | o in op.occs :: Settled(Apply(s, op, cfg), o)
  {
    var clock := op.clock;
    var (synced, rep) := SyncAll(s, NO_REPORT, op.occs, cfg, clock);
    Stay(s, op, cfg);
    SyncAllSettles(s, NO_REPORT, op.occs, op, cfg, s);
    var swept := SweptOnly(s, op, cfg);
    SweepMarks(synced, rep, [], 0, op.occs, op.until, clock);
    forall o | o in op.occs ensures Settled(Apply(s, op, cfg), o) {
      SweptSettled(synced, swept, o, op.occs, op.until, clock);
    }
  }

  /** The pages at the end leave the events as the sweep made them. */
  lemma SweptOnly(s: State, op: Op, cfg: Config) returns (swept: State)
    requires op.SyncOp?
    ensures var (synced, rep) := SyncAll(s, NO_REPORT, op.occs, cfg, op.clock);
      swept == SweepFrom(synced, rep, [], 0, op.occs, op.until, op.clock).0
    ensures Apply(s, op, cfg).events == swept.events
  {
    var (synced, rep) := SyncAll(s, NO_REPORT, op.occs, cfg, op.clock);
    var (t, rep', gone) := SweepFrom(synced, rep, [], 0, op.occs, op.until, op.clock);
    AskVanishedKeeps(t, gone, op.clock);
    swept := t;
  }

  // ---- the second run --------------------------------------------------------

  /** The counters of things done. */
  predicate NothingDone(rep: Report) {
    rep.created == 0 && rep.moved == 0 && rep.updated == 0 && rep.silent == []
  }

  lemma {:induction false} SyncAllIdle(s: State, rep: Report, occs: seq<Occurrence>, cfg: Config, clock: Time)
    requires NothingDone(rep) && DistinctEventIds(s.events) && forall o | o in occs :: Settled(s, o)
    ensures SyncAll(s, rep, occs, cfg, clock).0 == s && NothingDone(SyncAll(s, rep, occs, cfg, clock).1)
    decreases |occs|
  {
    if occs != [] {
      SyncOneIdle(s, rep, occs[0], cfg, clock);
      SyncAllIdle(s, SyncOne(s, rep, occs[0], cfg, clock).1, occs[1..], cfg, clock);
    }
  }

  lemma SyncOneIdle(s: State, rep: Report, o: Occurrence, cfg: Config, clock: Time)
    requires NothingDone(rep) && DistinctEventIds(s.events) && Settled(s, o)
    ensures SyncOne(s, rep, o, cfg, clock).0 == s && NothingDone(SyncOne(s, rep, o, cfg, clock).1)
  {
    var k := FindKey(s.events, o.key);
    FindDistinct(s.events, k);
  }

  /** The same occurrences, in any order and any number of times. */
  predicate SameFeed(occs: seq<Occurrence>, again: seq<Occurrence>) {
    (forall o | o in occs :: o in again) && (forall o | o in again :: o in occs)
  }

  lemma SameFeedSweeps(occs: seq<Occurrence>, again: seq<Occurrence>)
    requires SameFeed(occs, again)
    ensures KeysOf(again) == KeysOf(occs) && (again == [] <==> occs == [])
  {
    if occs != [] {
      assert occs[0] in occs && occs[0] in again;
    }
    if again != [] {
      assert again[0] in again && again[0] in occs;
    }
  }

  /** A sweep over a state where nothing is left to mark. */
  lemma SweepIdle(t: State, rep: Report, occs: seq<Occurrence>, until: Time, clock: Time)
    requires forall j | 0 <= j < |t.events| :: Swept(t.events[j], occs, until, clock) == t.events[j]
    ensures var (swept, rep', gone) := SweepFrom(t, rep, [], 0, occs, until, clock);
      swept == t.(audit := swept.audit) && gone == [] && rep' == rep.(vanished := rep'.vanished, suspect := rep'.suspect)
  {
    SweepMarks(t, rep, [], 0, occs, until, clock);
    assert SweepFrom(t, rep, [], 0, occs, until, clock).0.events == t.events;
  }

  lemma SweptAlike(e: Event, occs: seq<Occurrence>, again: seq<Occurrence>, until: Time, clock: Time)
    requires SameFeed(occs, again)
    ensures Swept(e, again, until, clock) == Swept(e, occs, until, clock)
  {
    SameFeedSweeps(occs, again);
  }

  /**
    A second sync at the same clock with the same occurrences, in any order, creates, moves and
    updates nothing and enqueues nothing: only the audit trail notes that it ran. The feed may
    repeat an occurrence as long as it does not contradict itself about one key.
  */
  lemma SyncIsIdempotent(s: State, op: Op, again: seq<Occurrence>, cfg: Config)
    requires Sound(s) && op.SyncOp? && KeysAgree(op.occs) && SameFeed(op.occs, again)
    ensures var t := Sync(s, op.occs, op.until, cfg, op.clock).0;
      var (u, rep) := Sync(t, again, op.until, cfg, op.clock);
      u == t.(audit := u.audit) && NothingDone(rep)
  {
    var t := Apply(s, op, cfg);
    SyncSettles(s, op, cfg);
    SweptStays(s, op, cfg);
    ApplyExtends(s, op, cfg);
    SyncAllIdle(t, NO_REPORT, again, cfg, op.clock);
    var (synced, rep) := SyncAll(t, NO_REPORT, again, cfg, op.clock);
    forall j | 0 <= j < |t.events| ensures Swept(t.events[j], again, op.until, op.clock) == t.events[j] {
      SweptAlike(t.events[j], op.occs, again, op.until, op.clock);
    }
    SweepIdle(t, rep, again, op.until, op.clock);
  }

  // ---- vanished --------------------------------------------------------------

  /** The event of this occurrence is not marked as vanished, unless it was cancelled. */
  predicate Present(s: State, o: Occurrence) {
    var k := FindKey(s.events, o.key);
    k < |s.events| && (s.events[k].status == Cancelled || s.events[k].vanishedAt.None?)
  }

  lemma SyncOnePresent(s: State, rep: Report, o: Occurrence, cfg: Config, clock: Time, p: Occurrence)
    requires DistinctEventIds(s.events) && (Present(s, p) || p.key == o.key)
    ensures Present(SyncOne(s, rep, o, cfg, clock).0, p)
  {
    SyncOneSettles(s, rep, o, cfg, clock);
    if p.key != o.key {
      FindKeyAt(SyncOne(s, rep, o, cfg, clock).0.events, p.key, FindKey(s.events, p.key));
    }
  }

  lemma {:induction false} SyncAllPresent(s: State, rep: Report, occs: seq<Occurrence>, op: Op, cfg: Config, p: Occurrence, root: State)
    requires Sound(root) && Leads(root, s, op, cfg) && op.SyncOp? && forall o | o in occs :: o in op.occs
    requires Present(s, p) || p in occs
    ensures Present(SyncAll(s, rep, occs, cfg, op.clock).0, p)
    decreases |occs|
  {
    if occs != [] {
      var (next, nextRep) := SyncOne(s, rep, occs[0], cfg, op.clock);
      LeadsSound(root, s, op, cfg);
      if Present(s, p) || p == occs[0] {
        SyncOnePresent(s, rep, occs[0], cfg, op.clock, p);
      }
      SyncOneLeads(root, s, rep, occs[0], op, cfg);
      SyncAllPresent(next, nextRep, occs[1..], op, cfg, p, root);
    }
  }

  /** Whatever the feed, its occurrences are present afterwards. */
  lemma FeedPresent(s: State, op: Op, cfg: Config)
    requires Sound(s) && op.SyncOp?
    ensures forall o | o in op.occs :: Present(Apply(s, op, cfg), o)
  {
    var (synced, rep) := SyncAll(s, NO_REPORT, op.occs, cfg, op.clock);
    Stay(s, op, cfg);
    var swept := SweptOnly(s, op, cfg);
    SweepMarks(synced, rep, [], 0, op.occs, op.until, op.clock);
    forall o | o in op.occs ensures Present(Apply(s, op, cfg), o) {
      SyncAllPresent(s, NO_REPORT, op.occs, op, cfg, o, s);
      assert o.key in KeysOf(op.occs);
      FindKeyAt(swept.events, o.key, FindKey(synced.events, o.key));
    }
  }

  /** Sweeping again would mark nothing more. */
  lemma SweptStays(s: State, op: Op, cfg: Config)
    requires op.SyncOp?
    ensures var t := Apply(s, op, cfg);
      && (forall j | 0 <= j < |t.events| :: Swept(t.events[j], op.occs, op.until, op.clock) == t.events[j])
      && (op.occs == [] ==> t.events == s.events)
  {
    var (synced, rep) := SyncAll(s, NO_REPORT, op.occs, cfg, op.clock);
    var swept := SweptOnly(s, op, cfg);
    SweepMarks(synced, rep, [], 0, op.occs, op.until, op.clock);
  }

  /** After a sync that was not suspect a live imported event in the window is marked exactly when the feed lacks it. */
  lemma VanishedExactly(s: State, op: Op, cfg: Config, j: nat)
    requires Sound(s) && op.SyncOp? && !Sync(s, op.occs, op.until, cfg, op.clock).1.suspect
    requires j < |Apply(s, op, cfg).events|
    ensures var e := Apply(s, op, cfg).events[j];
      e.sourceKey != "" && e.status != Cancelled && op.clock <= e.startsAt <= op.until ==>
        (e.vanishedAt.Some? <==> e.sourceKey !in KeysOf(op.occs))
  {
    var t := Apply(s, op, cfg);
    var e := t.events[j];
    FeedPresent(s, op, cfg);
    SweptStays(s, op, cfg);
    ApplyExtends(s, op, cfg);
    if e.sourceKey != "" && e.sourceKey in KeysOf(op.occs) {
      var o :| o in op.occs && o.key == e.sourceKey;
      assert Present(t, o);
      var k := FindKey(t.events, o.key);
      assert k == j by {
        assert t.events[k].sourceKey == t.events[j].sourceKey && DistinctKeys(t.events);
      }
    } else if op.occs == [] && Missing(e, {}, op.until, op.clock) {
      EmptyFeedMarksNone(s, op, cfg);
    }
  }

  /** An empty feed marks nobody. */
  lemma EmptyFeedMarksNone(s: State, op: Op, cfg: Config)
    requires op.SyncOp? && op.occs == []
    ensures Apply(s, op, cfg).events == s.events
    ensures Sync(s, op.occs, op.until, cfg, op.clock).1.suspect <==>
      exists j :: 0 <= j < |s.events| && Missing(s.events[j], {}, op.until, op.clock)
  {
    SweepMarks(s, NO_REPORT, [], 0, [], op.until, op.clock);
    SuspectWhenMissing(s, NO_REPORT, 0, op.until, op.clock);
    assert KeysOf([]) == {};
    var (swept, rep, gone) := SweepFrom(s, NO_REPORT, [], 0, [], op.until, op.clock);
    AskVanishedKeeps(swept, gone, op.clock);
    assert swept.events == s.events;
  }

  lemma {:induction false} SuspectWhenMissing(s: State, rep: Report, i: nat, until: Time, clock: Time)
    requires !rep.suspect
    ensures SweepFrom(s, rep, [], i, [], until, clock).1.suspect <==>
      exists j :: i <= j < |s.events| && Missing(s.events[j], {}, until, clock)
    decreases |s.events| - i
  {
    assert KeysOf([]) == {};
    if i < |s.events| && !Missing(s.events[i], {}, until, clock) {
      SuspectWhenMissing(s, rep, i + 1, until, clock);
    }
  }

  // ---- tombstones ------------------------------------------------------------

  /** Cancelled events stay exactly as they are, and no other becomes cancelled. */
  predicate SameGraves(s: State, t: State) {
    && |s.events| <= |t.events|
    && (forall i | 0 <= i < |s.events| && s.events[i].status == Cancelled :: t.events[i] == s.events[i])
    && (forall i | 0 <= i < |s.events| && s.events[i].status != Cancelled :: t.events[i].status != Cancelled)
    && (forall i | |s.events| <= i < |t.events| :: t.events[i].status != Cancelled)
  }

  lemma DoGraves(s: State, t: State, a: Action, op: Op, cfg: Config)
    requires op.SyncOp? && SameGraves(s, t) && Can(t, a, op, cfg)
    ensures SameGraves(s, Do(t, a, op, cfg))
  {
    if Touches(a) {
      TouchKeeps(t, a, op, cfg);
      TouchGrave(t, a, op, cfg);
    }
  }

  lemma TouchGrave(t: State, a: Action, op: Op, cfg: Config)
    requires op.SyncOp? && Can(t, a, op, cfg) && Touches(a)
    ensures t.events[a.k].status != Cancelled && Do(t, a, op, cfg).events[a.k].status != Cancelled
  {
  }

  lemma {:induction false} PathGraves(s: State, path: seq<Action>, op: Op, cfg: Config)
    requires op.SyncOp?
    ensures SameGraves(s, End(s, path, op, cfg))
  {
    if path != [] {
      var t := End(s, path[..|path| - 1], op, cfg);
      PathGraves(s, path[..|path| - 1], op, cfg);
      if Can(t, path[|path| - 1], op, cfg) {
        DoGraves(s, t, path[|path| - 1], op, cfg);
      }
    }
  }

  /** On every input a sync leaves the cancelled events alone and cancels none. */
  lemma SyncLeavesCancelled(s: State, op: Op, cfg: Config)
    requires Sound(s) && op.SyncOp?
    ensures SameGraves(s, Apply(s, op, cfg))
  {
    ApplyLeads(s, op, cfg);
    var path :| End(s, path, op, cfg) == Apply(s, op, cfg);
    PathGraves(s, path, op, cfg);
  }

  /** A cancelled imported occurrence, and the only event of its key. */
  predicate Entombed(s: State, id: Id, uid: string, key: string) {
    && Of(s, id).Some?
    && var e := Of(s, id).value;
    && e.status == Cancelled && e.sourceUid == uid && e.sourceKey == key
  }

  predicate Reinstates(step: Step, id: Id) {
    step.Operate? && step.op.ReinstateOp? && step.op.event == id
  }

  lemma DoEntombed(s: State, a: Action, op: Op, cfg: Config, id: Id, uid: string, key: string)
    requires Sound(s) && Can(s, a, op, cfg) && !(op.ReinstateOp? && op.event == id)
    requires Entombed(s, id, uid, key) && uid != ""
    ensures Entombed(Do(s, a, op, cfg), id, uid, key)
  {
    if a.Enrol? {
      FindAppended(s.events, a.e, id);
    } else if a.Forget? {
      FilterMembers(s.events, a.id);
      FilterDistinct(s.events, a.id);
      OfMember(DropRowsOf(s, a.id), Of(s, id).value);
    } else if Touches(a) {
      TouchEntombed(s, a, op, cfg, id, uid, key);
    }
  }

  lemma TouchEntombed(s: State, a: Action, op: Op, cfg: Config, id: Id, uid: string, key: string)
    requires Can(s, a, op, cfg) && Touches(a) && !(op.ReinstateOp? && op.event == id)
    requires Entombed(s, id, uid, key)
    ensures Entombed(Do(s, a, op, cfg), id, uid, key)
  {
    TouchKeeps(s, a, op, cfg);
    FindReplaced(s.events, a.k, Do(s, a, op, cfg).events[a.k], id);
    if a.k == FindEvent(s.events, id) {
      TouchCancelled(s, a, op, cfg);
    }
  }

  /** Of the actions on one event only a reinstatement touches a cancelled one's status. */
  lemma TouchCancelled(s: State, a: Action, op: Op, cfg: Config)
    requires Can(s, a, op, cfg) && Touches(a) && s.events[a.k].status == Cancelled
    ensures Do(s, a, op, cfg).events[a.k].status == Cancelled || (op.ReinstateOp? && op.event == s.events[a.k].id)
  {
  }

  lemma {:induction false} PathEntombed(s: State, path: seq<Action>, op: Op, cfg: Config, id: Id, uid: string, key: string)
    requires Sound(s) && !(op.ReinstateOp? && op.event == id) && Entombed(s, id, uid, key) && uid != ""
    ensures Entombed(End(s, path, op, cfg), id, uid, key)
  {
    if path != [] {
      var t := End(s, path[..|path| - 1], op, cfg);
      PathEntombed(s, path[..|path| - 1], op, cfg, id, uid, key);
      PathSound(s, path[..|path| - 1], op, cfg);
      if Can(t, path[|path| - 1], op, cfg) {
        DoEntombed(t, path[|path| - 1], op, cfg, id, uid, key);
      }
    }
  }

  lemma StepEntombed(w: World, step: Step, cfg: Config, id: Id, uid: string, key: string)
    requires Sound(w.s) && !Reinstates(step, id) && Entombed(w.s, id, uid, key) && uid != ""
    ensures Entombed(Next(w, step, cfg).s, id, uid, key)
  {
    if step.Operate? {
      ApplyLeads(w.s, step.op, cfg);
      var path :| End(w.s, path, step.op, cfg) == Apply(w.s, step.op, cfg);
      PathEntombed(w.s, path, step.op, cfg, id, uid, key);
    } else {
      DeliveryLeaves(w, step, cfg);
    }
  }

  /** Deletion leaves it, and a reinstatement brings it back. */
  ghost predicate OnlyReinstatable(s: State, id: Id, cfg: Config, clock: Time) {
    DeleteSpec(s, id, cfg, clock) == (s, Refused) && ReinstateSpec(s, id, cfg, clock).1 == Done
  }

  lemma TombIsGuarded(s: State, id: Id, uid: string, key: string, cfg: Config, clock: Time)
    requires Entombed(s, id, uid, key) && uid != ""
    ensures OnlyReinstatable(s, id, cfg, clock)
  {
  }

  /**
    Along every run from a sound state a cancelled imported occurrence stays stored and
    cancelled, with no second event of its key, until it is reinstated by name, which at any
    point would work, while deleting it is refused.
  */
  lemma {:induction false} TombstonesHold(trace: seq<World>, steps: seq<Step>, n: nat, cfg: Config, id: Id, uid: string, key: string)
    requires Traces(trace, steps, cfg) && n <= |steps|
    requires Sound(trace[0].s) && Entombed(trace[0].s, id, uid, key) && uid != ""
    requires forall i | 0 <= i < n :: !Reinstates(steps[i], id)
    ensures Entombed(trace[n].s, id, uid, key) && Sound(trace[n].s)
    ensures key != "" ==> forall e | e in trace[n].s.events && e.sourceKey == key :: e.id == id
    ensures forall clock :: OnlyReinstatable(trace[n].s, id, cfg, clock)
  {
    if n > 0 {
      TombstonesHold(trace, steps, n - 1, cfg, id, uid, key);
      assert Linked(trace, steps, n - 1, cfg);
      StepEntombed(trace[n - 1], steps[n - 1], cfg, id, uid, key);
      SoundStep(trace[n - 1], steps[n - 1], cfg);
    }
    OneOfItsKey(trace[n].s, id, uid, key);
    forall clock ensures OnlyReinstatable(trace[n].s, id, cfg, clock) {
      TombIsGuarded(trace[n].s, id, uid, key, cfg, clock);
    }
  }

  lemma OneOfItsKey(s: State, id: Id, uid: string, key: string)
    requires Sound(s) && Entombed(s, id, uid, key)
    ensures key != "" ==> forall e | e in s.events && e.sourceKey == key :: e.id == id
  {
    var k := FindEvent(s.events, id);
    if key != "" {
      forall e | e in s.events && e.sourceKey == key ensures e.id == id {
        var j :| 0 <= j < |s.events| && s.events[j] == e;
        assert j == k;
      }
    }
  }
}
