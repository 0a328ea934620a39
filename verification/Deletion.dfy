/**
  When an imported event may be deleted: never because the import is switched off. Only a mark
  set by a sync opens the way, and without a sync no mark is ever set.
*/
module Deletion {
  import opened Options
  import opened Core
  import opened Transitions
  import opened Delivery
  import opened CalendarSync
  import opened Operations
  import opened Actions
  import opened Coverage
  import opened Rows
  import opened Protocol
  import opened Cycles
  import opened Silence
  import SyncResults

  // ---- exactly when ----------------------------------------------------------

  /** The feed has dropped it, it is over, nobody cancelled it, and no notice of it is on its way. */
  predicate Ghost(s: State, e: Event, cfg: Config, clock: Time) {
    e.status != Cancelled && e.vanishedAt.Some? && e.End() < clock && FanOutInFlight(s, e, cfg) == 0
  }

  /**
    A stored imported event is deleted exactly when it is such a ghost, whatever the configuration
    says about the import; otherwise the deletion is refused and changes nothing.
  */
  lemma ImportedDeletedIff(s: State, id: Id, cfg: Config, clock: Time)
    requires Of(s, id).Some? && Of(s, id).value.sourceUid != ""
    ensures DeleteSpec(s, id, cfg, clock).1 == Done <==> Ghost(s, Of(s, id).value, cfg, clock)
    ensures !Ghost(s, Of(s, id).value, cfg, clock) ==> DeleteSpec(s, id, cfg, clock) == (s, Refused)
    ensures DeleteSpec(s, id, cfg, clock).1 == Done ==>
      forall e :: e in DeleteSpec(s, id, cfg, clock).0.events <==> e in s.events && e.id != id
  {
    FilterMembers(s.events, id);
  }

  // ---- without a sync --------------------------------------------------------

  /** Imported, stored, and not marked as dropped by the feed. */
  predicate Unmarked(s: State, id: Id, uid: string) {
    Of(s, id).Some? && Of(s, id).value.sourceUid == uid && Of(s, id).value.vanishedAt.None?
  }

  predicate IsSync(step: Step) {
    step.Operate? && step.op.SyncOp?
  }

  lemma TouchKeepsMark(s: State, a: Action, op: Op, cfg: Config)
    requires Can(s, a, op, cfg) && Touches(a) && !op.SyncOp?
    ensures Do(s, a, op, cfg).events[a.k].vanishedAt == s.events[a.k].vanishedAt
  {
  }

  lemma TouchUnmarked(s: State, a: Action, op: Op, cfg: Config, id: Id, uid: string)
    requires Can(s, a, op, cfg) && Touches(a) && !op.SyncOp? && Unmarked(s, id, uid)
    ensures Unmarked(Do(s, a, op, cfg), id, uid)
  {
    TouchKeeps(s, a, op, cfg);
    TouchKeepsMark(s, a, op, cfg);
    FindReplaced(s.events, a.k, Do(s, a, op, cfg).events[a.k], id);
  }

  /** The deletion of another event. */
  lemma ForgetUnmarked(s: State, gone: Id, id: Id, uid: string)
    requires Sound(s) && gone != id && Unmarked(s, id, uid)
    ensures Unmarked(DropRowsOf(s, gone), id, uid)
  {
    FilterMembers(s.events, gone);
    FilterDistinct(s.events, gone);
    OfMember(DropRowsOf(s, gone), Of(s, id).value);
  }

  lemma DoUnmarked(s: State, a: Action, op: Op, cfg: Config, id: Id, uid: string)
    requires Sound(s) && Can(s, a, op, cfg) && !op.SyncOp? && Unmarked(s, id, uid) && uid != ""
    ensures Unmarked(Do(s, a, op, cfg), id, uid)
  {
    if a.Enrol? {
      FindAppended(s.events, a.e, id);
    } else if a.Forget? {
      ForgetUnmarked(s, a.id, id, uid);
    } else if Touches(a) {
      TouchUnmarked(s, a, op, cfg, id, uid);
    }
  }

  lemma {:induction false} PathUnmarked(s: State, path: seq<Action>, op: Op, cfg: Config, id: Id, uid: string)
    requires Sound(s) && !op.SyncOp? && Unmarked(s, id, uid) && uid != ""
    ensures Unmarked(End(s, path, op, cfg), id, uid)
  {
    if path != [] {
      var t := End(s, path[..|path| - 1], op, cfg);
      PathUnmarked(s, path[..|path| - 1], op, cfg, id, uid);
      PathSound(s, path[..|path| - 1], op, cfg);
      if Can(t, path[|path| - 1], op, cfg) {
        DoUnmarked(t, path[|path| - 1], op, cfg, id, uid);
      }
    }
  }

  lemma StepUnmarked(w: World, step: Step, cfg: Config, id: Id, uid: string)
    requires Sound(w.s) && !IsSync(step) && Unmarked(w.s, id, uid) && uid != ""
    ensures Unmarked(Next(w, step, cfg).s, id, uid)
  {
    if step.Operate? {
      ApplyLeads(w.s, step.op, cfg);
      var path :| End(w.s, path, step.op, cfg) == Apply(w.s, step.op, cfg);
      PathUnmarked(w.s, path, step.op, cfg, id, uid);
    } else {
      DeliveryLeaves(w, step, cfg);
    }
  }

  ghost predicate NeverDeletable(s: State, id: Id) {
    forall cfg, clock :: DeleteSpec(s, id, cfg, clock) == (s, Refused)
  }

  lemma UnmarkedStays(s: State, id: Id, uid: string)
    requires Unmarked(s, id, uid) && uid != ""
    ensures NeverDeletable(s, id)
  {
    forall cfg, clock ensures DeleteSpec(s, id, cfg, clock) == (s, Refused) {
      ImportedDeletedIff(s, id, cfg, clock);
    }
  }

  /**
    Along every run without a sync an imported event that is not marked stays stored and
    unmarked, however long it is over and whatever is done to it, and at every point its deletion
    is refused, at any time and under any configuration.
  */
  lemma {:induction false} NoSyncNoDeletion(trace: seq<World>, steps: seq<Step>, n: nat, cfg: Config, id: Id, uid: string)
    requires Traces(trace, steps, cfg) && n <= |steps|
    requires Sound(trace[0].s) && Unmarked(trace[0].s, id, uid) && uid != ""
    requires forall i | 0 <= i < n :: !IsSync(steps[i])
    ensures Sound(trace[n].s) && Unmarked(trace[n].s, id, uid) && NeverDeletable(trace[n].s, id)
  {
    if n > 0 {
      NoSyncNoDeletion(trace, steps, n - 1, cfg, id, uid);
      assert Linked(trace, steps, n - 1, cfg);
      StepUnmarked(trace[n - 1], steps[n - 1], cfg, id, uid);
      SoundStep(trace[n - 1], steps[n - 1], cfg);
    }
    UnmarkedStays(trace[n].s, id, uid);
  }

  // ---- a state to see it at --------------------------------------------------

  const PAST: Occurrence := Occurrence("past/1", "past", "past", "", 1, Some(2))
  const CALLED_OFF: Occurrence := Occurrence("off/1", "off", "off", "", 1, Some(2))

  /** A sync brings two events, and one of them is cancelled. */
  function ImportedThenCancelled(): seq<Step> {
    [Operate(SyncOp([PAST, CALLED_OFF], 0, 0)), Operate(CancelOp(1, None, 0))]
  }

  function Imported(id: Id, o: Occurrence): Event {
    NewEvent(id, o.summary, o.location, o.start, o.end, false, o.uid, o.key, 0)
  }

  /** Nothing that a new event would call or inherit. */
  predicate Bare(s: State) {
    s.webhooks == [] && s.series == []
  }

  lemma SyncNewBare(s: State, rep: Report, o: Occurrence, cfg: Config)
    requires Bare(s) && o.summary != "" && FindKey(s.events, o.key) == |s.events|
    ensures var t := SyncOne(s, rep, o, cfg, 0).0;
      t.events == s.events + [Imported(s.nextId, o)] && t.nextId == s.nextId + 1 && Bare(t)
  {
  }

  lemma SyncPair(s: State, rep: Report, a: Occurrence, b: Occurrence, cfg: Config)
    ensures var (t, rep') := SyncOne(s, rep, a, cfg, 0);
      SyncAll(s, rep, [a, b], cfg, 0) == SyncOne(t, rep', b, cfg, 0)
  {
    var (t, rep') := SyncOne(s, rep, a, cfg, 0);
    var (u, rep'') := SyncOne(t, rep', b, cfg, 0);
    assert [a, b][1..] == [b] && [b][1..] == [];
    assert SyncAll(u, rep'', [], cfg, 0) == (u, rep'');
    assert SyncAll(t, rep', [b], cfg, 0) == (u, rep'');
  }

  lemma SyncTwo(cfg: Config)
    ensures var t := SyncAll(EMPTY_STATE, NO_REPORT, [PAST, CALLED_OFF], cfg, 0).0;
      t.events == [Imported(0, PAST), Imported(1, CALLED_OFF)]
  {
    var (s, rep) := SyncOne(EMPTY_STATE, NO_REPORT, PAST, cfg, 0);
    SyncPair(EMPTY_STATE, NO_REPORT, PAST, CALLED_OFF, cfg);
    SyncNewBare(EMPTY_STATE, NO_REPORT, PAST, cfg);
    SecondIsNew(s);
    SyncNewBare(s, rep, CALLED_OFF, cfg);
  }

  lemma SecondIsNew(s: State)
    requires s.events == [Imported(0, PAST)]
    ensures FindKey(s.events, CALLED_OFF.key) == |s.events|
  {
    assert PAST.key[0] != CALLED_OFF.key[0];
  }

  lemma CarriedIsKept(e: Event, occs: seq<Occurrence>, o: Occurrence)
    requires o in occs && e.sourceKey == o.key
    ensures SyncResults.Swept(e, occs, 0, 0) == e
  {
    assert o.key in KeysOf(occs);
  }

  lemma SweptTwo(s: State, rep: Report)
    requires s.events == [Imported(0, PAST), Imported(1, CALLED_OFF)]
    ensures SweepFrom(s, rep, [], 0, [PAST, CALLED_OFF], 0, 0).0.events == s.events
  {
    var occs := [PAST, CALLED_OFF];
    CarriedIsKept(s.events[0], occs, occs[0]);
    CarriedIsKept(s.events[1], occs, occs[1]);
    SyncResults.SweepMarks(s, rep, [], 0, occs, 0, 0);
  }

  lemma NothingMissing(cfg: Config)
    ensures Apply(EMPTY_STATE, SyncOp([PAST, CALLED_OFF], 0, 0), cfg).events == [Imported(0, PAST), Imported(1, CALLED_OFF)]
  {
    var op := SyncOp([PAST, CALLED_OFF], 0, 0);
    var (synced, rep) := SyncAll(EMPTY_STATE, NO_REPORT, op.occs, cfg, 0);
    SyncTwo(cfg);
    SweptTwo(synced, rep);
    var swept := SyncResults.SweptOnly(EMPTY_STATE, op, cfg);
  }

  lemma CancelledSecond(s: State, cfg: Config)
    requires s.events == [Imported(0, PAST), Imported(1, CALLED_OFF)]
    ensures var t := Apply(s, CancelOp(1, None, 0), cfg);
      && |t.events| == 2 && t.events[0] == Imported(0, PAST)
      && t.events[1].id == 1 && t.events[1].status == Cancelled && t.events[1].sourceUid == CALLED_OFF.uid
      && t.events[1].endsAt == CALLED_OFF.end
  {
    assert FindEvent(s.events, 1) == 1;
  }

  /**
    With the import switched off the program still refuses to delete an imported event that is long
    over and unmarked, and one that was cancelled.
  */
  lemma ImportOffStillRefuses(on: Config, off: Config, clock: Time)
    requires off.calendarSource == "" && clock > 2
    ensures var s := Run(ImportedThenCancelled(), on).s;
      && Of(s, 0).Some? && Of(s, 1).Some?
      && var past, cancelled := Of(s, 0).value, Of(s, 1).value;
      && past.status == Scheduled && past.sourceUid != "" && past.vanishedAt.None? && past.End() < clock
      && cancelled.status == Cancelled && cancelled.sourceUid != "" && cancelled.End() < clock
      && DeleteSpec(s, 0, off, clock) == (s, Refused) && DeleteSpec(s, 1, off, clock) == (s, Refused)
  {
    var steps := ImportedThenCancelled();
    var synced := Apply(EMPTY_STATE, SyncOp([PAST, CALLED_OFF], 0, 0), on);
    assert steps[..1][..0] == [] && steps[..1] == [steps[0]];
    assert Run(steps[..1], on).s == synced;
    NothingMissing(on);
    CancelledSecond(synced, on);
    var s := Run(steps, on).s;
    assert s == Apply(synced, CancelOp(1, None, 0), on);
    assert FindEvent(s.events, 0) == 0 && FindEvent(s.events, 1) == 1;
    ImportedDeletedIff(s, 0, off, clock);
    ImportedDeletedIff(s, 1, off, clock);
  }
}
