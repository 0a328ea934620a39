/**
  Who goes first: in every run a whole-outbox pass sends a later row to a recipient ahead of an
  earlier undelivered one only when that one was in backoff or out of attempts.
*/
module Overtaking {
  import opened Options
  import opened Core
  import opened Delivery
  import opened Actions
  import opened Rows
  import opened Protocol
  import opened ProtocolResults

  // ---- the log of a pass is complete -----------------------------------------

  /** The k-th send of pass p is in the log. */
  ghost predicate Logged(w: World, p: nat, k: nat) {
    exists i: nat :: i < |w.log| && w.log[i].pass == p && w.log[i].pos == k
  }

  /** The log holds exactly the sends that have returned. */
  ghost predicate Complete(w: World) {
    && (forall i | 0 <= i < |w.log| :: w.log[i].pass < |w.passes| && w.log[i].pos < |w.passes[w.log[i].pass].results|)
    && (forall p: nat, k: nat | p < |w.passes| && k < |w.passes[p].results| :: Logged(w, p, k))
  }

  lemma CompleteSame(w: World, v: World)
    requires Complete(w) && v.log == w.log && |w.passes| <= |v.passes|
    requires forall p | 0 <= p < |w.passes| :: v.passes[p].results == w.passes[p].results
    requires forall p | |w.passes| <= p < |v.passes| :: v.passes[p].results == []
    ensures Complete(v)
  {
    forall p: nat, k: nat | p < |v.passes| && k < |v.passes[p].results| ensures Logged(v, p, k) {
      assert Logged(w, p, k);
    }
  }

  lemma LoggedMore(w: World, v: World, p: nat, k: nat)
    requires Logged(w, p, k) && |w.log| <= |v.log| && v.log[..|w.log|] == w.log
    ensures Logged(v, p, k)
  {
    var i: nat :| i < |w.log| && w.log[i].pass == p && w.log[i].pos == k;
    assert v.log[i] == v.log[..|w.log|][i];
  }

  lemma CompleteSend(w: World, p: nat, ok: bool)
    requires Complete(w) && CanSend(w, p)
    ensures Complete(SendStep(w, p, ok))
  {
    var v := SendStep(w, p, ok);
    var n := |w.log|;
    forall q: nat, k: nat | q < |v.passes| && k < |v.passes[q].results| ensures Logged(v, q, k) {
      if q == p && k == |w.passes[p].results| {
        assert v.log[n].pass == q && v.log[n].pos == k;
      } else {
        LoggedMore(w, v, q, k);
      }
    }
  }

  lemma CompleteStep(w: World, step: Step, cfg: Config)
    requires Complete(w)
    ensures Complete(Next(w, step, cfg))
  {
    if step.SendReturns? && CanSend(w, step.p) {
      CompleteSend(w, step.p, step.ok);
    } else {
      CompleteSame(w, Next(w, step, cfg));
    }
  }

  lemma {:induction false} AlwaysComplete(steps: seq<Step>, cfg: Config)
    ensures Complete(Run(steps, cfg))
  {
    if steps != [] {
      AlwaysComplete(steps[..|steps| - 1], cfg);
      CompleteStep(Run(steps[..|steps| - 1], cfg), steps[|steps| - 1], cfg);
    }
  }

  // ---- what a pass collected stays -------------------------------------------

  predicate KeepsAttempts(w: World, v: World) {
    |w.passes| <= |v.passes| && forall p | 0 <= p < |w.passes| :: v.passes[p].attempts == w.passes[p].attempts
  }

  lemma StepKeepsAttempts(w: World, step: Step, cfg: Config)
    ensures KeepsAttempts(w, Next(w, step, cfg))
  {
  }

  lemma KeepsTrans(u: World, v: World, w: World)
    requires KeepsAttempts(u, v) && KeepsAttempts(v, w)
    ensures KeepsAttempts(u, w)
  {
  }

  lemma {:induction false} RunKeepsAttempts(steps: seq<Step>, m: nat, cfg: Config)
    requires m <= |steps|
    ensures KeepsAttempts(Run(steps[..m], cfg), Run(steps, cfg))
    decreases |steps|
  {
    if m == |steps| {
      assert steps[..m] == steps;
    } else {
      var n := |steps| - 1;
      assert steps[..n][..m] == steps[..m];
      RunKeepsAttempts(steps[..n], m, cfg);
      StepKeepsAttempts(Run(steps[..n], cfg), steps[n], cfg);
      KeepsTrans(Run(steps[..m], cfg), Run(steps[..n], cfg), Run(steps, cfg));
    }
  }

  /** The attempts of the pass a step has opened, at the end of the run. */
  lemma CollectedStays(steps: seq<Step>, m: nat, cfg: Config)
    requires m < |steps| && steps[m].CollectPass?
    ensures var before, after := Run(steps[..m], cfg), Run(steps, cfg);
      && |before.passes| < |after.passes|
      && after.passes[|before.passes|].attempts
         == Picked(before.s.outbox, steps[m].now, steps[m].only, before.s.sendingTo, cfg)
  {
    assert steps[..m + 1][..m] == steps[..m];
    RunKeepsAttempts(steps, m + 1, cfg);
  }

  // ---- overtaking ------------------------------------------------------------

  /** What makes a pass leave an undelivered row to a free recipient alone. */
  predicate HeldBack(o: Item, now: Time, cfg: Config) {
    o.nextAttempt > now || o.attempts >= cfg.maxAttempts
  }

  /** A pass that takes one row takes every earlier row to its recipient that is not held back, and first. */
  lemma PickedInOrder(outbox: seq<Item>, next: Id, now: Time, sendingTo: map<Address, int>, cfg: Config, i: nat, l: nat)
    requires Ordered(outbox, next) && i < |outbox| && !outbox[i].Delivered() && !HeldBack(outbox[i], now, cfg)
    requires var attempts := Picked(outbox, now, None, sendingTo, cfg);
      l < |attempts| && outbox[i].id < attempts[l].id && RecipientKey(outbox[i].kind, outbox[i].to) == Who(attempts[l])
    ensures var attempts := Picked(outbox, now, None, sendingTo, cfg);
      exists k: nat :: k < l && attempts[k].id == outbox[i].id
  {
    var at := PickedAt(outbox, now, None, sendingTo, cfg);
    var attempts := Picked(outbox, now, None, sendingTo, cfg);
    PickedRows(outbox, now, None, sendingTo, cfg);
    var j := at[l];
    assert attempts[l] == AttemptOf(outbox[j]) && Picks(outbox[j], now, None, sendingTo, cfg);
    assert Picks(outbox[i], now, None, sendingTo, cfg);
    var k: nat :| k < |at| && at[k] == i;
    assert attempts[k].id == outbox[i].id;
    assert i < j;
  }

  /** Of two positions of one pass in the log the lower was sent first. */
  lemma LowerWasFirst(w: World, i: nat, k: nat) returns (j: nat)
    requires InOrder(w) && Complete(w) && i < |w.log| && k < w.log[i].pos
    ensures j < i && w.log[j].pass == w.log[i].pass && w.log[j].pos == k
  {
    var p := w.log[i].pass;
    assert k < |w.passes[p].results| && Logged(w, p, k);
    j :| 0 <= j < |w.log| && w.log[j].pass == p && w.log[j].pos == k;
  }

  /**
    Let a step of a run open a whole-outbox pass, and let that pass have sent a row to some
    recipient. Every earlier row to that recipient that was undelivered when the pass was
    opened was in backoff or out of attempts then, or was sent by this pass before.
  */
  lemma OvertakingNeedsBackoff(steps: seq<Step>, m: nat, cfg: Config, i: nat, id: Id)
    requires m < |steps| && steps[m].CollectPass? && steps[m].only.None?
    requires var w := Run(steps, cfg); i < |w.log| && w.log[i].pass == |Run(steps[..m], cfg).passes|
    requires var earlier := Row(Run(steps[..m], cfg).s.outbox, id);
      && earlier.Some? && !earlier.value.Delivered() && id < Run(steps, cfg).log[i].id
      && RecipientKey(earlier.value.kind, earlier.value.to) == Run(steps, cfg).log[i].who
    ensures var w := Run(steps, cfg);
      || HeldBack(Row(Run(steps[..m], cfg).s.outbox, id).value, steps[m].now, cfg)
      || exists j: nat :: j < i && w.log[j].pass == w.log[i].pass && w.log[j].id == id
  {
    var before, w := Run(steps[..m], cfg), Run(steps, cfg);
    var p, now := |before.passes|, steps[m].now;
    var row := FindItem(before.s.outbox, id);
    AlwaysSafe(steps[..m], cfg);
    AlwaysInOrder(steps, cfg);
    AlwaysComplete(steps, cfg);
    CollectedStays(steps, m, cfg);
    assert SentBy(w, w.log[i]);
    if !HeldBack(before.s.outbox[row], now, cfg) {
      PickedInOrder(before.s.outbox, before.s.nextId, now, before.s.sendingTo, cfg, row, w.log[i].pos);
      var k: nat :| k < w.log[i].pos && w.passes[p].attempts[k].id == id;
      var j := LowerWasFirst(w, i, k);
      assert SentBy(w, w.log[j]);
    }
  }
}
