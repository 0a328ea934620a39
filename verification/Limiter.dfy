/**
  The token-bucket limiter (internal/httpapi/limiter.go) over exact arithmetic, and the
  limiter that never forgets a bucket, which it refines.
*/
module Limiter {
  import opened Options

  type Time = int

  const MAX_TRACKED_KEYS := 32768

  /** A bucket that was never used has no last time and starts full. */
  datatype Bucket = Bucket(tokens: real, last: Option<Time>)

  /** Tokens per bucket, and the time that refills a whole bucket. */
  datatype Rate = Rate(burst: real, window: int) {
    predicate Valid() {
      burst >= 0.0 && window > 0
    }

    function Full(): Bucket {
      Bucket(burst, None)
    }

    function Refill(elapsed: int): real
      requires window > 0
    {
      elapsed as real / window as real * burst
    }

    function Refilled(b: Bucket, now: Time): real
      requires window > 0
    {
      if b.last.None? then b.tokens
      else if b.tokens + Refill(now - b.last.value) > burst then burst
      else b.tokens + Refill(now - b.last.value)
    }

    function Take(b: Bucket, now: Time): (Bucket, bool)
      requires window > 0
    {
      var tokens := Refilled(b, now);
      if tokens < 1.0 then (Bucket(tokens, Some(now)), false) else (Bucket(tokens - 1.0, Some(now)), true)
    }
  }

  /** The tracked buckets, the time of the last sweep and the shared overflow bucket. */
  datatype State = State(seen: map<string, Bucket>, lastSweep: Option<Time>, overflow: Bucket)

  function Start(r: Rate): State {
    State(map[], None, r.Full())
  }

  /** Untouched for longer than the window. */
  predicate Idle(b: Bucket, now: Time, window: int) {
    b.last.None? || now - b.last.value > window
  }

  function Swept(st: State, now: Time, r: Rate): State {
    if st.lastSweep.Some? && now - st.lastSweep.value <= r.window then st
    else st.(seen := map k | k in st.seen && !Idle(st.seen[k], now, r.window) :: st.seen[k], lastSweep := Some(now))
  }

  /** Which bucket a call is charged to: the key's own, or the shared one once the map is full. */
  datatype Lane = Own(key: string) | Overflow

  function LaneIn(st: State, key: string): Lane {
    if key in st.seen || |st.seen| < MAX_TRACKED_KEYS then Own(key) else Overflow
  }

  function BucketOf(st: State, key: string, r: Rate): Bucket {
    if key in st.seen then st.seen[key] else r.Full()
  }

  function Allow(st: State, key: string, now: Time, r: Rate): (State, bool)
    requires r.window > 0
  {
    var swept := Swept(st, now, r);
    if LaneIn(swept, key).Overflow? then
      var (b, ok) := r.Take(swept.overflow, now);
      (swept.(overflow := b), ok)
    else
      var (b, ok) := r.Take(BucketOf(swept, key, r), now);
      (swept.(seen := swept.seen[key := b]), ok)
  }

  class Limiter {
    const rate: Rate
    var seen: map<string, Bucket>
    var lastSweep: Option<Time>
    var overflow: Bucket

    predicate Valid()
      reads this
    {
      rate.Valid() && |seen| <= MAX_TRACKED_KEYS
    }

    function St(): State
      reads this
    {
      State(seen, lastSweep, overflow)
    }

    constructor (burst: nat, window: int)
      requires window > 0
      ensures Valid() && rate == Rate(burst as real, window) && St() == Start(rate)
    {
      rate := Rate(burst as real, window);
      seen := map[];
      lastSweep := None;
      overflow := Bucket(burst as real, None);
    }

    /** Drops the idle buckets, at most once per window. */
    method Sweep(now: Time)
      requires Valid()
      modifies this
      ensures Valid() && St() == Swept(old(St()), now, rate)
    {
      if lastSweep.Some? && now - lastSweep.value <= rate.window {
        return;
      }
      var todo := seen.Keys;
      while todo != {}
        invariant todo <= old(seen).Keys
        invariant seen.Keys == set k | k in old(seen) && (k in todo || !Idle(old(seen)[k], now, rate.window))
        invariant forall k | k in seen :: seen[k] == old(seen)[k]
        invariant |seen| <= MAX_TRACKED_KEYS && overflow == old(overflow)
      {
        var k :| k in todo;
        todo := todo - {k};
        if Idle(seen[k], now, rate.window) {
          ghost var before := seen;
          seen := seen - {k};
          assert before.Keys == seen.Keys + {k};
        }
      }
      lastSweep := Some(now);
      assert St().seen == Swept(old(St()), now, rate).seen;
    }

    method Call(key: string, now: Time) returns (ok: bool)
      requires Valid()
      modifies this
      ensures Valid()
      ensures St() == Allow(old(St()), key, now, rate).0 && ok == Allow(old(St()), key, now, rate).1
    {
      Sweep(now);
      if key !in seen {
        if |seen| >= MAX_TRACKED_KEYS {
          var (b, admitted) := rate.Take(overflow, now);
          overflow := b;
          return admitted;
        }
        seen := seen[key := rate.Full()];
      }
      var (b, admitted) := rate.Take(seen[key], now);
      seen := seen[key := b];
      ok := admitted;
    }
  }

  // ---- runs ------------------------------------------------------------------

  datatype Call = Call(key: string, now: Time)

  function After(calls: seq<Call>, n: nat, r: Rate): State
    requires n <= |calls| && r.window > 0
  {
    if n == 0 then Start(r) else Allow(After(calls, n - 1, r), calls[n - 1].key, calls[n - 1].now, r).0
  }

  function Decision(calls: seq<Call>, i: nat, r: Rate): bool
    requires i < |calls| && r.window > 0
  {
    Allow(After(calls, i, r), calls[i].key, calls[i].now, r).1
  }

  function LaneOf(calls: seq<Call>, i: nat, r: Rate): Lane
    requires i < |calls| && r.window > 0
  {
    LaneIn(Swept(After(calls, i, r), calls[i].now, r), calls[i].key)
  }

  /** The bucket of a lane that is never swept: it has seen exactly the calls charged to it. */
  function Kept(calls: seq<Call>, n: nat, lane: Lane, r: Rate): Bucket
    requires n <= |calls| && r.window > 0
  {
    if n == 0 then r.Full()
    else if LaneOf(calls, n - 1, r) == lane then r.Take(Kept(calls, n - 1, lane, r), calls[n - 1].now).0
    else Kept(calls, n - 1, lane, r)
  }

  predicate Forward(calls: seq<Call>) {
    forall i, j | 0 <= i < j < |calls| :: calls[i].now <= calls[j].now
  }

  /** Tokens between none and a full bucket, used no later than now. */
  predicate Sane(b: Bucket, now: Time, r: Rate) {
    0.0 <= b.tokens <= r.burst && (b.last.Some? ==> b.last.value <= now)
  }

  lemma RefillGrows(r: Rate, a: int, b: int)
    requires r.Valid() && a <= b
    ensures r.Refill(a) <= r.Refill(b)
  {
    assert a as real / r.window as real <= b as real / r.window as real;
  }

  lemma RefillAdds(r: Rate, a: int, b: int)
    requires r.Valid()
    ensures r.Refill(a + b) == r.Refill(a) + r.Refill(b)
  {
    var w := r.window as real;
    assert (a + b) as real / w == a as real / w + b as real / w;
  }

  lemma RefillOfNothing(r: Rate)
    requires r.Valid()
    ensures r.Refill(0) == 0.0
  {
    assert (0 as real) / (r.window as real) == 0.0;
  }

  lemma RefillOfWindow(r: Rate)
    requires r.Valid()
    ensures r.Refill(r.window) == r.burst
  {
    assert r.window as real / r.window as real == 1.0;
  }

  lemma TakeSane(r: Rate, b: Bucket, before: Time, now: Time)
    requires r.Valid() && Sane(b, before, r) && before <= now
    ensures Sane(r.Take(b, now).0, now, r)
  {
    if b.last.Some? {
      RefillOfNothing(r);
      RefillGrows(r, 0, now - b.last.value);
    }
  }

  /** An idle bucket has refilled: dropping it and starting a full one makes no difference. */
  lemma IdleIsFull(r: Rate, b: Bucket, swept: Time, now: Time)
    requires r.Valid() && Sane(b, swept, r) && Idle(b, swept, r.window) && swept <= now
    requires b.last.None? ==> b == r.Full()
    ensures r.Take(b, now) == r.Take(r.Full(), now)
  {
    if b.last.Some? {
      RefillOfWindow(r);
      RefillGrows(r, r.window, now - b.last.value);
    }
  }

  /** What the limiter holds of a key: the never-swept bucket, or nothing while that one is as good as full. */
  predicate Tracks(calls: seq<Call>, n: nat, r: Rate, key: string, now: Time)
    requires n <= |calls| && r.window > 0
  {
    var st := After(calls, n, r);
    var b := Kept(calls, n, Own(key), r);
    && Sane(b, now, r) && (b.last.None? ==> b == r.Full())
    && if key in st.seen then st.seen[key] == b && b.last.Some? else Idle(b, now, r.window)
  }

  ghost predicate Refines(calls: seq<Call>, n: nat, r: Rate, now: Time)
    requires n <= |calls| && r.window > 0
  {
    && (forall key {:trigger Tracks(calls, n, r, key, now)} :: Tracks(calls, n, r, key, now))
    && After(calls, n, r).overflow == Kept(calls, n, Overflow, r) && Sane(After(calls, n, r).overflow, now, r)
  }

  lemma KeyStep(calls: seq<Call>, n: nat, r: Rate, key: string, before: Time)
    requires r.Valid() && n < |calls| && before <= calls[n].now
    requires Tracks(calls, n, r, key, before)
    ensures Tracks(calls, n + 1, r, key, calls[n].now)
    ensures LaneOf(calls, n, r) == Own(key) ==> Decision(calls, n, r) == r.Take(Kept(calls, n, Own(key), r), calls[n].now).1
  {
    var st := After(calls, n, r);
    var now := calls[n].now;
    var b := Kept(calls, n, Own(key), r);
    var swept := Swept(st, now, r);
    if LaneOf(calls, n, r) == Own(key) {
      TakeSane(r, b, before, now);
      if key !in swept.seen {
        if key in st.seen {
          IdleIsFull(r, b, now, now);
        } else {
          IdleIsFull(r, b, before, now);
        }
      }
    }
  }

  lemma OverflowStep(calls: seq<Call>, n: nat, r: Rate, before: Time)
    requires r.Valid() && n < |calls| && before <= calls[n].now
    requires After(calls, n, r).overflow == Kept(calls, n, Overflow, r) && Sane(After(calls, n, r).overflow, before, r)
    ensures After(calls, n + 1, r).overflow == Kept(calls, n + 1, Overflow, r) && Sane(After(calls, n + 1, r).overflow, calls[n].now, r)
    ensures LaneOf(calls, n, r).Overflow? ==> Decision(calls, n, r) == r.Take(Kept(calls, n, Overflow, r), calls[n].now).1
  {
    if LaneOf(calls, n, r).Overflow? {
      TakeSane(r, Kept(calls, n, Overflow, r), before, calls[n].now);
    }
  }

  lemma {:induction false} AlwaysRefines(calls: seq<Call>, n: nat, r: Rate, now: Time)
    requires r.Valid() && Forward(calls) && n <= |calls|
    requires n > 0 ==> now == calls[n - 1].now
    ensures Refines(calls, n, r, now)
  {
    if n == 0 {
      forall key ensures Tracks(calls, 0, r, key, now) {
      }
    } else {
      var before := if n > 1 then calls[n - 2].now else now;
      AlwaysRefines(calls, n - 1, r, before);
      forall key ensures Tracks(calls, n, r, key, now) {
        assert Tracks(calls, n - 1, r, key, before);
        KeyStep(calls, n - 1, r, key, before);
      }
      OverflowStep(calls, n - 1, r, before);
    }
  }

  /** Every decision is the one of the never-swept bucket the call is charged to. */
  lemma SweepingChangesNothing(calls: seq<Call>, i: nat, r: Rate)
    requires r.Valid() && Forward(calls) && i < |calls|
    ensures Decision(calls, i, r) == r.Take(Kept(calls, i, LaneOf(calls, i, r), r), calls[i].now).1
  {
    var before := if i > 0 then calls[i - 1].now else calls[i].now;
    AlwaysRefines(calls, i, r, before);
    assert Tracks(calls, i, r, calls[i].key, before);
    KeyStep(calls, i, r, calls[i].key, before);
    OverflowStep(calls, i, r, before);
  }

  /** A bucket per key, never swept and never shared. */
  function Ideal(calls: seq<Call>, n: nat, key: string, r: Rate): Bucket
    requires n <= |calls| && r.window > 0
  {
    if n == 0 then r.Full()
    else if calls[n - 1].key == key then r.Take(Ideal(calls, n - 1, key, r), calls[n - 1].now).0
    else Ideal(calls, n - 1, key, r)
  }

  predicate CapNotHit(calls: seq<Call>, r: Rate)
    requires r.window > 0
  {
    forall i | 0 <= i < |calls| :: LaneOf(calls, i, r).Own?
  }

  lemma {:induction false} KeptIsIdeal(calls: seq<Call>, n: nat, key: string, r: Rate)
    requires r.window > 0 && n <= |calls| && CapNotHit(calls, r)
    ensures Kept(calls, n, Own(key), r) == Ideal(calls, n, key, r)
  {
    if n > 0 {
      KeptIsIdeal(calls, n - 1, key, r);
      assert LaneOf(calls, n - 1, r) == Own(calls[n - 1].key);
    }
  }

  /** While the cap is not hit the limiter decides like one bucket per key that is never swept. */
  lemma RefinesNeverForgetting(calls: seq<Call>, i: nat, r: Rate)
    requires r.Valid() && Forward(calls) && CapNotHit(calls, r) && i < |calls|
    ensures Decision(calls, i, r) == r.Take(Ideal(calls, i, calls[i].key, r), calls[i].now).1
  {
    SweepingChangesNothing(calls, i, r);
    KeptIsIdeal(calls, i, calls[i].key, r);
    assert LaneOf(calls, i, r) == Own(calls[i].key);
  }

  lemma SweptSmaller(st: State, now: Time, r: Rate)
    ensures |Swept(st, now, r).seen| <= |st.seen|
  {
    var kept := Swept(st, now, r).seen;
    assert kept.Keys <= st.seen.Keys;
    SubsetSize(kept.Keys, st.seen.Keys);
    assert |kept| == |kept.Keys| && |st.seen| == |st.seen.Keys|;
  }

  lemma {:induction false} SubsetSize<T>(a: set<T>, b: set<T>)
    requires a <= b
    ensures |a| <= |b|
    decreases |a|
  {
    if a != {} {
      var x :| x in a;
      SubsetSize(a - {x}, b - {x});
    }
  }

  /** Whatever the calls and the clock do, the map stays within its cap. */
  lemma {:induction false} MapStaysSmall(calls: seq<Call>, n: nat, r: Rate)
    requires r.window > 0 && n <= |calls|
    ensures |After(calls, n, r).seen| <= MAX_TRACKED_KEYS
  {
    if n > 0 {
      var st := After(calls, n - 1, r);
      MapStaysSmall(calls, n - 1, r);
      SweptSmaller(st, calls[n - 1].now, r);
      var swept := Swept(st, calls[n - 1].now, r);
      var key := calls[n - 1].key;
      var after := After(calls, n, r).seen;
      if key !in swept.seen && LaneIn(swept, key).Own? {
        assert after.Keys == swept.seen.Keys + {key};
        assert |after| == |after.Keys|;
      } else if key in swept.seen {
        assert after.Keys == swept.seen.Keys;
        assert |after| == |after.Keys| && |swept.seen| == |swept.seen.Keys|;
      }
    }
  }

  // ---- how much a bucket lets through ----------------------------------------

  /** The calls from i to j (not included) charged to the lane and admitted. */
  function Admitted(calls: seq<Call>, i: nat, j: nat, lane: Lane, r: Rate): nat
    requires i <= j <= |calls| && r.window > 0
  {
    if i == j then 0
    else Admitted(calls, i, j - 1, lane, r) + if LaneOf(calls, j - 1, r) == lane && Decision(calls, j - 1, r) then 1 else 0
  }

  /** Tokens left plus calls admitted never exceed a full bucket plus the refill since the start. */
  predicate Banked(b: Bucket, admitted: nat, since: Time, r: Rate)
    requires r.window > 0
  {
    && 0.0 <= b.tokens <= r.burst
    && if b.last.None? || b.last.value < since then admitted == 0
       else b.tokens + admitted as real <= r.burst + r.Refill(b.last.value - since)
  }

  lemma BankedStep(b: Bucket, admitted: nat, since: Time, now: Time, r: Rate)
    requires r.Valid() && Banked(b, admitted, since, r) && since <= now && (b.last.Some? ==> b.last.value <= now)
    ensures var (c, ok) := r.Take(b, now);
      Banked(c, admitted + if ok then 1 else 0, since, r)
  {
    RefillOfNothing(r);
    RefillGrows(r, 0, now - since);
    if b.last.Some? {
      RefillGrows(r, 0, now - b.last.value);
      if b.last.value >= since {
        RefillAdds(r, now - b.last.value, b.last.value - since);
      }
    }
  }

  lemma {:induction false} KeptSane(calls: seq<Call>, n: nat, lane: Lane, r: Rate, now: Time)
    requires r.Valid() && Forward(calls) && n <= |calls|
    requires n > 0 ==> calls[n - 1].now <= now
    ensures Sane(Kept(calls, n, lane, r), now, r)
  {
    if n > 0 {
      KeptSane(calls, n - 1, lane, r, calls[n - 1].now);
      TakeSane(r, Kept(calls, n - 1, lane, r), calls[n - 1].now, calls[n - 1].now);
    }
  }

  lemma {:induction false} LaneBanked(calls: seq<Call>, i: nat, j: nat, lane: Lane, r: Rate, since: Time)
    requires r.Valid() && Forward(calls) && i < j <= |calls| && since == calls[i].now
    ensures Banked(Kept(calls, j, lane, r), Admitted(calls, i, j, lane, r), since, r)
  {
    if j - 1 == i {
      KeptSane(calls, i, lane, r, since);
      BankedStart(Kept(calls, i, lane, r), since, r);
    } else {
      LaneBanked(calls, i, j - 1, lane, r, since);
    }
    LaneBankedStep(calls, i, j - 1, lane, r, since);
  }

  lemma BankedStart(b: Bucket, since: Time, r: Rate)
    requires r.Valid() && Sane(b, since, r)
    ensures Banked(b, 0, since, r)
  {
    RefillOfNothing(r);
  }

  lemma LaneBankedStep(calls: seq<Call>, i: nat, k: nat, lane: Lane, r: Rate, since: Time)
    requires r.Valid() && Forward(calls) && i <= k < |calls| && since == calls[i].now
    requires Banked(Kept(calls, k, lane, r), Admitted(calls, i, k, lane, r), since, r)
    ensures Banked(Kept(calls, k + 1, lane, r), Admitted(calls, i, k + 1, lane, r), since, r)
  {
    if LaneOf(calls, k, r) == lane {
      KeptSane(calls, k, lane, r, calls[k].now);
      SweepingChangesNothing(calls, k, r);
      BankedStep(Kept(calls, k, lane, r), Admitted(calls, i, k, lane, r), since, calls[k].now, r);
    }
  }

  /**
    No bucket, the shared overflow one included, admits more than a full burst plus what refills
    in the interval its calls fall into.
  */
  lemma AdmissionBound(calls: seq<Call>, i: nat, j: nat, lane: Lane, r: Rate, span: int)
    requires r.Valid() && Forward(calls) && i < j <= |calls| && calls[j - 1].now - calls[i].now <= span
    ensures Admitted(calls, i, j, lane, r) as real <= r.burst + r.Refill(span)
  {
    var since := calls[i].now;
    LaneBanked(calls, i, j, lane, r, since);
    KeptSane(calls, j, lane, r, calls[j - 1].now);
    RefillOfNothing(r);
    RefillGrows(r, 0, span);
    var b := Kept(calls, j, lane, r);
    if b.last.Some? && b.last.value >= since {
      RefillGrows(r, b.last.value - since, span);
    }
  }
}
