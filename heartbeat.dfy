/**
 * The lease-renewal loop `heartbeat` of src/heartbeat.js.  It derives a beat
 * budget from the total hold time and then, beat by beat, extends the lock
 * until the budget is spent or the hold time has run out.  The clock and the
 * lock manager are oracles: `start` is the clock reading taken before the
 * loop, `now(i)` the one taken at the top of beat `i`, and `extend(i)` the
 * outcome of the extend request of beat `i` (`None` when it throws).
 */
module Heartbeat {
  import opened Wrappers

  const HeartbeatPeriodMs: nat := 1000
  const LockDuration: nat := 10 * 1000

  /** A lock as the lock manager hands it out; the loop only passes it along. */
  datatype Lock = Lock(resources: seq<string>, value: string, expiration: int)

  /**
   * One beat: the time it waits for, the lock it extends, the ttl and retry
   * count it asks for, and what the lock manager answered.
   */
  datatype Beat = Beat(waitUntil: int, lock: Lock, ttlMs: nat, retryCount: nat, result: Option<Lock>)

  /** The time the loop may run: the hold time less one lease. */
  function MaxRunTime(maxMs: int): (r: nat)
    ensures r >= maxMs - LockDuration
    ensures r == 0 || r == maxMs - LockDuration
  {
    if maxMs > LockDuration then maxMs - LockDuration else 0
  }

  /** `ceil(MaxRunTime(maxMs) / HeartbeatPeriodMs)`: the fewest periods covering the run time. */
  function MaxBeats(maxMs: int): (r: nat)
    ensures r * HeartbeatPeriodMs >= MaxRunTime(maxMs)
    ensures r == 0 || (r - 1) * HeartbeatPeriodMs < MaxRunTime(maxMs)
  {
    (MaxRunTime(maxMs) + HeartbeatPeriodMs - 1) / HeartbeatPeriodMs
  }

  /** No beat at all unless the hold time exceeds one lease; 20 beats for 30 seconds. */
  lemma MaxBeatsValues(maxMs: int)
    ensures MaxBeats(maxMs) == 0 <==> maxMs <= LockDuration
    ensures MaxBeats(30000) == 20
  {
  }

  /** What beat `i` waits for: `i + 1` periods after the start. */
  function WaitTarget(start: int, i: nat): int
  {
    start + (i + 1) * HeartbeatPeriodMs
  }

  /** The lock held after `n` beats: the last successful extension, or the original lock. */
  function HeldAfter(lock: Lock, extend: nat -> Option<Lock>, n: nat): (r: Lock)
    ensures r == lock || exists j :: 0 <= j < n && extend(j) == Some(r)
  {
    if n == 0 then lock
    else match extend(n - 1)
      case Some(renewed) => renewed
      case None => HeldAfter(lock, extend, n - 1)
  }

  /** While every extension fails, the original lock is still the one held. */
  lemma {:induction false} HeldAfterAllFailed(lock: Lock, extend: nat -> Option<Lock>, n: nat)
    requires forall j :: 0 <= j < n ==> extend(j).None?
    ensures HeldAfter(lock, extend, n) == lock
  {
    if n > 0 {
      HeldAfterAllFailed(lock, extend, n - 1);
    }
  }

  /**
   * A failed extension keeps the lock already held: after `n` beats the lock
   * is the one the latest successful beat `j` returned.
   */
  lemma {:induction false} HeldAfterLatestSuccess(lock: Lock, extend: nat -> Option<Lock>, n: nat, j: nat)
    requires j < n && extend(j).Some?
    requires forall k :: j < k < n ==> extend(k).None?
    ensures HeldAfter(lock, extend, n) == extend(j).value
  {
    if n - 1 > j {
      HeldAfterLatestSuccess(lock, extend, n - 1, j);
    }
  }

  /**
   * Beat `i` as the source issues it: it waits for its target time, then
   * extends the lock held so far by one lease, without retries.
   */
  function PlannedBeat(lock: Lock, start: int, extend: nat -> Option<Lock>, i: nat): Beat
  {
    Beat(WaitTarget(start, i), HeldAfter(lock, extend, i), LockDuration, 0, extend(i))
  }

  /**
   * Runs the loop.  `beats` are the extend requests in order and `held` the
   * lock at the end; `early` tells that the loop stopped because the hold
   * time ran out rather than because the budget was spent.
   */
  method Run(lock: Lock, maxMs: int, start: int, now: nat -> int, extend: nat -> Option<Lock>)
    returns (beats: seq<Beat>, held: Lock, early: bool)
    ensures |beats| <= MaxBeats(maxMs)
    ensures !early ==> |beats| == MaxBeats(maxMs)
    ensures early ==> |beats| < MaxBeats(maxMs) && start + maxMs <= now(|beats|)
    ensures forall i: nat :: i < |beats| ==> now(i) < start + maxMs
    ensures forall i: nat :: i < |beats| ==>
      beats[i] == PlannedBeat(lock, start, extend, i)
    ensures forall i: nat :: i < |beats| && extend(i).None? && i + 1 < MaxBeats(maxMs) && now(i + 1) < start + maxMs ==>
      i + 1 < |beats|
    ensures held == HeldAfter(lock, extend, |beats|)
  {
    var maxBeats := MaxBeats(maxMs);
    var end := start + maxMs;
    beats, held, early := [], lock, false;
    var i := 0;
    while i < maxBeats
      invariant 0 <= i <= maxBeats && |beats| == i
      invariant forall k: nat :: k < i ==> now(k) < end
      invariant forall k: nat :: k < i ==>
        beats[k] == PlannedBeat(lock, start, extend, k)
      invariant held == HeldAfter(lock, extend, i)
    {
      if end <= now(i) {
        early := true;
        return;
      }
      var until := WaitTarget(start, i);
      var result := extend(i);
      beats := beats + [Beat(until, held, LockDuration, 0, result)];
      if result.Some? {
        held := result.value;
      }
      i := i + 1;
    }
  }
}
