/** Time bookkeeping shared by both pumps' timed runs. Time is the
    32-bit millisecond counter millis(), passed in as `now`. */
module Timing {
  import opened Ints

  /** Whole seconds since `start`: the unsigned long difference
      (now - start), which wraps modulo 2^32, divided by 1000. */
  function ElapsedSeconds(now: U32, start: U32): (r: nat)
    ensures start <= now ==> r * 1000 <= now - start < r * 1000 + 1000
    ensures now < start ==> r * 1000 <= now - start + U32_LIMIT < r * 1000 + 1000
  {
    ((now - start) % U32_LIMIT) / 1000
  }

  /** The saturating difference duration - elapsed of getRemainingTime. */
  function RemainingSeconds(duration: U32, elapsed: nat): (r: U32)
    ensures r <= duration
    ensures r == 0 <==> elapsed >= duration
    ensures r > 0 ==> r + elapsed == duration
  {
    if duration > elapsed then duration - elapsed else 0
  }

  /** d whole seconds have elapsed exactly when the wrapped difference
      has reached d * 1000 milliseconds. */
  lemma ElapsedReached(now: U32, start: U32, d: nat)
    ensures ElapsedSeconds(now, start) >= d <==> (now - start) % U32_LIMIT >= d * 1000
  {
    var e := ElapsedSeconds(now, start);
    var diff := (now - start) % U32_LIMIT;
    assert e * 1000 <= diff < e * 1000 + 1000;
    if e >= d {
      assert e * 1000 >= d * 1000;
    } else {
      assert (e + 1) * 1000 <= d * 1000;
    }
  }

  /** Elapsed time does not decrease while the counter has not wrapped. */
  lemma ElapsedNonDecreasing(start: U32, now1: U32, now2: U32)
    requires start <= now1 <= now2
    ensures ElapsedSeconds(now1, start) <= ElapsedSeconds(now2, start)
  {
    var e1, e2 := ElapsedSeconds(now1, start), ElapsedSeconds(now2, start);
    assert e1 * 1000 <= now2 - start < e2 * 1000 + 1000;
  }

  /** The remaining time of a run never grows as time passes. */
  lemma RemainingNonIncreasing(duration: U32, start: U32, now1: U32, now2: U32)
    requires start <= now1 <= now2
    ensures RemainingSeconds(duration, ElapsedSeconds(now2, start))
         <= RemainingSeconds(duration, ElapsedSeconds(now1, start))
  {
    ElapsedNonDecreasing(start, now1, now2);
  }
}
