/**
 * The sampling timer gate of the main loop and the burst of telemetry
 * publishes it releases. Clock readings and `lastMsg` are 32-bit unsigned,
 * so their difference wraps modulo 2^32.
 */
module Sampling {
  import opened Messages

  const WRAP: int := 0x1_0000_0000

  /** An `unsigned long` on the target. */
  type U32 = x: int | 0 <= x < WRAP

  /** Minimum time between two bursts, in milliseconds (exclusive). */
  const INTERVAL: int := 2000

  /**
   * The unsigned difference `now - last`: the unique 32-bit value that
   * carries `last` to `now` modulo 2^32.
   */
  function Elapsed(now: U32, last: U32): (d: U32)
    ensures (last + d) % WRAP == now
    ensures last <= now ==> d == now - last
    ensures now < last ==> d == WRAP - last + now
  {
    (now - last) % WRAP
  }

  /** The gate: strictly more than INTERVAL milliseconds since the last burst. */
  predicate Due(now: U32, last: U32)
  {
    Elapsed(now, last) > INTERVAL
  }

  /** The value of `lastMsg` after one pass through the gate. */
  function Gate(now: U32, last: U32): U32
  {
    if Due(now, last) then now else last
  }

  /** The four publishes of one burst: temperature, humidity, soil, light. */
  function Burst(s: Sample): seq<Event>
  {
    [ Publish(TEMP_TOPIC, Reading(s.temp)),
      Publish(HUM_TOPIC, Reading(s.hum)),
      Publish(SOIL_TOPIC, Reading(s.soil)),
      Publish(LDR_TOPIC, Reading(s.ldr)) ]
  }

  /** What a subscriber recovers from four telemetry messages. */
  function SampleOf(events: seq<Event>): Option<Sample>
  {
    if |events| == 4
       && events[0].Publish? && events[0].topic == TEMP_TOPIC && events[0].payload.Reading?
       && events[1].Publish? && events[1].topic == HUM_TOPIC && events[1].payload.Reading?
       && events[2].Publish? && events[2].topic == SOIL_TOPIC && events[2].payload.Reading?
       && events[3].Publish? && events[3].topic == LDR_TOPIC && events[3].payload.Reading?
    then Some(Sample(events[0].payload.value, events[1].payload.value,
                     events[2].payload.value, events[3].payload.value))
    else None
  }

  /** A burst is exactly four publishes, each of one reading, in topic order. */
  lemma BurstShape(s: Sample)
    ensures |Burst(s)| == 4
    ensures forall i :: 0 <= i < 4 ==> Burst(s)[i].Publish? && Burst(s)[i].payload.Reading?
    ensures Burst(s)[0].topic == TEMP_TOPIC && Burst(s)[1].topic == HUM_TOPIC
    ensures Burst(s)[2].topic == SOIL_TOPIC && Burst(s)[3].topic == LDR_TOPIC
  {
  }

  /** Reading the burst back gives the four abstract readings of the sample. */
  lemma BurstRoundTrip(s: Sample)
    ensures SampleOf(Burst(s)) == Some(s)
  {
  }

  /** The gate in plain terms, with and without a wrap of the clock. */
  lemma DueCases(now: U32, last: U32)
    ensures last <= now ==> (Due(now, last) <==> now - last > INTERVAL)
    ensures now < last ==> (Due(now, last) <==> WRAP - last + now > INTERVAL)
  {
  }

  /** Exactly INTERVAL milliseconds later does not fire; one more does. */
  lemma IntervalIsExclusive(last: U32)
    ensures !Due((last + INTERVAL) % WRAP, last)
    ensures Due((last + INTERVAL + 1) % WRAP, last)
  {
  }

  /** With `lastMsg` at its initial 0, nothing fires until the clock passes 2000. */
  lemma StartupQuiet(now: U32)
    ensures Due(now, 0) <==> now > INTERVAL
  {
  }

  /** The clock reading at uptime t milliseconds: `millis()` wraps at 2^32. */
  function Millis(t: nat): U32
  {
    t % WRAP
  }

  /**
   * As long as less than 2^32 ms of uptime separate two readings, the
   * wrapped difference is the true elapsed time, across a clock wrap too.
   */
  lemma ElapsedIsUptime(t0: nat, t: nat)
    requires t0 <= t < t0 + WRAP
    ensures Elapsed(Millis(t), Millis(t0)) == t - t0
  {
  }

  /** The gate compares true uptime under the same condition. */
  lemma GateFollowsUptime(t0: nat, t: nat)
    requires t0 <= t < t0 + WRAP
    ensures Due(Millis(t), Millis(t0)) <==> t - t0 > INTERVAL
  {
    ElapsedIsUptime(t0, t);
  }

  /** `lastMsg` after the loop has passed the gate at each clock reading in turn. */
  function LastAfter(last: U32, nows: seq<U32>): U32
  {
    if nows == [] then last
    else Gate(nows[|nows| - 1], LastAfter(last, nows[..|nows| - 1]))
  }

  /** Whether the burst fires at iteration k of a run of loop passes. */
  predicate FiresAt(last: U32, nows: seq<U32>, k: nat)
    requires k < |nows|
  {
    Due(nows[k], LastAfter(last, nows[..k]))
  }

  /**
   * After a burst at iteration i and none since, `lastMsg` still holds the
   * clock reading of iteration i.
   */
  lemma {:induction false} LastHoldsPreviousBurst(last: U32, nows: seq<U32>, i: nat, j: nat)
    requires i < j <= |nows|
    requires FiresAt(last, nows, i)
    requires forall k :: i < k < j ==> !FiresAt(last, nows, k)
    ensures LastAfter(last, nows[..j]) == nows[i]
  {
    var p := nows[..j];
    assert p[..|p| - 1] == nows[..j - 1];
    if j == i + 1 {
      assert nows[..j - 1] == nows[..i];
    } else {
      LastHoldsPreviousBurst(last, nows, i, j - 1);
      assert !FiresAt(last, nows, j - 1);
    }
  }

  /**
   * Between consecutive bursts: the next burst fires exactly at the first
   * iteration whose clock reading is more than INTERVAL past the previous
   * burst's (no double fire, no skipped iteration).
   */
  lemma NextBurst(last: U32, nows: seq<U32>, i: nat, j: nat)
    requires i < j < |nows|
    requires FiresAt(last, nows, i)
    requires forall k :: i < k < j ==> !FiresAt(last, nows, k)
    ensures FiresAt(last, nows, j) <==> Due(nows[j], nows[i])
  {
    LastHoldsPreviousBurst(last, nows, i, j);
  }
}
