/** The fleet's counters and latency samples, as operations on values. */
module Counters {

  /** The length of the windows of samples. */
  const LATENCY_SAMPLES := 10_000

  datatype Counters = Counters(
    batchesCreated: nat, batchesCompleted: nat, leasesReclaimed: nat, unitRetries: nat,
    queueTimes: seq<real>, serviceTimes: seq<real>)

  const ZERO := Counters(0, 0, 0, 0, [], [])

  function Push(q: seq<real>, x: real): seq<real> {
    if |q| < LATENCY_SAMPLES then q + [x] else q[1..] + [x]
  }

  function NonNegative(x: real): real { if x > 0.0 then x else 0.0 }

  function UnitCompleted(c: Counters, queueSec: real, serviceSec: real, retries: int): Counters {
    c.(queueTimes := Push(c.queueTimes, NonNegative(queueSec)),
       serviceTimes := Push(c.serviceTimes, NonNegative(serviceSec)),
       unitRetries := c.unitRetries + (if retries > 0 then retries else 0))
  }

  function LeasesReturned(c: Counters, count: nat): Counters {
    c.(leasesReclaimed := c.leasesReclaimed + count)
  }
}
