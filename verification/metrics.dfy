/**
  The calculations at the end of `run_benchmark`: total time, latency (time to
  first token), generation time and tokens per second, from the tally and the
  start and end times. Times are exact reals rather than floating point.
*/
module Metrics {
  import opened Wrappers

  datatype Report = Report(tokens: nat, totalTime: real, latency: real, genTime: real, tps: real)

  /** Python truthiness of `first_token_time`: `None` and `0.0` are both false. */
  predicate Truthy(first: Option<real>) {
    first.Some? && first.value != 0.0
  }

  /** The metrics as computed, with both fallbacks guarded by truthiness. */
  function Compute(count: nat, first: Option<real>, start: real, end: real): (m: Report)
    ensures m.tokens == count
    ensures m.totalTime == end - start
    ensures m.latency + m.genTime == m.totalTime
    ensures !Truthy(first) ==> m.latency == 0.0
    ensures Truthy(first) ==> m.genTime == end - first.value
    ensures m.genTime > 0.0 ==> m.tps * m.genTime == count as real
    ensures m.genTime <= 0.0 ==> m.tps == 0.0
    ensures m.tps >= 0.0
    ensures first.Some? && start <= first.value <= end ==> m.latency >= 0.0 && m.genTime >= 0.0
  {
    var total := end - start;
    var latency := if Truthy(first) then first.value - start else 0.0;
    var genTime := if Truthy(first) then end - first.value else total;
    var tps := if genTime > 0.0 then count as real / genTime else 0.0;
    Report(count, total, latency, genTime, tps)
  }

  /** The same calculations with the fallbacks guarded by `is not None`,
      which is what the comments beside them describe. */
  function ComputeSeen(count: nat, first: Option<real>, start: real, end: real): (m: Report)
    ensures first.None? ==> m.latency == 0.0 && m.genTime == end - start
    ensures first.Some? ==> m.latency == first.value - start && m.genTime == end - first.value
    ensures m.genTime > 0.0 ==> m.tps * m.genTime == count as real
    ensures m.genTime <= 0.0 ==> m.tps == 0.0
  {
    var total := end - start;
    var latency := if first.Some? then first.value - start else 0.0;
    var genTime := if first.Some? then end - first.value else total;
    var tps := if genTime > 0.0 then count as real / genTime else 0.0;
    Report(count, total, latency, genTime, tps)
  }

  /** Truthiness and `is not None` give the same metrics whenever the clock
      never reads below zero and the first token is not earlier than the
      start: a first token at time 0 forces the start to be 0 too, and then
      both branches agree. */
  lemma TruthinessAgreesWithNoneTest(count: nat, first: Option<real>, start: real, end: real)
    requires 0.0 <= start
    requires first.Some? ==> start <= first.value
    ensures Compute(count, first, start, end) == ComputeSeen(count, first, start, end)
  {
  }

  /** With no first token, latency is 0, the generation time is the whole run,
      and the rate is 0 whatever the run took. */
  lemma NoTokenFallbacks(start: real, end: real)
    ensures Compute(0, None, start, end) == Report(0, end - start, 0.0, end - start, 0.0)
  {
  }

  /** Rate and count agree: the rate is the count divided by the generation
      time when that is positive, and zero tokens never give a positive rate. */
  lemma RateIsCountOverGenTime(count: nat, first: Option<real>, start: real, end: real)
    ensures var m := Compute(count, first, start, end);
      && (m.genTime > 0.0 ==> m.tps == count as real / m.genTime)
      && (count == 0 ==> m.tps == 0.0)
      && (m.tps > 0.0 <==> count > 0 && m.genTime > 0.0)
  {
  }
}
