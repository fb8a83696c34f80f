/**
  `run_benchmark` as a whole, minus its printing: dispatch at `start`, the
  line loop, the end time read after it, and the calculations. Any exception
  from the request or from the loop ends the run with no metrics.
*/
module Benchmark {
  import opened Wrappers
  import opened Stream
  import opened Metrics

  /** What the request produced: it failed before any line was read (the
      POST raised, or the status check rejected the reply), or a body
      whose lines are read one by one. */
  datatype Reply = Refused | Opened(items: seq<Item>)

  /** The clock never runs backwards: lines are processed in order, none
      before the dispatch time and none after the end time. */
  ghost predicate Monotone(start: real, items: seq<Item>, end: real) {
    && start <= end
    && (forall i :: 0 <= i < |items| && items[i].Line? ==> start <= items[i].at <= end)
    && (forall i, j :: 0 <= i < j < |items| && items[i].Line? && items[j].Line? ==> items[i].at <= items[j].at)
  }

  function RunBenchmark(reply: Reply, start: real, end: real): (r: Option<Report>)
    ensures r.None? <==> reply.Refused? || HasFault(reply.items)
    ensures r.Some? ==> r.value.totalTime == end - start
    ensures r.Some? ==> r.value.latency + r.value.genTime == end - start
    ensures r.Some? ==> r.value.tps >= 0.0
  {
    match reply
    case Refused => None
    case Opened(items) =>
      match Scan(items, Initial)
      case None => None
      case Some(t) => Some(Compute(t.count, t.first, start, end))
  }

  /** A fault-free reply yields metrics whose token count is the number of
      counted lines; with none of them latency and rate are 0 and the
      generation time is the whole run. */
  lemma TokensAreCountedLines(items: seq<Item>, start: real, end: real)
    requires !HasFault(items)
    ensures RunBenchmark(Opened(items), start, end).Some?
    ensures RunBenchmark(Opened(items), start, end).value.tokens == |TokenIndices(items)|
    ensures TokenIndices(items) == {} ==>
      RunBenchmark(Opened(items), start, end).value == Report(0, end - start, 0.0, end - start, 0.0)
  {
    ScanDescribes(items);
  }

  /** With a monotone clock that starts at or after time 0, a run that saw a
      token reports the latency up to the first counted line and the
      generation time from it to the end, both non-negative, and the first
      token time lies between the dispatch and every later line. */
  lemma MonotoneRunMetrics(items: seq<Item>, start: real, end: real)
    requires !HasFault(items)
    requires 0.0 <= start
    requires Monotone(start, items, end)
    requires TokenIndices(items) != {}
    ensures var r := RunBenchmark(Opened(items), start, end);
      && r.Some?
      && r.value.latency >= 0.0
      && r.value.genTime >= 0.0
      && exists k :: IsFirstToken(items, k)
           && r.value.latency == items[k].at - start
           && r.value.genTime == end - items[k].at
           && (forall j :: k <= j < |items| && items[j].Line? ==> items[k].at <= items[j].at)
  {
    ScanDescribes(items);
    var t := Scan(items, Initial).value;
    var k :| IsFirstToken(items, k) && t.first.value == items[k].at;
    TruthinessAgreesWithNoneTest(t.count, t.first, start, end);
    assert start <= items[k].at <= end;
  }

  /** A run whose request fails, or whose loop raises at any point (even
      after the sentinel), reports nothing. */
  lemma FaultAnywhereYieldsNothing(a: seq<Item>, b: seq<Item>, start: real, end: real)
    ensures RunBenchmark(Opened(a + [Fault] + b), start, end).None?
    ensures RunBenchmark(Refused, start, end).None?
  {
    assert (a + [Fault] + b)[|a|].Fault?;
  }

  /** A frame, an empty line, the sentinel, another event field and one more
      frame: two tokens, the first token time being that of the first frame. */
  lemma SentinelExample(t0: real, t1: real, t2: real, t3: real, t4: real)
    ensures Scan([Line("data: {\"a\"}", t0), Line("", t1), Line(DoneSentinel, t2), Line("event: x", t3), Line("data: {}", t4)], Initial)
      == Some(Tally(2, Some(t0)))
  {
    ClassifierExamples();
    assert IsToken("data: {\"a\"}") by { assert "data: {\"a\"}"[..6] == DataPrefix; }
    assert IsToken("data: {}") by { assert "data: {}"[..6] == DataPrefix; }
    assert !IsToken("event: x") by { assert "event: x"[0] != DataPrefix[0]; }
    var l0, l1, l2, l3, l4 := Line("data: {\"a\"}", t0), Line("", t1), Line(DoneSentinel, t2), Line("event: x", t3), Line("data: {}", t4);
    var one := Tally(1, Some(t0));
    assert Scan([l4], one) == Some(Tally(2, Some(t0)));
    assert [l3, l4][1..] == [l4];
    assert [l2, l3, l4][1..] == [l3, l4];
    assert [l1, l2, l3, l4][1..] == [l2, l3, l4];
    assert [l0, l1, l2, l3, l4][1..] == [l1, l2, l3, l4];
    assert Scan([l3, l4], one) == Some(Tally(2, Some(t0)));
    assert Scan([l2, l3, l4], one) == Some(Tally(2, Some(t0)));
    assert Scan([l1, l2, l3, l4], one) == Some(Tally(2, Some(t0)));
  }
}
