/**
  The line loop of `run_benchmark`: every line the streamed response yields is
  classified, and the counted ones advance a small tally holding the token count
  and the time of the first counted line.

  The response body is given as a sequence of items. An item is either a decoded
  line paired with the time it was processed, or a fault: an exception raised
  while reading or decoding the next line, which ends the loop with no metrics.
*/
module Stream {
  import opened Wrappers

  /** The server-sent-event data prefix a counted line must start with. */
  const DataPrefix: string := "data: "

  /** The terminal event; skipped, but it does not end the loop. */
  const DoneSentinel: string := "data: [DONE]"

  datatype Item = Line(text: string, at: real) | Fault

  predicate StartsWith(s: string, prefix: string) {
    |prefix| <= |s| && s[..|prefix|] == prefix
  }

  /** A decoded line counts as one token when it is non-empty, carries the data
      prefix and is not the sentinel. */
  predicate IsToken(s: string)
    ensures IsToken(s) <==> StartsWith(s, DataPrefix) && s != DoneSentinel
  {
    |s| > 0 && StartsWith(s, DataPrefix) && s != DoneSentinel
  }

  predicate Counted(item: Item) {
    item.Line? && IsToken(item.text)
  }

  predicate HasFault(items: seq<Item>) {
    exists i :: 0 <= i < |items| && items[i].Fault?
  }

  /** `token_count` and `first_token_time` as the loop keeps them. */
  datatype Tally = Tally(count: nat, first: Option<real>)

  const Initial: Tally := Tally(0, None)

  /** The tallies the loop can reach from `Initial`: a first time is recorded
      exactly when something has been counted. */
  predicate Reachable(t: Tally) {
    t.first.None? <==> t.count == 0
  }

  /** One pass of the loop body on a decoded line processed at time `at`. */
  function Step(t: Tally, s: string, at: real): (t': Tally)
    ensures !IsToken(s) ==> t' == t
    ensures IsToken(s) ==> t'.count == t.count + 1 && t'.first.Some?
    ensures t.first.Some? ==> t'.first == t.first
    ensures t.first.None? && IsToken(s) ==> t'.first == Some(at)
    ensures Reachable(t) ==> Reachable(t')
  {
    if IsToken(s) then
      var first := if t.first.None? then Some(at) else t.first;
      Tally(t.count + 1, first)
    else
      t
  }

  /** The whole loop: `None` when an exception escapes it, otherwise the final tally. */
  function Scan(items: seq<Item>, t: Tally): (r: Option<Tally>)
    ensures r.None? <==> HasFault(items)
    ensures r.Some? ==> t.count <= r.value.count <= t.count + |items|
    ensures r.Some? && t.first.Some? ==> r.value.first == t.first
    ensures r.Some? && Reachable(t) ==> Reachable(r.value)
    decreases |items|
  {
    if |items| == 0 then
      Some(t)
    else
      match items[0]
      case Fault => None
      case Line(s, at) =>
        var r := Scan(items[1..], Step(t, s, at));
        assert HasFault(items[1..]) ==> HasFault(items) by {
          if HasFault(items[1..]) {
            var i :| 0 <= i < |items[1..]| && items[1..][i].Fault?;
            assert items[i + 1].Fault?;
          }
        }
        assert HasFault(items) ==> HasFault(items[1..]) by {
          if HasFault(items) {
            var i :| 0 <= i < |items| && items[i].Fault?;
            assert i != 0;
            assert items[1..][i - 1].Fault?;
          }
        }
        r
  }

  // ---------------------------------------------------------------------------
  // Reference description of the loop's outcome, by positions in the stream

  /** Positions of the lines the loop counts. */
  ghost function TokenIndices(items: seq<Item>): set<int> {
    set i | 0 <= i < |items| && Counted(items[i])
  }

  /** Position `k` holds the first counted line of the stream. */
  ghost predicate IsFirstToken(items: seq<Item>, k: int) {
    && 0 <= k < |items|
    && Counted(items[k])
    && forall j :: 0 <= j < k ==> !Counted(items[j])
  }

  /** What a fault-free stream must leave in the tally. */
  ghost predicate Describes(items: seq<Item>, t: Tally) {
    && t.count == |TokenIndices(items)|
    && (t.first.None? <==> TokenIndices(items) == {})
    && (t.first.Some? ==> exists k :: IsFirstToken(items, k) && t.first.value == items[k].at)
  }

  lemma TokenIndicesSnoc(p: seq<Item>, x: Item)
    ensures Counted(x) ==> TokenIndices(p + [x]) == TokenIndices(p) + {|p|}
    ensures !Counted(x) ==> TokenIndices(p + [x]) == TokenIndices(p)
    ensures |p| !in TokenIndices(p)
  {
    var q := p + [x];
    assert forall i :: 0 <= i < |p| ==> q[i] == p[i];
  }

  /** Appending one more item to a described fault-free prefix keeps the
      description in step with `Step`. */
  lemma DescribesSnoc(p: seq<Item>, t: Tally, s: string, at: real)
    requires Describes(p, t)
    ensures Describes(p + [Line(s, at)], Step(t, s, at))
  {
    var x := Line(s, at);
    var q := p + [x];
    TokenIndicesSnoc(p, x);
    var t' := Step(t, s, at);
    if t'.first.Some? {
      if t.first.Some? {
        var k :| IsFirstToken(p, k) && t.first.value == p[k].at;
        assert q[k] == p[k];
        assert IsFirstToken(q, k);
      } else {
        assert TokenIndices(p) == {};
        forall j | 0 <= j < |p|
          ensures !Counted(q[j])
        {
          assert q[j] == p[j];
          assert j !in TokenIndices(p);
        }
        assert IsFirstToken(q, |p|);
      }
    }
  }

  /** Splitting the stream: the loop over `a + b` is the loop over `a`
      followed by the loop over `b`. */
  lemma {:induction false} ScanAppend(a: seq<Item>, b: seq<Item>, t: Tally)
    ensures Scan(a + b, t) == (match Scan(a, t) case None => None case Some(u) => Scan(b, u))
    decreases |a|
  {
    if |a| == 0 {
      assert a + b == b;
    } else {
      assert (a + b)[0] == a[0];
      assert (a + b)[1..] == a[1..] + b;
      match a[0]
      case Fault =>
      case Line(s, at) =>
        ScanAppend(a[1..], b, Step(t, s, at));
    }
  }

  /** On a fault-free stream the fold computes exactly the reference tally:
      the number of counted lines, and the time of the first of them. */
  lemma {:induction false} ScanDescribes(items: seq<Item>)
    requires !HasFault(items)
    ensures Scan(items, Initial).Some?
    ensures Describes(items, Scan(items, Initial).value)
    decreases |items|
  {
    if |items| == 0 {
      assert TokenIndices(items) == {};
    } else {
      var p := items[..|items| - 1];
      var x := items[|items| - 1];
      assert items == p + [x];
      forall i | 0 <= i < |p|
        ensures !p[i].Fault?
      {
        assert p[i] == items[i];
      }
      assert !x.Fault?;
      ScanDescribes(p);
      var u := Scan(p, Initial).value;
      ScanAppend(p, [x], Initial);
      DescribesSnoc(p, u, x.text, x.at);
    }
  }

  /** A line the loop does not count may be removed from anywhere in the
      stream without changing the outcome. */
  lemma SkippedLineIsInert(a: seq<Item>, s: string, at: real, b: seq<Item>, t: Tally)
    requires !IsToken(s)
    ensures Scan(a + [Line(s, at)] + b, t) == Scan(a + b, t)
  {
    ScanAppend(a, [Line(s, at)] + b, t);
    ScanAppend(a, b, t);
    assert a + [Line(s, at)] + b == a + ([Line(s, at)] + b);
    match Scan(a, t)
    case None =>
    case Some(u) =>
      assert ([Line(s, at)] + b)[0] == Line(s, at);
      assert ([Line(s, at)] + b)[1..] == b;
  }

  /** The sentinel is skipped and iteration goes on: the lines after it are
      counted just as if it were not there. */
  lemma SentinelDoesNotStop(a: seq<Item>, at: real, b: seq<Item>, t: Tally)
    ensures Scan(a + [Line(DoneSentinel, at)] + b, t) == Scan(a + b, t)
  {
    SkippedLineIsInert(a, DoneSentinel, at, b, t);
  }

  /** A counted line is never shorter than the data prefix, so the non-empty
      test never excludes a line the prefix test admits. */
  lemma IsTokenCharacterization(s: string)
    ensures IsToken(s) ==> |s| >= |DataPrefix|
  {
  }

  /** Lines the loop skips: the empty line, the sentinel, a data prefix
      without its space, and other event fields. */
  lemma ClassifierExamples()
    ensures !IsToken("")
    ensures !IsToken(DoneSentinel)
    ensures !IsToken("data:x")
    ensures !IsToken("event: ping")
    ensures IsToken("data: ")
    ensures IsToken("data: {not valid json")
    ensures IsToken("data: [DONE] ")
  {
    assert "data:x"[..6] != DataPrefix by { assert "data:x"[5] != DataPrefix[5]; }
    assert "event: ping"[..6] != DataPrefix by { assert "event: ping"[0] != DataPrefix[0]; }
    assert "data: [DONE] " != DoneSentinel by { assert |"data: [DONE] "| != |DoneSentinel|; }
    assert "data: "[..6] == DataPrefix;
    assert "data: {not valid json"[..6] == DataPrefix;
    assert "data: [DONE] "[..6] == DataPrefix;
  }

  /**
    The loop as written, with its early exit: returns `None` as soon as an
    item faults, and otherwise the tally the reference description demands.
  */
  method ScanStream(items: seq<Item>) returns (r: Option<Tally>)
    ensures r.None? <==> HasFault(items)
    ensures r.Some? ==> Describes(items, r.value)
    ensures r.Some? ==> r == Scan(items, Initial)
  {
    var count: nat := 0;
    var first: Option<real> := None;
    var i := 0;
    while i < |items|
      invariant 0 <= i <= |items|
      invariant !HasFault(items[..i])
      invariant Describes(items[..i], Tally(count, first))
      invariant Scan(items[..i], Initial) == Some(Tally(count, first))
    {
      var item := items[i];
      assert items[..i + 1] == items[..i] + [item];
      match item
      case Fault =>
        assert items[i].Fault?;
        return None;
      case Line(s, at) =>
        ScanAppend(items[..i], [item], Initial);
        DescribesSnoc(items[..i], Tally(count, first), s, at);
        if |s| > 0 {
          if StartsWith(s, DataPrefix) && s != DoneSentinel {
            if first.None? {
              first := Some(at);
            }
            count := count + 1;
          }
        }
        var done := items[..i + 1];
        forall j | 0 <= j < |done|
          ensures !done[j].Fault?
        {
          assert j < i ==> done[j] == items[..i][j];
        }
      i := i + 1;
    }
    assert items[..i] == items;
    r := Some(Tally(count, first));
  }
}
