/** The request metrics: a counter map, an aggregate map and a total, updated per request. */
module Metrics {
  import opened Common
  import opened Strings

  datatype Aggregate = Aggregate(count: nat, sum: real, min: real, max: real)

  datatype Request = Request(verb: string, route: string, status: nat, duration: real)

  datatype Recorded = Recorded(counters: map<string, nat>, aggregates: map<string, Aggregate>, total: nat)

  /** `toUpperCase` on the ASCII letters, of which request methods are made. */
  function Upper(s: string): (u: string)
    ensures |u| == |s|
    ensures forall i :: 0 <= i < |s| ==> u[i] == UpperChar(s[i])
  {
    if s == "" then "" else [UpperChar(s[0])] + Upper(s[1..])
  }

  function UpperChar(c: char): char {
    if 'a' <= c <= 'z' then (c as int - 'a' as int + 'A' as int) as char else c
  }

  /** Letter by letter; everything else stays. */
  lemma UpperExactly(s: string, i: nat)
    requires i < |s|
    ensures |Upper(s)| == |s|
    ensures forall k :: 0 <= k < 26 && s[i] == "abcdefghijklmnopqrstuvwxyz"[k] ==> Upper(s)[i] == "ABCDEFGHIJKLMNOPQRSTUVWXYZ"[k]
    ensures s[i] !in "abcdefghijklmnopqrstuvwxyz" ==> Upper(s)[i] == s[i]
  {
    var lower := "abcdefghijklmnopqrstuvwxyz";
    var upper := "ABCDEFGHIJKLMNOPQRSTUVWXYZ";
    assert forall k :: 0 <= k < 26 ==> lower[k] as int == 'a' as int + k && upper[k] as int == 'A' as int + k;
    if 'a' <= s[i] <= 'z' {
      assert lower[s[i] as int - 'a' as int] == s[i];
    }
  }

  function BuildKey(r: Request): string {
    Upper(r.verb) + "|" + (r.route + "|" + Decimal(r.status))
  }

  function MinReal(x: real, y: real): real {
    if x < y then x else y
  }

  function MaxReal(x: real, y: real): real {
    if x < y then y else x
  }

  class ObservabilityMetrics {
    var requestCounters: map<string, nat>
    var requestAggregates: map<string, Aggregate>
    var totalRequests: nat

    function Value(): Recorded
      reads this
    {
      Recorded(requestCounters, requestAggregates, totalRequests)
    }

    constructor ()
      ensures Value() == Replay([])
    {
      requestCounters, requestAggregates, totalRequests := map[], map[], 0;
    }

    method RecordHttpRequest(r: Request)
      modifies this
      ensures Value() == Record(old(Value()), r)
    {
      var key := BuildKey(r);
      var count := if key in requestCounters then requestCounters[key] else 0;
      requestCounters := requestCounters[key := count + 1];
      if key in requestAggregates {
        var seen := requestAggregates[key];
        requestAggregates := requestAggregates[key :=
          Aggregate(seen.count + 1, seen.sum + r.duration, MinReal(seen.min, r.duration), MaxReal(seen.max, r.duration))];
      } else {
        // the smallest duration starts at infinity, the largest at zero
        requestAggregates := requestAggregates[key := Aggregate(1, r.duration, r.duration, MaxReal(0.0, r.duration))];
      }
      totalRequests := totalRequests + 1;
    }
  }

  function Record(m: Recorded, r: Request): Recorded {
    var key := BuildKey(r);
    var aggregate :=
      if key in m.aggregates then
        var a := m.aggregates[key];
        Aggregate(a.count + 1, a.sum + r.duration, MinReal(a.min, r.duration), MaxReal(a.max, r.duration))
      else Aggregate(1, r.duration, r.duration, MaxReal(0.0, r.duration));
    Recorded(
      m.counters[key := if key in m.counters then m.counters[key] + 1 else 1],
      m.aggregates[key := aggregate],
      m.total + 1)
  }

  /** The metrics after a sequence of requests. */
  function Replay(requests: seq<Request>): Recorded {
    if requests == [] then Recorded(map[], map[], 0)
    else Record(Replay(requests[..|requests| - 1]), requests[|requests| - 1])
  }

  // ----- What the maps mean

  /** The durations of the requests under one key, in order. */
  function Durations(requests: seq<Request>, key: string): seq<real> {
    if requests == [] then []
    else
      var last := requests[|requests| - 1];
      Durations(requests[..|requests| - 1], key) + if BuildKey(last) == key then [last.duration] else []
  }

  function Sum(durations: seq<real>): real {
    if durations == [] then 0.0 else Sum(durations[..|durations| - 1]) + durations[|durations| - 1]
  }

  ghost predicate Summarizes(a: Aggregate, durations: seq<real>) {
    && a.count == |durations| > 0
    && a.sum == Sum(durations)
    && a.min in durations && (forall d :: d in durations ==> a.min <= d <= a.max)
    && (a.max in durations || a.max == 0.0)
    && a.max >= 0.0
  }

  lemma SummarizesMore(a: Aggregate, durations: seq<real>, d: real)
    requires Summarizes(a, durations)
    ensures Summarizes(Aggregate(a.count + 1, a.sum + d, MinReal(a.min, d), MaxReal(a.max, d)), durations + [d])
  {
    assert (durations + [d])[..|durations|] == durations;
    assert d in durations + [d];
    assert forall x :: x in durations ==> x in durations + [d];
  }

  lemma SummarizesOne(d: real)
    ensures Summarizes(Aggregate(1, d, d, MaxReal(0.0, d)), [d])
  {
    assert [d][..0] == [] && d in [d];
  }

  /** Both maps have the keys of the requests seen, the counter is the number of requests of its
      key, and the aggregate summarizes exactly their durations. */
  lemma {:induction false} ReplayMeans(requests: seq<Request>, key: string)
    ensures
      var m, ds := Replay(requests), Durations(requests, key);
      && m.total == |requests| && m.counters.Keys == m.aggregates.Keys
      && (key in m.counters <==> ds != [])
      && (ds != [] ==> m.counters[key] == |ds| == m.aggregates[key].count && Summarizes(m.aggregates[key], ds))
  {
    if requests != [] {
      var n := |requests| - 1;
      var r := requests[n];
      ReplayMeans(requests[..n], key);
      var ds := Durations(requests[..n], key);
      assert ds + [] == ds && [] + [r.duration] == [r.duration];
      if BuildKey(r) == key {
        if ds == [] {
          SummarizesOne(r.duration);
        } else {
          SummarizesMore(Replay(requests[..n]).aggregates[key], ds, r.duration);
        }
      }
    }
  }

  ghost predicate SumInRange(a: Aggregate) {
    a.count as real * a.min <= a.sum <= a.count as real * a.max
  }

  /** The stored sum lies between count times the smallest and count times the largest duration. */
  lemma SumBetween(requests: seq<Request>, key: string)
    requires key in Replay(requests).aggregates
    ensures SumInRange(Replay(requests).aggregates[key])
  {
    ReplayMeans(requests, key);
    SummaryBounds(Replay(requests).aggregates[key], Durations(requests, key));
  }

  lemma SummaryBounds(a: Aggregate, durations: seq<real>)
    requires Summarizes(a, durations)
    ensures SumInRange(a)
  {
    SumBounds(durations, a.min, a.max);
  }

  lemma {:induction false} SumBounds(durations: seq<real>, low: real, high: real)
    requires forall d :: d in durations ==> low <= d <= high
    ensures |durations| as real * low <= Sum(durations) <= |durations| as real * high
  {
    if durations != [] {
      var n := |durations| - 1;
      assert forall d :: d in durations[..n] ==> d in durations;
      SumBounds(durations[..n], low, high);
      assert durations[n] in durations;
      assert (n + 1) as real * low == n as real * low + low && (n + 1) as real * high == n as real * high + high;
    }
  }

  /** With no negative duration the largest one is one that was measured. */
  lemma LargestWasMeasured(requests: seq<Request>, key: string)
    requires key in Replay(requests).aggregates
    requires forall d :: d in Durations(requests, key) ==> d >= 0.0
    ensures Replay(requests).aggregates[key].max in Durations(requests, key)
  {
    ReplayMeans(requests, key);
    var ds := Durations(requests, key);
    var a := Replay(requests).aggregates[key];
    if a.max == 0.0 {
      assert ds[0] in ds;
      assert ds[0] == 0.0;
    }
  }

  /** The sum of all values of a map. */
  ghost function Total(m: map<string, nat>): nat
    decreases |m|
  {
    if m == map[] then 0
    else
      var key :| key in m;
      m[key] + Total(m - {key})
  }

  lemma TakeOut(m: map<string, nat>, key: string)
    requires key in m
    ensures Total(m) == m[key] + Total(m - {key})
    decreases |m|
  {
    var picked :| picked in m && Total(m) == m[picked] + Total(m - {picked});
    if picked != key {
      TakeOut(m - {picked}, key);
      TakeOut(m - {key}, picked);
      assert m - {picked} - {key} == m - {key} - {picked};
    }
  }

  lemma TotalUpdated(m: map<string, nat>, key: string, value: nat)
    ensures Total(m[key := value]) == Total(m - {key}) + value
  {
    TakeOut(m[key := value], key);
    assert m[key := value] - {key} == m - {key};
  }

  lemma TotalCountsOne(m: map<string, nat>, key: string)
    ensures Total(m[key := if key in m then m[key] + 1 else 1]) == Total(m) + 1
  {
    TotalUpdated(m, key, if key in m then m[key] + 1 else 1);
    if key in m {
      TakeOut(m, key);
    } else {
      assert m - {key} == m;
    }
    hide Total;
  }

  /** The total is the sum of all counters. */
  lemma {:induction false} TotalIsSum(requests: seq<Request>)
    ensures Replay(requests).total == Total(Replay(requests).counters)
  {
    if requests != [] {
      var before := Replay(requests[..|requests| - 1]);
      TotalIsSum(requests[..|requests| - 1]);
      hide Total, BuildKey;
      TotalCountsOne(before.counters, BuildKey(requests[|requests| - 1]));
    }
  }

  /** A key has its parts between bars: the method, then whatever the rest splits into. */
  lemma VerbFirst(r: Request)
    requires '|' !in r.verb
    ensures Split(BuildKey(r), '|') == [Upper(r.verb)] + Split(r.route + "|" + Decimal(r.status), '|')
  {
    hide Split, Decimal;
    var verb := Upper(r.verb);
    assert '|' !in verb;
    SplitFirst(verb, '|', r.route + "|" + Decimal(r.status));
    assert BuildKey(r) == verb + "|" + (r.route + "|" + Decimal(r.status));
  }

  lemma RouteWithBar(route: string, status: string)
    requires '|' in route
    ensures
      var parts := Split(route + "|" + status, '|');
      |parts| >= 2 && parts[0] != route
  {
    hide Split;
    var a, b := SplitInverts(route, '|');
    assert route + "|" + status == a + "|" + (b + "|" + status);
    SplitFirst(a, '|', b + "|" + status);
    assert |a| < |route|;
  }

  lemma RouteWithoutBar(route: string, status: string)
    requires '|' !in route && '|' !in status
    ensures Split(route + "|" + status, '|') == [route, status]
  {
    hide Split;
    SplitFirst(route, '|', status);
    SplitNone(status, '|');
  }

  /** The exposition reads method, route and status back out of a key by splitting it at the bars:
      for a method without a bar this gives the recorded labels exactly when the route has none. */
  lemma LabelsRoundTrip(r: Request)
    requires '|' !in r.verb
    ensures
      var parts := Split(BuildKey(r), '|');
      |parts| >= 3 && parts[0] == Upper(r.verb)
      && (parts[1] == r.route && parts[2] == Decimal(r.status) <==> '|' !in r.route)
  {
    VerbFirst(r);
    hide Split, Decimal, BuildKey, Upper;
    if '|' in r.route {
      RouteWithBar(r.route, Decimal(r.status));
    } else {
      RouteWithoutBar(r.route, Decimal(r.status));
    }
  }
}
