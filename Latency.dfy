/** The two latency probes of the measurement engine: the quick ping of a content
    test (`getPing`) and the latency/jitter test of a general test (`testLatency`).
    The network is an input: each attempt is what the reachability check reported
    and whether the pause after it was interrupted. */
module Latency {
  import opened Numbers
  import HostName

  /** Reachability checks made by `getPing` and by `testLatency`. */
  const PingAttempts: nat := 3
  const LatencyAttempts: nat := 10

  /** What one reachability check reports: reachable, with the milliseconds between
      the clock readings taken before and after it; not reachable; or an exception
      (unknown host, I/O error), which the attempt's own handler swallows. */
  datatype Reply = Reachable(rtt: int) | Unreachable | Threw

  /** One iteration of a probe loop: the check, then the pause after it, whose
      `Thread.sleep` may be interrupted; that exception leaves the loop. */
  datatype Attempt = Attempt(reply: Reply, pauseInterrupted: bool)

  /** `SpeedTestManager.LatencyResult`, in milliseconds. */
  datatype LatencyResult = LatencyResult(average: int, min: int, max: int, jitter: int)

  /** The sentinel returned when no attempt succeeded or the test failed. */
  const Unavailable := LatencyResult(-1, -1, -1, -1)

  /** The round-trip times of the successful attempts, in attempt order. */
  function Samples(a: seq<Attempt>): (s: seq<int>)
    ensures |s| <= |a|
  {
    if a == [] then []
    else Samples(a[..|a| - 1]) + (if Last(a).reply.Reachable? then [Last(a).reply.rtt] else [])
  }

  function Last<T>(a: seq<T>): T
    requires a != []
  {
    a[|a| - 1]
  }

  /** Some pause was interrupted, so an exception left the probe loop. */
  predicate Interrupted(a: seq<Attempt>) {
    exists k | 0 <= k < |a| :: a[k].pauseInterrupted
  }

  function Sum(s: seq<int>): int {
    if s == [] then 0 else Sum(s[..|s| - 1]) + Last(s)
  }

  /** The running minimum of the aggregation loop, started at `init`. */
  function MinFrom(init: int, s: seq<int>): int {
    if s == [] then init
    else var m := MinFrom(init, s[..|s| - 1]); if Last(s) < m then Last(s) else m
  }

  /** The running maximum of the aggregation loop, started at `init`. */
  function MaxFrom(init: int, s: seq<int>): int {
    if s == [] then init
    else var m := MaxFrom(init, s[..|s| - 1]); if Last(s) > m then Last(s) else m
  }

  /** What `getPing` answers: the truncated mean of the successful round trips,
      or -1 when the host cannot be normalised, a pause is interrupted, or no
      attempt succeeds. */
  function QuickPing(endpoint: string, attempts: seq<Attempt>): int {
    var s := Samples(attempts);
    if HostName.Normalise(endpoint).None? || Interrupted(attempts) || |s| == 0 then -1
    else JavaDiv(Sum(s), |s|)
  }

  /** The aggregation of `testLatency` over the stored samples. The running
      minimum starts at Long.MAX_VALUE and the running maximum at 0. */
  function Aggregate(s: seq<int>): LatencyResult {
    if |s| == 0 then Unavailable
    else
      var min, max := MinFrom(LongMax, s), MaxFrom(0, s);
      LatencyResult(JavaDiv(Sum(s), |s|), min, max, max - min)
  }

  /** What `testLatency` answers. */
  function TestLatencyResult(endpoint: string, attempts: seq<Attempt>): LatencyResult {
    if HostName.Normalise(endpoint).None? || Interrupted(attempts) then Unavailable
    else Aggregate(Samples(attempts))
  }

  /** `getPing`: three attempts, summing the successful round trips. */
  method GetPing(endpoint: string, attempts: seq<Attempt>) returns (ping: int)
    requires |attempts| == PingAttempts
    ensures ping == QuickPing(endpoint, attempts)
  {
    if HostName.Normalise(endpoint).None? {
      return -1;  // the normalisation threw
    }
    var totalTime, successfulPings := 0, 0;
    var i := 0;
    while i < PingAttempts
      invariant 0 <= i <= PingAttempts
      invariant totalTime == Sum(Samples(attempts[..i]))
      invariant successfulPings == |Samples(attempts[..i])|
      invariant !Interrupted(attempts[..i])
    {
      AttemptStep(attempts, i);
      if attempts[i].reply.Reachable? {
        SumStep(Samples(attempts[..i]), attempts[i].reply.rtt);
        totalTime := totalTime + attempts[i].reply.rtt;
        successfulPings := successfulPings + 1;
      }
      if attempts[i].pauseInterrupted {
        InterruptedAt(attempts, i);
        return -1;  // the pause threw and the outer handler answers -1
      }
      i := i + 1;
    }
    QuickPingOfCompletedLoop(endpoint, attempts, i, totalTime, successfulPings);
    if successfulPings > 0 {
      return JavaDiv(totalTime, successfulPings);
    }
    return -1;
  }

  /** What the latency test answers once all attempts have run uninterrupted. */
  lemma LatencyOfCompletedLoop(endpoint: string, a: seq<Attempt>, i: nat, s: seq<int>)
    requires i == |a| && HostName.Normalise(endpoint).Some? && !Interrupted(a[..i])
    requires s == Samples(a[..i])
    ensures TestLatencyResult(endpoint, a) == Aggregate(s)
  {
    assert a[..i] == a;
  }

  /** An interrupted pause ends both probes with their failure sentinel. */
  lemma InterruptedAt(a: seq<Attempt>, i: nat)
    requires i < |a| && a[i].pauseInterrupted
    ensures Interrupted(a)
    ensures forall endpoint :: QuickPing(endpoint, a) == -1 && TestLatencyResult(endpoint, a) == Unavailable
  {
  }

  /** What the quick ping is once all attempts have run uninterrupted. */
  lemma QuickPingOfCompletedLoop(endpoint: string, a: seq<Attempt>, i: nat, total: int, n: int)
    requires i == |a| && HostName.Normalise(endpoint).Some? && !Interrupted(a[..i])
    requires total == Sum(Samples(a[..i])) && n == |Samples(a[..i])|
    ensures QuickPing(endpoint, a) == if n > 0 then JavaDiv(total, n) else -1
  {
    assert a[..i] == a;
  }

  /** `testLatency`: ten attempts storing the successful round trips into a
      ten-slot array, then one pass for sum, minimum and maximum. */
  method TestLatency(endpoint: string, attempts: seq<Attempt>) returns (r: LatencyResult)
    requires |attempts| == LatencyAttempts
    ensures r == TestLatencyResult(endpoint, attempts)
  {
    if HostName.Normalise(endpoint).None? {
      return Unavailable;
    }
    var pings := new int[LatencyAttempts];
    var successfulPings := 0;
    var i := 0;
    while i < LatencyAttempts
      invariant 0 <= successfulPings <= i <= LatencyAttempts
      invariant pings[..successfulPings] == Samples(attempts[..i])
      invariant !Interrupted(attempts[..i])
    {
      AttemptStep(attempts, i);
      if attempts[i].reply.Reachable? {
        pings[successfulPings] := attempts[i].reply.rtt;
        successfulPings := successfulPings + 1;
      }
      if attempts[i].pauseInterrupted {
        InterruptedAt(attempts, i);
        return Unavailable;
      }
      i := i + 1;
    }
    ghost var s := pings[..successfulPings];
    LatencyOfCompletedLoop(endpoint, attempts, i, s);
    if successfulPings == 0 {
      return Unavailable;
    }
    r := AggregatePings(pings, successfulPings);
  }

  /** The aggregation pass of `testLatency` over the first `n` stored samples:
      sum, running minimum from Long.MAX_VALUE, running maximum from 0. */
  method AggregatePings(pings: array<int>, n: int) returns (r: LatencyResult)
    requires 0 < n <= pings.Length
    ensures r == Aggregate(pings[..n])
  {
    ghost var s := pings[..n];
    var sum, min, max := 0, LongMax, 0;
    for k := 0 to n
      invariant sum == Sum(s[..k])
      invariant min == MinFrom(LongMax, s[..k])
      invariant max == MaxFrom(0, s[..k])
    {
      RunningStep(s, k);
      assert pings[k] == s[k];
      sum := sum + pings[k];
      if pings[k] < min { min := pings[k]; }
      if pings[k] > max { max := pings[k]; }
    }
    assert s[..n] == s;
    r := LatencyResult(JavaDiv(sum, n), min, max, max - min);
  }

  /** One more attempt extends the samples by its round trip, if any, and the
      interruption flag by its pause. */
  lemma AttemptStep(a: seq<Attempt>, i: nat)
    requires i < |a|
    ensures Samples(a[..i + 1]) == Samples(a[..i]) + (if a[i].reply.Reachable? then [a[i].reply.rtt] else [])
    ensures Interrupted(a[..i + 1]) <==> Interrupted(a[..i]) || a[i].pauseInterrupted
  {
    var p, q := a[..i], a[..i + 1];
    assert q[..i] == p;
    assert Last(q) == a[i];
    if a[i].pauseInterrupted {
      assert q[i].pauseInterrupted;
    }
    if Interrupted(p) {
      var k :| 0 <= k < i && p[k].pauseInterrupted;
      assert q[k] == p[k];
    }
    if Interrupted(q) {
      var k :| 0 <= k <= i && q[k].pauseInterrupted;
      if k < i {
        assert p[k] == q[k];
      }
    }
  }

  lemma SumStep(s: seq<int>, x: int)
    ensures Sum(s + [x]) == Sum(s) + x
  {
    assert (s + [x])[..|s|] == s;
  }

  /** One more element of the aggregation loop. */
  lemma RunningStep(s: seq<int>, k: nat)
    requires k < |s|
    ensures Sum(s[..k + 1]) == Sum(s[..k]) + s[k]
    ensures MinFrom(LongMax, s[..k + 1]) == if s[k] < MinFrom(LongMax, s[..k]) then s[k] else MinFrom(LongMax, s[..k])
    ensures MaxFrom(0, s[..k + 1]) == if s[k] > MaxFrom(0, s[..k]) then s[k] else MaxFrom(0, s[..k])
  {
    assert s[..k + 1][..k] == s[..k];
  }

  // ---------------------------------------------------------------------------
  // Properties of the aggregation

  /** The running minimum is at most every sample and at most its start, and is
      one of them. */
  lemma {:induction false} MinFromIsMinimum(init: int, s: seq<int>)
    ensures MinFrom(init, s) <= init
    ensures forall k :: 0 <= k < |s| ==> MinFrom(init, s) <= s[k]
    ensures MinFrom(init, s) == init || MinFrom(init, s) in s
  {
    if s != [] {
      var p := s[..|s| - 1];
      MinFromIsMinimum(init, p);
      assert forall k :: 0 <= k < |p| ==> s[k] == p[k];
      assert MinFrom(init, p) in p ==> MinFrom(init, p) in s;
    }
  }

  /** The running maximum is at least every sample and at least its start, and is
      one of them. */
  lemma {:induction false} MaxFromIsMaximum(init: int, s: seq<int>)
    ensures MaxFrom(init, s) >= init
    ensures forall k :: 0 <= k < |s| ==> MaxFrom(init, s) >= s[k]
    ensures MaxFrom(init, s) == init || MaxFrom(init, s) in s
  {
    if s != [] {
      var p := s[..|s| - 1];
      MaxFromIsMaximum(init, p);
      assert forall k :: 0 <= k < |p| ==> s[k] == p[k];
      assert MaxFrom(init, p) in p ==> MaxFrom(init, p) in s;
    }
  }

  /** A sum of samples that all lie in [lo, hi] lies in [n * lo, n * hi]. */
  lemma {:induction false} SumBetween(s: seq<int>, lo: int, hi: int)
    requires forall k :: 0 <= k < |s| ==> lo <= s[k] <= hi
    ensures |s| * lo <= Sum(s) <= |s| * hi
  {
    if s != [] {
      var p := s[..|s| - 1];
      assert forall k :: 0 <= k < |p| ==> p[k] == s[k];
      SumBetween(p, lo, hi);
      assert |s| * lo == |p| * lo + lo && |s| * hi == |p| * hi + hi;
    }
  }

  /** The truncated mean lies between the smallest and the largest sample. */
  lemma MeanBetween(s: seq<int>, lo: int, hi: int)
    requires |s| > 0
    requires forall k :: 0 <= k < |s| ==> lo <= s[k] <= hi
    ensures lo <= JavaDiv(Sum(s), |s|) <= hi
  {
    SumBetween(s, lo, hi);
    JavaDivBetween(Sum(s), |s|, lo, hi);
  }

  /** With at least one sample, min <= average <= max and the jitter is the
      non-negative spread max - min. This holds for any samples, because the
      running minimum starts above and the running maximum below them. */
  lemma AggregateOrdered(s: seq<int>)
    requires |s| > 0
    ensures var r := Aggregate(s);
      r.min <= r.average <= r.max && r.jitter == r.max - r.min >= 0
  {
    MinFromIsMinimum(LongMax, s);
    MaxFromIsMaximum(0, s);
    MeanBetween(s, MinFrom(LongMax, s), MaxFrom(0, s));
  }

  /** When the samples are non-negative and fit a Java long (as clock differences
      do), min and max are the smallest and the largest sample. */
  lemma AggregateExact(s: seq<int>)
    requires |s| > 0
    requires forall k :: 0 <= k < |s| ==> 0 <= s[k] <= LongMax
    ensures var r := Aggregate(s);
      r.min in s && r.max in s &&
      forall k :: 0 <= k < |s| ==> r.min <= s[k] <= r.max
  {
    MinFromIsMinimum(LongMax, s);
    MaxFromIsMaximum(0, s);
    var r := Aggregate(s);
    if r.min == LongMax { assert s[0] <= LongMax; assert s[0] == LongMax; }
    if r.max == 0 { assert s[0] >= 0; assert s[0] == 0; }
  }

  /** Every sample is the round trip of a successful attempt, and every successful
      attempt gave a sample. */
  lemma {:induction false} SamplesAreReachableRtts(a: seq<Attempt>)
    ensures |Samples(a)| == |ReachableIndices(a)|
    ensures forall j :: 0 <= j < |Samples(a)| ==>
      ReachableIndices(a)[j] < |a| && a[ReachableIndices(a)[j]].reply == Reachable(Samples(a)[j])
  {
    if a != [] {
      var p := a[..|a| - 1];
      SamplesAreReachableRtts(p);
      assert forall k :: 0 <= k < |p| ==> a[k] == p[k];
    }
  }

  /** The indices of the successful attempts, in increasing order. */
  function ReachableIndices(a: seq<Attempt>): (ix: seq<nat>)
    ensures forall j :: 0 <= j < |ix| ==> ix[j] < |a| && a[ix[j]].reply.Reachable?
    ensures forall j, k :: 0 <= j < k < |ix| ==> ix[j] < ix[k]
    ensures forall k :: 0 <= k < |a| && a[k].reply.Reachable? ==> k in ix
  {
    if a == [] then []
    else
      var p := ReachableIndices(a[..|a| - 1]);
      if Last(a).reply.Reachable? then p + [|a| - 1] else p
  }

  /** The quick ping: -1 exactly when the host is malformed, a pause is
      interrupted or nothing succeeded (given non-negative round trips);
      otherwise the truncated mean, which lies between the smallest and the
      largest round trip (`MinFrom(s[0], s)` and `MaxFrom(s[0], s)` are those,
      by `MinFromIsMinimum` and `MaxFromIsMaximum`). */
  lemma QuickPingMeaning(endpoint: string, attempts: seq<Attempt>)
    ensures var s := Samples(attempts);
      var failed := HostName.Normalise(endpoint).None? || Interrupted(attempts) || |s| == 0;
      (failed ==> QuickPing(endpoint, attempts) == -1) &&
      (!failed ==> MinFrom(s[0], s) <= QuickPing(endpoint, attempts) <= MaxFrom(s[0], s)) &&
      (!failed && (forall k :: 0 <= k < |s| ==> s[k] >= 0) ==> QuickPing(endpoint, attempts) >= 0)
  {
    var s := Samples(attempts);
    if |s| > 0 {
      MinFromIsMinimum(s[0], s);
      MaxFromIsMaximum(s[0], s);
      MeanBetween(s, MinFrom(s[0], s), MaxFrom(s[0], s));
      if forall k :: 0 <= k < |s| ==> s[k] >= 0 {
        MeanBetween(s, 0, MaxFrom(s[0], s));
      }
    }
  }

  /** The latency test: the all -1 sentinel when the host is malformed, a pause is
      interrupted or nothing succeeded; otherwise ordered statistics. */
  lemma TestLatencyMeaning(endpoint: string, attempts: seq<Attempt>)
    ensures var s := Samples(attempts);
      var r := TestLatencyResult(endpoint, attempts);
      var failed := HostName.Normalise(endpoint).None? || Interrupted(attempts) || |s| == 0;
      (failed ==> r == Unavailable) &&
      (!failed ==> r.min <= r.average <= r.max && r.jitter == r.max - r.min >= 0)
  {
    var s := Samples(attempts);
    if |s| > 0 {
      AggregateOrdered(s);
    }
  }
}
