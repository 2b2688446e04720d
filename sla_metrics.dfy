/**
 * The SLA metrics query: every ticket goes into one of three buckets (within
 * SLA, at risk, breached) by a priority-dependent threshold, and the
 * resolution and first-response durations are collected for two averages.
 *
 * Time is in integer milliseconds and the current instant is a parameter. The
 * route compares hours, `elapsedMs / 3600000 <= thresholdHours`; over exact
 * arithmetic that is `elapsedMs <= thresholdHours * 3600000`, and the warning
 * level `0.8 * threshold` becomes `5 * elapsedMs <= 4 * thresholdMs`.
 */
module SlaMetricsRoute {
  import opened Wrappers
  import opened Seqs

  const MsPerHour: int := 3600000

  /** The ticket fields the route reads; `firstCommentAt` is the creation time of the earliest comment. */
  datatype Ticket = Ticket(
    priority: string,
    status: string,
    createdAt: int,
    updatedAt: Option<int>,
    firstCommentAt: Option<int>)

  datatype Bucket = WithinSla | AtRisk | BreachedSla

  /** The response body, without the two-decimal rounding of the averages. */
  datatype SlaMetrics = SlaMetrics(
    withinSLA: int,
    atRisk: int,
    breached: int,
    averageResponseTime: real,
    averageResolutionTime: real)

  /** The SLA threshold in hours: 4 for high, 8 for medium, 24 for every other priority. */
  function ThresholdHours(priority: string): (h: int)
    ensures h == 4 <==> priority == "high"
    ensures h == 8 <==> priority == "medium"
    ensures h == 4 || h == 8 || h == 24
  {
    if priority == "high" then 4 else if priority == "medium" then 8 else 24
  }

  predicate IsFinished(t: Ticket)
  {
    t.status == "closed" || t.status == "resolved"
  }

  predicate HasComment(t: Ticket)
  {
    t.firstCommentAt.Some?
  }

  /** The resolution time of a finished ticket: from creation to its last update, 0 without one. */
  function ResolutionMs(t: Ticket): int
  {
    match t.updatedAt
    case Some(u) => u - t.createdAt
    case None => 0
  }

  /** The time from creation to the first comment. */
  function ResponseMs(t: Ticket): int
    requires HasComment(t)
  {
    t.firstCommentAt.value - t.createdAt
  }

  /** Reference classification of one ticket. */
  function BucketOf(t: Ticket, now: int): (b: Bucket)
    ensures IsFinished(t) ==> b != AtRisk
    ensures IsFinished(t) ==>
      (b == WithinSla <==> ResolutionMs(t) <= ThresholdHours(t.priority) * MsPerHour)
    ensures !IsFinished(t) ==>
      (b == WithinSla <==> 5 * (now - t.createdAt) <= 4 * (ThresholdHours(t.priority) * MsPerHour))
    ensures !IsFinished(t) ==>
      (b == AtRisk <==>
        4 * (ThresholdHours(t.priority) * MsPerHour) < 5 * (now - t.createdAt)
        && now - t.createdAt <= ThresholdHours(t.priority) * MsPerHour)
    ensures !IsFinished(t) ==>
      (b == BreachedSla <==> now - t.createdAt > ThresholdHours(t.priority) * MsPerHour)
  {
    var threshold := ThresholdHours(t.priority) * MsPerHour;
    var elapsed := now - t.createdAt;
    if IsFinished(t) then
      if ResolutionMs(t) <= threshold then WithinSla else BreachedSla
    else if 5 * elapsed <= 4 * threshold then WithinSla
    else if elapsed <= threshold then AtRisk
    else BreachedSla
  }

  /** How many of `ts` fall into bucket `b`. */
  function CountBucket(ts: seq<Ticket>, now: int, b: Bucket): nat
    decreases |ts|
  {
    if |ts| == 0 then 0
    else CountBucket(ts[..|ts| - 1], now, b) + (if BucketOf(ts[|ts| - 1], now) == b then 1 else 0)
  }

  /** The `resolutionTimes` list after visiting `ts`. */
  function ResolutionSamples(ts: seq<Ticket>): seq<int>
    decreases |ts|
  {
    if |ts| == 0 then []
    else
      var last := ts[|ts| - 1];
      ResolutionSamples(ts[..|ts| - 1]) + (if IsFinished(last) then [ResolutionMs(last)] else [])
  }

  /** The `responseTimes` list after visiting `ts`. */
  function ResponseSamples(ts: seq<Ticket>): seq<int>
    decreases |ts|
  {
    if |ts| == 0 then []
    else
      var last := ts[|ts| - 1];
      ResponseSamples(ts[..|ts| - 1]) + (if HasComment(last) then [ResponseMs(last)] else [])
  }

  /** Every ticket is counted in exactly one bucket. */
  lemma {:induction false} BucketsPartition(ts: seq<Ticket>, now: int)
    ensures CountBucket(ts, now, WithinSla) + CountBucket(ts, now, AtRisk)
            + CountBucket(ts, now, BreachedSla) == |ts|
    decreases |ts|
  {
    if |ts| > 0 {
      BucketsPartition(ts[..|ts| - 1], now);
    }
  }

  /** No finished ticket is ever at risk. */
  lemma {:induction false} FinishedNeverAtRisk(ts: seq<Ticket>, now: int)
    requires forall i :: 0 <= i < |ts| ==> IsFinished(ts[i])
    ensures CountBucket(ts, now, AtRisk) == 0
    decreases |ts|
  {
    if |ts| > 0 {
      FinishedNeverAtRisk(ts[..|ts| - 1], now);
    }
  }

  /** `resolutionTimes` holds one duration per closed or resolved ticket, in order. */
  lemma {:induction false} ResolutionSamplesAreFinished(ts: seq<Ticket>)
    ensures var done := Filter(ts, t => IsFinished(t));
      |ResolutionSamples(ts)| == |done| &&
      forall i :: 0 <= i < |done| ==> ResolutionSamples(ts)[i] == ResolutionMs(done[i])
    decreases |ts|
  {
    if |ts| > 0 {
      var init, last := ts[..|ts| - 1], ts[|ts| - 1];
      ResolutionSamplesAreFinished(init);
      assert ts == init + [last];
      FilterConcat(init, [last], t => IsFinished(t));
    }
  }

  /** `responseTimes` holds one duration per ticket with a comment, in order. */
  lemma {:induction false} ResponseSamplesAreCommented(ts: seq<Ticket>)
    ensures var answered := Filter(ts, t => HasComment(t));
      |ResponseSamples(ts)| == |answered| &&
      forall i :: 0 <= i < |answered| ==> ResponseSamples(ts)[i] == ResponseMs(answered[i])
    decreases |ts|
  {
    if |ts| > 0 {
      var init, last := ts[..|ts| - 1], ts[|ts| - 1];
      ResponseSamplesAreCommented(init);
      assert ts == init + [last];
      FilterConcat(init, [last], t => HasComment(t));
    }
  }

  /** The mean of the samples: 0 for no samples, otherwise sum divided by count. */
  function Average(xs: seq<int>): (r: real)
    ensures |xs| == 0 ==> r == 0.0
    ensures |xs| > 0 ==> r * (|xs| as real) == Sum(xs) as real
  {
    if |xs| > 0 then Sum(xs) as real / (|xs| as real) else 0.0
  }

  /** The mean in hours, the unit the route reports. */
  function AverageHours(xs: seq<int>): real
  {
    Average(xs) / (MsPerHour as real)
  }

  /** The route's `forEach` over the tickets and the two averages after it. */
  method ComputeMetrics(tickets: seq<Ticket>, now: int)
    returns (m: SlaMetrics, responseTimes: seq<int>, resolutionTimes: seq<int>)
    ensures m.withinSLA == CountBucket(tickets, now, WithinSla)
    ensures m.atRisk == CountBucket(tickets, now, AtRisk)
    ensures m.breached == CountBucket(tickets, now, BreachedSla)
    ensures m.withinSLA + m.atRisk + m.breached == |tickets|
    ensures resolutionTimes == ResolutionSamples(tickets)
    ensures responseTimes == ResponseSamples(tickets)
    ensures |resolutionTimes| == |Filter(tickets, t => IsFinished(t))|
    ensures |responseTimes| == |Filter(tickets, t => HasComment(t))|
    ensures m.averageResponseTime == AverageHours(responseTimes)
    ensures m.averageResolutionTime == AverageHours(resolutionTimes)
  {
    var withinSLA, atRisk, breached := 0, 0, 0;
    responseTimes, resolutionTimes := [], [];
    var i := 0;
    while i < |tickets|
      invariant 0 <= i <= |tickets|
      invariant withinSLA == CountBucket(tickets[..i], now, WithinSla)
      invariant atRisk == CountBucket(tickets[..i], now, AtRisk)
      invariant breached == CountBucket(tickets[..i], now, BreachedSla)
      invariant resolutionTimes == ResolutionSamples(tickets[..i])
      invariant responseTimes == ResponseSamples(tickets[..i])
    {
      var ticket := tickets[i];
      var elapsed := now - ticket.createdAt;
      var slaThreshold := if ticket.priority == "high" then 4 else if ticket.priority == "medium" then 8 else 24;
      var thresholdMs := slaThreshold * MsPerHour;
      if ticket.status == "closed" || ticket.status == "resolved" {
        var resolutionTime := if ticket.updatedAt.Some? then ticket.updatedAt.value - ticket.createdAt else 0;
        resolutionTimes := resolutionTimes + [resolutionTime];
        if resolutionTime <= thresholdMs {
          withinSLA := withinSLA + 1;
        } else {
          breached := breached + 1;
        }
      } else {
        if 5 * elapsed <= 4 * thresholdMs {
          withinSLA := withinSLA + 1;
        } else if elapsed <= thresholdMs {
          atRisk := atRisk + 1;
        } else {
          breached := breached + 1;
        }
      }
      if ticket.firstCommentAt.Some? {
        responseTimes := responseTimes + [ticket.firstCommentAt.value - ticket.createdAt];
      }
      assert tickets[..i + 1][..i] == tickets[..i];
      i := i + 1;
    }
    assert tickets[..i] == tickets;
    BucketsPartition(tickets, now);
    ResolutionSamplesAreFinished(tickets);
    ResponseSamplesAreCommented(tickets);
    m := SlaMetrics(withinSLA, atRisk, breached, AverageHours(responseTimes), AverageHours(resolutionTimes));
  }
}
