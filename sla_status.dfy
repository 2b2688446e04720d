/**
 * The SLA status query: for each open or in-progress ticket with an SLA,
 * classify the first-response clock and the resolution clock as within,
 * warning or breached, report the worse of the two and the minutes left on
 * each clock.
 *
 * Time is in integer milliseconds (what `Date.getTime()` returns) and the
 * current instant is a parameter, one reading per ticket. The route compares hours as fractions,
 * `elapsedMs / 3600000 >= thresholdMinutes / 60`; over exact arithmetic that
 * is `elapsedMs >= thresholdMinutes * 60000`, and the 80 % warning level
 * `elapsedMs >= 0.8 * thresholdMs` is `5 * elapsedMs >= 4 * thresholdMs`.
 */
module SlaStatusRoute {
  import opened Wrappers

  const MsPerMinute: int := 60000

  datatype Level = Within | Warning | Breached

  /** The severity order within < warning < breached. */
  function Rank(l: Level): nat
  {
    match l
    case Within => 0
    case Warning => 1
    case Breached => 2
  }

  /** The worse of two classifications: the least level at least as severe as both. */
  function Worse(a: Level, b: Level): (r: Level)
    ensures Rank(a) <= Rank(r) && Rank(b) <= Rank(r)
    ensures r == a || r == b
  {
    if Rank(a) >= Rank(b) then a else b
  }

  /** The SLA record attached to a ticket; both times are in minutes. */
  datatype Sla = Sla(firstResponseTime: int, resolutionTime: int)

  /** The ticket fields the route reads. */
  datatype Ticket = Ticket(
    id: int,
    status: string,
    createdAt: int,
    firstResponseAt: Option<int>,
    sla: Option<Sla>)

  /** One element of the response. */
  datatype SlaStatus = SlaStatus(
    ticketId: int,
    status: Level,
    responseTimeRemaining: int,
    resolutionTimeRemaining: int,
    isPaused: bool,
    pauseReason: Option<string>)

  /**
   * Reference classification of one clock: breached from the threshold on,
   * warning from 80 % of it, within below that.
   */
  function ClockLevel(elapsed: int, thresholdMinutes: int): (r: Level)
    ensures r == Breached <==> elapsed >= thresholdMinutes * MsPerMinute
    ensures r == Warning <==>
      elapsed < thresholdMinutes * MsPerMinute && 5 * elapsed >= 4 * (thresholdMinutes * MsPerMinute)
    ensures r == Within <==>
      elapsed < thresholdMinutes * MsPerMinute && 5 * elapsed < 4 * (thresholdMinutes * MsPerMinute)
  {
    var threshold := thresholdMinutes * MsPerMinute;
    if elapsed >= threshold then Breached
    else if 5 * elapsed >= 4 * threshold then Warning
    else Within
  }

  /**
   * A non-negative duration rounded to the nearest minute, halves up, in exact
   * arithmetic. The route rounds a floating-point product instead, which can
   * fall just below an exact half minute and round down.
   */
  function RoundToMinutes(ms: int): (r: int)
    requires ms >= 0
    ensures r >= 0
    ensures 2 * r * MsPerMinute <= 2 * ms + MsPerMinute < 2 * (r + 1) * MsPerMinute
  {
    (ms + MsPerMinute / 2) / MsPerMinute
  }

  /**
   * The minutes left on a clock: `Math.round(Math.max(0, threshold - elapsed) * 60)`
   * with threshold and elapsed time in hours, taken over exact arithmetic.
   */
  function RemainingMinutes(elapsed: int, thresholdMinutes: int): (r: int)
    ensures r >= 0
    ensures elapsed >= thresholdMinutes * MsPerMinute ==> r == 0
    ensures elapsed < thresholdMinutes * MsPerMinute ==>
      2 * r * MsPerMinute <= 2 * (thresholdMinutes * MsPerMinute - elapsed) + MsPerMinute
      < 2 * (r + 1) * MsPerMinute
  {
    var left := thresholdMinutes * MsPerMinute - elapsed;
    RoundToMinutes(if left > 0 then left else 0)
  }

  /** When the elapsed time is whole minutes below the threshold, the minutes left are exact. */
  lemma RemainingWholeMinutes(elapsedMinutes: int, thresholdMinutes: int)
    requires elapsedMinutes < thresholdMinutes
    ensures RemainingMinutes(elapsedMinutes * MsPerMinute, thresholdMinutes) == thresholdMinutes - elapsedMinutes
  {
    var r := RemainingMinutes(elapsedMinutes * MsPerMinute, thresholdMinutes);
    var k := thresholdMinutes - elapsedMinutes;
    assert thresholdMinutes * MsPerMinute - elapsedMinutes * MsPerMinute == k * MsPerMinute;
    assert 2 * r * MsPerMinute <= 2 * k * MsPerMinute + MsPerMinute < 2 * (r + 1) * MsPerMinute;
  }

  /** Reference state of the first-response clock: it counts only while there is no first response. */
  function ResponseLevel(t: Ticket, now: int): Level
  {
    match t.sla
    case None => Within
    case Some(sla) =>
      if t.firstResponseAt.Some? then Within else ClockLevel(now - t.createdAt, sla.firstResponseTime)
  }

  /** Reference state of the resolution clock: it counts unless the ticket is resolved. */
  function ResolutionLevel(t: Ticket, now: int): Level
  {
    match t.sla
    case None => Within
    case Some(sla) =>
      if t.status == "resolved" then Within else ClockLevel(now - t.createdAt, sla.resolutionTime)
  }

  /**
   * The body of the route's `tickets.map` callback. The local `status` starts at
   * within, is overwritten by the response check when there is no first
   * response, and then by the resolution check, which never turns breached
   * back into warning.
   */
  function EvaluateTicket(t: Ticket, now: int): (r: SlaStatus)
    ensures r.ticketId == t.id && !r.isPaused && r.pauseReason == None
    ensures r.status == Worse(ResponseLevel(t, now), ResolutionLevel(t, now))
    ensures r.status == Breached <==>
      ResponseLevel(t, now) == Breached || ResolutionLevel(t, now) == Breached
    ensures r.responseTimeRemaining >= 0 && r.resolutionTimeRemaining >= 0
    ensures t.sla == None ==>
      r.status == Within && r.responseTimeRemaining == 0 && r.resolutionTimeRemaining == 0
    ensures t.firstResponseAt.Some? ==>
      r.responseTimeRemaining == 0 && r.status == ResolutionLevel(t, now)
    ensures t.sla.Some? ==>
      r.resolutionTimeRemaining == RemainingMinutes(now - t.createdAt, t.sla.value.resolutionTime)
    ensures t.sla.Some? && t.firstResponseAt == None ==>
      r.responseTimeRemaining == RemainingMinutes(now - t.createdAt, t.sla.value.firstResponseTime)
  {
    var elapsed := now - t.createdAt;
    match t.sla
    case None => SlaStatus(t.id, Within, 0, 0, false, None)
    case Some(sla) =>
      var responseMs := sla.firstResponseTime * MsPerMinute;
      var resolutionMs := sla.resolutionTime * MsPerMinute;
      var responseRemaining :=
        if t.firstResponseAt == None then RemainingMinutes(elapsed, sla.firstResponseTime) else 0;
      var afterResponse :=
        if t.firstResponseAt.Some? then Within
        else if elapsed >= responseMs then Breached
        else if 5 * elapsed >= 4 * responseMs then Warning
        else Within;
      var resolutionRemaining := RemainingMinutes(elapsed, sla.resolutionTime);
      var status :=
        if elapsed >= resolutionMs && t.status != "resolved" then Breached
        else if 5 * elapsed >= 4 * resolutionMs && t.status != "resolved" then
          (if afterResponse != Breached then Warning else afterResponse)
        else afterResponse;
      SlaStatus(t.id, status, responseRemaining, resolutionRemaining, false, None)
  }

  /** The database query selects only these statuses. */
  predicate IsQueried(t: Ticket)
  {
    t.status == "open" || t.status == "in_progress"
  }

  /** On a queried ticket the route's `status !== 'resolved'` guard always passes. */
  lemma QueriedIsNotResolved(t: Ticket)
    requires IsQueried(t)
    ensures t.status != "resolved"
  {
    assert |"resolved"| == 8;
  }

  /**
   * The route's response: one status per queried ticket, in the query's order.
   * The route reads the clock inside the `map` callback, once per ticket, so
   * `nows[i]` is the instant read while evaluating `tickets[i]`; two equal
   * tickets evaluated at different instants may be classified differently.
   */
  function SlaStatuses(tickets: seq<Ticket>, nows: seq<int>): (r: seq<SlaStatus>)
    requires |nows| == |tickets|
    requires forall i :: 0 <= i < |tickets| ==> IsQueried(tickets[i])
    ensures |r| == |tickets|
    ensures forall i :: 0 <= i < |tickets| ==>
      r[i].ticketId == tickets[i].id && !r[i].isPaused && r[i].pauseReason == None
    ensures forall i :: 0 <= i < |tickets| && tickets[i].sla.Some? ==>
      r[i].status == Worse(ResponseLevel(tickets[i], nows[i]),
                           ClockLevel(nows[i] - tickets[i].createdAt, tickets[i].sla.value.resolutionTime))
    ensures forall i :: 0 <= i < |tickets| && tickets[i].sla == None ==>
      r[i].status == Within && r[i].responseTimeRemaining == 0 && r[i].resolutionTimeRemaining == 0
    ensures forall i :: 0 <= i < |tickets| && tickets[i].sla.Some? ==>
      r[i].resolutionTimeRemaining ==
        RemainingMinutes(nows[i] - tickets[i].createdAt, tickets[i].sla.value.resolutionTime)
    ensures forall i :: 0 <= i < |tickets| && tickets[i].sla.Some? ==>
      r[i].responseTimeRemaining ==
        (if tickets[i].firstResponseAt == None
         then RemainingMinutes(nows[i] - tickets[i].createdAt, tickets[i].sla.value.firstResponseTime)
         else 0)
  {
    assert forall i :: 0 <= i < |tickets| ==> tickets[i].status != "resolved" by {
      forall i | 0 <= i < |tickets| {
        QueriedIsNotResolved(tickets[i]);
      }
    }
    seq(|tickets|, i requires 0 <= i < |tickets| => EvaluateTicket(tickets[i], nows[i]))
  }

  /**
   * The per-ticket clock reading matters: the same ticket read just before and
   * just at its 80 % mark (96 of 120 minutes) yields within and then warning in
   * one response.
   */
  lemma ClockReadPerTicket(id: int, t0: int)
    ensures var t := Ticket(id, "open", t0, None, Some(Sla(120, 1440)));
      var r := SlaStatuses([t, t], [t0 + 96 * MsPerMinute - 1, t0 + 96 * MsPerMinute]);
      r[0].status == Within && r[1].status == Warning
  {
  }

  /** A first-response threshold of two hours, 100 minutes in: warning, 20 minutes left. */
  lemma WarningScenario(id: int, t0: int)
    ensures var t := Ticket(id, "open", t0, None, Some(Sla(120, 1440)));
      var r := EvaluateTicket(t, t0 + 100 * MsPerMinute);
      r.status == Warning && r.responseTimeRemaining == 20
  {
    RemainingWholeMinutes(100, 120);
    RemainingWholeMinutes(100, 1440);
  }

  /** The same ticket 125 minutes in: breached, and the overdue time is reported as 0. */
  lemma BreachScenario(id: int, t0: int)
    ensures var t := Ticket(id, "open", t0, None, Some(Sla(120, 1440)));
      var r := EvaluateTicket(t, t0 + 125 * MsPerMinute);
      r.status == Breached && r.responseTimeRemaining == 0
  {
  }
}
