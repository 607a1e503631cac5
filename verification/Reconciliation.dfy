/** The reconciliation report: one pass over the payments of a time window. */
module Reconciliation {
  import opened Collections
  import opened PaymentTable
  import opened Rounding
  import opened Wrappers

  datatype Payment = Payment(id: PaymentId, originRail: Rail, row: Row)

  datatype Summary = Summary(
    total: nat, completed: nat, failed: nat, rejected: nat, stuckInQueue: nat, deadLetter: nat, compensated: nat)

  datatype Stuck = Stuck(
    id: PaymentId, status: Status, originRail: Rail, destination: Option<Rail>, queuedAt: Time, minutes: int)

  datatype Anomaly = StalledPipeline(id: PaymentId, stalledIn: Status, age: int)

  datatype Stats = Stats(sent: nat, completed: nat, failed: nat, rejected: nat, latencies: seq<int>)

  datatype RailLine = RailLine(
    rail: Rail, sent: nat, completed: nat, failed: nat, rejected: nat, successRate: int, avgLatency: Option<int>)

  datatype Report = Report(summary: Summary, stuck: seq<Stuck>, rails: seq<RailLine>, anomalies: seq<Anomaly>)

  const NO_STATS := Stats(0, 0, 0, 0, [])

  function DestinationOf(p: Payment): Rail {
    if p.row.destination.Some? then p.row.destination.value else "UNKNOWN"
  }

  // ---------- one payment ----------

  /** Queued, with a queueing time, for longer than the threshold. */
  predicate IsStuck(p: Payment, now: Time, thresholdMs: int) {
    && p.row.status in {QUEUED, SENT_TO_DESTINATION}
    && p.row.queuedAt.Some? && p.row.queuedAt.value > 0 && now - p.row.queuedAt.value > thresholdMs
  }

  function StuckOf(p: Payment, now: Time): Stuck
    requires p.row.queuedAt.Some?
  {
    Stuck(p.id, p.row.status, p.originRail, p.row.destination, p.row.queuedAt.value,
          (2 * (now - p.row.queuedAt.value) + 60000) / 120000)
  }

  predicate IsStalled(p: Payment, now: Time, thresholdMs: int) {
    p.row.status in {CANONICALIZED, ROUTED} && now - p.row.createdAt > thresholdMs
  }

  function Tallied(s: Summary, p: Payment, now: Time, thresholdMs: int): Summary {
    match p.row.status
    case COMPLETED => s.(completed := s.completed + 1)
    case FAILED => s.(failed := s.failed + 1)
    case REJECTED => s.(rejected := s.rejected + 1)
    case DEAD_LETTER => s.(deadLetter := s.deadLetter + 1)
    case COMPENSATED => s.(compensated := s.compensated + 1)
    case QUEUED => if IsStuck(p, now, thresholdMs) then s.(stuckInQueue := s.stuckInQueue + 1) else s
    case SENT_TO_DESTINATION => if IsStuck(p, now, thresholdMs) then s.(stuckInQueue := s.stuckInQueue + 1) else s
    case _ => s
  }

  function LatencyOf(p: Payment): seq<int> {
    if p.row.status == COMPLETED && p.row.completedAt.Some? then [p.row.completedAt.value - p.row.createdAt] else []
  }

  function Counted(s: Stats, p: Payment): Stats {
    Stats(s.sent + 1,
          if p.row.status == COMPLETED then s.completed + 1 else s.completed,
          if p.row.status == FAILED then s.failed + 1 else s.failed,
          if p.row.status == REJECTED then s.rejected + 1 else s.rejected,
          s.latencies + LatencyOf(p))
  }

  // ---------- what the pass computes ----------

  function SummaryOf(ps: seq<Payment>, total: nat, now: Time, thresholdMs: int): Summary {
    if ps == [] then Summary(total, 0, 0, 0, 0, 0, 0)
    else Tallied(SummaryOf(ps[..|ps| - 1], total, now, thresholdMs), ps[|ps| - 1], now, thresholdMs)
  }

  function StucksOf(ps: seq<Payment>, now: Time, thresholdMs: int): seq<Stuck> {
    if ps == [] then []
    else
      var last := ps[|ps| - 1];
      StucksOf(ps[..|ps| - 1], now, thresholdMs) + if IsStuck(last, now, thresholdMs) then [StuckOf(last, now)] else []
  }

  function AnomaliesOf(ps: seq<Payment>, now: Time, thresholdMs: int): seq<Anomaly> {
    if ps == [] then []
    else
      var last := ps[|ps| - 1];
      AnomaliesOf(ps[..|ps| - 1], now, thresholdMs)
        + if IsStalled(last, now, thresholdMs)
          then [StalledPipeline(last.id, last.row.status, now - last.row.createdAt)] else []
  }

  /** The destination rails in the order of their first payment. */
  function RailsOf(ps: seq<Payment>): seq<Rail> {
    if ps == [] then []
    else
      var prior, rail := RailsOf(ps[..|ps| - 1]), DestinationOf(ps[|ps| - 1]);
      if rail in prior then prior else prior + [rail]
  }

  /** Every destination is listed, once. */
  lemma {:induction false} RailsAreListed(ps: seq<Payment>)
    ensures Distinct(RailsOf(ps)) && forall i :: 0 <= i < |ps| ==> DestinationOf(ps[i]) in RailsOf(ps)
  {
    if ps != [] {
      var front := ps[..|ps| - 1];
      RailsAreListed(front);
      assert forall i :: 0 <= i < |front| ==> front[i] == ps[i];
    }
  }

  function StatsOf(ps: seq<Payment>, rail: Rail): Stats {
    if ps == [] then NO_STATS
    else
      var prior := StatsOf(ps[..|ps| - 1], rail);
      if DestinationOf(ps[|ps| - 1]) == rail then Counted(prior, ps[|ps| - 1]) else prior
  }

  function Sum(s: seq<int>): int {
    if s == [] then 0 else Sum(s[..|s| - 1]) + s[|s| - 1]
  }

  function LineOf(rail: Rail, s: Stats): RailLine {
    RailLine(rail, s.sent, s.completed, s.failed, s.rejected,
             if s.sent > 0 then RoundDiv(100 * s.completed, s.sent) else 0,
             if s.latencies != [] then Some(RoundDiv(Sum(s.latencies), |s.latencies|)) else None)
  }

  function LinesOf(ps: seq<Payment>, rails: seq<Rail>): seq<RailLine> {
    if rails == [] then []
    else LinesOf(ps, rails[..|rails| - 1]) + [LineOf(rails[|rails| - 1], StatsOf(ps, rails[|rails| - 1]))]
  }

  function ReportOf(ps: seq<Payment>, now: Time, thresholdMs: int): Report {
    Report(SummaryOf(ps, |ps|, now, thresholdMs), StucksOf(ps, now, thresholdMs), LinesOf(ps, RailsOf(ps)),
           AnomaliesOf(ps, now, thresholdMs))
  }

  // ---------- the pass ----------

  method AddLatencies(latencies: seq<int>) returns (sum: int)
    ensures sum == Sum(latencies)
  {
    sum := 0;
    for i := 0 to |latencies|
      invariant sum == Sum(latencies[..i])
    {
      assert latencies[..i + 1][..i] == latencies[..i];
      sum := sum + latencies[i];
    }
    assert latencies[..|latencies|] == latencies;
  }

  method BuildBreakdown(ghost ps: seq<Payment>, order: seq<Rail>, railStats: map<Rail, Stats>)
    returns (lines: seq<RailLine>)
    requires forall r :: r in order ==> r in railStats && railStats[r] == StatsOf(ps, r)
    ensures lines == LinesOf(ps, order)
  {
    lines := [];
    for i := 0 to |order|
      invariant lines == LinesOf(ps, order[..i])
    {
      assert order[..i + 1][..i] == order[..i];
      var stats := railStats[order[i]];
      var sum := AddLatencies(stats.latencies);
      var avg := if |stats.latencies| > 0 then Some(RoundDiv(sum, |stats.latencies|)) else None;
      lines := lines + [RailLine(order[i], stats.sent, stats.completed, stats.failed, stats.rejected,
                                 if stats.sent > 0 then RoundDiv(100 * stats.completed, stats.sent) else 0, avg)];
    }
    assert order[..|order|] == order;
  }

  /** The rail statistics after some payments, with the rails in the order of their entries. */
  ghost predicate Tracks(order: seq<Rail>, railStats: map<Rail, Stats>, ps: seq<Payment>) {
    && order == RailsOf(ps)
    && (forall r :: r in railStats <==> r in order)
    && (forall r :: r in railStats ==> railStats[r] == StatsOf(ps, r))
  }

  method CountOnRail(ghost front: seq<Payment>, payment: Payment, order: seq<Rail>, railStats: map<Rail, Stats>)
    returns (order': seq<Rail>, railStats': map<Rail, Stats>)
    requires Tracks(order, railStats, front)
    ensures Tracks(order', railStats', front + [payment])
  {
    assert (front + [payment])[..|front|] == front;
    var rail := DestinationOf(payment);
    order', railStats' := order, railStats;
    if rail !in railStats {
      NoStatsYet(front, rail);
      railStats' := railStats'[rail := NO_STATS];
      order' := order' + [rail];
    }
    railStats' := railStats'[rail := Counted(railStats'[rail], payment)];
  }

  method RunReconciliation(payments: seq<Payment>, now: Time, stuckThresholdMinutes: int) returns (report: Report)
    ensures report == ReportOf(payments, now, stuckThresholdMinutes * 60 * 1000)
  {
    var thresholdMs := stuckThresholdMinutes * 60 * 1000;
    var summary := Summary(|payments|, 0, 0, 0, 0, 0, 0);
    var stuck: seq<Stuck>, anomalies: seq<Anomaly> := [], [];
    var order: seq<Rail>, railStats: map<Rail, Stats> := [], map[];
    for i := 0 to |payments|
      invariant summary == SummaryOf(payments[..i], |payments|, now, thresholdMs)
      invariant stuck == StucksOf(payments[..i], now, thresholdMs)
      invariant anomalies == AnomaliesOf(payments[..i], now, thresholdMs)
      invariant Tracks(order, railStats, payments[..i])
    {
      var payment := payments[i];
      assert payments[..i + 1] == payments[..i] + [payment] && payments[..i + 1][..i] == payments[..i];
      summary := Tallied(summary, payment, now, thresholdMs);
      if IsStuck(payment, now, thresholdMs) {
        stuck := stuck + [StuckOf(payment, now)];
      }
      order, railStats := CountOnRail(payments[..i], payment, order, railStats);
      if IsStalled(payment, now, thresholdMs) {
        anomalies := anomalies + [StalledPipeline(payment.id, payment.row.status, now - payment.row.createdAt)];
      }
    }
    assert payments[..|payments|] == payments;
    var lines := BuildBreakdown(payments, order, railStats);
    report := Report(summary, stuck, lines, anomalies);
  }

  lemma {:induction false} NoStatsYet(ps: seq<Payment>, rail: Rail)
    requires rail !in RailsOf(ps)
    ensures StatsOf(ps, rail) == NO_STATS
  {
    if ps != [] {
      NoStatsYet(ps[..|ps| - 1], rail);
    }
  }

  // ---------- independent counts ----------

  /** The payment's destination, UNKNOWN if it has none yet. */
  predicate IsFor(p: Payment, rail: Rail) {
    match p.row.destination
    case None => rail == "UNKNOWN"
    case Some(destination) => rail == destination
  }

  /** Payments of a rail (or of any) in a status (or in any). */
  predicate Selects(p: Payment, rail: Option<Rail>, status: Option<Status>) {
    && (rail.Some? ==> IsFor(p, rail.value)) && (status.Some? ==> p.row.status == status.value)
  }

  function Count(ps: seq<Payment>, rail: Option<Rail>, status: Option<Status>): nat {
    if ps == [] then 0
    else Count(ps[..|ps| - 1], rail, status) + if Selects(ps[|ps| - 1], rail, status) then 1 else 0
  }

  /** Every payment adds to at most one counter. */
  lemma {:induction false} SummaryFits(ps: seq<Payment>, total: nat, now: Time, thresholdMs: int)
    ensures var s := SummaryOf(ps, total, now, thresholdMs);
      s.completed + s.failed + s.rejected + s.deadLetter + s.compensated + s.stuckInQueue <= |ps|
  {
    if ps != [] {
      SummaryFits(ps[..|ps| - 1], total, now, thresholdMs);
    }
  }

  lemma {:induction false} SummaryStuck(ps: seq<Payment>, total: nat, now: Time, thresholdMs: int)
    ensures SummaryOf(ps, total, now, thresholdMs).stuckInQueue == |StucksOf(ps, now, thresholdMs)|
    ensures SummaryOf(ps, total, now, thresholdMs).total == total
  {
    if ps != [] {
      SummaryStuck(ps[..|ps| - 1], total, now, thresholdMs);
    }
  }

  predicate CountsOf(s: Summary, ps: seq<Payment>) {
    && s.completed == Count(ps, None, Some(COMPLETED)) && s.failed == Count(ps, None, Some(FAILED))
    && s.rejected == Count(ps, None, Some(REJECTED)) && s.deadLetter == Count(ps, None, Some(DEAD_LETTER))
    && s.compensated == Count(ps, None, Some(COMPENSATED))
  }

  lemma {:induction false} SummaryIsCount(ps: seq<Payment>, total: nat, now: Time, thresholdMs: int)
    ensures CountsOf(SummaryOf(ps, total, now, thresholdMs), ps)
  {
    if ps != [] {
      SummaryIsCount(ps[..|ps| - 1], total, now, thresholdMs);
    }
  }

  /** Each summary counter is the number of payments in its status, and together they never exceed
      the number of payments. */
  lemma SummaryCounts(ps: seq<Payment>, total: nat, now: Time, thresholdMs: int)
    ensures var s := SummaryOf(ps, total, now, thresholdMs);
      && s.total == total && s.completed == Count(ps, None, Some(COMPLETED))
      && s.failed == Count(ps, None, Some(FAILED))
      && s.rejected == Count(ps, None, Some(REJECTED)) && s.deadLetter == Count(ps, None, Some(DEAD_LETTER))
      && s.compensated == Count(ps, None, Some(COMPENSATED)) && s.stuckInQueue == |StucksOf(ps, now, thresholdMs)|
      && s.completed + s.failed + s.rejected + s.deadLetter + s.compensated + s.stuckInQueue <= |ps|
  {
    SummaryFits(ps, total, now, thresholdMs);
    SummaryStuck(ps, total, now, thresholdMs);
    SummaryIsCount(ps, total, now, thresholdMs);
  }

  /** The entry of a payment that has been queued or sent, with a queueing time, for longer than the
      threshold: its own columns, and the waiting time in minutes, rounded with halves up. */
  predicate ReportsStuck(x: Stuck, p: Payment, now: Time, thresholdMs: int) {
    && (p.row.status == QUEUED || p.row.status == SENT_TO_DESTINATION)
    && p.row.queuedAt.Some? && p.row.queuedAt.value > 0 && now - p.row.queuedAt.value > thresholdMs
    && x.id == p.id && x.status == p.row.status && x.originRail == p.originRail && x.destination == p.row.destination
    && x.queuedAt == p.row.queuedAt.value && -30000 < 60000 * x.minutes - (now - x.queuedAt) <= 30000
  }

  lemma StuckEntry(x: Stuck, p: Payment, now: Time, thresholdMs: int)
    ensures IsStuck(p, now, thresholdMs) && StuckOf(p, now) == x <==> ReportsStuck(x, p, now, thresholdMs)
  {
  }

  lemma {:induction false} StuckIn(ps: seq<Payment>, now: Time, thresholdMs: int, x: Stuck)
    ensures x in StucksOf(ps, now, thresholdMs)
       <==> exists i :: 0 <= i < |ps| && ReportsStuck(x, ps[i], now, thresholdMs)
  {
    if ps != [] {
      var front, last := ps[..|ps| - 1], ps[|ps| - 1];
      StuckIn(front, now, thresholdMs, x);
      StuckEntry(x, last, now, thresholdMs);
      assert ps == front + [last];
      assert forall i :: 0 <= i < |front| ==> front[i] == ps[i];
    }
  }

  /** The report's stuck list holds the overdue payments of the window and nothing else. */
  lemma StuckIffOverdue(ps: seq<Payment>, now: Time, thresholdMs: int, x: Stuck)
    ensures x in ReportOf(ps, now, thresholdMs).stuck
       <==> exists i :: 0 <= i < |ps| && ReportsStuck(x, ps[i], now, thresholdMs)
  {
    StuckIn(ps, now, thresholdMs, x);
  }

  /** The entry of a payment that has stood in CANONICALIZED or ROUTED while it grew older than the threshold. */
  predicate ReportsStalled(x: Anomaly, p: Payment, now: Time, thresholdMs: int) {
    && (p.row.status == CANONICALIZED || p.row.status == ROUTED) && now - p.row.createdAt > thresholdMs
    && x.id == p.id && x.stalledIn == p.row.status && x.age == now - p.row.createdAt
  }

  lemma {:induction false} AnomalyIn(ps: seq<Payment>, now: Time, thresholdMs: int, x: Anomaly)
    ensures x in AnomaliesOf(ps, now, thresholdMs)
       <==> exists i :: 0 <= i < |ps| && ReportsStalled(x, ps[i], now, thresholdMs)
  {
    if ps != [] {
      var front, last := ps[..|ps| - 1], ps[|ps| - 1];
      AnomalyIn(front, now, thresholdMs, x);
      assert ps == front + [last];
      assert forall i :: 0 <= i < |front| ==> front[i] == ps[i];
    }
  }

  /** The report's anomalies are the stalled payments of the window and nothing else; no payment is
      reported both stuck and stalled. */
  lemma AnomalyIffStalled(ps: seq<Payment>, now: Time, thresholdMs: int, x: Anomaly)
    ensures x in ReportOf(ps, now, thresholdMs).anomalies
       <==> exists i :: 0 <= i < |ps| && ReportsStalled(x, ps[i], now, thresholdMs)
    ensures |StucksOf(ps, now, thresholdMs)| + |AnomaliesOf(ps, now, thresholdMs)| <= |ps|
  {
    AnomalyIn(ps, now, thresholdMs, x);
    ReportedOnce(ps, now, thresholdMs);
  }

  lemma {:induction false} ReportedOnce(ps: seq<Payment>, now: Time, thresholdMs: int)
    ensures |StucksOf(ps, now, thresholdMs)| + |AnomaliesOf(ps, now, thresholdMs)| <= |ps|
  {
    if ps != [] {
      ReportedOnce(ps[..|ps| - 1], now, thresholdMs);
    }
  }

  /** Each rail's statistics are the numbers of its payments. */
  lemma {:induction false} StatsCount(ps: seq<Payment>, rail: Rail)
    ensures var s := StatsOf(ps, rail);
      && s.sent == Count(ps, Some(rail), None) && s.completed == Count(ps, Some(rail), Some(COMPLETED))
      && s.failed == Count(ps, Some(rail), Some(FAILED)) && s.rejected == Count(ps, Some(rail), Some(REJECTED))
      && s.completed + s.failed + s.rejected <= s.sent && |s.latencies| <= s.completed
  {
    if ps != [] {
      StatsCount(ps[..|ps| - 1], rail);
    }
  }

  function CountOver(ps: seq<Payment>, rails: seq<Rail>, status: Option<Status>): nat {
    if rails == [] then 0 else CountOver(ps, rails[..|rails| - 1], status) + Count(ps, Some(rails[|rails| - 1]), status)
  }

  lemma {:induction false} CountOverPush(ps: seq<Payment>, p: Payment, rails: seq<Rail>, status: Option<Status>)
    requires Distinct(rails)
    ensures CountOver(ps + [p], rails, status)
      == CountOver(ps, rails, status) + if DestinationOf(p) in rails && Selects(p, None, status) then 1 else 0
    decreases |rails|
  {
    if rails != [] {
      var front, last := rails[..|rails| - 1], rails[|rails| - 1];
      CountOverPush(ps, p, front, status);
      assert (ps + [p])[..|ps|] == ps;
      assert rails == front + [last];
      assert last !in front;
    }
  }

  lemma {:induction false} CountOverEmpty(rails: seq<Rail>, status: Option<Status>)
    ensures CountOver([], rails, status) == 0
  {
    if rails != [] {
      CountOverEmpty(rails[..|rails| - 1], status);
    }
  }

  /** The counts of any distinct rails that include every destination add up to the whole. */
  lemma {:induction false} CountsAddUp(ps: seq<Payment>, rails: seq<Rail>, status: Option<Status>)
    requires Distinct(rails)
    requires forall i :: 0 <= i < |ps| ==> DestinationOf(ps[i]) in rails
    ensures CountOver(ps, rails, status) == Count(ps, None, status)
    decreases |ps|
  {
    if ps == [] {
      CountOverEmpty(rails, status);
    } else {
      var front, last := ps[..|ps| - 1], ps[|ps| - 1];
      assert DestinationOf(last) in rails;
      CountsAddUp(front, rails, status);
      CountOverPush(front, last, rails, status);
      assert ps == front + [last];
    }
  }

  lemma {:induction false} CountAll(ps: seq<Payment>)
    ensures Count(ps, None, None) == |ps|
  {
    if ps != [] {
      CountAll(ps[..|ps| - 1]);
    }
  }

  datatype Totals = Totals(sent: nat, completed: nat, failed: nat, rejected: nat)

  /** The columns of the breakdown, added up. */
  function Total(lines: seq<RailLine>): Totals {
    if lines == [] then Totals(0, 0, 0, 0)
    else
      var t, l := Total(lines[..|lines| - 1]), lines[|lines| - 1];
      Totals(t.sent + l.sent, t.completed + l.completed, t.failed + l.failed, t.rejected + l.rejected)
  }

  lemma {:induction false} TotalsAreCounts(ps: seq<Payment>, rails: seq<Rail>)
    ensures Total(LinesOf(ps, rails)) == Totals(CountOver(ps, rails, None), CountOver(ps, rails, Some(COMPLETED)),
                                                CountOver(ps, rails, Some(FAILED)),
                                                CountOver(ps, rails, Some(REJECTED)))
    decreases |rails|
  {
    if rails != [] {
      var front := rails[..|rails| - 1];
      TotalsAreCounts(ps, front);
      StatsCount(ps, rails[|rails| - 1]);
      var lines := LinesOf(ps, rails);
      assert lines[..|lines| - 1] == LinesOf(ps, front);
    }
  }

  /** The breakdown conserves the counts: over the rails, sent adds up to the total and completed,
      failed and rejected to the summary's counters. */
  lemma BreakdownConserves(ps: seq<Payment>, now: Time, thresholdMs: int)
    ensures var r := ReportOf(ps, now, thresholdMs);
      && Total(r.rails) == Totals(r.summary.total, r.summary.completed, r.summary.failed, r.summary.rejected)
      && |r.stuck| == r.summary.stuckInQueue
  {
    RailsAreListed(ps);
    TotalsAreCounts(ps, RailsOf(ps));
    SummaryCounts(ps, |ps|, now, thresholdMs);
    CountsAddUp(ps, RailsOf(ps), None);
    CountsAddUp(ps, RailsOf(ps), Some(COMPLETED));
    CountsAddUp(ps, RailsOf(ps), Some(FAILED));
    CountsAddUp(ps, RailsOf(ps), Some(REJECTED));
    CountAll(ps);
  }

  // ---------- rates and averages ----------

  lemma {:induction false} SumBetween(s: seq<int>, low: int, high: int)
    requires forall i :: 0 <= i < |s| ==> low <= s[i] <= high
    ensures low * |s| <= Sum(s) <= high * |s|
  {
    if s != [] {
      SumBetween(s[..|s| - 1], low, high);
    }
  }

  /** The latency of a completed payment of the rail whose completion time is known. */
  predicate Took(p: Payment, rail: Rail, latency: int) {
    IsFor(p, rail) && p.row.status == COMPLETED && p.row.completedAt.Some?
    && latency == p.row.completedAt.value - p.row.createdAt
  }

  lemma {:induction false} LatencyIn(ps: seq<Payment>, rail: Rail, latency: int)
    ensures latency in StatsOf(ps, rail).latencies <==> exists i :: 0 <= i < |ps| && Took(ps[i], rail, latency)
  {
    if ps != [] {
      var front, last := ps[..|ps| - 1], ps[|ps| - 1];
      LatencyIn(front, rail, latency);
      assert latency in LatencyOf(last) && IsFor(last, rail) <==> Took(last, rail, latency);
      assert ps == front + [last];
      assert forall i :: 0 <= i < |front| ==> front[i] == ps[i];
    }
  }

  lemma {:induction false} LatencyCount(ps: seq<Payment>, rail: Rail)
    requires forall i :: 0 <= i < |ps| && ps[i].row.status == COMPLETED ==> ps[i].row.completedAt.Some?
    ensures |StatsOf(ps, rail).latencies| == Count(ps, Some(rail), Some(COMPLETED))
  {
    if ps != [] {
      var front := ps[..|ps| - 1];
      assert forall i :: 0 <= i < |front| ==> front[i] == ps[i];
      LatencyCount(front, rail);
    }
  }

  /** A rail's latencies are those of its completed payments, and there is one for each if all have their
      completion time. */
  lemma LatenciesAre(ps: seq<Payment>, rail: Rail, latency: int)
    ensures latency in StatsOf(ps, rail).latencies <==> exists i :: 0 <= i < |ps| && Took(ps[i], rail, latency)
    ensures (forall i :: 0 <= i < |ps| && ps[i].row.status == COMPLETED ==> ps[i].row.completedAt.Some?) ==>
      |StatsOf(ps, rail).latencies| == Count(ps, Some(rail), Some(COMPLETED))
  {
    LatencyIn(ps, rail, latency);
    if forall i :: 0 <= i < |ps| && ps[i].row.status == COMPLETED ==> ps[i].row.completedAt.Some? {
      LatencyCount(ps, rail);
    }
  }

  /** The numbers of a rail, in the line of the breakdown that names it. */
  predicate LineIs(line: RailLine, ps: seq<Payment>, latencies: seq<int>) {
    var rail := Some(line.rail);
    && line.sent == Count(ps, rail, None) && line.completed == Count(ps, rail, Some(COMPLETED))
    && line.failed == Count(ps, rail, Some(FAILED)) && line.rejected == Count(ps, rail, Some(REJECTED))
    && line.sent > 0 && 0 - line.sent < 2 * (line.successRate * line.sent - 100 * line.completed) <= line.sent
    && (line.avgLatency.Some? <==> latencies != [])
    && (latencies != [] ==>
          0 - |latencies| < 2 * (line.avgLatency.value * |latencies| - Sum(latencies)) <= |latencies|)
  }

  lemma LineOfRail(ps: seq<Payment>, rail: Rail)
    requires Count(ps, Some(rail), None) > 0
    ensures LineIs(LineOf(rail, StatsOf(ps, rail)), ps, StatsOf(ps, rail).latencies)
  {
    var s := StatsOf(ps, rail);
    StatsCount(ps, rail);
    RoundNear(100 * s.completed, s.sent);
    if s.latencies != [] { RoundNear(Sum(s.latencies), |s.latencies|); }
  }

  lemma {:induction false} LinesAt(ps: seq<Payment>, rails: seq<Rail>, k: nat)
    requires k < |rails|
    ensures |LinesOf(ps, rails)| == |rails| && LinesOf(ps, rails)[k] == LineOf(rails[k], StatsOf(ps, rails[k]))
    decreases |rails|
  {
    if k < |rails| - 1 {
      LinesAt(ps, rails[..|rails| - 1], k);
    } else if |rails| > 1 {
      LinesAt(ps, rails[..|rails| - 1], 0);
    }
  }

  lemma {:induction false} RailIsUsed(ps: seq<Payment>, rail: Rail)
    ensures rail in RailsOf(ps) <==> Count(ps, Some(rail), None) > 0
  {
    if ps != [] {
      RailIsUsed(ps[..|ps| - 1], rail);
    }
  }

  /** Each line of the breakdown has the exact numbers of its rail, its success rate and its average latency
      rounded to the nearest whole number; and each rail that a payment goes to has its line. */
  lemma BreakdownLines(ps: seq<Payment>, now: Time, thresholdMs: int, k: nat, rail: Rail)
    ensures var lines := ReportOf(ps, now, thresholdMs).rails;
      && (k < |lines| ==> LineIs(lines[k], ps, StatsOf(ps, lines[k].rail).latencies))
      && (Count(ps, Some(rail), None) > 0 ==> exists i :: 0 <= i < |lines| && lines[i].rail == rail)
  {
    var rails := RailsOf(ps);
    LinesCount(ps, rails);
    if k < |rails| {
      LinesAt(ps, rails, k);
      RailIsUsed(ps, rails[k]);
      LineOfRail(ps, rails[k]);
    }
    RailIsUsed(ps, rail);
    if rail in rails {
      var i :| 0 <= i < |rails| && rails[i] == rail;
      LinesAt(ps, rails, i);
    }
  }

  lemma {:induction false} LinesCount(ps: seq<Payment>, rails: seq<Rail>)
    ensures |LinesOf(ps, rails)| == |rails|
    decreases |rails|
  {
    if rails != [] {
      LinesCount(ps, rails[..|rails| - 1]);
    }
  }

  /** A rail's success rate is a percentage, and its average latency lies between any bounds on its latencies. */
  lemma RatesAreBounded(ps: seq<Payment>, rail: Rail, low: int, high: int)
    requires forall i :: 0 <= i < |StatsOf(ps, rail).latencies| ==> low <= StatsOf(ps, rail).latencies[i] <= high
    ensures var line := LineOf(rail, StatsOf(ps, rail));
      && 0 <= line.successRate <= 100
      && (line.avgLatency.Some? ==> low <= line.avgLatency.value <= high)
  {
    var s := StatsOf(ps, rail);
    StatsCount(ps, rail);
    if s.sent > 0 { RoundBetween(100 * s.completed, s.sent, 0, 100); }
    SumBetween(s.latencies, low, high);
    if s.latencies != [] { RoundBetween(Sum(s.latencies), |s.latencies|, low, high); }
  }
}
