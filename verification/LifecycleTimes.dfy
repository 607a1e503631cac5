/** The time stamps of a payment, over every run of the life cycle. */
module LifecycleTimes {
  import opened Wrappers
  import opened PaymentTable
  import opened Lifecycle

  predicate Between(t: Option<Time>, low: Time, high: Time) {
    t.Some? ==> low <= t.value <= high
  }

  /** The second is set only after the first. */
  predicate Follows(first: Option<Time>, second: Option<Time>) {
    second.Some? ==> first.Some? && first.value <= second.value
  }

  /** Every stamp lies between the payment's creation and the present. */
  predicate AllBetween(r: Row, now: Time) {
    && r.createdAt <= now
    && Between(r.validatedAt, r.createdAt, now) && Between(r.canonicalizedAt, r.createdAt, now)
    && Between(r.routedAt, r.createdAt, now) && Between(r.queuedAt, r.createdAt, now)
    && Between(r.sentAt, r.createdAt, now) && Between(r.ackedAt, r.createdAt, now)
    && Between(r.completedAt, r.createdAt, now) && Between(r.failedAt, r.createdAt, now)
    && Between(r.compensatedAt, r.createdAt, now) && Between(r.deadLetterAt, r.createdAt, now)
  }

  /** The milestones of the pipeline are passed in their order, none left out. */
  predicate InOrder(r: Row) {
    && Follows(r.validatedAt, r.canonicalizedAt) && Follows(r.canonicalizedAt, r.routedAt)
    && Follows(r.routedAt, r.queuedAt)
  }

  /** A pipeline has passed the milestones behind it and none before it. */
  predicate Passed(r: Row, pc: Pc) {
    var k := Rank(pc);
    k >= 0 ==>
      && (r.canonicalizedAt.Some? <==> k >= 3) && (r.routedAt.Some? <==> k >= 4) && (r.queuedAt.Some? <==> k >= 7)
      && (r.validatedAt.Some? <==> k >= 2)
  }

  predicate TimesOk(r: Row, pc: Pc, now: Time) {
    AllBetween(r, now) && InOrder(r) && Passed(r, pc)
  }

  ghost predicate Timely(s: State) {
    forall id :: id in s.rows ==> id in s.pipelines && TimesOk(s.rows[id], s.pipelines[id].pc, s.now)
  }

  lemma FirstTimes(r: Row, now: Time)
    ensures TimesOk(NewRow(now), Validating, now)
    ensures TimesOk(r, Validating, now) ==> TimesOk(WithStatus(r, VALIDATED, now), Canonicalizing, now)
  {
  }

  lemma MiddleTimes(r: Row, payload: Payload, rail: Rail, rule: string, now: Time)
    ensures TimesOk(r, Canonicalizing, now) ==> TimesOk(WithCanonical(r, payload, CANONICALIZED, now), Routing, now)
    ensures TimesOk(r, Routing, now) ==> TimesOk(WithRoute(r, rail, rule, ROUTED, now), Translating, now)
  {
  }

  lemma LastTimes(r: Row, payload: Payload, now: Time)
    ensures TimesOk(r, Translating, now) ==> TimesOk(WithTranslated(r, payload), Publishing, now)
    ensures TimesOk(r, Publishing, now) ==> TimesOk(r, Queueing, now)
    ensures TimesOk(r, Queueing, now) ==> TimesOk(WithStatus(r, QUEUED, now), Done, now)
  {
  }

  lemma CaughtTimes(r: Row, now: Time)
    ensures TimesOk(r, Failing, now) ==> TimesOk(WithStatus(r, FAILED, now), Failed, now)
  {
  }

  /** A throw leaves the milestones that are passed. */
  lemma ThrownTimes(r: Row, p: Pipeline, now: Time)
    requires TimesOk(r, p.pc, now)
    ensures TimesOk(r, Failing, now) && TimesOk(r, Failed, now)
  {
  }

  /** A pipeline step passes one milestone. */
  lemma AdvanceTimes(id: PaymentId, p: Pipeline, row: Option<Row>, input: Input, now: Time)
    requires (row.Some? ==> TimesOk(row.value, p.pc, now)) && NextStep(id, p, row, input, now).Some?
    ensures var a := NextStep(id, p, row, input, now).value;
      TimesOk(a.row, a.pipeline.pc, now)
  {
    if row.None? {
      FirstTimes(NewRow(now), now);
    } else {
      FirstTimes(row.value, now);
      MiddleTimes(row.value, input.payload, input.rail, input.rule, now);
      LastTimes(row.value, input.payload, now);
      CaughtTimes(row.value, now);
    }
  }

  /** One row and one pipeline are replaced. */
  lemma WriteTimes(s: State, x: PaymentId, row: Row, p: Pipeline, s': State)
    requires Timely(s) && TimesOk(row, p.pc, s.now)
    requires s'.rows == s.rows[x := row] && s'.pipelines == s.pipelines[x := p] && s'.now == s.now
    ensures Timely(s')
  {
  }

  lemma ThrowTimes(s: State, x: PaymentId, p: Pipeline, s': State)
    requires Timely(s) && x in s.pipelines && (p.pc == Failing || p.pc == Failed)
    requires s'.rows == s.rows && s'.pipelines == s.pipelines[x := p] && s'.now == s.now
    ensures Timely(s')
  {
    if x in s.rows { ThrownTimes(s.rows[x], s.pipelines[x], s.now); }
  }

  lemma StepTimes(s: State, x: PaymentId, input: Input, effect: Effect)
    requires Timely(s) && x in s.pipelines
    ensures Timely(StepPipeline(s, x, input, effect))
  {
    var p := s.pipelines[x];
    var next := NextStep(x, p, Find(s.rows, x), input, s.now);
    if p.pc == Done || p.pc == Failed {
    } else if next.None? || effect == FailsBefore {
      ThrowTimes(s, x, Thrown(p), StepPipeline(s, x, input, effect));
    } else {
      AdvanceTimes(x, p, Find(s.rows, x), input, s.now);
      ThrownTimes(next.value.row, next.value.pipeline, s.now);
      WriteTimes(s, x, next.value.row, if effect == Happens then next.value.pipeline else Thrown(p),
                 StepPipeline(s, x, input, effect));
    }
  }

  /** A write from outside the pipeline stamps the present and leaves the milestones alone. */
  predicate OutsideStamp(r: Row, r': Row, now: Time) {
    && r'.createdAt == r.createdAt && r'.validatedAt == r.validatedAt && r'.canonicalizedAt == r.canonicalizedAt
    && r'.routedAt == r.routedAt && r'.queuedAt == r.queuedAt && r'.sentAt == r.sentAt
    && (r'.ackedAt == r.ackedAt || r'.ackedAt == Some(now)) && (r'.failedAt == r.failedAt || r'.failedAt == Some(now))
    && (r'.completedAt == r.completedAt || r'.completedAt == Some(now))
    && (r'.compensatedAt == r.compensatedAt || r'.compensatedAt == Some(now))
    && (r'.deadLetterAt == r.deadLetterAt || r'.deadLetterAt == Some(now))
  }

  lemma StampTimes(r: Row, r': Row, pc: Pc, now: Time)
    requires TimesOk(r, pc, now) && OutsideStamp(r, r', now)
    ensures TimesOk(r', pc, now)
  {
  }

  lemma OutsideTimes(s: State, id: PaymentId, row: Row, s': State)
    requires Timely(s) && id in s.rows && OutsideStamp(s.rows[id], row, s.now)
    requires s'.rows == s.rows[id := row] && s'.pipelines == s.pipelines && s'.now == s.now
    ensures Timely(s')
  {
    StampTimes(s.rows[id], row, s.pipelines[id].pc, s.now);
  }

  lemma SetStatusTimes(s: State, id: PaymentId, status: Status)
    requires Timely(s) && status in {DEAD_LETTER, COMPENSATING, COMPENSATED}
    ensures Timely(SetStatus(s, id, status))
  {
    if id in s.rows {
      OutsideTimes(s, id, WithStatus(s.rows[id], status, s.now), SetStatus(s, id, status));
    }
  }

  lemma LaterTimes(r: Row, pc: Pc, now: Time, later: Time)
    requires TimesOk(r, pc, now) && now <= later
    ensures TimesOk(r, pc, later)
  {
  }

  lemma TickTimes(s: State, elapsed: nat)
    requires Timely(s)
    ensures Timely(Next(s, Tick(elapsed)))
  {
    forall id | id in s.rows ensures TimesOk(s.rows[id], s.pipelines[id].pc, s.now + elapsed) {
      LaterTimes(s.rows[id], s.pipelines[id].pc, s.now, s.now + elapsed);
    }
  }

  /** The table of one state in another: what is not in the table makes no difference. */
  lemma SameTable(s: State, s': State)
    requires Timely(s) && s'.rows == s.rows && s'.now == s.now
    requires forall id :: id in s.rows ==> id in s'.pipelines && s'.pipelines[id] == s.pipelines[id]
    ensures Timely(s')
  {
  }

  lemma NextTimes(s: State, a: Action)
    requires Inv(s) && Timely(s)
    ensures Timely(Next(s, a))
  {
    match a
    case Tick(elapsed) => TickTimes(s, elapsed);
    case Start(id) => SameTable(s, Next(s, a));
    case Step(x, input, effect) => if x in s.pipelines { StepTimes(s, x, input, effect); }
    case Ack(id, ack) =>
      if id in s.rows { OutsideTimes(s, id, WithRailAck(s.rows[id], ack, FinalStatus(ack), s.now), Next(s, a)); }
    case DeadLetter(id) => SetStatusTimes(s, id, DEAD_LETTER);
    case CompensateRead(c, id) => SameTable(s, Next(s, a));
    case CompensateMark(c, effect) =>
      if c in s.compensations && s.compensations[c].Marking? {
        SetStatusTimes(s, s.compensations[c].id, COMPENSATING);
      }
    case CompensateFinish(c, effect) =>
      if c in s.compensations && s.compensations[c].Finishing? {
        SetStatusTimes(s, s.compensations[c].id, COMPENSATED);
      }
  }

  lemma {:induction false} RunTimes(s: State, actions: seq<Action>)
    requires Inv(s) && Timely(s)
    ensures Timely(Run(s, actions))
    decreases |actions|
  {
    if actions != [] {
      NextKeepsInv(s, actions[0]);
      NextTimes(s, actions[0]);
      RunTimes(Next(s, actions[0]), actions[1..]);
    }
  }

  /** In every reachable state, whatever the interleaving, every stamp of every payment lies between its
      creation and the present, and the pipeline's milestones are stamped in their order: none is missing
      before one that is set. */
  lemma StampsAreOrdered(actions: seq<Action>, id: PaymentId)
    ensures var s := Run(INITIAL, actions);
      id in s.rows ==> AllBetween(s.rows[id], s.now) && InOrder(s.rows[id])
  {
    RunTimes(INITIAL, actions);
  }
}
