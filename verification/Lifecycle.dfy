/** The life of a payment: any number of pipelines, ACK and dead-letter deliveries and
    compensations interleaved over one payments table. Each SQL statement and each publish is one
    atomic step; every step of a pipeline or a compensation may fail before its effect or after
    it. ACK and dead-letter messages may arrive at any time, for any payment, any number of times. */
module Lifecycle {
  import opened Text
  import opened Wrappers
  import opened PaymentTable

  /** Where `PaymentPipeline.execute` stands for one payment. */
  datatype Pc =
    | Creating | Validating | Canonicalizing | Routing | Translating | Publishing | Queueing
    | Done | Failing | Failed

  /** A running `execute`: its position and its local `route.destination` and `translated`. */
  datatype Pipeline = Pipeline(pc: Pc, destination: Option<Rail>, translated: Option<Payload>)

  /** What a pipeline step gets from the translator, the normalizer or the route engine. */
  datatype Input = Input(payload: Payload, rail: Rail, rule: string)

  datatype Message = Message(id: PaymentId, destination: Rail, translated: Payload)

  /** A running `compensate`, after its read. */
  datatype Compensation = Marking(id: PaymentId) | Finishing(id: PaymentId) | Over(success: bool)

  datatype Effect = Happens | FailsBefore | FailsAfter

  datatype Action =
    | Tick(elapsed: nat)
    | Start(id: PaymentId)
    | Step(id: PaymentId, input: Input, effect: Effect)
    | Ack(id: PaymentId, ack: RailAck)
    | DeadLetter(id: PaymentId)
    | CompensateRead(c: nat, id: PaymentId)
    | CompensateMark(c: nat, effect: Effect)
    | CompensateFinish(c: nat, effect: Effect)

  datatype State = State(
    now: Time,
    rows: Rows,
    pipelines: map<PaymentId, Pipeline>,
    compensations: map<nat, Compensation>,
    published: seq<Message>)

  const INITIAL := State(0, map[], map[], map[], [])

  const COMPENSABLE := {DEAD_LETTER, FAILED}

  // ---------- steps ----------

  /** The rails the publisher has a routing key for. */
  predicate HasRoutingKey(rail: Rail) {
    rail == "PIX" || rail == "SPEI" || rail == "BRE_B"
  }

  datatype Advance = Advance(row: Row, pipeline: Pipeline, sent: seq<Message>)

  /** The effect of the next step of a pipeline, or `None` if the step throws instead. */
  function NextStep(id: PaymentId, p: Pipeline, row: Option<Row>, input: Input, now: Time): Option<Advance> {
    if p.pc == Creating then
      if row.Some? then None else Some(Advance(NewRow(now), p.(pc := Validating), []))
    else if row.None? then None
    else
      var r := row.value;
      match p.pc
      case Validating => Some(Advance(WithStatus(r, VALIDATED, now), p.(pc := Canonicalizing), []))
      case Canonicalizing => Some(Advance(WithCanonical(r, input.payload, CANONICALIZED, now), p.(pc := Routing), []))
      case Routing =>
        if AllSpace(input.rail) || AllSpace(input.rule) then None
        else Some(Advance(WithRoute(r, input.rail, input.rule, ROUTED, now),
                          p.(pc := Translating, destination := Some(input.rail)), []))
      case Translating =>
        if input.payload == "" then None
        else Some(Advance(WithTranslated(r, input.payload),
                          p.(pc := Publishing, translated := Some(input.payload)), []))
      case Publishing =>
        if p.destination.None? || p.translated.None? || !HasRoutingKey(p.destination.value) then None
        else Some(Advance(r, p.(pc := Queueing), [Message(id, p.destination.value, p.translated.value)]))
      case Queueing => Some(Advance(WithStatus(r, QUEUED, now), p.(pc := Done), []))
      case Failing => Some(Advance(WithStatus(r, FAILED, now), p.(pc := Failed), []))
      case _ => None
  }

  /** Where a throw leads: into the catch block, and out of it if the catch block throws too. */
  function Thrown(p: Pipeline): Pipeline {
    p.(pc := if p.pc == Failing then Failed else Failing)
  }

  function Find(rows: Rows, id: PaymentId): Option<Row> {
    if id in rows then Some(rows[id]) else None
  }

  /** Steps left before an undisturbed pipeline must have ended. */
  function StepsLeft(pc: Pc): nat {
    match pc
    case Creating => 8
    case Validating => 7
    case Canonicalizing => 6
    case Routing => 5
    case Translating => 4
    case Publishing => 3
    case Queueing => 2
    case Failing => 1
    case _ => 0
  }

  function StepPipeline(s: State, id: PaymentId, input: Input, effect: Effect): (s': State)
    requires id in s.pipelines
    ensures id in s'.pipelines && s'.now == s.now
    ensures StepsLeft(s.pipelines[id].pc) > 0 ==> StepsLeft(s'.pipelines[id].pc) < StepsLeft(s.pipelines[id].pc)
  {
    var p := s.pipelines[id];
    if p.pc == Done || p.pc == Failed then s
    else
      var next := NextStep(id, p, Find(s.rows, id), input, s.now);
      if next.None? || effect == FailsBefore then s.(pipelines := s.pipelines[id := Thrown(p)])
      else s.(rows := s.rows[id := next.value.row],
              pipelines := s.pipelines[id := if effect == Happens then next.value.pipeline else Thrown(p)],
              published := s.published + next.value.sent)
  }

  /** How the ACK consumer reads a rail's answer. */
  function FinalStatus(ack: RailAck): Status {
    if ack.status == "ACCEPTED" then COMPLETED
    else if ack.status == "REJECTED" then REJECTED
    else FAILED
  }

  /** An update that applies to the row if it is there and throws otherwise. */
  function SetStatus(s: State, id: PaymentId, status: Status): State {
    if id in s.rows then s.(rows := s.rows[id := WithStatus(s.rows[id], status, s.now)]) else s
  }

  function Next(s: State, a: Action): State {
    match a
    case Tick(elapsed) => s.(now := s.now + elapsed)
    case Start(id) =>
      if id in s.pipelines then s else s.(pipelines := s.pipelines[id := Pipeline(Creating, None, None)])
    case Step(id, input, effect) =>
      if id in s.pipelines then StepPipeline(s, id, input, effect) else s
    case Ack(id, ack) =>
      if id in s.rows then s.(rows := s.rows[id := WithRailAck(s.rows[id], ack, FinalStatus(ack), s.now)]) else s
    case DeadLetter(id) => SetStatus(s, id, DEAD_LETTER)
    case CompensateRead(c, id) =>
      if c in s.compensations then s
      else s.(compensations := s.compensations[c :=
                if id in s.rows && s.rows[id].status in COMPENSABLE then Marking(id) else Over(false)])
    case CompensateMark(c, effect) =>
      if c !in s.compensations || !s.compensations[c].Marking? then s
      else
        var id := s.compensations[c].id;
        var marked := if effect == FailsBefore then s else SetStatus(s, id, COMPENSATING);
        marked.(compensations := s.compensations[c := if effect == Happens then Finishing(id) else Over(false)])
    case CompensateFinish(c, effect) =>
      if c !in s.compensations || !s.compensations[c].Finishing? then s
      else
        var id := s.compensations[c].id;
        var finished := if effect == FailsBefore then s else SetStatus(s, id, COMPENSATED);
        finished.(compensations := s.compensations[c := Over(effect == Happens)])
  }

  /** The state after a run. */
  function Run(s: State, actions: seq<Action>): State
    decreases |actions|
  {
    if actions == [] then s else Run(Next(s, actions[0]), actions[1..])
  }

  // ---------- what holds of every reachable state ----------

  /** Something happened to the payment that compensation can answer to. */
  predicate Touched(r: Row) {
    r.failedAt.Some? || r.deadLetterAt.Some? || r.ackedAt.Some?
  }

  /** What a row's status says about its other columns. */
  predicate Evidence(r: Row) {
    match r.status
    case RECEIVED => true
    case VALIDATED => r.validatedAt.Some?
    case CANONICALIZED => r.canonical.Some? && r.canonicalizedAt.Some?
    case ROUTED => r.destination.Some? && r.routeRule.Some? && r.routedAt.Some?
    case QUEUED => r.queuedAt.Some? && r.canonical.Some? && r.destination.Some? && r.translated.Some?
    case COMPLETED => r.railAck.Some? && r.railAck.value.status == "ACCEPTED" && r.ackedAt.Some? && r.completedAt.Some?
    case REJECTED => r.railAck.Some? && r.railAck.value.status == "REJECTED" && r.ackedAt.Some?
    case FAILED =>
      || r.failedAt.Some?
      || (&& r.ackedAt.Some? && r.railAck.Some? && r.railAck.value.status != "ACCEPTED"
          && r.railAck.value.status != "REJECTED")
    case DEAD_LETTER => r.deadLetterAt.Some?
    case COMPENSATING => Touched(r)
    case COMPENSATED => Touched(r) && r.compensatedAt.Some?
    case _ => false
  }

  function Rank(pc: Pc): int {
    match pc
    case Creating => 0
    case Validating => 1
    case Canonicalizing => 2
    case Routing => 3
    case Translating => 4
    case Publishing => 5
    case Queueing => 6
    case Done => 7
    case Failing => -1
    case Failed => -1
  }

  /** What a running pipeline may rely on in its own row. */
  predicate Owns(p: Pipeline, row: Option<Row>) {
    && (p.pc == Creating ==> row.None?)
    && (Rank(p.pc) >= 1 ==> row.Some?)
    && (Rank(p.pc) >= 3 ==> row.value.canonical.Some?)
    && (Rank(p.pc) >= 4 ==> row.value.destination.Some? && row.value.destination == p.destination
                            && row.value.routeRule.Some? && row.value.routedAt.Some?)
    && (Rank(p.pc) >= 5 ==> row.value.translated.Some? && row.value.translated == p.translated)
  }

  /** A published message matches what its payment's row stores. */
  predicate Matches(m: Message, row: Option<Row>) {
    && row.Some? && row.value.canonical.Some?
    && row.value.destination == Some(m.destination) && row.value.translated == Some(m.translated)
  }

  predicate CompensationOk(c: Compensation, rows: Rows) {
    c.Over? || (c.id in rows && Touched(rows[c.id]))
  }

  /** Before its publish step a pipeline has published nothing; after it, no step publishes again. */
  predicate PublishedInPlace(s: State, i: int)
    requires 0 <= i < |s.published|
  {
    var m := s.published[i];
    && m.id in s.pipelines && (Rank(s.pipelines[m.id].pc) < 0 || Rank(s.pipelines[m.id].pc) >= 6)
    && HasRoutingKey(m.destination) && Matches(m, Find(s.rows, m.id))
  }

  ghost predicate Inv(s: State) {
    && (forall id :: id in s.rows ==> id in s.pipelines && Evidence(s.rows[id]))
    && (forall id :: id in s.pipelines ==> Owns(s.pipelines[id], Find(s.rows, id)))
    && (forall c :: c in s.compensations ==> CompensationOk(s.compensations[c], s.rows))
    && (forall i :: 0 <= i < |s.published| ==> PublishedInPlace(s, i))
    && (forall i, j :: 0 <= i < j < |s.published| ==> s.published[i].id != s.published[j].id)
  }

  // ---------- columns only ever gain content ----------

  /** Nothing a row has recorded is lost: time stamps stay set, and what has been published stays stored. */
  predicate Grows(r: Row, r': Row) {
    && (r.ackedAt.Some? ==> r'.ackedAt.Some?) && (r.failedAt.Some? ==> r'.failedAt.Some?)
    && (r.deadLetterAt.Some? ==> r'.deadLetterAt.Some?) && (r.queuedAt.Some? ==> r'.queuedAt.Some?)
    && (r.completedAt.Some? ==> r'.completedAt.Some?) && (r.compensatedAt.Some? ==> r'.compensatedAt.Some?)
    && (r.validatedAt.Some? ==> r'.validatedAt.Some?) && (r.canonicalizedAt.Some? ==> r'.canonicalizedAt.Some?)
    && (r.routedAt.Some? ==> r'.routedAt.Some?) && (r.sentAt.Some? ==> r'.sentAt.Some?)
    && (r.canonical.Some? ==> r'.canonical.Some?)
    && r'.createdAt == r.createdAt
  }

  /** The columns that only the payment's own pipeline writes. */
  predicate SameRoute(r: Row, r': Row) {
    && r'.canonical == r.canonical && r'.destination == r.destination && r'.routeRule == r.routeRule
    && r'.routedAt == r.routedAt && r'.translated == r.translated
  }

  /** A step that changes one row to one that has grown and is backed by evidence, and nothing else but
      compensations that remain sound, keeps the invariant. */
  lemma OutsideWrite(s: State, id: PaymentId, row: Row, s': State)
    requires Inv(s) && id in s.rows && Grows(s.rows[id], row) && SameRoute(s.rows[id], row) && Evidence(row)
    requires s' == s.(rows := s.rows[id := row])
    ensures Inv(s')
  {
    forall x | x in s'.pipelines ensures Owns(s'.pipelines[x], Find(s'.rows, x)) {
      assert Owns(s.pipelines[x], Find(s.rows, x));
    }
    forall c | c in s'.compensations ensures CompensationOk(s'.compensations[c], s'.rows) {
      assert CompensationOk(s.compensations[c], s.rows);
    }
    forall i | 0 <= i < |s'.published| ensures PublishedInPlace(s', i) {
      assert PublishedInPlace(s, i);
    }
  }

  lemma WithCompensation(s: State, c: nat, comp: Compensation)
    requires Inv(s) && CompensationOk(comp, s.rows)
    ensures Inv(s.(compensations := s.compensations[c := comp]))
  {
    var s' := s.(compensations := s.compensations[c := comp]);
    forall i | 0 <= i < |s'.published| ensures PublishedInPlace(s', i) {
      assert PublishedInPlace(s, i);
    }
  }

  /** A throw moves the pipeline into its catch block without touching the table. */
  lemma ThrowKeepsInv(s: State, id: PaymentId)
    requires Inv(s) && id in s.pipelines
    ensures Inv(s.(pipelines := s.pipelines[id := Thrown(s.pipelines[id])]))
  {
    var s' := s.(pipelines := s.pipelines[id := Thrown(s.pipelines[id])]);
    assert Owns(s.pipelines[id], Find(s.rows, id));
    forall i | 0 <= i < |s'.published| ensures PublishedInPlace(s', i) {
      assert PublishedInPlace(s, i);
    }
  }

  /** What one effective pipeline step does to its row. */
  lemma AdvanceFacts(id: PaymentId, p: Pipeline, row: Option<Row>, input: Input, now: Time)
    requires Owns(p, row) && (row.Some? ==> Evidence(row.value))
    requires NextStep(id, p, row, input, now).Some?
    ensures var a := NextStep(id, p, row, input, now).value;
            && Evidence(a.row) && Owns(a.pipeline, Some(a.row))
            && (row.Some? ==> Grows(row.value, a.row))
            && (Rank(p.pc) >= 6 || Rank(p.pc) < 0 ==> row.Some? && SameRoute(row.value, a.row))
            && (Rank(a.pipeline.pc) >= 6 || Rank(a.pipeline.pc) < 0 || Rank(p.pc) < 6)
            && (a.sent != [] ==> p.pc == Publishing && a.sent == [Message(id, p.destination.value, p.translated.value)]
                                 && HasRoutingKey(a.sent[0].destination) && Matches(a.sent[0], Some(a.row)))
  {
  }

  lemma StepFacts(s: State, id: PaymentId, input: Input)
    requires Inv(s) && id in s.pipelines
    requires NextStep(id, s.pipelines[id], Find(s.rows, id), input, s.now).Some?
    ensures var p, a := s.pipelines[id], NextStep(id, s.pipelines[id], Find(s.rows, id), input, s.now).value;
            && Evidence(a.row) && Owns(a.pipeline, Some(a.row))
            && (id in s.rows ==> Grows(s.rows[id], a.row))
            && (Rank(p.pc) >= 6 || Rank(p.pc) < 0 ==> id in s.rows && SameRoute(s.rows[id], a.row))
            && (Rank(a.pipeline.pc) >= 6 || Rank(a.pipeline.pc) < 0 || Rank(p.pc) < 6)
            && (a.sent != [] ==> p.pc == Publishing && a.sent == [Message(id, p.destination.value, p.translated.value)]
                                 && HasRoutingKey(a.sent[0].destination) && Matches(a.sent[0], Some(a.row)))
  {
    assert Owns(s.pipelines[id], Find(s.rows, id));
    if id in s.rows { assert Evidence(s.rows[id]); }
    AdvanceFacts(id, s.pipelines[id], Find(s.rows, id), input, s.now);
  }

  /** The state after an effective step whose pipeline goes on as `p'`. */
  function Advanced(s: State, id: PaymentId, a: Advance, p': Pipeline): State {
    s.(rows := s.rows[id := a.row], pipelines := s.pipelines[id := p'], published := s.published + a.sent)
  }

  /** What a step may do to the row and the messages of its own payment. */
  predicate Lawful(s: State, id: PaymentId, a: Advance, p': Pipeline)
    requires id in s.pipelines
  {
    var rank, rank' := Rank(s.pipelines[id].pc), Rank(p'.pc);
    && (id in s.rows ==> Grows(s.rows[id], a.row))
    && (rank >= 6 || rank < 0 ==>
          id in s.rows && SameRoute(s.rows[id], a.row) && (rank' >= 6 || rank' < 0) && a.sent == [])
    && (a.sent != [] ==>
          && |a.sent| == 1 && a.sent[0].id == id && (rank' >= 6 || rank' < 0)
          && HasRoutingKey(a.sent[0].destination) && Matches(a.sent[0], Some(a.row)))
  }

  lemma StepIsLawful(s: State, id: PaymentId, input: Input, p': Pipeline)
    requires Inv(s) && id in s.pipelines
    requires NextStep(id, s.pipelines[id], Find(s.rows, id), input, s.now).Some?
    requires p' == NextStep(id, s.pipelines[id], Find(s.rows, id), input, s.now).value.pipeline || Rank(p'.pc) < 0
    ensures Lawful(s, id, NextStep(id, s.pipelines[id], Find(s.rows, id), input, s.now).value, p')
  {
    StepFacts(s, id, input);
  }

  /** What has been published stays in place. */
  lemma KeptInPlace(s: State, id: PaymentId, a: Advance, p': Pipeline, i: nat)
    requires Inv(s) && id in s.pipelines && Lawful(s, id, a, p') && i < |s.published|
    ensures PublishedInPlace(Advanced(s, id, a, p'), i) && (a.sent != [] ==> s.published[i].id != id)
  {
    assert PublishedInPlace(s, i);
  }

  lemma AdvancedPublished(s: State, id: PaymentId, a: Advance, p': Pipeline)
    requires Inv(s) && id in s.pipelines && Lawful(s, id, a, p')
    ensures var s' := Advanced(s, id, a, p');
            && (forall i :: 0 <= i < |s'.published| ==> PublishedInPlace(s', i))
            && (forall i, j :: 0 <= i < j < |s'.published| ==> s'.published[i].id != s'.published[j].id)
  {
    var s' := Advanced(s, id, a, p');
    forall i | 0 <= i < |s.published| ensures PublishedInPlace(s', i) && (a.sent != [] ==> s.published[i].id != id) {
      KeptInPlace(s, id, a, p', i);
    }
    forall i | |s.published| <= i < |s'.published| ensures PublishedInPlace(s', i) && s'.published[i].id == id {
      assert s'.published[i] == a.sent[0];
    }
  }

  lemma StepKeepsInv(s: State, id: PaymentId, input: Input, effect: Effect)
    requires Inv(s) && id in s.pipelines
    ensures Inv(StepPipeline(s, id, input, effect))
  {
    var p := s.pipelines[id];
    var next := NextStep(id, p, Find(s.rows, id), input, s.now);
    if p.pc == Done || p.pc == Failed {
    } else if next.None? || effect == FailsBefore {
      ThrowKeepsInv(s, id);
    } else {
      AdvancedKeepsInv(s, id, input, if effect == Happens then next.value.pipeline else Thrown(p));
    }
  }

  lemma AdvancedKeepsInv(s: State, id: PaymentId, input: Input, p': Pipeline)
    requires Inv(s) && id in s.pipelines
    requires NextStep(id, s.pipelines[id], Find(s.rows, id), input, s.now).Some?
    requires var a := NextStep(id, s.pipelines[id], Find(s.rows, id), input, s.now).value;
             p' == a.pipeline || Rank(p'.pc) < 0
    ensures Inv(Advanced(s, id, NextStep(id, s.pipelines[id], Find(s.rows, id), input, s.now).value, p'))
  {
    StepFacts(s, id, input);
    StepIsLawful(s, id, input, p');
    AdvancedPublished(s, id, NextStep(id, s.pipelines[id], Find(s.rows, id), input, s.now).value, p');
    var s' := Advanced(s, id, NextStep(id, s.pipelines[id], Find(s.rows, id), input, s.now).value, p');
    forall x | x in s'.pipelines ensures Owns(s'.pipelines[x], Find(s'.rows, x)) {
      if x != id { assert Owns(s.pipelines[x], Find(s.rows, x)); }
    }
    forall c | c in s'.compensations ensures CompensationOk(s'.compensations[c], s'.rows) {
      assert CompensationOk(s.compensations[c], s.rows);
    }
  }

  lemma AckKeepsInv(s: State, id: PaymentId, ack: RailAck)
    requires Inv(s)
    ensures Inv(Next(s, Ack(id, ack)))
  {
    if id in s.rows {
      OutsideWrite(s, id, WithRailAck(s.rows[id], ack, FinalStatus(ack), s.now), Next(s, Ack(id, ack)));
    }
  }

  lemma DeadLetterKeepsInv(s: State, id: PaymentId)
    requires Inv(s)
    ensures Inv(SetStatus(s, id, DEAD_LETTER))
  {
    if id in s.rows {
      OutsideWrite(s, id, WithStatus(s.rows[id], DEAD_LETTER, s.now), SetStatus(s, id, DEAD_LETTER));
    }
  }

  lemma ReadKeepsInv(s: State, c: nat, id: PaymentId)
    requires Inv(s)
    ensures Inv(Next(s, CompensateRead(c, id)))
  {
    if c !in s.compensations {
      if id in s.rows { assert Evidence(s.rows[id]); }
      WithCompensation(s, c, if id in s.rows && s.rows[id].status in COMPENSABLE then Marking(id) else Over(false));
    }
  }

  lemma MarkKeepsInv(s: State, c: nat, effect: Effect)
    requires Inv(s)
    ensures Inv(Next(s, CompensateMark(c, effect)))
  {
    if c in s.compensations && s.compensations[c].Marking? {
      CompensationKeepsInv(s, c, COMPENSATING, effect, Finishing(s.compensations[c].id));
    }
  }

  lemma FinishCompensationKeepsInv(s: State, c: nat, effect: Effect)
    requires Inv(s)
    ensures Inv(Next(s, CompensateFinish(c, effect)))
  {
    if c in s.compensations && s.compensations[c].Finishing? {
      CompensationKeepsInv(s, c, COMPENSATED, effect, Over(true));
    }
  }

  lemma NextKeepsInv(s: State, a: Action)
    requires Inv(s)
    ensures Inv(Next(s, a))
  {
    match a
    case Tick(_) => TickKeepsInv(s, Next(s, a));
    case Start(id) => StartKeepsInv(s, id);
    case Step(id, input, effect) => if id in s.pipelines { StepKeepsInv(s, id, input, effect); }
    case Ack(id, ack) => AckKeepsInv(s, id, ack);
    case DeadLetter(id) => DeadLetterKeepsInv(s, id);
    case CompensateRead(c, id) => ReadKeepsInv(s, c, id);
    case CompensateMark(c, effect) => MarkKeepsInv(s, c, effect);
    case CompensateFinish(c, effect) => FinishCompensationKeepsInv(s, c, effect);
  }

  lemma TickKeepsInv(s: State, s': State)
    requires Inv(s) && s' == s.(now := s'.now)
    ensures Inv(s')
  {
    forall i | 0 <= i < |s'.published| ensures PublishedInPlace(s', i) {
      assert PublishedInPlace(s, i);
    }
  }

  lemma StartKeepsInv(s: State, id: PaymentId)
    requires Inv(s)
    ensures Inv(Next(s, Start(id)))
  {
    var s' := Next(s, Start(id));
    forall i | 0 <= i < |s'.published| ensures PublishedInPlace(s', i) {
      assert PublishedInPlace(s, i);
    }
  }

  lemma CompensationKeepsInv(s: State, c: nat, status: Status, effect: Effect, onward: Compensation)
    requires Inv(s) && c in s.compensations && !s.compensations[c].Over?
    requires status == COMPENSATING || status == COMPENSATED
    requires onward.Over? || onward.id == s.compensations[c].id
    ensures var id := s.compensations[c].id;
            var s1 := if effect == FailsBefore then s else SetStatus(s, id, status);
            Inv(s1.(compensations := s.compensations[c := if effect == Happens then onward else Over(false)]))
  {
    var id := s.compensations[c].id;
    assert CompensationOk(s.compensations[c], s.rows);
    var s1 := if effect == FailsBefore then s else SetStatus(s, id, status);
    if effect != FailsBefore {
      OutsideWrite(s, id, WithStatus(s.rows[id], status, s.now), s1);
    }
    WithCompensation(s1, c, if effect == Happens then onward else Over(false));
  }

  /** The invariant holds after every run. */
  lemma {:induction false} RunKeepsInv(s: State, actions: seq<Action>)
    requires Inv(s)
    ensures Inv(Run(s, actions))
    decreases |actions|
  {
    if actions != [] {
      NextKeepsInv(s, actions[0]);
      RunKeepsInv(Next(s, actions[0]), actions[1..]);
    }
  }
}
