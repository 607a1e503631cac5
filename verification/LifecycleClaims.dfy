/** What the life cycle guarantees, over every run of every interleaving, and what it does not. */
module LifecycleClaims {
  import opened Text
  import opened Wrappers
  import opened PaymentTable
  import opened Lifecycle

  // ---------- the claims, for every run ----------

  /** In every reachable state, whatever the interleaving, a status is backed by its columns. */
  lemma StatusIsBacked(actions: seq<Action>, id: PaymentId)
    ensures var s := Run(INITIAL, actions);
      id in s.rows ==>
        var r := s.rows[id];
        && (r.status == VALIDATED ==> r.validatedAt.Some?)
        && (r.status == CANONICALIZED ==> r.canonical.Some? && r.canonicalizedAt.Some?)
        && (r.status == ROUTED ==> r.destination.Some? && r.routeRule.Some? && r.routedAt.Some?)
        && (r.status == COMPLETED ==>
              r.railAck.Some? && r.railAck.value.status == "ACCEPTED" && r.ackedAt.Some? && r.completedAt.Some?)
        && (r.status == REJECTED ==> r.railAck.Some? && r.railAck.value.status == "REJECTED" && r.ackedAt.Some?)
        && (r.status == QUEUED ==> r.queuedAt.Some? && r.canonical.Some? && r.destination.Some? && r.translated.Some?)
        && (r.status == FAILED ==> r.failedAt.Some? || (r.railAck.Some? && r.ackedAt.Some?))
        && (r.status in {COMPENSATING, COMPENSATED} ==> r.failedAt.Some? || r.deadLetterAt.Some? || r.ackedAt.Some?)
        && (r.status == COMPENSATED ==> r.compensatedAt.Some?)
        && (r.status == DEAD_LETTER ==> r.deadLetterAt.Some?)
        && r.status !in {NORMALIZED, SENT_TO_DESTINATION, ACKED_BY_RAIL, DUPLICATE}
  {
    RunKeepsInv(INITIAL, actions);
    var s := Run(INITIAL, actions);
    if id in s.rows { assert Evidence(s.rows[id]); }
  }

  /** Each payment is published at most once, to a rail with a routing key, and in every later state
      its row still stores exactly the destination and the translation that were published. */
  lemma PublishedOnceAndStored(actions: seq<Action>)
    ensures var s := Run(INITIAL, actions);
      && (forall i, j :: 0 <= i < j < |s.published| ==> s.published[i].id != s.published[j].id)
      && (forall i :: 0 <= i < |s.published| ==>
            var m := s.published[i];
            && HasRoutingKey(m.destination) && m.id in s.rows
            && s.rows[m.id].destination == Some(m.destination) && s.rows[m.id].translated == Some(m.translated))
  {
    RunKeepsInv(INITIAL, actions);
    var s := Run(INITIAL, actions);
    forall i | 0 <= i < |s.published|
      ensures var m := s.published[i];
        && HasRoutingKey(m.destination) && m.id in s.rows
        && s.rows[m.id].destination == Some(m.destination) && s.rows[m.id].translated == Some(m.translated)
    {
      assert PublishedInPlace(s, i);
    }
  }

  lemma PublishedOnce(actions: seq<Action>, i: nat, j: nat)
    ensures var s := Run(INITIAL, actions);
      i < |s.published| && j < |s.published| && s.published[i].id == s.published[j].id ==> i == j
  {
    RunKeepsInv(INITIAL, actions);
    var s := Run(INITIAL, actions);
    assert Inv(s);
    if i < j < |s.published| {
      assert s.published[i].id != s.published[j].id;
    } else if j < i < |s.published| {
      assert s.published[j].id != s.published[i].id;
    }
  }

  /** At most one message is added, and it is what the payment's row holds before the step. */
  predicate SendsStored(s: State, s': State) {
    s'.published == s.published
    || (&& |s'.published| == |s.published| + 1 && s.published <= s'.published
        && Matches(s'.published[|s.published|], Find(s.rows, s'.published[|s.published|].id)))
  }

  lemma StepSendsStored(s: State, id: PaymentId, input: Input, effect: Effect)
    requires id in s.pipelines && Owns(s.pipelines[id], Find(s.rows, id))
    ensures SendsStored(s, StepPipeline(s, id, input, effect))
  {
  }

  /** What is published was stored before the step that publishes it. */
  lemma StoredBeforePublished(actions: seq<Action>, a: Action)
    ensures SendsStored(Run(INITIAL, actions), Next(Run(INITIAL, actions), a))
  {
    RunKeepsInv(INITIAL, actions);
    var s := Run(INITIAL, actions);
    if a.Step? && a.id in s.pipelines {
      assert Owns(s.pipelines[a.id], Find(s.rows, a.id));
      StepSendsStored(s, a.id, a.input, a.effect);
    }
  }

  lemma RowGrows(r: Row, status: Status, ack: RailAck, now: Time)
    ensures Grows(r, r) && Grows(r, WithStatus(r, status, now)) && Grows(r, WithRailAck(r, ack, status, now))
  {
  }

  /** A pipeline step writes at most its own row. */
  lemma StepWrites(s: State, sid: PaymentId, input: Input, effect: Effect)
    requires sid in s.pipelines
    ensures var next := NextStep(sid, s.pipelines[sid], Find(s.rows, sid), input, s.now);
            var rows' := StepPipeline(s, sid, input, effect).rows;
            rows' == s.rows || (next.Some? && rows' == s.rows[sid := next.value.row])
  {
  }

  lemma StepGrows(s: State, sid: PaymentId, input: Input, effect: Effect, id: PaymentId)
    requires Inv(s) && sid in s.pipelines && id in s.rows
    ensures var s' := StepPipeline(s, sid, input, effect);
            id in s'.rows && Grows(s.rows[id], s'.rows[id])
  {
    StepWrites(s, sid, input, effect);
    RowGrows(s.rows[id], FAILED, RailAck("", ""), 0);
    if id == sid && NextStep(sid, s.pipelines[sid], Find(s.rows, sid), input, s.now).Some? {
      StepFacts(s, sid, input);
    }
  }

  lemma SetStatusGrows(s: State, x: PaymentId, status: Status, id: PaymentId)
    requires id in s.rows
    ensures id in SetStatus(s, x, status).rows && Grows(s.rows[id], SetStatus(s, x, status).rows[id])
  {
    RowGrows(s.rows[id], status, RailAck("", ""), s.now);
  }

  lemma NextGrows(s: State, a: Action, id: PaymentId)
    requires Inv(s) && id in s.rows
    ensures id in Next(s, a).rows && Grows(s.rows[id], Next(s, a).rows[id])
  {
    RowGrows(s.rows[id], FAILED, RailAck("", ""), 0);
    match a
    case Step(x, input, effect) => if x in s.pipelines { StepGrows(s, x, input, effect, id); }
    case Ack(x, ack) => RowGrows(s.rows[id], FinalStatus(ack), ack, s.now);
    case DeadLetter(x) => SetStatusGrows(s, x, DEAD_LETTER, id);
    case CompensateMark(c, _) =>
      if c in s.compensations && s.compensations[c].Marking? {
        SetStatusGrows(s, s.compensations[c].id, COMPENSATING, id);
      }
    case CompensateFinish(c, _) =>
      if c in s.compensations && s.compensations[c].Finishing? {
        SetStatusGrows(s, s.compensations[c].id, COMPENSATED, id);
      }
    case _ =>
  }

  /** No row disappears and no time stamp is ever cleared, over any stretch of any run. */
  lemma {:induction false} HistoryIsKept(s: State, actions: seq<Action>, id: PaymentId)
    requires Inv(s) && id in s.rows
    ensures id in Run(s, actions).rows && Grows(s.rows[id], Run(s, actions).rows[id])
    decreases |actions|
  {
    if actions != [] {
      NextKeepsInv(s, actions[0]);
      NextGrows(s, actions[0], id);
      HistoryIsKept(Next(s, actions[0]), actions[1..], id);
    }
  }

  // ---------- what a single step may write ----------

  /** A rail's answer decides the status of its row, and changes the ACK columns alone. */
  lemma AnswerDecidesStatus(s: State, id: PaymentId, ack: RailAck)
    requires id in s.rows
    ensures var s' := Next(s, Ack(id, ack));
      && id in s'.rows && s' == s.(rows := s.rows[id := s'.rows[id]])
      && (s'.rows[id].status == COMPLETED <==> ack.status == "ACCEPTED")
      && (s'.rows[id].status == REJECTED <==> ack.status == "REJECTED")
      && (s'.rows[id].status == FAILED <==> ack.status != "ACCEPTED" && ack.status != "REJECTED")
      && s'.rows[id] == s.rows[id].(
           status := s'.rows[id].status, railAck := Some(ack), ackedAt := Some(s.now),
           completedAt := if ack.status == "ACCEPTED" then Some(s.now) else s.rows[id].completedAt)
  {
  }

  /** A row comes into being through its own pipeline, received now and with nothing else in it. */
  lemma RowsStartReceived(s: State, a: Action, id: PaymentId)
    requires id !in s.rows && id in Next(s, a).rows
    ensures a.Step? && a.id == id
    ensures Next(s, a).rows[id] == Row(RECEIVED, s.now, None, None, None, None, None,
                                       None, None, None, None, None, None, None, None, None, None)
  {
  }

  /** The column in which a status is stamped. */
  function StampOf(r: Row, status: Status): Option<Time> {
    match status
    case RECEIVED => Some(r.createdAt)
    case VALIDATED => r.validatedAt
    case CANONICALIZED => r.canonicalizedAt
    case ROUTED => r.routedAt
    case QUEUED => r.queuedAt
    case SENT_TO_DESTINATION => r.sentAt
    case COMPLETED => r.completedAt
    case FAILED => r.failedAt
    case COMPENSATED => r.compensatedAt
    case DEAD_LETTER => r.deadLetterAt
    case _ => None
  }

  /** From `r` to `r'` a stamp is written only with its status and the present time, and a status is
      entered with its stamp. */
  predicate Stamps(r: Row, r': Row, status: Status, now: Time) {
    && (StampOf(r', status) != StampOf(r, status) ==> r'.status == status && StampOf(r', status) == Some(now))
    && (r'.status != r.status && r'.status != COMPENSATING ==> StampOf(r', r'.status) == Some(now))
  }

  lemma StatusStamps(r: Row, written: Status, status: Status, now: Time)
    requires written in {VALIDATED, QUEUED, FAILED, DEAD_LETTER, COMPENSATING, COMPENSATED}
    ensures var r' := WithStatus(r, written, now);
      Stamps(r, r', status, now) && SameRoute(r, r') && r'.ackedAt == r.ackedAt && r'.railAck == r.railAck
  {
  }

  lemma SetStatusStamps(s: State, x: PaymentId, written: Status, id: PaymentId, status: Status)
    requires id in s.rows && written in {DEAD_LETTER, COMPENSATING, COMPENSATED}
    ensures id in SetStatus(s, x, written).rows
    ensures var r, r' := s.rows[id], SetStatus(s, x, written).rows[id];
      Stamps(r, r', status, s.now) && SameRoute(r, r') && r'.ackedAt == r.ackedAt && r'.railAck == r.railAck
  {
    if x == id {
      assert SetStatus(s, x, written).rows[id] == WithStatus(s.rows[id], written, s.now);
      StatusStamps(s.rows[id], written, status, s.now);
    }
  }

  lemma NextStamps(id: PaymentId, p: Pipeline, r: Row, input: Input, status: Status, now: Time)
    requires NextStep(id, p, Some(r), input, now).Some?
    ensures var r' := NextStep(id, p, Some(r), input, now).value.row;
      Stamps(r, r', status, now) && r'.ackedAt == r.ackedAt && r'.railAck == r.railAck
  {
    if p.pc == Validating { StatusStamps(r, VALIDATED, status, now); }
    else if p.pc == Queueing { StatusStamps(r, QUEUED, status, now); }
    else if p.pc == Failing { StatusStamps(r, FAILED, status, now); }
  }

  lemma StepStamps(s: State, x: PaymentId, input: Input, effect: Effect, id: PaymentId, status: Status)
    requires x in s.pipelines && id in s.rows
    ensures id in StepPipeline(s, x, input, effect).rows
    ensures var r, r' := s.rows[id], StepPipeline(s, x, input, effect).rows[id];
      && Stamps(r, r', status, s.now) && r'.ackedAt == r.ackedAt && r'.railAck == r.railAck
      && (x != id ==> r' == r)
  {
    StepWrites(s, x, input, effect);
    if x == id && NextStep(id, s.pipelines[id], Find(s.rows, id), input, s.now).Some? {
      NextStamps(id, s.pipelines[id], s.rows[id], input, status, s.now);
    }
  }

  /** What any step does to any row: only the payment's own pipeline touches payloads and route, only
      a rail's answer the ACK columns. A stamp is written only with its status and only with the
      present time; and a status is entered with its stamp, but for COMPENSATING, which has none, and
      for a rail's answer, which is stamped in `acked_at` and, if it completes the payment, in
      `completed_at`, but never in `failed_at`. */
  predicate StepTells(s: State, a: Action, id: PaymentId, r: Row, r': Row, status: Status) {
    && (!(a.Step? && a.id == id) ==> SameRoute(r, r'))
    && (if a.Ack? && a.id == id then
          && r'.ackedAt == Some(s.now) && r'.railAck == Some(a.ack) && r'.failedAt == r.failedAt
          && (r'.status == COMPLETED ==> r'.completedAt == Some(s.now))
          && (StampOf(r', status) != StampOf(r, status) ==> status == r'.status == COMPLETED)
        else r'.ackedAt == r.ackedAt && r'.railAck == r.railAck && Stamps(r, r', status, s.now))
  }

  lemma SameRowTells(s: State, a: Action, id: PaymentId, status: Status)
    requires id in s.rows && !(a.Ack? && a.id == id)
    ensures StepTells(s, a, id, s.rows[id], s.rows[id], status)
  {
  }

  lemma WriteTells(s: State, a: Action, x: PaymentId, written: Status, id: PaymentId, status: Status)
    requires id in s.rows && !a.Ack? && written in {DEAD_LETTER, COMPENSATING, COMPENSATED}
    ensures id in SetStatus(s, x, written).rows
    ensures StepTells(s, a, id, s.rows[id], SetStatus(s, x, written).rows[id], status)
  {
    SetStatusStamps(s, x, written, id, status);
  }

  lemma AckTells(s: State, x: PaymentId, ack: RailAck, id: PaymentId, status: Status)
    requires id in s.rows
    ensures id in Next(s, Ack(x, ack)).rows
    ensures StepTells(s, Ack(x, ack), id, s.rows[id], Next(s, Ack(x, ack)).rows[id], status)
  {
    if x == id { AnswerDecidesStatus(s, id, ack); } else { SameRowTells(s, Ack(x, ack), id, status); }
  }

  lemma StampsTellTheTruth(s: State, a: Action, id: PaymentId, status: Status)
    requires id in s.rows
    ensures id in Next(s, a).rows && StepTells(s, a, id, s.rows[id], Next(s, a).rows[id], status)
  {
    match a
    case Step(x, input, effect) =>
      if x in s.pipelines { StepStamps(s, x, input, effect, id, status); } else { SameRowTells(s, a, id, status); }
    case Ack(x, ack) => AckTells(s, x, ack, id, status);
    case DeadLetter(x) => WriteTells(s, a, x, DEAD_LETTER, id, status);
    case CompensateMark(c, _) =>
      SameRowTells(s, a, id, status);
      if c in s.compensations && s.compensations[c].Marking? {
        WriteTells(s, a, s.compensations[c].id, COMPENSATING, id, status);
      }
    case CompensateFinish(c, _) =>
      SameRowTells(s, a, id, status);
      if c in s.compensations && s.compensations[c].Finishing? {
        WriteTells(s, a, s.compensations[c].id, COMPENSATED, id, status);
      }
    case _ => SameRowTells(s, a, id, status);
  }

  // ---------- when a terminal status is final ----------

  /** The payment is completed, its pipeline has ended and no compensation holds it. */
  ghost predicate Settled(s: State, id: PaymentId) {
    && id in s.rows && s.rows[id].status == COMPLETED
    && id in s.pipelines && (s.pipelines[id].pc == Done || s.pipelines[id].pc == Failed)
    && forall c :: c in s.compensations && !s.compensations[c].Over? ==> s.compensations[c].id != id
  }

  /** A dead-letter message for the payment, or an ACK other than ACCEPTED. */
  predicate Disturbs(a: Action, id: PaymentId) {
    (a.DeadLetter? && a.id == id) || (a.Ack? && a.id == id && a.ack.status != "ACCEPTED")
  }

  /** A settled payment stays settled through a step if and only if the step does not disturb it. */
  lemma SettledStep(s: State, a: Action, id: PaymentId)
    requires Settled(s, id)
    ensures Settled(Next(s, a), id) <==> !Disturbs(a, id)
    ensures Next(s, a).rows[id].status == COMPLETED <==> !Disturbs(a, id)
  {
  }

  const GO := Input("payload", "PIX", "rule")

  /** A run without a message that disturbs the payment. */
  ghost predicate Quiet(actions: seq<Action>, id: PaymentId) {
    forall i :: 0 <= i < |actions| ==> !Disturbs(actions[i], id)
  }

  predicate IsCompleted(s: State, id: PaymentId) {
    id in s.rows && s.rows[id].status == COMPLETED
  }

  /** So COMPLETED is final for a settled payment over every run without such a message. */
  lemma {:induction false} SettledRun(s: State, actions: seq<Action>, id: PaymentId)
    requires Settled(s, id) && Quiet(actions, id)
    ensures Settled(Run(s, actions), id)
    decreases |actions|
  {
    if actions != [] {
      SettledStep(s, actions[0], id);
      SettledRun(Next(s, actions[0]), actions[1..], id);
    }
  }

  lemma ThrowIsCaught(s: State, id: PaymentId, input: Input)
    requires id in s.pipelines && s.pipelines[id].pc !in {Done, Failing, Failed}
    ensures var s' := Next(s, Step(id, input, FailsBefore));
            s'.rows == s.rows && id in s'.pipelines && s'.pipelines[id].pc == Failing
  {
  }

  lemma CatchMarks(s: State, id: PaymentId, input: Input)
    requires id in s.pipelines && s.pipelines[id].pc == Failing && id in s.rows
    ensures !IsCompleted(Next(s, Step(id, input, Happens)), id)
  {
  }

  /** A pipeline that has not ended can still write FAILED over its payment's status: any step of
      it may throw, and the catch block marks the payment. */
  lemma PipelineOverwrites(s: State, id: PaymentId) returns (actions: seq<Action>)
    requires id in s.rows && id in s.pipelines && s.pipelines[id].pc != Done && s.pipelines[id].pc != Failed
    ensures Quiet(actions, id) && !IsCompleted(Run(s, actions), id)
  {
    var thrown, caught := Step(id, GO, FailsBefore), Step(id, GO, Happens);
    if s.pipelines[id].pc == Failing {
      actions := [caught];
      CatchMarks(s, id, GO);
      RunOne(s, caught);
    } else {
      actions := [thrown, caught];
      ThrowIsCaught(s, id, GO);
      CatchMarks(Next(s, thrown), id, GO);
      RunTwo(s, thrown, caught);
    }
  }

  /** A compensation that has read the payment before the ACK came can still write its status. */
  lemma CompensationOverwrites(s: State, id: PaymentId, c: nat) returns (actions: seq<Action>)
    requires Inv(s) && IsCompleted(s, id)
    requires c in s.compensations && !s.compensations[c].Over? && s.compensations[c].id == id
    ensures Quiet(actions, id) && !IsCompleted(Run(s, actions), id)
  {
    var write := if s.compensations[c].Marking? then CompensateMark(c, Happens) else CompensateFinish(c, Happens);
    actions := [write];
    RunOne(s, write);
  }

  lemma RunOne(s: State, a: Action)
    ensures Run(s, [a]) == Next(s, a)
  {
    assert [a][1..] == [];
  }

  lemma RunTwo(s: State, a: Action, b: Action)
    ensures Run(s, [a, b]) == Next(Next(s, a), b)
  {
    assert [a, b][1..] == [b];
    RunOne(Next(s, a), b);
  }

  /** COMPLETED is final, over all runs without a dead letter or another ACK for the payment, if and
      only if the payment is settled: otherwise such a run overwrites it. */
  lemma FinalExactly(s: State, id: PaymentId)
    requires Inv(s) && IsCompleted(s, id)
    ensures (forall actions :: Quiet(actions, id) ==> IsCompleted(Run(s, actions), id)) <==> Settled(s, id)
  {
    if Settled(s, id) {
      forall actions | Quiet(actions, id) ensures IsCompleted(Run(s, actions), id) {
        SettledRun(s, actions, id);
      }
    } else if s.pipelines[id].pc != Done && s.pipelines[id].pc != Failed {
      var actions := PipelineOverwrites(s, id);
    } else {
      var c :| c in s.compensations && !s.compensations[c].Over? && s.compensations[c].id == id;
      var actions := CompensationOverwrites(s, id, c);
    }
  }

  lemma {:induction false} RunSnoc(s: State, actions: seq<Action>, a: Action)
    ensures Run(s, actions + [a]) == Next(Run(s, actions), a)
    decreases |actions|
  {
    if actions == [] {
      assert Run(Next(s, a), []) == Next(s, a);
      assert ([] + [a])[1..] == [];
    } else {
      assert (actions + [a])[1..] == actions[1..] + [a];
      RunSnoc(Next(s, actions[0]), actions[1..], a);
    }
  }

  /** The pipeline has got to its step `k` and holds what the steps before have left it. */
  predicate AtStage(s: State, id: PaymentId, k: nat) {
    && id in s.pipelines && Rank(s.pipelines[id].pc) == k
    && (k >= 4 ==> s.pipelines[id].destination == Some("PIX"))
    && (k >= 5 ==> s.pipelines[id].translated.Some?)
    && (id in s.rows <==> k >= 1)
  }

  lemma NextStage(s: State, id: PaymentId, k: nat)
    requires AtStage(s, id, k) && k <= 5
    ensures AtStage(Next(s, Step(id, GO, Happens)), id, k + 1)
  {
    assert !AllSpace("PIX") && !AllSpace("rule") by { assert !IsSpace("PIX"[0]) && !IsSpace("rule"[0]); }
  }

  /** A pipeline can always get as far as its QUEUED write. */
  lemma {:induction false} ReachesStage(id: PaymentId, k: nat) returns (actions: seq<Action>)
    requires k <= 6
    ensures AtStage(Run(INITIAL, actions), id, k)
  {
    if k == 0 {
      actions := [Start(id)];
      RunOne(INITIAL, Start(id));
    } else {
      var before := ReachesStage(id, k - 1);
      actions := before + [Step(id, GO, Happens)];
      RunSnoc(INITIAL, before, Step(id, GO, Happens));
      NextStage(Run(INITIAL, before), id, k - 1);
    }
  }

  /** COMPLETED is not final in general: the publish comes before the QUEUED write, and an ACK may
      land between them and be overwritten. This happens to any payment. */
  lemma CompletedCanBeOverwritten(id: PaymentId) returns (actions: seq<Action>, a: Action)
    ensures var s := Run(INITIAL, actions);
      && id in s.rows && s.rows[id].status == COMPLETED
      && id in Next(s, a).rows && Next(s, a).rows[id].status == QUEUED
  {
    var before := ReachesStage(id, 6);
    var ack := Ack(id, RailAck("ACCEPTED", ""));
    actions, a := before + [ack], Step(id, Input("", "", ""), Happens);
    RunSnoc(INITIAL, before, ack);
  }
}
