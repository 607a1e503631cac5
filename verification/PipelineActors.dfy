/** The actors as they are written: each works on the shared repository statement by statement.
    Run without interference, each does exactly what its steps in `Lifecycle` do. */
module PipelineActors {
  import opened Text
  import opened Wrappers
  import opened PaymentTable
  import opened Lifecycle

  /** The channel to the rail adapters. */
  class Publisher {
    var sent: seq<Message>

    constructor ()
      ensures sent == []
    {
      sent := [];
    }

    method PublishToAdapter(m: Message) returns (ok: bool)
      modifies this
      ensures ok == HasRoutingKey(m.destination)
      ensures sent == if ok then old(sent) + [m] else old(sent)
    {
      ok := HasRoutingKey(m.destination);
      if ok {
        sent := sent + [m];
      }
    }
  }

  /** What the collaborators of one `execute` will do: the input and the fate of each step. */
  datatype Plan = Plan(input: Pc -> Input, effect: Pc -> Effect)

  /** The machine run alone for one payment until its pipeline ends. */
  function Finish(s: State, id: PaymentId, plan: Plan): (s': State)
    requires id in s.pipelines
    ensures id in s'.pipelines && (s'.pipelines[id].pc == Done || s'.pipelines[id].pc == Failed)
    ensures s'.now == s.now
    decreases StepsLeft(s.pipelines[id].pc)
  {
    var pc := s.pipelines[id].pc;
    if pc == Done || pc == Failed then s
    else Finish(StepPipeline(s, id, plan.input(pc), plan.effect(pc)), id, plan)
  }

  function Succ(pc: Pc): Pc {
    match pc
    case Creating => Validating
    case Validating => Canonicalizing
    case Canonicalizing => Routing
    case Routing => Translating
    case Translating => Publishing
    case Publishing => Queueing
    case _ => Done
  }

  class PaymentPipeline {
    const repo: PaymentRepository
    const publisher: Publisher

    constructor (repo: PaymentRepository, publisher: Publisher)
      ensures this.repo == repo && this.publisher == publisher
    {
      this.repo, this.publisher := repo, publisher;
    }

    /** The repository and the channel are as in machine state `s`. */
    ghost predicate At(s: State, id: PaymentId, pc: Pc)
      reads this, repo, publisher
    {
      && repo.Valid() && repo.rows == s.rows && publisher.sent == s.published
      && id in s.pipelines && s.pipelines[id].pc == pc
    }

    /** What a successful step leaves in the local variables. */
    ghost predicate Locals(s: State, s': State, id: PaymentId, pc: Pc, input: Input)
      requires id in s.pipelines && id in s'.pipelines
    {
      && s'.pipelines[id].destination == (if pc == Routing then Some(input.rail) else s.pipelines[id].destination)
      && s'.pipelines[id].translated == (if pc == Translating then Some(input.payload) else s.pipelines[id].translated)
    }

    /** One awaited call of `execute`. */
    method Perform(id: PaymentId, now: Time, pc: Pc, input: Input, destination: Rail, translated: Payload,
                   ghost p: Pipeline)
      returns (written: bool)
      requires repo.Valid() && p.pc == pc && pc != Done && pc != Failed
      requires pc == Publishing ==>
        id in repo.rows && p.destination == Some(destination) && p.translated == Some(translated)
      modifies repo, publisher
      ensures repo.Valid()
      ensures var next := NextStep(id, p, Find(old(repo.rows), id), input, now);
              && written == next.Some?
              && repo.rows == (if next.Some? then old(repo.rows)[id := next.value.row] else old(repo.rows))
              && publisher.sent == (if next.Some? then old(publisher.sent) + next.value.sent else old(publisher.sent))
    {
      match pc {
        case Creating => var r := repo.Create(id, now); written := r.Ok?;
        case Validating => var r := repo.UpdateStatus(id, VALIDATED, now); written := r.Ok?;
        case Canonicalizing => var r := repo.UpdateCanonical(id, input.payload, CANONICALIZED, now); written := r.Ok?;
        case Routing => var r := repo.UpdateRoute(id, input.rail, input.rule, ROUTED, now); written := r.Ok?;
        case Translating => var r := repo.UpdateTranslated(id, input.payload); written := r.Ok?;
        case Publishing => written := publisher.PublishToAdapter(Message(id, destination, translated));
        case Queueing => var r := repo.UpdateStatus(id, QUEUED, now); written := r.Ok?;
        case Failing => var r := repo.UpdateStatus(id, FAILED, now); written := r.Ok?;
      }
    }

    /** One awaited call and whatever fails around it. */
    method Attempt(id: PaymentId, now: Time, pc: Pc, plan: Plan, destination: Rail, translated: Payload, ghost s: State)
      returns (ok: bool, ghost s': State)
      requires At(s, id, pc) && s.now == now && pc != Done && pc != Failed
      requires pc == Publishing ==> id in s.rows
      requires pc == Publishing ==>
        s.pipelines[id].destination == Some(destination) && s.pipelines[id].translated == Some(translated)
      modifies repo, publisher
      ensures s'.now == now && id in s'.pipelines && Finish(s', id, plan) == Finish(s, id, plan)
      ensures At(s', id, if ok then Succ(pc) else if pc == Failing then Failed else Failing)
      ensures ok ==> id in s'.rows && Locals(s, s', id, pc, plan.input(pc))
    {
      s' := StepPipeline(s, id, plan.input(pc), plan.effect(pc));
      if plan.effect(pc) == FailsBefore {
        return false, s';
      }
      var written := Perform(id, now, pc, plan.input(pc), destination, translated, s.pipelines[id]);
      ok := written && plan.effect(pc) == Happens && pc != Failing;
    }

    /** The try block up to the routed payment. */
    method TryUpToRouting(id: PaymentId, now: Time, plan: Plan, ghost s: State) returns (ok: bool, ghost s': State)
      requires At(s, id, Creating) && s.now == now
      modifies repo, publisher
      ensures id in s'.pipelines && At(s', id, if ok then Translating else Failing) && s'.now == now
      ensures ok ==> id in s'.rows && s'.pipelines[id].destination == Some(plan.input(Routing).rail)
      ensures Finish(s', id, plan) == Finish(s, id, plan)
    {
      ok, s' := Attempt(id, now, Creating, plan, "", "", s);
      if !ok { return; }
      ok, s' := Attempt(id, now, Validating, plan, "", "", s');
      if !ok { return; }
      ok, s' := Attempt(id, now, Canonicalizing, plan, "", "", s');
      if !ok { return; }
      ok, s' := Attempt(id, now, Routing, plan, "", "", s');
    }

    /** Translation and publish. */
    method TryToPublish(id: PaymentId, now: Time, plan: Plan, destination: Rail, ghost s: State)
      returns (ok: bool, ghost s': State)
      requires At(s, id, Translating) && s.now == now && id in s.rows
      requires s.pipelines[id].destination == Some(destination)
      modifies repo, publisher
      ensures id in s'.pipelines && At(s', id, if ok then Queueing else Failing) && s'.now == now
      ensures Finish(s', id, plan) == Finish(s, id, plan)
    {
      ok, s' := Attempt(id, now, Translating, plan, "", "", s);
      if !ok { return; }
      ok, s' := Attempt(id, now, Publishing, plan, destination, plan.input(Translating).payload, s');
    }

    /** The steps inside the try block, up to the first that throws. */
    method TrySteps(id: PaymentId, now: Time, plan: Plan, ghost s: State) returns (ok: bool, ghost s': State)
      requires At(s, id, Creating) && s.now == now
      modifies repo, publisher
      ensures id in s'.pipelines && At(s', id, if ok then Done else Failing) && s'.now == now
      ensures Finish(s', id, plan) == Finish(s, id, plan)
    {
      ok, s' := TryUpToRouting(id, now, plan, s);
      if !ok { return; }
      ok, s' := TryToPublish(id, now, plan, plan.input(Routing).rail, s');
      if !ok { return; }
      ok, s' := Attempt(id, now, Queueing, plan, "", "", s');
    }

    /** `execute` with nothing interfering: table, channel and outcome are those of the step machine. */
    method Execute(id: PaymentId, now: Time, plan: Plan) returns (ok: bool)
      requires repo.Valid()
      modifies repo, publisher
      ensures repo.Valid()
      ensures var s' := Finish(Begun(now, old(repo.rows), old(publisher.sent), id), id, plan);
              repo.rows == s'.rows && publisher.sent == s'.published && (ok <==> s'.pipelines[id].pc == Done)
      ensures ok <==> GoesThrough(old(repo.rows), id, plan)
      ensures ok ==> && repo.rows == old(repo.rows)[id := QueuedRow(plan, now)]
                     && publisher.sent == old(publisher.sent) + [SentMessage(id, plan)]
    {
      ExecutionAlone(now, repo.rows, publisher.sent, id, plan);
      ghost var s := Begun(now, repo.rows, publisher.sent, id);
      ok, s := TrySteps(id, now, plan, s);
      if !ok {
        var caught: bool;
        caught, s := Attempt(id, now, Failing, plan, "", "", s);
      }
    }
  }

  function Begun(now: Time, rows: Rows, sent: seq<Message>, id: PaymentId): State {
    State(now, rows, map[id := Pipeline(Creating, None, None)], map[], sent)
  }

  // ---------- the queues ----------

  /** An ACK message as far as the consumer reads it: any part may be missing. */
  datatype AckMessage = AckMessage(paymentId: string, railAck: Option<RailAck>, sourceRail: Option<string>)

  /** What becomes of a message: acknowledged, rejected for good, or put back on the queue. */
  datatype Disposal = Acked | Dropped | PutBack

  predicate IsValidAck(m: Option<AckMessage>) {
    m.Some? && m.value.paymentId != "" && m.value.railAck.Some? && m.value.railAck.value.status != ""
  }

  /** One ACK message, `None` if it does not parse. A valid one writes the rail's answer into its row
      unless the update itself fails; it is acknowledged if nothing fails after that, which a message
      without source rail always does. */
  method HandleAck(repo: PaymentRepository, m: Option<AckMessage>, effect: Effect, now: Time) returns (d: Disposal)
    requires repo.Valid()
    modifies repo
    ensures repo.Valid() && repo.listing == old(repo.listing)
    ensures IsValidAck(m) && m.value.paymentId in old(repo.rows) && effect != FailsBefore ==>
      var id, ack := m.value.paymentId, m.value.railAck.value;
      repo.rows == old(repo.rows)[id := WithRailAck(old(repo.rows)[id], ack, FinalStatus(ack), now)]
    ensures IsValidAck(m) && m.value.paymentId in old(repo.rows) && effect != FailsBefore ==>
      var id, answer := m.value.paymentId, m.value.railAck.value.status;
      && id in repo.rows && (repo.rows[id].status == COMPLETED <==> answer == "ACCEPTED")
      && (repo.rows[id].status == REJECTED <==> answer == "REJECTED")
      && (repo.rows[id].status == FAILED <==> answer != "ACCEPTED" && answer != "REJECTED")
    ensures !(IsValidAck(m) && m.value.paymentId in old(repo.rows) && effect != FailsBefore) ==>
      repo.rows == old(repo.rows)
    ensures d == Acked <==> && IsValidAck(m) && m.value.paymentId in old(repo.rows) && effect == Happens
                            && m.value.sourceRail.Some?
    ensures d == Acked || d == Dropped
  {
    if m.None? || m.value.paymentId == "" || m.value.railAck.None? || m.value.railAck.value.status == "" {
      return Dropped;
    }
    var ack := m.value.railAck.value;
    var finalStatus := FAILED;
    if ack.status == "ACCEPTED" {
      finalStatus := COMPLETED;
    } else if ack.status == "REJECTED" {
      finalStatus := REJECTED;
    }
    if effect == FailsBefore {
      return Dropped;
    }
    var r := repo.UpdateRailAck(m.value.paymentId, ack, finalStatus, now);
    d := if r.Ok? && m.value.sourceRail.Some? && effect == Happens then Acked else Dropped;
  }

  /** One dead-letter message, `None` if it does not parse. It marks its row unless the update fails,
      and goes back on the queue unless everything succeeds; an unreadable one is discarded. */
  method HandleDeadLetter(repo: PaymentRepository, m: Option<PaymentId>, effect: Effect, now: Time)
    returns (d: Disposal)
    requires repo.Valid()
    modifies repo
    ensures repo.Valid() && repo.listing == old(repo.listing)
    ensures m.Some? && m.value in old(repo.rows) && effect != FailsBefore ==>
      repo.rows == old(repo.rows)[m.value := WithStatus(old(repo.rows)[m.value], DEAD_LETTER, now)]
    ensures !(m.Some? && m.value in old(repo.rows) && effect != FailsBefore) ==> repo.rows == old(repo.rows)
    ensures d == Acked <==> m.None? || (m.value in old(repo.rows) && effect == Happens)
    ensures d == Acked || d == PutBack
  {
    if m.None? {
      return Acked;
    }
    if effect == FailsBefore {
      return PutBack;
    }
    var r := repo.UpdateStatus(m.value, DEAD_LETTER, now);
    d := if r.Ok? && effect == Happens then Acked else PutBack;
  }

  const DLQ_MAX_RETRIES := 3

  /** Where `handleFailedMessage` sends a message that failed with this retry count. */
  datatype Retry = Requeued(retryCount: nat) | Dead(retryCount: nat)

  function HandleFailed(retryCount: nat): Retry {
    if retryCount >= DLQ_MAX_RETRIES then Dead(retryCount) else Requeued(retryCount + 1)
  }

  /** How the deliveries of one message end: it is handled, or dead-lettered, with this count. */
  datatype Ending = Handled(retryCount: nat) | DeadLettered(retryCount: nat)

  /** The deliveries of a message, of which the one with count `k` fails or not. */
  function Deliver(retryCount: nat, fails: nat -> bool): Ending
    decreases DLQ_MAX_RETRIES - retryCount
  {
    if !fails(retryCount) then Handled(retryCount)
    else match HandleFailed(retryCount)
      case Dead(c) => DeadLettered(c)
      case Requeued(c) => Deliver(c, fails)
  }

  /** The count of a message's last possible delivery. */
  function LastTry(retryCount: nat): nat {
    if retryCount >= DLQ_MAX_RETRIES then retryCount else DLQ_MAX_RETRIES
  }

  predicate FailsUpTo(fails: nat -> bool, from: nat, to: nat) {
    forall k: nat :: from <= k < to ==> fails(k)
  }

  /** A message is dead-lettered, once, if and only if it fails at every count up to the limit, and
      is otherwise handled at the first count at which it does not fail. */
  lemma {:induction false} RetryChain(retryCount: nat, fails: nat -> bool, n: nat)
    ensures var last := LastTry(retryCount);
      && (Deliver(retryCount, fails) == DeadLettered(n) <==> n == last && FailsUpTo(fails, retryCount, last + 1))
      && (Deliver(retryCount, fails) == Handled(n)
          <==> retryCount <= n <= last && !fails(n) && FailsUpTo(fails, retryCount, n))
    decreases DLQ_MAX_RETRIES - retryCount
  {
    if fails(retryCount) && retryCount < DLQ_MAX_RETRIES {
      RetryChain(retryCount + 1, fails, n);
      var last := LastTry(retryCount);
      assert FailsUpTo(fails, retryCount, last + 1) <==> FailsUpTo(fails, retryCount + 1, last + 1);
      assert retryCount < n ==> (FailsUpTo(fails, retryCount, n) <==> FailsUpTo(fails, retryCount + 1, n));
    }
  }

  /** So a new message is dead-lettered exactly when its first four deliveries fail, with the count 3. */
  lemma NewMessage(fails: nat -> bool)
    ensures Deliver(0, fails) == DeadLettered(3) <==> fails(0) && fails(1) && fails(2) && fails(3)
    ensures Deliver(0, fails).DeadLettered? ==> Deliver(0, fails) == DeadLettered(3)
  {
    RetryChain(0, fails, 3);
    if Deliver(0, fails).DeadLettered? { RetryChain(0, fails, Deliver(0, fails).retryCount); }
  }

  // ---------- execute alone ----------

  /** What one step of a pipeline run alone does. */
  ghost predicate StepOk(s: State, s': State, id: PaymentId, effect: Effect)
    requires id in s.pipelines && id in s'.pipelines
  {
    var pc, pc' := s.pipelines[id].pc, s'.pipelines[id].pc;
    && (pc' == Done ==> id in s'.rows && s'.rows[id].status == QUEUED)
    && (pc' == Failed ==> pc == Failing && (effect != FailsBefore && id in s'.rows ==> s'.rows[id].status == FAILED))
    && (forall x :: x in s.rows && x != id ==> x in s'.rows && s'.rows[x] == s.rows[x])
    && (s'.published == s.published || (pc == Publishing && |s'.published| == |s.published| + 1))
    && (pc in {Publishing, Queueing, Failing} ==> pc' in {Queueing, Done, Failing, Failed})
    && (pc in {Queueing, Failing} ==> pc' in {Done, Failing, Failed})
  }

  lemma StepOutcome(s: State, id: PaymentId, input: Input, effect: Effect)
    requires id in s.pipelines && s.pipelines[id].pc != Done && s.pipelines[id].pc != Failed
    ensures StepOk(s, StepPipeline(s, id, input, effect), id, effect)
  {
  }

  /** An execution that goes through leaves the payment QUEUED; one that is cut short leaves it
      FAILED, or where it stood if the catch block fails as well. Either way at most one message
      goes out and no other payment is touched. */
  ghost predicate OutcomeOk(s: State, s': State, id: PaymentId, plan: Plan)
    requires id in s.pipelines && id in s'.pipelines
  {
    var pc, pc' := s.pipelines[id].pc, s'.pipelines[id].pc;
    && (pc' == Done && pc != Done ==> id in s'.rows && s'.rows[id].status == QUEUED)
    && (pc' == Failed && pc != Failed && plan.effect(Failing) != FailsBefore && id in s'.rows ==>
          s'.rows[id].status == FAILED)
    && (forall x :: x in s.rows && x != id ==> x in s'.rows && s'.rows[x] == s.rows[x])
    && |s.published| <= |s'.published| <= |s.published| + 1
    && (pc in {Queueing, Done, Failing, Failed} ==> s'.published == s.published)
  }

  lemma StepThenOutcome(s: State, s1: State, s2: State, id: PaymentId, plan: Plan)
    requires id in s.pipelines && id in s1.pipelines && id in s2.pipelines
    requires s.pipelines[id].pc != Done && s.pipelines[id].pc != Failed
    requires StepOk(s, s1, id, plan.effect(s.pipelines[id].pc)) && OutcomeOk(s1, s2, id, plan)
    requires s1.pipelines[id].pc in {Done, Failed} ==> s2 == s1
    ensures OutcomeOk(s, s2, id, plan)
  {
  }

  lemma {:induction false} FinishOutcome(s: State, id: PaymentId, plan: Plan)
    requires id in s.pipelines
    ensures OutcomeOk(s, Finish(s, id, plan), id, plan)
    decreases StepsLeft(s.pipelines[id].pc)
  {
    var pc := s.pipelines[id].pc;
    if pc != Done && pc != Failed {
      var s1 := StepPipeline(s, id, plan.input(pc), plan.effect(pc));
      StepOutcome(s, id, plan.input(pc), plan.effect(pc));
      FinishOutcome(s1, id, plan);
      StepThenOutcome(s, s1, Finish(s1, id, plan), id, plan);
    }
  }

  lemma {:induction false} FinishKeepsInv(s: State, id: PaymentId, plan: Plan)
    requires Inv(s) && id in s.pipelines
    ensures Inv(Finish(s, id, plan))
    decreases StepsLeft(s.pipelines[id].pc)
  {
    var pc := s.pipelines[id].pc;
    if pc != Done && pc != Failed {
      StepKeepsInv(s, id, plan.input(pc), plan.effect(pc));
      FinishKeepsInv(StepPipeline(s, id, plan.input(pc), plan.effect(pc)), id, plan);
    }
  }

  // ---------- an execution that goes through ----------

  const TRY_STEPS := {Creating, Validating, Canonicalizing, Routing, Translating, Publishing, Queueing}

  /** The payment is new, no call fails, and the route and the translation can be stored and sent. */
  predicate GoesThrough(rows: Rows, id: PaymentId, plan: Plan) {
    && id !in rows && (forall pc :: pc in TRY_STEPS ==> plan.effect(pc) == Happens)
    && plan.input(Routing).rail in {"PIX", "SPEI", "BRE_B"} && !AllSpace(plan.input(Routing).rule)
    && plan.input(Translating).payload != ""
  }

  /** The row it leaves: each column holds what the step of its name was given. */
  function QueuedRow(plan: Plan, now: Time): Row {
    Row(QUEUED, now, Some(plan.input(Canonicalizing).payload), Some(plan.input(Routing).rail),
        Some(plan.input(Routing).rule), Some(plan.input(Translating).payload), None,
        Some(now), Some(now), Some(now), Some(now), None, None, None, None, None, None)
  }

  function SentMessage(id: PaymentId, plan: Plan): Message {
    Message(id, plan.input(Routing).rail, plan.input(Translating).payload)
  }

  /** No step from the `k`th on fails. */
  predicate NoneFails(plan: Plan, k: int) {
    forall pc :: pc in TRY_STEPS && Rank(pc) >= k ==> plan.effect(pc) == Happens
  }

  lemma NoneFailsFrom(plan: Plan, pc: Pc)
    requires pc in TRY_STEPS
    ensures NoneFails(plan, Rank(pc)) <==> plan.effect(pc) == Happens && NoneFails(plan, Rank(pc) + 1)
  {
    assert forall other :: other in TRY_STEPS && Rank(other) == Rank(pc) ==> other == pc;
  }

  /** Nothing that the rest of an execution depends on stands in its way. */
  ghost predicate Clear(p: Pipeline, row: Option<Row>, plan: Plan) {
    && p.pc != Failing && p.pc != Failed
    && NoneFails(plan, Rank(p.pc))
    && (p.pc == Creating <==> row.None?)
    && (Rank(p.pc) <= 3 ==> plan.input(Routing).rail in {"PIX", "SPEI", "BRE_B"} && !AllSpace(plan.input(Routing).rule))
    && (Rank(p.pc) <= 4 ==> plan.input(Translating).payload != "")
    && (4 <= Rank(p.pc) <= 5 ==> p.destination.Some? && p.destination.value in {"PIX", "SPEI", "BRE_B"})
    && (Rank(p.pc) == 5 ==> p.translated.Some?)
  }

  lemma ClearFromTheStart(rows: Rows, id: PaymentId, plan: Plan)
    ensures Clear(Pipeline(Creating, None, None), Find(rows, id), plan) <==> GoesThrough(rows, id, plan)
  {
    assert NoneFails(plan, 0) <==> forall pc :: pc in TRY_STEPS ==> plan.effect(pc) == Happens;
  }

  lemma RailsAreNotBlank(rail: Rail)
    ensures rail in {"PIX", "SPEI", "BRE_B"} ==> !AllSpace(rail)
  {
    assert !IsSpace("PIX"[0]) && !IsSpace("SPEI"[0]) && !IsSpace("BRE_B"[0]);
  }

  lemma StepIsClear(s: State, id: PaymentId, plan: Plan)
    requires id in s.pipelines && s.pipelines[id].pc in TRY_STEPS
    ensures var s' := StepPipeline(s, id, plan.input(s.pipelines[id].pc), plan.effect(s.pipelines[id].pc));
            Clear(s'.pipelines[id], Find(s'.rows, id), plan) <==> Clear(s.pipelines[id], Find(s.rows, id), plan)
  {
    RailsAreNotBlank(plan.input(Routing).rail);
    NoneFailsFrom(plan, s.pipelines[id].pc);
  }

  lemma {:induction false} DoneIfClear(s: State, id: PaymentId, plan: Plan)
    requires id in s.pipelines
    requires s.pipelines[id].pc == Done ==> id in s.rows
    ensures Finish(s, id, plan).pipelines[id].pc == Done <==> Clear(s.pipelines[id], Find(s.rows, id), plan)
    decreases StepsLeft(s.pipelines[id].pc)
  {
    var pc := s.pipelines[id].pc;
    if pc in TRY_STEPS {
      StepIsClear(s, id, plan);
      DoneIfClear(StepPipeline(s, id, plan.input(pc), plan.effect(pc)), id, plan);
    } else if pc == Failing {
      DoneIfClear(StepPipeline(s, id, plan.input(pc), plan.effect(pc)), id, plan);
    }
  }

  /** With nothing interfering an execution goes through exactly under these conditions, and then its
      row and its message are the ones that its collaborators' answers make. */
  lemma UndisturbedExecution(s: State, id: PaymentId, plan: Plan)
    requires id in s.pipelines && s.pipelines[id] == Pipeline(Creating, None, None)
    ensures var s' := Finish(s, id, plan);
      && (s'.pipelines[id].pc == Done <==> GoesThrough(s.rows, id, plan))
      && (s'.pipelines[id].pc == Done ==>
            s'.rows == s.rows[id := QueuedRow(plan, s.now)] && s'.published == s.published + [SentMessage(id, plan)])
  {
    DoneIfClear(s, id, plan);
    ClearFromTheStart(s.rows, id, plan);
    if Clear(s.pipelines[id], Find(s.rows, id), plan) { GoodExecution(s, id, plan); }
  }

  /** What the steps from `pc` on make of a row. */
  function Remaining(r: Row, pc: Pc, plan: Plan, now: Time): Row {
    var k := Rank(pc);
    r.(status := QUEUED, queuedAt := Some(now),
       validatedAt := if k <= 1 then Some(now) else r.validatedAt,
       canonical := if k <= 2 then Some(plan.input(Canonicalizing).payload) else r.canonical,
       canonicalizedAt := if k <= 2 then Some(now) else r.canonicalizedAt,
       destination := if k <= 3 then Some(plan.input(Routing).rail) else r.destination,
       routeRule := if k <= 3 then Some(plan.input(Routing).rule) else r.routeRule,
       routedAt := if k <= 3 then Some(now) else r.routedAt,
       translated := if k <= 4 then Some(plan.input(Translating).payload) else r.translated)
  }

  /** And what they send. */
  function StillToSend(id: PaymentId, p: Pipeline, plan: Plan): seq<Message> {
    if Rank(p.pc) > 5 then []
    else [Message(id, if Rank(p.pc) <= 3 then plan.input(Routing).rail else OrElse(p.destination, ""),
                  if Rank(p.pc) <= 4 then plan.input(Translating).payload else OrElse(p.translated, ""))]
  }

  lemma ClearAdvance(s: State, id: PaymentId, plan: Plan)
    requires id in s.pipelines && s.pipelines[id].pc in TRY_STEPS && s.pipelines[id].pc != Creating && id in s.rows
    requires Clear(s.pipelines[id], Find(s.rows, id), plan)
    ensures var p := s.pipelines[id];
            var next := NextStep(id, p, Find(s.rows, id), plan.input(p.pc), s.now);
      && plan.effect(p.pc) == Happens && next.Some? && next.value.pipeline.pc == Succ(p.pc)
      && (if p.pc == Queueing then next.value.row == Remaining(s.rows[id], p.pc, plan, s.now)
          else Remaining(next.value.row, Succ(p.pc), plan, s.now) == Remaining(s.rows[id], p.pc, plan, s.now))
      && next.value.sent + StillToSend(id, next.value.pipeline, plan) == StillToSend(id, p, plan)
  {
    RailsAreNotBlank(plan.input(Routing).rail);
  }

  lemma WriteTwice(rows: Rows, id: PaymentId, row: Row, row': Row)
    ensures rows[id := row][id := row'] == rows[id := row']
  {
  }

  lemma {:induction false} RemainingSteps(s: State, id: PaymentId, plan: Plan)
    requires id in s.pipelines && s.pipelines[id].pc in TRY_STEPS && s.pipelines[id].pc != Creating && id in s.rows
    requires Clear(s.pipelines[id], Find(s.rows, id), plan)
    ensures var s', p := Finish(s, id, plan), s.pipelines[id];
      && s'.rows == s.rows[id := Remaining(s.rows[id], p.pc, plan, s.now)]
      && s'.published == s.published + StillToSend(id, p, plan)
    decreases StepsLeft(s.pipelines[id].pc)
  {
    var p := s.pipelines[id];
    var s1 := StepPipeline(s, id, plan.input(p.pc), plan.effect(p.pc));
    ClearAdvance(s, id, plan);
    var a := NextStep(id, p, Find(s.rows, id), plan.input(p.pc), s.now).value;
    assert s1 == Advanced(s, id, a, a.pipeline);
    if p.pc != Queueing {
      StepIsClear(s, id, plan);
      RemainingSteps(s1, id, plan);
      WriteTwice(s.rows, id, a.row, Remaining(a.row, Succ(p.pc), plan, s.now));
    }
  }

  lemma ExecutionAlone(now: Time, rows: Rows, sent: seq<Message>, id: PaymentId, plan: Plan)
    ensures var s' := Finish(Begun(now, rows, sent, id), id, plan);
      && (s'.pipelines[id].pc == Done <==> GoesThrough(rows, id, plan))
      && (s'.pipelines[id].pc == Done ==>
            s'.rows == rows[id := QueuedRow(plan, now)] && s'.published == sent + [SentMessage(id, plan)])
  {
    UndisturbedExecution(Begun(now, rows, sent, id), id, plan);
  }

  lemma GoodExecution(s: State, id: PaymentId, plan: Plan)
    requires id in s.pipelines && s.pipelines[id] == Pipeline(Creating, None, None)
    requires Clear(s.pipelines[id], Find(s.rows, id), plan)
    ensures var s' := Finish(s, id, plan);
      s'.rows == s.rows[id := QueuedRow(plan, s.now)] && s'.published == s.published + [SentMessage(id, plan)]
  {
    var s1 := StepPipeline(s, id, plan.input(Creating), plan.effect(Creating));
    StepIsClear(s, id, plan);
    RemainingSteps(s1, id, plan);
    assert s1.published == s.published;
  }

  /** The claims about `execute`, from any reachable table and a fresh payment id. */
  lemma ExecuteOutcome(s: State, id: PaymentId, plan: Plan)
    requires Inv(s) && id !in s.pipelines
    ensures var begun := Next(s, Start(id));
            var s' := Finish(begun, id, plan);
      && OutcomeOk(begun, s', id, plan)
      && (s'.pipelines[id].pc == Done ==>
            && s'.rows[id].status == QUEUED && s'.rows[id].queuedAt.Some?
            && s'.rows[id].destination.Some? && s'.rows[id].translated.Some?)
  {
    var begun := Next(s, Start(id));
    StartKeepsInv(s, id);
    FinishOutcome(begun, id, plan);
    FinishKeepsInv(begun, id, plan);
    var s' := Finish(begun, id, plan);
    if id in s'.rows { assert Evidence(s'.rows[id]); }
  }
}
