/** POST /payments with an Idempotency-Key: any number of requests look up, claim, execute and
    answer concurrently. Each SQL statement is one atomic step and any call may throw. Rows of
    the key table are never deleted, but a row is invisible to lookups once it has expired. */
module Idempotency {
  import opened Wrappers
  import L = Lifecycle
  import LifecycleClaims

  type Key = string
  type Hash = string
  type PaymentId = string
  type Time = nat

  /** A response body, as far as it names a payment. */
  datatype Body = Created(id: PaymentId) | Pending(paymentId: Option<PaymentId>) | Conflict

  datatype Reply = Reply(status: nat, body: Body)

  datatype KeyRow = KeyRow(paymentId: PaymentId, requestHash: Hash, response: Option<Reply>, expiresAt: Time)

  /** What a request's lookup saw. */
  datatype Seen = NotYet | NoLiveRow | SameHash | OtherHash

  datatype Stage =
    | Arrived | Missed | Lost
    | Claimed(id: PaymentId) | Running(id: PaymentId) | Succeeded(id: PaymentId)
    | Answered(reply: Reply) | Threw

  datatype Request = Request(key: Key, hash: Hash, seen: Seen, stage: Stage)

  datatype Execution = Execution(request: nat, key: Key, id: PaymentId)

  /** `owners` and `executions` record history: who inserted a row, and every `pipeline.execute`. */
  datatype State = State(
    now: Time,
    rows: map<Key, KeyRow>,
    requests: map<nat, Request>,
    usedIds: set<PaymentId>,
    owners: map<Key, nat>,
    executions: seq<Execution>)

  const INITIAL := State(0, map[], map[], {}, map[], [])

  datatype Action =
    | Tick(elapsed: nat)
    | Arrive(r: nat, key: Key, hash: Hash)
    | Lookup(r: nat)
    | Claim(r: nat, freshId: PaymentId, lifetime: nat)
    | ClaimThenThrow(r: nat, freshId: PaymentId, lifetime: nat)
    | ReadWinner(r: nat)
    | Execute(r: nat)
    | ExecuteEnds(r: nat, ok: bool)
    | StoreResponse(r: nat)
    | Throw(r: nat)

  // ---------- the statements ----------

  /** FIND_IDEMPOTENCY_BY_KEY */
  function Find(rows: map<Key, KeyRow>, key: Key, now: Time): Option<KeyRow> {
    if key in rows && rows[key].expiresAt > now then Some(rows[key]) else None
  }

  /** The stored response, or a placeholder naming the payment of the row. */
  function Replay(row: KeyRow): Reply {
    if row.response.Some? then row.response.value else Reply(200, Pending(Some(row.paymentId)))
  }

  const CONFLICT := Reply(409, Conflict)

  function Place(s: State, r: nat, stage: Stage): State
    requires r in s.requests
  {
    s.(requests := s.requests[r := s.requests[r].(stage := stage)])
  }

  function LookupStep(s: State, r: nat): State
    requires r in s.requests
  {
    var q := s.requests[r];
    match Find(s.rows, q.key, s.now)
    case None => s.(requests := s.requests[r := q.(seen := NoLiveRow, stage := Missed)])
    case Some(row) =>
      if row.requestHash != q.hash
      then s.(requests := s.requests[r := q.(seen := OtherHash, stage := Answered(CONFLICT))])
      else s.(requests := s.requests[r := q.(seen := SameHash, stage := Answered(Replay(row)))])
  }

  /** INSERT ... ON CONFLICT DO NOTHING: even an expired row keeps the key taken. */
  function ClaimStep(s: State, r: nat, freshId: PaymentId, lifetime: nat, next: Stage): State
    requires r in s.requests
  {
    var q := s.requests[r];
    if freshId in s.usedIds then s
    else if q.key in s.rows then Place(s.(usedIds := s.usedIds + {freshId}), r, if next.Threw? then Threw else Lost)
    else
      Place(s.(usedIds := s.usedIds + {freshId},
               rows := s.rows[q.key := KeyRow(freshId, q.hash, None, s.now + lifetime)],
               owners := s.owners[q.key := r]), r, next)
  }

  function WinnerReply(row: Option<KeyRow>): Reply {
    if row.Some? then Replay(row.value) else Reply(200, Pending(None))
  }

  function Next(s: State, a: Action): State {
    match a
    case Tick(elapsed) => s.(now := s.now + elapsed)
    case Arrive(r, key, hash) =>
      if r in s.requests then s else s.(requests := s.requests[r := Request(key, hash, NotYet, Arrived)])
    case Lookup(r) => if r in s.requests && s.requests[r].stage.Arrived? then LookupStep(s, r) else s
    case Claim(r, freshId, lifetime) =>
      if r in s.requests && s.requests[r].stage.Missed? then ClaimStep(s, r, freshId, lifetime, Claimed(freshId)) else s
    case ClaimThenThrow(r, freshId, lifetime) =>
      if r in s.requests && s.requests[r].stage.Missed? then ClaimStep(s, r, freshId, lifetime, Threw) else s
    case ReadWinner(r) =>
      if r in s.requests && s.requests[r].stage.Lost?
      then Place(s, r, Answered(WinnerReply(Find(s.rows, s.requests[r].key, s.now)))) else s
    case Execute(r) =>
      if r in s.requests && s.requests[r].stage.Claimed? then
        var q := s.requests[r];
        Place(s.(executions := s.executions + [Execution(r, q.key, q.stage.id)]), r, Running(q.stage.id))
      else s
    case ExecuteEnds(r, ok) =>
      if r in s.requests && s.requests[r].stage.Running?
      then Place(s, r, if ok then Succeeded(s.requests[r].stage.id) else Threw) else s
    case StoreResponse(r) =>
      if r in s.requests && s.requests[r].stage.Succeeded? then
        var q := s.requests[r];
        var reply := Reply(201, Created(q.stage.id));
        var rows := if q.key in s.rows then s.rows[q.key := s.rows[q.key].(response := Some(reply))] else s.rows;
        Place(s.(rows := rows), r, Answered(reply))
      else s
    case Throw(r) =>
      if r in s.requests && !s.requests[r].stage.Answered? then Place(s, r, Threw) else s
  }

  function Run(s: State, actions: seq<Action>): State
    decreases |actions|
  {
    if actions == [] then s else Run(Next(s, actions[0]), actions[1..])
  }

  // ---------- the invariant ----------

  function NamedBy(b: Body): Option<PaymentId> {
    match b
    case Created(id) => Some(id)
    case Pending(paymentId) => paymentId
    case Conflict => None
  }

  predicate Names(reply: Reply, id: PaymentId) {
    NamedBy(reply.body) == None || NamedBy(reply.body) == Some(id)
  }

  /** Not yet past the point where the request would have executed. */
  predicate BeforeExecution(stage: Stage) {
    stage.Arrived? || stage.Missed? || stage.Lost? || stage.Claimed?
  }

  predicate OwnedBy(s: State, key: Key, r: nat) {
    key in s.owners && s.owners[key] == r
  }

  predicate RequestOk(s: State, r: nat)
    requires r in s.requests
  {
    var q := s.requests[r];
    && (q.stage.Arrived? ==> q.seen == NotYet)
    && (q.stage.Missed? || q.stage.Lost? || q.stage.Claimed? || q.stage.Running? || q.stage.Succeeded? ==>
          q.seen == NoLiveRow)
    && (q.stage.Claimed? || q.stage.Running? || q.stage.Succeeded? ==>
          q.key in s.rows && s.rows[q.key].paymentId == q.stage.id && OwnedBy(s, q.key, r))
    && (q.stage.Arrived? || q.stage.Missed? || q.stage.Lost? ==> !OwnedBy(s, q.key, r))
    && (q.stage.Lost? ==> q.key in s.rows)
    && (q.stage.Answered? ==>
          && q.seen != NotYet && q.key in s.rows && Names(q.stage.reply, s.rows[q.key].paymentId)
          && (q.stage.reply == CONFLICT <==> q.seen == OtherHash)
          && (q.stage.reply.status == 409 <==> q.seen == OtherHash)
          && (q.seen == OtherHash ==> q.hash != s.rows[q.key].requestHash && !OwnedBy(s, q.key, r))
          && (q.seen == SameHash ==> q.hash == s.rows[q.key].requestHash))
  }

  predicate RowOk(row: KeyRow) {
    row.response.Some? ==> row.response.value == Reply(201, Created(row.paymentId))
  }

  predicate ExecutionOk(s: State, i: nat)
    requires i < |s.executions|
  {
    var e := s.executions[i];
    && e.key in s.rows && e.key in s.owners && s.owners[e.key] == e.request && s.rows[e.key].paymentId == e.id
    && e.request in s.requests && s.requests[e.request].key == e.key && !BeforeExecution(s.requests[e.request].stage)
    && s.requests[e.request].seen == NoLiveRow
  }

  ghost predicate Inv(s: State) {
    && s.owners.Keys == s.rows.Keys
    && (forall k :: k in s.rows ==> RowOk(s.rows[k]))
    && (forall r :: r in s.requests ==> RequestOk(s, r))
    && (forall k :: k in s.owners ==> s.owners[k] in s.requests && s.requests[s.owners[k]].key == k)
    && (forall i :: 0 <= i < |s.executions| ==> ExecutionOk(s, i))
    && (forall i, j :: 0 <= i < j < |s.executions| ==> s.executions[i].key != s.executions[j].key)
  }

  /** Rows keep their payment and their hash for ever. */
  predicate RowsKept(s: State, s': State) {
    forall k :: k in s.rows ==>
      k in s'.rows && s'.rows[k].paymentId == s.rows[k].paymentId && s'.rows[k].requestHash == s.rows[k].requestHash
  }

  /** A step of request `r` that keeps the table's payments and hashes keeps the other requests sound. */
  lemma OthersKept(s: State, s': State, r: nat)
    requires Inv(s) && RowsKept(s, s') && s'.owners.Keys == s'.rows.Keys
    requires forall x :: x in s.requests && x != r ==> x in s'.requests && s'.requests[x] == s.requests[x]
    requires forall x :: x in s'.requests && x != r ==> x in s.requests
    requires forall k :: k in s.owners ==> k in s'.owners && s'.owners[k] == s.owners[k]
    requires forall k :: k in s'.owners && k !in s.owners ==> s'.owners[k] == r
    requires r in s.requests ==> r in s'.requests && s'.requests[r].key == s.requests[r].key
    ensures forall x :: x in s'.requests && x != r ==> RequestOk(s', x)
    ensures forall k :: k in s.owners ==> s'.owners[k] in s'.requests && s'.requests[s'.owners[k]].key == k
  {
    forall x | x in s'.requests && x != r ensures RequestOk(s', x) {
      assert RequestOk(s, x);
    }
  }

  /** Executions stay sound when rows and owners are kept and no executed request goes back. */
  lemma ExecutionsKept(s: State, s': State)
    requires Inv(s) && RowsKept(s, s') && s'.executions == s.executions
    requires forall k :: k in s.owners ==> k in s'.owners && s'.owners[k] == s.owners[k]
    requires forall x :: x in s.requests ==> x in s'.requests && s'.requests[x].key == s.requests[x].key
    requires forall x :: x in s.requests && !BeforeExecution(s.requests[x].stage) ==>
      !BeforeExecution(s'.requests[x].stage) && s'.requests[x].seen == s.requests[x].seen
    ensures forall i :: 0 <= i < |s'.executions| ==> ExecutionOk(s', i)
  {
    forall i | 0 <= i < |s'.executions| ensures ExecutionOk(s', i) {
      assert ExecutionOk(s, i);
    }
  }

  lemma ArriveKeepsInv(s: State, r: nat, key: Key, hash: Hash)
    requires Inv(s) && r !in s.requests
    ensures Inv(Next(s, Arrive(r, key, hash)))
  {
    var s' := Next(s, Arrive(r, key, hash));
    OthersKept(s, s', r);
    ExecutionsKept(s, s');
  }

  /** Replacing a request by a sound later form of itself. */
  lemma PutKeepsInv(s: State, r: nat, q: Request, s': State)
    requires Inv(s) && r in s.requests && s' == s.(requests := s.requests[r := q])
    requires q.key == s.requests[r].key && RequestOk(s', r)
    requires !BeforeExecution(s.requests[r].stage) ==> !BeforeExecution(q.stage) && q.seen == s.requests[r].seen
    ensures Inv(s')
  {
    OthersKept(s, s', r);
    ExecutionsKept(s, s');
  }

  lemma PlaceKeepsInv(s: State, r: nat, stage: Stage)
    requires Inv(s) && r in s.requests && (BeforeExecution(stage) ==> BeforeExecution(s.requests[r].stage))
    requires RequestOk(Place(s, r, stage), r)
    ensures Inv(Place(s, r, stage))
  {
    PutKeepsInv(s, r, s.requests[r].(stage := stage), Place(s, r, stage));
  }

  lemma LookupKeepsInv(s: State, r: nat)
    requires Inv(s) && r in s.requests && s.requests[r].stage.Arrived?
    ensures Inv(LookupStep(s, r))
  {
    var s' := LookupStep(s, r);
    assert RequestOk(s, r);
    if s.requests[r].key in s.rows { assert RowOk(s.rows[s.requests[r].key]); }
    PutKeepsInv(s, r, s'.requests[r], s');
  }

  lemma UseId(s: State, id: PaymentId)
    requires Inv(s)
    ensures Inv(s.(usedIds := s.usedIds + {id}))
  {
    var s' := s.(usedIds := s.usedIds + {id});
    forall r | r in s.requests ensures RequestOk(s', r) { assert RequestOk(s, r); }
    ExecutionsKept(s, s');
  }

  lemma ClaimWins(s: State, r: nat, freshId: PaymentId, lifetime: nat, next: Stage)
    requires Inv(s) && r in s.requests && s.requests[r].stage.Missed? && s.requests[r].key !in s.rows
    requires freshId !in s.usedIds
    requires next == Claimed(freshId) || next == Threw
    ensures Inv(ClaimStep(s, r, freshId, lifetime, next))
  {
    var s' := ClaimStep(s, r, freshId, lifetime, next);
    assert RequestOk(s, r);
    assert s.requests[r].key !in s.owners && RowsKept(s, s');
    assert s'.requests[r] == s.requests[r].(stage := next) && RequestOk(s', r);
    OthersKept(s, s', r);
    ExecutionsKept(s, s');
  }

  lemma ClaimKeepsInv(s: State, r: nat, freshId: PaymentId, lifetime: nat, next: Stage)
    requires Inv(s) && r in s.requests && s.requests[r].stage.Missed?
    requires next == Claimed(freshId) || next == Threw
    ensures Inv(ClaimStep(s, r, freshId, lifetime, next))
  {
    if freshId !in s.usedIds {
      if s.requests[r].key in s.rows {
        UseId(s, freshId);
        assert RequestOk(s, r);
        PlaceKeepsInv(s.(usedIds := s.usedIds + {freshId}), r, if next.Threw? then Threw else Lost);
      } else {
        ClaimWins(s, r, freshId, lifetime, next);
      }
    }
  }

  lemma ReadWinnerKeepsInv(s: State, r: nat)
    requires Inv(s) && r in s.requests && s.requests[r].stage.Lost?
    ensures Inv(Next(s, ReadWinner(r)))
  {
    assert RequestOk(s, r);
    assert RowOk(s.rows[s.requests[r].key]);
    PlaceKeepsInv(s, r, Answered(WinnerReply(Find(s.rows, s.requests[r].key, s.now))));
  }

  lemma ExecuteKeepsInv(s: State, r: nat)
    requires Inv(s) && r in s.requests && s.requests[r].stage.Claimed?
    ensures Inv(Next(s, Execute(r)))
  {
    var q := s.requests[r];
    var s' := Next(s, Execute(r));
    assert RequestOk(s, r);
    OthersKept(s, s', r);
    forall i | 0 <= i < |s.executions| ensures ExecutionOk(s', i) && s.executions[i].key != q.key {
      assert ExecutionOk(s, i);
    }
    assert ExecutionOk(s', |s.executions|);
  }

  /** UPDATE_IDEMPOTENCY_RESPONSE with the response of the row's own payment. */
  lemma StoreRow(s: State, key: Key)
    requires Inv(s) && key in s.rows
    ensures Inv(s.(rows := s.rows[key := s.rows[key].(response := Some(Reply(201, Created(s.rows[key].paymentId))))]))
  {
    var s' := s.(rows := s.rows[key := s.rows[key].(response := Some(Reply(201, Created(s.rows[key].paymentId))))]);
    forall r | r in s.requests ensures RequestOk(s', r) { assert RequestOk(s, r); }
    ExecutionsKept(s, s');
  }

  lemma StoreKeepsInv(s: State, r: nat)
    requires Inv(s) && r in s.requests && s.requests[r].stage.Succeeded?
    ensures Inv(Next(s, StoreResponse(r)))
  {
    var q := s.requests[r];
    assert RequestOk(s, r);
    StoreRow(s, q.key);
    var s1 := s.(rows := s.rows[q.key := s.rows[q.key].(response := Some(Reply(201, Created(q.stage.id))))]);
    PlaceKeepsInv(s1, r, Answered(Reply(201, Created(q.stage.id))));
  }

  lemma NextKeepsInv(s: State, a: Action)
    requires Inv(s)
    ensures Inv(Next(s, a))
  {
    match a
    case Tick(_) =>
      forall r | r in s.requests ensures RequestOk(Next(s, a), r) { assert RequestOk(s, r); }
      ExecutionsKept(s, Next(s, a));
    case Arrive(r, key, hash) => if r !in s.requests { ArriveKeepsInv(s, r, key, hash); }
    case Lookup(r) => if r in s.requests && s.requests[r].stage.Arrived? { LookupKeepsInv(s, r); }
    case Claim(r, freshId, lifetime) =>
      if r in s.requests && s.requests[r].stage.Missed? { ClaimKeepsInv(s, r, freshId, lifetime, Claimed(freshId)); }
    case ClaimThenThrow(r, freshId, lifetime) =>
      if r in s.requests && s.requests[r].stage.Missed? { ClaimKeepsInv(s, r, freshId, lifetime, Threw); }
    case ReadWinner(r) => if r in s.requests && s.requests[r].stage.Lost? { ReadWinnerKeepsInv(s, r); }
    case Execute(r) => if r in s.requests && s.requests[r].stage.Claimed? { ExecuteKeepsInv(s, r); }
    case ExecuteEnds(r, ok) =>
      if r in s.requests && s.requests[r].stage.Running? {
        assert RequestOk(s, r);
        PlaceKeepsInv(s, r, if ok then Succeeded(s.requests[r].stage.id) else Threw);
      }
    case StoreResponse(r) => if r in s.requests && s.requests[r].stage.Succeeded? { StoreKeepsInv(s, r); }
    case Throw(r) => if r in s.requests && !s.requests[r].stage.Answered? { PlaceKeepsInv(s, r, Threw); }
  }

  lemma {:induction false} RunKeepsInv(s: State, actions: seq<Action>)
    requires Inv(s)
    ensures Inv(Run(s, actions))
    decreases |actions|
  {
    if actions != [] {
      NextKeepsInv(s, actions[0]);
      RunKeepsInv(Next(s, actions[0]), actions[1..]);
    }
  }

  // ---------- the claims, for every run ----------

  /** Every key leads to at most one `pipeline.execute`, expired or not. */
  lemma AtMostOneExecution(actions: seq<Action>, i: nat, j: nat)
    ensures var s := Run(INITIAL, actions);
      i < |s.executions| && j < |s.executions| && s.executions[i].key == s.executions[j].key ==> i == j
  {
    RunKeepsInv(INITIAL, actions);
  }

  /** Rows name different payments, all of them generated before. */
  ghost predicate IdsOk(s: State) {
    && (forall k :: k in s.rows ==> s.rows[k].paymentId in s.usedIds)
    && (forall j, k :: j in s.rows && k in s.rows && j != k ==> s.rows[j].paymentId != s.rows[k].paymentId)
  }

  lemma ClaimKeepsIds(s: State, r: nat, freshId: PaymentId, lifetime: nat, next: Stage)
    requires IdsOk(s) && r in s.requests
    ensures IdsOk(ClaimStep(s, r, freshId, lifetime, next))
  {
  }

  lemma NextKeepsIds(s: State, a: Action)
    requires IdsOk(s)
    ensures IdsOk(Next(s, a))
  {
    match a
    case Claim(r, freshId, lifetime) =>
      if r in s.requests { ClaimKeepsIds(s, r, freshId, lifetime, Claimed(freshId)); }
    case ClaimThenThrow(r, freshId, lifetime) =>
      if r in s.requests { ClaimKeepsIds(s, r, freshId, lifetime, Threw); }
    case _ =>
  }

  lemma {:induction false} RunKeepsIds(s: State, actions: seq<Action>)
    requires IdsOk(s)
    ensures IdsOk(Run(s, actions))
    decreases |actions|
  {
    if actions != [] {
      NextKeepsIds(s, actions[0]);
      RunKeepsIds(Next(s, actions[0]), actions[1..]);
    }
  }

  /** No two executions are for the same payment. */
  lemma ExecutionsDiffer(actions: seq<Action>, i: nat, j: nat)
    ensures var s := Run(INITIAL, actions);
      i < |s.executions| && j < |s.executions| && s.executions[i].id == s.executions[j].id ==> i == j
  {
    RunKeepsInv(INITIAL, actions);
    RunKeepsIds(INITIAL, actions);
    var s := Run(INITIAL, actions);
    if i < |s.executions| && j < |s.executions| {
      assert ExecutionOk(s, i) && ExecutionOk(s, j);
    }
  }

  /** Execution `i` is that of the key, and the published message `m` came out of it. */
  predicate SentFor(s: State, key: Key, i: nat, t: L.State, m: nat) {
    i < |s.executions| && s.executions[i].key == key && m < |t.published| && t.published[m].id == s.executions[i].id
  }

  /** Each key leads to at most one published message, and no message is that of two keys: over every
      interleaving of the requests and every interleaving of what happens to their payments. */
  lemma OneMessagePerKey(actions: seq<Action>, steps: seq<L.Action>, key1: Key, key2: Key, i1: nat, i2: nat, m1: nat,
                         m2: nat)
    ensures var s, t := Run(INITIAL, actions), L.Run(L.INITIAL, steps);
      SentFor(s, key1, i1, t, m1) && SentFor(s, key2, i2, t, m2) ==> (key1 == key2 <==> m1 == m2)
  {
    AtMostOneExecution(actions, i1, i2);
    ExecutionsDiffer(actions, i1, i2);
    LifecycleClaims.PublishedOnce(steps, m1, m2);
  }

  /** A reply that names a payment names the payment of the key's one execution. */
  lemma RepliesNameTheExecution(actions: seq<Action>, r: nat, i: nat)
    ensures var s := Run(INITIAL, actions);
      && r in s.requests && s.requests[r].stage.Answered? && NamedBy(s.requests[r].stage.reply.body).Some?
      && i < |s.executions| && s.executions[i].key == s.requests[r].key
      ==> NamedBy(s.requests[r].stage.reply.body) == Some(s.executions[i].id)
  {
    RunKeepsInv(INITIAL, actions);
    var s := Run(INITIAL, actions);
    if r in s.requests && i < |s.executions| {
      assert RequestOk(s, r) && ExecutionOk(s, i);
    }
  }

  /** Two replies for one key never name different payments. */
  lemma RepliesAgree(actions: seq<Action>, r1: nat, r2: nat)
    ensures var s := Run(INITIAL, actions);
      && r1 in s.requests && r2 in s.requests && s.requests[r1].key == s.requests[r2].key
      && s.requests[r1].stage.Answered? && s.requests[r2].stage.Answered?
      && NamedBy(s.requests[r1].stage.reply.body).Some? && NamedBy(s.requests[r2].stage.reply.body).Some?
      ==> NamedBy(s.requests[r1].stage.reply.body) == NamedBy(s.requests[r2].stage.reply.body)
  {
    RunKeepsInv(INITIAL, actions);
    var s := Run(INITIAL, actions);
    if r1 in s.requests && r2 in s.requests {
      assert RequestOk(s, r1) && RequestOk(s, r2);
    }
  }

  /** A request is answered 409 exactly when its lookup saw a live row with another hash, and then
      never executes. A request whose payload differs from the one stored for its key escapes the
      409 exactly when its lookup saw no live row. */
  lemma ConflictExactly(actions: seq<Action>, r: nat)
    ensures var s := Run(INITIAL, actions);
      r in s.requests ==>
        && (s.requests[r].stage.Answered? ==> s.requests[r].key in s.rows)
        && (s.requests[r].stage.Answered? ==>
              (s.requests[r].stage.reply.status == 409 <==> s.requests[r].seen == OtherHash))
        && (s.requests[r].stage.Answered? && s.requests[r].hash != s.rows[s.requests[r].key].requestHash ==>
              (s.requests[r].stage.reply.status != 409 <==> s.requests[r].seen == NoLiveRow))
        && (s.requests[r].seen == OtherHash ==> forall i :: 0 <= i < |s.executions| ==> s.executions[i].request != r)
  {
    RunKeepsInv(INITIAL, actions);
    var s := Run(INITIAL, actions);
    if r in s.requests {
      assert RequestOk(s, r);
      forall i | 0 <= i < |s.executions| && s.requests[r].seen == OtherHash ensures s.executions[i].request != r {
        assert ExecutionOk(s, i);
      }
    }
  }

  /** The lookup step answers 409 if and only if it sees a live row with another hash, and goes on
      to claim the key if and only if it sees no live row; else it replays what the row holds. */
  lemma LookupAnswers(s: State, r: nat)
    requires Inv(s) && r in s.requests && s.requests[r].stage.Arrived?
    ensures var q, live := s.requests[r], Find(s.rows, s.requests[r].key, s.now);
            var q' := Next(s, Lookup(r)).requests[r];
            && (q'.stage == Answered(CONFLICT) <==> live.Some? && live.value.requestHash != q.hash)
            && (q'.stage == Missed <==> live.None?)
            && (live.Some? && live.value.requestHash == q.hash ==>
                  q'.stage == Answered(if live.value.response.Some? then Reply(201, Created(live.value.paymentId))
                                       else Reply(200, Pending(Some(live.value.paymentId)))))
  {
    if Find(s.rows, s.requests[r].key, s.now).Some? { assert RowOk(s.rows[s.requests[r].key]); }
  }

  // ---------- what the protocol does not give ----------

  lemma {:induction false} RunConcat(s: State, a: seq<Action>, b: seq<Action>)
    ensures Run(s, a + b) == Run(Run(s, a), b)
    decreases |a|
  {
    if a == [] {
      assert a + b == b;
    } else {
      assert (a + b)[1..] == a[1..] + b;
      RunConcat(Next(s, a[0]), a[1..], b);
    }
  }

  lemma BothMiss(key: Key, hash: Hash, other: Hash) returns (actions: seq<Action>)
    ensures var s := Run(INITIAL, actions);
      && s.rows == map[] && s.usedIds == {} && s.now == 0
      && s.requests == map[1 := Request(key, hash, NoLiveRow, Missed), 2 := Request(key, other, NoLiveRow, Missed)]
  {
    actions := [Arrive(1, key, hash), Arrive(2, key, other), Lookup(1), Lookup(2)];
    Run4(INITIAL, actions);
  }

  /** The hash is compared at the lookup only: a request that loses the race for a key with a
      different payload is answered with the winner's payment, not 409. */
  lemma LoserIsNotCompared(key: Key, hash: Hash, other: Hash, id: PaymentId, id2: PaymentId)
    returns (actions: seq<Action>)
    requires hash != other && id != id2
    ensures var s := Run(INITIAL, actions);
      && 2 in s.requests && s.requests[2].hash == other && key in s.rows && s.rows[key].requestHash == hash
      && s.requests[2].stage == Answered(Reply(200, Pending(Some(id))))
  {
    var first := BothMiss(key, hash, other);
    var second := [Claim(1, id, 10), Claim(2, id2, 10), ReadWinner(2)];
    actions := first + second;
    RunConcat(INITIAL, first, second);
    Run3(Run(INITIAL, first), second);
  }

  lemma Run3(s: State, a: seq<Action>)
    requires |a| == 3
    ensures Run(s, a) == Next(Next(Next(s, a[0]), a[1]), a[2])
  {
    assert a[1..][1..] == a[2..] && a[2..][1..] == [];
    var s2 := Next(Next(s, a[0]), a[1]);
    assert Run(s2, a[2..]) == Next(s2, a[2]);
  }

  lemma Run4(s: State, a: seq<Action>)
    requires |a| == 4
    ensures Run(s, a) == Next(Next(Next(Next(s, a[0]), a[1]), a[2]), a[3])
  {
    Run3(Next(s, a[0]), a[1..]);
  }

  /** Once its row has expired a key is dead: a new request misses it, cannot claim it and is
      answered 200 without a payment. */
  lemma ExpiredKeyIsDead(s: State, r: nat, key: Key, hash: Hash, freshId: PaymentId, lifetime: nat)
    requires Inv(s) && key in s.rows && s.rows[key].expiresAt <= s.now
    requires r !in s.requests && freshId !in s.usedIds
    ensures var s2 := Next(Next(s, Arrive(r, key, hash)), Lookup(r));
            var s' := Next(Next(s2, Claim(r, freshId, lifetime)), ReadWinner(r));
      && s'.requests[r].stage == Answered(Reply(200, Pending(None)))
      && s'.rows == s.rows && s'.executions == s.executions
  {
  }

  // ---------- the repository and the handler ----------

  class IdempotencyRepository {
    var rows: map<Key, KeyRow>

    constructor ()
      ensures rows == map[]
    {
      rows := map[];
    }

    method FindByKey(key: Key, now: Time) returns (r: Option<KeyRow>)
      ensures r == Find(rows, key, now)
    {
      r := if key in rows && rows[key].expiresAt > now then Some(rows[key]) else None;
    }

    method TryInsert(key: Key, id: PaymentId, hash: Hash, now: Time, lifetime: nat) returns (claimed: bool)
      modifies this
      ensures claimed <==> key !in old(rows)
      ensures rows == if claimed then old(rows)[key := KeyRow(id, hash, None, now + lifetime)] else old(rows)
    {
      claimed := key !in rows;
      if claimed {
        rows := rows[key := KeyRow(id, hash, None, now + lifetime)];
      }
    }

    method UpdateResponse(key: Key, reply: Reply)
      modifies this
      ensures rows == if key in old(rows) then old(rows)[key := old(rows)[key].(response := Some(reply))] else old(rows)
    {
      if key in rows {
        rows := rows[key := rows[key].(response := Some(reply))];
      }
    }
  }

  /** A state with one new request. */
  function Before(rows: map<Key, KeyRow>, now: Time, key: Key, hash: Hash): State {
    State(now, rows, map[1 := Request(key, hash, NotYet, Arrived)], {}, map[], [])
  }

  /** The steps of one request in the handler's order; those it does not reach change nothing. */
  function HandlerSteps(freshId: PaymentId, lifetime: nat, pipelineOk: bool): seq<Action> {
    [Lookup(1), Claim(1, freshId, lifetime), ReadWinner(1)] + [Execute(1), ExecuteEnds(1, pipelineOk), StoreResponse(1)]
  }

  lemma {:induction false} RequestsStay(s: State, actions: seq<Action>, r: nat)
    requires r in s.requests
    ensures r in Run(s, actions).requests
    decreases |actions|
  {
    if actions != [] {
      RequestsStay(Next(s, actions[0]), actions[1..], r);
    }
  }

  function Alone(s: State, freshId: PaymentId, lifetime: nat, pipelineOk: bool): (s': State)
    requires 1 in s.requests
    ensures 1 in s'.requests
  {
    var steps := HandlerSteps(freshId, lifetime, pipelineOk);
    RequestsStay(s, steps, 1);
    Run(s, steps)
  }

  lemma AloneSteps(s: State, freshId: PaymentId, lifetime: nat, pipelineOk: bool)
    requires 1 in s.requests
    ensures var s3 := Next(Next(Next(s, Lookup(1)), Claim(1, freshId, lifetime)), ReadWinner(1));
      Alone(s, freshId, lifetime, pipelineOk)
      == Next(Next(Next(s3, Execute(1)), ExecuteEnds(1, pipelineOk)), StoreResponse(1))
  {
    var a: seq<Action> := [Lookup(1), Claim(1, freshId, lifetime), ReadWinner(1)];
    var b: seq<Action> := [Execute(1), ExecuteEnds(1, pipelineOk), StoreResponse(1)];
    RunConcat(s, a, b);
    Run3(s, a);
    Run3(Run(s, a), b);
  }

  predicate Ends(s': State, rows: map<Key, KeyRow>, stage: Stage, executed: bool) {
    1 in s'.requests && s'.requests[1].stage == stage && s'.rows == rows && executed == (s'.executions != [])
  }

  /** An answered request takes no further step. */
  lemma AnsweredStays(s: State, pipelineOk: bool)
    requires 1 in s.requests && s.requests[1].stage.Answered?
    ensures Next(Next(Next(s, Execute(1)), ExecuteEnds(1, pipelineOk)), StoreResponse(1)) == s
  {
  }

  /** What lookup, claim and reading the winner do to a new request whose key has only an expired row. */
  lemma LosingSteps(s: State, key: Key, freshId: PaymentId, lifetime: nat)
    requires 1 in s.requests && s.requests[1].key == key && s.requests[1].stage.Arrived?
    requires key in s.rows && Find(s.rows, key, s.now).None? && freshId !in s.usedIds
    ensures var s3 := Next(Next(Next(s, Lookup(1)), Claim(1, freshId, lifetime)), ReadWinner(1));
      && 1 in s3.requests && s3.requests[1].stage == Answered(Reply(200, Pending(None)))
      && s3.rows == s.rows && s3.executions == s.executions
  {
  }

  /** And of one whose key has no row. */
  lemma WinningSteps(s: State, key: Key, freshId: PaymentId, lifetime: nat)
    requires 1 in s.requests && s.requests[1].key == key && s.requests[1].stage.Arrived?
    requires key !in s.rows && freshId !in s.usedIds
    ensures var s3 := Next(Next(Next(s, Lookup(1)), Claim(1, freshId, lifetime)), ReadWinner(1));
      && 1 in s3.requests && s3.requests[1] == s.requests[1].(seen := NoLiveRow, stage := Claimed(freshId))
      && s3.rows == s.rows[key := KeyRow(freshId, s.requests[1].hash, None, s.now + lifetime)]
      && s3.executions == s.executions
  {
  }

  lemma AloneReplays(rows: map<Key, KeyRow>, now: Time, key: Key, hash: Hash, freshId: PaymentId, lifetime: nat,
                     pipelineOk: bool)
    requires Find(rows, key, now).Some?
    ensures var row := Find(rows, key, now).value;
      Ends(Alone(Before(rows, now, key, hash), freshId, lifetime, pipelineOk), rows,
           Answered(if row.requestHash == hash then Replay(row) else CONFLICT), false)
  {
    AloneSteps(Before(rows, now, key, hash), freshId, lifetime, pipelineOk);
  }

  lemma AloneLoses(rows: map<Key, KeyRow>, now: Time, key: Key, hash: Hash, freshId: PaymentId, lifetime: nat,
                   pipelineOk: bool)
    requires key in rows && Find(rows, key, now).None?
    ensures Ends(Alone(Before(rows, now, key, hash), freshId, lifetime, pipelineOk), rows,
                 Answered(Reply(200, Pending(None))), false)
  {
    var s := Before(rows, now, key, hash);
    AloneSteps(s, freshId, lifetime, pipelineOk);
    LosingSteps(s, key, freshId, lifetime);
    AnsweredStays(Next(Next(Next(s, Lookup(1)), Claim(1, freshId, lifetime)), ReadWinner(1)), pipelineOk);
  }

  lemma ClaimedEnds(s: State, rows: map<Key, KeyRow>, key: Key, id: PaymentId, row: KeyRow, pipelineOk: bool)
    requires 1 in s.requests && s.requests[1].key == key && s.requests[1].stage == Claimed(id)
    requires s.rows == rows[key := row] && row.response.None? && s.executions == []
    ensures var reply := Reply(201, Created(id));
      Ends(Next(Next(Next(s, Execute(1)), ExecuteEnds(1, pipelineOk)), StoreResponse(1)),
           rows[key := row.(response := if pipelineOk then Some(reply) else None)],
           if pipelineOk then Answered(reply) else Threw, true)
  {
    var row' := row.(response := Some(Reply(201, Created(id))));
    assert rows[key := row][key := row'] == rows[key := row'];
  }

  lemma AloneWins(rows: map<Key, KeyRow>, now: Time, key: Key, hash: Hash, freshId: PaymentId, lifetime: nat,
                  pipelineOk: bool)
    requires key !in rows
    ensures var reply := Reply(201, Created(freshId));
      Ends(Alone(Before(rows, now, key, hash), freshId, lifetime, pipelineOk),
           rows[key := KeyRow(freshId, hash, if pipelineOk then Some(reply) else None, now + lifetime)],
           if pipelineOk then Answered(reply) else Threw, true)
  {
    var s := Before(rows, now, key, hash);
    AloneSteps(s, freshId, lifetime, pipelineOk);
    WinningSteps(s, key, freshId, lifetime);
    ClaimedEnds(Next(Next(Next(s, Lookup(1)), Claim(1, freshId, lifetime)), ReadWinner(1)), rows, key, freshId,
                KeyRow(freshId, hash, None, now + lifetime), pipelineOk);
  }

  /** The handler with no other request in between: it answers and leaves the table as the request's
      own steps do, and `None` stands for a throw out of the pipeline. */
  method PostPayment(repo: IdempotencyRepository, key: Key, hash: Hash, freshId: PaymentId, now: Time, lifetime: nat,
                     pipelineOk: bool)
    returns (reply: Option<Reply>, executed: bool)
    modifies repo
    ensures Ends(Alone(Before(old(repo.rows), now, key, hash), freshId, lifetime, pipelineOk),
                 repo.rows, if reply.Some? then Answered(reply.value) else Threw, executed)
    ensures executed <==> key !in old(repo.rows)
    ensures executed ==> reply == if pipelineOk then Some(Reply(201, Created(freshId))) else None
    ensures !executed && old(repo.rows)[key].expiresAt <= now ==> reply == Some(Reply(200, Pending(None)))
    ensures !executed && old(repo.rows)[key].expiresAt > now && old(repo.rows)[key].requestHash != hash ==>
      reply == Some(Reply(409, Conflict))
  {
    executed := false;
    var existing := repo.FindByKey(key, now);
    if existing.Some? {
      AloneReplays(repo.rows, now, key, hash, freshId, lifetime, pipelineOk);
      if existing.value.requestHash != hash {
        return Some(CONFLICT), false;
      }
      return Some(Replay(existing.value)), false;
    }
    ghost var rows := repo.rows;
    var claimed := repo.TryInsert(key, freshId, hash, now, lifetime);
    if !claimed {
      AloneLoses(rows, now, key, hash, freshId, lifetime, pipelineOk);
      var winner := repo.FindByKey(key, now);
      return Some(WinnerReply(winner)), false;
    }
    AloneWins(rows, now, key, hash, freshId, lifetime, pipelineOk);
    executed := true;
    if !pipelineOk {
      return None, true;
    }
    repo.UpdateResponse(key, Reply(201, Created(freshId)));
    reply := Some(Reply(201, Created(freshId)));
  }

  /** A retry within the row's lifetime replays the first answer without executing; with another
      payload it is refused, also without executing; after the lifetime it is told nothing. */
  lemma RetryAfterSuccess(rows: map<Key, KeyRow>, key: Key, hash: Hash, again: Hash, id: PaymentId, id2: PaymentId,
                          t1: Time, t2: Time, lifetime: nat, ok: bool)
    requires key !in rows
    ensures var s1 := Alone(Before(rows, t1, key, hash), id, lifetime, true);
            var s2 := Alone(Before(s1.rows, t2, key, again), id2, lifetime, ok);
            var second := if t2 >= t1 + lifetime then Reply(200, Pending(None))
                          else if again == hash then Reply(201, Created(id)) else CONFLICT;
      && Ends(s1, s1.rows, Answered(Reply(201, Created(id))), true)
      && Ends(s2, s1.rows, Answered(second), false)
  {
    AloneWins(rows, t1, key, hash, id, lifetime, true);
    var rows1 := rows[key := KeyRow(id, hash, Some(Reply(201, Created(id))), t1 + lifetime)];
    if t2 >= t1 + lifetime {
      AloneLoses(rows1, t2, key, again, id2, lifetime, ok);
    } else {
      AloneReplays(rows1, t2, key, again, id2, lifetime, ok);
    }
  }
}
