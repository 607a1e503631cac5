/** The token buckets that bound the payments sent to each rail. Tokens are counted in
    thousandths, so that `maxPerSecond / 1000` tokens per millisecond are whole numbers. */
module RateLimiter {
  import opened Collections
  import opened Rounding
  import opened Timeline
  import opened Wrappers

  type Rail = string

  const TOKEN := 1000

  datatype Bucket = Bucket(tokens: int, maxTokens: int, lastRefillAt: Time) {
    function Capacity(): int {
      TOKEN * maxTokens
    }

    predicate Valid() {
      maxTokens >= 1 && 0 <= tokens <= Capacity()
    }
  }

  type Buckets = map<Rail, Bucket>

  function Full(maxTokens: int, now: Time): Bucket {
    Bucket(TOKEN * maxTokens, maxTokens, now)
  }

  function Max(a: int, b: int): int {
    if a >= b then a else b
  }

  /** Refilling happens only when a bucket is looked at. */
  function Refilled(b: Bucket, now: Time): Bucket {
    if now > b.lastRefillAt
    then Bucket(Least(b.Capacity(), b.tokens + (now - b.lastRefillAt) * b.maxTokens), b.maxTokens, now)
    else b
  }

  /** Milliseconds until the refill rate makes up what is missing to one token, rounded up. */
  function RetryAfter(b: Bucket): int
    requires b.maxTokens >= 1
  {
    (TOKEN - b.tokens + b.maxTokens - 1) / b.maxTokens
  }

  predicate Grants(b: Bucket, now: Time) {
    Refilled(b, now).tokens >= TOKEN
  }

  function Acquired(b: Bucket, now: Time): Bucket {
    var b' := Refilled(b, now);
    if Grants(b, now) then b'.(tokens := b'.tokens - TOKEN) else b'
  }

  function AllRefilled(buckets: Buckets, now: Time): Buckets {
    map rail | rail in buckets :: Refilled(buckets[rail], now)
  }

  datatype RailStatus = RailStatus(rail: Rail, availableTokens: int, maxTokens: int, utilizationPct: int)

  ghost predicate AllValid(buckets: Buckets) {
    forall rail :: rail in buckets ==> buckets[rail].Valid()
  }

  /** The missing part of a full bucket in percent. */
  function Utilization(b: Bucket): int
    requires b.Valid()
  {
    RoundDiv(100 * (b.Capacity() - b.tokens), b.Capacity())
  }

  /** Whole tokens and the rounded utilization. */
  function StatusOf(rail: Rail, b: Bucket): RailStatus
    requires b.Valid()
  {
    RailStatus(rail, b.tokens / TOKEN, b.maxTokens, Utilization(b))
  }

  /** What the dashboard shows are the whole tokens and the missing percentage, rounded to the nearest
      whole number; it lies within the bucket's bounds: a full bucket shows all its tokens
      and no utilization, an empty one none and full utilization. */
  lemma StatusIsBounded(rail: Rail, b: Bucket)
    requires b.Valid()
    ensures var s, capacity := StatusOf(rail, b), 1000 * b.maxTokens;
      && s.rail == rail && s.maxTokens == b.maxTokens
      && 1000 * s.availableTokens <= b.tokens < 1000 * (s.availableTokens + 1)
      && 0 - capacity < 2 * (s.utilizationPct * capacity - 100 * (capacity - b.tokens)) <= capacity
      && 0 <= s.availableTokens <= s.maxTokens && 0 <= s.utilizationPct <= 100
      && (b == Full(b.maxTokens, b.lastRefillAt) ==> s.availableTokens == s.maxTokens && s.utilizationPct == 0)
      && (b.tokens == 0 ==> s.availableTokens == 0 && s.utilizationPct == 100)
  {
    RoundBetween(100 * (b.Capacity() - b.tokens), b.Capacity(), 0, 100);
    RoundNear(100 * (b.Capacity() - b.tokens), b.Capacity());
    if b.tokens == b.Capacity() { RoundBetween(0, b.Capacity(), 0, 0); }
    if b.tokens == 0 { RoundBetween(100 * b.Capacity(), b.Capacity(), 100, 100); }
  }

  lemma RefillKeepsValid(b: Bucket, now: Time)
    requires b.Valid()
    ensures Refilled(b, now).Valid() && Acquired(b, now).Valid()
    ensures Refilled(b, now).maxTokens == b.maxTokens && Acquired(b, now).maxTokens == b.maxTokens
  {
    if now > b.lastRefillAt {
      assert (now - b.lastRefillAt) * b.maxTokens >= 0;
    }
  }

  lemma AllRefilledValid(buckets: Buckets, now: Time)
    requires AllValid(buckets)
    ensures AllValid(AllRefilled(buckets, now))
  {
    forall rail | rail in buckets ensures Refilled(buckets[rail], now).Valid() {
      RefillKeepsValid(buckets[rail], now);
    }
  }

  /** The buckets after a walk that refills the given rails. */
  function RefillEach(buckets: Buckets, rails: seq<Rail>, now: Time): (r: Buckets)
    requires forall rail :: rail in rails ==> rail in buckets
    ensures r.Keys == buckets.Keys
    decreases |rails|
  {
    if rails == [] then buckets
    else
      var last := rails[|rails| - 1];
      var prior := RefillEach(buckets, rails[..|rails| - 1], now);
      prior[last := Refilled(prior[last], now)]
  }

  function StatusEach(buckets: Buckets, rails: seq<Rail>): (r: seq<RailStatus>)
    requires AllValid(buckets) && forall rail :: rail in rails ==> rail in buckets
    ensures |r| == |rails|
    ensures forall i :: 0 <= i < |rails| ==> r[i] == StatusOf(rails[i], buckets[rails[i]])
    decreases |rails|
  {
    if rails == [] then []
    else StatusEach(buckets, rails[..|rails| - 1]) + [StatusOf(rails[|rails| - 1], buckets[rails[|rails| - 1]])]
  }

  lemma {:induction false} RefillEachAt(buckets: Buckets, rails: seq<Rail>, rail: Rail, now: Time)
    requires rail in buckets && forall r :: r in rails ==> r in buckets
    ensures RefillEach(buckets, rails, now)[rail]
         == if rail in rails then Refilled(buckets[rail], now) else buckets[rail]
    decreases |rails|
  {
    if rails != [] {
      assert rails == rails[..|rails| - 1] + [rails[|rails| - 1]];
      RefillEachAt(buckets, rails[..|rails| - 1], rail, now);
    }
  }

  lemma RefillEachIsAll(buckets: Buckets, rails: seq<Rail>, now: Time)
    requires forall rail :: rail in rails <==> rail in buckets
    ensures RefillEach(buckets, rails, now) == AllRefilled(buckets, now)
  {
    forall rail | rail in buckets ensures RefillEach(buckets, rails, now)[rail] == Refilled(buckets[rail], now) {
      RefillEachAt(buckets, rails, rail, now);
    }
  }

  /** One step of the walk over the rails. */
  lemma WalkStep(buckets: Buckets, rails: seq<Rail>, i: nat, now: Time)
    requires AllValid(buckets) && i < |rails| && Distinct(rails) && forall rail :: rail in rails ==> rail in buckets
    ensures AllValid(AllRefilled(buckets, now)) && Refilled(buckets[rails[i]], now).Valid()
    ensures RefillEach(buckets, rails[..i], now)[rails[i]] == buckets[rails[i]]
    ensures RefillEach(buckets, rails[..i + 1], now)
         == RefillEach(buckets, rails[..i], now)[rails[i] := Refilled(buckets[rails[i]], now)]
    ensures StatusEach(AllRefilled(buckets, now), rails[..i + 1])
         == StatusEach(AllRefilled(buckets, now), rails[..i]) + [StatusOf(rails[i], Refilled(buckets[rails[i]], now))]
  {
    AllRefilledValid(buckets, now);
    assert rails[..i + 1][..i] == rails[..i];
    RefillEachAt(buckets, rails[..i], rails[i], now);
  }

  // ---------- the class ----------

  datatype Config = Config(rail: Rail, maxPerSecond: int)

  /** The first `n` configured rails have full buckets, and no others have any. */
  ghost predicate Holds(rails: seq<Rail>, buckets: Buckets, configs: seq<Config>, n: nat, now: Time)
    requires n <= |configs|
  {
    && AllValid(buckets) && |rails| == n && (forall rail :: rail in rails <==> rail in buckets)
    && forall j :: 0 <= j < n ==>
         rails[j] == configs[j].rail && rails[j] in buckets && buckets[rails[j]] == Full(configs[j].maxPerSecond, now)
  }

  lemma AddRail(rails: seq<Rail>, buckets: Buckets, configs: seq<Config>, n: nat, now: Time)
    requires n < |configs| && Holds(rails, buckets, configs, n, now) && configs[n].maxPerSecond >= 1
    requires forall j :: 0 <= j < n ==> configs[j].rail != configs[n].rail
    ensures var c := configs[n];
      Holds(rails + [c.rail], buckets[c.rail := Full(c.maxPerSecond, now)], configs, n + 1, now)
  {
  }

  class RateLimiter {
    /** The rails in the order in which they were configured, each once. */
    var rails: seq<Rail>
    var buckets: Buckets

    ghost predicate Valid()
      reads this
    {
      && AllValid(buckets)
      && (forall rail :: rail in rails <==> rail in buckets)
      && Distinct(rails)
    }

    constructor (configs: seq<Config>, now: Time)
      requires forall i :: 0 <= i < |configs| ==> configs[i].maxPerSecond >= 1
      requires forall i, j :: 0 <= i < j < |configs| ==> configs[i].rail != configs[j].rail
      ensures Valid() && |rails| == |configs|
      ensures forall i :: 0 <= i < |configs| ==>
        rails[i] == configs[i].rail && buckets[rails[i]] == Full(configs[i].maxPerSecond, now)
    {
      rails, buckets := [], map[];
      new;
      for i := 0 to |configs|
        invariant Holds(rails, buckets, configs, i, now)
      {
        var c := configs[i];
        AddRail(rails, buckets, configs, i, now);
        rails := rails + [c.rail];
        buckets := buckets[c.rail := Full(c.maxPerSecond, now)];
      }
    }

    /** `Err` carries the retry hint of the error; a rail without a bucket is not limited. */
    method Acquire(rail: Rail, now: Time) returns (r: Result<(), int>)
      requires Valid()
      modifies this
      ensures Valid() && rails == old(rails)
      ensures buckets == if rail in old(buckets) then old(buckets)[rail := Acquired(old(buckets)[rail], now)]
                         else old(buckets)
      ensures r.Ok? <==> rail !in old(buckets) || Grants(old(buckets)[rail], now)
      ensures r.Err? ==> r.error == RetryAfter(Refilled(old(buckets)[rail], now))
    {
      if rail !in buckets {
        return Ok(());
      }
      RefillKeepsValid(buckets[rail], now);
      var bucket := Refilled(buckets[rail], now);
      if bucket.tokens < TOKEN {
        buckets := buckets[rail := bucket];
        return Err(RetryAfter(bucket));
      }
      buckets := buckets[rail := bucket.(tokens := bucket.tokens - TOKEN)];
      return Ok(());
    }

    method CanAcquire(rail: Rail, now: Time) returns (allowed: bool)
      requires Valid()
      modifies this
      ensures Valid() && rails == old(rails)
      ensures buckets == if rail in old(buckets) then old(buckets)[rail := Refilled(old(buckets)[rail], now)]
                         else old(buckets)
      ensures allowed <==> rail !in old(buckets) || Grants(old(buckets)[rail], now)
    {
      if rail !in buckets {
        return true;
      }
      RefillKeepsValid(buckets[rail], now);
      buckets := buckets[rail := Refilled(buckets[rail], now)];
      return buckets[rail].tokens >= TOKEN;
    }

    method GetStatus(now: Time) returns (result: seq<RailStatus>)
      requires Valid()
      modifies this
      ensures Valid() && rails == old(rails) && buckets == AllRefilled(old(buckets), now)
      ensures |result| == |rails|
      ensures forall i :: 0 <= i < |rails| ==> result[i] == StatusOf(rails[i], buckets[rails[i]])
    {
      ghost var was := buckets;
      AllRefilledValid(was, now);
      result := [];
      for i := 0 to |rails|
        invariant rails == old(rails) && buckets == RefillEach(was, rails[..i], now)
        invariant result == StatusEach(AllRefilled(was, now), rails[..i])
      {
        var rail := rails[i];
        WalkStep(was, rails, i, now);
        var bucket := Refilled(buckets[rail], now);
        buckets := buckets[rail := bucket];
        result := result + [StatusOf(rail, bucket)];
      }
      assert rails[..|rails|] == rails;
      RefillEachIsAll(was, rails, now);
    }
  }

  // ---------- runs ----------

  /** Waits are the milliseconds since the previous operation: the clock never runs back. */
  datatype Op = Acquire(rail: Rail, wait: nat) | CanAcquire(rail: Rail, wait: nat) | GetStatus(wait: nat)

  datatype World = World(now: Time, buckets: Buckets)

  function Next(w: World, op: Op): World {
    var t := w.now + op.wait;
    match op
    case Acquire(rail, _) =>
      World(t, if rail in w.buckets then w.buckets[rail := Acquired(w.buckets[rail], t)] else w.buckets)
    case CanAcquire(rail, _) =>
      World(t, if rail in w.buckets then w.buckets[rail := Refilled(w.buckets[rail], t)] else w.buckets)
    case GetStatus(_) => World(t, AllRefilled(w.buckets, t))
  }

  predicate Granted(w: World, op: Op) {
    op.Acquire? && (op.rail in w.buckets ==> Grants(w.buckets[op.rail], w.now + op.wait))
  }

  function Run(w: World, ops: seq<Op>): World
    decreases |ops|
  {
    if ops == [] then w else Run(Next(w, ops[0]), ops[1..])
  }

  /** When the acquires on a rail were granted, in order. */
  function GrantTimes(w: World, ops: seq<Op>, rail: Rail): seq<Time>
    decreases |ops|
  {
    if ops == [] then []
    else (if Granted(w, ops[0]) && ops[0].rail == rail then [w.now + ops[0].wait] else [])
         + GrantTimes(Next(w, ops[0]), ops[1..], rail)
  }

  ghost predicate Inv(w: World) {
    AllValid(w.buckets) && forall rail :: rail in w.buckets ==> w.buckets[rail].lastRefillAt <= w.now
  }

  lemma NextKeepsInv(w: World, op: Op)
    requires Inv(w)
    ensures Inv(Next(w, op)) && Next(w, op).buckets.Keys == w.buckets.Keys
    ensures forall rail :: rail in w.buckets ==> Next(w, op).buckets[rail].maxTokens == w.buckets[rail].maxTokens
  {
    forall rail | rail in w.buckets
      ensures Refilled(w.buckets[rail], w.now + op.wait).Valid() && Acquired(w.buckets[rail], w.now + op.wait).Valid()
    {
      RefillKeepsValid(w.buckets[rail], w.now + op.wait);
    }
  }

  /** Tokens stay between zero and the capacity in every run. */
  lemma {:induction false} RunKeepsInv(w: World, ops: seq<Op>)
    requires Inv(w)
    ensures Inv(Run(w, ops)) && Run(w, ops).buckets.Keys == w.buckets.Keys
    ensures forall rail :: rail in w.buckets ==> Run(w, ops).buckets[rail].maxTokens == w.buckets[rail].maxTokens
    decreases |ops|
  {
    if ops != [] {
      NextKeepsInv(w, ops[0]);
      RunKeepsInv(Next(w, ops[0]), ops[1..]);
    }
  }

  // ---------- laziness is unobservable ----------

  /** What the bucket would hold at a time if it were refilled then. */
  function Level(b: Bucket, now: Time): int {
    Refilled(b, now).tokens
  }

  lemma RefillTwice(b: Bucket, now: Time, later: Time)
    requires b.Valid() && now <= later
    ensures Refilled(Refilled(b, now), later).tokens == Refilled(b, later).tokens
  {
    if b.lastRefillAt < now < later {
      assert (later - b.lastRefillAt) * b.maxTokens
          == (now - b.lastRefillAt) * b.maxTokens + (later - now) * b.maxTokens;
      assert (later - now) * b.maxTokens >= 0;
    }
  }

  /** One step changes what a rail's bucket will hold later only by a grant on that rail. */
  lemma LevelAfterStep(w: World, op: Op, rail: Rail, later: Time)
    requires Inv(w) && rail in w.buckets && later >= w.now + op.wait
    requires !(Granted(w, op) && op.rail == rail)
    ensures Level(Next(w, op).buckets[rail], later) == Level(w.buckets[rail], later)
  {
    RefillTwice(w.buckets[rail], w.now + op.wait, later);
  }

  /** The reference bucket: one refill every millisecond. */
  function Ticked(tokens: int, maxTokens: int, ms: nat): int
    decreases ms
  {
    if ms == 0 then tokens else Ticked(Least(TOKEN * maxTokens, tokens + maxTokens), maxTokens, ms - 1)
  }

  lemma {:induction false} TickedIsLevel(tokens: int, maxTokens: int, ms: nat)
    requires maxTokens >= 1 && 0 <= tokens <= TOKEN * maxTokens
    ensures Ticked(tokens, maxTokens, ms) == Least(TOKEN * maxTokens, tokens + ms * maxTokens)
    decreases ms
  {
    if ms > 0 {
      var next := Least(TOKEN * maxTokens, tokens + maxTokens);
      TickedIsLevel(next, maxTokens, ms - 1);
      assert ms * maxTokens == (ms - 1) * maxTokens + maxTokens;
      assert (ms - 1) * maxTokens >= 0;
    }
  }

  /** Its answers to acquires at the given times. It knows nothing of other operations. */
  function ReferenceAnswers(tokens: int, maxTokens: int, now: Time, times: seq<Time>): seq<bool>
    decreases |times|
  {
    if times == [] then []
    else
      var level := if times[0] >= now then Ticked(tokens, maxTokens, times[0] - now) else tokens;
      [level >= TOKEN]
      + ReferenceAnswers(if level >= TOKEN then level - TOKEN else level, maxTokens, times[0], times[1..])
  }

  /** The reference bucket that starts at the level of a lazy one. */
  function ReferenceFrom(b: Bucket, now: Time, times: seq<Time>): seq<bool> {
    ReferenceAnswers(Level(b, now), b.maxTokens, now, times)
  }

  function AcquireTimes(now: Time, ops: seq<Op>, rail: Rail): seq<Time>
    decreases |ops|
  {
    if ops == [] then []
    else (if ops[0].Acquire? && ops[0].rail == rail then [now + ops[0].wait] else [])
         + AcquireTimes(now + ops[0].wait, ops[1..], rail)
  }

  function Answers(w: World, ops: seq<Op>, rail: Rail): seq<bool>
    decreases |ops|
  {
    if ops == [] then []
    else (if ops[0].Acquire? && ops[0].rail == rail then [Granted(w, ops[0])] else [])
         + Answers(Next(w, ops[0]), ops[1..], rail)
  }

  lemma {:induction false} TimesAreLater(now: Time, ops: seq<Op>, rail: Rail)
    ensures forall i :: 0 <= i < |AcquireTimes(now, ops, rail)| ==> AcquireTimes(now, ops, rail)[i] >= now
    decreases |ops|
  {
    if ops != [] {
      TimesAreLater(now + ops[0].wait, ops[1..], rail);
    }
  }

  /** The reference bucket may be left alone until the next acquire. */
  lemma ReferenceMayWait(tokens: int, maxTokens: int, now: Time, wait: nat, times: seq<Time>)
    requires maxTokens >= 1 && 0 <= tokens <= TOKEN * maxTokens
    requires times != [] ==> times[0] >= now + wait
    ensures ReferenceAnswers(Ticked(tokens, maxTokens, wait), maxTokens, now + wait, times)
         == ReferenceAnswers(tokens, maxTokens, now, times)
  {
    if times != [] {
      TickedIsLevel(tokens, maxTokens, wait);
      var rest := times[0] - now - wait;
      assert wait * maxTokens >= 0;
      TickedIsLevel(Ticked(tokens, maxTokens, wait), maxTokens, rest);
      TickedIsLevel(tokens, maxTokens, wait + rest);
      assert (wait + rest) * maxTokens == wait * maxTokens + rest * maxTokens;
      assert rest * maxTokens >= 0;
    }
  }

  lemma LevelIsTicked(b: Bucket, now: Time, wait: nat)
    requires b.Valid() && b.lastRefillAt <= now
    ensures 0 <= Level(b, now) <= b.Capacity()
    ensures Ticked(Level(b, now), b.maxTokens, wait) == Level(b, now + wait)
  {
    RefillKeepsValid(b, now);
    TickedIsLevel(Level(b, now), b.maxTokens, wait);
    RefillTwice(b, now, now + wait);
  }

  lemma OtherIsReference(b: Bucket, b': Bucket, now: Time, wait: nat, times: seq<Time>)
    requires b.Valid() && b.lastRefillAt <= now && Level(b', now + wait) == Level(b, now + wait)
    requires b'.maxTokens == b.maxTokens
    requires forall i :: 0 <= i < |times| ==> times[i] >= now + wait
    ensures ReferenceFrom(b', now + wait, times) == ReferenceFrom(b, now, times)
  {
    LevelIsTicked(b, now, wait);
    ReferenceMayWait(Level(b, now), b.maxTokens, now, wait, times);
  }

  /** The lazily refilled bucket accepts exactly the acquires that the reference bucket accepts,
      whatever other operations, on this rail or another, come in between. */
  lemma {:induction false} AnswersAsReference(w: World, ops: seq<Op>, rail: Rail)
    requires Inv(w) && rail in w.buckets
    ensures Answers(w, ops, rail) == ReferenceFrom(w.buckets[rail], w.now, AcquireTimes(w.now, ops, rail))
    decreases |ops|
  {
    if ops != [] {
      var b, w', t := w.buckets[rail], Next(w, ops[0]), w.now + ops[0].wait;
      NextKeepsInv(w, ops[0]);
      AnswersAsReference(w', ops[1..], rail);
      var times, answers := AcquireTimes(t, ops[1..], rail), Answers(w', ops[1..], rail);
      if ops[0].Acquire? && ops[0].rail == rail {
        assert w'.buckets[rail] == Acquired(b, t);
        assert AcquireTimes(w.now, ops, rail) == [t] + times;
        assert Answers(w, ops, rail) == [Grants(b, t)] + answers;
        AcquireIsReference(b, w.now, ops[0].wait, times);
      } else {
        TimesAreLater(t, ops[1..], rail);
        LevelAfterStep(w, ops[0], rail, t);
        assert AcquireTimes(w.now, ops, rail) == [] + times == times;
        assert Answers(w, ops, rail) == [] + answers == answers;
        OtherIsReference(b, w'.buckets[rail], w.now, ops[0].wait, times);
      }
    }
  }

  lemma AcquireIsReference(b: Bucket, now: Time, wait: nat, times: seq<Time>)
    requires b.Valid() && b.lastRefillAt <= now
    ensures ReferenceFrom(b, now, [now + wait] + times)
         == [Grants(b, now + wait)] + ReferenceFrom(Acquired(b, now + wait), now + wait, times)
  {
    LevelIsTicked(b, now, wait);
    assert ([now + wait] + times)[1..] == times;
  }

  /** So two runs with the same acquires on a rail at the same times answer them alike. */
  lemma QueriesAreUnobservable(w: World, ops: seq<Op>, others: seq<Op>, rail: Rail)
    requires Inv(w) && rail in w.buckets
    requires AcquireTimes(w.now, ops, rail) == AcquireTimes(w.now, others, rail)
    ensures Answers(w, ops, rail) == Answers(w, others, rail)
  {
    AnswersAsReference(w, ops, rail);
    AnswersAsReference(w, others, rail);
  }

  // ---------- throughput ----------

  /** What can still be granted up to t2 by a bucket watched from t1. */
  function Allowance(b: Bucket, now: Time, t1: Time, t2: Time): int {
    var from := Max(now, t1);
    if from > t2 then 0 else Level(b, from) + (t2 - from) * b.maxTokens
  }

  lemma Spans(a: int, b: int, rate: int)
    requires a >= 0 && b >= 0 && rate >= 0
    ensures (a + b) * rate == a * rate + b * rate && a * rate >= 0 && b * rate >= 0
  {
  }

  lemma LevelGrows(b: Bucket, now: Time, later: Time)
    requires b.Valid() && b.lastRefillAt <= now <= later
    ensures 0 <= Level(b, now) <= b.Capacity() && 0 <= Level(b, later)
    ensures Level(b, later) <= Level(b, now) + (later - now) * b.maxTokens
  {
    RefillKeepsValid(b, now);
    RefillKeepsValid(b, later);
    Spans(now - b.lastRefillAt, later - now, b.maxTokens);
  }

  lemma AllowanceShrinks(b: Bucket, now: Time, wait: nat, t1: Time, t2: Time)
    requires b.Valid() && b.lastRefillAt <= now
    ensures 0 <= Allowance(b, now + wait, t1, t2) <= Allowance(b, now, t1, t2)
  {
    var from, later := Max(now, t1), Max(now + wait, t1);
    LevelGrows(b, from, later);
    if later <= t2 {
      Spans(later - from, t2 - later, b.maxTokens);
    } else if from <= t2 {
      Spans(t2 - from, 0, b.maxTokens);
    }
  }

  lemma AllowanceOfLevel(b: Bucket, b': Bucket, now: Time, t1: Time, t2: Time)
    requires b'.maxTokens == b.maxTokens && Level(b', Max(now, t1)) == Level(b, Max(now, t1))
    ensures Allowance(b', now, t1, t2) == Allowance(b, now, t1, t2)
  {
  }

  /** A grant inside the interval costs its token; before the interval it costs nothing there. */
  lemma AllowanceAfterGrant(b: Bucket, t: Time, t1: Time, t2: Time)
    requires b.Valid() && b.lastRefillAt <= t && Grants(b, t)
    ensures Allowance(Acquired(b, t), t, t1, t2) <= Allowance(b, t, t1, t2) - (if t1 <= t <= t2 then TOKEN else 0)
  {
    RefillTwice(b, t, Max(t, t1));
    if t < t1 {
      assert (t1 - t) * b.maxTokens >= 0;
    }
  }

  lemma {:induction false} GrantsWithinAllowance(w: World, ops: seq<Op>, rail: Rail, t1: Time, t2: Time)
    requires Inv(w) && rail in w.buckets
    ensures TOKEN * CountWithin(GrantTimes(w, ops, rail), t1, t2) <= Allowance(w.buckets[rail], w.now, t1, t2)
    decreases |ops|
  {
    var b := w.buckets[rail];
    AllowanceShrinks(b, w.now, 0, t1, t2);
    if ops != [] {
      var op, t, w' := ops[0], w.now + ops[0].wait, Next(w, ops[0]);
      NextKeepsInv(w, op);
      GrantsWithinAllowance(w', ops[1..], rail, t1, t2);
      AllowanceShrinks(b, w.now, op.wait, t1, t2);
      var rest := GrantTimes(w', ops[1..], rail);
      if Granted(w, op) && op.rail == rail {
        assert ([t] + rest)[1..] == rest;
        AllowanceAfterGrant(b, t, t1, t2);
      } else {
        assert [] + rest == rest;
        LevelAfterStep(w, op, rail, Max(t, t1));
        AllowanceOfLevel(b, w'.buckets[rail], t, t1, t2);
      }
    }
  }

  /** In any interval a rail is granted at most its burst plus what the interval refills:
      `maxTokens + (t2 - t1) * maxTokens / 1000`. */
  lemma ThroughputBound(w: World, ops: seq<Op>, rail: Rail, t1: Time, t2: Time)
    requires Inv(w) && rail in w.buckets && t1 <= t2
    ensures var m := w.buckets[rail].maxTokens;
      TOKEN * CountWithin(GrantTimes(w, ops, rail), t1, t2) <= TOKEN * m + (t2 - t1) * m
  {
    GrantsWithinAllowance(w, ops, rail, t1, t2);
    var b, from := w.buckets[rail], Max(w.now, t1);
    LevelGrows(b, from, from);
    if from <= t2 {
      Spans(from - t1, t2 - from, b.maxTokens);
    } else {
      Spans(t2 - t1, 0, b.maxTokens);
    }
  }

  // ---------- the retry hint ----------

  lemma CeilingReaches(missing: int, rate: int, ms: int)
    requires rate >= 1
    ensures ms * rate >= missing <==> ms >= (missing + rate - 1) / rate
  {
    var q := (missing + rate - 1) / rate;
    assert rate * q <= missing + rate - 1 < rate * q + rate;
    if ms >= q {
      assert (ms - q) * rate >= 0;
    } else {
      assert (q - 1 - ms) * rate >= 0;
    }
  }

  lemma RetryReaches(b: Bucket, now: Time, ms: nat)
    requires b.Valid() && b.lastRefillAt <= now && !Grants(b, now)
    ensures Grants(b, now + ms) <==> ms >= RetryAfter(Refilled(b, now))
    ensures RetryAfter(Refilled(b, now)) >= 1
  {
    var r := Refilled(b, now);
    RefillKeepsValid(b, now);
    RefillTwice(b, now, now + ms);
    CeilingReaches(TOKEN - r.tokens, r.maxTokens, ms);
    CeilingReaches(TOKEN - r.tokens, r.maxTokens, 0);
    assert ms * r.maxTokens >= 0;
  }

  lemma {:induction false} LevelWithoutGrants(w: World, ops: seq<Op>, rail: Rail, later: Time)
    requires Inv(w) && rail in w.buckets && GrantTimes(w, ops, rail) == []
    requires later >= Run(w, ops).now
    ensures rail in Run(w, ops).buckets && Level(Run(w, ops).buckets[rail], later) == Level(w.buckets[rail], later)
    decreases |ops|
  {
    if ops != [] {
      NextKeepsInv(w, ops[0]);
      TimePasses(Next(w, ops[0]), ops[1..]);
      LevelAfterStep(w, ops[0], rail, later);
      LevelWithoutGrants(Next(w, ops[0]), ops[1..], rail, later);
    }
  }

  lemma {:induction false} TimePasses(w: World, ops: seq<Op>)
    ensures Run(w, ops).now >= w.now
    decreases |ops|
  {
    if ops != [] {
      TimePasses(Next(w, ops[0]), ops[1..]);
    }
  }

  /** The hint of a refused acquire is exact. Whatever happens meanwhile short of another grant on
      the rail, an acquire is granted if and only if at least the hinted time has passed. */
  lemma RetryHintIsExact(w: World, rail: Rail, meanwhile: seq<Op>, wait: nat)
    requires Inv(w) && rail in w.buckets && !Grants(w.buckets[rail], w.now)
    requires GrantTimes(w, meanwhile, rail) == []
    ensures var w' := Run(w, meanwhile);
      Granted(w', Acquire(rail, wait)) <==> w'.now + wait - w.now >= RetryAfter(Refilled(w.buckets[rail], w.now))
  {
    var w' := Run(w, meanwhile);
    TimePasses(w, meanwhile);
    LevelWithoutGrants(w, meanwhile, rail, w'.now + wait);
    RetryReaches(w.buckets[rail], w.now, w'.now + wait - w.now);
  }
}
