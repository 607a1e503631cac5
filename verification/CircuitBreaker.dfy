/** The circuit breaker that guards calls to a rail. `execute` is asynchronous, so a call is
    split into its beginning and its later success or failure, and calls overlap freely. */
module CircuitBreaker {
  import opened Wrappers

  type Time = int

  /** `rateThreshold` is a percentage; 0 stands for an absent or zero option, which switches the rule off. */
  datatype Options = Options(failureThreshold: int, cooldownMs: int, windowMs: int, rateThreshold: int)

  const DEFAULT_OPTIONS := Options(5, 30000, 60000, 50)

  datatype CircuitState = CLOSED | OPEN | HALF_OPEN

  datatype Breaker = Breaker(
    state: CircuitState, failures: seq<Time>, successes: nat, lastFailureAt: Time, openedAt: Time)

  const NEW_BREAKER := Breaker(CLOSED, [], 0, 0, 0)

  // ---------- the steps ----------

  /** The failures after the cutoff, in order. */
  function Prune(failures: seq<Time>, cutoff: Time): (kept: seq<Time>)
    ensures |kept| <= |failures|
  {
    if failures == [] then []
    else (if failures[0] > cutoff then [failures[0]] else []) + Prune(failures[1..], cutoff)
  }

  predicate CountRule(o: Options, count: nat) {
    count >= o.failureThreshold
  }

  /** At least ten samples, of which the failures make up the threshold percentage. */
  predicate RateRule(o: Options, count: nat, successes: nat) {
    successes + count >= 10 && o.rateThreshold != 0 && 100 * count >= o.rateThreshold * (successes + count)
  }

  predicate ShouldOpen(o: Options, count: nat, successes: nat) {
    CountRule(o, count) || RateRule(o, count, successes)
  }

  predicate Admits(o: Options, b: Breaker, now: Time) {
    b.state != OPEN || now - b.openedAt >= o.cooldownMs
  }

  function Begun(o: Options, b: Breaker, now: Time): Breaker {
    if b.state == OPEN && Admits(o, b, now) then b.(state := HALF_OPEN) else b
  }

  function Succeeded(b: Breaker): Breaker {
    if b.state == HALF_OPEN then b.(state := CLOSED, failures := [], successes := 0)
    else b.(successes := b.successes + 1)
  }

  /** The clock is read for the record, for the cutoff and, when the circuit opens, once more. */
  function Failed(o: Options, b: Breaker, recordedAt: Time, prunedAt: Time, openedAt: Time): Breaker {
    var failures := Prune(b.failures + [recordedAt], prunedAt - o.windowMs);
    var b' := b.(failures := failures, lastFailureAt := recordedAt);
    if b.state == HALF_OPEN || (b.state == CLOSED && ShouldOpen(o, |failures|, b.successes))
    then b'.(state := OPEN, openedAt := openedAt) else b'
  }

  // ---------- the class ----------

  class CircuitBreaker {
    const options: Options
    var state: CircuitState
    var failures: seq<Time>
    var successes: nat
    var lastFailureAt: Time
    var openedAt: Time

    ghost function Contents(): Breaker
      reads this
    {
      Breaker(state, failures, successes, lastFailureAt, openedAt)
    }

    constructor (options: Options)
      ensures this.options == options && Contents() == NEW_BREAKER
    {
      this.options := options;
      state, failures, successes, lastFailureAt, openedAt := CLOSED, [], 0, 0, 0;
    }

    /** The start of a call: `Some(nextRetryAt)` stands for the fail-fast error. */
    method Begin(now: Time) returns (refused: Option<Time>)
      modifies this
      ensures Contents() == Begun(options, old(Contents()), now)
      ensures refused.None? <==> Admits(options, old(Contents()), now)
      ensures refused.Some? ==> refused.value == old(openedAt) + options.cooldownMs && now < refused.value
    {
      if state == OPEN {
        if now - openedAt >= options.cooldownMs {
          TransitionTo(HALF_OPEN, now);
        } else {
          return Some(openedAt + options.cooldownMs);
        }
      }
      return None;
    }

    method OnSuccess()
      modifies this
      ensures Contents() == Succeeded(old(Contents()))
    {
      successes := successes + 1;
      if state == HALF_OPEN {
        TransitionTo(CLOSED, 0);
      }
    }

    method OnFailure(now: Time, pruningAt: Time, openingAt: Time)
      modifies this
      ensures Contents() == Failed(options, old(Contents()), now, pruningAt, openingAt)
    {
      failures := failures + [now];
      lastFailureAt := now;
      failures := Prune(failures, pruningAt - options.windowMs);
      if state == HALF_OPEN {
        TransitionTo(OPEN, openingAt);
        return;
      }
      if state == CLOSED && ShouldOpen(options, |failures|, successes) {
        TransitionTo(OPEN, openingAt);
      }
    }

    /** `now` is the clock read that only a transition to OPEN makes. */
    method TransitionTo(newState: CircuitState, now: Time)
      modifies this
      ensures state == newState && lastFailureAt == old(lastFailureAt)
      ensures openedAt == if newState == OPEN then now else old(openedAt)
      ensures failures == if newState == CLOSED then [] else old(failures)
      ensures successes == if newState == CLOSED then 0 else old(successes)
    {
      state := newState;
      if newState == OPEN {
        openedAt := now;
      }
      if newState == CLOSED {
        failures := [];
        successes := 0;
      }
    }
  }

  // ---------- runs of overlapping calls ----------

  /** Waits are the milliseconds since the previous clock read, so that clocks never run back. */
  datatype Action =
    | Begin(wait: nat)
    | Succeed(wait: nat)
    | Fail(wait: nat, pruneWait: nat, openWait: nat)

  datatype Entry = Admitted(at: Time) | Refused(at: Time) | Opened(at: Time, byCount: bool, probing: bool) | Reclosed

  /** `history` and `log` record what happened: all that was admitted, refused, opened and closed,
      and every failure since the circuit last closed. `cutoff` is that of the latest pruning. */
  datatype World = World(now: Time, b: Breaker, inFlight: nat, log: seq<Time>, cutoff: Time, history: seq<Entry>)

  function Start(o: Options): World {
    World(0, NEW_BREAKER, 0, [], -o.windowMs, [])
  }

  function Next(o: Options, w: World, a: Action): World {
    match a
    case Begin(wait) =>
      var t := w.now + wait;
      w.(now := t, b := Begun(o, w.b, t),
         inFlight := if Admits(o, w.b, t) then w.inFlight + 1 else w.inFlight,
         history := w.history + [if Admits(o, w.b, t) then Admitted(t) else Refused(t)])
    case Succeed(wait) =>
      if w.inFlight == 0 then w else
      w.(now := w.now + wait, b := Succeeded(w.b), inFlight := w.inFlight - 1,
         log := if w.b.state == HALF_OPEN then [] else w.log,
         history := if w.b.state == HALF_OPEN then w.history + [Reclosed] else w.history)
    case Fail(wait, pruneWait, openWait) =>
      if w.inFlight == 0 then w else
      var t0 := w.now + wait;
      var t1 := t0 + pruneWait;
      var t2 := t1 + openWait;
      var b' := Failed(o, w.b, t0, t1, t2);
      w.(now := t2, b := b', inFlight := w.inFlight - 1, log := w.log + [t0], cutoff := t1 - o.windowMs,
         history := if b'.state == OPEN && w.b.state != OPEN
                    then w.history + [Opened(t2, CountRule(o, |b'.failures|), w.b.state == HALF_OPEN)] else w.history)
  }

  function Run(o: Options, w: World, actions: seq<Action>): World
    decreases |actions|
  {
    if actions == [] then w else Run(o, Next(o, w, actions[0]), actions[1..])
  }

  // ---------- pruning ----------

  /** Pruning keeps each failure after the cutoff as often as it was recorded, and no other. */
  lemma {:induction false} PruneKeepsExactly(failures: seq<Time>, cutoff: Time, t: Time)
    ensures multiset(Prune(failures, cutoff))[t] == if t > cutoff then multiset(failures)[t] else 0
  {
    if failures != [] {
      PruneKeepsExactly(failures[1..], cutoff, t);
      assert failures == [failures[0]] + failures[1..];
    }
  }

  lemma {:induction false} PruneSplits(a: seq<Time>, b: seq<Time>, cutoff: Time)
    ensures Prune(a + b, cutoff) == Prune(a, cutoff) + Prune(b, cutoff)
  {
    if a == [] {
      assert a + b == b;
    } else {
      assert (a + b)[1..] == a[1..] + b;
      PruneSplits(a[1..], b, cutoff);
    }
  }

  lemma {:induction false} PruneTwice(failures: seq<Time>, early: Time, late: Time)
    requires early <= late
    ensures Prune(Prune(failures, early), late) == Prune(failures, late)
  {
    if failures != [] {
      PruneTwice(failures[1..], early, late);
      PruneSplits(if failures[0] > early then [failures[0]] else [], Prune(failures[1..], early), late);
    }
  }

  /** Pruning at every failure amounts to pruning the whole log once. */
  lemma PruneIncrementally(log: seq<Time>, t: Time, early: Time, late: Time)
    requires early <= late
    ensures Prune(Prune(log, early) + [t], late) == Prune(log + [t], late)
  {
    PruneSplits(Prune(log, early), [t], late);
    PruneTwice(log, early, late);
    PruneSplits(log, [t], late);
  }

  // ---------- the invariant ----------

  /** Openings lie in the past, and the circuit leaves OPEN only after the latest one's cooldown. */
  predicate OpeningOk(o: Options, w: World, e: Entry) {
    e.Opened? ==> e.at <= w.now && if w.b.state == OPEN then e.at <= w.b.openedAt else e.at + o.cooldownMs <= w.now
  }

  ghost predicate Inv(o: Options, w: World) {
    && (w.b.state == OPEN ==> w.b.openedAt <= w.now)
    && w.cutoff <= w.now - o.windowMs
    && w.b.failures == Prune(w.log, w.cutoff)
    && (w.b.state == CLOSED && o.failureThreshold >= 1 ==> |w.b.failures| < o.failureThreshold)
    && (o.windowMs <= 0 ==> w.b.failures == [])
    && (forall i :: 0 <= i < |w.history| ==> OpeningOk(o, w, w.history[i]))
  }

  /** Every admission keeps the cooldown of every earlier opening. */
  ghost predicate CooldownsKept(o: Options, w: World) {
    forall i, j :: 0 <= i < j < |w.history| && w.history[i].Opened? && w.history[j].Admitted? ==>
      w.history[i].at + o.cooldownMs <= w.history[j].at
  }

  lemma BeginKeepsInv(o: Options, w: World, wait: nat)
    requires Inv(o, w) && CooldownsKept(o, w)
    ensures Inv(o, Next(o, w, Begin(wait))) && CooldownsKept(o, Next(o, w, Begin(wait)))
  {
    var w' := Next(o, w, Begin(wait));
    forall i | 0 <= i < |w'.history| ensures OpeningOk(o, w', w'.history[i]) {
      if i < |w.history| { assert OpeningOk(o, w, w.history[i]); }
    }
    forall i, j | 0 <= i < j < |w'.history| && w'.history[i].Opened? && w'.history[j].Admitted?
      ensures w'.history[i].at + o.cooldownMs <= w'.history[j].at
    {
      assert OpeningOk(o, w, w.history[i]);
    }
  }

  lemma SucceedKeepsInv(o: Options, w: World, wait: nat)
    requires Inv(o, w) && CooldownsKept(o, w)
    ensures Inv(o, Next(o, w, Succeed(wait))) && CooldownsKept(o, Next(o, w, Succeed(wait)))
  {
    var w' := Next(o, w, Succeed(wait));
    forall i | 0 <= i < |w'.history| ensures OpeningOk(o, w', w'.history[i]) {
      if i < |w.history| { assert OpeningOk(o, w, w.history[i]); }
    }
  }

  lemma {:induction false} PruneAll(failures: seq<Time>, cutoff: Time)
    requires forall i :: 0 <= i < |failures| ==> failures[i] <= cutoff
    ensures Prune(failures, cutoff) == []
  {
    if failures != [] {
      PruneAll(failures[1..], cutoff);
    }
  }

  lemma FailKeepsWindow(o: Options, w: World, wait: nat, pruneWait: nat, openWait: nat)
    requires Inv(o, w) && w.inFlight > 0
    ensures var w' := Next(o, w, Fail(wait, pruneWait, openWait));
      w'.b.failures == Prune(w'.log, w'.cutoff) && (o.windowMs <= 0 ==> w'.b.failures == [])
  {
    PruneIncrementally(w.log, w.now + wait, w.cutoff, w.now + wait + pruneWait - o.windowMs);
    if o.windowMs <= 0 { PruneAll(w.b.failures + [w.now + wait], w.now + wait + pruneWait - o.windowMs); }
  }

  lemma FailKeepsInv(o: Options, w: World, wait: nat, pruneWait: nat, openWait: nat)
    requires Inv(o, w) && CooldownsKept(o, w)
    ensures Inv(o, Next(o, w, Fail(wait, pruneWait, openWait)))
    ensures CooldownsKept(o, Next(o, w, Fail(wait, pruneWait, openWait)))
  {
    if w.inFlight > 0 {
      var w' := Next(o, w, Fail(wait, pruneWait, openWait));
      FailKeepsWindow(o, w, wait, pruneWait, openWait);
      forall i | 0 <= i < |w'.history| ensures OpeningOk(o, w', w'.history[i]) {
        if i < |w.history| { assert OpeningOk(o, w, w.history[i]); }
      }
    }
  }

  lemma NextKeepsInv(o: Options, w: World, a: Action)
    requires Inv(o, w) && CooldownsKept(o, w)
    ensures Inv(o, Next(o, w, a)) && CooldownsKept(o, Next(o, w, a))
  {
    match a
    case Begin(wait) => BeginKeepsInv(o, w, wait);
    case Succeed(wait) => SucceedKeepsInv(o, w, wait);
    case Fail(wait, pruneWait, openWait) => FailKeepsInv(o, w, wait, pruneWait, openWait);
  }

  lemma {:induction false} RunKeepsInv(o: Options, w: World, actions: seq<Action>)
    requires Inv(o, w) && CooldownsKept(o, w)
    ensures Inv(o, Run(o, w, actions)) && CooldownsKept(o, Run(o, w, actions))
    decreases |actions|
  {
    if actions != [] {
      NextKeepsInv(o, w, actions[0]);
      RunKeepsInv(o, Next(o, w, actions[0]), actions[1..]);
    }
  }

  // ---------- the claims, for every interleaving ----------

  predicate BelowThreshold(o: Options, w: World) {
    w.b.state == CLOSED ==> |w.b.failures| < o.failureThreshold
  }

  /** A closed circuit always stores fewer failures than the threshold, exactly when the threshold is positive. */
  lemma ClosedBelowThreshold(o: Options)
    ensures (forall actions :: BelowThreshold(o, Run(o, Start(o), actions))) <==> o.failureThreshold >= 1
  {
    if o.failureThreshold < 1 { assert !BelowThreshold(o, Run(o, Start(o), [])); }
    forall actions | o.failureThreshold >= 1 ensures BelowThreshold(o, Run(o, Start(o), actions)) {
      RunKeepsInv(o, Start(o), actions);
    }
  }

  /** No call admitted after an opening begins before that opening's cooldown is over. */
  lemma NoCallDuringCooldown(o: Options, actions: seq<Action>, i: nat, j: nat)
    ensures var h := Run(o, Start(o), actions).history;
      i < j < |h| && h[i].Opened? && h[j].Admitted? ==> h[j].at >= h[i].at + o.cooldownMs
  {
    RunKeepsInv(o, Start(o), actions);
  }

  /** OPEN is left by a begin after the cooldown and by nothing else, and always for HALF_OPEN. */
  lemma LeavesOpen(o: Options, w: World, a: Action)
    requires w.b.state == OPEN
    ensures Next(o, w, a).b.state != OPEN <==> a.Begin? && w.now + a.wait >= w.b.openedAt + o.cooldownMs
    ensures Next(o, w, a).b.state == OPEN ==> Next(o, w, a).b.openedAt == w.b.openedAt
    ensures Next(o, w, a).b.state != OPEN ==> Next(o, w, a).b == w.b.(state := HALF_OPEN)
  {
  }

  /** In every reachable state the stored failures are those of the whole log since the last close
      that the latest pruning's window kept. */
  lemma WindowIsExact(o: Options, actions: seq<Action>)
    ensures var w := Run(o, Start(o), actions);
      w.b.failures == Prune(w.log, w.cutoff)
  {
    RunKeepsInv(o, Start(o), actions);
  }

  /** Right after a failure: the whole log with the new failure, filtered by the window. */
  lemma WindowAfterFailure(o: Options, actions: seq<Action>, wait: nat, pruneWait: nat, openWait: nat)
    ensures var w := Run(o, Start(o), actions);
            var t := w.now + wait;
      w.inFlight > 0 ==>
        Next(o, w, Fail(wait, pruneWait, openWait)).b.failures == Prune(w.log + [t], t + pruneWait - o.windowMs)
  {
    RunKeepsInv(o, Start(o), actions);
    var w := Run(o, Start(o), actions);
    if w.inFlight > 0 {
      FailKeepsWindow(o, w, wait, pruneWait, openWait);
    }
  }

  /** What any step does to the circuit: it opens by a failure, in HALF_OPEN at once and in CLOSED when the
      windowed failures reach the threshold, or the percentage of at least ten samples; it becomes
      HALF_OPEN by a begin after the cooldown, and closes by a success in HALF_OPEN. The time of opening
      is that of the clock read, successes are counted since the last close, and every failure is noted. */
  lemma TransitionsExactly(o: Options, w: World, a: Action)
    ensures var b, b' := w.b, Next(o, w, a).b;
            var ends := w.inFlight > 0;
            var count, total := |b'.failures|, |b'.failures| + b.successes;
      && (b.state == CLOSED ==>
            (b'.state == if ends && a.Fail? && (count >= o.failureThreshold
                              || (total >= 10 && o.rateThreshold != 0 && 100 * count >= o.rateThreshold * total))
                         then OPEN else CLOSED))
      && (b.state == OPEN ==> (b'.state == HALF_OPEN <==> a.Begin? && w.now + a.wait - b.openedAt >= o.cooldownMs)
                              && b'.state != CLOSED)
      && (b.state == HALF_OPEN ==>
            b'.state == if ends && a.Succeed? then CLOSED else if ends && a.Fail? then OPEN else HALF_OPEN)
      && b'.openedAt == (if b.state != OPEN && b'.state == OPEN then Next(o, w, a).now else b.openedAt)
      && b'.successes == (if !ends || !a.Succeed? then b.successes else if b.state == HALF_OPEN then 0
                          else b.successes + 1)
      && b'.lastFailureAt == if ends && a.Fail? then w.now + a.wait else b.lastFailureAt
  {
  }

  /** After the cooldown of any open circuit any number of overlapping calls are admitted as probes. */
  lemma {:induction false} OverlappingProbes(o: Options, w: World, n: nat)
    requires w.b.state == OPEN && w.now - w.b.openedAt >= o.cooldownMs
    ensures Run(o, w, seq(n, i => Begin(0))).inFlight == w.inFlight + n
    ensures n > 0 ==> Run(o, w, seq(n, i => Begin(0))).b.state == HALF_OPEN
  {
    if n > 0 {
      assert seq(n, i => Begin(0))[1..] == seq(n - 1, i => Begin(0));
      HalfOpenAdmits(o, Next(o, w, Begin(0)), n - 1);
    }
  }

  lemma {:induction false} HalfOpenAdmits(o: Options, w: World, n: nat)
    requires w.b.state != OPEN
    ensures Run(o, w, seq(n, i => Begin(0))).inFlight == w.inFlight + n
    ensures Run(o, w, seq(n, i => Begin(0))).b == w.b && Run(o, w, seq(n, i => Begin(0))).now == w.now
    decreases n
  {
    if n > 0 {
      assert seq(n, i => Begin(0))[1..] == seq(n - 1, i => Begin(0));
      HalfOpenAdmits(o, Next(o, w, Begin(0)), n - 1);
    }
  }

  // ---------- one HALF_OPEN episode ----------

  /** The circuit is HALF_OPEN before and after every action of the run. */
  predicate HalfOpenThroughout(o: Options, w: World, actions: seq<Action>)
    decreases |actions|
  {
    && w.b.state == HALF_OPEN
    && (actions != [] ==> HalfOpenThroughout(o, Next(o, w, actions[0]), actions[1..]))
  }

  /** How many calls a history has admitted. */
  function Admissions(history: seq<Entry>): nat {
    if history == [] then 0
    else Admissions(history[..|history| - 1]) + if history[|history| - 1].Admitted? then 1 else 0
  }

  function Begins(actions: seq<Action>): nat {
    if actions == [] then 0 else (if actions[0].Begin? then 1 else 0) + Begins(actions[1..])
  }

  predicate NoneBegins(actions: seq<Action>) {
    forall i :: 0 <= i < |actions| ==> !actions[i].Begin?
  }

  lemma {:induction false} NoneBeginsExactly(actions: seq<Action>)
    ensures Begins(actions) == 0 <==> NoneBegins(actions)
  {
    if actions != [] {
      NoneBeginsExactly(actions[1..]);
      assert forall i :: 1 <= i < |actions| ==> actions[i] == actions[1..][i - 1];
    }
  }

  lemma BeginIsAdmitted(o: Options, w: World, wait: nat)
    requires Admits(o, w.b, w.now + wait)
    ensures Admissions(Next(o, w, Begin(wait)).history) == Admissions(w.history) + 1
  {
    var h := w.history + [Admitted(w.now + wait)];
    assert h[..|h| - 1] == w.history;
  }

  lemma {:induction false} AdmitsEveryBegin(o: Options, w: World, actions: seq<Action>)
    requires HalfOpenThroughout(o, w, actions)
    ensures Admissions(Run(o, w, actions).history) == Admissions(w.history) + Begins(actions)
    decreases |actions|
  {
    if actions != [] {
      if actions[0].Begin? { BeginIsAdmitted(o, w, actions[0].wait); }
      AdmitsEveryBegin(o, Next(o, w, actions[0]), actions[1..]);
    }
  }

  /** HALF_OPEN admits every call that begins in it: an episode has a single probe if and only if no
      other call begins before it ends. */
  lemma SingleProbeExactly(o: Options, w: World, wait: nat, actions: seq<Action>)
    requires w.b.state == OPEN && Admits(o, w.b, w.now + wait)
    requires HalfOpenThroughout(o, Next(o, w, Begin(wait)), actions)
    ensures var probes := Admissions(Run(o, Next(o, w, Begin(wait)), actions).history) - Admissions(w.history);
      probes == 1 + Begins(actions) && (probes == 1 <==> NoneBegins(actions))
  {
    BeginIsAdmitted(o, w, wait);
    AdmitsEveryBegin(o, Next(o, w, Begin(wait)), actions);
    NoneBeginsExactly(actions);
  }

  /** The first result after the probe has begun ends the episode, whosever it is: a success closes
      the circuit and a failure opens it again. The calls then in flight are as many as there were
      when the probe began, so this can happen with the probe still running if and only if some call
      was in flight across the opening. */
  lemma FirstResultDecides(o: Options, w: World, wait: nat, result: Action)
    requires w.b.state == OPEN && Admits(o, w.b, w.now + wait) && !result.Begin?
    ensures var after := Next(o, Next(o, w, Begin(wait)), result);
      && after.b.state == (if result.Succeed? then CLOSED else OPEN)
      && (result.Succeed? ==> after.b.failures == [] && after.b.successes == 0)
      && after.inFlight == w.inFlight
      && (after.inFlight > 0 <==> w.inFlight > 0)
  {
  }

  /** For every positive threshold and window there is a run in which `n` calls outlive the opening
      and one more of them succeeds late: the circuit is CLOSED while the probe may still be running. */
  lemma ProbeIsOvertaken(o: Options, n: nat) returns (before: seq<Action>, probe: Action)
    requires o.failureThreshold >= 1 && o.windowMs > 0
    ensures probe.Begin?
    ensures var w := Run(o, Start(o), before);
            var after := Next(o, Next(o, w, probe), Succeed(0));
      && w.b.state == OPEN && Admits(o, w.b, w.now + probe.wait)
      && after.b.state == CLOSED && after.inFlight == w.inFlight > n
  {
    var k: nat := o.failureThreshold;
    var begins := seq(k + n + 1, i => Begin(0));
    HalfOpenAdmits(o, Start(o), k + n + 1);
    var j := FailuresOpen(o, Run(o, Start(o), begins), k);
    before := begins + seq(j, i => Fail(0, 0, 0));
    RunConcat(o, Start(o), begins, seq(j, i => Fail(0, 0, 0)));
    var w := Run(o, Start(o), before);
    var wait := w.b.openedAt + o.cooldownMs - w.now;
    probe := Begin(if wait > 0 then wait else 0);
    FirstResultDecides(o, w, probe.wait, Succeed(0));
  }

  /** Failures at one instant open the circuit at the threshold at the latest. */
  lemma {:induction false} FailuresOpen(o: Options, w: World, k: nat) returns (j: nat)
    requires w.b.state == CLOSED && 1 <= k <= w.inFlight && o.windowMs > 0
    requires forall i :: 0 <= i < |w.b.failures| ==> w.b.failures[i] == w.now
    requires |w.b.failures| + k == o.failureThreshold
    ensures 1 <= j <= k
    ensures var w' := Run(o, w, seq(j, i => Fail(0, 0, 0)));
      w'.b.state == OPEN && w'.inFlight == w.inFlight - j
    decreases k
  {
    var w1 := Next(o, w, Fail(0, 0, 0));
    PruneNone(w.b.failures + [w.now], w.now - o.windowMs);
    if w1.b.state == OPEN {
      j := 1;
      assert seq(1, i => Fail(0, 0, 0))[1..] == [];
    } else {
      var rest := FailuresOpen(o, w1, k - 1);
      j := rest + 1;
      assert seq(j, i => Fail(0, 0, 0))[1..] == seq(rest, i => Fail(0, 0, 0));
    }
  }

  // ---------- the two opening rules ----------

  /** The largest number of stored failures that the count rule lets pass. */
  function MostTolerated(o: Options): int {
    if o.windowMs > 0 then o.failureThreshold - 1 else 0
  }

  /** Whether the rate rule can ever be the one that opens the circuit. */
  predicate RateCanDecide(o: Options) {
    && o.rateThreshold != 0 && o.failureThreshold >= 1
    && o.rateThreshold <= 100 && o.rateThreshold <= 10 * MostTolerated(o)
  }

  predicate ByRate(e: Entry) {
    e.Opened? && !e.byCount && !e.probing
  }

  ghost predicate RateHasDecided(w: World) {
    exists i :: 0 <= i < |w.history| && ByRate(w.history[i])
  }

  /** At least ten samples bound the percentage both by 100 and by ten per failure. */
  lemma RateBound(o: Options, count: nat, successes: nat)
    requires RateRule(o, count, successes) && !CountRule(o, count) && (o.windowMs <= 0 ==> count == 0)
    ensures RateCanDecide(o)
  {
    var total := successes + count;
    if o.rateThreshold > 0 {
      assert o.rateThreshold * total >= o.rateThreshold * 10;
      assert (o.rateThreshold - 100) * total <= 0;
    }
  }

  lemma NextKeepsCount(o: Options, w: World, a: Action)
    requires Inv(o, w) && !RateCanDecide(o) && !RateHasDecided(w)
    ensures !RateHasDecided(Next(o, w, a))
  {
    if a.Fail? && w.inFlight > 0 {
      var w' := Next(o, w, a);
      FailKeepsWindow(o, w, a.wait, a.pruneWait, a.openWait);
      if RateRule(o, |w'.b.failures|, w.b.successes) && !CountRule(o, |w'.b.failures|) {
        RateBound(o, |w'.b.failures|, w.b.successes);
      }
    }
  }

  lemma {:induction false} RunKeepsCount(o: Options, w: World, actions: seq<Action>)
    requires Inv(o, w) && CooldownsKept(o, w) && !RateCanDecide(o) && !RateHasDecided(w)
    ensures !RateHasDecided(Run(o, w, actions))
    decreases |actions|
  {
    if actions != [] {
      NextKeepsInv(o, w, actions[0]);
      NextKeepsCount(o, w, actions[0]);
      RunKeepsCount(o, Next(o, w, actions[0]), actions[1..]);
    }
  }

  lemma {:induction false} RunConcat(o: Options, w: World, a: seq<Action>, b: seq<Action>)
    ensures Run(o, w, a + b) == Run(o, Run(o, w, a), b)
    decreases |a|
  {
    if a == [] {
      assert a + b == b;
    } else {
      assert (a + b)[1..] == a[1..] + b;
      RunConcat(o, Next(o, w, a[0]), a[1..], b);
    }
  }

  lemma {:induction false} Successes(o: Options, w: World, n: nat)
    requires w.b.state == CLOSED && w.inFlight >= n
    ensures Run(o, w, seq(n, i => Succeed(0)))
         == w.(b := w.b.(successes := w.b.successes + n), inFlight := w.inFlight - n)
    decreases n
  {
    if n > 0 {
      assert seq(n, i => Succeed(0))[1..] == seq(n - 1, i => Succeed(0));
      Successes(o, Next(o, w, Succeed(0)), n - 1);
    }
  }

  lemma {:induction false} PruneNone(failures: seq<Time>, cutoff: Time)
    requires forall i :: 0 <= i < |failures| ==> failures[i] > cutoff
    ensures Prune(failures, cutoff) == failures
  {
    if failures != [] {
      PruneNone(failures[1..], cutoff);
    }
  }

  /** Simultaneous failures that reach the tenth sample below the count threshold but at the rate. */
  lemma {:induction false} RateOpens(o: Options, w: World, n: nat)
    requires w.b.state == CLOSED && o.windowMs > 0 && 0 < n <= w.inFlight
    requires forall i :: 0 <= i < |w.b.failures| ==> w.b.failures[i] == w.now
    requires w.b.successes + |w.b.failures| + n == 10 && |w.b.failures| + n < o.failureThreshold
    requires o.rateThreshold != 0 && o.rateThreshold <= 10 * (|w.b.failures| + n)
    ensures RateHasDecided(Run(o, w, seq(n, i => Fail(0, 0, 0))))
    decreases n
  {
    assert seq(n, i => Fail(0, 0, 0))[1..] == seq(n - 1, i => Fail(0, 0, 0));
    var w' := Next(o, w, Fail(0, 0, 0));
    PruneNone(w.b.failures + [w.now], w.now - o.windowMs);
    if n > 1 {
      RateOpens(o, w', n - 1);
    } else {
      assert seq(n - 1, i => Fail(0, 0, 0)) == [];
      assert Run(o, w, seq(n, i => Fail(0, 0, 0))) == w';
      assert ByRate(w'.history[|w'.history| - 1]);
    }
  }

  /** A failure that the window drops at once still opens the circuit when the percentage is negative. */
  lemma NegativeRateOpens(o: Options, w: World)
    requires w.b.state == CLOSED && w.inFlight > 0 && w.b.failures == [] && w.b.successes == 10
    requires o.failureThreshold >= 1 && o.rateThreshold < 0
    ensures RateHasDecided(Next(o, w, Fail(0, if o.windowMs > 0 then o.windowMs else 0, 0)))
  {
    var w' := Next(o, w, Fail(0, if o.windowMs > 0 then o.windowMs else 0, 0));
    PruneAll([w.now], w.now + (if o.windowMs > 0 then o.windowMs else 0) - o.windowMs);
    assert w.b.failures + [w.now] == [w.now];
    assert ByRate(w'.history[|w'.history| - 1]);
  }

  function RateWitness(o: Options): seq<Action> {
    if o.rateThreshold < 0 then
      seq(11, i => Begin(0)) + (seq(10, i => Succeed(0)) + [Fail(0, if o.windowMs > 0 then o.windowMs else 0, 0)])
    else
      var n := if o.failureThreshold <= 1 then 0 else if o.failureThreshold > 10 then 10 else o.failureThreshold - 1;
      seq(10, i => Begin(0)) + (seq(10 - n, i => Succeed(0)) + seq(n, i => Fail(0, 0, 0)))
  }

  lemma WitnessFires(o: Options)
    requires RateCanDecide(o)
    ensures RateHasDecided(Run(o, Start(o), RateWitness(o)))
  {
    var begins: nat := if o.rateThreshold < 0 then 11 else 10;
    var n: nat := if o.failureThreshold > 10 then 10 else o.failureThreshold - 1;
    var succeeding: nat := if o.rateThreshold < 0 then 10 else 10 - n;
    var failing := if o.rateThreshold < 0 then [Fail(0, if o.windowMs > 0 then o.windowMs else 0, 0)]
                   else seq(n, i => Fail(0, 0, 0));
    HalfOpenAdmits(o, Start(o), begins);
    var w := Run(o, Start(o), seq(begins, i => Begin(0)));
    Successes(o, w, succeeding);
    var w' := Run(o, w, seq(succeeding, i => Succeed(0)));
    RunConcat(o, Start(o), seq(begins, i => Begin(0)), seq(succeeding, i => Succeed(0)) + failing);
    RunConcat(o, w, seq(succeeding, i => Succeed(0)), failing);
    if o.rateThreshold < 0 {
      NegativeRateOpens(o, w');
      assert Run(o, w', failing) == Next(o, w', failing[0]);
    } else {
      RateOpens(o, w', n);
    }
  }

  ghost predicate RateDecides(o: Options, actions: seq<Action>) {
    RateHasDecided(Run(o, Start(o), actions))
  }

  /** The rate rule is the one that opens the circuit in some run exactly when the options let it:
      with the defaults, 5 failures and 50 percent, it never is. */
  lemma RateRuleExactly(o: Options)
    ensures (exists actions :: RateDecides(o, actions)) <==> RateCanDecide(o)
    ensures !RateCanDecide(DEFAULT_OPTIONS)
  {
    if RateCanDecide(o) {
      WitnessFires(o);
      assert RateDecides(o, RateWitness(o));
    } else {
      forall actions ensures !RateDecides(o, actions) {
        RunKeepsCount(o, Start(o), actions);
      }
    }
  }

  /** Then a failure opens a closed circuit exactly when the log since the last close holds the
      threshold number of failures in the window. */
  lemma CountDecidesAlone(o: Options, actions: seq<Action>, wait: nat, pruneWait: nat, openWait: nat)
    requires !RateCanDecide(o)
    ensures var w := Run(o, Start(o), actions);
            var t := w.now + wait;
      w.inFlight > 0 && w.b.state == CLOSED ==>
        (Next(o, w, Fail(wait, pruneWait, openWait)).b.state == OPEN <==>
         |Prune(w.log + [t], t + pruneWait - o.windowMs)| >= o.failureThreshold)
  {
    RunKeepsInv(o, Start(o), actions);
    var w := Run(o, Start(o), actions);
    if w.inFlight > 0 && w.b.state == CLOSED {
      FailKeepsWindow(o, w, wait, pruneWait, openWait);
      var count := |Next(o, w, Fail(wait, pruneWait, openWait)).b.failures|;
      if RateRule(o, count, w.b.successes) && !CountRule(o, count) {
        RateBound(o, count, w.b.successes);
      }
    }
  }

  // ---------- sequential use ----------

  datatype Outcome = Returned(wait: nat) | Raised(wait: nat, pruneWait: nat, openWait: nat)

  /** A call that ends before the next one begins. */
  datatype Call = Call(wait: nat, outcome: Outcome)

  function Perform(o: Options, w: World, c: Call): World {
    var w' := Next(o, w, Begin(c.wait));
    if !Admits(o, w.b, w.now + c.wait) then w'
    else match c.outcome
      case Returned(wait) => Next(o, w', Succeed(wait))
      case Raised(wait, pruneWait, openWait) => Next(o, w', Fail(wait, pruneWait, openWait))
  }

  function RunCalls(o: Options, w: World, calls: seq<Call>): World
    decreases |calls|
  {
    if calls == [] then w else RunCalls(o, Perform(o, w, calls[0]), calls[1..])
  }

  /** Between calls the circuit is never HALF_OPEN. */
  lemma {:induction false} NeverHalfOpenBetweenCalls(o: Options, w: World, calls: seq<Call>)
    requires w.b.state != HALF_OPEN
    ensures RunCalls(o, w, calls).b.state != HALF_OPEN
    decreases |calls|
  {
    if calls != [] {
      NeverHalfOpenBetweenCalls(o, Perform(o, w, calls[0]), calls[1..]);
    }
  }

  /** When a call begins. */
  function BeginsAt(o: Options, w: World, calls: seq<Call>, i: nat): Time
    requires i < |calls|
  {
    RunCalls(o, w, calls[..i]).now + calls[i].wait
  }

  lemma {:induction false} RunCallsShift(o: Options, w: World, calls: seq<Call>, i: nat)
    requires 0 < i <= |calls|
    ensures RunCalls(o, w, calls[..i]) == RunCalls(o, Perform(o, w, calls[0]), calls[1..][..i - 1])
  {
    assert calls[..i][1..] == calls[1..][..i - 1];
  }

  /** Calls that begin before the cooldown is over are refused and leave the breaker as it was. */
  lemma {:induction false} RefusedCallsChangeNothing(o: Options, w: World, calls: seq<Call>, k: nat)
    requires w.b.state == OPEN && k <= |calls|
    requires forall i :: 0 <= i < k ==> BeginsAt(o, w, calls, i) < w.b.openedAt + o.cooldownMs
    ensures RunCalls(o, w, calls[..k]).b == w.b
    decreases k
  {
    if k > 0 {
      assert BeginsAt(o, w, calls, 0) == w.now + calls[0].wait;
      var w' := Perform(o, w, calls[0]);
      forall i | 0 <= i < k - 1 ensures BeginsAt(o, w', calls[1..], i) == BeginsAt(o, w, calls, i + 1) {
        RunCallsShift(o, w, calls, i + 1);
      }
      RefusedCallsChangeNothing(o, w', calls[1..], k - 1);
      RunCallsShift(o, w, calls, k);
    }
  }

  /** The first call to begin at or after the cooldown is admitted, and its outcome ends the OPEN
      episode: success closes the circuit with an empty record, failure starts a new episode. */
  lemma FirstCallAfterCooldownIsTheProbe(o: Options, w: World, calls: seq<Call>, k: nat)
    requires w.b.state == OPEN && k < |calls|
    requires forall i :: 0 <= i < k ==> BeginsAt(o, w, calls, i) < w.b.openedAt + o.cooldownMs
    requires BeginsAt(o, w, calls, k) >= w.b.openedAt + o.cooldownMs
    ensures var before := RunCalls(o, w, calls[..k]);
            var after := Perform(o, before, calls[k]);
      && before.b == w.b && Admits(o, before.b, BeginsAt(o, w, calls, k))
      && (calls[k].outcome.Returned? ==> after.b.state == CLOSED && after.b.failures == [] && after.b.successes == 0)
      && (calls[k].outcome.Raised? ==> after.b.state == OPEN && after.b.openedAt >= BeginsAt(o, w, calls, k))
  {
    RefusedCallsChangeNothing(o, w, calls, k);
  }
}
