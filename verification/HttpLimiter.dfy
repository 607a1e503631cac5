/** The fixed-window limiter in front of the HTTP API, one window per client, with a periodic
    sweep of stale windows. */
module HttpLimiter {
  import opened Timeline
  import opened Wrappers

  type Client = string

  datatype Options = Options(maxRequests: int, windowMs: int)

  datatype Window = Window(count: int, resetAt: Time)

  type Windows = map<Client, Window>

  /** A client's window as a request at that time would find it: a stale one is as good as none. */
  function Live(windows: Windows, client: Client, now: Time): Option<Window> {
    if client in windows && now <= windows[client].resetAt then Some(windows[client]) else None
  }

  /** The window after a request has been counted. */
  function Counted(o: Options, windows: Windows, client: Client, now: Time): Window {
    match Live(windows, client, now)
    case Some(w) => w.(count := w.count + 1)
    case None => Window(1, now + o.windowMs)
  }

  predicate Admits(o: Options, windows: Windows, client: Client, now: Time) {
    Counted(o, windows, client, now).count <= o.maxRequests
  }

  function Swept(windows: Windows, now: Time): Windows {
    map client | client in windows && now <= windows[client].resetAt :: windows[client]
  }

  function CeilSeconds(ms: int): int {
    (ms + 999) / 1000
  }

  predicate Exempt(url: string) {
    url == "/health" || url == "/healthz" || url == "/metrics"
  }

  /** The rate headers, and the retry hint of a 429 reply. */
  datatype Verdict = Skipped | Limited(remaining: int, resetSeconds: int, retryAfter: Option<int>)

  // ---------- the middleware ----------

  class Middleware {
    const options: Options
    var windows: Windows

    constructor (options: Options)
      ensures this.options == options && windows == map[]
    {
      this.options := options;
      windows := map[];
    }

    method OnRequest(url: string, client: Client, now: Time) returns (v: Verdict)
      modifies this
      ensures v.Skipped? <==> Exempt(url)
      ensures Exempt(url) <==> url in {"/health", "/healthz", "/metrics"}
      ensures Exempt(url) ==> windows == old(windows)
      ensures !Exempt(url) ==> windows == old(windows)[client := Counted(options, old(windows), client, now)]
      ensures !Exempt(url) ==> (v.retryAfter.None? <==> Admits(options, old(windows), client, now))
      ensures !Exempt(url) && v.retryAfter.Some? ==>
        v.retryAfter.value == CeilSeconds(windows[client].resetAt - now) && v.remaining == 0
      ensures !Exempt(url) && v.retryAfter.None? ==> v.remaining == options.maxRequests - windows[client].count
      ensures !Exempt(url) ==> v.resetSeconds == CeilSeconds(windows[client].resetAt)
    {
      if url == "/health" || url == "/healthz" || url == "/metrics" {
        return Skipped;
      }
      if client !in windows || now > windows[client].resetAt {
        windows := windows[client := Window(0, now + options.windowMs)];
      }
      windows := windows[client := windows[client].(count := windows[client].count + 1)];
      var entry := windows[client];
      var remaining := if options.maxRequests > entry.count then options.maxRequests - entry.count else 0;
      if entry.count > options.maxRequests {
        return Limited(remaining, CeilSeconds(entry.resetAt), Some(CeilSeconds(entry.resetAt - now)));
      }
      return Limited(remaining, CeilSeconds(entry.resetAt), None);
    }

    method Sweep(now: Time)
      modifies this
      ensures windows == Swept(old(windows), now)
    {
      var clients := windows.Keys;
      while clients != {}
        invariant clients <= windows.Keys <= old(windows).Keys
        invariant forall c :: c in windows ==> windows[c] == old(windows)[c]
        invariant forall c :: c in windows && c !in clients ==> now <= windows[c].resetAt
        invariant forall c :: c in old(windows) && c !in windows ==> now > old(windows)[c].resetAt
        decreases |clients|
      {
        var client :| client in clients;
        clients := clients - {client};
        if now > windows[client].resetAt {
          windows := windows - {client};
        }
      }
    }
  }

  // ---------- runs ----------

  datatype Op = Request(client: Client, wait: nat) | Sweep(wait: nat)

  datatype World = World(now: Time, windows: Windows)

  function Next(o: Options, w: World, op: Op): World {
    var t := w.now + op.wait;
    match op
    case Request(client, _) => World(t, w.windows[client := Counted(o, w.windows, client, t)])
    case Sweep(_) => World(t, Swept(w.windows, t))
  }

  predicate Admitted(o: Options, w: World, op: Op) {
    op.Request? && Admits(o, w.windows, op.client, w.now + op.wait)
  }

  /** When a client's requests arrived, in order. */
  function RequestTimes(now: Time, ops: seq<Op>, client: Client): seq<Time>
    decreases |ops|
  {
    if ops == [] then []
    else (if ops[0].Request? && ops[0].client == client then [now + ops[0].wait] else [])
         + RequestTimes(now + ops[0].wait, ops[1..], client)
  }

  /** When they were admitted. */
  function AdmitTimes(o: Options, w: World, ops: seq<Op>, client: Client): seq<Time>
    decreases |ops|
  {
    if ops == [] then []
    else (if ops[0].Request? && ops[0].client == client && Admitted(o, w, ops[0]) then [w.now + ops[0].wait] else [])
         + AdmitTimes(o, Next(o, w, ops[0]), ops[1..], client)
  }

  /** Live windows have counted a request and end within the window length. */
  ghost predicate Inv(o: Options, w: World) {
    forall c :: c in w.windows ==> w.windows[c].count >= 1 && w.windows[c].resetAt <= w.now + o.windowMs
  }

  lemma NextKeepsInv(o: Options, w: World, op: Op)
    requires Inv(o, w)
    ensures Inv(o, Next(o, w, op))
  {
  }

  // ---------- sweeping is unobservable ----------

  /** The answers of a single window that is never swept to the requests of one client. */
  function WindowAnswers(o: Options, live: Option<Window>, times: seq<Time>): seq<Time>
    decreases |times|
  {
    if times == [] then []
    else
      var w := if live.Some? && times[0] <= live.value.resetAt then live.value.(count := live.value.count + 1)
               else Window(1, times[0] + o.windowMs);
      (if w.count <= o.maxRequests then [times[0]] else []) + WindowAnswers(o, Some(w), times[1..])
  }

  lemma {:induction false} TimesAreLater(now: Time, ops: seq<Op>, client: Client)
    ensures forall i :: 0 <= i < |RequestTimes(now, ops, client)| ==> RequestTimes(now, ops, client)[i] >= now
    decreases |ops|
  {
    if ops != [] {
      TimesAreLater(now + ops[0].wait, ops[1..], client);
    }
  }

  /** A window that is stale now stays without effect. */
  lemma StaleIsNone(o: Options, windows: Windows, client: Client, now: Time, later: Time, times: seq<Time>)
    requires now <= later && forall i :: 0 <= i < |times| ==> times[i] >= later
    ensures WindowAnswers(o, Live(windows, client, now), times) == WindowAnswers(o, Live(windows, client, later), times)
  {
  }

  /** With a negative window length a window is stale as soon as it is made. */
  lemma WindowMayEnd(o: Options, w: Window, now: Time, times: seq<Time>)
    requires forall i :: 0 <= i < |times| ==> times[i] >= now
    ensures WindowAnswers(o, Some(w), times) == WindowAnswers(o, if now <= w.resetAt then Some(w) else None, times)
  {
  }

  lemma OwnRequest(o: Options, windows: Windows, client: Client, now: Time, t: Time, times: seq<Time>)
    requires now <= t && forall i :: 0 <= i < |times| ==> times[i] >= t
    ensures var counted := Counted(o, windows, client, t);
      WindowAnswers(o, Live(windows, client, now), [t] + times)
        == (if Admits(o, windows, client, t) then [t] else [])
           + WindowAnswers(o, Live(windows[client := counted], client, t), times)
  {
    assert ([t] + times)[1..] == times;
    StaleIsNone(o, windows, client, now, t, [t] + times);
    WindowMayEnd(o, Counted(o, windows, client, t), t, times);
  }

  lemma OtherStep(o: Options, w: World, op: Op, client: Client, times: seq<Time>)
    requires !(op.Request? && op.client == client)
    requires forall i :: 0 <= i < |times| ==> times[i] >= w.now + op.wait
    ensures WindowAnswers(o, Live(Next(o, w, op).windows, client, w.now + op.wait), times)
         == WindowAnswers(o, Live(w.windows, client, w.now), times)
  {
    StaleIsNone(o, w.windows, client, w.now, w.now + op.wait, times);
    assert Live(Next(o, w, op).windows, client, w.now + op.wait) == Live(w.windows, client, w.now + op.wait);
  }

  /** Which requests of a client are admitted depends on the times of its own requests alone:
      neither sweeps nor other clients matter. */
  lemma {:induction false} AdmitsAsOneWindow(o: Options, w: World, ops: seq<Op>, client: Client)
    ensures AdmitTimes(o, w, ops, client)
         == WindowAnswers(o, Live(w.windows, client, w.now), RequestTimes(w.now, ops, client))
    decreases |ops|
  {
    if ops != [] {
      var t, w' := w.now + ops[0].wait, Next(o, w, ops[0]);
      var times, answers := RequestTimes(t, ops[1..], client), AdmitTimes(o, w', ops[1..], client);
      AdmitsAsOneWindow(o, w', ops[1..], client);
      TimesAreLater(t, ops[1..], client);
      if ops[0].Request? && ops[0].client == client {
        assert RequestTimes(w.now, ops, client) == [t] + times;
        assert AdmitTimes(o, w, ops, client) == (if Admits(o, w.windows, client, t) then [t] else []) + answers;
        OwnRequest(o, w.windows, client, w.now, t, times);
      } else {
        assert RequestTimes(w.now, ops, client) == [] + times == times;
        assert AdmitTimes(o, w, ops, client) == [] + answers == answers;
        OtherStep(o, w, ops[0], client, times);
      }
    }
  }

  /** So runs that differ only in sweeps and in other clients admit a client's requests alike. */
  lemma SweepsAreUnobservable(o: Options, w: World, ops: seq<Op>, others: seq<Op>, client: Client)
    requires RequestTimes(w.now, ops, client) == RequestTimes(w.now, others, client)
    ensures AdmitTimes(o, w, ops, client) == AdmitTimes(o, w, others, client)
  {
    AdmitsAsOneWindow(o, w, ops, client);
    AdmitsAsOneWindow(o, w, others, client);
  }

  // ---------- throughput ----------

  function Left(o: Options, count: int): int {
    if o.maxRequests > count then o.maxRequests - count else 0
  }

  /** What can still be admitted in an interval no longer than a window. */
  function Allowance(o: Options, w: World, client: Client, t1: Time, t2: Time): int {
    if w.now < t1 then 2 * o.maxRequests - 1
    else match Live(w.windows, client, w.now)
      case Some(win) => Left(o, win.count) + (if win.resetAt < t2 then o.maxRequests else 0)
      case None => o.maxRequests
  }

  lemma AllowanceAfterStep(o: Options, w: World, op: Op, client: Client, t1: Time, t2: Time)
    requires Inv(o, w) && o.maxRequests >= 1 && t2 - t1 <= o.windowMs
    ensures var t := w.now + op.wait;
      Allowance(o, Next(o, w, op), client, t1, t2)
        + (if op.Request? && op.client == client && Admitted(o, w, op) && t1 <= t <= t2 then 1 else 0)
      <= Allowance(o, w, client, t1, t2)
      || t > t2
  {
  }

  lemma {:induction false} NothingAfter(o: Options, w: World, ops: seq<Op>, client: Client, t1: Time, t2: Time)
    requires w.now > t2
    ensures CountWithin(AdmitTimes(o, w, ops, client), t1, t2) == 0
    decreases |ops|
  {
    if ops != [] {
      var rest := AdmitTimes(o, Next(o, w, ops[0]), ops[1..], client);
      assert ([w.now + ops[0].wait] + rest)[1..] == rest && [] + rest == rest;
      NothingAfter(o, Next(o, w, ops[0]), ops[1..], client, t1, t2);
    }
  }

  lemma {:induction false} AdmitsWithinAllowance(o: Options, w: World, ops: seq<Op>, client: Client, t1: Time, t2: Time)
    requires Inv(o, w) && o.maxRequests >= 1 && t2 - t1 <= o.windowMs
    ensures CountWithin(AdmitTimes(o, w, ops, client), t1, t2) <= Allowance(o, w, client, t1, t2)
    decreases |ops|
  {
    if ops != [] {
      var w' := Next(o, w, ops[0]);
      var rest := AdmitTimes(o, w', ops[1..], client);
      assert ([w'.now] + rest)[1..] == rest && [] + rest == rest;
      NextKeepsInv(o, w, ops[0]);
      AllowanceAfterStep(o, w, ops[0], client, t1, t2);
      if w'.now > t2 {
        NothingAfter(o, w', ops[1..], client, t1, t2);
      } else {
        AdmitsWithinAllowance(o, w', ops[1..], client, t1, t2);
      }
    }
  }

  const START := World(0, map[])

  /** In no interval as long as a window are 2 * maxRequests requests of one client admitted. */
  lemma ThroughputBound(o: Options, ops: seq<Op>, client: Client, t1: Time, t2: Time)
    requires o.maxRequests >= 1 && t2 - t1 <= o.windowMs
    ensures CountWithin(AdmitTimes(o, START, ops, client), t1, t2) <= 2 * o.maxRequests - 1
  {
    AdmitsWithinAllowance(o, START, ops, client, t1, t2);
  }

  /** A window admits exactly the first maxRequests of the requests that fall into it. */
  lemma {:induction false} WindowAdmitsTheFirst(o: Options, win: Window, times: seq<Time>, from: Time)
    requires forall i :: 0 <= i < |times| ==> times[i] >= from
    requires forall i, j :: 0 <= i < j < |times| ==> times[i] <= times[j]
    requires o.windowMs >= 0 && win.count >= 0
    ensures var requests := CountWithin(times, from, win.resetAt);
            var admitted := CountWithin(WindowAnswers(o, Some(win), times), from, win.resetAt);
      admitted == if requests <= Left(o, win.count) then requests else Left(o, win.count)
    decreases |times|
  {
    if times != [] {
      var rest := times[1..];
      if times[0] <= win.resetAt {
        var win' := win.(count := win.count + 1);
        WindowAdmitsTheFirst(o, win', rest, from);
        var answers := WindowAnswers(o, Some(win'), rest);
        assert ([times[0]] + answers)[1..] == answers && [] + answers == answers;
      } else {
        NoneWithin(times, from, win.resetAt);
        AnswersAreRequests(o, Some(win), times, win.resetAt);
        NoneWithin(WindowAnswers(o, Some(win), times), from, win.resetAt);
      }
    }
  }

  lemma {:induction false} NoneWithin(times: seq<Time>, t1: Time, t2: Time)
    requires forall i :: 0 <= i < |times| ==> times[i] > t2
    ensures CountWithin(times, t1, t2) == 0
  {
    if times != [] {
      NoneWithin(times[1..], t1, t2);
    }
  }

  lemma {:induction false} AnswersAreRequests(o: Options, live: Option<Window>, times: seq<Time>, bound: Time)
    requires forall i :: 0 <= i < |times| ==> times[i] > bound
    ensures forall i :: 0 <= i < |WindowAnswers(o, live, times)| ==> WindowAnswers(o, live, times)[i] > bound
    decreases |times|
  {
    if times != [] {
      var w := if live.Some? && times[0] <= live.value.resetAt then live.value.(count := live.value.count + 1)
               else Window(1, times[0] + o.windowMs);
      AnswersAreRequests(o, Some(w), times[1..], bound);
    }
  }

  // ---------- the bound is reached ----------

  function Repeat(n: nat, t: Time): (times: seq<Time>)
    ensures |times| == n && forall i :: 0 <= i < n ==> times[i] == t
  {
    if n == 0 then [] else [t] + Repeat(n - 1, t)
  }

  /** n requests at one moment inside a live window. */
  lemma {:induction false} Burst(o: Options, win: Window, n: nat, t: Time, more: seq<Time>)
    requires t <= win.resetAt && win.count + n <= o.maxRequests
    ensures WindowAnswers(o, Some(win), Repeat(n, t) + more)
         == Repeat(n, t) + WindowAnswers(o, Some(win.(count := win.count + n)), more)
    decreases n
  {
    if n == 0 {
      assert Repeat(n, t) + more == more;
    } else {
      var win', fewer := win.(count := win.count + 1), Repeat(n - 1, t);
      Burst(o, win', n - 1, t, more);
      FirstAnswer(o, win, t, fewer + more);
      Regroup(t, fewer, more);
      Regroup(t, fewer, WindowAnswers(o, Some(win.(count := win.count + n)), more));
    }
  }

  lemma Regroup(t: Time, a: seq<Time>, b: seq<Time>)
    ensures ([t] + a) + b == [t] + (a + b)
  {
  }

  lemma FirstAnswer(o: Options, win: Window, t: Time, more: seq<Time>)
    requires t <= win.resetAt && win.count + 1 <= o.maxRequests
    ensures WindowAnswers(o, Some(win), [t] + more) == [t] + WindowAnswers(o, Some(win.(count := win.count + 1)), more)
  {
    assert ([t] + more)[1..] == more;
  }

  lemma {:induction false} CountBurst(n: nat, t: Time, more: seq<Time>, t1: Time, t2: Time)
    ensures CountWithin(Repeat(n, t) + more, t1, t2) == (if t1 <= t <= t2 then n else 0) + CountWithin(more, t1, t2)
    decreases n
  {
    if n == 0 {
      assert Repeat(n, t) + more == more;
    } else {
      assert (Repeat(n, t) + more)[1..] == Repeat(n - 1, t) + more;
      CountBurst(n - 1, t, more, t1, t2);
    }
  }

  /** A request that opens a new window, and the rest of the window's quota at once. */
  lemma FreshBurst(o: Options, live: Option<Window>, n: nat, t: Time)
    requires (live.Some? ==> t > live.value.resetAt) && n + 1 == o.maxRequests && o.windowMs >= 0
    ensures WindowAnswers(o, live, [t] + Repeat(n, t)) == [t] + Repeat(n, t)
  {
    var win := Window(1, t + o.windowMs);
    assert ([t] + Repeat(n, t))[1..] == Repeat(n, t) + [];
    Burst(o, win, n, t, []);
    assert WindowAnswers(o, Some(win.(count := win.count + n)), []) == [];
  }

  lemma CountFreshBurst(n: nat, t: Time, t1: Time, t2: Time)
    requires t1 <= t <= t2
    ensures CountWithin([t] + Repeat(n, t), t1, t2) == n + 1
  {
    assert ([t] + Repeat(n, t))[1..] == Repeat(n, t) + [];
    CountBurst(n, t, [], t1, t2);
  }

  /** One early request, the rest of the window at its last moment, a full new window right after:
      2 * maxRequests - 1 requests within one window length. */
  lemma BoundIsReached(o: Options) returns (times: seq<Time>)
    requires o.maxRequests >= 1 && o.windowMs >= 1
    ensures forall i, j :: 0 <= i < j < |times| ==> 0 <= times[i] <= times[j]
    ensures CountWithin(WindowAnswers(o, None, times), o.windowMs, 2 * o.windowMs) == 2 * o.maxRequests - 1
  {
    var n, end := o.maxRequests - 1, o.windowMs;
    var last := Repeat(n, end);
    var late := [end + 1] + Repeat(n, end + 1);
    times := [0] + (last + late);
    assert times[1..] == last + late;
    Burst(o, Window(1, end), n, end, late);
    FreshBurst(o, Some(Window(1 + n, end)), n, end + 1);
    assert WindowAnswers(o, None, times) == [0] + (last + late);
    CountBurst(n, end, late, end, 2 * end);
    CountFreshBurst(n, end + 1, end, 2 * end);
  }

  /** Requests of one client at given times. */
  function RequestsAt(now: Time, times: seq<Time>, client: Client): seq<Op>
    requires forall i :: 0 <= i < |times| ==> now <= times[i]
    requires forall i, j :: 0 <= i < j < |times| ==> times[i] <= times[j]
    decreases |times|
  {
    if times == [] then [] else [Request(client, times[0] - now)] + RequestsAt(times[0], times[1..], client)
  }

  lemma {:induction false} RequestsAtTimes(now: Time, times: seq<Time>, client: Client)
    requires forall i :: 0 <= i < |times| ==> now <= times[i]
    requires forall i, j :: 0 <= i < j < |times| ==> times[i] <= times[j]
    ensures RequestTimes(now, RequestsAt(now, times, client), client) == times
    decreases |times|
  {
    if times != [] {
      RequestsAtTimes(times[0], times[1..], client);
      var ops := RequestsAt(now, times, client);
      assert ops[1..] == RequestsAt(times[0], times[1..], client);
      assert times == [times[0]] + times[1..];
    }
  }

  predicate WithinQuota(o: Options, ops: seq<Op>, client: Client, t1: Time) {
    CountWithin(AdmitTimes(o, START, ops, client), t1, t1 + o.windowMs) <= o.maxRequests
  }

  /** The promise of a sliding window, that in no run any interval as long as the window sees more
      than maxRequests requests of a client admitted, is kept if and only if maxRequests is 1. */
  lemma SlidingExactly(o: Options, client: Client)
    requires o.maxRequests >= 1 && o.windowMs >= 1
    ensures (forall ops, t1 :: WithinQuota(o, ops, client, t1)) <==> o.maxRequests == 1
  {
    if o.maxRequests == 1 {
      forall ops, t1 ensures WithinQuota(o, ops, client, t1) {
        ThroughputBound(o, ops, client, t1, t1 + o.windowMs);
      }
    } else {
      var times := BoundIsReached(o);
      var ops := RequestsAt(0, times, client);
      RequestsAtTimes(0, times, client);
      AdmitsAsOneWindow(o, START, ops, client);
      assert !WithinQuota(o, ops, client, o.windowMs);
    }
  }

  // ---------- the retry hint ----------

  /** A client that waits exactly the hinted seconds is admitted if and only if the rest of its
      window was not a whole number of seconds: at `resetAt` itself the window still counts. */
  lemma RetryHint(o: Options, windows: Windows, client: Client, now: Time)
    requires o.maxRequests >= 1 && !Admits(o, windows, client, now)
    ensures var rest := Counted(o, windows, client, now).resetAt - now;
            var windows' := windows[client := Counted(o, windows, client, now)];
      Admits(o, windows', client, now + 1000 * CeilSeconds(rest)) <==> rest % 1000 != 0
  {
  }
}
