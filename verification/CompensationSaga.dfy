/** Compensation of failed and dead-lettered payments: one at a time, in batches, and batch after
    batch until the backlog is gone. */
module CompensationSaga {
  import opened Collections
  import opened Wrappers
  import opened PaymentTable
  import opened Lifecycle

  /** The two status writes of a successful `compensate`. */
  function Compensated(r: Row, now: Time): Row {
    WithStatus(WithStatus(r, COMPENSATING, now), COMPENSATED, now)
  }

  predicate Compensable(rows: Rows, id: PaymentId) {
    id in rows && rows[id].status in COMPENSABLE
  }

  function CompensateAll(rows: Rows, ids: seq<PaymentId>, now: Time): Rows {
    if ids == [] then rows
    else
      var rows1 := if Compensable(rows, ids[0]) then rows[ids[0] := Compensated(rows[ids[0]], now)] else rows;
      CompensateAll(rows1, ids[1..], now)
  }

  /** The payments waiting for compensation, oldest first. */
  function Backlog(listing: seq<PaymentId>, rows: Rows): seq<PaymentId> {
    Select(listing, rows, COMPENSABLE)
  }

  function Batch(listing: seq<PaymentId>, rows: Rows, limit: nat, now: Time): Rows {
    CompensateAll(rows, Firsts(Backlog(listing, rows), limit), now)
  }

  // ---------- one compensation, whatever fails in it ----------

  /** What fails during one `compensate`: the read, the COMPENSATING write or its audit entry, the
      COMPENSATED write or the audit entries around it, the audit entry of the catch block. */
  datatype Fate = Fate(read: bool, mark: Effect, finish: Effect, report: bool)

  /** Compensated, turned down, failed with a report, or left by an exception. */
  datatype Outcome = Succeeded | Refused | Reported | Threw

  predicate IsGood(fate: Fate) {
    fate.read && fate.mark == Happens && fate.finish == Happens
  }

  /** The machine's steps of one compensation with nothing in between. */
  function Alone(rows: Rows, id: PaymentId, fate: Fate, now: Time): State {
    Run(State(now, rows, map[], map[], []),
        [CompensateRead(0, id), CompensateMark(0, fate.mark), CompensateFinish(0, fate.finish)])
  }

  /** What it leaves of a compensable row. */
  function Attempted(r: Row, fate: Fate, now: Time): Row {
    if !fate.read || fate.mark == FailsBefore then r
    else if fate.mark == FailsAfter || fate.finish == FailsBefore then WithStatus(r, COMPENSATING, now)
    else Compensated(r, now)
  }

  function AttemptedRows(rows: Rows, id: PaymentId, fate: Fate, now: Time): Rows {
    if Compensable(rows, id) then rows[id := Attempted(rows[id], fate, now)] else rows
  }

  lemma RunThree(s: State, a: Action, b: Action, c: Action)
    ensures Run(s, [a, b, c]) == Next(Next(Next(s, a), b), c)
  {
    assert [a, b, c][1..] == [b, c] && [b, c][1..] == [c] && [c][1..] == [];
    assert Run(s, [a, b, c]) == Run(Next(s, a), [b, c]);
    assert Run(Next(s, a), [b, c]) == Run(Next(Next(s, a), b), [c]);
    assert Run(Next(Next(s, a), b), [c]) == Run(Next(Next(Next(s, a), b), c), []);
  }

  lemma MarkThenFinish(s: State, id: PaymentId, fate: Fate)
    requires fate.read && s.compensations == map[0 := Marking(id)] && Compensable(s.rows, id)
    ensures var s' := Next(Next(s, CompensateMark(0, fate.mark)), CompensateFinish(0, fate.finish));
      && s'.rows == AttemptedRows(s.rows, id, fate, s.now)
      && 0 in s'.compensations && (s'.compensations[0] == Over(true) <==> IsGood(fate))
  {
  }

  /** A `compensate` that gets past its read leaves the table as the machine's three steps do, and
      succeeds exactly when they do. */
  lemma AloneIs(rows: Rows, id: PaymentId, fate: Fate, now: Time)
    requires fate.read
    ensures Alone(rows, id, fate, now).rows == AttemptedRows(rows, id, fate, now)
    ensures 0 in Alone(rows, id, fate, now).compensations
    ensures Alone(rows, id, fate, now).compensations[0] == Over(true)
            <==> OutcomeOf(Compensable(rows, id), fate) == Succeeded
  {
    var s := State(now, rows, map[], map[], []);
    RunThree(s, CompensateRead(0, id), CompensateMark(0, fate.mark), CompensateFinish(0, fate.finish));
    if Compensable(rows, id) {
      var s1 := s.(compensations := map[0 := Marking(id)]);
      assert Next(s, CompensateRead(0, id)) == s1;
      MarkThenFinish(s1, id, fate);
    }
  }

  function OutcomeOf(compensable: bool, fate: Fate): Outcome {
    if !fate.read then Threw
    else if !compensable then Refused
    else if IsGood(fate) then Succeeded
    else if fate.mark == Happens && fate.report then Reported
    else Threw
  }

  /** A payment that was to be compensated and was not comes up again in a later batch if and only if
      its COMPENSATING write did not take place. Otherwise it is stuck: COMPENSATING, or COMPENSATED
      although reported as failed. */
  lemma StuckExactly(rows: Rows, id: PaymentId, fate: Fate, now: Time)
    requires Compensable(rows, id)
    ensures var rows' := AttemptedRows(rows, id, fate, now);
      && (Compensable(rows', id) <==> !fate.read || fate.mark == FailsBefore)
      && (OutcomeOf(true, fate) != Succeeded && rows'[id].status == COMPENSATED
          <==> fate.read && fate.mark == Happens && fate.finish == FailsAfter)
      && (rows'[id].status == COMPENSATING
          <==> fate.read && (fate.mark == FailsAfter || (fate.mark == Happens && fate.finish == FailsBefore)))
  {
  }

  /** Only a FAILED or dead-lettered payment is compensated, and only its status and compensation
      stamp change: refused, succeeded, reported or ended by an exception as the fate says. */
  lemma CompensationExactly(rows: Rows, id: PaymentId, fate: Fate, now: Time)
    ensures var open := id in rows && (rows[id].status == FAILED || rows[id].status == DEAD_LETTER);
            var outcome, rows' := OutcomeOf(Compensable(rows, id), fate), AttemptedRows(rows, id, fate, now);
      && (outcome == Refused <==> fate.read && !open)
      && (outcome == Succeeded <==> fate.read && open && fate.mark == Happens && fate.finish == Happens)
      && (outcome == Reported <==> fate.read && open && fate.mark == Happens && fate.finish != Happens && fate.report)
      && (!open ==> rows' == rows)
      && (open ==> rows' == rows[id := rows[id].(status := rows'[id].status, compensatedAt := rows'[id].compensatedAt)])
      && (outcome == Succeeded ==> rows'[id].status == COMPENSATED && rows'[id].compensatedAt == Some(now))
      && (open && rows'[id].status == COMPENSATED ==> rows'[id].compensatedAt == Some(now))
      && (open && rows'[id].status != COMPENSATED ==> rows'[id].compensatedAt == rows[id].compensatedAt)
  {
  }

  // ---------- a batch, whatever fails in it ----------

  /** The table after a batch, how many calls were counted either way, and whether one threw. */
  datatype Tally = Tally(rows: Rows, succeeded: nat, failed: nat, threw: bool)

  /** The loop over the payments: a call that throws ends it. */
  function Tallied(rows: Rows, ids: seq<PaymentId>, fates: PaymentId -> Fate, now: Time): Tally
    decreases |ids|
  {
    if ids == [] then Tally(rows, 0, 0, false)
    else
      var rows1 := AttemptedRows(rows, ids[0], fates(ids[0]), now);
      var outcome := OutcomeOf(Compensable(rows, ids[0]), fates(ids[0]));
      if outcome == Threw then Tally(rows1, 0, 0, true)
      else
        var rest := Tallied(rows1, ids[1..], fates, now);
        if outcome == Succeeded then rest.(succeeded := rest.succeeded + 1) else rest.(failed := rest.failed + 1)
  }

  function Added(t: Tally, succeeded: nat, failed: nat): Tally {
    Tally(t.rows, succeeded + t.succeeded, failed + t.failed, t.threw)
  }

  lemma TallyStep(rows: Rows, ids: seq<PaymentId>, i: nat, fates: PaymentId -> Fate, now: Time)
    requires i < |ids|
    ensures var rows1 := AttemptedRows(rows, ids[i], fates(ids[i]), now);
            var rest := Tallied(rows1, ids[i + 1..], fates, now);
            Tallied(rows, ids[i..], fates, now)
            == match OutcomeOf(Compensable(rows, ids[i]), fates(ids[i]))
               case Threw => Tally(rows1, 0, 0, true)
               case Succeeded => Added(rest, 1, 0)
               case _ => Added(rest, 0, 1)
  {
    assert ids[i..][1..] == ids[i + 1..];
  }

  predicate Throws(fate: Fate) {
    OutcomeOf(true, fate) == Threw
  }

  /** How many payments of a list are attempted: up to the first whose compensation throws. */
  function Reached(ids: seq<PaymentId>, fates: PaymentId -> Fate): (n: nat)
    ensures n <= |ids|
  {
    if ids == [] then 0 else if Throws(fates(ids[0])) then 1 else 1 + Reached(ids[1..], fates)
  }

  function CountGood(ids: seq<PaymentId>, fates: PaymentId -> Fate): nat {
    if ids == [] then 0 else (if IsGood(fates(ids[0])) then 1 else 0) + CountGood(ids[1..], fates)
  }

  /** Each payment of `ids` has the row its own fate leaves, and each other payment the row it had. */
  predicate AttemptsAll(rows: Rows, rows': Rows, ids: seq<PaymentId>, fates: PaymentId -> Fate, now: Time) {
    && rows'.Keys == rows.Keys
    && (forall id :: id in rows && id !in ids ==> rows'[id] == rows[id])
    && (forall id :: id in ids ==> id in rows && rows'[id] == Attempted(rows[id], fates(id), now))
  }

  lemma AttemptsOne(rows: Rows, id: PaymentId, fates: PaymentId -> Fate, now: Time)
    requires Compensable(rows, id)
    ensures AttemptsAll(rows, AttemptedRows(rows, id, fates(id), now), [id], fates, now)
  {
  }

  lemma AttemptsCons(rows: Rows, rows1: Rows, rows2: Rows, id: PaymentId, rest: seq<PaymentId>,
                     fates: PaymentId -> Fate, now: Time)
    requires AttemptsAll(rows, rows1, [id], fates, now) && AttemptsAll(rows1, rows2, rest, fates, now) && id !in rest
    ensures AttemptsAll(rows, rows2, [id] + rest, fates, now)
  {
  }

  lemma StillCompensable(rows: Rows, ids: seq<PaymentId>, fates: PaymentId -> Fate, now: Time)
    requires ids != [] && Distinct(ids) && forall i :: 0 <= i < |ids| ==> Compensable(rows, ids[i])
    ensures var rows1 := AttemptedRows(rows, ids[0], fates(ids[0]), now);
      Distinct(ids[1..]) && ids[0] !in ids[1..] && forall i :: 0 <= i < |ids| - 1 ==> Compensable(rows1, ids[1..][i])
  {
    assert forall i :: 0 <= i < |ids| - 1 ==> ids[1..][i] == ids[i + 1];
  }

  lemma TalliedRowsStep(rows: Rows, ids: seq<PaymentId>, fates: PaymentId -> Fate, now: Time)
    requires ids != [] && Compensable(rows, ids[0]) && ids[0] !in ids[1..]
    requires var rows1, rest := AttemptedRows(rows, ids[0], fates(ids[0]), now), ids[1..];
             AttemptsAll(rows1, Tallied(rows1, rest, fates, now).rows, rest[..Reached(rest, fates)], fates, now)
    ensures AttemptsAll(rows, Tallied(rows, ids, fates, now).rows, ids[..Reached(ids, fates)], fates, now)
  {
    var rows1, rest := AttemptedRows(rows, ids[0], fates(ids[0]), now), ids[1..];
    AttemptsOne(rows, ids[0], fates, now);
    if Throws(fates(ids[0])) {
      assert ids[..1] == [ids[0]];
    } else {
      var n := Reached(rest, fates);
      AttemptsCons(rows, rows1, Tallied(rows1, rest, fates, now).rows, ids[0], rest[..n], fates, now);
      assert ids[..n + 1] == [ids[0]] + rest[..n];
    }
  }

  /** The attempted payments of a batch get the rows that their fates leave, the others none. */
  lemma {:induction false} TalliedRows(rows: Rows, ids: seq<PaymentId>, fates: PaymentId -> Fate, now: Time)
    requires Distinct(ids) && forall i :: 0 <= i < |ids| ==> Compensable(rows, ids[i])
    ensures AttemptsAll(rows, Tallied(rows, ids, fates, now).rows, ids[..Reached(ids, fates)], fates, now)
    decreases |ids|
  {
    if ids != [] {
      StillCompensable(rows, ids, fates, now);
      TalliedRows(AttemptedRows(rows, ids[0], fates(ids[0]), now), ids[1..], fates, now);
      TalliedRowsStep(rows, ids, fates, now);
    }
  }

  /** Of the calls that return exactly the good ones are counted as succeeded, and a batch without
      an exception attempts every payment. */
  lemma {:induction false} TalliedCounts(rows: Rows, ids: seq<PaymentId>, fates: PaymentId -> Fate, now: Time)
    requires Distinct(ids) && forall i :: 0 <= i < |ids| ==> Compensable(rows, ids[i])
    ensures var t, n := Tallied(rows, ids, fates, now), Reached(ids, fates);
      && (t.threw <==> n > 0 && Throws(fates(ids[n - 1])))
      && t.succeeded == CountGood(ids[..n], fates)
      && t.succeeded + t.failed == (if t.threw then n - 1 else n)
      && (!t.threw ==> n == |ids|)
    decreases |ids|
  {
    if ids != [] {
      var rows1, rest, n := AttemptedRows(rows, ids[0], fates(ids[0]), now), ids[1..], Reached(ids, fates);
      if Throws(fates(ids[0])) {
        assert ids[..1][1..] == [];
      } else {
        StillCompensable(rows, ids, fates, now);
        TalliedCounts(rows1, rest, fates, now);
        assert ids[..n][1..] == rest[..n - 1];
      }
    }
  }

  /** A batch in which nothing fails is the batch of the results below. */
  lemma {:induction false} GoodTally(rows: Rows, ids: seq<PaymentId>, fates: PaymentId -> Fate, now: Time)
    requires Distinct(ids) && forall i :: 0 <= i < |ids| ==> Compensable(rows, ids[i]) && IsGood(fates(ids[i]))
    ensures Tallied(rows, ids, fates, now) == Tally(CompensateAll(rows, ids, now), |ids|, 0, false)
  {
    if ids != [] {
      var rows1 := AttemptedRows(rows, ids[0], fates(ids[0]), now);
      forall i | 0 <= i < |ids| - 1 ensures Compensable(rows1, ids[1..][i]) && IsGood(fates(ids[1..][i])) {
        assert ids[1..][i] == ids[i + 1];
      }
      assert forall i :: 0 <= i < |ids| - 1 ==> ids[1..][i] == ids[i + 1];
      GoodTally(rows1, ids[1..], fates, now);
    }
  }

  class CompensationService {
    const repo: PaymentRepository

    constructor (repo: PaymentRepository)
      ensures this.repo == repo
    {
      this.repo := repo;
    }

    /** `compensate` with nothing interfering; `AloneIs` relates it to the machine's three steps. */
    method Compensate(id: PaymentId, fate: Fate, now: Time) returns (outcome: Outcome)
      requires repo.Valid()
      modifies repo`rows
      ensures repo.Valid()
      ensures repo.rows == AttemptedRows(old(repo.rows), id, fate, now)
      ensures outcome == OutcomeOf(Compensable(old(repo.rows), id), fate)
    {
      if !fate.read {
        return Threw;
      }
      var payment := repo.FindById(id);
      if payment.None? || payment.value.status !in COMPENSABLE {
        return Refused;
      }
      if fate.mark == FailsBefore {
        return Threw;
      }
      var marked := repo.UpdateStatus(id, COMPENSATING, now);
      if fate.mark == FailsAfter {
        return Threw;
      }
      if fate.finish != FailsBefore {
        var done := repo.UpdateStatus(id, COMPENSATED, now);
        if fate.finish == Happens {
          return Succeeded;
        }
      }
      outcome := if fate.report then Reported else Threw;
    }

    /** `compensateBatch`: the counts, or `None` if a call threw. */
    method CompensateBatch(limit: nat, fates: PaymentId -> Fate, now: Time) returns (counts: Option<(nat, nat, nat)>)
      requires repo.Valid()
      modifies repo`rows
      ensures repo.Valid()
      ensures var ids := Firsts(Backlog(repo.listing, old(repo.rows)), limit);
              var t := Tallied(old(repo.rows), ids, fates, now);
              && repo.rows == t.rows
              && counts == if t.threw then None else Some((|ids|, t.succeeded, t.failed))
    {
      var ids := repo.FindByStatuses(COMPENSABLE, limit);
      ghost var whole := Tallied(repo.rows, ids, fates, now);
      assert ids[0..] == ids;
      var succeeded, failed, i := 0, 0, 0;
      while i < |ids|
        invariant 0 <= i <= |ids| && repo.Valid()
        invariant whole == Added(Tallied(repo.rows, ids[i..], fates, now), succeeded, failed)
      {
        ghost var before := repo.rows;
        TallyStep(before, ids, i, fates, now);
        var outcome := Compensate(ids[i], fates(ids[i]), now);
        match outcome {
          case Threw => return None;
          case Succeeded => succeeded := succeeded + 1;
          case _ => failed := failed + 1;
        }
        i := i + 1;
      }
      counts := Some((|ids|, succeeded, failed));
    }
  }

  lemma {:induction false} SelectDistinct(listing: seq<PaymentId>, rows: Rows, wanted: set<Status>)
    requires Distinct(listing)
    ensures Distinct(Select(listing, rows, wanted))
  {
    if listing != [] {
      assert forall i :: 0 <= i < |listing| - 1 ==> listing[1..][i] == listing[i + 1];
      SelectDistinct(listing[1..], rows, wanted);
      SelectMembers(listing[1..], rows, wanted, listing[0]);
      DistinctCons(listing[0], Select(listing[1..], rows, wanted));
    }
  }

  lemma DistinctCons(head: PaymentId, rest: seq<PaymentId>)
    requires Distinct(rest) && head !in rest
    ensures Distinct([head] + rest) && Distinct([] + rest)
  {
    assert forall i :: 0 <= i < |rest| ==> rest[i] in rest;
  }

  lemma BacklogIsCompensable(listing: seq<PaymentId>, rows: Rows)
    requires Distinct(listing)
    ensures Distinct(Backlog(listing, rows))
    ensures forall i :: 0 <= i < |Backlog(listing, rows)| ==> Compensable(rows, Backlog(listing, rows)[i])
    ensures forall id :: id in Backlog(listing, rows) <==> id in listing && Compensable(rows, id)
  {
    SelectDistinct(listing, rows, COMPENSABLE);
    forall id ensures id in Backlog(listing, rows) <==> id in listing && Compensable(rows, id) {
      SelectMembers(listing, rows, COMPENSABLE, id);
    }
    assert forall i :: 0 <= i < |Backlog(listing, rows)| ==> Backlog(listing, rows)[i] in Backlog(listing, rows);
  }

  /** Compensating a list changes exactly the rows it names, each once. */
  lemma {:induction false} CompensateAllEffect(rows: Rows, ids: seq<PaymentId>, now: Time)
    requires Distinct(ids) && forall i :: 0 <= i < |ids| ==> Compensable(rows, ids[i])
    ensures var rows' := CompensateAll(rows, ids, now);
      && rows'.Keys == rows.Keys
      && (forall id :: id in rows && id !in ids ==> rows'[id] == rows[id])
      && (forall id :: id in ids ==> id in rows && rows'[id] == Compensated(rows[id], now))
  {
    if ids != [] {
      var rows1 := rows[ids[0] := Compensated(rows[ids[0]], now)];
      assert forall i :: 1 <= i < |ids| ==> ids[1..][i - 1] == ids[i];
      forall i | 0 <= i < |ids| - 1 ensures Compensable(rows1, ids[1..][i]) && ids[1..][i] != ids[0] {
        assert ids[1..][i] == ids[i + 1];
      }
      CompensateAllEffect(rows1, ids[1..], now);
      assert ids == [ids[0]] + ids[1..];
      assert ids[0] !in ids[1..];
    }
  }

  function Minus(s: seq<PaymentId>, dropped: set<PaymentId>): seq<PaymentId> {
    if s == [] then [] else (if s[0] in dropped then [] else [s[0]]) + Minus(s[1..], dropped)
  }

  /** Payments that lose a wanted status drop out of the selection; the others keep their order. */
  lemma {:induction false} SelectMinus(listing: seq<PaymentId>, rows: Rows, rows': Rows, wanted: set<Status>,
                                       dropped: set<PaymentId>)
    requires rows'.Keys == rows.Keys
    requires forall id :: id in rows ==> (rows'[id].status in wanted <==> rows[id].status in wanted && id !in dropped)
    ensures Select(listing, rows', wanted) == Minus(Select(listing, rows, wanted), dropped)
  {
    if listing != [] {
      SelectMinus(listing[1..], rows, rows', wanted, dropped);
      var tail := Select(listing[1..], rows, wanted);
      assert ([listing[0]] + tail)[1..] == tail;
      assert [] + tail == tail;
    }
  }

  predicate IsMarked(fate: Fate) {
    fate.read && fate.mark != FailsBefore
  }

  /** Whatever fails in a batch, the backlog loses exactly the attempted payments that were marked:
      what was not marked is still in it, and what was marked is not, compensated or not. */
  lemma BatchLeaves(listing: seq<PaymentId>, rows: Rows, limit: nat, fates: PaymentId -> Fate, now: Time)
    requires Distinct(listing)
    ensures var ids := Firsts(Backlog(listing, rows), limit);
            var marked := set id | id in ids[..Reached(ids, fates)] && IsMarked(fates(id));
            Backlog(listing, Tallied(rows, ids, fates, now).rows) == Minus(Backlog(listing, rows), marked)
  {
    var b := Backlog(listing, rows);
    var ids := Firsts(b, limit);
    var n := Reached(ids, fates);
    var marked := set id | id in ids[..n] && IsMarked(fates(id));
    var rows' := Tallied(rows, ids, fates, now).rows;
    BacklogIsCompensable(listing, rows);
    assert forall i :: 0 <= i < |ids| ==> ids[i] == b[i];
    TalliedRows(rows, ids, fates, now);
    AttemptsUnmark(rows, rows', ids[..n], fates, now, marked);
    SelectMinus(listing, rows, rows', COMPENSABLE, marked);
  }

  lemma AttemptsUnmark(rows: Rows, rows': Rows, ids: seq<PaymentId>, fates: PaymentId -> Fate, now: Time,
                       marked: set<PaymentId>)
    requires AttemptsAll(rows, rows', ids, fates, now) && forall id :: id in ids ==> Compensable(rows, id)
    requires marked == (set id | id in ids && IsMarked(fates(id)))
    ensures forall id :: id in rows ==>
      (rows'[id].status in COMPENSABLE <==> rows[id].status in COMPENSABLE && id !in marked)
  {
  }

  lemma {:induction false} MinusPrefix(a: seq<PaymentId>, c: seq<PaymentId>, dropped: set<PaymentId>)
    requires (forall i :: 0 <= i < |a| ==> a[i] in dropped) && (forall i :: 0 <= i < |c| ==> c[i] !in dropped)
    ensures Minus(a + c, dropped) == c
  {
    if a != [] {
      assert (a + c)[1..] == a[1..] + c;
      MinusPrefix(a[1..], c, dropped);
    } else if c != [] {
      assert (a + c)[1..] == a + c[1..];
      MinusPrefix(a, c[1..], dropped);
      assert c == [c[0]] + c[1..];
    }
  }

  /** `rows'` is `rows` with the payments of `ids` compensated, once each. */
  predicate Compensates(rows: Rows, rows': Rows, ids: seq<PaymentId>, now: Time) {
    && rows'.Keys == rows.Keys
    && (forall id :: id in rows && id !in ids ==> rows'[id] == rows[id])
    && (forall id :: id in ids ==> id in rows && rows'[id] == Compensated(rows[id], now))
  }

  predicate Within(s: seq<PaymentId>, ids: set<PaymentId>) {
    forall i :: 0 <= i < |s| ==> s[i] in ids
  }

  predicate Outside(s: seq<PaymentId>, ids: set<PaymentId>) {
    forall i :: 0 <= i < |s| ==> s[i] !in ids
  }

  lemma PrefixSet(b: seq<PaymentId>, k: nat, dropped: set<PaymentId>)
    requires Distinct(b) && k <= |b| && dropped == (set id | id in b[..k])
    ensures Within(b[..k], dropped) && Outside(b[k..], dropped)
  {
    forall i | 0 <= i < |b[k..]| ensures b[k..][i] !in dropped {
      assert forall j :: 0 <= j < k ==> b[..k][j] == b[j] && b[j] != b[k + i];
    }
  }

  lemma BacklogAfter(listing: seq<PaymentId>, rows: Rows, rows': Rows, k: nat, now: Time)
    requires Distinct(listing) && k <= |Backlog(listing, rows)|
    requires Compensates(rows, rows', Backlog(listing, rows)[..k], now)
    ensures Backlog(listing, rows') == Backlog(listing, rows)[k..]
  {
    var b := Backlog(listing, rows);
    var dropped := set id | id in b[..k];
    assert Distinct(b) by { SelectDistinct(listing, rows, COMPENSABLE); }
    PrefixSet(b, k, dropped);
    SelectMinus(listing, rows, rows', COMPENSABLE, dropped);
    MinusPrefix(b[..k], b[k..], dropped);
    assert b == b[..k] + b[k..];
  }

  /** One batch takes the oldest `limit` payments off the backlog and touches no other row. */
  lemma BatchTakesOldest(listing: seq<PaymentId>, rows: Rows, limit: nat, now: Time)
    requires Distinct(listing)
    ensures var b := Backlog(listing, rows);
            var k := Least(limit, |b|);
            var rows' := Batch(listing, rows, limit, now);
            Backlog(listing, rows') == b[k..] && Compensates(rows, rows', b[..k], now)
  {
    var b := Backlog(listing, rows);
    var k := Least(limit, |b|);
    assert Firsts(b, limit) == b[..k];
    assert Distinct(b[..k]) && forall i :: 0 <= i < k ==> Compensable(rows, b[..k][i]) by {
      BacklogIsCompensable(listing, rows);
    }
    CompensateAllEffect(rows, b[..k], now);
    BacklogAfter(listing, rows, Batch(listing, rows, limit, now), k, now);
  }

  /** The table after `k` batches. */
  function Rounds(listing: seq<PaymentId>, rows: Rows, limit: nat, now: Time, k: nat): Rows {
    if k == 0 then rows else Batch(listing, Rounds(listing, rows, limit, now, k - 1), limit, now)
  }

  lemma {:induction false} CompensateAllConcat(rows: Rows, a: seq<PaymentId>, b: seq<PaymentId>, now: Time)
    ensures CompensateAll(rows, a + b, now) == CompensateAll(CompensateAll(rows, a, now), b, now)
    decreases |a|
  {
    if a == [] {
      assert a + b == b;
    } else {
      assert (a + b)[1..] == a[1..] + b;
      var rows1 := if Compensable(rows, a[0]) then rows[a[0] := Compensated(rows[a[0]], now)] else rows;
      CompensateAllConcat(rows1, a[1..], b, now);
    }
  }

  /** How much of a backlog `k` batches take. */
  function Progress(k: nat, limit: nat, len: nat): (n: nat)
    ensures n <= len
  {
    if k == 0 then 0
    else
      var m := Progress(k - 1, limit, len);
      m + Least(limit, len - m)
  }

  lemma {:induction false} ProgressIs(k: nat, limit: nat, len: nat)
    ensures Progress(k, limit, len) == Least(k * limit, len)
  {
    if k > 0 {
      ProgressIs(k - 1, limit, len);
      assert k * limit == (k - 1) * limit + limit;
    }
  }

  lemma SliceStep(b: seq<PaymentId>, m: nat, n: nat)
    requires m <= n <= |b|
    ensures b[m..][..n - m] == b[m..n] && b[m..][n - m..] == b[n..]
  {
  }

  /** `rest` is what a backlog still holds once its first `n` payments have been compensated. */
  predicate Progressed(rows: Rows, rows': Rows, b: seq<PaymentId>, rest: seq<PaymentId>, n: nat, now: Time) {
    n <= |b| && rest == b[n..] && rows' == CompensateAll(rows, b[..n], now)
  }

  lemma ProgressedBoth(rows: Rows, rows1: Rows, rows2: Rows, b: seq<PaymentId>, rest: seq<PaymentId>,
                       rest2: seq<PaymentId>, m: nat, n: nat, limit: nat, now: Time)
    requires Progressed(rows, rows1, b, rest, m, now)
    requires Progressed(rows1, rows2, rest, rest2, Least(limit, |rest|), now)
    requires n == m + Least(limit, |b| - m)
    ensures Progressed(rows, rows2, b, rest2, n, now)
  {
    var taken := Least(limit, |rest|);
    SliceStep(b, m, m + taken);
    CompensateAllConcat(rows, b[..m], rest[..taken], now);
    assert b[..m] + rest[..taken] == b[..m + taken];
  }

  lemma BatchProgress(listing: seq<PaymentId>, rows: Rows, limit: nat, now: Time)
    requires Distinct(listing)
    ensures var b := Backlog(listing, rows);
            var rows' := Batch(listing, rows, limit, now);
      Progressed(rows, rows', b, Backlog(listing, rows'), Least(limit, |b|), now)
  {
    BatchTakesOldest(listing, rows, limit, now);
    assert Firsts(Backlog(listing, rows), limit) == Backlog(listing, rows)[..Least(limit, |Backlog(listing, rows)|)];
  }

  lemma RoundProgress(listing: seq<PaymentId>, rows: Rows, limit: nat, now: Time, i: nat)
    requires Distinct(listing)
    ensures var rows1, rows2 := Rounds(listing, rows, limit, now, i), Rounds(listing, rows, limit, now, i + 1);
      Progressed(rows1, rows2, Backlog(listing, rows1), Backlog(listing, rows2),
                 Least(limit, |Backlog(listing, rows1)|), now)
  {
    BatchProgress(listing, Rounds(listing, rows, limit, now, i), limit, now);
  }

  lemma NoProgress(rows: Rows, b: seq<PaymentId>, now: Time)
    ensures Progressed(rows, rows, b, b, 0, now)
  {
    assert b[0..] == b && b[..0] == [];
  }

  /** `k` batches have compensated what `Progress` says. */
  predicate RoundsDone(listing: seq<PaymentId>, rows: Rows, limit: nat, now: Time, k: nat) {
    var b, rows' := Backlog(listing, rows), Rounds(listing, rows, limit, now, k);
    Progressed(rows, rows', b, Backlog(listing, rows'), Progress(k, limit, |b|), now)
  }

  lemma NextRound(listing: seq<PaymentId>, rows: Rows, limit: nat, now: Time, i: nat)
    requires Distinct(listing) && RoundsDone(listing, rows, limit, now, i)
    ensures RoundsDone(listing, rows, limit, now, i + 1)
  {
    var b := Backlog(listing, rows);
    var rows1, rows2 := Rounds(listing, rows, limit, now, i), Rounds(listing, rows, limit, now, i + 1);
    RoundProgress(listing, rows, limit, now, i);
    assert |Backlog(listing, rows1)| == |b| - Progress(i, limit, |b|);
    ProgressedBoth(rows, rows1, rows2, b, Backlog(listing, rows1), Backlog(listing, rows2),
                   Progress(i, limit, |b|), Progress(i + 1, limit, |b|), limit, now);
  }

  lemma NoRounds(listing: seq<PaymentId>, rows: Rows, limit: nat, now: Time)
    ensures RoundsDone(listing, rows, limit, now, 0)
  {
    NoProgress(rows, Backlog(listing, rows), now);
  }

  lemma {:induction false} Induct(p: nat -> bool, k: nat)
    requires p(0) && forall i: nat :: p(i) ==> p(i + 1)
    ensures p(k)
  {
    if k > 0 {
      Induct(p, k - 1);
    }
  }

  lemma RoundsProgress(listing: seq<PaymentId>, rows: Rows, limit: nat, now: Time, k: nat)
    requires Distinct(listing)
    ensures RoundsDone(listing, rows, limit, now, k)
  {
    var p := (i: nat) => RoundsDone(listing, rows, limit, now, i);
    NoRounds(listing, rows, limit, now);
    forall i: nat | p(i) ensures p(i + 1) {
      NextRound(listing, rows, limit, now, i);
    }
    Induct(p, k);
  }

  lemma Remaining(listing: seq<PaymentId>, rows: Rows, limit: nat, now: Time, k: nat)
    requires Distinct(listing)
    ensures var b := Backlog(listing, rows);
            Backlog(listing, Rounds(listing, rows, limit, now, k)) == b[Least(k * limit, |b|)..]
  {
    RoundsProgress(listing, rows, limit, now, k);
    ProgressIs(k, limit, |Backlog(listing, rows)|);
  }

  /** After `k` batches exactly the oldest `k * limit` payments of the backlog have been
      compensated, once each, and every other row is as it was. */
  lemma RoundsTakeOldest(listing: seq<PaymentId>, rows: Rows, limit: nat, now: Time, k: nat)
    requires Distinct(listing)
    ensures var b := Backlog(listing, rows);
            var n := Least(k * limit, |b|);
            var rows' := Rounds(listing, rows, limit, now, k);
            Backlog(listing, rows') == b[n..] && Compensates(rows, rows', b[..n], now)
  {
    var b := Backlog(listing, rows);
    RoundsProgress(listing, rows, limit, now, k);
    ProgressIs(k, limit, |b|);
    PrefixCompensates(listing, rows, Progress(k, limit, |b|), now);
  }

  lemma PrefixCompensates(listing: seq<PaymentId>, rows: Rows, n: nat, now: Time)
    requires Distinct(listing) && n <= |Backlog(listing, rows)|
    ensures var b := Backlog(listing, rows)[..n];
      Compensates(rows, CompensateAll(rows, b, now), b, now)
  {
    var b := Backlog(listing, rows);
    assert Distinct(b[..n]) && forall i :: 0 <= i < n ==> Compensable(rows, b[..n][i]) by {
      BacklogIsCompensable(listing, rows);
    }
    CompensateAllEffect(rows, b[..n], now);
  }

  lemma DrainedBy(listing: seq<PaymentId>, rows: Rows, limit: nat, now: Time, k: nat)
    requires Distinct(listing)
    ensures Backlog(listing, Rounds(listing, rows, limit, now, k)) == [] <==> k * limit >= |Backlog(listing, rows)|
  {
    Remaining(listing, rows, limit, now, k);
    NothingLeft(Backlog(listing, rows), k * limit);
  }

  lemma NothingLeft(b: seq<PaymentId>, taken: nat)
    ensures b[Least(taken, |b|)..] == [] <==> taken >= |b|
  {
  }

  /** `ceil(n / limit)` batches drain a backlog of `n`, and no fewer do. */
  lemma DrainedExactly(listing: seq<PaymentId>, rows: Rows, limit: nat, now: Time, k: nat)
    requires Distinct(listing) && limit >= 1
    ensures var n := |Backlog(listing, rows)|;
            Backlog(listing, Rounds(listing, rows, limit, now, k)) == [] <==> k >= (n + limit - 1) / limit
  {
    DrainedBy(listing, rows, limit, now, k);
    CeilDiv(|Backlog(listing, rows)|, limit, k);
  }

  lemma CeilDiv(n: nat, d: nat, k: nat)
    requires d >= 1
    ensures k >= (n + d - 1) / d <==> k * d >= n
  {
    var q := (n + d - 1) / d;
    var r := (n + d - 1) % d;
    assert n + d - 1 == q * d + r;
    if k >= q {
      assert k * d >= q * d;
    } else {
      assert k * d <= (q - 1) * d == q * d - d;
    }
  }

  lemma AllCompensated(rows: Rows, rows': Rows, b: seq<PaymentId>, n: nat, now: Time, id: PaymentId)
    requires n == |b| && Compensates(rows, rows', b[..n], now) && id in b
    ensures id in rows' && rows'[id].status == COMPENSATED
  {
    assert b[..n] == b;
  }

  /** Once the backlog is drained, each payment that was in it is COMPENSATED and not compensable again. */
  lemma CompensatedOnce(listing: seq<PaymentId>, rows: Rows, limit: nat, now: Time, k: nat, id: PaymentId)
    requires Distinct(listing) && id in Backlog(listing, rows)
    requires Backlog(listing, Rounds(listing, rows, limit, now, k)) == []
    ensures var rows' := Rounds(listing, rows, limit, now, k);
            id in rows' && rows'[id].status == COMPENSATED && !Compensable(rows', id)
  {
    RoundsTakeOldest(listing, rows, limit, now, k);
    AllCompensated(rows, Rounds(listing, rows, limit, now, k), Backlog(listing, rows),
                   Least(k * limit, |Backlog(listing, rows)|), now, id);
  }
}
