/** The payments table and the single-statement updates through which every actor changes it. */
module PaymentTable {
  import opened Collections
  import opened Text
  import opened Wrappers

  type PaymentId = string
  type Rail = string
  type Payload = string
  type Time = nat

  datatype Status =
    | RECEIVED | VALIDATED | CANONICALIZED | NORMALIZED | ROUTED | QUEUED | SENT_TO_DESTINATION | ACKED_BY_RAIL
    | COMPLETED | FAILED | REJECTED | DUPLICATE | COMPENSATING | COMPENSATED | DEAD_LETTER

  datatype RailAck = RailAck(status: string, detail: string)

  datatype Row = Row(
    status: Status,
    createdAt: Time,
    canonical: Option<Payload>,
    destination: Option<Rail>,
    routeRule: Option<string>,
    translated: Option<Payload>,
    railAck: Option<RailAck>,
    validatedAt: Option<Time>,
    canonicalizedAt: Option<Time>,
    routedAt: Option<Time>,
    queuedAt: Option<Time>,
    sentAt: Option<Time>,
    ackedAt: Option<Time>,
    completedAt: Option<Time>,
    failedAt: Option<Time>,
    compensatedAt: Option<Time>,
    deadLetterAt: Option<Time>)

  type Rows = map<PaymentId, Row>

  // ---------- one SQL statement each ----------

  /** INSERT_PAYMENT, for the columns the life cycle uses. */
  function NewRow(createdAt: Time): Row {
    Row(RECEIVED, createdAt, None, None, None, None, None,
        None, None, None, None, None, None, None, None, None, None)
  }

  function Stamp(hit: bool, now: Time, kept: Option<Time>): Option<Time> {
    if hit then Some(now) else kept
  }

  /** UPDATE_PAYMENT_STATUS_WITH_MILESTONE_TIMESTAMPS */
  function WithStatus(r: Row, status: Status, now: Time): Row {
    r.(status := status,
       validatedAt := Stamp(status == VALIDATED, now, r.validatedAt),
       queuedAt := Stamp(status == QUEUED, now, r.queuedAt),
       sentAt := Stamp(status == SENT_TO_DESTINATION, now, r.sentAt),
       completedAt := Stamp(status == COMPLETED, now, r.completedAt),
       failedAt := Stamp(status == FAILED, now, r.failedAt),
       compensatedAt := Stamp(status == COMPENSATED, now, r.compensatedAt),
       deadLetterAt := Stamp(status == DEAD_LETTER, now, r.deadLetterAt))
  }

  /** UPDATE_PAYMENT_CANONICAL_PAYLOAD */
  function WithCanonical(r: Row, canonical: Payload, status: Status, now: Time): Row {
    r.(canonical := Some(canonical), status := status, canonicalizedAt := Some(now))
  }

  /** UPDATE_PAYMENT_ROUTE */
  function WithRoute(r: Row, destination: Rail, rule: string, status: Status, now: Time): Row {
    r.(destination := Some(destination), routeRule := Some(rule), status := status, routedAt := Some(now))
  }

  /** UPDATE_PAYMENT_TRANSLATED_PAYLOAD */
  function WithTranslated(r: Row, translated: Payload): Row {
    r.(translated := Some(translated))
  }

  /** UPDATE_RAIL_ACK */
  function WithRailAck(r: Row, ack: RailAck, status: Status, now: Time): Row {
    r.(railAck := Some(ack), status := status, ackedAt := Some(now),
       completedAt := Stamp(status == COMPLETED, now, r.completedAt))
  }

  // ---------- created_at order ----------

  /** `id` placed after every payment that was not created later. */
  function Place(listing: seq<PaymentId>, rows: Rows, id: PaymentId, createdAt: Time): seq<PaymentId> {
    if listing == [] then [id]
    else if listing[0] in rows && rows[listing[0]].createdAt <= createdAt then
      [listing[0]] + Place(listing[1..], rows, id, createdAt)
    else [id] + listing
  }

  /** The payments of `listing` whose status is wanted, in order. */
  function Select(listing: seq<PaymentId>, rows: Rows, wanted: set<Status>): seq<PaymentId> {
    if listing == [] then []
    else (if listing[0] in rows && rows[listing[0]].status in wanted then [listing[0]] else [])
         + Select(listing[1..], rows, wanted)
  }

  lemma {:induction false} SelectMembers(listing: seq<PaymentId>, rows: Rows, wanted: set<Status>, id: PaymentId)
    ensures id in Select(listing, rows, wanted) <==> id in listing && id in rows && rows[id].status in wanted
  {
    if listing != [] {
      SelectMembers(listing[1..], rows, wanted, id);
      assert listing == [listing[0]] + listing[1..];
    }
  }

  lemma SelectStep(listing: seq<PaymentId>, rows: Rows, wanted: set<Status>, i: nat)
    requires i < |listing|
    ensures Select(listing[i..], rows, wanted)
         == (if listing[i] in rows && rows[listing[i]].status in wanted then [listing[i]] else [])
            + Select(listing[i + 1..], rows, wanted)
  {
    assert listing[i..][1..] == listing[i + 1..];
  }

  predicate SortedByCreation(listing: seq<PaymentId>, rows: Rows) {
    forall i, j :: 0 <= i < j < |listing| && listing[i] in rows && listing[j] in rows
      ==> rows[listing[i]].createdAt <= rows[listing[j]].createdAt
  }

  /** The listing names each stored payment once, oldest first. */
  ghost predicate ListingOf(listing: seq<PaymentId>, rows: Rows) {
    && Distinct(listing) && SortedByCreation(listing, rows)
    && forall id :: id in listing <==> id in rows
  }

  lemma {:induction false} PlaceMembers(listing: seq<PaymentId>, rows: Rows, id: PaymentId, createdAt: Time)
    ensures forall x :: x in Place(listing, rows, id, createdAt) <==> x == id || x in listing
  {
    if listing != [] {
      PlaceMembers(listing[1..], rows, id, createdAt);
      assert listing == [listing[0]] + listing[1..];
    }
  }

  predicate CreatedFrom(listing: seq<PaymentId>, rows: Rows, earliest: Time) {
    forall i :: 0 <= i < |listing| && listing[i] in rows ==> rows[listing[i]].createdAt >= earliest
  }

  /** A listing headed by its earliest payment, which occurs once. */
  lemma OrderedCons(head: PaymentId, rest: seq<PaymentId>, rows: Rows)
    requires head in rows && head !in rest && Distinct(rest) && SortedByCreation(rest, rows)
    requires CreatedFrom(rest, rows, rows[head].createdAt)
    ensures Distinct([head] + rest) && SortedByCreation([head] + rest, rows)
  {
    var all := [head] + rest;
    forall i, j | 0 <= i < j < |all|
      ensures all[i] != all[j]
      ensures all[i] in rows && all[j] in rows ==>
        rows[all[i]].createdAt <= rows[all[j]].createdAt
    {
      assert all[j] == rest[j - 1] && rest[j - 1] in rest;
      if i > 0 { assert all[i] == rest[i - 1]; }
    }
  }

  lemma OrderedTail(listing: seq<PaymentId>, rows: Rows)
    requires listing != [] && Distinct(listing) && SortedByCreation(listing, rows) && listing[0] in rows
    ensures Distinct(listing[1..]) && SortedByCreation(listing[1..], rows) && listing[0] !in listing[1..]
    ensures CreatedFrom(listing[1..], rows, rows[listing[0]].createdAt)
  {
    assert forall i :: 0 <= i < |listing| - 1 ==> listing[1..][i] == listing[i + 1];
  }

  lemma {:induction false} PlaceFrom(listing: seq<PaymentId>, rows: Rows, id: PaymentId, row: Row, earliest: Time)
    requires CreatedFrom(listing, rows, earliest) && row.createdAt >= earliest
    ensures CreatedFrom(Place(listing, rows, id, row.createdAt), rows[id := row], earliest)
  {
    if listing != [] {
      assert forall i :: 0 <= i < |listing| - 1 ==> listing[1..][i] == listing[i + 1];
      PlaceFrom(listing[1..], rows, id, row, earliest);
    }
  }

  lemma AddRow(listing: seq<PaymentId>, rows: Rows, id: PaymentId, row: Row, earliest: Time)
    requires id !in listing && SortedByCreation(listing, rows)
    ensures SortedByCreation(listing, rows[id := row])
    ensures CreatedFrom(listing, rows, earliest) ==> CreatedFrom(listing, rows[id := row], earliest)
  {
    assert forall i :: 0 <= i < |listing| ==> listing[i] in listing;
  }

  lemma SortedFrom(listing: seq<PaymentId>, rows: Rows, earliest: Time)
    requires listing != [] && SortedByCreation(listing, rows) && listing[0] in rows
    requires rows[listing[0]].createdAt >= earliest
    ensures CreatedFrom(listing, rows, earliest)
  {
  }

  /** A new payment is placed behind all that were not created later and before all that were. */
  lemma {:induction false} PlacedLastOfEquals(listing: seq<PaymentId>, rows: Rows, id: PaymentId, createdAt: Time)
    returns (k: nat)
    requires SortedByCreation(listing, rows) && forall x :: x in listing ==> x in rows
    ensures k <= |listing| && Place(listing, rows, id, createdAt) == listing[..k] + [id] + listing[k..]
    ensures forall i :: 0 <= i < k ==> rows[listing[i]].createdAt <= createdAt
    ensures forall i :: k <= i < |listing| ==> rows[listing[i]].createdAt > createdAt
  {
    if listing == [] || rows[listing[0]].createdAt > createdAt {
      k := 0;
    } else {
      assert forall i :: 0 <= i < |listing| - 1 ==> listing[1..][i] == listing[i + 1];
      var j := PlacedLastOfEquals(listing[1..], rows, id, createdAt);
      k := j + 1;
      assert listing[..k] == [listing[0]] + listing[1..][..j] && listing[k..] == listing[1..][j..];
      assert forall i :: 1 <= i < |listing| ==> listing[i] == listing[1..][i - 1];
    }
  }

  /** Inserting a new payment keeps the listing in creation order. */
  lemma {:induction false} PlaceKeepsOrder(listing: seq<PaymentId>, rows: Rows, id: PaymentId, row: Row)
    requires Distinct(listing) && SortedByCreation(listing, rows) && id !in listing
    requires forall x :: x in listing ==> x in rows
    ensures Distinct(Place(listing, rows, id, row.createdAt))
    ensures SortedByCreation(Place(listing, rows, id, row.createdAt), rows[id := row])
  {
    if listing != [] {
      var head, rest := listing[0], listing[1..];
      assert listing == [head] + rest;
      if rows[head].createdAt <= row.createdAt {
        OrderedTail(listing, rows);
        PlaceKeepsOrder(rest, rows, id, row);
        PlaceMembers(rest, rows, id, row.createdAt);
        PlaceFrom(rest, rows, id, row, rows[head].createdAt);
        OrderedCons(head, Place(rest, rows, id, row.createdAt), rows[id := row]);
      } else {
        SortedFrom(listing, rows, row.createdAt);
        AddRow(listing, rows, id, row, row.createdAt);
        OrderedCons(id, listing, rows[id := row]);
      }
    }
  }

  /** The repository: the table and its rows in creation order. */
  class PaymentRepository {
    var rows: Rows
    var listing: seq<PaymentId>

    ghost predicate Valid()
      reads this
    {
      ListingOf(listing, rows)
    }

    constructor ()
      ensures Valid() && rows == map[]
    {
      rows, listing := map[], [];
    }

    method Create(id: PaymentId, createdAt: Time) returns (r: Result<Row, string>)
      requires Valid()
      modifies this
      ensures Valid()
      ensures id in old(rows) ==> r.Err? && rows == old(rows) && listing == old(listing)
      ensures id !in old(rows) ==> r == Ok(NewRow(createdAt)) && rows == old(rows)[id := NewRow(createdAt)]
      ensures id !in old(rows) ==> listing == Place(old(listing), old(rows), id, createdAt)
    {
      if id in rows {
        return Err("duplicate key value violates unique constraint");
      }
      PlaceKeepsOrder(listing, rows, id, NewRow(createdAt));
      PlaceMembers(listing, rows, id, createdAt);
      listing := Place(listing, rows, id, createdAt);
      rows := rows[id := NewRow(createdAt)];
      r := Ok(rows[id]);
    }

    method FindById(id: PaymentId) returns (r: Option<Row>)
      ensures r == if id in rows then Some(rows[id]) else None
    {
      r := if id in rows then Some(rows[id]) else None;
    }

    /** The write every update ends in: one row replaced, or nothing if there is no such row. */
    method Write(id: PaymentId, row: Row) returns (r: Result<Row, string>)
      requires Valid() && (id in rows ==> row.createdAt == rows[id].createdAt)
      modifies this`rows
      ensures Valid()
      ensures id in old(rows) ==> r == Ok(row) && rows == old(rows)[id := row]
      ensures id !in old(rows) ==> r.Err? && rows == old(rows)
    {
      if id !in rows {
        return Err("Payment not found");
      }
      rows := rows[id := row];
      r := Ok(row);
    }

    method UpdateStatus(id: PaymentId, status: Status, now: Time) returns (r: Result<Row, string>)
      requires Valid()
      modifies this`rows
      ensures Valid() && (r.Ok? <==> id in old(rows))
      ensures rows == if r.Ok? then old(rows)[id := WithStatus(old(rows)[id], status, now)] else old(rows)
    {
      if id !in rows {
        return Err("Payment not found");
      }
      r := Write(id, WithStatus(rows[id], status, now));
    }

    method UpdateCanonical(id: PaymentId, canonical: Payload, status: Status, now: Time)
      returns (r: Result<Row, string>)
      requires Valid()
      modifies this`rows
      ensures Valid() && (r.Ok? <==> id in old(rows))
      ensures rows == if r.Ok? then old(rows)[id := WithCanonical(old(rows)[id], canonical, status, now)]
                      else old(rows)
    {
      if id !in rows {
        return Err("Payment not found");
      }
      r := Write(id, WithCanonical(rows[id], canonical, status, now));
    }

    method UpdateRoute(id: PaymentId, destination: Rail, rule: string, status: Status, now: Time)
      returns (r: Result<Row, string>)
      requires Valid()
      modifies this`rows
      ensures Valid() && (r.Ok? <==> id in old(rows) && !AllSpace(destination) && !AllSpace(rule))
      ensures rows == if r.Ok? then old(rows)[id := WithRoute(old(rows)[id], destination, rule, status, now)]
                      else old(rows)
    {
      if AllSpace(destination) {
        return Err("Destination rail cannot be empty");
      }
      if AllSpace(rule) {
        return Err("Rule name cannot be empty");
      }
      if id !in rows {
        return Err("Payment not found");
      }
      r := Write(id, WithRoute(rows[id], destination, rule, status, now));
    }

    method UpdateTranslated(id: PaymentId, translated: Payload) returns (r: Result<Row, string>)
      requires Valid()
      modifies this`rows
      ensures Valid() && (r.Ok? <==> id in old(rows) && translated != "")
      ensures rows == if r.Ok? then old(rows)[id := WithTranslated(old(rows)[id], translated)] else old(rows)
    {
      if translated == "" {
        return Err("Translated payload cannot be empty");
      }
      if id !in rows {
        return Err("Payment not found");
      }
      r := Write(id, WithTranslated(rows[id], translated));
    }

    method UpdateRailAck(id: PaymentId, ack: RailAck, status: Status, now: Time) returns (r: Result<Row, string>)
      requires Valid()
      modifies this`rows
      ensures Valid() && (r.Ok? <==> id in old(rows))
      ensures rows == if r.Ok? then old(rows)[id := WithRailAck(old(rows)[id], ack, status, now)] else old(rows)
    {
      if id !in rows {
        return Err("Payment not found");
      }
      r := Write(id, WithRailAck(rows[id], ack, status, now));
    }

    /** The oldest payments with one of the given statuses, at most `limit` of them. */
    method FindByStatuses(wanted: set<Status>, limit: nat) returns (ids: seq<PaymentId>)
      ensures ids == Firsts(Select(listing, rows, wanted), limit)
    {
      ids := [];
      var i := 0;
      assert listing[0..] == listing;
      while i < |listing| && |ids| < limit
        invariant 0 <= i <= |listing| && |ids| <= limit
        invariant Select(listing, rows, wanted) == ids + Select(listing[i..], rows, wanted)
      {
        SelectStep(listing, rows, wanted, i);
        ghost var rest := Select(listing[i + 1..], rows, wanted);
        if listing[i] in rows && rows[listing[i]].status in wanted {
          assert ids + ([listing[i]] + rest) == (ids + [listing[i]]) + rest;
          ids := ids + [listing[i]];
        } else {
          assert [] + rest == rest;
        }
        i := i + 1;
      }
      FirstsAre(ids, Select(listing[i..], rows, wanted), limit);
    }
  }

  lemma FirstsAre<T>(taken: seq<T>, rest: seq<T>, limit: nat)
    requires |taken| <= limit && (rest == [] || |taken| == limit)
    ensures taken == Firsts(taken + rest, limit)
  {
    if |taken| == limit {
      assert (taken + rest)[..limit] == taken;
    }
    if rest == [] {
      assert taken + rest == taken;
    }
  }

  function Firsts<T>(s: seq<T>, limit: nat): seq<T> {
    if |s| <= limit then s else s[..limit]
  }
}
