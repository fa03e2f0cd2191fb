/** The outbox table (migrations 0002 - 0004, 0006) and the statements of internal/outbox/store.go. */
module Outbox {
  import opened Base

  const DEFAULT_BATCH: nat := 50
  const DEFAULT_TIMEOUT: int := 30 * SECOND

  datatype Payload = Payload(ticketId: string, title: string, status: string, createdAt: int, requestId: string)

  datatype Status = Pending | Processing | Sent | Failed {
    predicate Terminal() {
      Sent? || Failed?
    }
  }

  /** The columns that no statement ever changes after the insert. */
  datatype Fields = Fields(
    eventId: string, aggregate: string, aggregateId: string, eventType: string, payload: Payload, createdAt: int)

  datatype Row = Row(
    fields: Fields, status: Status, attempts: nat, nextRetryAt: int, startedAt: Option<int>,
    lastError: Option<string>, sentAt: Option<int>, failedAt: Option<int>, updatedAt: int)

  type Table = map<nat, Row>

  /** What a claim returns of a row. */
  datatype Event = Event(id: nat, fields: Fields, attempts: nat)

  function EventOf(id: nat, row: Row): Event {
    Event(id, row.fields, row.attempts)
  }

  /** The column defaults of an inserted row. */
  function NewRow(fields: Fields, now: int): Row {
    Row(fields, Pending, 0, now, None, None, None, None, now)
  }

  function Limit(batchSize: int): (limit: nat)
    ensures limit > 0
  {
    if batchSize <= 0 then DEFAULT_BATCH else batchSize
  }

  function Timeout(processingTimeout: int): (timeout: int)
    ensures timeout > 0
  {
    if processingTimeout <= 0 then DEFAULT_TIMEOUT else processingTimeout
  }

  // The statements, row by row.

  predicate Stuck(row: Row, now: int, timeout: int) {
    row.status.Processing? && row.startedAt.Some? && row.startedAt.value < now - timeout
  }

  predicate Due(row: Row, now: int) {
    row.status.Pending? && row.nextRetryAt <= now
  }

  function Unstick(row: Row, now: int): Row {
    row.(status := Pending, startedAt := None, nextRetryAt := now, lastError := Some("processing timeout"))
  }

  function Take(row: Row, now: int): Row {
    row.(status := Processing, startedAt := Some(now), attempts := row.attempts + 1, updatedAt := now)
  }

  function SetSent(row: Row, now: int): Row {
    row.(status := Sent, sentAt := Some(now), startedAt := None, lastError := None, updatedAt := now)
  }

  function SetPending(row: Row, nextRetryAt: int, message: string, now: int): Row {
    row.(status := Pending, startedAt := None, nextRetryAt := nextRetryAt, lastError := Some(message), updatedAt := now)
  }

  function SetFailed(row: Row, message: string, now: int): Row {
    row.(status := Failed, failedAt := if row.failedAt.Some? then row.failedAt else Some(now),
         startedAt := None, lastError := Some(message), updatedAt := now)
  }

  // The statements on the whole table.

  function UnstickAll(rows: Table, now: int, timeout: int): Table {
    map id | id in rows :: if Stuck(rows[id], now, timeout) then Unstick(rows[id], now) else rows[id]
  }

  function TakeAll(rows: Table, ids: seq<nat>, now: int): Table {
    map id | id in rows :: if id in ids then Take(rows[id], now) else rows[id]
  }

  /** `WHERE id = $1` and nothing else: the row's status and attempts are not looked at. */
  function Put(rows: Table, id: nat, row: Row): Table {
    if id in rows then rows[id := row] else rows
  }

  function DueIds(rows: Table, now: int): set<nat> {
    set id | id in rows && Due(rows[id], now)
  }

  /** What `ORDER BY created_at LIMIT n FOR UPDATE SKIP LOCKED` may select: due rows that nobody
      else holds locked, at most n of them, and none is left out for a younger one. */
  predicate Selects(rows: Table, now: int, limit: nat, locked: set<nat>, ids: seq<nat>) {
    var available := DueIds(rows, now) - locked;
    && NoDup(ids)
    && |ids| <= limit
    && (forall id :: id in ids ==> id in available)
    && (forall id, p :: id in available && id !in ids && p in ids ==> rows[p].fields.createdAt <= rows[id].fields.createdAt)
    && (|ids| < limit ==> available <= Elements(ids))
  }

  lemma {:induction false} OldestExists(rows: Table, ids: set<nat>) returns (oldest: nat)
    requires ids != {} && ids <= rows.Keys
    ensures oldest in ids
    ensures forall id :: id in ids ==> rows[oldest].fields.createdAt <= rows[id].fields.createdAt
    decreases |ids|
  {
    var some :| some in ids;
    if ids == {some} {
      oldest := some;
    } else {
      var rest := ids - {some};
      assert rest != {};
      var other := OldestExists(rows, rest);
      oldest := if rows[some].fields.createdAt <= rows[other].fields.createdAt then some else other;
    }
  }

  /** What a claim may select, said of the columns: pending rows whose retry time has come and that nobody else holds locked, at
      most n of them, none of them younger than one left out, and none left out while there is room. */
  ghost predicate Picks(rows: Table, now: int, n: int, locked: set<nat>, ids: seq<nat>) {
    && (forall i, j :: 0 <= i < j < |ids| ==> ids[i] != ids[j])
    && |ids| <= n
    && (forall id :: id in ids ==> id in rows && id !in locked && rows[id].status == Pending && rows[id].nextRetryAt <= now)
    && (forall id, p ::
          id in rows && id !in locked && rows[id].status == Pending && rows[id].nextRetryAt <= now && id !in ids && p in ids ==>
          rows[p].fields.createdAt <= rows[id].fields.createdAt)
    && (|ids| < n ==>
          forall id :: id in rows && id !in locked && rows[id].status == Pending && rows[id].nextRetryAt <= now ==> id in ids)
  }

  lemma PicksExactly(rows: Table, now: int, limit: nat, locked: set<nat>, ids: seq<nat>)
    ensures Picks(rows, now, limit, locked, ids) <==> Selects(rows, now, limit, locked, ids)
  {
    var available := DueIds(rows, now) - locked;
    forall id: nat
      ensures id in available <==> id in rows && id !in locked && rows[id].status == Pending && rows[id].nextRetryAt <= now
    {
    }
    forall id: nat
      ensures id in Elements(ids) <==> id in ids
    {
    }
    if Picks(rows, now, limit, locked, ids) {
      PicksSelects(rows, now, limit, locked, ids);
    }
  }

  lemma PicksSelects(rows: Table, now: int, limit: nat, locked: set<nat>, ids: seq<nat>)
    requires Picks(rows, now, limit, locked, ids)
    ensures Selects(rows, now, limit, locked, ids)
  {
    var available := DueIds(rows, now) - locked;
    if |ids| < limit {
      forall id | id in available
        ensures id in Elements(ids)
      {
        assert id in ids;
      }
    }
  }

  /** The reset, said of the columns, is the reset of the protocol. */
  lemma ResetsExactly(rows: Table, rows': Table, processingTimeout: int, now: int)
    requires rows'.Keys == rows.Keys
    requires forall id :: id in rows ==>
      var row := rows[id];
      var timeout := if processingTimeout > 0 then processingTimeout else 30_000_000;
      if row.status == Processing && row.startedAt.Some? && row.startedAt.value < now - timeout
      then rows'[id] == row.(status := Pending, startedAt := None, nextRetryAt := now, lastError := Some("processing timeout"))
      else rows'[id] == row
    ensures rows' == UnstickAll(rows, now, Timeout(processingTimeout))
  {
  }

  /** The claim, said of the columns, is the claim of the protocol. */
  lemma TakesExactly(rows: Table, rows': Table, ids: seq<nat>, now: int)
    requires rows'.Keys == rows.Keys
    requires forall id :: id in rows ==>
      var row := rows[id];
      if id in ids
      then rows'[id] == row.(status := Processing, startedAt := Some(now), attempts := row.attempts + 1, updatedAt := now)
      else rows'[id] == row
    ensures rows' == TakeAll(rows, ids, now)
  {
  }

  /** A statement as it is sent: each of the five methods below sends one of its own kind. */
  datatype Statement =
    | ToReset(timeout: int)
    | ToClaim(limit: nat)
    | ToSent(id: nat)
    | ToPending(id: nat, nextRetryAt: int, message: string)
    | ToFailed(id: nat, message: string)

  datatype Request = Request(statement: Statement, at: int, call: Call)

  /** internal/outbox/store.go. Each method takes the time at the database and how the call ends.
      `sent` records what this store has sent to the database. */
  class Store {
    var rows: Table
    ghost var sent: seq<Request>

    constructor ()
      ensures rows == map[] && sent == []
    {
      rows, sent := map[], [];
    }

    method ResetStuck(processingTimeout: int, now: int, call: Call) returns (ok: bool, affected: nat)
      modifies this
      ensures ok == call.Succeeded?
      ensures sent == old(sent) + [Request(ToReset(if processingTimeout > 0 then processingTimeout else 30_000_000), now, call)]
      ensures rows.Keys == old(rows).Keys
      ensures forall id :: id in old(rows) ==>
        var row := old(rows)[id];
        var timeout := if processingTimeout > 0 then processingTimeout else 30_000_000;
        if call.Applied() && row.status == Processing && row.startedAt.Some? && row.startedAt.value < now - timeout
        then rows[id] == row.(status := Pending, startedAt := None, nextRetryAt := now, lastError := Some("processing timeout"))
        else rows[id] == row
      ensures
        var timeout := if processingTimeout > 0 then processingTimeout else 30_000_000;
        var overdue := set id | id in old(rows) && old(rows)[id].status == Processing && old(rows)[id].startedAt.Some?
                                && old(rows)[id].startedAt.value < now - timeout;
        affected == if ok then |overdue| else 0
    {
      sent := sent + [Request(ToReset(Timeout(processingTimeout)), now, call)];
      var timeout := if processingTimeout <= 0 then 30 * SECOND else processingTimeout;
      var stuck := set id | id in rows && Stuck(rows[id], now, timeout);
      ghost var bound := if processingTimeout > 0 then processingTimeout else 30_000_000;
      assert stuck == set id | id in rows && rows[id].status == Processing && rows[id].startedAt.Some?
                               && rows[id].startedAt.value < now - bound;
      if !call.FailedBefore? {
        rows := map id | id in rows :: if id in stuck then Unstick(rows[id], now) else rows[id];
      }
      ok := call.Succeeded?;
      affected := if ok then |stuck| else 0;
    }

    /** `ids` is the selection the statement made, in the order the rows were returned. */
    method ClaimPending(batchSize: int, now: int, locked: set<nat>, call: Call)
      returns (ok: bool, out: seq<Event>, ids: seq<nat>)
      modifies this
      ensures ok == call.Succeeded?
      ensures sent == old(sent) + [Request(ToClaim(if batchSize > 0 then batchSize else 50), now, call)]
      ensures Picks(old(rows), now, if batchSize > 0 then batchSize else 50, locked, ids)
      ensures rows.Keys == old(rows).Keys
      ensures forall id :: id in old(rows) ==>
        var row := old(rows)[id];
        if call.Applied() && id in ids
        then rows[id] == row.(status := Processing, startedAt := Some(now), attempts := row.attempts + 1, updatedAt := now)
        else rows[id] == row
      ensures |out| == if ok then |ids| else 0
      ensures forall i :: 0 <= i < |out| ==>
        && out[i].id == ids[i]
        && out[i].fields == old(rows)[ids[i]].fields
        && out[i].attempts == old(rows)[ids[i]].attempts + 1
    {
      sent := sent + [Request(ToClaim(Limit(batchSize)), now, call)];
      var limit: nat := if batchSize <= 0 then 50 else batchSize;
      var picked := Select(limit, now, locked);
      ids := picked;
      if !call.FailedBefore? {
        rows := map id | id in rows :: if id in picked then Take(rows[id], now) else rows[id];
      }
      out := [];
      ok := call.Succeeded?;
      if ok {
        var i := 0;
        while i < |picked|
          invariant 0 <= i <= |picked| && |out| == i
          invariant forall id :: id in picked ==> id in rows
          invariant forall j :: 0 <= j < i ==> picked[j] in rows && out[j] == EventOf(picked[j], rows[picked[j]])
          invariant forall j :: 0 <= j < i ==> picked[j] in picked
        {
          out := out + [EventOf(picked[i], rows[picked[i]])];
          i := i + 1;
        }
      }
    }

    /** The subquery of the claim: due and unlocked rows, oldest first, at most `limit`. */
    method Select(limit: nat, now: int, locked: set<nat>) returns (picked: seq<nat>)
      ensures Picks(rows, now, limit, locked, picked)
    {
      var available := (set id | id in rows && Due(rows[id], now)) - locked;
      picked := [];
      var left := available;
      while |picked| < limit && left != {}
        invariant NoDup(picked) && |picked| <= limit
        invariant left <= available && forall id :: id in available ==> (id in picked <==> id !in left)
        invariant forall id :: id in picked ==> id in available
        invariant forall id, p :: id in left && p in picked ==> rows[p].fields.createdAt <= rows[id].fields.createdAt
        decreases |left|
      {
        ghost var oldest := OldestExists(rows, left);
        var id :| id in left && forall other :: other in left ==> rows[id].fields.createdAt <= rows[other].fields.createdAt;
        picked := picked + [id];
        left := left - {id};
      }
    }

    method MarkSent(id: nat, now: int, call: Call) returns (ok: bool)
      modifies this
      ensures ok == call.Succeeded?
      ensures sent == old(sent) + [Request(ToSent(id), now, call)]
      ensures rows ==
        if call.Applied() && id in old(rows)
        then old(rows)[id := old(rows)[id].(status := Sent, sentAt := Some(now), startedAt := None, lastError := None, updatedAt := now)]
        else old(rows)
    {
      sent := sent + [Request(ToSent(id), now, call)];
      if !call.FailedBefore? && id in rows {
        rows := rows[id := SetSent(rows[id], now)];
      }
      ok := call.Succeeded?;
    }

    method MarkFailed(id: nat, nextRetryAt: int, message: string, now: int, call: Call) returns (ok: bool)
      modifies this
      ensures ok == call.Succeeded?
      ensures sent == old(sent) + [Request(ToPending(id, nextRetryAt, message), now, call)]
      ensures rows ==
        if call.Applied() && id in old(rows)
        then old(rows)[id := old(rows)[id].(
               status := Pending, startedAt := None, nextRetryAt := nextRetryAt, lastError := Some(message), updatedAt := now)]
        else old(rows)
    {
      sent := sent + [Request(ToPending(id, nextRetryAt, message), now, call)];
      if !call.FailedBefore? && id in rows {
        rows := rows[id := SetPending(rows[id], nextRetryAt, message, now)];
      }
      ok := call.Succeeded?;
    }

    method MarkDead(id: nat, message: string, now: int, call: Call) returns (ok: bool)
      modifies this
      ensures ok == call.Succeeded?
      ensures sent == old(sent) + [Request(ToFailed(id, message), now, call)]
      ensures rows ==
        if call.Applied() && id in old(rows)
        then old(rows)[id := old(rows)[id].(
               status := Failed, failedAt := if old(rows)[id].failedAt.Some? then old(rows)[id].failedAt else Some(now),
               startedAt := None, lastError := Some(message), updatedAt := now)]
        else old(rows)
    {
      sent := sent + [Request(ToFailed(id, message), now, call)];
      if !call.FailedBefore? && id in rows {
        rows := rows[id := SetFailed(rows[id], message, now)];
      }
      ok := call.Succeeded?;
    }
  }
}
