/** The processed_events table (migrations 0005 and 0007) and the statements of internal/notify/store.go. */
module ProcessedEvents {
  import opened Base
  import opened Outbox
  import opened Events

  datatype Standing = InProgress | Done | Dead {
    predicate Final() {
      Done? || Dead?
    }
  }

  datatype Processed = Processed(
    eventType: string, aggregate: string, aggregateId: string, payload: Payload, standing: Standing, attempts: nat,
    lastError: Option<string>, processedAt: Option<int>, failedAt: Option<int>, updatedAt: int)

  type Ledger = map<string, Processed>

  predicate Settles(ledger: Ledger, eventId: string) {
    eventId in ledger && ledger[eventId].standing.Final()
  }

  /** The upsert: insert with one attempt, or on conflict count an attempt unless the row is done or failed. */
  function Started(ledger: Ledger, e: Envelope, now: int): Ledger {
    if e.eventId !in ledger then
      ledger[e.eventId := Processed(e.eventType, e.aggregate, e.aggregateId, e.payload, InProgress, 1, None, None, None, now)]
    else
      var row := ledger[e.eventId];
      if row.standing.Final() then ledger[e.eventId := row.(updatedAt := now)]
      else ledger[e.eventId := row.(standing := InProgress, attempts := row.attempts + 1, updatedAt := now)]
  }

  // The updates match on event_id and nothing else.

  function SetDone(ledger: Ledger, eventId: string, now: int): Ledger {
    if eventId in ledger
    then ledger[eventId := ledger[eventId].(standing := Done, processedAt := Some(now), lastError := None, updatedAt := now)]
    else ledger
  }

  function SetInProgress(ledger: Ledger, eventId: string, message: string, now: int): Ledger {
    if eventId in ledger
    then ledger[eventId := ledger[eventId].(standing := InProgress, lastError := Some(message), updatedAt := now)]
    else ledger
  }

  function SetDead(ledger: Ledger, eventId: string, message: string, now: int): Ledger {
    if eventId in ledger then
      var row := ledger[eventId];
      ledger[eventId := row.(standing := Dead, failedAt := if row.failedAt.Some? then row.failedAt else Some(now),
                             lastError := Some(message), updatedAt := now)]
    else ledger
  }

  /** A statement as it is sent: each of the four methods below sends one of its own kind. */
  datatype Command =
    | ToStart(envelope: Envelope)
    | ToDone(eventId: string)
    | ToInProgress(eventId: string, message: string)
    | ToDead(eventId: string, message: string)

  datatype Issued = Issued(command: Command, call: Call)

  /** internal/notify/store.go. Each method takes the time at the database and how the call ends.
      `sent` records what this store has sent to the database. */
  class NotifyStore {
    var ledger: Ledger
    ghost var sent: seq<Issued>

    constructor ()
      ensures ledger == map[] && sent == []
    {
      ledger, sent := map[], [];
    }

    method StartProcessing(e: Envelope, now: int, call: Call) returns (ok: bool, shouldProcess: bool, attempts: nat)
      modifies this
      ensures ok == call.Succeeded?
      ensures sent == old(sent) + [Issued(ToStart(e), call)]
      ensures ledger.Keys == old(ledger).Keys + (if call.Applied() then {e.eventId} else {})
      ensures forall id :: id in old(ledger) && !(call.Applied() && id == e.eventId) ==> ledger[id] == old(ledger)[id]
      ensures call.Applied() && e.eventId !in old(ledger) ==>
        ledger[e.eventId] == Processed(e.eventType, e.aggregate, e.aggregateId, e.payload, InProgress, 1, None, None, None, now)
      ensures call.Applied() && e.eventId in old(ledger) ==>
        var row := old(ledger)[e.eventId];
        ledger[e.eventId] ==
          if row.standing == Done || row.standing == Dead then row.(updatedAt := now)
          else row.(standing := InProgress, attempts := row.attempts + 1, updatedAt := now)
      ensures ok ==>
        && (shouldProcess <==> e.eventId !in old(ledger) || old(ledger)[e.eventId].standing == InProgress)
        && e.eventId in ledger && attempts == ledger[e.eventId].attempts
      ensures !ok ==> !shouldProcess && attempts == 0
    {
      sent := sent + [Issued(ToStart(e), call)];
      if !call.FailedBefore? {
        if e.eventId !in ledger {
          ledger := ledger[e.eventId := Processed(e.eventType, e.aggregate, e.aggregateId, e.payload, InProgress, 1, None, None, None, now)];
        } else {
          var row := ledger[e.eventId];
          var final := row.standing.Done? || row.standing.Dead?;
          ledger := ledger[e.eventId := row.(
            attempts := if final then row.attempts else row.attempts + 1,
            standing := if final then row.standing else InProgress,
            updatedAt := now)];
        }
      }
      ok := call.Succeeded?;
      shouldProcess, attempts := false, 0;
      if ok {
        shouldProcess := !(ledger[e.eventId].standing.Done? || ledger[e.eventId].standing.Dead?);
        attempts := ledger[e.eventId].attempts;
      }
    }

    method MarkDone(eventId: string, now: int, call: Call) returns (ok: bool)
      modifies this
      ensures ok == call.Succeeded?
      ensures sent == old(sent) + [Issued(ToDone(eventId), call)]
      ensures ledger ==
        if call.Applied() && eventId in old(ledger)
        then old(ledger)[eventId := old(ledger)[eventId].(standing := Done, processedAt := Some(now), lastError := None, updatedAt := now)]
        else old(ledger)
    {
      sent := sent + [Issued(ToDone(eventId), call)];
      if !call.FailedBefore? && eventId in ledger {
        ledger := ledger[eventId := ledger[eventId].(standing := Done, processedAt := Some(now), lastError := None, updatedAt := now)];
      }
      ok := call.Succeeded?;
    }

    method MarkFailed(eventId: string, message: string, now: int, call: Call) returns (ok: bool)
      modifies this
      ensures ok == call.Succeeded?
      ensures sent == old(sent) + [Issued(ToInProgress(eventId, message), call)]
      ensures ledger ==
        if call.Applied() && eventId in old(ledger)
        then old(ledger)[eventId := old(ledger)[eventId].(standing := InProgress, lastError := Some(message), updatedAt := now)]
        else old(ledger)
    {
      sent := sent + [Issued(ToInProgress(eventId, message), call)];
      if !call.FailedBefore? && eventId in ledger {
        ledger := ledger[eventId := ledger[eventId].(standing := InProgress, lastError := Some(message), updatedAt := now)];
      }
      ok := call.Succeeded?;
    }

    method MarkDead(eventId: string, message: string, now: int, call: Call) returns (ok: bool)
      modifies this
      ensures ok == call.Succeeded?
      ensures sent == old(sent) + [Issued(ToDead(eventId, message), call)]
      ensures ledger ==
        if call.Applied() && eventId in old(ledger)
        then old(ledger)[eventId := old(ledger)[eventId].(
               standing := Dead, failedAt := if old(ledger)[eventId].failedAt.Some? then old(ledger)[eventId].failedAt else Some(now),
               lastError := Some(message), updatedAt := now)]
        else old(ledger)
    {
      sent := sent + [Issued(ToDead(eventId, message), call)];
      if !call.FailedBefore? && eventId in ledger {
        var row := ledger[eventId];
        ledger := ledger[eventId := row.(standing := Dead, failedAt := if row.failedAt.Some? then row.failedAt else Some(now),
                                         lastError := Some(message), updatedAt := now)];
      }
      ok := call.Succeeded?;
    }
  }
}
