/** internal/ticket/store_postgres.go: a ticket and its outbox row in one transaction. */
module Tickets {
  import opened Base
  import opened Outbox
  import opened Events

  datatype Ticket = Ticket(id: string, title: string, description: string, status: string, createdAt: int, updatedAt: int)

  /** The inserted outbox columns; the event id and created_at are column defaults. */
  function FieldsOf(ticket: Ticket, requestId: string, eventId: string, now: int): Fields {
    Fields(eventId, "ticket", ticket.id, TICKET_CREATED,
           Payload(ticket.id, ticket.title, ticket.status, ticket.createdAt, requestId), now)
  }

  /** The primary keys and the unique index on outbox.event_id let this pair of rows in. */
  predicate Fresh(tickets: map<string, Ticket>, rows: Table, ticketId: string, id: nat, eventId: string) {
    && ticketId !in tickets
    && id !in rows
    && forall other :: other in rows ==> rows[other].fields.eventId != eventId
  }

  datatype Created = Stored(ticket: Ticket) | Error

  class Database {
    var tickets: map<string, Ticket>
    const outbox: Store

    constructor (outbox: Store)
      ensures tickets == map[] && this.outbox == outbox
    {
      this.outbox := outbox;
      tickets := map[];
    }

    /** `serial` and `eventId` are what the column defaults produce; `begins`, `marshals`, `ticketIn` and `rowIn`
        say which of the earlier calls succeed. */
    method Create(ticket: Ticket, requestId: string, serial: nat, eventId: string, now: int,
                  begins: bool, ticketIn: bool, marshals: bool, rowIn: bool, commit: Call)
      returns (result: Created)
      modifies this, outbox`rows
      ensures
        var unique := && ticket.id !in old(tickets) && serial !in old(outbox.rows)
                      && forall other :: other in old(outbox.rows) ==> old(outbox.rows)[other].fields.eventId != eventId;
        var stored := begins && ticketIn && marshals && rowIn && unique && commit.Applied();
        && (result == if stored && commit.Succeeded? then Stored(ticket) else Error)
        && tickets == (if stored then old(tickets)[ticket.id := ticket] else old(tickets))
        && outbox.rows.Keys == old(outbox.rows).Keys + (if stored then {serial} else {})
        && (forall id :: id in old(outbox.rows) && !(stored && id == serial) ==> outbox.rows[id] == old(outbox.rows)[id])
        && (stored ==>
              var row := outbox.rows[serial];
              && row.fields.eventId == eventId && row.fields.createdAt == now
              && row.fields.aggregate == "ticket" && row.fields.aggregateId == ticket.id && row.fields.eventType == "ticket.created"
              && row.fields.payload == Payload(ticket.id, ticket.title, ticket.status, ticket.createdAt, requestId)
              && row.status == Pending && row.attempts == 0 && row.nextRetryAt == now && row.updatedAt == now
              && row.startedAt == row.sentAt == row.failedAt == None && row.lastError == None)
    {
      if !begins { return Error; }
      var txTickets, txRows := tickets, outbox.rows;

      if !ticketIn || ticket.id in txTickets { return Error; }
      txTickets := txTickets[ticket.id := ticket];

      if !marshals { return Error; }
      var payload := Payload(ticket.id, ticket.title, ticket.status, ticket.createdAt, requestId);

      if !rowIn || serial in txRows || exists other :: other in txRows && txRows[other].fields.eventId == eventId {
        return Error;
      }
      var fields := Fields(eventId, "ticket", ticket.id, TICKET_CREATED, payload, now);
      txRows := txRows[serial := Row(fields, Pending, 0, now, None, None, None, None, now)];

      if !commit.FailedBefore? {
        tickets, outbox.rows := txTickets, txRows;
      }
      return if commit.Succeeded? then Stored(ticket) else Error;
    }
  }
}
