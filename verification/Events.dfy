/** The Kafka message built from an outbox row (internal/shared/events/envelope.go). */
module Events {
  import opened Outbox

  const TICKET_CREATED: string := "ticket.created"

  datatype Envelope = Envelope(
    eventId: string, eventType: string, occurredAt: int, aggregate: string, aggregateId: string,
    requestId: string, payload: Payload)

  datatype Message = Message(key: string, envelope: Envelope)

  /** The message says of the row what the consumer relies on, column by column. */
  ghost predicate Repeats(m: Message, f: Fields) {
    && m.key == f.aggregateId
    && m.envelope.eventId == f.eventId
    && m.envelope.eventType == f.eventType
    && m.envelope.occurredAt == f.createdAt
    && m.envelope.aggregate == f.aggregate
    && m.envelope.aggregateId == f.aggregateId
    && m.envelope.payload == f.payload
    && m.envelope.requestId == f.payload.requestId
  }

  /** The relay lifts the request id out of the payload and keys the message by the aggregate id. */
  function MessageOf(fields: Fields): (m: Message)
    ensures Repeats(m, fields)
  {
    Message(
      fields.aggregateId,
      Envelope(fields.eventId, fields.eventType, fields.createdAt, fields.aggregate, fields.aggregateId,
               fields.payload.requestId, fields.payload))
  }
}
