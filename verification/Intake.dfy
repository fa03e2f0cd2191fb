/** internal/ticket/store_postgres.go:21-69 as a step of the protocol in Relays. */
module Intake {
  import opened Base
  import opened Tickets
  import opened Relays

  /** The transaction takes the step Create exactly if nothing in it fails, the keys are new and the commit takes effect, and
      otherwise leaves both tables as they were. The caller gets the ticket only after the step, and not always then. */
  method Submit(database: Database, cfg: Config, ghost s: State, ticket: Ticket, requestId: string, serial: nat, eventId: string, now: int,
                begins: bool, ticketIn: bool, marshals: bool, rowIn: bool, commit: Call)
    returns (result: Created, ghost s': State)
    requires database.tickets == s.tickets && database.outbox.rows == s.rows && now == s.now
    modifies database, database.outbox`rows
    ensures database.tickets == s'.tickets && database.outbox.rows == s'.rows
    ensures
      var step := Create(ticket, requestId, serial, eventId);
      if begins && ticketIn && marshals && rowIn && !commit.FailedBefore? && Enabled(cfg, s, step)
      then s' == Apply(cfg, s, step) else s' == s
    ensures result.Stored? ==> s' != s && result.ticket == ticket
  {
    result := database.Create(ticket, requestId, serial, eventId, now, begins, ticketIn, marshals, rowIn, commit);
    ghost var step := Create(ticket, requestId, serial, eventId);
    s' := s;
    if begins && ticketIn && marshals && rowIn && !commit.FailedBefore? && Enabled(cfg, s, step) {
      s' := Apply(cfg, s, step);
      assert database.outbox.rows[serial] == s'.rows[serial];
    }
    assert database.outbox.rows == s'.rows;
  }
}
