/** Where the messages of the topic come from, and what a sent or failed row says, in every run of every number of relays. */
module RelayCausality {
  import opened Base
  import opened Outbox
  import opened Events
  import opened Tickets
  import opened Relays
  import opened RelayCounting

  /** rowOf is a one-to-one correspondence between tickets and outbox rows, and the row repeats the ticket. */
  ghost predicate Paired(s: State) {
    && TicketsHaveRows(s.tickets, s.rowOf, s.rows)
    && RowsHaveTickets(s.tickets, s.rowOf, s.rows)
    && UniqueEvents(s.rows)
  }

  ghost predicate TicketsHaveRows(tickets: map<string, Ticket>, rowOf: map<string, nat>, rows: Table) {
    && rowOf.Keys == tickets.Keys
    && forall t :: t in rowOf ==> rowOf[t] in rows && rows[rowOf[t]].fields.aggregateId == t
  }

  ghost predicate RowsHaveTickets(tickets: map<string, Ticket>, rowOf: map<string, nat>, rows: Table) {
    forall id :: id in rows ==>
      && Describes(tickets, rows[id].fields)
      && rows[id].fields.aggregateId in rowOf
      && rowOf[rows[id].fields.aggregateId] == id
  }

  ghost predicate UniqueEvents(rows: Table) {
    forall a, b :: a in rows && b in rows && rows[a].fields.eventId == rows[b].fields.eventId ==> a == b
  }

  /** The row is that of a ticket, column by column. */
  ghost predicate Describes(tickets: map<string, Ticket>, f: Fields) {
    && f.aggregate == "ticket" && f.eventType == "ticket.created"
    && f.aggregateId in tickets
    && var ticket := tickets[f.aggregateId];
       && ticket.id == f.aggregateId
       && f.payload.ticketId == ticket.id
       && f.payload.title == ticket.title
       && f.payload.status == ticket.status
       && f.payload.createdAt == ticket.createdAt
  }

  lemma PairedStep(cfg: Config, s: State, step: Step)
    requires Paired(s) && Enabled(cfg, s, step)
    ensures Paired(Apply(cfg, s, step))
  {
    if step.Create? {
      PairedCreate(cfg, s, step);
    } else {
      GrowsStep(cfg, s, step);
      SameKeys(cfg, s, step);
    }
  }

  lemma SameKeys(cfg: Config, s: State, step: Step)
    requires Enabled(cfg, s, step) && !step.Create?
    ensures Apply(cfg, s, step).rows.Keys == s.rows.Keys
    ensures Apply(cfg, s, step).tickets == s.tickets
    ensures Apply(cfg, s, step).rowOf == s.rowOf
  {
  }

  lemma PairedCreate(cfg: Config, s: State, step: Step)
    requires Paired(s) && Enabled(cfg, s, step) && step.Create?
    ensures Paired(Apply(cfg, s, step))
  {
    var row := NewRow(FieldsOf(step.ticket, step.requestId, step.eventId, s.now), s.now);
    NewPair(s.tickets, s.rowOf, s.rows, step.ticket, step.id, row);
    NewEvent(s.rows, step.id, row);
  }

  lemma NewEvent(rows: Table, id: nat, row: Row)
    requires UniqueEvents(rows) && id !in rows && forall other :: other in rows ==> rows[other].fields.eventId != row.fields.eventId
    ensures UniqueEvents(rows[id := row])
  {
  }

  lemma NewPair(tickets: map<string, Ticket>, rowOf: map<string, nat>, rows: Table, ticket: Ticket, id: nat, row: Row)
    requires TicketsHaveRows(tickets, rowOf, rows) && RowsHaveTickets(tickets, rowOf, rows)
    requires ticket.id !in tickets && id !in rows
    requires row.fields == FieldsOf(ticket, row.fields.payload.requestId, row.fields.eventId, row.fields.createdAt)
    ensures TicketsHaveRows(tickets[ticket.id := ticket], rowOf[ticket.id := id], rows[id := row])
    ensures RowsHaveTickets(tickets[ticket.id := ticket], rowOf[ticket.id := id], rows[id := row])
  {
    forall other | other in rows
      ensures rows[other].fields.aggregateId != ticket.id && Describes(tickets[ticket.id := ticket], rows[other].fields)
    {
      assert Describes(tickets, rows[other].fields);
    }
  }

  ghost predicate Grounded(s: State) {
    && |s.origin| == |s.log|
    && (forall i :: 0 <= i < |s.log| ==> Sourced(s.rows, s.log[i], s.origin[i]))
  }

  ghost predicate Sourced(rows: Table, message: Message, id: nat) {
    id in rows && rows[id].attempts >= 1 && Repeats(message, rows[id].fields)
  }

  ghost predicate Honest(cfg: Config, s: State) {
    AckedInLog(s.rows, s.relays, s.log) && EndedRightly(cfg, s.rows, s.log)
  }

  /** A holder that counts its message as published has it in the topic. */
  ghost predicate AckedInLog(rows: Table, relays: map<nat, Relay>, log: seq<Message>) {
    forall r :: r in relays && relays[r].batch != [] && relays[r].phase.Acked? && relays[r].batch[0].id in rows ==>
      MessageOf(rows[relays[r].batch[0].id].fields) in log
  }

  ghost predicate EndedRightly(cfg: Config, rows: Table, log: seq<Message>) {
    && (forall id :: id in rows && rows[id].status.Sent? ==> MessageOf(rows[id].fields) in log)
    && (forall id :: id in rows && rows[id].status.Failed? ==> rows[id].attempts >= cfg.maxAttempts > 0)
  }

  lemma GroundedStep(cfg: Config, s: State, step: Step)
    requires WellFormed(s) && Grounded(s) && Enabled(cfg, s, step)
    ensures Grounded(Apply(cfg, s, step))
    ensures s.log <= Apply(cfg, s, step).log
  {
    GrowsStep(cfg, s, step);
    match step
    case Write(r, appended, acked, heals) => GroundedWrite(s, r, appended, acked, heals);
    case Land(id) => GroundedLand(cfg, s, id);
    case _ =>
      SameLog(cfg, s, step);
      GroundedGrows(s, Apply(cfg, s, step));
  }

  lemma SameLog(cfg: Config, s: State, step: Step)
    requires Enabled(cfg, s, step) && !step.Write? && !step.Land?
    ensures Apply(cfg, s, step).log == s.log && Apply(cfg, s, step).origin == s.origin
  {
  }

  lemma GroundedGrows(s: State, s': State)
    requires Grounded(s) && Grows(s.rows, s'.rows) && s'.log == s.log && s'.origin == s.origin
    ensures Grounded(s')
  {
    forall i | 0 <= i < |s'.log|
      ensures Sourced(s'.rows, s'.log[i], s'.origin[i])
    {
      assert Sourced(s.rows, s.log[i], s.origin[i]);
    }
  }

  lemma GroundedWrite(s: State, r: nat, appended: bool, acked: bool, heals: bool)
    requires WellFormed(s) && Grounded(s) && Busy(s, r)
    ensures Grounded(ApplyWrite(s, r, appended, acked, heals)) && s.log <= ApplyWrite(s, r, appended, acked, heals).log
  {
    assert Issued(s.rows, s.relays[r].batch[0]);
  }

  lemma GroundedLand(cfg: Config, s: State, id: nat)
    requires WellFormed(s) && Grounded(s) && Enabled(cfg, s, Land(id))
    ensures Grounded(Apply(cfg, s, Land(id))) && s.log <= Apply(cfg, s, Land(id)).log
  {
    assert RowOk(s.rows[id], s.history[id]);
  }

  lemma HonestStep(cfg: Config, s: State, step: Step)
    requires WellFormed(s) && Honest(cfg, s) && Enabled(cfg, s, step)
    requires s.log <= Apply(cfg, s, step).log && Grows(s.rows, Apply(cfg, s, step).rows)
    ensures Honest(cfg, Apply(cfg, s, step))
  {
    var s' := Apply(cfg, s, step);
    AckedStep(cfg, s, step);
    if step.Mark? {
      EndedMark(cfg, s, step);
    } else {
      OnlyMarksEnd(cfg, s, step);
      EndedKept(cfg, s.rows, s.log, s'.rows, s'.log);
    }
  }

  /** Only the Mark statements make a row sent or failed. */
  lemma OnlyMarksEnd(cfg: Config, s: State, step: Step)
    requires Enabled(cfg, s, step) && !step.Mark?
    ensures forall id :: id in Apply(cfg, s, step).rows && Apply(cfg, s, step).rows[id].status.Terminal() ==>
      id in s.rows && Apply(cfg, s, step).rows[id].status == s.rows[id].status
  {
  }

  lemma EndedKept(cfg: Config, rows: Table, log: seq<Message>, rows': Table, log': seq<Message>)
    requires EndedRightly(cfg, rows, log) && Grows(rows, rows') && log <= log'
    requires forall id :: id in rows' && rows'[id].status.Terminal() ==> id in rows && rows'[id].status == rows[id].status
    ensures EndedRightly(cfg, rows', log')
  {
  }

  lemma EndedMark(cfg: Config, s: State, step: Step)
    requires WellFormed(s) && Honest(cfg, s) && Enabled(cfg, s, step) && step.Mark?
    ensures EndedRightly(cfg, Apply(cfg, s, step).rows, Apply(cfg, s, step).log)
  {
    assert Issued(s.rows, s.relays[step.r].batch[0]);
  }

  lemma AckedStep(cfg: Config, s: State, step: Step)
    requires WellFormed(s) && AckedInLog(s.rows, s.relays, s.log) && Enabled(cfg, s, step)
    requires s.log <= Apply(cfg, s, step).log && Grows(s.rows, Apply(cfg, s, step).rows)
    ensures AckedInLog(Apply(cfg, s, step).rows, Apply(cfg, s, step).relays, Apply(cfg, s, step).log)
  {
    var s' := Apply(cfg, s, step);
    forall r | r in s'.relays && s'.relays[r].batch != [] && s'.relays[r].phase.Acked?
      ensures r in s.relays && s.relays[r].batch == s'.relays[r].batch && Issued(s.rows, s.relays[r].batch[0])
      ensures s.relays[r].phase.Acked? || MessageOf(s.rows[s.relays[r].batch[0].id].fields) in s'.log
    {
      NewlyAcked(cfg, s, step, r);
    }
  }

  lemma NewlyAcked(cfg: Config, s: State, step: Step, r: nat)
    requires WellFormed(s) && Enabled(cfg, s, step)
    requires Busy(Apply(cfg, s, step), r) && Apply(cfg, s, step).relays[r].phase.Acked?
    ensures Busy(s, r) && s.relays[r].batch == Apply(cfg, s, step).relays[r].batch && Issued(s.rows, s.relays[r].batch[0])
    ensures s.relays[r].phase.Acked? || MessageOf(s.rows[s.relays[r].batch[0].id].fields) in Apply(cfg, s, step).log
  {
    match step
    case Write(q, appended, acked, heals) => AckedWrite(s, q, appended, acked, heals, r);
    case _ => NotAckedElsewhere(cfg, s, step, r);
  }

  lemma AckedWrite(s: State, q: nat, appended: bool, acked: bool, heals: bool, r: nat)
    requires WellFormed(s) && Busy(s, q) && (acked ==> appended)
    requires Busy(ApplyWrite(s, q, appended, acked, heals), r) && ApplyWrite(s, q, appended, acked, heals).relays[r].phase.Acked?
    ensures Busy(s, r) && s.relays[r].batch == ApplyWrite(s, q, appended, acked, heals).relays[r].batch
    ensures Issued(s.rows, s.relays[r].batch[0])
    ensures s.relays[r].phase.Acked?
         || MessageOf(s.rows[s.relays[r].batch[0].id].fields) in ApplyWrite(s, q, appended, acked, heals).log
  {
    assert Busy(s, r) && Issued(s.rows, s.relays[r].batch[0]);
  }

  lemma NotAckedElsewhere(cfg: Config, s: State, step: Step, r: nat)
    requires AllIssued(s.rows, s.relays) && Enabled(cfg, s, step) && !step.Write?
    requires Busy(Apply(cfg, s, step), r) && Apply(cfg, s, step).relays[r].phase.Acked?
    ensures Busy(s, r) && s.relays[r].batch == Apply(cfg, s, step).relays[r].batch && Issued(s.rows, s.relays[r].batch[0])
    ensures s.relays[r].phase.Acked?
  {
  }

  ghost predicate Caused(cfg: Config, s: State) {
    WellFormed(s) && Paired(s) && Grounded(s) && Honest(cfg, s)
  }

  lemma CausedStep(cfg: Config, s: State, step: Step)
    requires Caused(cfg, s) && Enabled(cfg, s, step)
    ensures Caused(cfg, Apply(cfg, s, step))
  {
    WellFormedStep(cfg, s, step);
    PairedStep(cfg, s, step);
    GrowsStep(cfg, s, step);
    GroundedStep(cfg, s, step);
    HonestStep(cfg, s, step);
  }

  lemma {:induction false} CausedRun(cfg: Config, s: State, steps: seq<Step>)
    requires Caused(cfg, s) && Run(cfg, s, steps)
    ensures Caused(cfg, Exec(cfg, s, steps))
    ensures s.log <= Exec(cfg, s, steps).log
    decreases |steps|
  {
    if steps != [] {
      CausedStep(cfg, s, steps[0]);
      GroundedStep(cfg, s, steps[0]);
      CausedRun(cfg, Apply(cfg, s, steps[0]), steps[1..]);
    }
  }

  // Copies of an event in the topic.

  lemma {:induction false} NoCopies(log: seq<Message>, eventId: string)
    requires forall i :: 0 <= i < |log| ==> log[i].envelope.eventId != eventId
    ensures Copies(log, eventId) == 0
  {
    if log != [] {
      NoCopies(log[..|log| - 1], eventId);
    }
  }

  /** Every copy of an event in the topic is the trace of a topic write made under a lease of its row. */
  ghost predicate Accounted(cfg: Config, s: State) {
    forall id :: id in s.rows && id in s.history ==>
      Copies(s.log, s.rows[id].fields.eventId) <= CopiesOf(cfg, Sum(s.history[id].writes))
  }

  lemma AccountedStep(cfg: Config, s: State, step: Step)
    requires Caused(cfg, s) && Accounted(cfg, s) && Enabled(cfg, s, step)
    ensures Accounted(cfg, Apply(cfg, s, step))
  {
    match step
    case Write(r, appended, acked, heals) => AccountedWrite(cfg, s, r, appended, acked, heals);
    case Create(_, _, _, _) => AccountedCreate(cfg, s, step);
    case Land(id) => AccountedLand(cfg, s, id);
    case _ => AccountedRest(cfg, s, step);
  }

  lemma AccountedCreate(cfg: Config, s: State, step: Step)
    requires Grounded(s) && Accounted(cfg, s) && Enabled(cfg, s, step) && step.Create?
    ensures Accounted(cfg, Apply(cfg, s, step))
  {
    forall i | 0 <= i < |s.log|
      ensures s.log[i].envelope.eventId != step.eventId
    {
      assert Sourced(s.rows, s.log[i], s.origin[i]);
    }
    NoCopies(s.log, step.eventId);
  }

  lemma AccountedRest(cfg: Config, s: State, step: Step)
    requires WellFormed(s) && Accounted(cfg, s) && Enabled(cfg, s, step) && !step.Write? && !step.Create? && !step.Land?
    ensures Accounted(cfg, Apply(cfg, s, step))
  {
    var s' := Apply(cfg, s, step);
    SameKeys(cfg, s, step);
    GrowsStep(cfg, s, step);
    assert s'.log == s.log;
    forall id | id in s'.rows && id in s'.history
      ensures Copies(s.log, s'.rows[id].fields.eventId) <= CopiesOf(cfg, Sum(s'.history[id].writes))
    {
      SumStays(cfg, s, step, id);
    }
  }

  lemma SumStays(cfg: Config, s: State, step: Step, id: nat)
    requires Enabled(cfg, s, step) && !step.Write? && !step.Create? && id in Apply(cfg, s, step).history
    ensures id in s.history && Sum(Apply(cfg, s, step).history[id].writes) == Sum(s.history[id].writes)
  {
    WritesExtend(cfg, s, step, id);
    var w := s.history[id].writes;
    assert (w + [0])[..|w + [0]| - 1] == w;
  }

  lemma WritesExtend(cfg: Config, s: State, step: Step, id: nat)
    requires Enabled(cfg, s, step) && !step.Write? && !step.Create? && id in Apply(cfg, s, step).history
    ensures id in s.history
    ensures Apply(cfg, s, step).history[id].writes == s.history[id].writes ||
            Apply(cfg, s, step).history[id].writes == s.history[id].writes + [0]
  {
  }

  lemma AccountedWrite(cfg: Config, s: State, r: nat, appended: bool, acked: bool, heals: bool)
    requires WellFormed(s) && UniqueEvents(s.rows) && Accounted(cfg, s) && Busy(s, r)
    ensures Accounted(cfg, ApplyWrite(s, r, appended, acked, heals))
  {
    var s' := ApplyWrite(s, r, appended, acked, heals);
    forall id | id in s.rows && id in s.history
      ensures Copies(s'.log, s.rows[id].fields.eventId) <= CopiesOf(cfg, Sum(s'.history[id].writes))
    {
      AccountedRow(cfg, s, r, appended, acked, heals, id);
    }
  }

  lemma AccountedRow(cfg: Config, s: State, r: nat, appended: bool, acked: bool, heals: bool, id: nat)
    requires WellFormed(s) && UniqueEvents(s.rows) && Accounted(cfg, s) && Busy(s, r) && id in s.rows
    ensures
      var s' := ApplyWrite(s, r, appended, acked, heals);
      id in s'.history && Copies(s'.log, s.rows[id].fields.eventId) <= CopiesOf(cfg, Sum(s'.history[id].writes))
  {
    var head := s.relays[r].batch[0];
    assert Issued(s.rows, head) && RowOk(s.rows[head.id], s.history[head.id]);
    OneMoreCopy(s.log, MessageOf(s.rows[head.id].fields), s.rows[id].fields.eventId);
    WritesAfter(s, r, appended, acked, heals, id);
    OneMoreWrite(cfg, Sum(s.history[id].writes));
  }

  lemma OneMoreWrite(cfg: Config, writes: nat)
    ensures CopiesOf(cfg, writes + 1) == CopiesOf(cfg, writes) + 1 + cfg.extra
  {
  }

  lemma AccountedLand(cfg: Config, s: State, id: nat)
    requires UniqueEvents(s.rows) && Accounted(cfg, s) && Enabled(cfg, s, Land(id))
    ensures Accounted(cfg, Apply(cfg, s, Land(id)))
  {
    forall other | other in s.rows && other in s.history
      ensures Copies(Apply(cfg, s, Land(id)).log, s.rows[other].fields.eventId) <= CopiesOf(cfg, Sum(s.history[other].writes))
    {
      OneMoreCopy(s.log, MessageOf(s.rows[id].fields), s.rows[other].fields.eventId);
    }
  }

  lemma WritesAfter(s: State, r: nat, appended: bool, acked: bool, heals: bool, id: nat)
    requires WellFormed(s) && Busy(s, r) && id in s.rows
    ensures
      var s' := ApplyWrite(s, r, appended, acked, heals);
      && id in s'.history
      && Sum(s'.history[id].writes)
         == Sum(s.history[id].writes) + if id == s.relays[r].batch[0].id then 1 else 0
  {
    var head := s.relays[r].batch[0];
    assert Issued(s.rows, head) && RowOk(s.rows[head.id], s.history[head.id]);
    if id == head.id {
      SumBump(s.history[id].writes, head.number - 1);
    }
  }

  lemma OneMoreCopy(log: seq<Message>, m: Message, eventId: string)
    ensures Copies(log + [m], eventId) == Copies(log, eventId) + if m.envelope.eventId == eventId then 1 else 0
  {
    assert (log + [m])[..|log|] == log;
  }

  lemma {:induction false} AccountedRun(cfg: Config, s: State, steps: seq<Step>)
    requires Caused(cfg, s) && Accounted(cfg, s) && Run(cfg, s, steps)
    ensures Accounted(cfg, Exec(cfg, s, steps))
    decreases |steps|
  {
    if steps != [] {
      CausedStep(cfg, s, steps[0]);
      AccountedStep(cfg, s, steps[0]);
      AccountedRun(cfg, Apply(cfg, s, steps[0]), steps[1..]);
    }
  }

  /** How many duplicates a consumer of the topic has to live with, when each write may leave up to 1 + extra copies. */
  lemma DuplicatesBound(cfg: Config, relays: set<nat>, steps: seq<Step>, id: nat)
    requires cfg.maxAttempts > 0
    requires Run(cfg, Initial(relays), steps)
    requires id in Exec(cfg, Initial(relays), steps).rows
    ensures
      var end := Exec(cfg, Initial(relays), steps);
      && id in end.history
      && Copies(end.log, end.rows[id].fields.eventId) <= CopiesOf(cfg, 2 * (cfg.maxAttempts + end.history[id].resets))
      && (end.rows[id].status.Sent? ==> Copies(end.log, end.rows[id].fields.eventId) >= 1)
  {
    WritesBound(cfg, relays, steps, id);
    AccountedFromStart(cfg, relays, steps);
    var end := Exec(cfg, Initial(relays), steps);
    CopiesWithin(cfg, end, id, 2 * (cfg.maxAttempts + end.history[id].resets));
  }

  lemma AccountedFromStart(cfg: Config, relays: set<nat>, steps: seq<Step>)
    requires Run(cfg, Initial(relays), steps)
    ensures Accounted(cfg, Exec(cfg, Initial(relays), steps)) && Honest(cfg, Exec(cfg, Initial(relays), steps))
  {
    CausedRun(cfg, Initial(relays), steps);
    AccountedRun(cfg, Initial(relays), steps);
  }

  lemma CopiesWithin(cfg: Config, s: State, id: nat, writes: nat)
    requires Accounted(cfg, s) && Honest(cfg, s) && id in s.rows && id in s.history && Sum(s.history[id].writes) <= writes
    ensures Copies(s.log, s.rows[id].fields.eventId) <= CopiesOf(cfg, writes)
    ensures s.rows[id].status.Sent? ==> Copies(s.log, s.rows[id].fields.eventId) >= 1
  {
    TimesMonotone(Sum(s.history[id].writes), writes, 1 + cfg.extra);
    if s.rows[id].status.Sent? {
      SomeCopy(s.log, MessageOf(s.rows[id].fields));
    }
  }

  lemma {:induction false} SomeCopy(log: seq<Message>, message: Message)
    requires message in log
    ensures Copies(log, message.envelope.eventId) >= 1
  {
    var last := |log| - 1;
    if log[last] != message {
      assert message in log[..last];
      SomeCopy(log[..last], message);
    }
  }
}
