/** Tickets, outbox, relays, topic, consumer and processed_events together: nothing comes from nowhere and nothing gets lost. */
module Pipeline {
  import opened Base
  import opened Outbox
  import opened Events
  import Relays
  import RelayCausality
  import opened ProcessedEvents
  import opened Handling
  import Consumer

  /** `partition` is the balancer's choice for a message key. */
  datatype Config = Config(relays: Relays.Config, consumer: Consumer.Config, partition: string -> nat)

  datatype State = State(front: Relays.State, back: Consumer.State)

  datatype Step = Front(relayStep: Relays.Step) | Back(consumerStep: Consumer.Step)

  ghost function Initial(relays: set<nat>, partitions: set<nat>, anchored: set<nat>): State {
    State(Relays.Initial(relays), Consumer.Initial(partitions, anchored))
  }

  /** The message a relay step appends to the topic, if it does. */
  ghost function Appended(s: Relays.State, step: Relays.Step): Option<Message> {
    if step.Write? && step.appended && Relays.Busy(s, step.r) && s.relays[step.r].batch[0].id in s.rows
    then Some(MessageOf(s.rows[s.relays[step.r].batch[0].id].fields))
    else if step.Land? && step.id in s.rows then Some(MessageOf(s.rows[step.id].fields))
    else None
  }

  ghost predicate Enabled(cfg: Config, s: State, step: Step) {
    match step
    case Front(f) =>
      && Relays.Enabled(cfg.relays, s.front, f)
      && (Appended(s.front, f).Some? ==> cfg.partition(Appended(s.front, f).value.key) in s.back.topic)
    case Back(b) => Consumer.Enabled(cfg.consumer, s.back, b) && !b.Append?
  }

  ghost function Delivery(cfg: Config, m: Message): Consumer.Step {
    Consumer.Append(cfg.partition(m.key), Decoded(m.envelope))
  }

  ghost function Apply(cfg: Config, s: State, step: Step): State
    requires Enabled(cfg, s, step)
  {
    match step
    case Front(f) =>
      State(
        Relays.Apply(cfg.relays, s.front, f),
        match Appended(s.front, f)
        case Some(m) => Consumer.Apply(cfg.consumer, s.back, Delivery(cfg, m))
        case None => s.back)
    case Back(b) => s.(back := Consumer.Apply(cfg.consumer, s.back, b))
  }

  ghost predicate Run(cfg: Config, s: State, steps: seq<Step>)
    decreases |steps|
  {
    steps == [] || (Enabled(cfg, s, steps[0]) && Run(cfg, Apply(cfg, s, steps[0]), steps[1..]))
  }

  ghost function Exec(cfg: Config, s: State, steps: seq<Step>): State
    requires Run(cfg, s, steps)
    decreases |steps|
  {
    if steps == [] then s else Exec(cfg, Apply(cfg, s, steps[0]), steps[1..])
  }

  // The partitions hold the log, each message in the partition of its key.

  ghost predicate Filed(cfg: Config, topic: map<nat, seq<Body>>, m: Message) {
    cfg.partition(m.key) in topic && Decoded(m.envelope) in topic[cfg.partition(m.key)]
  }

  ghost predicate Logged(log: seq<Message>, e: Envelope) {
    exists i :: 0 <= i < |log| && log[i].envelope == e
  }

  ghost predicate SameRecords(cfg: Config, log: seq<Message>, topic: map<nat, seq<Body>>) {
    && (forall i :: 0 <= i < |log| ==> Filed(cfg, topic, log[i]))
    && (forall p, o :: p in topic && 0 <= o < |topic[p]| ==>
          && topic[p][o].Decoded? && Logged(log, topic[p][o].envelope)
          && cfg.partition(topic[p][o].envelope.aggregateId) == p)
  }

  ghost predicate CopyOf(row: Processed, e: Envelope) {
    row.eventType == e.eventType && row.aggregate == e.aggregate && row.aggregateId == e.aggregateId && row.payload == e.payload
  }

  ghost predicate Recorded(log: seq<Message>, id: string, row: Processed) {
    exists i :: 0 <= i < |log| && log[i].envelope.eventId == id && CopyOf(row, log[i].envelope)
  }

  ghost predicate AllRecorded(log: seq<Message>, ledger: Ledger) {
    forall id :: id in ledger ==> Recorded(log, id, ledger[id])
  }

  ghost predicate Inv(cfg: Config, s: State) {
    && RelayCausality.Caused(cfg.relays, s.front)
    && Recording(cfg, s.front.log, s.back)
  }

  /** The consumer's side of the log. */
  ghost predicate Recording(cfg: Config, log: seq<Message>, back: Consumer.State) {
    Consumer.Placed(back) && SameRecords(cfg, log, back.topic) && AllRecorded(log, back.ledger)
  }

  lemma FrontLog(cfg: Config, s: Relays.State, step: Relays.Step)
    requires Relays.Enabled(cfg.relays, s, step)
    ensures Relays.Apply(cfg.relays, s, step).log == if Appended(s, step).Some? then s.log + [Appended(s, step).value] else s.log
    ensures Appended(s, step).Some? ==> Appended(s, step).value.key == Appended(s, step).value.envelope.aggregateId
  {
  }

  lemma LogGrows(log: seq<Message>, log': seq<Message>, ledger: Ledger)
    requires log <= log' && AllRecorded(log, ledger)
    ensures AllRecorded(log', ledger)
  {
    forall id | id in ledger
      ensures Recorded(log', id, ledger[id])
    {
      var i :| 0 <= i < |log| && log[i].envelope.eventId == id && CopyOf(ledger[id], log[i].envelope);
      assert log'[i] == log[i];
    }
  }

  lemma RecordsGrow(cfg: Config, log: seq<Message>, topic: map<nat, seq<Body>>, m: Message)
    requires SameRecords(cfg, log, topic) && cfg.partition(m.key) in topic && m.key == m.envelope.aggregateId
    ensures SameRecords(cfg, log + [m], topic[cfg.partition(m.key) := topic[cfg.partition(m.key)] + [Decoded(m.envelope)]])
  {
    var q := cfg.partition(m.key);
    var log', topic' := log + [m], topic[q := topic[q] + [Decoded(m.envelope)]];
    assert topic'[q][|topic[q]|] == Decoded(m.envelope);
    forall i | 0 <= i < |log'|
      ensures Filed(cfg, topic', log'[i])
    {
      if i < |log| {
        assert Filed(cfg, topic, log[i]);
      }
    }
    forall p, o | p in topic' && 0 <= o < |topic'[p]|
      ensures topic'[p][o].Decoded? && Logged(log', topic'[p][o].envelope)
      ensures cfg.partition(topic'[p][o].envelope.aggregateId) == p
    {
      if p == q && o == |topic[q]| {
        assert log'[|log|].envelope == m.envelope;
      } else {
        assert Logged(log, topic[p][o].envelope);
        var i :| 0 <= i < |log| && log[i].envelope == topic[p][o].envelope;
        assert log'[i] == log[i];
      }
    }
  }

  lemma FrontStep(cfg: Config, s: State, f: Relays.Step)
    requires Inv(cfg, s) && Enabled(cfg, s, Front(f))
    ensures Inv(cfg, Apply(cfg, s, Front(f)))
  {
    RelayCausality.CausedStep(cfg.relays, s.front, f);
    FrontLog(cfg, s.front, f);
    if Appended(s.front, f).Some? {
      RecordArrives(cfg, s.front.log, s.back, Appended(s.front, f).value);
    }
  }

  lemma RecordArrives(cfg: Config, log: seq<Message>, back: Consumer.State, m: Message)
    requires Recording(cfg, log, back) && cfg.partition(m.key) in back.topic && m.key == m.envelope.aggregateId
    ensures Recording(cfg, log + [m], Consumer.Apply(cfg.consumer, back, Delivery(cfg, m)))
  {
    Consumer.PlacedStep(cfg.consumer, back, Delivery(cfg, m));
    RecordsGrow(cfg, log, back.topic, m);
    LogGrows(log, log + [m], back.ledger);
  }

  lemma BackFrame(cfg: Consumer.Config, s: Consumer.State, b: Consumer.Step)
    requires Consumer.Enabled(cfg, s, b) && !b.Append?
    ensures Consumer.Apply(cfg, s, b).topic == s.topic
    ensures !b.Handle? ==> Consumer.Apply(cfg, s, b).ledger == s.ledger
  {
  }

  lemma BackStep(cfg: Config, s: State, b: Consumer.Step)
    requires Inv(cfg, s) && Enabled(cfg, s, Back(b))
    ensures Inv(cfg, Apply(cfg, s, Back(b)))
  {
    Consumer.PlacedStep(cfg.consumer, s.back, b);
    BackFrame(cfg.consumer, s.back, b);
    if b.Handle? {
      TripIsLogged(cfg, s);
      HandleRecords(cfg, s, b.act);
    }
  }

  lemma TripIsLogged(cfg: Config, s: State)
    requires Consumer.TripPlaced(s.back) && SameRecords(cfg, s.front.log, s.back.topic) && s.back.trip.Some?
    ensures s.back.trip.value.flight.body.Decoded? && Logged(s.front.log, s.back.trip.value.flight.body.envelope)
  {
    var trip := s.back.trip.value;
    assert trip.flight.body == s.back.topic[trip.place.partition][trip.place.offset];
  }

  /** No statement rewrites the copied columns of a row, and a new row copies the record underway. */
  lemma EffectCopies(ledger: Ledger, f: Flight, act: Act, now: int, id: string)
    requires id in Effect(ledger, f, act, now)
    ensures
      var row' := Effect(ledger, f, act, now)[id];
      || (id in ledger && forall e :: CopyOf(ledger[id], e) ==> CopyOf(row', e))
      || (f.body.Decoded? && f.body.envelope.eventId == id && CopyOf(row', f.body.envelope))
  {
  }

  lemma HandleRecords(cfg: Config, s: State, act: Act)
    requires AllRecorded(s.front.log, s.back.ledger) && s.back.trip.Some?
    requires s.back.trip.value.flight.body.Decoded? ==> Logged(s.front.log, s.back.trip.value.flight.body.envelope)
    ensures AllRecorded(s.front.log, Consumer.ApplyHandle(cfg.consumer, s.back, act).ledger)
  {
    var f := s.back.trip.value.flight;
    var ledger' := Effect(s.back.ledger, f, act, s.back.now);
    forall id | id in ledger'
      ensures Recorded(s.front.log, id, ledger'[id])
    {
      EffectCopies(s.back.ledger, f, act, s.back.now, id);
      if id in s.back.ledger && forall e :: CopyOf(s.back.ledger[id], e) ==> CopyOf(ledger'[id], e) {
        assert Recorded(s.front.log, id, s.back.ledger[id]);
      } else {
        assert Logged(s.front.log, f.body.envelope);
      }
    }
  }

  lemma {:induction false} InvRun(cfg: Config, s: State, steps: seq<Step>)
    requires Inv(cfg, s) && Run(cfg, s, steps)
    ensures Inv(cfg, Exec(cfg, s, steps))
    decreases |steps|
  {
    if steps != [] {
      StepInv(cfg, s, steps[0]);
      InvRun(cfg, Apply(cfg, s, steps[0]), steps[1..]);
    }
  }

  lemma StepInv(cfg: Config, s: State, step: Step)
    requires Inv(cfg, s) && Enabled(cfg, s, step)
    ensures Inv(cfg, Apply(cfg, s, step))
  {
    match step
    case Front(f) => FrontStep(cfg, s, f);
    case Back(b) => BackStep(cfg, s, b);
  }

  /** The outbox row a processed_events row stems from: it was claimed, it belongs to a ticket, and the processed_events row
      holds what the ticket said, column by column. */
  ghost predicate StemsFrom(s: State, id: string, rowId: nat) {
    && rowId in s.front.rows
    && id in s.back.ledger
    && var f, row := s.front.rows[rowId].fields, s.back.ledger[id];
       && f.eventId == id && s.front.rows[rowId].attempts >= 1
       && f.aggregateId in s.front.tickets
       && var ticket := s.front.tickets[f.aggregateId];
          && row.eventType == "ticket.created"
          && row.aggregate == "ticket"
          && row.aggregateId == ticket.id == f.aggregateId
          && row.payload.ticketId == ticket.id
          && row.payload.title == ticket.title
          && row.payload.status == ticket.status
          && row.payload.createdAt == ticket.createdAt
          && row.payload.requestId == f.payload.requestId
  }

  /** Some outbox row that was claimed has exactly these fields. */
  ghost predicate Claimed(rows: Table, e: Envelope) {
    exists rowId :: ClaimedAs(rows, e, rowId)
  }

  ghost predicate ClaimedAs(rows: Table, e: Envelope, rowId: nat) {
    rowId in rows && rows[rowId].attempts >= 1 && Repeats(Message(e.aggregateId, e), rows[rowId].fields)
  }

  /** Causality over whole runs: tickets and outbox rows correspond one to one, every record of the topic repeats a row that
      was claimed, and every processed_events row stems from exactly one outbox row, wherever the consumer starts. */
  lemma Causality(cfg: Config, relays: set<nat>, partitions: set<nat>, anchored: set<nat>, steps: seq<Step>)
    requires anchored <= partitions
    requires Run(cfg, Initial(relays, partitions, anchored), steps)
    ensures
      var s := Exec(cfg, Initial(relays, partitions, anchored), steps);
      && RelayCausality.Paired(s.front)
      && (forall p, o :: p in s.back.topic && 0 <= o < |s.back.topic[p]| ==>
            s.back.topic[p][o].Decoded? && Claimed(s.front.rows, s.back.topic[p][o].envelope))
      && (forall id :: id in s.back.ledger ==> exists rowId :: StemsFrom(s, id, rowId))
      && (forall id, a, b :: StemsFrom(s, id, a) && StemsFrom(s, id, b) ==> a == b)
  {
    InvRun(cfg, Initial(relays, partitions, anchored), steps);
    var s := Exec(cfg, Initial(relays, partitions, anchored), steps);
    forall p, o | p in s.back.topic && 0 <= o < |s.back.topic[p]|
      ensures s.back.topic[p][o].Decoded? && Claimed(s.front.rows, s.back.topic[p][o].envelope)
    {
      TopicIsClaimed(cfg, s, p, o);
    }
    forall id | id in s.back.ledger
      ensures exists rowId :: StemsFrom(s, id, rowId)
    {
      LedgerStems(cfg, s, id);
    }
  }

  lemma TopicIsClaimed(cfg: Config, s: State, p: nat, o: nat)
    requires RelayCausality.Grounded(s.front) && SameRecords(cfg, s.front.log, s.back.topic)
    requires p in s.back.topic && o < |s.back.topic[p]|
    ensures s.back.topic[p][o].Decoded? && Claimed(s.front.rows, s.back.topic[p][o].envelope)
  {
    assert Logged(s.front.log, s.back.topic[p][o].envelope);
    var i :| 0 <= i < |s.front.log| && s.front.log[i].envelope == s.back.topic[p][o].envelope;
    assert RelayCausality.Sourced(s.front.rows, s.front.log[i], s.front.origin[i]);
    assert ClaimedAs(s.front.rows, s.back.topic[p][o].envelope, s.front.origin[i]);
  }

  lemma LedgerStems(cfg: Config, s: State, id: string)
    requires RelayCausality.Grounded(s.front) && RelayCausality.Paired(s.front) && AllRecorded(s.front.log, s.back.ledger)
    requires id in s.back.ledger
    ensures exists rowId :: StemsFrom(s, id, rowId)
  {
    assert Recorded(s.front.log, id, s.back.ledger[id]);
    var i :| 0 <= i < |s.front.log| && s.front.log[i].envelope.eventId == id && CopyOf(s.back.ledger[id], s.front.log[i].envelope);
    var rowId := s.front.origin[i];
    assert RelayCausality.Sourced(s.front.rows, s.front.log[i], rowId);
    assert RelayCausality.Describes(s.front.tickets, s.front.rows[rowId].fields);
    assert StemsFrom(s, id, rowId);
  }

  /** What is known of a ticket at any time. */
  ghost predicate Tracked(cfg: Config, s: State, ticket: string) {
    && ticket in s.front.rowOf && s.front.rowOf[ticket] in s.front.rows
    && var row := s.front.rows[s.front.rowOf[ticket]];
    && row.fields.aggregateId == ticket
    && (row.status.Failed? ==> row.attempts >= cfg.relays.maxAttempts > 0)
    && (row.status.Sent? ==> cfg.partition(ticket) in s.back.topic)
    && (row.status.Sent? && CaughtUp(s.back, cfg.partition(ticket)) ==>
          Arrived(s.back, row.fields.eventId))
  }

  ghost predicate CaughtUp(s: Consumer.State, p: nat) {
    p in s.topic && p in s.committed && s.committed[p] >= |s.topic[p]|
  }

  /** No record of the ticket's partition can be skipped, or the only records there are those of the ticket. */
  ghost predicate Sheltered(cfg: Config, safe: set<nat>, ticket: string) {
    cfg.partition(ticket) in safe || forall other :: cfg.partition(other) == cfg.partition(ticket) ==> other == ticket
  }

  /** Every event is forced to fail, and nobody gives up on it: the consumer is at its first record for ever. */
  predicate Stalls(settings: Settings) {
    settings.maxAttempts <= 0 && settings.Forces(TICKET_CREATED)
  }

  /** No loss over whole runs: when a ticket's outbox row is sent and the consumer has committed all that is in its partition,
      the ticket's event has been notified, and it is done or failed unless a record of it was given up. When the row is
      failed instead, it has had its maxAttempts. */
  lemma NoLoss(cfg: Config, relays: set<nat>, partitions: set<nat>, anchored: set<nat>, steps: seq<Step>, ticket: string)
    requires anchored <= partitions
    requires (cfg.consumer.settings.maxAttempts <= 0 && Forced(cfg.consumer.settings, "ticket.created"))
          || cfg.partition(ticket) !in partitions
          || Sheltered(cfg, Consumer.SafeOnes(cfg.consumer, partitions, anchored), ticket)
    requires Run(cfg, Initial(relays, partitions, anchored), steps)
    requires ticket in Exec(cfg, Initial(relays, partitions, anchored), steps).front.tickets
    ensures Tracked(cfg, Exec(cfg, Initial(relays, partitions, anchored), steps), ticket)
  {
    var start := Initial(relays, partitions, anchored);
    var safe := Consumer.SafeOnes(cfg.consumer, partitions, anchored);
    ForcesExactly(cfg.consumer.settings, "ticket.created");
    StartInv(cfg, relays, partitions, anchored);
    InvRun(cfg, start, steps);
    SamePartitions(cfg, start, steps);
    if Stalls(cfg.consumer.settings) {
      StalledRun(cfg, start, steps);
      StalledTracked(cfg, Exec(cfg, start, steps), ticket);
    } else {
      BackRun(cfg, safe, start, steps);
      TicketTracked(cfg, safe, Exec(cfg, start, steps), ticket);
    }
  }

  lemma StartInv(cfg: Config, relays: set<nat>, partitions: set<nat>, anchored: set<nat>)
    requires anchored <= partitions
    ensures
      var start := Initial(relays, partitions, anchored);
      && Inv(cfg, start) && Stalled(start.back)
      && Consumer.Inv(cfg.consumer, Consumer.SafeOnes(cfg.consumer, partitions, anchored), start.back)
  {
    Consumer.StartInv(cfg.consumer, partitions, anchored);
  }

  lemma {:induction false} SamePartitions(cfg: Config, s: State, steps: seq<Step>)
    requires Run(cfg, s, steps)
    ensures Exec(cfg, s, steps).back.topic.Keys == s.back.topic.Keys
    decreases |steps|
  {
    if steps != [] {
      SamePartitions(cfg, Apply(cfg, s, steps[0]), steps[1..]);
    }
  }

  /** The consumer's part of the system keeps its invariant. */
  lemma {:induction false} BackRun(cfg: Config, safe: set<nat>, s: State, steps: seq<Step>)
    requires Run(cfg, s, steps) && Consumer.Inv(cfg.consumer, safe, s.back)
    ensures Consumer.Inv(cfg.consumer, safe, Exec(cfg, s, steps).back)
    decreases |steps|
  {
    if steps != [] {
      match steps[0] {
        case Front(f) =>
          if Appended(s.front, f).Some? {
            Consumer.InvStep(cfg.consumer, safe, s.back, Delivery(cfg, Appended(s.front, f).value));
          }
        case Back(b) => Consumer.InvStep(cfg.consumer, safe, s.back, b);
      }
      BackRun(cfg, safe, Apply(cfg, s, steps[0]), steps[1..]);
    }
  }

  lemma TicketTracked(cfg: Config, safe: set<nat>, s: State, ticket: string)
    requires Inv(cfg, s) && Consumer.Inv(cfg.consumer, safe, s.back) && ticket in s.front.tickets
    requires cfg.partition(ticket) !in s.back.topic || Sheltered(cfg, safe, ticket)
    ensures Tracked(cfg, s, ticket)
  {
    assert ticket in s.front.rowOf;
    var row := s.front.rows[s.front.rowOf[ticket]];
    if row.status.Sent? {
      SentIsFiled(cfg, s, row);
      if CaughtUp(s.back, cfg.partition(ticket)) {
        SentIsServed(cfg, safe, s, ticket);
      }
    }
  }

  ghost predicate GivenUpSomewhere(s: Consumer.State, eventId: string) {
    exists at :: at in s.givenUp && Consumer.Written(s, at) && Consumer.RecordAt(s, at).Decoded?
              && Consumer.RecordAt(s, at).envelope.eventId == eventId
  }

  lemma SentIsFiled(cfg: Config, s: State, row: Row)
    requires Inv(cfg, s) && MessageOf(row.fields) in s.front.log
    ensures Filed(cfg, s.back.topic, MessageOf(row.fields))
  {
    var i :| 0 <= i < |s.front.log| && s.front.log[i] == MessageOf(row.fields);
    assert Filed(cfg, s.back.topic, s.front.log[i]);
  }

  /** What is to be shown of an event once its partition is committed to the end. */
  ghost predicate Arrived(s: Consumer.State, eventId: string) {
    eventId in s.notified && (Settles(s.ledger, eventId) || GivenUpSomewhere(s, eventId))
  }

  lemma ReliedArrived(cfg: Consumer.Config, safe: set<nat>, s: Consumer.State, at: Consumer.Place)
    requires Consumer.Inv(cfg, safe, s) && (Consumer.Tip(s, at) || (at.partition in safe && Consumer.Below(s, at)))
    ensures Consumer.Written(s, at)
    ensures Consumer.RecordAt(s, at).Decoded? ==> Arrived(s, Consumer.RecordAt(s, at).envelope.eventId)
  {
    Consumer.ReliedServed(cfg, safe, s, at);
  }

  lemma SentIsServed(cfg: Config, safe: set<nat>, s: State, ticket: string)
    requires Inv(cfg, s) && Consumer.Inv(cfg.consumer, safe, s.back) && ticket in s.front.rowOf && Sheltered(cfg, safe, ticket)
    requires s.front.rowOf[ticket] in s.front.rows && s.front.rows[s.front.rowOf[ticket]].fields.aggregateId == ticket
    requires Filed(cfg, s.back.topic, MessageOf(s.front.rows[s.front.rowOf[ticket]].fields))
    requires CaughtUp(s.back, cfg.partition(ticket))
    ensures Arrived(s.back, s.front.rows[s.front.rowOf[ticket]].fields.eventId)
  {
    var p := cfg.partition(ticket);
    if p in safe {
      SafeArrived(cfg.consumer, safe, s.back, p, MessageOf(s.front.rows[s.front.rowOf[ticket]].fields).envelope);
    } else {
      LonelyArrived(cfg, safe, s, ticket, p);
    }
  }

  lemma LonelyArrived(cfg: Config, safe: set<nat>, s: State, ticket: string, p: nat)
    requires RelayCausality.Grounded(s.front) && RelayCausality.Paired(s.front) && SameRecords(cfg, s.front.log, s.back.topic)
    requires Consumer.Inv(cfg.consumer, safe, s.back) && ticket in s.front.rowOf && s.front.rowOf[ticket] in s.front.rows
    requires CaughtUp(s.back, p) && s.back.topic[p] != [] && forall other :: cfg.partition(other) == p ==> other == ticket
    ensures Arrived(s.back, s.front.rows[s.front.rowOf[ticket]].fields.eventId)
  {
    LastArrived(cfg.consumer, safe, s.back, p);
    SameTicketSameEvent(cfg, s, ticket, p, s.back.committed[p] - 1);
  }

  lemma SafeArrived(cfg: Consumer.Config, safe: set<nat>, s: Consumer.State, p: nat, e: Envelope)
    requires Consumer.Inv(cfg, safe, s) && p in safe && CaughtUp(s, p) && Decoded(e) in s.topic[p]
    ensures Arrived(s, e.eventId)
  {
    var o :| 0 <= o < |s.topic[p]| && s.topic[p][o] == Decoded(e);
    ReliedArrived(cfg, safe, s, Consumer.Place(p, o));
  }

  lemma LastArrived(cfg: Consumer.Config, safe: set<nat>, s: Consumer.State, p: nat)
    requires Consumer.Inv(cfg, safe, s) && CaughtUp(s, p) && s.topic[p] != []
    ensures 0 < s.committed[p] <= |s.topic[p]|
    ensures s.topic[p][s.committed[p] - 1].Decoded? ==> Arrived(s, s.topic[p][s.committed[p] - 1].envelope.eventId)
  {
    ReliedArrived(cfg, safe, s, Consumer.Place(p, s.committed[p] - 1));
  }

  /** A record that carries the ticket's id carries its event. */
  lemma SameTicketSameEvent(cfg: Config, s: State, ticket: string, p: nat, o: nat)
    requires RelayCausality.Grounded(s.front) && RelayCausality.Paired(s.front) && SameRecords(cfg, s.front.log, s.back.topic)
    requires ticket in s.front.rowOf && s.front.rowOf[ticket] in s.front.rows
    requires p in s.back.topic && o < |s.back.topic[p]|
    requires forall other :: cfg.partition(other) == p ==> other == ticket
    ensures s.back.topic[p][o].Decoded?
    ensures s.back.topic[p][o].envelope.eventId == s.front.rows[s.front.rowOf[ticket]].fields.eventId
  {
    TopicIsClaimed(cfg, s, p, o);
    var e := s.back.topic[p][o].envelope;
    var rowId :| ClaimedAs(s.front.rows, e, rowId);
    assert cfg.partition(e.aggregateId) == p;
    assert s.front.rowOf[s.front.rows[rowId].fields.aggregateId] == rowId;
  }

  // A consumer that stalls.

  ghost predicate Stalled(s: Consumer.State) {
    && (forall p :: p in s.committed ==> s.committed[p] == 0)
    && (forall id :: !Settles(s.ledger, id))
    && (s.trip.Some? ==> !s.trip.value.flight.phase.Leaving?)
  }

  lemma StalledStep(cfg: Config, s: State, step: Step)
    requires Stalls(cfg.consumer.settings) && Inv(cfg, s) && Stalled(s.back) && Enabled(cfg, s, step)
    ensures Stalled(Apply(cfg, s, step).back)
  {
    match step
    case Front(f) =>
    case Back(b) =>
      if b.Handle? {
        TripIsTicketCreated(cfg, s);
      }
      StalledBack(cfg.consumer, s.back, b);
  }

  lemma TripIsTicketCreated(cfg: Config, s: State)
    requires Inv(cfg, s) && s.back.trip.Some?
    ensures s.back.trip.value.flight.body.Decoded? && s.back.trip.value.flight.body.envelope.eventType == TICKET_CREATED
  {
    var at := s.back.trip.value.place;
    TopicIsClaimed(cfg, s, at.partition, at.offset);
    IsTicketCreated(s.front, s.back.trip.value.flight.body.envelope);
  }

  lemma StalledBack(cfg: Consumer.Config, s: Consumer.State, b: Consumer.Step)
    requires Stalls(cfg.settings) && Stalled(s) && Consumer.Enabled(cfg, s, b)
    requires b.Handle? ==> s.trip.value.flight.body.Decoded? && s.trip.value.flight.body.envelope.eventType == TICKET_CREATED
    ensures Stalled(Consumer.Apply(cfg, s, b))
  {
    if b.Handle? {
      StalledHandle(cfg, s, b.act);
    }
  }

  lemma IsTicketCreated(s: Relays.State, e: Envelope)
    requires RelayCausality.Paired(s) && Claimed(s.rows, e)
    ensures e.eventType == TICKET_CREATED
  {
    var rowId :| ClaimedAs(s.rows, e, rowId);
    assert RelayCausality.Describes(s.tickets, s.rows[rowId].fields);
  }

  lemma StalledHandle(cfg: Consumer.Config, s: Consumer.State, act: Act)
    requires Stalls(cfg.settings) && Stalled(s) && Consumer.Enabled(cfg, s, Consumer.Handle(act))
    requires s.trip.value.flight.body.Decoded? && s.trip.value.flight.body.envelope.eventType == TICKET_CREATED
    ensures Stalled(Consumer.ApplyHandle(cfg, s, act))
  {
    Consumer.OnlyThisEvent(s.ledger, s.trip.value.flight, act, s.now);
    assert !Settles(s.ledger, s.trip.value.flight.body.envelope.eventId);
  }

  lemma {:induction false} StalledRun(cfg: Config, s: State, steps: seq<Step>)
    requires Stalls(cfg.consumer.settings) && Inv(cfg, s) && Stalled(s.back) && Run(cfg, s, steps)
    ensures Stalled(Exec(cfg, s, steps).back)
    decreases |steps|
  {
    if steps != [] {
      StalledStep(cfg, s, steps[0]);
      StepInv(cfg, s, steps[0]);
      StalledRun(cfg, Apply(cfg, s, steps[0]), steps[1..]);
    }
  }

  lemma StalledTracked(cfg: Config, s: State, ticket: string)
    requires Inv(cfg, s) && Stalled(s.back) && ticket in s.front.tickets
    ensures Tracked(cfg, s, ticket)
  {
    assert ticket in s.front.rowOf;
    var row := s.front.rows[s.front.rowOf[ticket]];
    if row.status.Sent? {
      SentIsFiled(cfg, s, row);
    }
  }
}
