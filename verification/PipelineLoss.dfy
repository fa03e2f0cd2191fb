/** Exactly when the whole system loses nothing. */
module PipelineLoss {
  import opened Base
  import opened Outbox
  import opened Events
  import opened Tickets
  import opened Handling
  import opened Pipeline

  /** Every ticket is tracked in every run. */
  ghost predicate NothingLost(cfg: Config, relays: set<nat>, partitions: set<nat>, anchored: set<nat>) {
    forall steps, ticket ::
      Run(cfg, Initial(relays, partitions, anchored), steps)
        && ticket in Exec(cfg, Initial(relays, partitions, anchored), steps).front.tickets ==>
      Tracked(cfg, Exec(cfg, Initial(relays, partitions, anchored), steps), ticket)
  }

  /** No partition that starts without a commit can receive records of two tickets. */
  ghost predicate AllSheltered(cfg: Config, partitions: set<nat>, anchored: set<nat>) {
    forall a, b :: a != b && cfg.partition(a) == cfg.partition(b) && cfg.partition(a) in partitions ==> cfg.partition(a) in anchored
  }

  lemma {:induction false} RunConcat(cfg: Config, s: State, first: seq<Step>, second: seq<Step>)
    requires Run(cfg, s, first) && Run(cfg, Exec(cfg, s, first), second)
    ensures Run(cfg, s, first + second)
    ensures Exec(cfg, s, first + second) == Exec(cfg, Exec(cfg, s, first), second)
    decreases |first|
  {
    if first == [] {
      assert first + second == second;
    } else {
      RunConcat(cfg, Apply(cfg, s, first[0]), first[1..], second);
      assert (first + second)[1..] == first[1..] + second;
    }
  }

  lemma RunSnoc(cfg: Config, s: State, steps: seq<Step>, step: Step)
    requires Run(cfg, s, steps) && Enabled(cfg, Exec(cfg, s, steps), step)
    ensures Run(cfg, s, steps + [step])
    ensures Exec(cfg, s, steps + [step]) == Apply(cfg, Exec(cfg, s, steps), step)
  {
    var end := Exec(cfg, s, steps);
    assert Run(cfg, Apply(cfg, end, step), [step][1..]);
    RunConcat(cfg, s, steps, [step]);
  }

  function TicketOf(key: string): Ticket {
    Ticket(key, "", "", "open", 0, 0)
  }

  /** The message of a ticket created now. */
  function Letter(key: string, eventId: string, now: int): Message {
    MessageOf(FieldsOf(TicketOf(key), "", eventId, now))
  }

  /** Relay r is idle and all rows are sent. */
  ghost predicate Quiet(s: Relays.State, r: nat) {
    Relays.Idle(s, r) && s.history.Keys == s.rows.Keys && forall id :: id in s.rows ==> s.rows[id].status.Sent?
  }

  /** A ticket is created, published and marked sent. */
  ghost predicate Shipped(cfg: Config, s: State, end: State, r: nat, key: string, id: nat, eventId: string) {
    && cfg.partition(key) in s.back.topic
    && Quiet(end.front, r) && end.front.now == s.front.now
    && end.front.tickets == s.front.tickets[key := TicketOf(key)] && end.front.rowOf == s.front.rowOf[key := id]
    && end.front.rows.Keys == s.front.rows.Keys + {id}
    && end.front.rows[id].fields == FieldsOf(TicketOf(key), "", eventId, s.front.now)
    && (forall other :: other in s.front.rows && other != id ==> end.front.rows[other] == s.front.rows[other])
    && end.back == Consumer.Apply(cfg.consumer, s.back, Delivery(cfg, Letter(key, eventId, s.front.now)))
  }

  lemma Ship(cfg: Config, s: State, r: nat, key: string, id: nat, eventId: string) returns (steps: seq<Step>)
    requires Quiet(s.front, r) && Fresh(s.front.tickets, s.front.rows, key, id, eventId) && cfg.partition(key) in s.back.topic
    ensures Run(cfg, s, steps) && Shipped(cfg, s, Exec(cfg, s, steps), r, key, id, eventId)
  {
    var first := CreateAndClaim(cfg, s, r, key, id, eventId);
    var held := Exec(cfg, s, first);
    var rest := PublishAndMark(cfg, held, r, key, id, eventId);
    RunConcat(cfg, s, first, rest);
    steps := first + rest;
    HeldThenShipped(cfg, s, held, Exec(cfg, s, steps), r, key, id, eventId);
  }

  lemma HeldThenShipped(cfg: Config, s: State, held: State, end: State, r: nat, key: string, id: nat, eventId: string)
    requires Quiet(s.front, r) && id !in s.front.rows && cfg.partition(key) in s.back.topic
    requires held.back == s.back && Held(s.front, held.front, r, key, id, eventId)
    requires Relays.Idle(end.front, r) && end.front.history.Keys == held.front.rows.Keys && end.front.now == held.front.now
    requires end.front.tickets == held.front.tickets && end.front.rowOf == held.front.rowOf
    requires end.front.rows == held.front.rows[id := SetSent(held.front.rows[id], held.front.now)]
    requires end.back == Consumer.Apply(cfg.consumer, held.back, Delivery(cfg, Letter(key, eventId, held.front.now)))
    ensures Shipped(cfg, s, end, r, key, id, eventId)
  {
  }

  /** The ticket has been created and relay r holds its row, and it alone. */
  ghost predicate Held(s: Relays.State, held: Relays.State, r: nat, key: string, id: nat, eventId: string) {
    && r in held.relays && |held.relays[r].batch| == 1 && held.relays[r].batch[0].id == id
    && held.relays[r].phase.Unsent? && held.relays[r].since <= held.now
    && held.now == s.now && held.tickets == s.tickets[key := TicketOf(key)] && held.rowOf == s.rowOf[key := id]
    && held.history.Keys == held.rows.Keys == s.rows.Keys + {id}
    && held.rows[id].fields == FieldsOf(TicketOf(key), "", eventId, s.now)
    && (forall other :: other in s.rows && other != id ==> held.rows[other] == s.rows[other])
  }

  /** The ticket has been created, and its row is the only one that is not sent. */
  ghost predicate Created(s: Relays.State, made: Relays.State, r: nat, key: string, id: nat, eventId: string) {
    && Relays.Idle(made, r) && made.now == s.now
    && made.tickets == s.tickets[key := TicketOf(key)] && made.rowOf == s.rowOf[key := id]
    && made.history.Keys == made.rows.Keys == s.rows.Keys + {id}
    && made.rows[id] == NewRow(FieldsOf(TicketOf(key), "", eventId, s.now), s.now)
    && (forall other :: other in s.rows && other != id ==> made.rows[other] == s.rows[other] && s.rows[other].status.Sent?)
  }

  lemma CreateAndClaim(cfg: Config, s: State, r: nat, key: string, id: nat, eventId: string) returns (steps: seq<Step>)
    requires Quiet(s.front, r) && Fresh(s.front.tickets, s.front.rows, key, id, eventId)
    ensures Run(cfg, s, steps)
    ensures Exec(cfg, s, steps).back == s.back && Held(s.front, Exec(cfg, s, steps).front, r, key, id, eventId)
  {
    var create, claim := Relays.Create(TicketOf(key), "", id, eventId), Relays.Claim(r, [id], {});
    CreatesIt(cfg.relays, s.front, r, key, id, eventId);
    var made := Relays.Apply(cfg.relays, s.front, create);
    OnlyDue(cfg.relays, made, id);
    TwoSteps(cfg, s, create, claim);
    steps := [Front(create), Front(claim)];
    ClaimsIt(cfg.relays, s.front, made, r, key, id, eventId);
  }

  lemma TwoSteps(cfg: Config, s: State, first: Relays.Step, second: Relays.Step)
    requires first.Create? && second.Claim? && Relays.Enabled(cfg.relays, s.front, first)
    requires Relays.Enabled(cfg.relays, Relays.Apply(cfg.relays, s.front, first), second)
    ensures Run(cfg, s, [Front(first), Front(second)])
    ensures Exec(cfg, s, [Front(first), Front(second)])
      == s.(front := Relays.Apply(cfg.relays, Relays.Apply(cfg.relays, s.front, first), second))
  {
    RunSnoc(cfg, s, [], Front(first));
    RunSnoc(cfg, s, [] + [Front(first)], Front(second));
    assert [] + [Front(first)] + [Front(second)] == [Front(first), Front(second)];
  }

  lemma CreatesIt(cfg: Relays.Config, s: Relays.State, r: nat, key: string, id: nat, eventId: string)
    requires Quiet(s, r) && Fresh(s.tickets, s.rows, key, id, eventId)
    ensures
      var create := Relays.Create(TicketOf(key), "", id, eventId);
      Relays.Enabled(cfg, s, create) && Created(s, Relays.Apply(cfg, s, create), r, key, id, eventId)
  {
  }

  lemma ClaimsIt(cfg: Relays.Config, s: Relays.State, made: Relays.State, r: nat, key: string, id: nat, eventId: string)
    requires Created(s, made, r, key, id, eventId) && id !in s.rows
    ensures Held(s, Relays.ApplyClaim(cfg, made, r, [id]), r, key, id, eventId)
  {
    var held := Relays.ApplyClaim(cfg, made, r, [id]);
    assert id in [id] && held.relays[r].batch[0].id == id;
  }

  lemma OnlyDue(cfg: Relays.Config, s: Relays.State, id: nat)
    requires id in s.rows && Due(s.rows[id], s.now) && forall other :: other in s.rows && other != id ==> s.rows[other].status.Sent?
    ensures Selects(s.rows, s.now, Limit(cfg.batchSize), {}, [id])
  {
    assert id in [id];
    assert DueIds(s.rows, s.now) == {id};
    assert Elements([id]) == {id};
  }

  /** Relay r holds the row of the ticket alone. */
  lemma PublishAndMark(cfg: Config, s: State, r: nat, key: string, id: nat, eventId: string) returns (steps: seq<Step>)
    requires r in s.front.relays && |s.front.relays[r].batch| == 1 && s.front.relays[r].batch[0].id == id
    requires s.front.relays[r].phase.Unsent? && s.front.relays[r].since <= s.front.now
    requires id in s.front.rows && s.front.history.Keys == s.front.rows.Keys && cfg.partition(key) in s.back.topic
    requires s.front.rows[id].fields == FieldsOf(TicketOf(key), "", eventId, s.front.now)
    ensures Run(cfg, s, steps)
    ensures
      var end := Exec(cfg, s, steps);
      && Relays.Idle(end.front, r) && end.front.history.Keys == s.front.rows.Keys && end.front.now == s.front.now
      && end.front.tickets == s.front.tickets && end.front.rowOf == s.front.rowOf
      && end.front.rows == s.front.rows[id := SetSent(s.front.rows[id], s.front.now)]
      && end.back == Consumer.Apply(cfg.consumer, s.back, Delivery(cfg, Letter(key, eventId, s.front.now)))
  {
    var write, mark := Relays.Write(r, true, true, false), Relays.Mark(r, true, s.front.now, "");
    RunSnoc(cfg, s, [], Front(write));
    RunSnoc(cfg, s, [] + [Front(write)], Front(mark));
    steps := [] + [Front(write)] + [Front(mark)];
  }

  // The consumer's part.

  ghost function Backs(steps: seq<Consumer.Step>): seq<Step> {
    if steps == [] then [] else [Back(steps[0])] + Backs(steps[1..])
  }

  lemma {:induction false} BackRuns(cfg: Config, s: State, steps: seq<Consumer.Step>)
    requires Consumer.Run(cfg.consumer, s.back, steps) && forall i :: 0 <= i < |steps| ==> !steps[i].Append?
    ensures Run(cfg, s, Backs(steps))
    ensures Exec(cfg, s, Backs(steps)) == s.(back := Consumer.Exec(cfg.consumer, s.back, steps))
    decreases |steps|
  {
    if steps != [] {
      assert Backs(steps)[1..] == Backs(steps[1..]);
      BackRuns(cfg, Apply(cfg, s, Back(steps[0])), steps[1..]);
    }
  }

  /** The consumer is at work on this record, and nothing else has changed since state s. */
  ghost predicate Busy(s: Consumer.State, s': Consumer.State, at: Consumer.Place, e: Envelope, attempt: nat, phase: Phase) {
    && s'.topic == s.topic && s'.committed == s.committed && s'.position == s.position
    && s'.trip == Some(Consumer.Trip(at, Flight(Decoded(e), attempt, phase)))
    && s'.notified <= s.notified + {e.eventId}
  }

  ghost predicate InProgress(s: Consumer.State, e: Envelope, attempts: nat) {
    e.eventId in s.ledger && s.ledger[e.eventId].attempts == attempts && s.ledger[e.eventId].standing.InProgress?
  }

  /** A run of the consumer that appends nothing. */
  ghost predicate Reaches(cfg: Consumer.Config, s: Consumer.State, steps: seq<Consumer.Step>, end: Consumer.State) {
    && Consumer.Run(cfg, s, steps) && Consumer.Exec(cfg, s, steps) == end
    && forall i :: 0 <= i < |steps| ==> !steps[i].Append?
  }

  lemma ReachesThen(cfg: Consumer.Config, s: Consumer.State, steps: seq<Consumer.Step>, mid: Consumer.State, step: Consumer.Step)
    requires Reaches(cfg, s, steps, mid) && Consumer.Enabled(cfg, mid, step) && !step.Append?
    ensures Reaches(cfg, s, steps + [step], Consumer.Apply(cfg, mid, step))
  {
    Consumer.RunSnoc(cfg, s, steps, step);
  }

  lemma {:induction false} FailsOften(cfg: Consumer.Config, s: Consumer.State, at: Consumer.Place, e: Envelope, attempts: nat)
    returns (steps: seq<Consumer.Step>, end: Consumer.State)
    requires s.trip == Some(Consumer.Trip(at, Takeoff(Decoded(e)))) && e.eventId !in s.ledger
    requires cfg.settings.Forces(e.eventType) && 1 <= attempts <= cfg.settings.maxAttempts
    ensures Reaches(cfg, s, steps, end) && Busy(s, end, at, e, attempts, Failing) && InProgress(end, e, attempts)
    decreases attempts
  {
    var mid;
    if attempts == 1 {
      steps, mid := [], s;
    } else {
      steps, mid := FailsOften(cfg, s, at, e, attempts - 1);
      ReachesThen(cfg, s, steps, mid, Consumer.Handle(Retry));
      steps, mid := steps + [Consumer.Handle(Retry)], Consumer.Apply(cfg, mid, Consumer.Handle(Retry));
    }
    var start, fail := Consumer.Handle(Start(Succeeded)), Consumer.Handle(Relinquish(Succeeded, ""));
    ReachesThen(cfg, s, steps, mid, start);
    ReachesThen(cfg, s, steps + [start], Consumer.Apply(cfg, mid, start), fail);
    steps, end := steps + [start] + [fail], Consumer.Apply(cfg, Consumer.Apply(cfg, mid, start), fail);
  }

  /** Unless it stalls, the consumer gets to the end of a record. */
  lemma Finishes(cfg: Consumer.Config, s: Consumer.State, at: Consumer.Place, e: Envelope)
    returns (steps: seq<Consumer.Step>, end: Consumer.State, attempt: nat, exit: Exit)
    requires s.trip == Some(Consumer.Trip(at, Takeoff(Decoded(e)))) && e.eventId !in s.ledger
    requires !(cfg.settings.maxAttempts <= 0 && cfg.settings.Forces(e.eventType))
    ensures Reaches(cfg, s, steps, end) && Busy(s, end, at, e, attempt, Leaving(exit))
  {
    var mid;
    var last;
    if cfg.settings.Forces(e.eventType) {
      steps, mid := FailsOften(cfg, s, at, e, cfg.settings.maxAttempts);
      last, attempt, exit := Consumer.Handle(Bury(Succeeded, "")), cfg.settings.maxAttempts, GivenUp;
    } else {
      var start := Consumer.Handle(Start(Succeeded));
      ReachesThen(cfg, s, [], s, start);
      steps, mid := [] + [start], Consumer.Apply(cfg, s, start);
      last, attempt, exit := Consumer.Handle(Finish(Succeeded)), 1, Handled;
    }
    ReachesThen(cfg, s, steps, mid, last);
    steps, end := steps + [last], Consumer.Apply(cfg, mid, last);
  }

  /** The last record of partition p is fetched, handled and committed. */
  lemma Consumes(cfg: Consumer.Config, s: Consumer.State, p: nat, e: Envelope) returns (steps: seq<Consumer.Step>, end: Consumer.State)
    requires s.trip.None? && p in s.topic && p in s.position && s.position[p] + 1 == |s.topic[p]|
    requires s.topic[p][s.position[p]] == Decoded(e) && e.eventId !in s.ledger
    requires !(cfg.settings.maxAttempts <= 0 && cfg.settings.Forces(e.eventType))
    ensures Reaches(cfg, s, steps, end)
    ensures end.topic == s.topic && CaughtUp(end, p) && end.notified <= s.notified + {e.eventId}
  {
    var fetch, commit := Consumer.Fetch(p), Consumer.Commit(Succeeded);
    var fetched := Consumer.Apply(cfg, s, fetch);
    ReachesThen(cfg, s, [], s, fetch);
    var at := Consumer.Place(p, s.position[p]);
    var work, done, attempt, exit := Finishes(cfg, fetched, at, e);
    ReachesOn(cfg, s, [] + [fetch], fetched, work, done);
    ReachesThen(cfg, s, [] + [fetch] + work, done, commit);
    steps, end := [] + [fetch] + work + [commit], Consumer.Apply(cfg, done, commit);
  }

  lemma {:induction false} ReachesOn(cfg: Consumer.Config, s: Consumer.State, first: seq<Consumer.Step>, mid: Consumer.State,
                                     second: seq<Consumer.Step>, end: Consumer.State)
    requires Reaches(cfg, s, first, mid) && Reaches(cfg, mid, second, end)
    ensures Reaches(cfg, s, first + second, end)
    decreases |first|
  {
    if first == [] {
      assert first + second == second;
    } else {
      ReachesOn(cfg, Consumer.Apply(cfg, s, first[0]), first[1..], mid, second, end);
      assert (first + second)[1..] == first[1..] + second;
    }
  }

  // The two halves together.

  /** The message of ticket a has been skipped and that of ticket b is next. */
  ghost predicate Skipping(cfg: Config, s: State, a: string, b: string) {
    var p := cfg.partition(a);
    && a in s.front.tickets && a in s.front.rowOf && s.front.rowOf[a] == 0
    && 0 in s.front.rows && s.front.rows[0].status.Sent? && s.front.rows[0].fields.eventId == "a"
    && s.back.trip.None? && s.back.ledger == map[] && s.back.notified == {}
    && p in s.back.topic && p in s.back.position && s.back.position[p] == 1
    && s.back.topic[p] == [Decoded(Letter(a, "a", 0).envelope), Decoded(Letter(b, "b", 0).envelope)]
  }

  lemma Skip(cfg: Config, relays: set<nat>, r: nat, partitions: set<nat>, anchored: set<nat>, a: string, b: string)
    returns (steps: seq<Step>)
    requires r in relays && anchored <= partitions && !cfg.consumer.startFirst
    requires a != b && cfg.partition(a) == cfg.partition(b) && cfg.partition(a) in partitions && cfg.partition(a) !in anchored
    ensures Run(cfg, Initial(relays, partitions, anchored), steps)
    ensures Skipping(cfg, Exec(cfg, Initial(relays, partitions, anchored), steps), a, b)
  {
    var start := Initial(relays, partitions, anchored);
    var first := Ship(cfg, start, r, a, 0, "a");
    var one := Exec(cfg, start, first);
    RunSnoc(cfg, start, first, Back(Consumer.Crash));
    var restarted := Apply(cfg, one, Back(Consumer.Crash));
    JumpsBehind(cfg, relays, partitions, anchored, r, one, a);
    assert "a" != "b";
    var second := Ship(cfg, restarted, r, b, 1, "b");
    RunConcat(cfg, start, first + [Back(Consumer.Crash)], second);
    steps := first + [Back(Consumer.Crash)] + second;
    SecondIsNext(cfg, restarted, Exec(cfg, restarted, second), r, a, b);
  }

  /** The reader stands behind the message of ticket a, the only one so far. */
  ghost predicate Behind(cfg: Config, s: State, r: nat, a: string) {
    var p := cfg.partition(a);
    && Quiet(s.front, r) && s.front.now == 0
    && s.front.tickets == map[a := TicketOf(a)] && s.front.rowOf == map[a := 0] && s.front.rows.Keys == {0}
    && s.front.rows[0].fields == FieldsOf(TicketOf(a), "", "a", 0)
    && s.back.trip.None? && s.back.ledger == map[] && s.back.notified == {}
    && p in s.back.topic && p in s.back.position && s.back.position[p] == 1
    && s.back.topic[p] == [Decoded(Letter(a, "a", 0).envelope)]
  }

  lemma JumpsBehind(cfg: Config, relays: set<nat>, partitions: set<nat>, anchored: set<nat>, r: nat, one: State, a: string)
    requires anchored <= partitions && !cfg.consumer.startFirst && cfg.partition(a) in partitions && cfg.partition(a) !in anchored
    requires Shipped(cfg, Initial(relays, partitions, anchored), one, r, a, 0, "a")
    ensures Behind(cfg, Apply(cfg, one, Back(Consumer.Crash)), r, a)
  {
    assert one.back.topic[cfg.partition(a)] == [] + [Decoded(Letter(a, "a", 0).envelope)];
  }

  lemma SecondIsNext(cfg: Config, s: State, end: State, r: nat, a: string, b: string)
    requires Behind(cfg, s, r, a) && a != b && cfg.partition(a) == cfg.partition(b) && Shipped(cfg, s, end, r, b, 1, "b")
    ensures Skipping(cfg, end, a, b)
  {
  }

  /** A ticket whose only record is skipped, and another whose record is committed behind it. */
  lemma SkippedTicket(cfg: Config, relays: set<nat>, r: nat, partitions: set<nat>, anchored: set<nat>, a: string, b: string)
    returns (steps: seq<Step>)
    requires r in relays && anchored <= partitions && !cfg.consumer.startFirst && !Stalls(cfg.consumer.settings)
    requires a != b && cfg.partition(a) == cfg.partition(b) && cfg.partition(a) in partitions && cfg.partition(a) !in anchored
    ensures Run(cfg, Initial(relays, partitions, anchored), steps)
    ensures a in Exec(cfg, Initial(relays, partitions, anchored), steps).front.tickets
    ensures !Tracked(cfg, Exec(cfg, Initial(relays, partitions, anchored), steps), a)
  {
    var start := Initial(relays, partitions, anchored);
    var skip := Skip(cfg, relays, r, partitions, anchored, a, b);
    var s := Exec(cfg, start, skip);
    var rest, end := Consumes(cfg.consumer, s.back, cfg.partition(a), Letter(b, "b", 0).envelope);
    BackRuns(cfg, s, rest);
    RunConcat(cfg, start, skip, Backs(rest));
    steps := skip + Backs(rest);
    assert "a" != "b" && !Arrived(end, "a");
  }

  /** Nothing is lost in any run exactly when the reader starts at the first offset, or each partition without a commit to begin
      with can receive the records of one ticket only, or the consumer never gets past its first record anyway. */
  lemma NothingLostExactly(cfg: Config, relays: set<nat>, r: nat, partitions: set<nat>, anchored: set<nat>)
    requires r in relays && anchored <= partitions
    ensures NothingLost(cfg, relays, partitions, anchored)
      <==> (|| cfg.consumer.startFirst
            || AllSheltered(cfg, partitions, anchored)
            || (cfg.consumer.settings.maxAttempts <= 0 && Forced(cfg.consumer.settings, "ticket.created")))
  {
    ForcesExactly(cfg.consumer.settings, "ticket.created");
    if cfg.consumer.startFirst || Stalls(cfg.consumer.settings) || AllSheltered(cfg, partitions, anchored) {
      forall steps, ticket |
        Run(cfg, Initial(relays, partitions, anchored), steps)
        && ticket in Exec(cfg, Initial(relays, partitions, anchored), steps).front.tickets
        ensures Tracked(cfg, Exec(cfg, Initial(relays, partitions, anchored), steps), ticket)
      {
        NoLoss(cfg, relays, partitions, anchored, steps, ticket);
      }
    } else {
      var a, b :| a != b && cfg.partition(a) == cfg.partition(b) && cfg.partition(a) in partitions && cfg.partition(a) !in anchored;
      var steps := SkippedTicket(cfg, relays, r, partitions, anchored, a, b);
    }
  }
}
