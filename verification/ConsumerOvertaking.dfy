/** When a settled event stays settled although several deliveries of it are underway: the consumer's updates match on the
    event id alone, so a delivery that lags behind can take a row back. */
module ConsumerOvertaking {
  import opened Base
  import opened Events
  import opened ProcessedEvents
  import opened Handling
  import opened ManyConsumers

  /** No database call fails, and only these events are delivered. */
  ghost predicate Faultless(events: set<Envelope>, step: Step) {
    && (step.Do? ==> !Faulty(step.act))
    && (step.Deliver? && step.body.Decoded? ==> step.body.envelope in events)
  }

  ghost predicate FaultlessRun(settings: Settings, events: set<Envelope>, s: State, steps: seq<Step>) {
    Run(settings, s, steps) && forall i :: 0 <= i < |steps| ==> Faultless(events, steps[i])
  }

  /** No settled event of the one table is unsettled in the other. */
  ghost predicate KeepsSettled(ledger: Ledger, ledger': Ledger) {
    forall id :: Settles(ledger, id) ==> Settles(ledger', id)
  }

  ghost predicate SettledStay(settings: Settings, events: set<Envelope>) {
    forall steps, more ::
      FaultlessRun(settings, events, START, steps) && FaultlessRun(settings, events, Exec(settings, START, steps), more) ==>
      KeepsSettled(Exec(settings, START, steps).ledger, Exec(settings, Exec(settings, START, steps), more).ledger)
  }

  /** An event that is forced to fail can never be settled: nobody gives up on it, and nobody is done with a copy of it. */
  predicate NeverSettles(settings: Settings, events: set<Envelope>, eventId: string) {
    settings.maxAttempts <= 0 && forall e :: e in events && e.eventId == eventId ==> settings.Forces(e.eventType)
  }

  predicate Harmless(settings: Settings, events: set<Envelope>) {
    forall e :: e in events ==> !settings.Forces(e.eventType) || NeverSettles(settings, events, e.eventId)
  }

  // The sufficient half.

  ghost predicate Inv(settings: Settings, events: set<Envelope>, s: State) {
    && (forall d :: d in s.flights ==> !s.flights[d].phase.Erred? && (s.flights[d].body.Decoded? ==> s.flights[d].body.envelope in events))
    && (forall e :: e in events && settings.Forces(e.eventType) ==> !Settles(s.ledger, e.eventId))
  }

  lemma InvStep(settings: Settings, events: set<Envelope>, s: State, step: Step)
    requires Harmless(settings, events) && Inv(settings, events, s) && Enabled(settings, s, step) && Faultless(events, step)
    ensures Inv(settings, events, Apply(settings, s, step)) && KeepsSettled(s.ledger, Apply(settings, s, step).ledger)
  {
    if step.Do? && s.flights[step.d].body.Decoded? {
      InvDo(settings, events, s, step.d, step.act);
    }
  }

  lemma InvDo(settings: Settings, events: set<Envelope>, s: State, d: nat, act: Act)
    requires Harmless(settings, events) && Inv(settings, events, s)
    requires d in s.flights && Can(settings, s.flights[d], act) && !Faulty(act) && s.flights[d].body.Decoded?
    ensures Inv(settings, events, ApplyDo(settings, s, d, act)) && KeepsSettled(s.ledger, ApplyDo(settings, s, d, act).ledger)
  {
    var f := s.flights[d];
    var ledger' := Effect(s.ledger, f, act, s.now);
    forall id | id != f.body.envelope.eventId
      ensures Settles(ledger', id) == Settles(s.ledger, id)
    {
    }
    if settings.Forces(f.body.envelope.eventType) {
      assert NeverSettles(settings, events, f.body.envelope.eventId);
    }
  }

  lemma {:induction false} InvRun(settings: Settings, events: set<Envelope>, s: State, steps: seq<Step>)
    requires Harmless(settings, events) && Inv(settings, events, s) && FaultlessRun(settings, events, s, steps)
    ensures Inv(settings, events, Exec(settings, s, steps)) && KeepsSettled(s.ledger, Exec(settings, s, steps).ledger)
    decreases |steps|
  {
    if steps != [] {
      InvStep(settings, events, s, steps[0]);
      InvRun(settings, events, Apply(settings, s, steps[0]), steps[1..]);
    }
  }

  // The necessary half.

  lemma {:induction false} RunSnoc(settings: Settings, events: set<Envelope>, s: State, steps: seq<Step>, step: Step)
    requires FaultlessRun(settings, events, s, steps)
    requires Enabled(settings, Exec(settings, s, steps), step) && Faultless(events, step)
    ensures FaultlessRun(settings, events, s, steps + [step])
    ensures Exec(settings, s, steps + [step]) == Apply(settings, Exec(settings, s, steps), step)
    decreases |steps|
  {
    if steps == [] {
      assert ([step])[1..] == [] && [] + [step] == [step];
      assert Run(settings, Apply(settings, s, step), []);
    } else {
      RunSnoc(settings, events, Apply(settings, s, steps[0]), steps[1..], step);
      assert (steps + [step])[1..] == steps[1..] + [step];
    }
  }

  /** Delivery 0 is alone and its handling of event e has failed this often. */
  ghost predicate Failed(s: State, e: Envelope, attempts: nat) {
    && s.flights == map[0 := Flight(Decoded(e), attempts, Failing)] && s.used == {0}
    && e.eventId in s.ledger && s.ledger[e.eventId].attempts == attempts && s.ledger[e.eventId].standing.InProgress?
  }

  lemma {:induction false} FailOften(settings: Settings, events: set<Envelope>, e: Envelope, attempts: nat) returns (steps: seq<Step>)
    requires e in events && settings.Forces(e.eventType) && 1 <= attempts <= settings.maxAttempts
    ensures FaultlessRun(settings, events, START, steps) && Failed(Exec(settings, START, steps), e, attempts)
  {
    var first;
    if attempts == 1 {
      first := Deliver(0, Decoded(e));
      steps := [];
    } else {
      first := Do(0, Retry);
      steps := FailOften(settings, events, e, attempts - 1);
    }
    var start, fail := Do(0, Start(Succeeded)), Do(0, Relinquish(Succeeded, "forced failure"));
    RunSnoc(settings, events, START, steps, first);
    RunSnoc(settings, events, START, steps + [first], start);
    RunSnoc(settings, events, START, steps + [first] + [start], fail);
    steps := steps + [first] + [start] + [fail];
  }

  /** While delivery 0 gives the event up, delivery 1 is still at work on it; its MarkFailed takes the row back. */
  lemma GivenUpAndTakenBack(settings: Settings, events: set<Envelope>, e: Envelope) returns (steps: seq<Step>, more: seq<Step>)
    requires e in events && settings.Forces(e.eventType) && settings.maxAttempts > 0
    ensures FaultlessRun(settings, events, START, steps) && FaultlessRun(settings, events, Exec(settings, START, steps), more)
    ensures !KeepsSettled(Exec(settings, START, steps).ledger, Exec(settings, Exec(settings, START, steps), more).ledger)
  {
    steps := FailOften(settings, events, e, settings.maxAttempts);
    var second, start, bury := Deliver(1, Decoded(e)), Do(1, Start(Succeeded)), Do(0, Bury(Succeeded, ""));
    RunSnoc(settings, events, START, steps, second);
    RunSnoc(settings, events, START, steps + [second], start);
    RunSnoc(settings, events, START, steps + [second] + [start], bury);
    steps := steps + [second] + [start] + [bury];
    more := TakenBack(settings, events, Exec(settings, START, steps), 1, e);
  }

  /** While delivery 1 is done with one copy of the event, delivery 0 is still at work on another that is forced to fail. */
  lemma DoneAndTakenBack(settings: Settings, events: set<Envelope>, e: Envelope, other: Envelope) returns (steps: seq<Step>, more: seq<Step>)
    requires e in events && settings.Forces(e.eventType)
    requires other in events && other.eventId == e.eventId && !settings.Forces(other.eventType)
    ensures FaultlessRun(settings, events, START, steps) && FaultlessRun(settings, events, Exec(settings, START, steps), more)
    ensures !KeepsSettled(Exec(settings, START, steps).ledger, Exec(settings, Exec(settings, START, steps), more).ledger)
  {
    var first, start0 := Deliver(0, Decoded(e)), Do(0, Start(Succeeded));
    var second, start1, finish := Deliver(1, Decoded(other)), Do(1, Start(Succeeded)), Do(1, Finish(Succeeded));
    RunSnoc(settings, events, START, [], first);
    RunSnoc(settings, events, START, [] + [first], start0);
    RunSnoc(settings, events, START, [] + [first] + [start0], second);
    RunSnoc(settings, events, START, [] + [first] + [start0] + [second], start1);
    RunSnoc(settings, events, START, [] + [first] + [start0] + [second] + [start1], finish);
    steps := [] + [first] + [start0] + [second] + [start1] + [finish];
    more := TakenBack(settings, events, Exec(settings, START, steps), 0, e);
  }

  lemma TakenBack(settings: Settings, events: set<Envelope>, s: State, d: nat, e: Envelope) returns (more: seq<Step>)
    requires e in events && settings.Forces(e.eventType) && Settles(s.ledger, e.eventId)
    requires d in s.flights && s.flights[d].body == Decoded(e) && s.flights[d].phase.Executing?
    ensures FaultlessRun(settings, events, s, more) && !KeepsSettled(s.ledger, Exec(settings, s, more).ledger)
  {
    var fail := Do(d, Relinquish(Succeeded, "forced failure"));
    RunSnoc(settings, events, s, [], fail);
    more := [] + [fail];
    assert Settles(s.ledger, e.eventId) && !Settles(Exec(settings, s, more).ledger, e.eventId);
  }

  /** Any number of consumers that may crash, no database fault: a row that is done or failed stays so in every run exactly when each event
      delivered is not forced to fail, or can never be settled at all. With maxAttempts > 0 and events whose copies agree this
      says that no event type that occurs is forced to fail. */
  lemma SettledStayExactly(settings: Settings, events: set<Envelope>)
    ensures SettledStay(settings, events) <==>
      forall e :: e in events && Forced(settings, e.eventType) ==>
        && settings.maxAttempts <= 0
        && forall other :: other in events && other.eventId == e.eventId ==> Forced(settings, other.eventType)
  {
    forall e | e in events
      ensures settings.Forces(e.eventType) <==> Forced(settings, e.eventType)
    {
      ForcesExactly(settings, e.eventType);
    }
    HarmlessExactly(settings, events);
  }

  lemma HarmlessExactly(settings: Settings, events: set<Envelope>)
    ensures SettledStay(settings, events) <==> Harmless(settings, events)
  {
    if Harmless(settings, events) {
      forall steps, more |
        FaultlessRun(settings, events, START, steps) && FaultlessRun(settings, events, Exec(settings, START, steps), more)
        ensures KeepsSettled(Exec(settings, START, steps).ledger, Exec(settings, Exec(settings, START, steps), more).ledger)
      {
        InvRun(settings, events, START, steps);
        InvRun(settings, events, Exec(settings, START, steps), more);
      }
    } else {
      var e :| e in events && settings.Forces(e.eventType) && !NeverSettles(settings, events, e.eventId);
      if settings.maxAttempts > 0 {
        var steps, more := GivenUpAndTakenBack(settings, events, e);
      } else {
        var other :| other in events && other.eventId == e.eventId && !settings.Forces(other.eventType);
        var steps, more := DoneAndTakenBack(settings, events, e, other);
      }
    }
  }
}
