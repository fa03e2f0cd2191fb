/** Without database faults the outcome of consuming the topic depends only on which events are in it:
    not on their order, on duplicates, or on where the consumer crashes and what is delivered again. */
module Idempotence {
  import opened Base
  import opened Text
  import opened Events
  import opened ProcessedEvents
  import opened Handling
  import opened Consumer

  /** The event ids of the topic, each with its one envelope. */
  type Registry = map<string, Envelope>

  /** No database call fails, and records of the same event are copies of each other. */
  ghost predicate Calm(events: Registry, step: Step) {
    match step
    case Append(_, Decoded(e)) => e.eventId in events && events[e.eventId] == e
    case Handle(Start(call)) => call.Succeeded?
    case Handle(Finish(call)) => call.Succeeded?
    case Handle(Relinquish(call, _)) => call.Succeeded?
    case Handle(Bury(call, _)) => call.Succeeded?
    case _ => true
  }

  ghost predicate CalmRun(cfg: Consumer.Config, events: Registry, s: State, steps: seq<Step>) {
    Run(cfg, s, steps) && forall i :: 0 <= i < |steps| ==> Calm(events, steps[i])
  }

  function Expected(settings: Settings, e: Envelope): Standing {
    if settings.Forces(e.eventType) then Dead else Done
  }

  ghost predicate Authentic(events: Registry, body: Body) {
    body.Decoded? ==> body.envelope.eventId in events && events[body.envelope.eventId] == body.envelope
  }

  ghost predicate InTopic(topic: map<nat, seq<Body>>, eventId: string) {
    exists p, o :: p in topic && 0 <= o < |topic[p]| && topic[p][o].Decoded? && topic[p][o].envelope.eventId == eventId
  }

  ghost predicate LedgerCalm(settings: Settings, events: Registry, s: State) {
    forall id :: id in s.ledger ==>
      && id in events && InTopic(s.topic, id)
      && (s.ledger[id].standing.Final() ==> s.ledger[id].standing == Expected(settings, events[id]))
  }

  ghost predicate TripCalm(settings: Settings, s: State) {
    s.trip.Some? ==>
      var f := s.trip.value.flight;
      && Written(s, s.trip.value.place) && f.body == RecordAt(s, s.trip.value.place)
      && !f.phase.Erred?
      && (f.phase.Failing? ==> f.body.Decoded? && settings.Forces(f.body.envelope.eventType))
  }

  ghost predicate CalmInv(settings: Settings, events: Registry, s: State) {
    && s.givenUp == {}
    && (forall p, o :: p in s.topic && 0 <= o < |s.topic[p]| ==> Authentic(events, s.topic[p][o]))
    && LedgerCalm(settings, events, s)
    && TripCalm(settings, s)
  }

  lemma CalmStep(cfg: Consumer.Config, events: Registry, s: State, step: Step)
    requires CalmInv(cfg.settings, events, s) && Enabled(cfg, s, step) && Calm(events, step)
    ensures CalmInv(cfg.settings, events, Apply(cfg, s, step))
  {
    match step
    case Append(p, body) => CalmAppend(cfg, events, s, p, body);
    case Handle(act) => CalmHandle(cfg, events, s, act);
    case _ =>
  }

  lemma CalmAppend(cfg: Consumer.Config, events: Registry, s: State, p: nat, body: Body)
    requires CalmInv(cfg.settings, events, s) && p in s.topic && Calm(events, Append(p, body))
    ensures CalmInv(cfg.settings, events, Apply(cfg, s, Append(p, body)))
  {
    var s' := Apply(cfg, s, Append(p, body));
    forall id | InTopic(s.topic, id)
      ensures InTopic(s'.topic, id)
    {
      var q, o :| q in s.topic && 0 <= o < |s.topic[q]| && s.topic[q][o].Decoded? && s.topic[q][o].envelope.eventId == id;
      assert s'.topic[q][o] == s.topic[q][o];
    }
  }

  lemma CalmHandle(cfg: Consumer.Config, events: Registry, s: State, act: Act)
    requires CalmInv(cfg.settings, events, s) && Enabled(cfg, s, Handle(act)) && Calm(events, Handle(act))
    ensures CalmInv(cfg.settings, events, ApplyHandle(cfg, s, act))
  {
    var f := s.trip.value.flight;
    var at := s.trip.value.place;
    assert Authentic(events, s.topic[at.partition][at.offset]);
    if f.body.Decoded? {
      assert InTopic(s.topic, f.body.envelope.eventId);
    }
  }

  lemma {:induction false} CalmKept(cfg: Consumer.Config, events: Registry, s: State, steps: seq<Step>)
    requires CalmInv(cfg.settings, events, s) && CalmRun(cfg, events, s, steps)
    ensures CalmInv(cfg.settings, events, Exec(cfg, s, steps))
    decreases |steps|
  {
    if steps != [] {
      CalmStep(cfg, events, s, steps[0]);
      CalmKept(cfg, events, Apply(cfg, s, steps[0]), steps[1..]);
    }
  }

  /** Every record has been fetched, handled and committed. */
  ghost predicate Drained(s: State) {
    s.trip.None? && forall p, o :: p in s.topic && 0 <= o < |s.topic[p]| ==> Below(s, Place(p, o))
  }

  ghost function EventsOf(topic: map<nat, seq<Body>>): set<Envelope> {
    set p, o | p in topic && 0 <= o < |topic[p]| && topic[p][o].Decoded? :: topic[p][o].envelope
  }

  function Standings(ledger: Ledger): map<string, Standing> {
    map id | id in ledger :: ledger[id].standing
  }

  lemma RowPerEvent(cfg: Consumer.Config, events: Registry, partitions: set<nat>, anchored: set<nat>, steps: seq<Step>)
    requires anchored <= partitions && (cfg.startFirst || partitions <= anchored)
    requires CalmRun(cfg, events, Initial(partitions, anchored), steps)
    requires Drained(Exec(cfg, Initial(partitions, anchored), steps))
    ensures
      var end := Exec(cfg, Initial(partitions, anchored), steps);
      && (forall e :: e in EventsOf(end.topic) ==> e.eventId in end.ledger)
      && (forall id :: id in end.ledger ==> exists e :: e in EventsOf(end.topic) && e.eventId == id)
      && (forall e :: e in EventsOf(end.topic) ==> end.ledger[e.eventId].standing == Expected(cfg.settings, e))
  {
    var s0 := Initial(partitions, anchored);
    CalmKept(cfg, events, s0, steps);
    SamePartitions(cfg, s0, steps);
    var end := Exec(cfg, s0, steps);
    forall e | e in EventsOf(end.topic)
      ensures e.eventId in end.ledger && end.ledger[e.eventId].standing == Expected(cfg.settings, e)
    {
      var p, o :| p in end.topic && 0 <= o < |end.topic[p]| && end.topic[p][o] == Decoded(e);
      ServedBelow(cfg, partitions, anchored, steps, Place(p, o));
      assert Authentic(events, end.topic[p][o]);
    }
    forall id | id in end.ledger
      ensures exists e :: e in EventsOf(end.topic) && e.eventId == id
    {
      var p, o :| p in end.topic && 0 <= o < |end.topic[p]| && end.topic[p][o].Decoded? && end.topic[p][o].envelope.eventId == id;
      assert end.topic[p][o].envelope in EventsOf(end.topic);
    }
  }

  /** A drained topic leaves exactly one row per event, failed for the types that are forced to fail and done for the rest. */
  lemma DrainedOutcome(cfg: Consumer.Config, events: Registry, partitions: set<nat>, anchored: set<nat>, steps: seq<Step>)
    requires anchored <= partitions && (cfg.startFirst || partitions <= anchored)
    requires CalmRun(cfg, events, Initial(partitions, anchored), steps)
    requires Drained(Exec(cfg, Initial(partitions, anchored), steps))
    ensures
      var end := Exec(cfg, Initial(partitions, anchored), steps);
      && (forall e :: e in EventsOf(end.topic) ==> e.eventId in end.ledger)
      && (forall id :: id in end.ledger ==> exists e :: e in EventsOf(end.topic) && e.eventId == id)
      && (forall e :: e in EventsOf(end.topic) ==>
            end.ledger[e.eventId].standing == if Forced(cfg.settings, e.eventType) then Dead else Done)
  {
    RowPerEvent(cfg, events, partitions, anchored, steps);
    var end := Exec(cfg, Initial(partitions, anchored), steps);
    forall e | e in EventsOf(end.topic)
      ensures end.ledger[e.eventId].standing == if Forced(cfg.settings, e.eventType) then Dead else Done
    {
      ForcesExactly(cfg.settings, e.eventType);
    }
  }

  /** With NOTIFY_FORCE_FAIL off every row is done. With it on, and no more than white space for the type, every row is failed. */
  lemma UniformOutcome(cfg: Consumer.Config, events: Registry, partitions: set<nat>, anchored: set<nat>, steps: seq<Step>, id: string)
    requires anchored <= partitions && (cfg.startFirst || partitions <= anchored)
    requires CalmRun(cfg, events, Initial(partitions, anchored), steps)
    requires Drained(Exec(cfg, Initial(partitions, anchored), steps))
    requires id in Exec(cfg, Initial(partitions, anchored), steps).ledger
    ensures
      var row := Exec(cfg, Initial(partitions, anchored), steps).ledger[id];
      && (!cfg.settings.forceFail ==> row.standing == Done)
      && (cfg.settings.forceFail && AllWhite(cfg.settings.forceFailEventType) ==> row.standing == Dead)
  {
    DrainedOutcome(cfg, events, partitions, anchored, steps);
  }

  /** Two consumers that drain topics holding the same events agree on every event. */
  lemma SameEventsSameOutcome(
    cfg: Consumer.Config, events: Registry,
    partitions1: set<nat>, anchored1: set<nat>, steps1: seq<Step>,
    partitions2: set<nat>, anchored2: set<nat>, steps2: seq<Step>)
    requires anchored1 <= partitions1 && (cfg.startFirst || partitions1 <= anchored1)
    requires anchored2 <= partitions2 && (cfg.startFirst || partitions2 <= anchored2)
    requires CalmRun(cfg, events, Initial(partitions1, anchored1), steps1)
    requires CalmRun(cfg, events, Initial(partitions2, anchored2), steps2)
    requires Drained(Exec(cfg, Initial(partitions1, anchored1), steps1))
    requires Drained(Exec(cfg, Initial(partitions2, anchored2), steps2))
    requires EventsOf(Exec(cfg, Initial(partitions1, anchored1), steps1).topic)
      == EventsOf(Exec(cfg, Initial(partitions2, anchored2), steps2).topic)
    ensures Standings(Exec(cfg, Initial(partitions1, anchored1), steps1).ledger)
      == Standings(Exec(cfg, Initial(partitions2, anchored2), steps2).ledger)
  {
    RowPerEvent(cfg, events, partitions1, anchored1, steps1);
    RowPerEvent(cfg, events, partitions2, anchored2, steps2);
    var end1 := Exec(cfg, Initial(partitions1, anchored1), steps1);
    var end2 := Exec(cfg, Initial(partitions2, anchored2), steps2);
    forall id | id in end1.ledger || id in end2.ledger
      ensures id in end1.ledger && id in end2.ledger && end1.ledger[id].standing == end2.ledger[id].standing
    {
      var e :| e in EventsOf(end1.topic) && e.eventId == id;
    }
  }

  // Attempts, when the consumer never crashes.

  /** A row in progress belongs to the record underway; a settled row has taken exactly the attempts its outcome needs. */
  ghost predicate Counted(settings: Settings, s: State) {
    forall id :: id in s.ledger ==> RowCounted(settings, s.trip, id, s.ledger[id])
  }

  ghost predicate RowCounted(settings: Settings, trip: Option<Trip>, id: string, row: Processed) {
    match row.standing
    case Done => row.attempts == 1
    case Dead => row.attempts == settings.maxAttempts
    case InProgress => Carries(settings, trip, id, row.attempts)
  }

  ghost predicate Carries(settings: Settings, trip: Option<Trip>, id: string, attempts: nat) {
    trip.Some? &&
    var f := trip.value.flight;
    && f.body.Decoded? && f.body.envelope.eventId == id && f.attempt == attempts
    && !f.phase.Leaving?
    && 1 <= attempts <= settings.maxAttempts
    && (attempts > 1 || !f.phase.Executing? ==> settings.Forces(f.body.envelope.eventType))
    && (f.phase.Ready? ==> attempts < settings.maxAttempts)
  }

  /** The record underway has its event in progress from its first attempt to its last, and settled when it leaves. */
  ghost predicate Working(s: State) {
    s.trip.Some? && s.trip.value.flight.body.Decoded? ==>
      var f := s.trip.value.flight;
      && (f.phase.Executing? || f.phase.Failing? || (f.phase.Ready? && f.attempt > 0) ==>
            f.body.envelope.eventId in s.ledger && s.ledger[f.body.envelope.eventId].standing.InProgress?)
      && (f.phase.Leaving? ==> Settles(s.ledger, f.body.envelope.eventId))
  }

  lemma CountedStep(cfg: Consumer.Config, events: Registry, s: State, step: Step)
    requires cfg.settings.maxAttempts > 0 && CalmInv(cfg.settings, events, s) && Counted(cfg.settings, s) && Working(s)
    requires Enabled(cfg, s, step) && Calm(events, step) && !step.Crash?
    ensures Counted(cfg.settings, Apply(cfg, s, step)) && Working(Apply(cfg, s, step))
  {
    if step.Handle? {
      CountedHandle(cfg, events, s, step.act);
    } else {
      assert forall id :: id in s.ledger && s.ledger[id].standing.InProgress? ==> Carries(cfg.settings, s.trip, id, s.ledger[id].attempts);
    }
  }

  lemma CountedHandle(cfg: Consumer.Config, events: Registry, s: State, act: Act)
    requires cfg.settings.maxAttempts > 0 && CalmInv(cfg.settings, events, s) && Counted(cfg.settings, s) && Working(s)
    requires Enabled(cfg, s, Handle(act)) && Calm(events, Handle(act))
    ensures Counted(cfg.settings, ApplyHandle(cfg, s, act)) && Working(ApplyHandle(cfg, s, act))
  {
    var s' := ApplyHandle(cfg, s, act);
    var f := s.trip.value.flight;
    if f.body.Decoded? {
      var e := f.body.envelope.eventId;
      OtherRows(s.ledger, f, act, s.now);
      OwnRow(cfg, events, s, act);
      OneInProgress(cfg.settings, s);
    }
  }

  /** Only the event of the record underway can be in progress. */
  lemma OneInProgress(settings: Settings, s: State)
    requires Counted(settings, s)
    ensures forall id :: id in s.ledger && s.ledger[id].standing.InProgress? ==>
      s.trip.Some? && s.trip.value.flight.body.Decoded? && s.trip.value.flight.body.envelope.eventId == id
  {
    forall id | id in s.ledger && s.ledger[id].standing.InProgress?
      ensures Carries(settings, s.trip, id, s.ledger[id].attempts)
    {
      assert RowCounted(settings, s.trip, id, s.ledger[id]);
    }
  }

  lemma OtherRows(ledger: Ledger, f: Flight, act: Act, now: int)
    requires f.body.Decoded?
    ensures forall id :: id != f.body.envelope.eventId ==>
      (id in Effect(ledger, f, act, now) <==> id in ledger) && (id in ledger ==> Effect(ledger, f, act, now)[id] == ledger[id])
  {
  }

  lemma OwnRow(cfg: Consumer.Config, events: Registry, s: State, act: Act)
    requires cfg.settings.maxAttempts > 0 && CalmInv(cfg.settings, events, s) && Counted(cfg.settings, s) && Working(s)
    requires Enabled(cfg, s, Handle(act)) && Calm(events, Handle(act)) && s.trip.value.flight.body.Decoded?
    ensures Working(ApplyHandle(cfg, s, act))
    ensures
      var s' := ApplyHandle(cfg, s, act);
      var e := s.trip.value.flight.body.envelope.eventId;
      e in s'.ledger ==> RowCounted(cfg.settings, s'.trip, e, s'.ledger[e])
  {
    var e := s.trip.value.flight.body.envelope.eventId;
    assert e in s.ledger ==> RowCounted(cfg.settings, s.trip, e, s.ledger[e]);
  }

  lemma {:induction false} CountedKept(cfg: Consumer.Config, events: Registry, s: State, steps: seq<Step>)
    requires cfg.settings.maxAttempts > 0 && CalmInv(cfg.settings, events, s)
    requires Counted(cfg.settings, s) && Working(s)
    requires CalmRun(cfg, events, s, steps) && forall i :: 0 <= i < |steps| ==> !steps[i].Crash?
    ensures Counted(cfg.settings, Exec(cfg, s, steps))
    decreases |steps|
  {
    if steps != [] {
      CalmStep(cfg, events, s, steps[0]);
      CountedStep(cfg, events, s, steps[0]);
      CountedKept(cfg, events, Apply(cfg, s, steps[0]), steps[1..]);
    }
  }

  /** Without crashes a done event has taken one attempt and a failed one exactly maxAttempts, however often it was delivered. */
  lemma ExactAttempts(cfg: Consumer.Config, events: Registry, partitions: set<nat>, anchored: set<nat>, steps: seq<Step>, id: string)
    requires cfg.settings.maxAttempts > 0
    requires CalmRun(cfg, events, Initial(partitions, anchored), steps)
    requires forall i :: 0 <= i < |steps| ==> !steps[i].Crash?
    requires id in Exec(cfg, Initial(partitions, anchored), steps).ledger
    ensures
      var row := Exec(cfg, Initial(partitions, anchored), steps).ledger[id];
      && (row.standing.Done? ==> row.attempts == 1)
      && (row.standing.Dead? ==> row.attempts == cfg.settings.maxAttempts)
  {
    CountedKept(cfg, events, Initial(partitions, anchored), steps);
  }
}
