/** One consumer, its partition offsets and the processed_events table: the main loop of cmd/notification-service/main.go
    over internal/shared/kafkax/consumer.go, with failing commits, reopened readers, crashes and database errors. */
module Consumer {
  import opened Base
  import opened Outbox
  import opened Events
  import opened ProcessedEvents
  import opened Handling

  /** `startFirst` is the reader's start offset for a partition without a committed offset: first, or last. */
  datatype Config = Config(settings: Settings, startFirst: bool)

  datatype Place = Place(partition: nat, offset: nat)

  datatype Trip = Trip(place: Place, flight: Flight)

  /** `notified` holds the events whose notification has gone out at least once, `givenUp` the places whose record was
      given up at maxAttempts by a MarkDead that returned an error and did not take effect. */
  datatype State = State(
    now: int, topic: map<nat, seq<Body>>, committed: map<nat, nat>, position: map<nat, nat>, trip: Option<Trip>,
    ledger: Ledger, notified: set<string>, givenUp: set<Place>)

  datatype Step =
    | Advance(t: int)
    | Append(p: nat, body: Body)
    | Fetch(p: nat)
    | Handle(act: Act)
    | Commit(call: Call)
    | Reopen
    | Crash

  /** Empty partitions; those in `anchored` already have a committed offset. */
  ghost function Initial(partitions: set<nat>, anchored: set<nat>): State {
    State(0, map p | p in partitions :: [], map p | p in anchored :: 0, map p | p in partitions :: 0, None, map[], {}, {})
  }

  /** Where a fresh reader continues. */
  function ResumeAt(cfg: Config, s: State, p: nat): nat
    requires p in s.topic
  {
    if p in s.committed then s.committed[p] else if cfg.startFirst then 0 else |s.topic[p]|
  }

  ghost function Resumed(cfg: Config, s: State): State {
    s.(position := map p | p in s.topic :: ResumeAt(cfg, s, p), trip := None)
  }

  ghost predicate Enabled(cfg: Config, s: State, step: Step) {
    match step
    case Advance(t) => s.now <= t
    case Append(p, _) => p in s.topic
    case Fetch(p) => s.trip.None? && p in s.topic && p in s.position && s.position[p] < |s.topic[p]|
    case Handle(act) => s.trip.Some? && Can(cfg.settings, s.trip.value.flight, act)
    case Commit(_) => s.trip.Some? && s.trip.value.flight.phase.Leaving?
    case Reopen => s.trip.None?
    case Crash => true
  }

  ghost function Apply(cfg: Config, s: State, step: Step): State
    requires Enabled(cfg, s, step)
  {
    match step
    case Advance(t) => s.(now := t)
    case Append(p, body) => s.(topic := s.topic[p := s.topic[p] + [body]])
    case Fetch(p) =>
      s.(position := s.position[p := s.position[p] + 1],
         trip := Some(Trip(Place(p, s.position[p]), Takeoff(s.topic[p][s.position[p]]))))
    case Handle(act) => ApplyHandle(cfg, s, act)
    case Commit(call) => ApplyCommit(cfg, s, call)
    case Reopen => Resumed(cfg, s)
    case Crash => Resumed(cfg, s)
  }

  ghost function ApplyHandle(cfg: Config, s: State, act: Act): State
    requires s.trip.Some?
  {
    var trip := s.trip.value;
    var f' := Onward(s.ledger, trip.flight, act, s.now);
    s.(ledger := Effect(s.ledger, trip.flight, act, s.now),
       trip := Some(trip.(flight := f')),
       notified := if Notifies(trip.flight, f') && f'.body.Decoded? then s.notified + {f'.body.envelope.eventId} else s.notified,
       givenUp := if act.Bury? && !act.call.Applied() then s.givenUp + {trip.place} else s.givenUp)
  }

  /** The loop is done with its record; the commit has taken effect or not. */
  ghost function LetGo(s: State, applied: bool): State
    requires s.trip.Some?
  {
    var at := s.trip.value.place;
    s.(committed := if applied then s.committed[at.partition := at.offset + 1] else s.committed, trip := None)
  }

  /** A commit that fails after the record was handled makes the loop reopen its reader; the other branches go on. */
  ghost function ApplyCommit(cfg: Config, s: State, call: Call): State
    requires s.trip.Some?
  {
    if !call.Succeeded? && s.trip.value.flight.phase == Leaving(Handled) then Resumed(cfg, LetGo(s, call.Applied()))
    else LetGo(s, call.Applied())
  }

  ghost predicate Run(cfg: Config, s: State, steps: seq<Step>)
    decreases |steps|
  {
    steps == [] || (Enabled(cfg, s, steps[0]) && Run(cfg, Apply(cfg, s, steps[0]), steps[1..]))
  }

  ghost function Exec(cfg: Config, s: State, steps: seq<Step>): State
    requires Run(cfg, s, steps)
    decreases |steps|
  {
    if steps == [] then s else Exec(cfg, Apply(cfg, s, steps[0]), steps[1..])
  }

  // What has become of a record.

  ghost predicate Written(s: State, at: Place) {
    at.partition in s.topic && at.offset < |s.topic[at.partition]|
  }

  ghost function RecordAt(s: State, at: Place): Body
    requires Written(s, at)
  {
    s.topic[at.partition][at.offset]
  }

  /** The record cannot be decoded, or its event is done or failed, or it was given up. */
  ghost predicate Settled(s: State, at: Place)
    requires Written(s, at)
  {
    var body := RecordAt(s, at);
    body.Undecodable? || Settles(s.ledger, body.envelope.eventId) || at in s.givenUp
  }

  ghost predicate Underway(s: State, at: Place) {
    s.trip.Some? && s.trip.value.place == at
  }

  ghost predicate Passed(s: State, at: Place) {
    at.partition in s.position && at.offset < s.position[at.partition]
  }

  /** No partition of `safe` can be resumed beyond a record that was never fetched. */
  ghost predicate Anchored(cfg: Config, safe: set<nat>, s: State) {
    cfg.startFirst || safe <= s.committed.Keys
  }

  /** The last record committed in its partition. */
  ghost predicate Tip(s: State, at: Place) {
    at.partition in s.committed && s.committed[at.partition] == at.offset + 1
  }

  /** The records the consumer is done with: those it has passed, in a partition of `safe`, and otherwise the last committed one. */
  ghost predicate Relied(safe: set<nat>, s: State, at: Place) {
    !Underway(s, at) && (Tip(s, at) || (at.partition in safe && Passed(s, at)))
  }

  ghost predicate OffsetsOk(s: State) {
    && s.position.Keys == s.topic.Keys
    && s.committed.Keys <= s.topic.Keys
    && (forall p :: p in s.topic ==> s.position[p] <= |s.topic[p]|)
    && (forall p :: p in s.committed ==> s.committed[p] <= s.position[p])
  }

  /** The record underway is the last one fetched from its partition, and it has not been committed. */
  ghost predicate TripPlaced(s: State) {
    s.trip.Some? ==>
      var at, f := s.trip.value.place, s.trip.value.flight;
      && Written(s, at)
      && at.partition in s.position && s.position[at.partition] == at.offset + 1
      && (at.partition in s.committed ==> s.committed[at.partition] <= at.offset)
      && f.body == RecordAt(s, at)
  }

  /** What holds wherever readers start. */
  ghost predicate Placed(s: State) {
    OffsetsOk(s) && TripPlaced(s)
  }

  lemma PlacedStep(cfg: Config, s: State, step: Step)
    requires Placed(s) && Enabled(cfg, s, step)
    ensures Placed(Apply(cfg, s, step))
    ensures NoneLower(s.committed, Apply(cfg, s, step).committed)
  {
    match step
    case Commit(call) => PlacedCommit(cfg, s, call);
    case Append(p, body) => PlacedAppend(cfg, s, p, body);
    case Handle(act) => assert s.trip.Some? ==> Written(s, s.trip.value.place);
    case _ =>
  }

  lemma PlacedCommit(cfg: Config, s: State, call: Call)
    requires Placed(s) && s.trip.Some?
    ensures Placed(ApplyCommit(cfg, s, call)) && NoneLower(s.committed, ApplyCommit(cfg, s, call).committed)
  {
  }

  lemma PlacedAppend(cfg: Config, s: State, p: nat, body: Body)
    requires Placed(s) && p in s.topic
    ensures Placed(Apply(cfg, s, Append(p, body)))
  {
  }

  lemma {:induction false} PlacedRun(cfg: Config, s: State, steps: seq<Step>)
    requires Placed(s) && Run(cfg, s, steps)
    ensures Placed(Exec(cfg, s, steps))
    ensures NoneLower(s.committed, Exec(cfg, s, steps).committed)
    decreases |steps|
  {
    if steps != [] {
      var next := Apply(cfg, s, steps[0]);
      PlacedStep(cfg, s, steps[0]);
      PlacedRun(cfg, next, steps[1..]);
    }
  }

  /** No committed offset of the one table is higher than in the other. */
  ghost predicate NoneLower(committed: map<nat, nat>, committed': map<nat, nat>) {
    forall p :: p in committed ==> p in committed' && committed[p] <= committed'[p]
  }

  ghost predicate TripOk(s: State)
    requires TripPlaced(s)
  {
    s.trip.Some? ==>
      var at, f := s.trip.value.place, s.trip.value.flight;
      && (f.body.Undecodable? ==> f.phase.Ready? || f.phase.Leaving?)
      && (f.body.Decoded? && (Exposed(f) || f.attempt > 0) ==> f.body.envelope.eventId in s.ledger)
      && (f.phase.Leaving? ==> Settled(s, at))
  }

  ghost predicate ReliedSettled(safe: set<nat>, s: State)
    requires OffsetsOk(s)
  {
    forall at :: Relied(safe, s, at) ==> Settled(s, at)
  }

  ghost predicate Exposed(f: Flight) {
    f.body.Decoded? && (f.phase.Executing? || f.phase.Erred?)
  }

  /** While the record underway may still take back a `done`, no other record relies on the state of its event. */
  ghost predicate NoneRely(safe: set<nat>, s: State)
    requires OffsetsOk(s)
  {
    s.trip.Some? && Exposed(s.trip.value.flight) ==>
      forall at :: Relied(safe, s, at) && SameEvent(RecordAt(s, at), s.trip.value.flight.body) ==> at in s.givenUp
  }

  ghost predicate SameEvent(a: Body, b: Body) {
    a.Decoded? && b.Decoded? && a.envelope.eventId == b.envelope.eventId
  }

  ghost predicate NotifiedOk(s: State) {
    && (forall e :: Settles(s.ledger, e) ==> e in s.notified)
    && (forall at :: at in s.givenUp ==> Written(s, at) && RecordAt(s, at).Decoded? && RecordAt(s, at).envelope.eventId in s.notified)
    && (s.trip.Some? && s.trip.value.flight.body.Decoded? && !s.trip.value.flight.phase.Leaving?
          && (s.trip.value.flight.attempt > 0 || Exposed(s.trip.value.flight)) ==>
          s.trip.value.flight.body.envelope.eventId in s.notified)
  }

  ghost predicate Inv(cfg: Config, safe: set<nat>, s: State) {
    && Anchored(cfg, safe, s) && Placed(s) && TripOk(s) && ReliedSettled(safe, s) && NoneRely(safe, s) && NotifiedOk(s)
  }

  // Steps keep the invariant.

  lemma InvHandle(cfg: Config, safe: set<nat>, s: State, act: Act)
    requires Inv(cfg, safe, s) && Enabled(cfg, s, Handle(act))
    ensures Inv(cfg, safe, ApplyHandle(cfg, s, act))
  {
    var s' := ApplyHandle(cfg, s, act);
    forall at | Relied(safe, s', at)
      ensures Settled(s', at)
    {
      HandleKeepsSettled(cfg, safe, s, act, at);
    }
    RelyHandle(cfg, safe, s, act);
    NotifiedHandle(cfg, safe, s, act);
    TripHandle(cfg, safe, s, act);
  }

  lemma TripHandle(cfg: Config, safe: set<nat>, s: State, act: Act)
    requires Inv(cfg, safe, s) && Enabled(cfg, s, Handle(act))
    ensures Placed(ApplyHandle(cfg, s, act)) && TripOk(ApplyHandle(cfg, s, act))
  {
    assert Written(s, s.trip.value.place);
  }

  lemma OnlyThisEvent(ledger: Ledger, f: Flight, act: Act, now: int)
    requires f.body.Decoded?
    ensures forall other :: other != f.body.envelope.eventId ==>
      Settles(Effect(ledger, f, act, now), other) == Settles(ledger, other)
  {
  }

  /** Only MarkFailed can take a `done` back. */
  lemma StaysSettled(ledger: Ledger, f: Flight, act: Act, now: int, e: string)
    requires Settles(ledger, e) && !act.Relinquish?
    ensures Settles(Effect(ledger, f, act, now), e)
  {
  }

  lemma HandleKeepsSettled(cfg: Config, safe: set<nat>, s: State, act: Act, at: Place)
    requires Inv(cfg, safe, s) && Enabled(cfg, s, Handle(act))
    requires Relied(safe, s, at)
    ensures Written(s, at) && Settled(ApplyHandle(cfg, s, act), at)
  {
    var f := s.trip.value.flight;
    assert Settled(s, at);
    var body := RecordAt(s, at);
    if body.Decoded? && at !in s.givenUp {
      if f.body.Undecodable? {
        assert Settled(ApplyHandle(cfg, s, act), at);
        return;
      }
      OnlyThisEvent(s.ledger, f, act, s.now);
      if act.Relinquish? {
        assert Exposed(f) && !SameEvent(body, f.body);
      } else {
        StaysSettled(s.ledger, f, act, s.now, body.envelope.eventId);
      }
    }
  }

  lemma RelyHandle(cfg: Config, safe: set<nat>, s: State, act: Act)
    requires Inv(cfg, safe, s) && Enabled(cfg, s, Handle(act))
    ensures NoneRely(safe, ApplyHandle(cfg, s, act))
  {
    var s' := ApplyHandle(cfg, s, act);
    var f, f' := s.trip.value.flight, s'.trip.value.flight;
    if Exposed(f') && !Exposed(f) {
      // StartProcessing has found the event neither done nor failed.
      forall at | Relied(safe, s', at) && SameEvent(RecordAt(s', at), f'.body)
        ensures at in s'.givenUp
      {
        assert Relied(safe, s, at) && Settled(s, at);
      }
    }
  }

  lemma NotifiedHandle(cfg: Config, safe: set<nat>, s: State, act: Act)
    requires Inv(cfg, safe, s) && Enabled(cfg, s, Handle(act))
    ensures NotifiedOk(ApplyHandle(cfg, s, act))
  {
    var s' := ApplyHandle(cfg, s, act);
    if s.trip.value.flight.body.Decoded? {
      OnlyThisEvent(s.ledger, s.trip.value.flight, act, s.now);
    }
  }

  lemma InvResumed(cfg: Config, safe: set<nat>, s: State)
    requires Inv(cfg, safe, s)
    ensures Inv(cfg, safe, Resumed(cfg, s))
  {
    var s' := Resumed(cfg, s);
    forall at | Relied(safe, s', at)
      ensures Written(s', at) && Settled(s', at)
    {
      assert at.partition in s.committed;
      assert Relied(safe, s, at) && Settled(s, at);
    }
  }

  lemma InvCommit(cfg: Config, safe: set<nat>, s: State, call: Call)
    requires Inv(cfg, safe, s) && Enabled(cfg, s, Commit(call))
    ensures Inv(cfg, safe, ApplyCommit(cfg, s, call))
  {
    Landed(cfg, safe, s, call.Applied());
    InvResumed(cfg, safe, LetGo(s, call.Applied()));
  }

  lemma Landed(cfg: Config, safe: set<nat>, s: State, applied: bool)
    requires Inv(cfg, safe, s) && s.trip.Some? && s.trip.value.flight.phase.Leaving?
    ensures Inv(cfg, safe, LetGo(s, applied))
  {
    var s' := LetGo(s, applied);
    forall at | Relied(safe, s', at)
      ensures Settled(s', at)
    {
      assert Underway(s, at) || Relied(safe, s, at);
    }
  }

  lemma InvAppend(cfg: Config, safe: set<nat>, s: State, p: nat, body: Body)
    requires Inv(cfg, safe, s) && Enabled(cfg, s, Append(p, body))
    ensures Inv(cfg, safe, Apply(cfg, s, Append(p, body)))
  {
    var s' := Apply(cfg, s, Append(p, body));
    forall at | Written(s, at)
      ensures Written(s', at) && RecordAt(s', at) == RecordAt(s, at)
    {
    }
    forall at | Relied(safe, s', at)
      ensures Settled(s', at)
    {
      assert Relied(safe, s, at) && Written(s, at);
    }
  }

  lemma InvFetch(cfg: Config, safe: set<nat>, s: State, p: nat)
    requires Inv(cfg, safe, s) && Enabled(cfg, s, Fetch(p))
    ensures Inv(cfg, safe, Apply(cfg, s, Fetch(p)))
  {
    var s' := Apply(cfg, s, Fetch(p));
    forall at | Relied(safe, s', at)
      ensures Written(s', at) && Settled(s', at)
    {
      assert Relied(safe, s, at) && Settled(s, at);
    }
  }

  lemma InvStep(cfg: Config, safe: set<nat>, s: State, step: Step)
    requires Inv(cfg, safe, s) && Enabled(cfg, s, step)
    ensures Inv(cfg, safe, Apply(cfg, s, step))
  {
    match step
    case Advance(t) => assert forall at :: Relied(safe, s.(now := t), at) ==> Relied(safe, s, at);
    case Append(p, body) => InvAppend(cfg, safe, s, p, body);
    case Fetch(p) => InvFetch(cfg, safe, s, p);
    case Handle(act) => InvHandle(cfg, safe, s, act);
    case Commit(call) => InvCommit(cfg, safe, s, call);
    case Reopen => InvResumed(cfg, safe, s);
    case Crash => InvResumed(cfg, safe, s);
  }

  lemma {:induction false} InvRun(cfg: Config, safe: set<nat>, s: State, steps: seq<Step>)
    requires Inv(cfg, safe, s) && Run(cfg, s, steps)
    ensures Inv(cfg, safe, Exec(cfg, s, steps))
    decreases |steps|
  {
    if steps != [] {
      InvStep(cfg, safe, s, steps[0]);
      InvRun(cfg, safe, Apply(cfg, s, steps[0]), steps[1..]);
    }
  }

  // At least once.

  ghost predicate Below(s: State, at: Place) {
    at.partition in s.committed && at.offset < s.committed[at.partition]
  }

  /** The record is settled, and if it can be decoded its notification has gone out. */
  ghost predicate Served(s: State, at: Place) {
    && Written(s, at) && Settled(s, at)
    && (RecordAt(s, at).Decoded? ==> RecordAt(s, at).envelope.eventId in s.notified)
  }

  ghost predicate AtLeastOnce(cfg: Config, partitions: set<nat>, anchored: set<nat>) {
    forall steps, at :: Run(cfg, Initial(partitions, anchored), steps) && Below(Exec(cfg, Initial(partitions, anchored), steps), at) ==>
      Served(Exec(cfg, Initial(partitions, anchored), steps), at)
  }

  /** The partitions in which no record can be skipped. */
  function SafeOnes(cfg: Config, partitions: set<nat>, anchored: set<nat>): set<nat> {
    if cfg.startFirst then partitions else anchored
  }

  lemma StartInv(cfg: Config, partitions: set<nat>, anchored: set<nat>)
    requires anchored <= partitions
    ensures Inv(cfg, SafeOnes(cfg, partitions, anchored), Initial(partitions, anchored))
  {
  }

  lemma ServedBelow(cfg: Config, partitions: set<nat>, anchored: set<nat>, steps: seq<Step>, at: Place)
    requires anchored <= partitions && at.partition in SafeOnes(cfg, partitions, anchored)
    requires Run(cfg, Initial(partitions, anchored), steps) && Below(Exec(cfg, Initial(partitions, anchored), steps), at)
    ensures Served(Exec(cfg, Initial(partitions, anchored), steps), at)
  {
    var safe := SafeOnes(cfg, partitions, anchored);
    StartInv(cfg, partitions, anchored);
    InvRun(cfg, safe, Initial(partitions, anchored), steps);
    ReliedServed(cfg, safe, Exec(cfg, Initial(partitions, anchored), steps), at);
  }

  lemma ReliedServed(cfg: Config, safe: set<nat>, s: State, at: Place)
    requires Inv(cfg, safe, s) && (Tip(s, at) || (at.partition in safe && Below(s, at)))
    ensures Served(s, at)
  {
    assert Relied(safe, s, at) && Settled(s, at);
  }

  lemma {:induction false} RunSnoc(cfg: Config, s: State, steps: seq<Step>, step: Step)
    requires Run(cfg, s, steps) && Enabled(cfg, Exec(cfg, s, steps), step)
    ensures Run(cfg, s, steps + [step])
    ensures Exec(cfg, s, steps + [step]) == Apply(cfg, Exec(cfg, s, steps), step)
    decreases |steps|
  {
    if steps == [] {
      var next := Apply(cfg, s, step);
      assert ([step])[1..] == [] && Run(cfg, next, []) && Exec(cfg, next, []) == next;
      assert [] + [step] == [step];
    } else {
      RunSnoc(cfg, Apply(cfg, s, steps[0]), steps[1..], step);
      assert (steps + [step])[1..] == steps[1..] + [step];
    }
  }

  /** The reader of partition p stands behind its first record, which nobody has handled. */
  ghost predicate Jumped(s: State, p: nat, e: Envelope) {
    && s.trip.None? && p in s.topic && p in s.position
    && s.topic[p] == [Decoded(e), Undecodable] && s.position[p] == 1
    && s.ledger == map[] && s.givenUp == {}
  }

  /** A record appended before the first commit of its partition, and a restart that resumes behind it. */
  lemma JumpAhead(cfg: Config, partitions: set<nat>, anchored: set<nat>, p: nat, e: Envelope) returns (steps: seq<Step>)
    requires !cfg.startFirst && p in partitions && p !in anchored
    ensures Run(cfg, Initial(partitions, anchored), steps)
    ensures Jumped(Exec(cfg, Initial(partitions, anchored), steps), p, e)
  {
    var s0 := Initial(partitions, anchored);
    RunSnoc(cfg, s0, [], Append(p, Decoded(e)));
    assert [] + [Append(p, Decoded(e))] == [Append(p, Decoded(e))];
    RunSnoc(cfg, s0, [Append(p, Decoded(e))], Crash);
    RunSnoc(cfg, s0, [Append(p, Decoded(e))] + [Crash], Append(p, Undecodable));
    steps := [Append(p, Decoded(e))] + [Crash] + [Append(p, Undecodable)];
  }

  lemma SkippedRecord(cfg: Config, partitions: set<nat>, anchored: set<nat>, p: nat, e: Envelope) returns (steps: seq<Step>)
    requires !cfg.startFirst && p in partitions && p !in anchored
    ensures Run(cfg, Initial(partitions, anchored), steps)
    ensures Below(Exec(cfg, Initial(partitions, anchored), steps), Place(p, 0))
    ensures !Served(Exec(cfg, Initial(partitions, anchored), steps), Place(p, 0))
  {
    var s0 := Initial(partitions, anchored);
    var jump := JumpAhead(cfg, partitions, anchored, p, e);
    RunSnoc(cfg, s0, jump, Fetch(p));
    RunSnoc(cfg, s0, jump + [Fetch(p)], Handle(Decode));
    RunSnoc(cfg, s0, jump + [Fetch(p)] + [Handle(Decode)], Commit(Succeeded));
    steps := jump + [Fetch(p)] + [Handle(Decode)] + [Commit(Succeeded)];
  }

  lemma {:induction false} SamePartitions(cfg: Config, s: State, steps: seq<Step>)
    requires Run(cfg, s, steps)
    ensures Exec(cfg, s, steps).topic.Keys == s.topic.Keys
    decreases |steps|
  {
    if steps != [] {
      SamePartitions(cfg, Apply(cfg, s, steps[0]), steps[1..]);
    }
  }

  /** Whatever the interleaving of fetches, retries, failing commits, reopened readers and crashes, and whichever database calls
      fail: every record below a committed offset has been served - exactly when the reader starts at the first offset or
      every partition has a committed offset to begin with. */
  lemma AtLeastOnceExact(cfg: Config, partitions: set<nat>, anchored: set<nat>)
    requires anchored <= partitions
    ensures AtLeastOnce(cfg, partitions, anchored) <==> cfg.startFirst || partitions <= anchored
  {
    if cfg.startFirst || partitions <= anchored {
      forall steps, at | Run(cfg, Initial(partitions, anchored), steps) && Below(Exec(cfg, Initial(partitions, anchored), steps), at)
        ensures Served(Exec(cfg, Initial(partitions, anchored), steps), at)
      {
        PlacedRun(cfg, Initial(partitions, anchored), steps);
        SamePartitions(cfg, Initial(partitions, anchored), steps);
        ServedBelow(cfg, partitions, anchored, steps, at);
      }
    } else {
      var p :| p in partitions && p !in anchored;
      var e := Envelope("", "", 0, "", "", "", Payload("", "", "", 0, ""));
      var steps := SkippedRecord(cfg, partitions, anchored, p, e);
    }
  }

  /** A committed offset never decreases, wherever readers start. */
  lemma CommitsAdvance(cfg: Config, partitions: set<nat>, anchored: set<nat>, steps: seq<Step>, more: seq<Step>, p: nat)
    requires anchored <= partitions
    requires Run(cfg, Initial(partitions, anchored), steps)
    requires Run(cfg, Exec(cfg, Initial(partitions, anchored), steps), more)
    requires p in Exec(cfg, Initial(partitions, anchored), steps).committed
    ensures
      var mid := Exec(cfg, Initial(partitions, anchored), steps);
      var end := Exec(cfg, mid, more);
      p in end.committed && mid.committed[p] <= end.committed[p]
  {
    PlacedRun(cfg, Initial(partitions, anchored), steps);
    PlacedRun(cfg, Exec(cfg, Initial(partitions, anchored), steps), more);
  }
}
