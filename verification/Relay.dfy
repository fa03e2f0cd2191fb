/** cmd/outbox-relay/main.go: one pass of the polling loop. Whatever the calls return and whatever the other processes do
    meanwhile, the pass is a run of the protocol in Relays, so everything proved of runs holds of it. */
module Relay {
  import opened Base
  import opened Outbox
  import opened Events
  import opened Kafka
  import opened Relays
  import opened RelayCounting
  import opened RelayPass

  /** internal/outbox/metrics.go: counters per event type. */
  class Metrics {
    var published: map<string, nat>
    var failed: map<string, nat>
    var dead: map<string, nat>

    constructor ()
      ensures Value() == Totals(map[], map[], map[])
    {
      published, failed, dead := map[], map[], map[];
    }

    ghost function Value(): Totals
      reads this
    {
      Totals(published, failed, dead)
    }

    method Inc(counter: Counter, eventType: string)
      modifies this
      ensures published == if counter.PublishedTotal? then OneMoreOf(old(published), eventType) else old(published)
      ensures failed == if counter.FailedTotal? then OneMoreOf(old(failed), eventType) else old(failed)
      ensures dead == if counter.DeadTotal? then OneMoreOf(old(dead), eventType) else old(dead)
    {
      match counter {
        case PublishedTotal => published := Bump(published, eventType);
        case FailedTotal => failed := Bump(failed, eventType);
        case DeadTotal => dead := Bump(dead, eventType);
      }
    }
  }

  /** The table and the clock are as the protocol state says. */
  ghost predicate Mirrors(s: State, world: World, store: Store)
    reads world, store
  {
    s.rows == store.rows && s.now == world.now
  }

  /** The dead-letter producer is the one the setting speaks of. */
  ghost predicate Usable(dlq: Producer?<DeadLetter>, x: Setting)
    reads dlq
  {
    (x.letterbox <==> dlq != null && dlq.open) && (dlq != null ==> dlq.Valid())
  }

  ghost predicate Equipped(producer: Producer<Message>, dlq: Producer?<DeadLetter>, x: Setting)
    reads producer, dlq
  {
    producer.Valid() && producer.open == x.open && Usable(dlq, x) && dlq as object? != producer
  }

  ghost function Written(dlq: Producer?<DeadLetter>): seq<Attempt<DeadLetter>>
    reads dlq
  {
    if dlq == null then [] else dlq.writes
  }

  ghost function Recorded(store: Store, producer: Producer<Message>, dlq: Producer?<DeadLetter>, met: Metrics): Books
    reads store, producer, dlq, met
  {
    Books(store.sent, producer.writes, Written(dlq), met.Value())
  }

  /** Whatever the API and the other relays do until time t. */
  method Meanwhile(store: Store, cfg: Config, s: State, r: nat, t: int) returns (s': State, ghost steps: seq<Step>)
    requires store.rows == s.rows && WellFormed(s) && r in s.relays && s.now <= t
    modifies store`rows
    ensures Leads(cfg, s, steps, s') && Mine(r, steps) == [] && s'.now == t
    ensures store.rows == s'.rows && Kept(s, s', r)
  {
    var moves: seq<Step> := *;
    if !(Foreign(r, moves) && Run(cfg, s, moves) && Exec(cfg, s, moves).now == t) {
      moves := [Advance(t)];
      LeadsByOne(cfg, r, s, Advance(t));
    }
    s' := Exec(cfg, s, moves);
    store.rows := s'.rows;
    steps := moves;
    ForeignMine(r, moves);
    ForeignKeeps(cfg, s, r, moves);
  }

  method Pause(world: World, store: Store, cfg: Config, s: State, r: nat) returns (s': State, ghost steps: seq<Step>)
    requires Mirrors(s, world, store) && WellFormed(s) && r in s.relays
    modifies world, store`rows
    ensures Leads(cfg, s, steps, s') && Mine(r, steps) == []
    ensures Mirrors(s', world, store) && Kept(s, s', r)
  {
    world.Pass();
    s', steps := Meanwhile(store, cfg, s, r, world.now);
  }

  lemma StillFacing(s: State, s': State, r: nat, e: Event, phase: Phase)
    requires Facing(s, r, e, phase) && Kept(s, s', r)
    ensures Facing(s', r, e, phase)
  {
  }

  // Publishing.

  /** The run leads from s to s' and contains these steps of relay r, which is now this far with its event. */
  ghost predicate Advances(cfg: Config, s: State, steps: seq<Step>, s': State, r: nat, e: Event, phase: Phase, mine: seq<Step>) {
    && Leads(cfg, s, steps, s') && Mine(r, steps) == mine
    && Busy(s, r) && Facing(s', r, e, phase) && s'.relays[r].batch == s.relays[r].batch
    && Grows(s.rows, s'.rows)
  }

  lemma AdvancesOn(cfg: Config, s: State, first: seq<Step>, mid: State, second: seq<Step>, end: State, r: nat, e: Event,
                   phase: Phase, phase': Phase, mine: seq<Step>, more: seq<Step>)
    requires Advances(cfg, s, first, mid, r, e, phase, mine) && Advances(cfg, mid, second, end, r, e, phase', more)
    ensures Advances(cfg, s, first + second, end, r, e, phase', mine + more)
  {
    LeadsOn(cfg, r, s, first, mid, second, end);
  }

  function StepOf(r: nat, write: Attempt<Message>): Step {
    Write(r, write.appended, write.error.None?, write.Heals())
  }

  function PhaseAfter(phase: Phase, write: Attempt<Message>): Phase {
    if write.error.None? then Acked else if phase.Unsent? && write.Heals() then Retrying else Refused
  }

  lemma WriteTaken(cfg: Config, s: State, r: nat, e: Event, phase: Phase, write: Attempt<Message>)
    requires Facing(s, r, e, phase) && (phase.Unsent? || phase.Retrying?) && (write.error.None? ==> write.appended)
    ensures Enabled(cfg, s, StepOf(r, write))
    ensures
      var s' := Apply(cfg, s, StepOf(r, write));
      && Facing(s', r, e, PhaseAfter(phase, write)) && s'.relays[r].batch == s.relays[r].batch
      && s'.rows == s.rows && s'.now == s.now
  {
    WellFormedStep(cfg, s, StepOf(r, write));
  }

  lemma WriteAdvances(cfg: Config, s: State, r: nat, e: Event, phase: Phase, idle: seq<Step>, mid: State, write: Attempt<Message>)
    returns (steps: seq<Step>)
    requires Facing(s, r, e, phase) && (phase.Unsent? || phase.Retrying?) && (write.error.None? ==> write.appended)
    requires Leads(cfg, s, idle, mid) && Mine(r, idle) == [] && Kept(s, mid, r)
    ensures Enabled(cfg, mid, StepOf(r, write))
    ensures
      var s' := Apply(cfg, mid, StepOf(r, write));
      && Advances(cfg, s, steps, s', r, e, PhaseAfter(phase, write), [StepOf(r, write)])
      && s'.rows == mid.rows && s'.now == mid.now
  {
    StillFacing(s, mid, r, e, phase);
    WriteTaken(cfg, mid, r, e, phase, write);
    steps := LeadsThen(cfg, r, s, idle, mid, StepOf(r, write));
  }

  /** One write of the relay, at the time it ended. */
  method Observe(store: Store, cfg: Config, e: Event, s: State, r: nat, phase: Phase, write: Attempt<Message>)
    returns (s': State, ghost steps: seq<Step>)
    requires store.rows == s.rows && s.now <= write.at && (write.error.None? ==> write.appended)
    requires Facing(s, r, e, phase) && (phase.Unsent? || phase.Retrying?)
    modifies store`rows
    ensures Advances(cfg, s, steps, s', r, e, PhaseAfter(phase, write), [StepOf(r, write)])
    ensures store.rows == s'.rows && s'.now == write.at
  {
    var mid, idle := Meanwhile(store, cfg, s, r, write.at);
    steps := WriteAdvances(cfg, s, r, e, phase, idle, mid, write);
    s' := Apply(cfg, mid, StepOf(r, write));
  }

  /** A write that looks like a stale connection, and the second one. */
  method ObserveTwo(store: Store, cfg: Config, e: Event, s: State, r: nat, first: Attempt<Message>, second: Attempt<Message>)
    returns (s': State, ghost steps: seq<Step>)
    requires store.rows == s.rows && Facing(s, r, e, Unsent) && s.now <= first.at <= second.at
    requires first.Heals() && (second.error.None? ==> second.appended)
    modifies store`rows
    ensures Advances(cfg, s, steps, s', r, e, PhaseAfter(Retrying, second), [StepOf(r, first)] + [StepOf(r, second)])
    ensures store.rows == s'.rows && s'.now == second.at
  {
    var mid;
    ghost var rest;
    mid, steps := Observe(store, cfg, e, s, r, Unsent, first);
    s', rest := Observe(store, cfg, e, mid, r, Retrying, second);
    AdvancesOn(cfg, s, steps, mid, rest, s', r, e, Retrying, PhaseAfter(Retrying, second), [StepOf(r, first)], [StepOf(r, second)]);
    steps := steps + rest;
  }

  lemma PublishingSteps(r: nat, writes: seq<Attempt<Message>>)
    requires 1 <= |writes| <= 2
    ensures Publishing(r, writes) == [StepOf(r, writes[0])] + if |writes| == 2 then [StepOf(r, writes[1])] else []
  {
  }

  /** The message is built and produced. */
  method Publish(world: World, store: Store, producer: Producer<Message>, x: Setting, e: Event, s: State, r: nat)
    returns (error: Option<string>, s': State, ghost steps: seq<Step>, ghost writes: seq<Attempt<Message>>)
    requires Mirrors(s, world, store) && producer.Valid() && producer.open == x.open
    requires Facing(s, r, e, Unsent)
    modifies world, store`rows, producer
    ensures producer.Valid() && producer.open == x.open && producer.writes == old(producer.writes) + writes
    ensures Tried(writes, x.open && x.encode(e.fields).None?, MessageOf(e.fields))
    ensures (error.None? <==> GotThrough(writes)) && error.GetOr("") == Reason(x.encode(e.fields), writes)
    ensures Advances(x.cfg, s, steps, s', r, e, if error.None? then Acked else Refused, Publishing(r, writes))
    ensures Mirrors(s', world, store)
  {
    var attempts;
    error, attempts := Send(world, producer, x, e);
    writes := attempts;
    s', steps := Witness(world, store, x.cfg, e, s, r, attempts);
  }

  method Send(world: World, producer: Producer<Message>, x: Setting, e: Event)
    returns (error: Option<string>, attempts: seq<Attempt<Message>>)
    requires producer.Valid() && producer.open == x.open
    modifies world, producer
    ensures producer.Valid() && producer.open == x.open && producer.writes == old(producer.writes) + attempts
    ensures Tried(attempts, x.open && x.encode(e.fields).None?, MessageOf(e.fields)) && Between(attempts, old(world.now), world.now)
    ensures (error.None? <==> GotThrough(attempts)) && error.GetOr("") == Reason(x.encode(e.fields), attempts)
  {
    attempts := [];
    error := x.encode(e.fields);
    if error.Some? {
      error := Some("marshal: " + error.value);
    } else {
      var f := e.fields;
      var env := Envelope(f.eventId, f.eventType, f.createdAt, f.aggregate, f.aggregateId, f.payload.requestId, f.payload);
      error, attempts := producer.Produce(world, Message(f.aggregateId, env));
      if error.Some? {
        error := Some("kafka: " + error.value);
      }
    }
  }

  lemma RefuseAdvances(cfg: Config, s: State, r: nat, e: Event)
    requires Facing(s, r, e, Unsent)
    ensures Enabled(cfg, s, Refuse(r))
    ensures Advances(cfg, s, [Refuse(r)], Apply(cfg, s, Refuse(r)), r, e, Refused, [Refuse(r)])
    ensures Apply(cfg, s, Refuse(r)).rows == s.rows && Apply(cfg, s, Refuse(r)).now == s.now
  {
    LeadsByOne(cfg, r, s, Refuse(r));
    WellFormedStep(cfg, s, Refuse(r));
  }

  /** The publishing, up to the time of its last write. */
  method ObserveAll(store: Store, cfg: Config, e: Event, s: State, r: nat, writes: seq<Attempt<Message>>, end: int)
    returns (s': State, ghost steps: seq<Step>)
    requires store.rows == s.rows && s.now <= end && Facing(s, r, e, Unsent)
    requires Tried(writes, writes != [], MessageOf(e.fields)) && Between(writes, s.now, end)
    modifies store`rows
    ensures Advances(cfg, s, steps, s', r, e, if GotThrough(writes) then Acked else Refused, Publishing(r, writes))
    ensures store.rows == s'.rows && s'.now <= end
  {
    if writes == [] {
      steps := [Refuse(r)];
      RefuseAdvances(cfg, s, r, e);
      s' := Apply(cfg, s, Refuse(r));
    } else if |writes| == 1 {
      PublishingSteps(r, writes);
      s', steps := Observe(store, cfg, e, s, r, Unsent, writes[0]);
    } else {
      PublishingSteps(r, writes);
      s', steps := ObserveTwo(store, cfg, e, s, r, writes[0], writes[1]);
    }
  }

  lemma AdvancesIdle(cfg: Config, s: State, steps: seq<Step>, mid: State, idle: seq<Step>, end: State, r: nat, e: Event,
                     phase: Phase, mine: seq<Step>)
    requires Advances(cfg, s, steps, mid, r, e, phase, mine)
    requires Leads(cfg, mid, idle, end) && Mine(r, idle) == [] && Kept(mid, end, r)
    ensures Advances(cfg, s, steps + idle, end, r, e, phase, mine)
  {
    StillFacing(mid, end, r, e, phase);
    LeadsOn(cfg, r, s, steps, mid, idle, end);
  }

  /** What the world has seen of the publishing by now. */
  method Witness(world: World, store: Store, cfg: Config, e: Event, s: State, r: nat, writes: seq<Attempt<Message>>)
    returns (s': State, ghost steps: seq<Step>)
    requires store.rows == s.rows && s.now <= world.now && Facing(s, r, e, Unsent)
    requires Tried(writes, writes != [], MessageOf(e.fields)) && Between(writes, s.now, world.now)
    modifies store`rows
    ensures Advances(cfg, s, steps, s', r, e, if GotThrough(writes) then Acked else Refused, Publishing(r, writes))
    ensures Mirrors(s', world, store)
  {
    var mid;
    ghost var idle;
    mid, steps := ObserveAll(store, cfg, e, s, r, writes, world.now);
    s', idle := Meanwhile(store, cfg, mid, r, world.now);
    AdvancesIdle(cfg, s, steps, mid, idle, s', r, e, if GotThrough(writes) then Acked else Refused, Publishing(r, writes));
    steps := steps + idle;
  }

  // Marking.

  /** Relay r is done with the first row of its batch. */
  ghost predicate Freed(s: State, s': State, r: nat) {
    && Busy(s, r) && r in s'.relays
    && s'.relays[r].batch == s.relays[r].batch[1..] && s'.relays[r].phase.Unsent? && s'.relays[r].since <= s'.now
    && Grows(s.rows, s'.rows) && WellFormed(s')
  }

  lemma FreedLater(s: State, mid: State, s': State, r: nat)
    requires Freed(mid, s', r) && Grows(s.rows, mid.rows) && Busy(s, r) && mid.relays[r].batch == s.relays[r].batch
    ensures Freed(s, s', r)
  {
  }

  /** The turn has ended with this mark. */
  ghost predicate Ended(cfg: Config, s: State, steps: seq<Step>, s': State, r: nat, mark: Request, at: int, message: string) {
    && Leads(cfg, s, steps, s') && Mine(r, steps) == [Mark(r, mark.call.Applied(), at, message)]
    && Freed(s, s', r) && mark.at == s'.now
  }

  ghost function AfterMark(cfg: Config, rows: Table, e: Event, phase: Phase, applied: bool, at: int, message: string, now: int): Table {
    if applied && e.id in rows then rows[e.id := Marked(cfg, rows[e.id], e.attempts, phase, at, message, now)] else rows
  }

  /** The mark, taken by itself. */
  lemma MarkTaken(cfg: Config, s: State, r: nat, e: Event, phase: Phase, applied: bool, at: int, message: string)
    requires Facing(s, r, e, phase) && (phase.Acked? || phase.Refused?) && s.relays[r].since <= at <= s.now
    ensures Enabled(cfg, s, Mark(r, applied, at, message))
    ensures
      var s' := Apply(cfg, s, Mark(r, applied, at, message));
      && Freed(s, s', r) && s'.now == s.now
      && s'.rows == AfterMark(cfg, s.rows, e, phase, applied, at, message, s.now)
  {
    assert Issued(s.rows, s.relays[r].batch[0]);
    WellFormedStep(cfg, s, Mark(r, applied, at, message));
    GrowsStep(cfg, s, Mark(r, applied, at, message));
  }

  /** The state after the mark that ends a turn. */
  lemma MarkEnds(cfg: Config, s: State, r: nat, e: Event, phase: Phase, idle: seq<Step>, mid: State, mark: Request, at: int, message: string)
    returns (steps: seq<Step>)
    requires Facing(s, r, e, phase) && (phase.Acked? || phase.Refused?)
    requires Leads(cfg, s, idle, mid) && Mine(r, idle) == [] && Kept(s, mid, r)
    requires s.relays[r].since <= at <= mid.now == mark.at
    ensures Enabled(cfg, mid, Mark(r, mark.call.Applied(), at, message))
    ensures
      var end := Apply(cfg, mid, Mark(r, mark.call.Applied(), at, message));
      && Ended(cfg, s, steps, end, r, mark, at, message)
      && end.rows == AfterMark(cfg, mid.rows, e, phase, mark.call.Applied(), at, message, mid.now)
  {
    var step := Mark(r, mark.call.Applied(), at, message);
    StillFacing(s, mid, r, e, phase);
    MarkTaken(cfg, mid, r, e, phase, mark.call.Applied(), at, message);
    var end := Apply(cfg, mid, step);
    steps := LeadsThen(cfg, r, s, idle, mid, step);
    assert Leads(cfg, s, steps, end) && Mine(r, steps) == [step];
    FreedLater(s, mid, end, r);
  }

  /** What follows a message that was published: the row is marked, and counted even if that fails. */
  method Published(world: World, store: Store, met: Metrics, cfg: Config, e: Event, s: State, r: nat)
    returns (s': State, ghost steps: seq<Step>, ghost mark: Request, ghost at: int)
    requires Mirrors(s, world, store) && Facing(s, r, e, Acked)
    modifies world, store, met
    ensures Ended(cfg, s, steps, s', r, mark, at, "") && mark.statement == ToSent(e.id)
    ensures Mirrors(s', world, store) && store.sent == old(store.sent) + [mark]
    ensures met.Value() == old(met.Value()).Inc(PublishedTotal, e.fields.eventType)
  {
    var mid, idle := Pause(world, store, cfg, s, r);
    var call := world.Query();
    var _ := store.MarkSent(e.id, world.now, call);
    met.Inc(PublishedTotal, e.fields.eventType);
    mark, at := Request(ToSent(e.id), world.now, call), world.now;
    steps := MarkEnds(cfg, s, r, e, Acked, idle, mid, mark, at, "");
    s' := Apply(cfg, mid, Mark(r, call.Applied(), world.now, ""));
  }

  /** A dead letter if there is a topic for it, then the failed mark; both are best effort. */
  method MaybeDead(world: World, store: Store, dlq: Producer?<DeadLetter>, met: Metrics, x: Setting, e: Event, message: string,
                   s: State, r: nat)
    returns (dead: bool, s': State, ghost steps: seq<Step>, ghost mark: Request, ghost letters: seq<Attempt<DeadLetter>>)
    requires Usable(dlq, x)
    requires Mirrors(s, world, store) && Facing(s, r, e, Refused)
    modifies world, store, met, if dlq == null then {} else {dlq}
    ensures Usable(dlq, x) && Written(dlq) == old(Written(dlq)) + letters
    ensures dead <==> x.cfg.maxAttempts > 0 && e.attempts >= x.cfg.maxAttempts
    ensures Mirrors(s', world, store)
    ensures Tried(letters, dead && x.letterbox && x.encode(e.fields).None?, LetterOf(e, message))
    ensures if dead then Ended(x.cfg, s, steps, s', r, mark, s.now, message)
                         && mark.statement == MarkOf(x.cfg, e, false, s.now, message) == ToFailed(e.id, message)
                         && store.sent == old(store.sent) + [mark]
            else s' == s && store.sent == old(store.sent)
    ensures met.Value() == if dead then old(met.Value()).Inc(DeadTotal, e.fields.eventType) else old(met.Value())
  {
    dead := x.cfg.maxAttempts > 0 && e.attempts >= x.cfg.maxAttempts;
    s', steps, letters := s, [], [];
    mark := Request(ToFailed(e.id, message), world.now, FailedBefore);
    if dead {
      s', steps, mark, letters := BuryAndGiveUp(world, store, dlq, x, e, message, s, r);
      met.Inc(DeadTotal, e.fields.eventType);
    }
  }

  method BuryAndGiveUp(world: World, store: Store, dlq: Producer?<DeadLetter>, x: Setting, e: Event, message: string, s: State, r: nat)
    returns (s': State, ghost steps: seq<Step>, ghost mark: Request, ghost letters: seq<Attempt<DeadLetter>>)
    requires Usable(dlq, x)
    requires Mirrors(s, world, store) && Facing(s, r, e, Refused) && GivesUp(x.cfg, e.attempts)
    modifies world, store, if dlq == null then {} else {dlq}
    ensures Usable(dlq, x) && Written(dlq) == old(Written(dlq)) + letters
    ensures Tried(letters, x.letterbox && x.encode(e.fields).None?, LetterOf(e, message))
    ensures Ended(x.cfg, s, steps, s', r, mark, s.now, message) && mark.statement == ToFailed(e.id, message)
    ensures Mirrors(s', world, store) && store.sent == old(store.sent) + [mark]
  {
    letters := Bury(world, dlq, x, e, message);
    s', steps, mark := GiveUp(world, store, x.cfg, e, message, s, r);
  }

  method GiveUp(world: World, store: Store, cfg: Config, e: Event, message: string, s: State, r: nat)
    returns (s': State, ghost steps: seq<Step>, ghost mark: Request)
    requires store.rows == s.rows && s.now <= world.now && Facing(s, r, e, Refused) && GivesUp(cfg, e.attempts)
    modifies world, store
    ensures Ended(cfg, s, steps, s', r, mark, s.now, message) && mark.statement == ToFailed(e.id, message)
    ensures Mirrors(s', world, store) && store.sent == old(store.sent) + [mark]
  {
    world.Pass();
    var mid, idle := Meanwhile(store, cfg, s, r, world.now);
    var call := world.Query();
    var _ := store.MarkDead(e.id, message, world.now, call);
    mark := Request(ToFailed(e.id, message), world.now, call);
    steps := MarkEnds(cfg, s, r, e, Refused, idle, mid, mark, s.now, message);
    s' := Apply(cfg, mid, Mark(r, call.Applied(), s.now, message));
  }

  function LetterOf(e: Event, message: string): DeadLetter {
    DeadLetter(MessageOf(e.fields).key, message, MessageOf(e.fields).envelope)
  }

  method Bury(world: World, dlq: Producer?<DeadLetter>, x: Setting, e: Event, message: string)
    returns (ghost letters: seq<Attempt<DeadLetter>>)
    requires Usable(dlq, x)
    modifies world, if dlq == null then {} else {dlq}
    ensures Usable(dlq, x) && Written(dlq) == old(Written(dlq)) + letters
    ensures Tried(letters, x.letterbox && x.encode(e.fields).None?, LetterOf(e, message))
    ensures world.now >= old(world.now)
  {
    letters := [];
    if dlq != null && x.encode(e.fields).None? {
      var _, attempts := dlq.Produce(world, LetterOf(e, message));
      letters := attempts;
    }
  }

  method Requeue(world: World, store: Store, met: Metrics, cfg: Config, e: Event, message: string, s: State, r: nat)
    returns (s': State, ghost steps: seq<Step>, ghost mark: Request, ghost at: int)
    requires Mirrors(s, world, store) && Facing(s, r, e, Refused) && !GivesUp(cfg, e.attempts)
    modifies world, store, met
    ensures Ended(cfg, s, steps, s', r, mark, at, message) && mark.statement == MarkOf(cfg, e, false, at, message)
    ensures Mirrors(s', world, store) && store.sent == old(store.sent) + [mark]
    ensures CounterOf(mark.statement) == FailedTotal
    ensures met.Value() == old(met.Value()).Inc(FailedTotal, e.fields.eventType)
  {
    world.Pass();
    var looked := world.now;
    world.Pass();
    s', steps, mark := Postpone(world, store, cfg, e, message, looked, s, r);
    at := looked;
    met.Inc(FailedTotal, e.fields.eventType);
  }

  method Postpone(world: World, store: Store, cfg: Config, e: Event, message: string, looked: int, s: State, r: nat)
    returns (s': State, ghost steps: seq<Step>, ghost mark: Request)
    requires store.rows == s.rows && s.now <= looked <= world.now && Facing(s, r, e, Refused) && !GivesUp(cfg, e.attempts)
    modifies store
    ensures Ended(cfg, s, steps, s', r, mark, looked, message) && mark.statement == ToPending(e.id, looked + Backoff(e.attempts), message)
    ensures Mirrors(s', world, store) && store.sent == old(store.sent) + [mark]
  {
    var next := looked + Backoff(e.attempts);
    var mid, idle := Meanwhile(store, cfg, s, r, world.now);
    var call := world.Query();
    var _ := store.MarkFailed(e.id, next, message, world.now, call);
    mark := Request(ToPending(e.id, next, message), world.now, call);
    assert store.rows == AfterMark(cfg, mid.rows, e, Refused, call.Applied(), looked, message, world.now) by {
      RowsPostponed(cfg, mid.rows, e, call.Applied(), looked, next, message, world.now);
    }
    steps := MarkEnds(cfg, s, r, e, Refused, idle, mid, mark, looked, message);
    s' := Apply(cfg, mid, Mark(r, call.Applied(), looked, message));
  }

  lemma RowsPostponed(cfg: Config, rows: Table, e: Event, applied: bool, looked: int, next: int, message: string, now: int)
    requires !GivesUp(cfg, e.attempts) && next == looked + Backoff(e.attempts)
    ensures AfterMark(cfg, rows, e, Refused, applied, looked, message, now)
      == if applied && e.id in rows then Put(rows, e.id, SetPending(rows[e.id], next, message, now)) else rows
  {
  }

  /** What follows a message that could not be published. */
  method Unpublished(world: World, store: Store, dlq: Producer?<DeadLetter>, met: Metrics, x: Setting, e: Event, message: string,
                     s: State, r: nat)
    returns (s': State, ghost steps: seq<Step>, ghost mark: Request, ghost at: int, ghost letters: seq<Attempt<DeadLetter>>)
    requires Usable(dlq, x)
    requires Mirrors(s, world, store) && Facing(s, r, e, Refused)
    modifies world, store, met, if dlq == null then {} else {dlq}
    ensures Usable(dlq, x) && Written(dlq) == old(Written(dlq)) + letters
    ensures Ended(x.cfg, s, steps, s', r, mark, at, message) && mark.statement == MarkOf(x.cfg, e, false, at, message)
    ensures Mirrors(s', world, store) && store.sent == old(store.sent) + [mark]
    ensures Tried(letters, GivesUp(x.cfg, e.attempts) && x.letterbox && x.encode(e.fields).None?, LetterOf(e, message))
    ensures met.Value() == old(met.Value()).Inc(CounterOf(mark.statement), e.fields.eventType)
  {
    var dead;
    dead, s', steps, mark, letters := MaybeDead(world, store, dlq, met, x, e, message, s, r);
    at := s.now;
    if !dead {
      s', steps, mark, at := Requeue(world, store, met, x.cfg, e, message, s, r);
    }
  }

  // The loop.

  /** One turn of the loop over the claimed batch. */
  method Handle(world: World, store: Store, producer: Producer<Message>, dlq: Producer?<DeadLetter>, met: Metrics, x: Setting,
                e: Event, s: State, r: nat)
    returns (s': State, ghost a: Account)
    requires Equipped(producer, dlq, x) && Mirrors(s, world, store) && Facing(s, r, e, Unsent)
    modifies world, store, producer, met, if dlq == null then {} else {dlq}
    ensures Equipped(producer, dlq, x) && Mirrors(s', world, store)
    ensures Handled(x, r, a) && a.event == e && a.start == s && a.end == s' && Shows(x, a)
    ensures Recorded(store, producer, dlq, met) == Entered(old(Recorded(store, producer, dlq, met)), a)
    ensures met.published == if a.mark.statement.ToSent? then OneMoreOf(old(met.published), e.fields.eventType) else old(met.published)
    ensures met.failed == if a.mark.statement.ToPending? then OneMoreOf(old(met.failed), e.fields.eventType) else old(met.failed)
    ensures met.dead == if a.mark.statement.ToFailed? then OneMoreOf(old(met.dead), e.fields.eventType) else old(met.dead)
    ensures Freed(s, s', r)
  {
    var error, mid;
    ghost var first, writes;
    ghost var before := Recorded(store, producer, dlq, met);
    error, mid, first, writes := Publish(world, store, producer, x, e, s, r);
    s', a := Finish(world, store, producer, dlq, met, x, e, error, mid, r, s, first, writes, before);
    EnteredExactly(x, before, a);
  }

  /** The rest of a turn that started in state `start` and has led to state s. */
  method Finish(world: World, store: Store, producer: Producer<Message>, dlq: Producer?<DeadLetter>, met: Metrics, x: Setting, e: Event,
                error: Option<string>, s: State, r: nat,
                ghost start: State, ghost first: seq<Step>, ghost writes: seq<Attempt<Message>>, ghost before: Books)
    returns (s': State, ghost a: Account)
    requires Equipped(producer, dlq, x) && Mirrors(s, world, store)
    requires (error.None? <==> GotThrough(writes)) && error.GetOr("") == Reason(x.encode(e.fields), writes)
    requires Tried(writes, x.open && x.encode(e.fields).None?, MessageOf(e.fields))
    requires Advances(x.cfg, start, first, s, r, e, if error.None? then Acked else Refused, Publishing(r, writes))
    requires Recorded(store, producer, dlq, met) == before.(writes := before.writes + writes)
    modifies world, store, met, if dlq == null then {} else {dlq}
    ensures Equipped(producer, dlq, x) && Mirrors(s', world, store) && Freed(start, s', r)
    ensures Handled(x, r, a) && a.event == e && a.start == start && a.end == s' && Shows(x, a)
    ensures Recorded(store, producer, dlq, met) == Entered(before, a)
  {
    ghost var rest, mark, at, letters;
    s', rest, mark, at, letters := Conclude(world, store, dlq, met, x, e, error, s, r);
    a := TurnDone(x, start, r, e, first, s, rest, s', writes, letters, at, mark);
    FreedLater(start, s, s', r);
  }

  method Conclude(world: World, store: Store, dlq: Producer?<DeadLetter>, met: Metrics, x: Setting, e: Event, error: Option<string>,
                  s: State, r: nat)
    returns (s': State, ghost steps: seq<Step>, ghost mark: Request, ghost at: int, ghost letters: seq<Attempt<DeadLetter>>)
    requires Usable(dlq, x)
    requires Mirrors(s, world, store) && Facing(s, r, e, if error.None? then Acked else Refused)
    modifies world, store, met, if dlq == null then {} else {dlq}
    ensures Usable(dlq, x) && Written(dlq) == old(Written(dlq)) + letters
    ensures Ended(x.cfg, s, steps, s', r, mark, at, error.GetOr("")) && mark.statement == MarkOf(x.cfg, e, error.None?, at, error.GetOr(""))
    ensures Mirrors(s', world, store) && store.sent == old(store.sent) + [mark]
    ensures Tried(letters, error.Some? && GivesUp(x.cfg, e.attempts) && x.letterbox && x.encode(e.fields).None?, LetterOf(e, error.GetOr("")))
    ensures met.Value() == old(met.Value()).Inc(CounterOf(mark.statement), e.fields.eventType)
  {
    letters := [];
    if error.Some? {
      s', steps, mark, at, letters := Unpublished(world, store, dlq, met, x, e, error.value, s, r);
    } else {
      s', steps, mark, at := Published(world, store, met, x.cfg, e, s, r);
    }
  }

  /** Publishing and mark make a turn. */
  lemma TurnDone(x: Setting, s: State, r: nat, e: Event, first: seq<Step>, mid: State, rest: seq<Step>, s': State,
                 writes: seq<Attempt<Message>>, letters: seq<Attempt<DeadLetter>>, at: int, mark: Request) returns (a: Account)
    requires Leads(x.cfg, s, first, mid) && Mine(r, first) == Publishing(r, writes)
    requires Ended(x.cfg, mid, rest, s', r, mark, at, Reason(x.encode(e.fields), writes))
    requires Tried(writes, x.open && x.encode(e.fields).None?, MessageOf(e.fields))
    requires mark.statement == MarkOf(x.cfg, e, GotThrough(writes), at, Reason(x.encode(e.fields), writes))
    requires Tried(letters, !GotThrough(writes) && GivesUp(x.cfg, e.attempts) && x.letterbox && x.encode(e.fields).None?,
                   LetterOf(e, Reason(x.encode(e.fields), writes)))
    ensures a == Account(e, s, first + rest, s', writes, letters, at, mark)
    ensures Handled(x, r, a) && a.event == e && a.start == s && a.end == s' && Shows(x, a)
  {
    LeadsOn(x.cfg, r, s, first, mid, rest, s');
    a := Account(e, s, first + rest, s', writes, letters, at, mark);
    HandledShows(x, r, a);
  }

  /** The loop over the claimed batch. */
  method HandleAll(world: World, store: Store, producer: Producer<Message>, dlq: Producer?<DeadLetter>, met: Metrics, x: Setting,
                   claimed: seq<Event>, s: State, r: nat)
    returns (s': State, ghost turns: seq<Account>)
    requires Equipped(producer, dlq, x) && Mirrors(s, world, store) && Batch(s, r, claimed)
    modifies world, store, producer, met, if dlq == null then {} else {dlq}
    ensures Equipped(producer, dlq, x) && Mirrors(s', world, store)
    ensures EventsOf(turns) == claimed && Batch(s', r, [])
    ensures Amounts(x, s, r, turns, s', old(Recorded(store, producer, dlq, met)), Recorded(store, producer, dlq, met))
  {
    s', turns := s, [];
    ghost var before := Recorded(store, producer, dlq, met);
    var i := 0;
    assert claimed[0..] == claimed && claimed[..0] == [];
    while i < |claimed|
      invariant 0 <= i <= |claimed|
      invariant Equipped(producer, dlq, x) && Mirrors(s', world, store) && Batch(s', r, claimed[i..])
      invariant EventsOf(turns) == claimed[..i]
      invariant Amounts(x, s, r, turns, s', before, Recorded(store, producer, dlq, met))
    {
      s', turns := HandleNext(world, store, producer, dlq, met, x, claimed, i, s', r, s, turns, before);
      i := i + 1;
    }
    assert claimed[i..] == [] && claimed[..i] == claimed;
  }

  /** A turn of the loop, added to the turns before it. */
  method HandleNext(world: World, store: Store, producer: Producer<Message>, dlq: Producer?<DeadLetter>, met: Metrics, x: Setting,
                    claimed: seq<Event>, i: nat, s: State, r: nat, ghost start: State, ghost turns: seq<Account>, ghost before: Books)
    returns (s': State, ghost more: seq<Account>)
    requires i < |claimed| && EventsOf(turns) == claimed[..i]
    requires Equipped(producer, dlq, x) && Mirrors(s, world, store) && Batch(s, r, claimed[i..])
    requires Amounts(x, start, r, turns, s, before, Recorded(store, producer, dlq, met))
    modifies world, store, producer, met, if dlq == null then {} else {dlq}
    ensures Equipped(producer, dlq, x) && Mirrors(s', world, store) && Batch(s', r, claimed[i + 1..])
    ensures Amounts(x, start, r, more, s', before, Recorded(store, producer, dlq, met)) && EventsOf(more) == claimed[..i + 1]
  {
    ghost var a;
    s', a := Handle(world, store, producer, dlq, met, x, claimed[i], s, r);
    Slices(claimed, i);
    NextBatch(s, s', r, claimed[i..]);
    AmountsSnoc(x, start, r, turns, s, before, old(Recorded(store, producer, dlq, met)), a);
    more := turns + [a];
  }

  lemma Slices<T>(all: seq<T>, i: nat)
    requires i < |all|
    ensures all[i..][1..] == all[i + 1..] && all[..i + 1] == all[..i] + [all[i]]
  {
  }

  lemma NextBatch(s: State, s': State, r: nat, events: seq<Event>)
    requires events != [] && Batch(s, r, events) && Freed(s, s', r)
    ensures Batch(s', r, events[1..])
  {
    forall i | 0 <= i < |events| - 1
      ensures s'.relays[r].batch[i] == s.relays[r].batch[i + 1] && events[1..][i] == events[i + 1]
    {
    }
  }

  // The start of a pass.

  lemma ClaimHolds(cfg: Config, s: State, r: nat, ids: seq<nat>, locked: set<nat>, out: seq<Event>)
    requires WellFormed(s) && Idle(s, r) && Selects(s.rows, s.now, Limit(cfg.batchSize), locked, ids)
    requires |out| == |ids|
    requires forall i :: 0 <= i < |ids| ==>
      ids[i] in TakeAll(s.rows, ids, s.now) && out[i] == EventOf(ids[i], TakeAll(s.rows, ids, s.now)[ids[i]])
    ensures Enabled(cfg, s, Claim(r, ids, locked)) && Batch(Apply(cfg, s, Claim(r, ids, locked)), r, out)
  {
    WellFormedStep(cfg, s, Claim(r, ids, locked));
    forall i | 0 <= i < |ids|
      ensures ids[i] in ids
    {
    }
  }

  /** The claim statement is the claim of the protocol. */
  method AskClaim(store: Store, cfg: Config, now: int, locked: set<nat>, call: Call) returns (ok: bool, out: seq<Event>, ids: seq<nat>)
    modifies store
    ensures ok == call.Succeeded?
    ensures store.sent == old(store.sent) + [Request(ToClaim(if cfg.batchSize > 0 then cfg.batchSize else 50), now, call)]
    ensures Selects(old(store.rows), now, Limit(cfg.batchSize), locked, ids)
    ensures store.rows == if call.Applied() then TakeAll(old(store.rows), ids, now) else old(store.rows)
    ensures |out| == if ok then |ids| else 0
    ensures forall i :: 0 <= i < |out| ==> ids[i] in store.rows && out[i] == EventOf(ids[i], store.rows[ids[i]])
  {
    ghost var before := store.rows;
    ok, out, ids := store.ClaimPending(cfg.batchSize, now, locked, call);
    PicksExactly(before, now, Limit(cfg.batchSize), locked, ids);
    if call.Applied() {
      TakesExactly(before, store.rows, ids, now);
    }
    forall i | 0 <= i < |ids|
      ensures ids[i] in ids
    {
    }
  }

  /** The reset statement is the reset of the protocol. */
  method AskReset(store: Store, cfg: Config, now: int, call: Call) returns (ok: bool)
    modifies store
    ensures ok == call.Succeeded?
    ensures store.sent
      == old(store.sent) + [Request(ToReset(if cfg.processingTimeout > 0 then cfg.processingTimeout else 30_000_000), now, call)]
    ensures store.rows == if call.Applied() then UnstickAll(old(store.rows), now, Timeout(cfg.processingTimeout)) else old(store.rows)
  {
    ghost var before := store.rows;
    var affected;
    ok, affected := store.ResetStuck(cfg.processingTimeout, now, call);
    if call.Applied() {
      ResetsExactly(before, store.rows, cfg.processingTimeout, now);
    }
  }

  /** The claim. `locked` is what other claims hold at that moment. */
  method ClaimBatch(world: World, store: Store, cfg: Config, locked: set<nat>, s: State, r: nat)
    returns (ok: bool, out: seq<Event>, s': State, ghost steps: seq<Step>, ghost claim: Request, ghost ids: seq<nat>)
    requires Mirrors(s, world, store) && WellFormed(s) && Idle(s, r)
    modifies world, store
    ensures Leads(cfg, s, steps, s') && Mine(r, steps) == ClaimSteps(r, claim.call, ids, locked)
    ensures claim.statement == ToClaim(if cfg.batchSize > 0 then cfg.batchSize else 50) && ok == claim.call.Succeeded?
    ensures Mirrors(s', world, store) && store.sent == old(store.sent) + [claim] && WellFormed(s')
    ensures if ok then Batch(s', r, out) else out == [] && Idle(s', r)
  {
    var mid, idle := Pause(world, store, cfg, s, r);
    var call := world.Query();
    var picked;
    ok, out, picked := AskClaim(store, cfg, world.now, locked, call);
    ids, claim := picked, Request(ToClaim(if cfg.batchSize > 0 then cfg.batchSize else 50), world.now, call);
    s', steps := mid, idle;
    if call.Applied() {
      s' := Apply(cfg, mid, Claim(r, picked, locked));
      steps := ClaimTaken(cfg, s, r, idle, mid, picked, locked);
      if ok {
        ClaimHolds(cfg, mid, r, ids, locked, out);
      } else {
        // The rows are claimed but the answer is lost.
        steps := LeadsThen(cfg, r, s, steps, s', Crash(r));
        WellFormedStep(cfg, s', Crash(r));
        s' := Apply(cfg, s', Crash(r));
      }
    }
  }

  ghost function ClaimSteps(r: nat, call: Call, ids: seq<nat>, locked: set<nat>): seq<Step> {
    (if call.Applied() then [Claim(r, ids, locked)] else []) + (if call.FailedAfter? then [Crash(r)] else [])
  }

  lemma ClaimTaken(cfg: Config, s: State, r: nat, idle: seq<Step>, mid: State, ids: seq<nat>, locked: set<nat>) returns (steps: seq<Step>)
    requires Leads(cfg, s, idle, mid) && Mine(r, idle) == [] && WellFormed(mid) && Enabled(cfg, mid, Claim(r, ids, locked))
    ensures Leads(cfg, s, steps, Apply(cfg, mid, Claim(r, ids, locked))) && Mine(r, steps) == [Claim(r, ids, locked)]
    ensures WellFormed(Apply(cfg, mid, Claim(r, ids, locked)))
  {
    var step := Claim(r, ids, locked);
    steps := LeadsThen(cfg, r, s, idle, mid, step);
    WellFormedStep(cfg, mid, step);
  }

  /** The reset of stuck rows. */
  method ResetRows(world: World, store: Store, cfg: Config, s: State, r: nat)
    returns (ok: bool, s': State, ghost steps: seq<Step>, ghost reset: Request)
    requires Mirrors(s, world, store) && WellFormed(s) && Idle(s, r)
    modifies world, store
    ensures Leads(cfg, s, steps, s') && Mine(r, steps) == if reset.call.Applied() then [Reset(r)] else []
    ensures reset.statement == ToReset(if cfg.processingTimeout > 0 then cfg.processingTimeout else 30_000_000) && ok == reset.call.Succeeded?
    ensures Mirrors(s', world, store) && store.sent == old(store.sent) + [reset]
    ensures WellFormed(s') && Idle(s', r)
  {
    s', steps := Pause(world, store, cfg, s, r);
    var call := world.Query();
    ok := AskReset(store, cfg, world.now, call);
    reset := Request(ToReset(if cfg.processingTimeout > 0 then cfg.processingTimeout else 30_000_000), world.now, call);
    if call.Applied() {
      steps := LeadsThen(cfg, r, s, steps, s', Reset(r));
      WellFormedStep(cfg, s', Reset(r));
      s' := Apply(cfg, s', Reset(r));
    }
  }

  /** The start of a pass: stuck rows are reset, then a batch is claimed. */
  method ResetAndClaim(world: World, store: Store, cfg: Config, locked: set<nat>, s: State, r: nat)
    returns (ok: bool, out: seq<Event>, s': State, ghost start: seq<Step>, ghost opening: seq<Request>, ghost ids: seq<nat>)
    requires Mirrors(s, world, store) && WellFormed(s) && Idle(s, r)
    modifies world, store
    ensures Opened(cfg, s, r, locked, start, opening, ids, ok, out) && s' == Exec(cfg, s, start) && WellFormed(s')
    ensures Mirrors(s', world, store) && store.sent == old(store.sent) + opening
  {
    out, ids := [], [];
    ghost var reset;
    ok, s', start, reset := ResetRows(world, store, cfg, s, r);
    opening := [reset];
    if ok {
      ghost var first, mid := start, s';
      ghost var rest, claim;
      ok, out, s', rest, claim, ids := ClaimBatch(world, store, cfg, locked, s', r);
      start, opening := OpenedBoth(cfg, s, r, locked, first, mid, reset, rest, s', claim, ids, ok, out);
    } else {
      OpenedOnce(cfg, s, r, locked, start, s', reset);
    }
  }

  lemma OpenedOnce(cfg: Config, s: State, r: nat, locked: set<nat>, start: seq<Step>, end: State, reset: Request)
    requires Leads(cfg, s, start, end) && Mine(r, start) == (if reset.call.Applied() then [Reset(r)] else [])
    requires reset.statement == ToReset(if cfg.processingTimeout > 0 then cfg.processingTimeout else 30_000_000) && !reset.call.Succeeded? && Idle(end, r)
    ensures Opened(cfg, s, r, locked, start, [reset], [], false, [])
  {
  }

  lemma OpenedBoth(cfg: Config, s: State, r: nat, locked: set<nat>, first: seq<Step>, mid: State, reset: Request,
                   rest: seq<Step>, end: State, claim: Request, ids: seq<nat>, ok: bool, out: seq<Event>)
    returns (start: seq<Step>, opening: seq<Request>)
    requires Leads(cfg, s, first, mid) && Mine(r, first) == [Reset(r)]
    requires reset.statement == ToReset(if cfg.processingTimeout > 0 then cfg.processingTimeout else 30_000_000) && reset.call.Succeeded?
    requires Leads(cfg, mid, rest, end) && Mine(r, rest) == ClaimSteps(r, claim.call, ids, locked)
    requires claim.statement == ToClaim(if cfg.batchSize > 0 then cfg.batchSize else 50) && ok == claim.call.Succeeded?
    requires if ok then Batch(end, r, out) else out == [] && Idle(end, r)
    ensures start == first + rest && opening == [reset, claim]
    ensures Opened(cfg, s, r, locked, start, opening, ids, ok, out) && Exec(cfg, s, start) == end
  {
    LeadsOn(cfg, r, s, first, mid, rest, end);
    start, opening := first + rest, [reset, claim];
    SameSteps(r, claim.call, ids, locked, opening);
  }

  lemma SameSteps(r: nat, call: Call, ids: seq<nat>, locked: set<nat>, opening: seq<Request>)
    requires |opening| == 2 && opening[0].call.Succeeded? && opening[1].call == call
    ensures [Reset(r)] + ClaimSteps(r, call, ids, locked) == OpeningSteps(r, opening, ids, locked)
  {
  }

  /** One pass, while other processes work on the same table and topic. It is a run of the protocol in which the relay itself
      resets, claims, and then handles exactly the rows claimed, each ending with one mark. What was sent to the database and
      to the topics is what the run says, and every row claimed is counted once, as published, failed or dead, whether or
      not its mark succeeds. */
  method Tick(world: World, store: Store, producer: Producer<Message>, dlq: Producer?<DeadLetter>, met: Metrics, x: Setting,
              locked: set<nat>, s: State, r: nat)
    returns (ok: bool, claimed: seq<Event>, s': State, ghost start: seq<Step>, ghost opening: seq<Request>, ghost ids: seq<nat>,
             ghost turns: seq<Account>)
    requires Equipped(producer, dlq, x) && Mirrors(s, world, store) && WellFormed(s) && Idle(s, r)
    modifies world, store, producer, met, if dlq == null then {} else {dlq}
    ensures Equipped(producer, dlq, x) && Mirrors(s', world, store) && WellFormed(s') && Idle(s', r)
    ensures Opened(x.cfg, s, r, locked, start, opening, ids, ok, claimed)
    ensures Leads(x.cfg, s, start + Steps(turns), s') && EventsOf(turns) == claimed
    ensures
      var before := old(Recorded(store, producer, dlq, met));
      Amounts(x, Exec(x.cfg, s, start), r, turns, s', before.(sent := before.sent + opening), Recorded(store, producer, dlq, met))
    ensures forall i :: 0 <= i < |turns| ==> Shows(x, turns[i])
    ensures forall t :: Tallied(old(met.Value()), met.Value(), turns, t)
    ensures forall t :: Settled(met.Value(), t) == Settled(old(met.Value()), t) + OfType(claimed, t)
  {
    ok, claimed, s', start, opening, ids := ResetAndClaim(world, store, x.cfg, locked, s, r);
    turns := [];
    ghost var mid := s';
    if ok {
      s', turns := HandleAll(world, store, producer, dlq, met, x, claimed, s', r);
    }
    HandlesLeads(x, mid, r, turns);
    LeadsOn(x.cfg, r, s, start, mid, Steps(turns), s');
    ghost var before := old(Recorded(store, producer, dlq, met));
    TickShows(x, mid, r, before.(sent := before.sent + opening), turns);
  }

  lemma TickShows(x: Setting, s: State, r: nat, b: Books, turns: seq<Account>)
    requires Handles(x, s, r, turns)
    ensures forall i :: 0 <= i < |turns| ==> Shows(x, turns[i])
    ensures forall t :: Tallied(b.totals, AllEntered(b, turns).totals, turns, t)
    ensures forall t :: Settled(AllEntered(b, turns).totals, t) == Settled(b.totals, t) + OfType(EventsOf(turns), t)
  {
    forall i | 0 <= i < |turns|
      ensures Shows(x, turns[i])
    {
      HandlesShows(x, s, r, turns, i);
    }
    forall t
      ensures Tallied(b.totals, AllEntered(b, turns).totals, turns, t)
      ensures Settled(AllEntered(b, turns).totals, t) == Settled(b.totals, t) + OfType(EventsOf(turns), t)
    {
      TallyExactly(x, b, turns, t);
      Conserved(b, turns, t);
    }
  }
}
