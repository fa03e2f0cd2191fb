/** cmd/notification-service/main.go: handling one fetched record, from the fetch to the commit. Whatever the calls return and
    whatever is appended to the topic meanwhile, it is a run of the protocol in Consumer. */
module Notifier {
  import opened Base
  import opened Events
  import opened Kafka
  import opened ProcessedEvents
  import opened Handling
  import opened DeliveryLog
  import Consumer

  /** A taggedErr. */
  datatype Failure = Failure(tag: string, text: string) {
    function Error(): string {
      tag + ": " + text
    }
  }

  function Classify(error: Failure): string {
    error.tag
  }

  datatype DeadRecord = DeadRecord(error: string, value: Body)

  /** The counters of the loop; `errors` counts returns of handleMessage with an error. */
  class Metrics {
    var fetched: nat
    var ok: nat
    var dead: nat
    var errors: nat
    var committed: nat

    constructor ()
      ensures fetched == ok == dead == errors == committed == 0
    {
      fetched, ok, dead, errors, committed := 0, 0, 0, 0, 0;
    }

    /** Between two records everything fetched has been counted as ok or dead, and nothing has been committed twice. */
    ghost predicate Balanced()
      reads this
    {
      fetched == ok + dead && committed <= fetched
    }
  }

  /** The record of the delivery is right at this moment. */
  ghost predicate Current(settings: Settings, log: Log, world: World, store: NotifyStore, f: Flight)
    reads world, store
  {
    Tells(settings, log, store.ledger, store.sent, world.now, f)
  }

  /** How the delivery stands when handleMessage returns. */
  ghost function PhaseAfter(value: Body, error: Option<Failure>): Phase {
    if error.None? then Leaving(Handled) else if value.Undecodable? then Leaving(Undecoded) else Failing
  }

  /** The event is done or failed already. */
  ghost predicate SettledIn(ledger: Ledger, value: Body) {
    value.Decoded? && value.envelope.eventId in ledger
    && (ledger[value.envelope.eventId].standing == Done || ledger[value.envelope.eventId].standing == Dead)
  }

  /** The acts of one call of handleMessage and its error. */
  ghost predicate Course(settings: Settings, value: Body, settled: bool, news: seq<Act>, error: Option<Failure>) {
    if value.Undecodable? then
      news == [Decode] && error.Some? && error.value.tag == "unmarshal"
    else
      && news != [] && news[0].Start?
      && if !news[0].call.Succeeded? then |news| == 1 && error.Some? && error.value.tag == "db_start"
         else if settled then |news| == 1 && error.None?
         else Outcome(Forced(settings, value.envelope.eventType), news[1..], error)
  }

  /** The acts that follow StartProcessing, and the error: a forced failure, or MarkDone. */
  ghost predicate Outcome(forced: bool, news: seq<Act>, error: Option<Failure>) {
    if forced then
      && |news| == 1 && news[0].Relinquish? && news[0].message == "forced failure"
      && error == Some(Failure("forced", "forced failure"))
    else
      && 1 <= |news| <= 2 && news[0].Finish?
      && if news[0].call.Succeeded? then |news| == 1 && error.None?
         else |news| == 2 && news[1].Relinquish? && error == Some(Failure("db_done", news[1].message))
  }

  /** The error text: the tag of the error, a colon and its own text. */
  ghost predicate ErrorOf(value: Body, said: string) {
    if value.Undecodable? then "unmarshal: " <= said
    else said == "forced: forced failure" || "db_start: " <= said || "db_done: " <= said
  }

  /** What the error says. */
  lemma CourseSays(settings: Settings, value: Body, settled: bool, news: seq<Act>, error: Option<Failure>)
    requires Course(settings, value, settled, news, error)
    ensures error.Some? ==> ErrorOf(value, error.value.Error())
  {
    if error.Some? {
      var tag := error.value.tag;
      TagFirst(error.value);
      if tag == "unmarshal" {
        assert "unmarshal" + ": " == "unmarshal: ";
      } else if tag == "db_start" {
        assert "db_start" + ": " == "db_start: ";
      } else if tag == "db_done" {
        assert "db_done" + ": " == "db_done: ";
      } else {
        assert "forced" + ": " + "forced failure" == "forced: forced failure";
      }
    }
  }

  lemma TagFirst(error: Failure)
    ensures error.tag + ": " <= error.Error()
  {
  }

  lemma CourseTag(settings: Settings, value: Body, settled: bool, news: seq<Act>, error: Option<Failure>)
    requires Course(settings, value, settled, news, error)
    ensures value.Undecodable? <==> error.Some? && error.value.tag == "unmarshal"
  {
    assert "unmarshal"[0] != "db_start"[0] && "unmarshal"[0] != "db_done"[0] && "unmarshal"[0] != "forced"[0];
  }

  lemma CourseFrom(settings: Settings, env: Envelope, before: seq<Act>, start: Act, rest: seq<Act>, error: Option<Failure>)
    requires start.Start? && start.call.Succeeded?
    requires Outcome(settings.Forces(env.eventType), rest, error)
    ensures Course(settings, Decoded(env), false, [start] + rest, error)
    ensures before + [start] + rest == before + ([start] + rest)
  {
    ForcesExactly(settings, env.eventType);
    assert ([start] + rest)[1..] == rest;
  }

  /** handleMessage: out-parameters instead of out-pointers. */
  method HandleMessage(world: World, store: NotifyStore, settings: Settings, value: Body, evTypeIn: string, attemptIn: nat, ghost logIn: Log)
    returns (error: Option<Failure>, evType: string, attempt: nat, ghost log: Log, ghost news: seq<Act>)
    requires Current(settings, logIn, world, store, Flight(value, attemptIn, Ready)) && logIn.body == value
    modifies world, store
    ensures Current(settings, log, world, store, Flight(value, attempt, PhaseAfter(value, error))) && Extends(logIn, log)
    ensures log.acts == logIn.acts + news && Course(settings, value, SettledIn(old(store.ledger), value), news, error)
    ensures Retries(log.acts) == Retries(logIn.acts)
    ensures evType == if value.Decoded? then value.envelope.eventType else evTypeIn
    ensures value.Undecodable? <==> error.Some? && Classify(error.value) == "unmarshal"
  {
    evType, attempt := evTypeIn, attemptIn;
    if value.Undecodable? {
      log := Next(settings, logIn, store.ledger, store.sent, world.now, Flight(value, attempt, Ready), Decode, world.now);
      RetriesSnoc(logIn.acts, Decode);
      var text := world.Text();
      error, news := Some(Failure("unmarshal", text)), [Decode];
    } else {
      evType := value.envelope.eventType;
      error, attempt, log, news := HandleEvent(world, store, settings, value.envelope, attempt, logIn);
    }
    CourseTag(settings, value, SettledIn(old(store.ledger), value), news, error);
  }

  /** handleMessage after the decoding. */
  method HandleEvent(world: World, store: NotifyStore, settings: Settings, env: Envelope, attemptIn: nat, ghost logIn: Log)
    returns (error: Option<Failure>, attempt: nat, ghost log: Log, ghost news: seq<Act>)
    requires Current(settings, logIn, world, store, Flight(Decoded(env), attemptIn, Ready)) && logIn.body == Decoded(env)
    modifies world, store
    ensures Current(settings, log, world, store, Flight(Decoded(env), attempt, PhaseAfter(Decoded(env), error))) && Extends(logIn, log)
    ensures log.acts == logIn.acts + news
    ensures Course(settings, Decoded(env), SettledIn(old(store.ledger), Decoded(env)), news, error)
    ensures Retries(log.acts) == Retries(logIn.acts)
  {
    var matchForceFail := settings.Forces(env.eventType);
    var ok, shouldProcess;
    ghost var start;
    ok, shouldProcess, attempt, log, start := Begin(world, store, settings, env, attemptIn, logIn);
    news := [start];
    if !ok {
      var text := world.Text();
      error := Some(Failure("db_start", text));
    } else if !shouldProcess {
      error := None;
    } else {
      ghost var rest;
      error, log, rest := Conclude(world, store, settings, env, attempt, matchForceFail, log);
      news := [start] + rest;
      CourseFrom(settings, env, logIn.acts, start, rest, error);
    }
  }

  /** The first statement of handleMessage. */
  method Begin(world: World, store: NotifyStore, settings: Settings, env: Envelope, attemptIn: nat, ghost logIn: Log)
    returns (ok: bool, shouldProcess: bool, attempt: nat, ghost log: Log, ghost act: Act)
    requires Current(settings, logIn, world, store, Flight(Decoded(env), attemptIn, Ready)) && logIn.body == Decoded(env)
    modifies world, store
    ensures act.Start? && ok == act.call.Succeeded?
    ensures ok ==> (shouldProcess <==> !SettledIn(old(store.ledger), Decoded(env)))
    ensures Current(settings, log, world, store,
                    Flight(Decoded(env), attempt, if !ok then Failing else if shouldProcess then Executing else Leaving(Handled)))
    ensures Extends(logIn, log) && log.acts == logIn.acts + [act] && Retries(log.acts) == Retries(logIn.acts)
  {
    ghost var ledger, sent, before := store.ledger, store.sent, world.now;
    world.Pass();
    var call := world.Query();
    ok, shouldProcess, attempt := Upsert(store, env, attemptIn, world.now, call);
    act := Start(call);
    log := Told(settings, logIn, ledger, sent, before, env, attemptIn, call, world.now, store.ledger, store.sent, ok, shouldProcess, attempt);
  }

  method Upsert(store: NotifyStore, env: Envelope, attemptIn: nat, now: int, call: Call) returns (ok: bool, shouldProcess: bool, attempt: nat)
    modifies store
    ensures ok == call.Succeeded? && store.sent == old(store.sent) + [Issued(ToStart(env), call)]
    ensures store.ledger == if call.Applied() then Started(old(store.ledger), env, now) else old(store.ledger)
    ensures ok ==> (shouldProcess <==> !SettledIn(old(store.ledger), Decoded(env)))
    ensures attempt == if ok then Started(old(store.ledger), env, now)[env.eventId].attempts else attemptIn
  {
    ghost var ledger := store.ledger;
    ok, shouldProcess, attempt := store.StartProcessing(env, now, call);
    StartsExactly(ledger, store.ledger, env, now, call);
    if !ok {
      attempt := attemptIn;
    }
  }

  /** The record after StartProcessing. */
  lemma Told(settings: Settings, log: Log, ledger: Ledger, sent: seq<Issued>, before: int, e: Envelope, attemptIn: nat, call: Call, now: int,
             ledger': Ledger, sent': seq<Issued>, ok: bool, shouldProcess: bool, attempt: nat) returns (log': Log)
    requires Tells(settings, log, ledger, sent, before, Flight(Decoded(e), attemptIn, Ready)) && before <= now
    requires ok == call.Succeeded? && sent' == sent + [Issued(ToStart(e), call)]
    requires ledger' == if call.Applied() then Started(ledger, e, now) else ledger
    requires ok ==> (shouldProcess <==> !SettledIn(ledger, Decoded(e)))
    requires attempt == if ok then Started(ledger, e, now)[e.eventId].attempts else attemptIn
    ensures Tells(settings, log', ledger', sent', now,
                  Flight(Decoded(e), attempt, if !ok then Failing else if shouldProcess then Executing else Leaving(Handled)))
    ensures Extends(log, log') && log'.acts == log.acts + [Start(call)] && Retries(log'.acts) == Retries(log.acts)
  {
    log' := Next(settings, log, ledger, sent, before, Flight(Decoded(e), attemptIn, Ready), Start(call), now);
    RetriesSnoc(log.acts, Start(call));
    StartLeads(ledger, e, attemptIn, call, now);
  }

  lemma StartLeads(ledger: Ledger, e: Envelope, attemptIn: nat, call: Call, now: int)
    ensures
      var f := Flight(Decoded(e), attemptIn, Ready);
      && SentBy(f.body, Start(call)) == [Issued(ToStart(e), call)]
      && Effect(ledger, f, Start(call), now) == (if call.Applied() then Started(ledger, e, now) else ledger)
      && Onward(ledger, f, Start(call), now) ==
           if !call.Succeeded? then Flight(Decoded(e), attemptIn, Failing)
           else Flight(Decoded(e), Started(ledger, e, now)[e.eventId].attempts,
                       if e.eventId !in ledger || ledger[e.eventId].standing == InProgress then Executing else Leaving(Handled))
  {
  }

  /** The rest of handleMessage, after the notification. */
  method Conclude(world: World, store: NotifyStore, settings: Settings, env: Envelope, attempt: nat, matchForceFail: bool, ghost logIn: Log)
    returns (error: Option<Failure>, ghost log: Log, ghost news: seq<Act>)
    requires matchForceFail == settings.Forces(env.eventType)
    requires Current(settings, logIn, world, store, Flight(Decoded(env), attempt, Executing)) && logIn.body == Decoded(env)
    modifies world, store
    ensures Current(settings, log, world, store, Flight(Decoded(env), attempt, PhaseAfter(Decoded(env), error))) && Extends(logIn, log)
    ensures log.acts == logIn.acts + news && Retries(log.acts) == Retries(logIn.acts)
    ensures Outcome(matchForceFail, news, error)
  {
    ghost var f := Flight(Decoded(env), attempt, Executing);
    ghost var ledger, sent, before := store.ledger, store.sent, world.now;
    world.Pass();
    var call := world.Query();
    if matchForceFail {
      var _ := store.MarkFailed(env.eventId, "forced failure", world.now, call);
      log := Next(settings, logIn, ledger, sent, before, f, Relinquish(call, "forced failure"), world.now);
      RetriesSnoc(logIn.acts, Relinquish(call, "forced failure"));
      return Some(Failure("forced", "forced failure")), log, [Relinquish(call, "forced failure")];
    }
    var ok := store.MarkDone(env.eventId, world.now, call);
    log := Next(settings, logIn, ledger, sent, before, f, Finish(call), world.now);
    RetriesSnoc(logIn.acts, Finish(call));
    news := [Finish(call)];
    if ok {
      return None, log, news;
    }
    var text := world.Text();
    ghost var last;
    log, last := TakeBack(world, store, settings, env, attempt, text, log);
    news := news + [last];
    error := Some(Failure("db_done", text));
  }

  /** What follows a MarkDone that returned an error. */
  method TakeBack(world: World, store: NotifyStore, settings: Settings, env: Envelope, attempt: nat, text: string, ghost logIn: Log)
    returns (ghost log: Log, ghost act: Act)
    requires Current(settings, logIn, world, store, Flight(Decoded(env), attempt, Erred)) && logIn.body == Decoded(env)
    modifies world, store
    ensures Current(settings, log, world, store, Flight(Decoded(env), attempt, Failing)) && Extends(logIn, log)
    ensures log.acts == logIn.acts + [act] && act.Relinquish? && act.message == text
    ensures Retries(log.acts) == Retries(logIn.acts)
  {
    ghost var ledger, sent, before := store.ledger, store.sent, world.now;
    world.Pass();
    var call := world.Query();
    var _ := store.MarkFailed(env.eventId, text, world.now, call);
    log := Next(settings, logIn, ledger, sent, before, Flight(Decoded(env), attempt, Erred), Relinquish(call, text), world.now);
    RetriesSnoc(logIn.acts, Relinquish(call, text));
    act := Relinquish(call, text);
  }

  /** The upsert, said of the columns, is that of the protocol. */
  lemma StartsExactly(ledger: Ledger, ledger': Ledger, e: Envelope, now: int, call: Call)
    requires ledger'.Keys == ledger.Keys + (if call.Applied() then {e.eventId} else {})
    requires forall id :: id in ledger && !(call.Applied() && id == e.eventId) ==> ledger'[id] == ledger[id]
    requires call.Applied() && e.eventId !in ledger ==>
      ledger'[e.eventId] == Processed(e.eventType, e.aggregate, e.aggregateId, e.payload, InProgress, 1, None, None, None, now)
    requires call.Applied() && e.eventId in ledger ==>
      var row := ledger[e.eventId];
      ledger'[e.eventId] ==
        if row.standing == Done || row.standing == Dead then row.(updatedAt := now)
        else row.(standing := InProgress, attempts := row.attempts + 1, updatedAt := now)
    ensures ledger' == if call.Applied() then Started(ledger, e, now) else ledger
  {
  }

  ghost predicate Usable(dlq: Producer?<DeadRecord>)
    reads dlq
  {
    dlq != null ==> dlq.Valid()
  }

  ghost function Written(dlq: Producer?<DeadRecord>): seq<Attempt<DeadRecord>>
    reads dlq
  {
    if dlq == null then [] else dlq.writes
  }

  ghost predicate Open(dlq: Producer?<DeadRecord>)
    reads dlq
  {
    dlq != null && dlq.open
  }

  /** A dead letter goes out exactly for a record that cannot be decoded or is given up, if there is a topic for it. */
  ghost predicate Buried(exit: Option<Exit>, open: bool, letters: seq<Attempt<DeadRecord>>, record: DeadRecord) {
    Tried(letters, open && exit.Some? && !exit.value.Handled?, record)
  }

  /** The reason is the error of a record that is left without being handled; MarkDead stores it for one that is given up. */
  ghost predicate Reasoned(value: Body, exit: Exit, reason: string, acts: seq<Act>) {
    && (!exit.Handled? ==> ErrorOf(value, reason))
    && (exit.GivenUp? ==> acts != [] && acts[|acts| - 1].Bury? && acts[|acts| - 1].message == reason)
  }

  /** The retry loop. It returns no exit when the process is told to stop while it waits; `patience` is how many waits
      it is given before that. */
  method Process(world: World, store: NotifyStore, dlq: Producer?<DeadRecord>, met: Metrics, settings: Settings, value: Body, patience: nat)
    returns (exit: Option<Exit>, ghost last: Flight, ghost log: Log, ghost letters: seq<Attempt<DeadRecord>>, ghost reason: string)
    requires Usable(dlq)
    modifies world, store, met`errors, if dlq == null then {} else {dlq}
    ensures Usable(dlq) && Open(dlq) == old(Open(dlq))
    ensures Current(settings, log, world, store, last) && Extends(old(Begun(value, store.ledger, store.sent, world.now)), log)
    ensures if exit.Some? then last.phase == Leaving(exit.value)
            else last.phase.Failing? && !(settings.maxAttempts > 0 && last.attempt >= settings.maxAttempts) && Retries(log.acts) == patience
    ensures exit.Some? && exit.value.GivenUp? ==> settings.maxAttempts > 0 && last.attempt >= settings.maxAttempts
    ensures exit.Some? ==> (exit.value.Undecoded? <==> value.Undecodable?) && Reasoned(value, exit.value, reason, log.acts)
    ensures Written(dlq) == old(Written(dlq)) + letters && Buried(exit, Open(dlq), letters, DeadRecord(reason, value))
    ensures met.errors == old(met.errors) + Retries(log.acts) + if exit == Some(Handled) then 0 else 1
  {
    var evType, left := "unknown", patience;
    var attempt: nat := 0;
    ghost var begun := Begun(value, store.ledger, store.sent, world.now);
    log, letters, reason := begun, [], "";
    last := Takeoff(value);
    while true
      invariant Usable(dlq) && Open(dlq) == old(Open(dlq)) && Written(dlq) == old(Written(dlq))
      invariant last == Flight(value, attempt, Ready) && letters == []
      invariant Current(settings, log, world, store, last) && Extends(begun, log)
      invariant Retries(log.acts) + left == patience && met.errors == old(met.errors) + Retries(log.acts)
      decreases left
    {
      exit, evType, attempt, last, log, letters, reason := TryOnce(world, store, dlq, met, settings, value, evType, attempt, log);
      if exit.Some? {
        return;
      }
      if left == 0 {
        return;
      }
      left := left - 1;
      log := WaitAndRetry(world, store, settings, attempt, last, log);
      last := Flight(value, attempt, Ready);
    }
  }

  /** One call of handleMessage and what the loop does about its outcome. */
  method TryOnce(world: World, store: NotifyStore, dlq: Producer?<DeadRecord>, met: Metrics, settings: Settings, value: Body,
                 evTypeIn: string, attemptIn: nat, ghost logIn: Log)
    returns (exit: Option<Exit>, evType: string, attempt: nat, ghost last: Flight, ghost log: Log,
             ghost letters: seq<Attempt<DeadRecord>>, ghost reason: string)
    requires Usable(dlq) && Current(settings, logIn, world, store, Flight(value, attemptIn, Ready)) && logIn.body == value
    modifies world, store, met`errors, if dlq == null then {} else {dlq}
    ensures Usable(dlq) && Open(dlq) == old(Open(dlq))
    ensures Current(settings, log, world, store, last) && Extends(logIn, log) && Retries(log.acts) == Retries(logIn.acts)
    ensures if exit.Some? then last == Flight(value, attempt, Leaving(exit.value))
            else last == Flight(value, attempt, Failing) && !settings.GivesUp(attempt)
    ensures exit.Some? && exit.value.GivenUp? ==> settings.GivesUp(attempt)
    ensures exit.Some? ==> (exit.value.Undecoded? <==> value.Undecodable?) && Reasoned(value, exit.value, reason, log.acts)
    ensures Written(dlq) == old(Written(dlq)) + letters && Buried(exit, Open(dlq), letters, DeadRecord(reason, value))
    ensures met.errors == old(met.errors) + if exit == Some(Handled) then 0 else 1
  {
    var error;
    error, evType, attempt, log := HandleOnce(world, store, settings, value, evTypeIn, attemptIn, logIn);
    last, letters, reason := Flight(value, attempt, PhaseAfter(value, error)), [], "";
    if error.None? {
      exit := Some(Handled);
    } else {
      met.errors := met.errors + 1;
      reason := error.value.Error();
      exit, last, log, letters := Resolve(world, store, dlq, settings, value, error.value, attempt, last, log);
    }
  }

  /** A call of handleMessage, with the text of its error. */
  method HandleOnce(world: World, store: NotifyStore, settings: Settings, value: Body, evTypeIn: string, attemptIn: nat, ghost logIn: Log)
    returns (error: Option<Failure>, evType: string, attempt: nat, ghost log: Log)
    requires Current(settings, logIn, world, store, Flight(value, attemptIn, Ready)) && logIn.body == value
    modifies world, store
    ensures Current(settings, log, world, store, Flight(value, attempt, PhaseAfter(value, error)))
    ensures Extends(logIn, log) && Retries(log.acts) == Retries(logIn.acts)
    ensures error.Some? ==> ErrorOf(value, error.value.Error())
    ensures value.Undecodable? <==> error.Some? && Classify(error.value) == "unmarshal"
  {
    ghost var settled := SettledIn(store.ledger, value);
    ghost var news;
    error, evType, attempt, log, news := HandleMessage(world, store, settings, value, evTypeIn, attemptIn, logIn);
    CourseSays(settings, value, settled, news, error);
  }

  /** What the loop does about an error: the record is left if it cannot be decoded, or given up after maxAttempts. */
  method Resolve(world: World, store: NotifyStore, dlq: Producer?<DeadRecord>, settings: Settings, value: Body, error: Failure, attempt: nat,
                 ghost f: Flight, ghost logIn: Log)
    returns (exit: Option<Exit>, ghost last: Flight, ghost log: Log, ghost letters: seq<Attempt<DeadRecord>>)
    requires Usable(dlq) && (value.Undecodable? <==> Classify(error) == "unmarshal") && ErrorOf(value, error.Error())
    requires f == Flight(value, attempt, PhaseAfter(value, Some(error))) && Current(settings, logIn, world, store, f) && logIn.body == value
    modifies world, store, if dlq == null then {} else {dlq}
    ensures Usable(dlq) && Open(dlq) == old(Open(dlq))
    ensures Current(settings, log, world, store, last) && Extends(logIn, log) && Retries(log.acts) == Retries(logIn.acts)
    ensures if exit.Some? then last == Flight(value, attempt, Leaving(exit.value)) && !exit.value.Handled?
            else last == f && f.phase.Failing? && !settings.GivesUp(attempt)
    ensures exit.Some? && exit.value.GivenUp? ==> settings.GivesUp(attempt)
    ensures exit.Some? ==> (exit.value.Undecoded? <==> value.Undecodable?) && Reasoned(value, exit.value, error.Error(), log.acts)
    ensures Written(dlq) == old(Written(dlq)) + letters && Buried(exit, Open(dlq), letters, DeadRecord(error.Error(), value))
  {
    exit, last, log, letters := None, f, logIn, [];
    if Classify(error) == "unmarshal" {
      log, letters := DeadLetter(world, store, dlq, settings, DeadRecord(error.Error(), value), log, last);
      exit := Some(Undecoded);
    } else if settings.maxAttempts > 0 && attempt >= settings.maxAttempts {
      log, letters := DeadLetter(world, store, dlq, settings, DeadRecord(error.Error(), value), log, last);
      last, log := GiveUp(world, store, settings, value.envelope.eventId, error.Error(), last, log);
      exit := Some(GivenUp);
    }
  }

  method WaitAndRetry(world: World, store: NotifyStore, settings: Settings, attempt: nat, ghost f: Flight, ghost logIn: Log)
    returns (ghost log: Log)
    requires Current(settings, logIn, world, store, f) && f.phase.Failing? && f.attempt == attempt && !settings.GivesUp(attempt)
    modifies world
    ensures Current(settings, log, world, store, f.(phase := Ready)) && Extends(logIn, log)
    ensures Retries(log.acts) == Retries(logIn.acts) + 1
  {
    ghost var before := world.now;
    BackoffExactly(attempt);
    world.Wait(Backoff(attempt));
    log := Next(settings, logIn, store.ledger, store.sent, before, f, Retry, world.now);
    RetriesSnoc(logIn.acts, Retry);
  }

  /** Time passes without an act. */
  lemma Later(settings: Settings, log: Log, ledger: Ledger, sent: seq<Issued>, before: int, f: Flight, now: int)
    requires Tells(settings, log, ledger, sent, before, f) && before <= now
    ensures Tells(settings, log, ledger, sent, now, f)
  {
  }

  method DeadLetter(world: World, store: NotifyStore, dlq: Producer?<DeadRecord>, settings: Settings, record: DeadRecord,
                    ghost logIn: Log, ghost f: Flight)
    returns (ghost log: Log, ghost letters: seq<Attempt<DeadRecord>>)
    requires Usable(dlq) && Current(settings, logIn, world, store, f)
    modifies world, if dlq == null then {} else {dlq}
    ensures Usable(dlq) && Open(dlq) == old(Open(dlq)) && Current(settings, log, world, store, f) && log == logIn
    ensures Written(dlq) == old(Written(dlq)) + letters && Tried(letters, Open(dlq), record)
  {
    ghost var before := world.now;
    log, letters := logIn, [];
    if dlq != null {
      var _, attempts := dlq.Produce(world, record);
      letters := attempts;
    }
    Later(settings, log, store.ledger, store.sent, before, f, world.now);
  }

  method GiveUp(world: World, store: NotifyStore, settings: Settings, eventId: string, text: string, ghost f: Flight, ghost logIn: Log)
    returns (ghost f': Flight, ghost log: Log)
    requires f.body.Decoded? && f.body.envelope.eventId == eventId && f.phase.Failing? && settings.GivesUp(f.attempt)
    requires Current(settings, logIn, world, store, f) && logIn.body == f.body
    modifies world, store
    ensures f' == f.(phase := Leaving(GivenUp))
    ensures log.acts != [] && log.acts[|log.acts| - 1].Bury? && log.acts[|log.acts| - 1].message == text
    ensures Current(settings, log, world, store, f') && Extends(logIn, log) && Retries(log.acts) == Retries(logIn.acts)
  {
    ghost var ledger, sent, before := store.ledger, store.sent, world.now;
    world.Pass();
    var call := world.Query();
    var _ := store.MarkDead(eventId, text, world.now, call);
    log := Next(settings, logIn, ledger, sent, before, f, Bury(call, text), world.now);
    RetriesSnoc(logIn.acts, Bury(call, text));
    f' := f.(phase := Leaving(GivenUp));
  }

  datatype Commitment = Commitment(place: Consumer.Place, call: Call)

  /** internal/shared/kafkax/consumer.go, with the broker's side of it: the partition logs and the committed offsets.
      `commits` records the calls of CommitMessages. */
  class Reader {
    const startFirst: bool
    var topic: map<nat, seq<Body>>
    var committed: map<nat, nat>
    var position: map<nat, nat>
    ghost var commits: seq<Commitment>

    constructor (startFirst: bool, topic: map<nat, seq<Body>>, committed: map<nat, nat>)
      ensures this.startFirst == startFirst && this.topic == topic && this.committed == committed && commits == []
      ensures position == map p | p in topic :: if p in committed then committed[p] else if startFirst then 0 else |topic[p]|
    {
      this.startFirst, this.topic, this.committed, commits := startFirst, topic, committed, [];
      position := map p | p in topic :: if p in committed then committed[p] else if startFirst then 0 else |topic[p]|;
    }

    /** The next record of a partition that has one. */
    method FetchMessage(p: nat) returns (offset: nat, value: Body)
      requires p in topic && p in position && position[p] < |topic[p]|
      modifies this`position
      ensures offset == old(position[p]) && value == topic[p][offset]
      ensures position == old(position)[p := offset + 1]
    {
      offset := position[p];
      value := topic[p][offset];
      position := position[p := offset + 1];
    }

    method CommitMessages(p: nat, offset: nat, call: Call) returns (ok: bool)
      modifies this`committed, this`commits
      ensures ok == call.Succeeded?
      ensures commits == old(commits) + [Commitment(Consumer.Place(p, offset), call)]
      ensures committed == if call.Applied() then old(committed)[p := offset + 1] else old(committed)
    {
      if !call.FailedBefore? {
        committed := committed[p := offset + 1];
      }
      ok := call.Succeeded?;
      commits := commits + [Commitment(Consumer.Place(p, offset), call)];
    }

    method Reopen()
      modifies this`position
      ensures position == map p | p in topic :: if p in committed then committed[p] else if startFirst then 0 else |topic[p]|
    {
      position := map p | p in topic :: if p in committed then committed[p] else if startFirst then 0 else |topic[p]|;
    }

    /** Whatever the relays append to the topic at some time. */
    method Arrive(ghost cfg: Consumer.Config, ghost s: Consumer.State) returns (ghost arrived: seq<Consumer.Step>)
      requires s.topic == topic
      modifies this`topic
      ensures forall i :: 0 <= i < |arrived| ==> arrived[i].Append?
      ensures Leads(cfg, s, arrived, s.(topic := topic))
    {
      arrived := [];
      var news: seq<(nat, Body)> := *;
      var i := 0;
      while i < |news|
        invariant forall j :: 0 <= j < |arrived| ==> arrived[j].Append?
        invariant Leads(cfg, s, arrived, s.(topic := topic))
      {
        var (p, body) := news[i];
        if p in topic {
          Consumer.RunSnoc(cfg, s, arrived, Consumer.Append(p, body));
          topic := topic[p := topic[p] + [body]];
          arrived := arrived + [Consumer.Append(p, body)];
        }
        i := i + 1;
      }
    }
  }

  ghost predicate Leads(cfg: Consumer.Config, s: Consumer.State, steps: seq<Consumer.Step>, s': Consumer.State) {
    Consumer.Run(cfg, s, steps) && Consumer.Exec(cfg, s, steps) == s'
  }

  lemma {:induction false} LeadsOn(cfg: Consumer.Config, s: Consumer.State, first: seq<Consumer.Step>, mid: Consumer.State,
                                   second: seq<Consumer.Step>, end: Consumer.State)
    requires Leads(cfg, s, first, mid) && Leads(cfg, mid, second, end)
    ensures Leads(cfg, s, first + second, end)
    decreases |first|
  {
    if first == [] {
      assert first + second == second;
    } else {
      LeadsOn(cfg, Consumer.Apply(cfg, s, first[0]), first[1..], mid, second, end);
      assert (first + second)[1..] == first[1..] + second;
    }
  }

  /** The consumer's own steps: time passes and records arrive without it. */
  ghost function Mine(steps: seq<Consumer.Step>): seq<Consumer.Step> {
    if steps == [] then []
    else if steps[0].Advance? || steps[0].Append? then Mine(steps[1..])
    else [steps[0]] + Mine(steps[1..])
  }

  lemma {:induction false} MineConcat(first: seq<Consumer.Step>, second: seq<Consumer.Step>)
    ensures Mine(first + second) == Mine(first) + Mine(second)
  {
    if first == [] {
      assert first + second == second;
    } else {
      var all := first + second;
      assert all[0] == first[0] && all[1..] == first[1..] + second;
      MineConcat(first[1..], second);
    }
  }

  lemma {:induction false} ArrivalsNotMine(steps: seq<Consumer.Step>)
    requires forall i :: 0 <= i < |steps| ==> steps[i].Append?
    ensures Mine(steps) == []
  {
    if steps != [] {
      ArrivalsNotMine(steps[1..]);
    }
  }

  ghost function HandlesOf(acts: seq<Act>): seq<Consumer.Step> {
    if acts == [] then [] else [Consumer.Handle(acts[0])] + HandlesOf(acts[1..])
  }

  ghost predicate Mirrors(cfg: Consumer.Config, s: Consumer.State, world: World, reader: Reader, store: NotifyStore)
    reads world, reader, store
  {
    && cfg.startFirst == reader.startFirst
    && s.now == world.now && s.ledger == store.ledger
    && s.topic == reader.topic && s.committed == reader.committed && s.position == reader.position
  }

  /** What handling leaves alone. */
  ghost predicate SameOffsets(s: Consumer.State, s': Consumer.State) {
    s'.topic == s.topic && s'.committed == s.committed && s'.position == s.position
  }

  /** The acts of a delivery, each at its time, are steps of the protocol. */
  lemma {:induction false} ActsRun(cfg: Consumer.Config, s: Consumer.State, acts: seq<Act>, times: seq<int>, end: int)
    returns (steps: seq<Consumer.Step>, s': Consumer.State)
    requires s.trip.Some? && Acts(cfg.settings, s.ledger, s.trip.value.flight, acts, times) && During(times, s.now, end)
    ensures Leads(cfg, s, steps, s') && Mine(steps) == HandlesOf(acts)
    ensures s'.now == end && SameOffsets(s, s')
    ensures s'.ledger == LedgerAfter(s.ledger, s.trip.value.flight, acts, times)
    ensures s'.trip == Base.Some(s.trip.value.(flight := FlightAfter(s.ledger, s.trip.value.flight, acts, times)))
    decreases |acts|
  {
    if acts == [] {
      steps, s' := [Consumer.Advance(end)], Consumer.Apply(cfg, s, Consumer.Advance(end));
      Alone(cfg, s, Consumer.Advance(end));
    } else {
      var wait, act := Consumer.Advance(times[0]), Consumer.Handle(acts[0]);
      var late := Consumer.Apply(cfg, s, wait);
      var next := Consumer.Apply(cfg, late, act);
      Alone(cfg, s, wait);
      Alone(cfg, late, act);
      var rest;
      rest, s' := ActsRun(cfg, next, acts[1..], times[1..], end);
      LeadsOn(cfg, late, [act], next, rest, s');
      LeadsOn(cfg, s, [wait], late, [act] + rest, s');
      MineConcat([act], rest);
      MineConcat([wait], [act] + rest);
      steps := [wait] + ([act] + rest);
    }
  }

  lemma Alone(cfg: Consumer.Config, s: Consumer.State, step: Consumer.Step)
    requires Consumer.Enabled(cfg, s, step)
    ensures Leads(cfg, s, [step], Consumer.Apply(cfg, s, step))
    ensures Mine([step]) == if step.Advance? || step.Append? then [] else [step]
  {
    var next := Consumer.Apply(cfg, s, step);
    assert ([step])[1..] == [];
    assert Consumer.Run(cfg, next, []) && Consumer.Exec(cfg, next, []) == next;
  }

  /** One record, from the fetch to the commit, while relays go on appending. It is a run of the protocol whose own steps are
      the fetch, the acts of the delivery and, unless the process is told to stop meanwhile, one commit, as the statements
      and the commits sent show. The record is then counted exactly once as ok or dead, and as committed exactly when the
      commit succeeded; a failing commit reopens the reader exactly after a handled record. */
  method Deliver(world: World, reader: Reader, store: NotifyStore, dlq: Producer?<DeadRecord>, met: Metrics,
                 cfg: Consumer.Config, p: nat, patience: nat, ghost s: Consumer.State)
    returns (exit: Option<Exit>, reopened: bool, ghost steps: seq<Consumer.Step>, ghost s': Consumer.State, ghost last: Flight,
             ghost log: Log, ghost commits: seq<Commitment>, ghost letters: seq<Attempt<DeadRecord>>, ghost reason: string)
    requires Usable(dlq)
    requires Mirrors(cfg, s, world, reader, store) && s.trip.None? && met.Balanced()
    requires p in reader.topic && p in reader.position && reader.position[p] < |reader.topic[p]|
    modifies world, reader, store, met, if dlq == null then {} else {dlq}
    ensures Usable(dlq)
    ensures Leads(cfg, s, steps, s') && Mirrors(cfg, s', world, reader, store)
    ensures Extends(old(Begun(reader.topic[p][reader.position[p]], store.ledger, store.sent, world.now)), log)
    ensures Current(cfg.settings, log, world, store, last)
    ensures if exit.Some? then last.phase == Leaving(exit.value) && s'.trip.None? && met.Balanced()
            else last.phase.Failing? && Retries(log.acts) == patience
    ensures Written(dlq) == old(Written(dlq)) + letters && Buried(exit, Open(dlq), letters, DeadRecord(reason, log.body))
    ensures reader.commits == old(reader.commits) + commits
    ensures if exit.Some? then |commits| == 1 && commits[0].place == Consumer.Place(p, old(reader.position[p])) else commits == []
    ensures Mine(steps) == [Consumer.Fetch(p)] + HandlesOf(log.acts) + if exit.Some? then [Consumer.Commit(commits[0].call)] else []
    ensures met.fetched == old(met.fetched) + 1
    ensures met.ok == old(met.ok) + (if exit == Some(Handled) then 1 else 0)
    ensures met.dead == old(met.dead) + (if exit == Some(Undecoded) || exit == Some(GivenUp) then 1 else 0)
    ensures met.committed == old(met.committed) + (if exit.Some? && commits[0].call.Succeeded? then 1 else 0)
    ensures reopened <==> exit == Some(Handled) && !commits[0].call.Succeeded?
  {
    var offset;
    exit, offset, steps, s', last, log, letters, reason := FetchAndProcess(world, reader, store, dlq, met, cfg, p, patience, s);
    reopened, steps, s', commits := EndTurn(world, reader, store, met, cfg, p, offset, exit, s, steps, s');
  }

  /** The turn of the loop after the retry loop: the commit, unless the process is told to stop. */
  method EndTurn(world: World, reader: Reader, store: NotifyStore, met: Metrics, cfg: Consumer.Config,
                 p: nat, offset: nat, exit: Option<Exit>, ghost start: Consumer.State, ghost before: seq<Consumer.Step>, ghost s: Consumer.State)
    returns (reopened: bool, ghost steps: seq<Consumer.Step>, ghost s': Consumer.State, ghost commits: seq<Commitment>)
    requires Leads(cfg, start, before, s) && Mirrors(cfg, s, world, reader, store)
    requires s.trip.Some? && s.trip.value.place == Consumer.Place(p, offset)
    requires exit.Some? ==> s.trip.value.flight.phase == Leaving(exit.value)
    requires met.fetched == met.ok + met.dead + 1 && met.committed < met.fetched
    modifies reader, met
    ensures Leads(cfg, start, steps, s') && Mirrors(cfg, s', world, reader, store)
    ensures reader.commits == old(reader.commits) + commits
    ensures if exit.Some? then |commits| == 1 && commits[0].place == Consumer.Place(p, offset) else commits == []
    ensures Mine(steps) == Mine(before) + if exit.Some? then [Consumer.Commit(commits[0].call)] else []
    ensures exit.Some? ==> s'.trip.None? && met.Balanced()
    ensures met.fetched == old(met.fetched)
    ensures met.ok == old(met.ok) + (if exit == Some(Handled) then 1 else 0)
    ensures met.dead == old(met.dead) + (if exit == Some(Undecoded) || exit == Some(GivenUp) then 1 else 0)
    ensures met.committed == old(met.committed) + (if exit.Some? && commits[0].call.Succeeded? then 1 else 0)
    ensures reopened <==> exit == Some(Handled) && !commits[0].call.Succeeded?
  {
    reopened, steps, s', commits := false, before, s, [];
    if exit.Some? {
      ghost var call;
      reopened, call := CommitRecord(world, reader, store, met, cfg, p, offset, exit.value, s);
      commits := [Commitment(Consumer.Place(p, offset), call)];
      s', steps := Close(cfg, start, before, s, Consumer.Commit(call));
    }
  }

  /** The turn of the loop up to the commit. */
  method FetchAndProcess(world: World, reader: Reader, store: NotifyStore, dlq: Producer?<DeadRecord>, met: Metrics,
                         cfg: Consumer.Config, p: nat, patience: nat, ghost s: Consumer.State)
    returns (exit: Option<Exit>, offset: nat, ghost steps: seq<Consumer.Step>, ghost s': Consumer.State, ghost last: Flight, ghost log: Log,
             ghost letters: seq<Attempt<DeadRecord>>, ghost reason: string)
    requires Usable(dlq)
    requires Mirrors(cfg, s, world, reader, store) && s.trip.None?
    requires p in reader.topic && p in reader.position && reader.position[p] < |reader.topic[p]|
    modifies world, reader`topic, reader`position, store, met`fetched, met`errors, if dlq == null then {} else {dlq}
    ensures Usable(dlq)
    ensures Leads(cfg, s, steps, s') && Mirrors(cfg, s', world, reader, store)
    ensures Mine(steps) == [Consumer.Fetch(p)] + HandlesOf(log.acts)
    ensures offset == old(reader.position[p])
    ensures Written(dlq) == old(Written(dlq)) + letters && Buried(exit, Open(dlq), letters, DeadRecord(reason, log.body))
    ensures Extends(old(Begun(reader.topic[p][reader.position[p]], store.ledger, store.sent, world.now)), log)
    ensures Current(cfg.settings, log, world, store, last)
    ensures s'.trip == Base.Some(Consumer.Trip(Consumer.Place(p, offset), last))
    ensures if exit.Some? then last.phase == Leaving(exit.value) else last.phase.Failing? && Retries(log.acts) == patience
    ensures met.fetched == old(met.fetched) + 1
  {
    var value;
    offset, value := reader.FetchMessage(p);
    met.fetched := met.fetched + 1;
    exit, last, log, letters, reason := Process(world, store, dlq, met, cfg.settings, value, patience);
    ghost var handled;
    steps, handled := FetchAndHandle(cfg, s, p, log, store.ledger, store.sent, world.now, last);
    ghost var arrived := reader.Arrive(cfg, handled);
    s' := handled.(topic := reader.topic);
    steps := WithArrivals(cfg, s, steps, handled, arrived, s');
  }

  /** The fetch and the acts of the delivery as steps of the protocol. */
  lemma FetchAndHandle(cfg: Consumer.Config, s: Consumer.State, p: nat, log: Log, ledger: Ledger, sent: seq<Issued>, now: int, last: Flight)
    returns (steps: seq<Consumer.Step>, s': Consumer.State)
    requires Consumer.Enabled(cfg, s, Consumer.Fetch(p))
    requires Tells(cfg.settings, log, ledger, sent, now, last) && log.ledger == s.ledger && log.start == s.now
    requires log.body == s.topic[p][s.position[p]]
    ensures Leads(cfg, s, steps, s') && Mine(steps) == [Consumer.Fetch(p)] + HandlesOf(log.acts)
    ensures s'.now == now && s'.ledger == ledger && s'.topic == s.topic && s'.committed == s.committed
    ensures s'.position == s.position[p := s.position[p] + 1]
    ensures s'.trip == Base.Some(Consumer.Trip(Consumer.Place(p, s.position[p]), last))
  {
    var fetch := Consumer.Fetch(p);
    var fetched := Consumer.Apply(cfg, s, fetch);
    Alone(cfg, s, fetch);
    var rest;
    rest, s' := ActsRun(cfg, fetched, log.acts, log.times, now);
    LeadsOn(cfg, s, [fetch], fetched, rest, s');
    MineConcat([fetch], rest);
    steps := [fetch] + rest;
  }

  lemma WithArrivals(cfg: Consumer.Config, s: Consumer.State, first: seq<Consumer.Step>, mid: Consumer.State, arrived: seq<Consumer.Step>,
                     end: Consumer.State) returns (steps: seq<Consumer.Step>)
    requires Leads(cfg, s, first, mid) && Leads(cfg, mid, arrived, end) && forall i :: 0 <= i < |arrived| ==> arrived[i].Append?
    ensures Leads(cfg, s, steps, end) && Mine(steps) == Mine(first)
  {
    LeadsOn(cfg, s, first, mid, arrived, end);
    MineConcat(first, arrived);
    ArrivalsNotMine(arrived);
    steps := first + arrived;
  }

  lemma Close(cfg: Consumer.Config, s: Consumer.State, steps: seq<Consumer.Step>, mid: Consumer.State, last: Consumer.Step)
    returns (end: Consumer.State, longer: seq<Consumer.Step>)
    requires Leads(cfg, s, steps, mid) && Consumer.Enabled(cfg, mid, last) && last.Commit?
    ensures end == Consumer.Apply(cfg, mid, last) && Leads(cfg, s, longer, end) && Mine(longer) == Mine(steps) + [last]
  {
    end := Consumer.Apply(cfg, mid, last);
    Alone(cfg, mid, last);
    LeadsOn(cfg, s, steps, mid, [last], end);
    MineConcat(steps, [last]);
    longer := steps + [last];
  }

  lemma AfterCommit(cfg: Consumer.Config, s: Consumer.State, call: Call, exit: Exit)
    requires s.trip.Some? && s.trip.value.flight.phase == Leaving(exit)
    ensures Consumer.Enabled(cfg, s, Consumer.Commit(call))
    ensures
      var at := s.trip.value.place;
      var s' := Consumer.Apply(cfg, s, Consumer.Commit(call));
      && s'.trip.None? && s'.now == s.now && s'.ledger == s.ledger && s'.topic == s.topic
      && s'.committed == (if call.Applied() then s.committed[at.partition := at.offset + 1] else s.committed)
      && s'.position == (if !call.Succeeded? && exit.Handled?
                         then map p | p in s.topic :: if p in s'.committed then s'.committed[p] else if cfg.startFirst then 0 else |s.topic[p]|
                         else s.position)
  {
  }

  /** The end of a turn: the offset is committed and the record is counted. Only after a handled record does a failing
      commit reopen the reader. */
  method CommitRecord(world: World, reader: Reader, store: NotifyStore, met: Metrics, cfg: Consumer.Config,
                      p: nat, offset: nat, exit: Exit, ghost s: Consumer.State)
    returns (reopened: bool, ghost call: Call)
    requires Mirrors(cfg, s, world, reader, store)
    requires s.trip.Some? && s.trip.value.place == Consumer.Place(p, offset) && s.trip.value.flight.phase == Leaving(exit)
    requires met.fetched == met.ok + met.dead + 1 && met.committed < met.fetched
    modifies reader, met
    ensures Consumer.Enabled(cfg, s, Consumer.Commit(call))
    ensures Mirrors(cfg, Consumer.Apply(cfg, s, Consumer.Commit(call)), world, reader, store)
    ensures Consumer.Apply(cfg, s, Consumer.Commit(call)).trip.None?
    ensures reader.commits == old(reader.commits) + [Commitment(Consumer.Place(p, offset), call)]
    ensures met.Balanced() && met.fetched == old(met.fetched)
    ensures met.committed == old(met.committed) + (if call.Succeeded? then 1 else 0)
    ensures met.ok == old(met.ok) + (if exit.Handled? then 1 else 0)
    ensures met.dead == old(met.dead) + (if exit.Handled? then 0 else 1)
    ensures reopened <==> exit.Handled? && !call.Succeeded?
  {
    reopened := false;
    var reply := world.Query();
    AfterCommit(cfg, s, reply, exit);
    var ok := reader.CommitMessages(p, offset, reply);
    if ok {
      met.committed := met.committed + 1;
    } else if exit.Handled? {
      reader.Reopen();
      reopened := true;
    }
    if exit.Handled? {
      met.ok := met.ok + 1;
    } else {
      met.dead := met.dead + 1;
    }
    call := reply;
  }
}
