/** Any number of consumers handling records at the same time against one processed_events table. */
module ManyConsumers {
  import opened Base
  import opened ProcessedEvents
  import opened Handling

  /** What has happened to an event: the deliveries of records that carry it, those of them that were told an attempt number
      of at least maxAttempts, the attempts counted by calls that returned an error, the attempt numbers under which the
      notification went out, and how often it went out. */
  datatype Book = Book(delivered: set<nat>, spent: set<nat>, lost: nat, numbers: set<nat>, notified: nat)

  datatype State = State(now: int, ledger: Ledger, flights: map<nat, Flight>, used: set<nat>, books: map<string, Book>)

  datatype Step =
    | Advance(t: int)
    | Deliver(d: nat, body: Body)
    | Do(d: nat, act: Act)
    | Drop(d: nat)

  function BookOf(books: map<string, Book>, eventId: string): Book {
    if eventId in books then books[eventId] else Book({}, {}, 0, {}, 0)
  }

  ghost predicate Enabled(settings: Settings, s: State, step: Step) {
    match step
    case Advance(t) => s.now <= t
    case Deliver(d, _) => d !in s.used
    case Do(d, act) => d in s.flights && Can(settings, s.flights[d], act)
    case Drop(d) => d in s.flights
  }

  ghost function Apply(settings: Settings, s: State, step: Step): State {
    match step
    case Advance(t) => s.(now := t)
    case Deliver(d, body) =>
      s.(flights := s.flights[d := Takeoff(body)],
         used := s.used + {d},
         books := if body.Undecodable? then s.books
                  else
                    var b := BookOf(s.books, body.envelope.eventId);
                    s.books[body.envelope.eventId := b.(delivered := b.delivered + {d})])
    case Do(d, act) => if d in s.flights then ApplyDo(settings, s, d, act) else s
    case Drop(d) => s.(flights := s.flights - {d})
  }

  ghost function ApplyDo(settings: Settings, s: State, d: nat, act: Act): State
    requires d in s.flights
  {
    var f := s.flights[d];
    var f' := Onward(s.ledger, f, act, s.now);
    s.(ledger := Effect(s.ledger, f, act, s.now),
       flights := s.flights[d := f'],
       books := if f.body.Undecodable? || !act.Start? then s.books
                else
                  var e := f.body.envelope.eventId;
                  s.books[e := Entry(settings, s.ledger, BookOf(s.books, e), d, act, e, f, f')])
  }

  ghost function Entry(settings: Settings, ledger: Ledger, b: Book, d: nat, act: Act, eventId: string, f: Flight, f': Flight): Book {
    b.(spent := if Notifies(f, f') && settings.GivesUp(f'.attempt) then b.spent + {d} else b.spent,
       lost := if act.Start? && act.call.FailedAfter? && !Settles(ledger, eventId) then b.lost + 1 else b.lost,
       numbers := if Notifies(f, f') then b.numbers + {f'.attempt} else b.numbers,
       notified := if Notifies(f, f') then b.notified + 1 else b.notified)
  }

  ghost predicate BookOk(settings: Settings, attempts: nat, b: Book) {
    && attempts <= settings.maxAttempts - 1 + |b.spent| + b.lost
    && b.spent <= b.delivered
    && (forall k :: k in b.numbers ==> 1 <= k <= attempts)
    && b.notified == |b.numbers|
  }

  /** A delivery in the air was counted, and it may call StartProcessing again only if it has not been told to stop. */
  ghost predicate FlightOk(settings: Settings, s: State, d: nat, f: Flight) {
    && d in s.used
    && (f.body.Decoded? ==> d in BookOf(s.books, f.body.envelope.eventId).delivered)
    && (f.phase.Ready? ==> !settings.GivesUp(f.attempt))
    && (f.body.Decoded? && !settings.GivesUp(f.attempt) && !f.phase.Leaving? ==> d !in BookOf(s.books, f.body.envelope.eventId).spent)
  }

  ghost predicate Inv(settings: Settings, s: State) {
    && (forall e: string :: BookOk(settings, AttemptsSoFar(s.ledger, e), BookOf(s.books, e)))
    && (forall d :: d in s.flights ==> FlightOk(settings, s, d, s.flights[d]))
    && (forall e: string, d :: d in BookOf(s.books, e).delivered ==> d in s.used)
  }

  lemma BooksStep(settings: Settings, s: State, step: Step, e: string)
    requires settings.maxAttempts > 0 && Inv(settings, s) && Enabled(settings, s, step)
    ensures BookOk(settings, AttemptsSoFar(Apply(settings, s, step).ledger, e), BookOf(Apply(settings, s, step).books, e))
  {
    assert BookOk(settings, AttemptsSoFar(s.ledger, e), BookOf(s.books, e));
    if step.Do? {
      assert FlightOk(settings, s, step.d, s.flights[step.d]);
      BooksDo(settings, s, step.d, step.act, e);
    }
  }

  lemma BooksDo(settings: Settings, s: State, d: nat, act: Act, e: string)
    requires settings.maxAttempts > 0 && d in s.flights && Can(settings, s.flights[d], act)
    requires FlightOk(settings, s, d, s.flights[d])
    requires BookOk(settings, AttemptsSoFar(s.ledger, e), BookOf(s.books, e))
    ensures
      var s' := ApplyDo(settings, s, d, act);
      BookOk(settings, AttemptsSoFar(s'.ledger, e), BookOf(s'.books, e))
  {
    var f := s.flights[d];
    if f.body.Decoded? && f.body.envelope.eventId == e && act.Start? {
      StartBooks(settings, s, d, act, e);
    }
  }

  /** A call of StartProcessing for this event. */
  lemma StartBooks(settings: Settings, s: State, d: nat, act: Act, e: string)
    requires settings.maxAttempts > 0 && d in s.flights && Can(settings, s.flights[d], act) && act.Start?
    requires s.flights[d].body.Decoded? && s.flights[d].body.envelope.eventId == e
    requires FlightOk(settings, s, d, s.flights[d])
    requires BookOk(settings, AttemptsSoFar(s.ledger, e), BookOf(s.books, e))
    ensures
      var s' := ApplyDo(settings, s, d, act);
      BookOk(settings, AttemptsSoFar(s'.ledger, e), BookOf(s'.books, e))
  {
    StartEntry(settings, s.ledger, BookOf(s.books, e), d, s.flights[d], act, s.now);
  }

  lemma StartEntry(settings: Settings, ledger: Ledger, b: Book, d: nat, f: Flight, act: Act, now: int)
    requires settings.maxAttempts > 0 && act.Start? && f.body.Decoded? && f.phase.Ready?
    requires BookOk(settings, AttemptsSoFar(ledger, f.body.envelope.eventId), b)
    requires d in b.delivered && d !in b.spent
    ensures
      var e := f.body.envelope.eventId;
      BookOk(settings, AttemptsSoFar(Effect(ledger, f, act, now), e), Entry(settings, ledger, b, d, act, e, f, Onward(ledger, f, act, now)))
  {
    var e := f.body.envelope.eventId;
    var attempts, attempts' := AttemptsSoFar(ledger, e), AttemptsSoFar(Effect(ledger, f, act, now), e);
    if act.call.Succeeded? && !Settles(ledger, e) {
      NotifyEntry(settings, attempts, b, d);
    } else {
      QuietEntry(settings, attempts, b, attempts' - attempts);
    }
  }

  /** The book after a call of StartProcessing that does not notify, but may count attempts in spite of its error. */
  lemma QuietEntry(settings: Settings, attempts: nat, b: Book, more: nat)
    requires BookOk(settings, attempts, b)
    ensures BookOk(settings, attempts + more, b.(lost := b.lost + more))
  {
  }

  /** The book after one more attempt that notifies. */
  lemma NotifyEntry(settings: Settings, attempts: nat, b: Book, d: nat)
    requires settings.maxAttempts > 0 && BookOk(settings, attempts, b) && d in b.delivered && d !in b.spent
    ensures
      var spent := if settings.GivesUp(attempts + 1) then b.spent + {d} else b.spent;
      BookOk(settings, attempts + 1, b.(spent := spent, numbers := b.numbers + {attempts + 1}, notified := b.notified + 1))
  {
    assert attempts + 1 !in b.numbers;
  }

  /** A step of delivery d can only write d into the books. */
  lemma BooksGrow(settings: Settings, s: State, step: Step, e: string)
    requires Enabled(settings, s, step)
    ensures
      var b, b' := BookOf(s.books, e), BookOf(Apply(settings, s, step).books, e);
      && (b'.delivered == b.delivered || (step.Deliver? && b'.delivered == b.delivered + {step.d}))
      && (b'.spent == b.spent || (step.Do? && b'.spent == b.spent + {step.d}))
  {
  }

  lemma FlightsStep(settings: Settings, s: State, step: Step, d: nat)
    requires settings.maxAttempts > 0 && Inv(settings, s) && Enabled(settings, s, step)
    requires d in Apply(settings, s, step).flights
    ensures FlightOk(settings, Apply(settings, s, step), d, Apply(settings, s, step).flights[d])
  {
    if step.Do? && step.d == d {
      OwnFlight(settings, s, d, step.act);
    } else if step.Deliver? && step.d == d {
      if step.body.Decoded? {
        var e := step.body.envelope.eventId;
        assert BookOk(settings, AttemptsSoFar(s.ledger, e), BookOf(s.books, e));
      }
    } else {
      var f := s.flights[d];
      assert FlightOk(settings, s, d, f);
      if f.body.Decoded? {
        BooksGrow(settings, s, step, f.body.envelope.eventId);
      }
    }
  }

  lemma OwnFlight(settings: Settings, s: State, d: nat, act: Act)
    requires d in s.flights && FlightOk(settings, s, d, s.flights[d]) && Can(settings, s.flights[d], act)
    ensures FlightOk(settings, ApplyDo(settings, s, d, act), d, ApplyDo(settings, s, d, act).flights[d])
  {
    var s' := ApplyDo(settings, s, d, act);
    var f := s.flights[d];
    if f.body.Decoded? && act.Start? {
      var e := f.body.envelope.eventId;
      assert BookOf(s'.books, e) == Entry(settings, s.ledger, BookOf(s.books, e), d, act, e, f, s'.flights[d]);
    }
  }

  lemma InvStep(settings: Settings, s: State, step: Step)
    requires settings.maxAttempts > 0 && Inv(settings, s) && Enabled(settings, s, step)
    ensures Inv(settings, Apply(settings, s, step))
  {
    var s' := Apply(settings, s, step);
    forall e: string
      ensures BookOk(settings, AttemptsSoFar(s'.ledger, e), BookOf(s'.books, e))
    {
      BooksStep(settings, s, step, e);
    }
    forall d | d in s'.flights
      ensures FlightOk(settings, s', d, s'.flights[d])
    {
      FlightsStep(settings, s, step, d);
    }
    forall e: string, d | d in BookOf(s'.books, e).delivered
      ensures d in s'.used
    {
      BooksGrow(settings, s, step, e);
    }
  }

  ghost predicate Run(settings: Settings, s: State, steps: seq<Step>)
    decreases |steps|
  {
    steps == [] || (Enabled(settings, s, steps[0]) && Run(settings, Apply(settings, s, steps[0]), steps[1..]))
  }

  ghost function Exec(settings: Settings, s: State, steps: seq<Step>): State
    decreases |steps|
  {
    if steps == [] then s else Exec(settings, Apply(settings, s, steps[0]), steps[1..])
  }

  lemma {:induction false} InvRun(settings: Settings, s: State, steps: seq<Step>)
    requires settings.maxAttempts > 0 && Inv(settings, s) && Run(settings, s, steps)
    ensures Inv(settings, Exec(settings, s, steps))
    decreases |steps|
  {
    if steps != [] {
      InvStep(settings, s, steps[0]);
      InvRun(settings, Apply(settings, s, steps[0]), steps[1..]);
    }
  }

  const START := State(0, map[], map[], {}, map[])

  /** For any number of consumers, redeliveries and crashes: the attempts of an event exceed maxAttempts - 1 by at most the
      number of its deliveries, plus the attempts counted by calls that reported an error; each notification goes out
      under an attempt number of its own, so there are at most as many notifications as attempts. */
  lemma AttemptsBound(settings: Settings, steps: seq<Step>, eventId: string)
    requires settings.maxAttempts > 0 && Run(settings, START, steps)
    ensures
      var end := Exec(settings, START, steps);
      var attempts, b := AttemptsSoFar(end.ledger, eventId), BookOf(end.books, eventId);
      && attempts <= settings.maxAttempts - 1 + |b.delivered| + b.lost
      && b.notified == |b.numbers| <= attempts
  {
    InvRun(settings, START, steps);
    var end := Exec(settings, START, steps);
    var attempts, b := AttemptsSoFar(end.ledger, eventId), BookOf(end.books, eventId);
    assert BookOk(settings, attempts, b);
    SubsetCardinality(b.spent, b.delivered);
    BoundedCardinality(b.numbers, 1, attempts + 1);
  }

  lemma {:induction false} SubsetCardinality(a: set<nat>, b: set<nat>)
    requires a <= b
    ensures |a| <= |b|
    decreases |a|
  {
    if a != {} {
      var x :| x in a;
      SubsetCardinality(a - {x}, b - {x});
    }
  }
}
