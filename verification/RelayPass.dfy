/** What one pass of a relay is: a run of the protocol in which the other processes go on working, with what the relay itself
    does in it spelled out. */
module RelayPass {
  import opened Base
  import opened Outbox
  import opened Events
  import opened Kafka
  import opened Relays
  import opened RelayCounting

  datatype DeadLetter = DeadLetter(key: string, error: string, envelope: Envelope)

  // Whose step it is.

  predicate Own(r: nat, step: Step) {
    !step.Advance? && !step.Create? && !step.Land? && step.r == r
  }

  predicate Foreign(r: nat, steps: seq<Step>) {
    forall i :: 0 <= i < |steps| ==> !Own(r, steps[i])
  }

  /** The steps of relay r, in order. */
  ghost function Mine(r: nat, steps: seq<Step>): seq<Step> {
    if steps == [] then []
    else Mine(r, steps[..|steps| - 1]) + if Own(r, steps[|steps| - 1]) then [steps[|steps| - 1]] else []
  }

  lemma {:induction false} MineConcat(r: nat, first: seq<Step>, second: seq<Step>)
    ensures Mine(r, first + second) == Mine(r, first) + Mine(r, second)
    decreases |second|
  {
    var n := |second| - 1;
    if second == [] {
      assert first + second == first;
    } else {
      assert (first + second)[..|first + second| - 1] == first + second[..n];
      MineConcat(r, first, second[..n]);
    }
  }

  lemma {:induction false} ForeignMine(r: nat, steps: seq<Step>)
    requires Foreign(r, steps)
    ensures Mine(r, steps) == []
  {
    if steps != [] {
      ForeignMine(r, steps[..|steps| - 1]);
    }
  }

  ghost predicate Leads(cfg: Config, s: State, steps: seq<Step>, s': State) {
    Run(cfg, s, steps) && Exec(cfg, s, steps) == s'
  }

  lemma LeadsOn(cfg: Config, r: nat, s: State, first: seq<Step>, mid: State, second: seq<Step>, end: State)
    requires Leads(cfg, s, first, mid) && Leads(cfg, mid, second, end)
    ensures Leads(cfg, s, first + second, end)
    ensures Mine(r, first + second) == Mine(r, first) + Mine(r, second)
  {
    RunConcat(cfg, s, first, second);
    MineConcat(r, first, second);
  }

  lemma LeadsByOne(cfg: Config, r: nat, s: State, step: Step)
    requires Enabled(cfg, s, step)
    ensures Leads(cfg, s, [step], Apply(cfg, s, step))
    ensures Mine(r, [step]) == if Own(r, step) then [step] else []
  {
    var next := Apply(cfg, s, step);
    assert ([step])[1..] == [] && ([step])[..0] == [];
    assert Run(cfg, next, []) && Exec(cfg, next, []) == next;
  }

  lemma LeadsThen(cfg: Config, r: nat, s: State, first: seq<Step>, mid: State, step: Step) returns (steps: seq<Step>)
    requires Leads(cfg, s, first, mid) && Enabled(cfg, mid, step)
    ensures Leads(cfg, s, steps, Apply(cfg, mid, step))
    ensures Mine(r, steps) == Mine(r, first) + if Own(r, step) then [step] else []
  {
    LeadsByOne(cfg, r, mid, step);
    LeadsOn(cfg, r, s, first, mid, [step], Apply(cfg, mid, step));
    steps := first + [step];
  }

  /** What the steps of others leave alone. */
  ghost predicate Kept(s: State, s': State, r: nat) {
    && r in s.relays && r in s'.relays && s'.relays[r] == s.relays[r]
    && Grows(s.rows, s'.rows) && s.now <= s'.now
    && WellFormed(s')
  }

  lemma ForeignStep(cfg: Config, s: State, r: nat, step: Step)
    requires WellFormed(s) && r in s.relays && Enabled(cfg, s, step) && !Own(r, step)
    ensures Kept(s, Apply(cfg, s, step), r)
  {
    WellFormedStep(cfg, s, step);
    GrowsStep(cfg, s, step);
  }

  lemma KeptOn(s: State, mid: State, end: State, r: nat)
    requires Kept(s, mid, r) && Kept(mid, end, r)
    ensures Kept(s, end, r)
  {
  }

  lemma {:induction false} ForeignKeeps(cfg: Config, s: State, r: nat, steps: seq<Step>)
    requires WellFormed(s) && r in s.relays && Run(cfg, s, steps) && Foreign(r, steps)
    ensures Kept(s, Exec(cfg, s, steps), r)
    decreases |steps|
  {
    if steps != [] {
      ForeignStep(cfg, s, r, steps[0]);
      ForeignKeeps(cfg, Apply(cfg, s, steps[0]), r, steps[1..]);
      KeptOn(s, Apply(cfg, s, steps[0]), Exec(cfg, s, steps), r);
    }
  }

  // One turn of the loop over the claimed batch.

  /** What does not change during a pass: the settings, which rows cannot be encoded, and whether the producers for the topic
      and for dead letters are there and open. */
  datatype Setting = Setting(cfg: Config, encode: Fields -> Option<string>, open: bool, letterbox: bool)

  /** Relay r is at work on this event, the first of its batch. */
  ghost predicate Facing(s: State, r: nat, e: Event, phase: Phase) {
    && WellFormed(s) && Busy(s, r) && s.relays[r].phase == phase && s.relays[r].since <= s.now
    && s.relays[r].batch[0] == Lease(e.id, e.attempts)
    && e.id in s.rows && s.rows[e.id].fields == e.fields
  }

  /** A turn for an event: where its run starts and ends, the writes to the topic, those of the dead letter, and the statement
      that ends it. `at` is the relay's look at the clock for the retry time. */
  datatype Account = Account(
    event: Event, start: State, steps: seq<Step>, end: State,
    writes: seq<Attempt<Message>>, letters: seq<Attempt<DeadLetter>>, at: int, mark: Request)

  predicate GotThrough(writes: seq<Attempt<Message>>) {
    writes != [] && writes[|writes| - 1].error.None?
  }

  /** The error text the relay stores and puts into a dead letter. */
  function Reason(unmarshaled: Option<string>, writes: seq<Attempt<Message>>): string {
    if GotThrough(writes) then ""
    else if unmarshaled.Some? then "marshal: " + unmarshaled.value
    else "kafka: " + if writes == [] then "context canceled" else writes[|writes| - 1].error.value
  }

  ghost function Publishing(r: nat, writes: seq<Attempt<Message>>): seq<Step> {
    if writes == [] then [Refuse(r)]
    else seq(|writes|, i requires 0 <= i < |writes| => Write(r, writes[i].appended, writes[i].error.None?, writes[i].Heals()))
  }

  ghost function MarkOf(cfg: Config, e: Event, acked: bool, at: int, reason: string): Statement {
    if acked then ToSent(e.id)
    else if GivesUp(cfg, e.attempts) then ToFailed(e.id, reason)
    else ToPending(e.id, at + Backoff(e.attempts), reason)
  }

  /** A turn of relay r: it is a run; the relay's own steps in it are the writes of one call of Produce, or a refusal if there
      was nothing to send it with, and then exactly one mark, of the kind the publishing calls for; a dead letter is tried
      exactly when the row is given up and there is a way to send one. */
  ghost predicate Handled(x: Setting, r: nat, a: Account) {
    var e := a.event;
    var unmarshaled := x.encode(e.fields);
    var reason := Reason(unmarshaled, a.writes);
    var dead := !GotThrough(a.writes) && GivesUp(x.cfg, e.attempts);
    && Leads(x.cfg, a.start, a.steps, a.end)
    && Tried(a.writes, x.open && unmarshaled.None?, MessageOf(e.fields))
    && Mine(r, a.steps) == Publishing(r, a.writes) + [Mark(r, a.mark.call.Applied(), a.at, reason)]
    && a.mark.statement == MarkOf(x.cfg, e, GotThrough(a.writes), a.at, reason)
    && a.mark.at == a.end.now
    && Tried(a.letters, dead && x.letterbox && unmarshaled.None?,
             DeadLetter(MessageOf(e.fields).key, reason, MessageOf(e.fields).envelope))
  }

  /** What a turn shows to the database and the topics, said of the row's columns and the settings. */
  ghost predicate Shows(x: Setting, a: Account) {
    var e, f := a.event, a.event.fields;
    var broken := x.encode(f);
    var acked := a.writes != [] && a.writes[|a.writes| - 1].error.None?;
    var givenUp := x.cfg.maxAttempts > 0 && e.attempts >= x.cfg.maxAttempts;
    var reason :=
      if broken.Some? then "marshal: " + broken.value
      else if a.writes == [] then "kafka: context canceled"
      else "kafka: " + a.writes[|a.writes| - 1].error.GetOr("");
    && OneOrTwo(a.writes, x.open && broken.None?)
    && (forall i :: 0 <= i < |a.writes| ==> Repeats(a.writes[i].message, f))
    && a.mark.statement == (if acked then ToSent(e.id)
                            else if givenUp then ToFailed(e.id, reason)
                            else ToPending(e.id, a.at + RetryDelay(e.attempts), reason))
    && OneOrTwo(a.letters, !acked && givenUp && x.letterbox && broken.None?)
    && (forall i :: 0 <= i < |a.letters| ==>
          && a.letters[i].message.error == reason
          && Repeats(Message(a.letters[i].message.key, a.letters[i].message.envelope), f))
  }

  /** Writes that are made at all are two exactly when the first ends in an error that mentions a stale connection. */
  ghost predicate OneOrTwo<M>(writes: seq<Attempt<M>>, made: bool) {
    if made then 1 <= |writes| <= 2 && (|writes| == 2 <==> writes[0].error.Some? && Stale(writes[0].error.value)) else writes == []
  }

  lemma TriedExactly<M>(writes: seq<Attempt<M>>, made: bool, message: M)
    requires Tried(writes, made, message)
    ensures OneOrTwo(writes, made)
  {
    if made && writes[0].error.Some? {
      ShouldResetExactly(writes[0].error.value);
    }
  }

  lemma HandledShows(x: Setting, r: nat, a: Account)
    requires Handled(x, r, a)
    ensures Shows(x, a)
  {
    var e := a.event;
    var unmarshaled := x.encode(e.fields);
    var reason := Reason(unmarshaled, a.writes);
    TriedExactly(a.writes, x.open && unmarshaled.None?, MessageOf(e.fields));
    TriedExactly(a.letters, !GotThrough(a.writes) && GivesUp(x.cfg, e.attempts) && x.letterbox && unmarshaled.None?,
                 DeadLetter(MessageOf(e.fields).key, reason, MessageOf(e.fields).envelope));
    BackoffExactly(e.attempts);
  }

  // The whole loop.

  /** Relay r holds exactly the leases of these events. */
  ghost predicate Batch(s: State, r: nat, events: seq<Event>) {
    && WellFormed(s) && r in s.relays && s.relays[r].phase.Unsent? && s.relays[r].since <= s.now
    && |s.relays[r].batch| == |events|
    && forall i :: 0 <= i < |events| ==>
         && s.relays[r].batch[i] == Lease(events[i].id, events[i].attempts)
         && events[i].id in s.rows && s.rows[events[i].id].fields == events[i].fields
  }

  ghost function Steps(turns: seq<Account>): seq<Step> {
    if turns == [] then [] else Steps(turns[..|turns| - 1]) + turns[|turns| - 1].steps
  }

  ghost function EndOf(s: State, turns: seq<Account>): State {
    if turns == [] then s else turns[|turns| - 1].end
  }

  /** Turns that follow each other, the first of them from state s. */
  ghost predicate Handles(x: Setting, s: State, r: nat, turns: seq<Account>) {
    turns == [] || (
      && Handles(x, s, r, turns[..|turns| - 1])
      && turns[|turns| - 1].start == EndOf(s, turns[..|turns| - 1])
      && Handled(x, r, turns[|turns| - 1]))
  }

  lemma {:induction false} HandlesLeads(x: Setting, s: State, r: nat, turns: seq<Account>)
    requires Handles(x, s, r, turns)
    ensures Leads(x.cfg, s, Steps(turns), EndOf(s, turns))
    decreases |turns|
  {
    if turns != [] {
      var n := |turns| - 1;
      HandlesLeads(x, s, r, turns[..n]);
      LeadsOn(x.cfg, r, s, Steps(turns[..n]), turns[n].start, turns[n].steps, turns[n].end);
    }
  }

  lemma {:induction false} HandlesShows(x: Setting, s: State, r: nat, turns: seq<Account>, i: nat)
    requires Handles(x, s, r, turns) && i < |turns|
    ensures Shows(x, turns[i])
    decreases |turns|
  {
    var n := |turns| - 1;
    if i == n {
      HandledShows(x, r, turns[n]);
    } else {
      HandlesShows(x, s, r, turns[..n], i);
      assert turns[..n][i] == turns[i];
    }
  }

  ghost function EventsOf(turns: seq<Account>): seq<Event> {
    if turns == [] then [] else EventsOf(turns[..|turns| - 1]) + [turns[|turns| - 1].event]
  }

  // The start of a pass.

  /** One reset is asked for and, if that succeeds, one claim. */
  ghost predicate Asked(cfg: Config, opening: seq<Request>, ok: bool) {
    && 1 <= |opening| <= 2
    && opening[0].statement == ToReset(if cfg.processingTimeout > 0 then cfg.processingTimeout else 30_000_000)
    && (|opening| == 2 <==> opening[0].call.Succeeded?)
    && (|opening| == 2 ==> opening[1].statement == ToClaim(if cfg.batchSize > 0 then cfg.batchSize else 50))
    && (ok <==> |opening| == 2 && opening[1].call.Succeeded?)
  }

  /** The relay's own steps at the start of a pass: the reset and the claim, as far as they took effect. A batch is forgotten
      only if the answer to the claim is lost. */
  ghost function OpeningSteps(r: nat, opening: seq<Request>, ids: seq<nat>, locked: set<nat>): seq<Step> {
    (if |opening| >= 1 && opening[0].call.Applied() then [Reset(r)] else [])
    + (if |opening| >= 2 && opening[1].call.Applied() then [Claim(r, ids, locked)] else [])
    + (if |opening| >= 2 && opening[1].call.FailedAfter? then [Crash(r)] else [])
  }

  /** `ids` are the rows the claim took, if it took effect. Afterwards the relay holds exactly the leases of the events claimed,
      or nothing if there was an error. */
  ghost predicate Opened(cfg: Config, s: State, r: nat, locked: set<nat>, start: seq<Step>, opening: seq<Request>,
                         ids: seq<nat>, ok: bool, claimed: seq<Event>) {
    && Asked(cfg, opening, ok)
    && Run(cfg, s, start)
    && Mine(r, start) == OpeningSteps(r, opening, ids, locked)
    && (if ok then Batch(Exec(cfg, s, start), r, claimed) else claimed == [] && Idle(Exec(cfg, s, start), r))
  }

  // What a pass leaves behind.

  /** The counters of internal/outbox/metrics.go. */
  datatype Counter = PublishedTotal | FailedTotal | DeadTotal

  /** How the mark of a turn is counted; whether it takes effect does not matter. */
  function CounterOf(statement: Statement): Counter {
    if statement.ToSent? then PublishedTotal else if statement.ToFailed? then DeadTotal else FailedTotal
  }

  /** Counters per event type. */
  datatype Totals = Totals(published: map<string, nat>, failed: map<string, nat>, dead: map<string, nat>) {
    function Inc(counter: Counter, eventType: string): Totals {
      match counter
      case PublishedTotal => this.(published := Bump(published, eventType))
      case FailedTotal => this.(failed := Bump(failed, eventType))
      case DeadTotal => this.(dead := Bump(dead, eventType))
    }
  }

  function Count(counters: map<string, nat>, key: string): nat {
    if key in counters then counters[key] else 0
  }

  function Bump(counters: map<string, nat>, key: string): map<string, nat> {
    counters[key := Count(counters, key) + 1]
  }

  /** All that was ever sent to the database and to the two topics, and the counters. */
  datatype Books = Books(sent: seq<Request>, writes: seq<Attempt<Message>>, letters: seq<Attempt<DeadLetter>>, totals: Totals)

  ghost function Entered(b: Books, a: Account): Books {
    Books(b.sent + [a.mark], b.writes + a.writes, b.letters + a.letters,
          b.totals.Inc(CounterOf(a.mark.statement), a.event.fields.eventType))
  }

  ghost function AllEntered(b: Books, turns: seq<Account>): Books {
    if turns == [] then b else Entered(AllEntered(b, turns[..|turns| - 1]), turns[|turns| - 1])
  }

  /** These turns lead from the one state to the other and from the one account to the other. */
  ghost predicate Amounts(x: Setting, s: State, r: nat, turns: seq<Account>, s': State, b: Books, b': Books) {
    Handles(x, s, r, turns) && s' == EndOf(s, turns) && b' == AllEntered(b, turns)
  }

  lemma AmountsSnoc(x: Setting, s: State, r: nat, turns: seq<Account>, s': State, b: Books, b': Books, a: Account)
    requires Amounts(x, s, r, turns, s', b, b') && a.start == s' && Handled(x, r, a)
    ensures Amounts(x, s, r, turns + [a], a.end, b, Entered(b', a))
    ensures EventsOf(turns + [a]) == EventsOf(turns) + [a.event]
  {
    assert (turns + [a])[..|turns|] == turns;
  }

  ghost function OfType(events: seq<Event>, eventType: string): nat {
    if events == [] then 0
    else OfType(events[..|events| - 1], eventType) + if events[|events| - 1].fields.eventType == eventType then 1 else 0
  }

  ghost function Settled(totals: Totals, eventType: string): nat {
    Count(totals.published, eventType) + Count(totals.failed, eventType) + Count(totals.dead, eventType)
  }

  lemma IncCounts(totals: Totals, counter: Counter, eventType: string, t: string)
    ensures Settled(totals.Inc(counter, eventType), t) == Settled(totals, t) + if eventType == t then 1 else 0
  {
  }

  /** What a counter counts: turns that ended in a mark of its kind. */
  ghost predicate CountedAs(counter: Counter, mark: Statement) {
    match counter
    case PublishedTotal => mark.ToSent?
    case FailedTotal => mark.ToPending?
    case DeadTotal => mark.ToFailed?
  }

  ghost function Tally(turns: seq<Account>, counter: Counter, eventType: string): nat {
    if turns == [] then 0
    else
      var a := turns[|turns| - 1];
      Tally(turns[..|turns| - 1], counter, eventType)
        + if a.event.fields.eventType == eventType && CountedAs(counter, a.mark.statement) then 1 else 0
  }

  ghost function OneMoreOf(counters: map<string, nat>, key: string): map<string, nat> {
    counters[key := 1 + if key in counters then counters[key] else 0]
  }

  /** A turn raises the counter of its mark's kind for its row's event type, and no other. */
  lemma EnteredExactly(x: Setting, b: Books, a: Account)
    requires Shows(x, a)
    ensures
      var before, after, t := b.totals, Entered(b, a).totals, a.event.fields.eventType;
      && after.published == (if a.mark.statement.ToSent? then OneMoreOf(before.published, t) else before.published)
      && after.failed == (if a.mark.statement.ToPending? then OneMoreOf(before.failed, t) else before.failed)
      && after.dead == (if a.mark.statement.ToFailed? then OneMoreOf(before.dead, t) else before.dead)
  {
  }

  /** Each counter has risen by the turns it counts. */
  ghost predicate Tallied(before: Totals, after: Totals, turns: seq<Account>, eventType: string) {
    && Count(after.published, eventType) == Count(before.published, eventType) + Tally(turns, PublishedTotal, eventType)
    && Count(after.failed, eventType) == Count(before.failed, eventType) + Tally(turns, FailedTotal, eventType)
    && Count(after.dead, eventType) == Count(before.dead, eventType) + Tally(turns, DeadTotal, eventType)
  }

  lemma {:induction false} TallyExactly(x: Setting, b: Books, turns: seq<Account>, eventType: string)
    requires forall i :: 0 <= i < |turns| ==> Shows(x, turns[i])
    ensures Tallied(b.totals, AllEntered(b, turns).totals, turns, eventType)
    decreases |turns|
  {
    if turns != [] {
      var past, a := turns[..|turns| - 1], turns[|turns| - 1];
      TallyExactly(x, b, past, eventType);
      EnteredExactly(x, AllEntered(b, past), a);
      TallyNext(b.totals, AllEntered(b, past).totals, AllEntered(b, turns).totals, past, a, eventType);
      assert turns == past + [a];
    }
  }

  lemma TallyNext(before: Totals, mid: Totals, after: Totals, turns: seq<Account>, a: Account, eventType: string)
    requires Tallied(before, mid, turns, eventType)
    requires !a.mark.statement.ToReset? && !a.mark.statement.ToClaim?
    requires
      var t := a.event.fields.eventType;
      && after.published == (if a.mark.statement.ToSent? then OneMoreOf(mid.published, t) else mid.published)
      && after.failed == (if a.mark.statement.ToPending? then OneMoreOf(mid.failed, t) else mid.failed)
      && after.dead == (if a.mark.statement.ToFailed? then OneMoreOf(mid.dead, t) else mid.dead)
    ensures Tallied(before, after, turns + [a], eventType)
  {
    assert (turns + [a])[..|turns|] == turns;
  }

  /** Every row handled is counted exactly once. */
  lemma {:induction false} Conserved(b: Books, turns: seq<Account>, eventType: string)
    ensures Settled(AllEntered(b, turns).totals, eventType) == Settled(b.totals, eventType) + OfType(EventsOf(turns), eventType)
  {
    if turns != [] {
      var past, a := turns[..|turns| - 1], turns[|turns| - 1];
      Conserved(b, past, eventType);
      IncCounts(AllEntered(b, past).totals, CounterOf(a.mark.statement), a.event.fields.eventType, eventType);
      assert EventsOf(turns)[..|EventsOf(turns)| - 1] == EventsOf(past);
    }
  }
}
