/** One delivery of one Kafka record: handleMessage and the retry loop of cmd/notification-service/main.go:215-330,
    cut at every database statement. */
module Handling {
  import opened Base
  import opened Text
  import opened Events
  import opened ProcessedEvents

  datatype Settings = Settings(maxAttempts: int, forceFail: bool, forceFailEventType: string) {
    predicate Forces(eventType: string) {
      var want := TrimSpace(forceFailEventType);
      forceFail && (want == "" || EqualFold(want, TrimSpace(eventType)))
    }

    predicate GivesUp(attempt: nat) {
      maxAttempts > 0 && attempt >= maxAttempts
    }
  }

  /** The setting is on, and it names no type, or this one: letter by letter, up to case and surrounding white space. */
  ghost predicate Forced(settings: Settings, eventType: string) {
    && settings.forceFail
    && (AllWhite(settings.forceFailEventType) || SameWord(settings.forceFailEventType, eventType))
  }

  lemma ForcesExactly(settings: Settings, eventType: string)
    ensures settings.Forces(eventType) <==> Forced(settings, eventType)
  {
    TrimsToNothing(settings.forceFailEventType);
    SameWordExactly(settings.forceFailEventType, eventType);
  }

  datatype Body = Undecodable | Decoded(envelope: Envelope)

  /** How a delivery ends: handled (or skipped as already settled), undecodable, or given up after maxAttempts. */
  datatype Exit = Handled | Undecoded | GivenUp

  /** Ready: handleMessage is about to be called. Executing: StartProcessing said to process and the notification is out.
      Erred: MarkDone returned an error. Failing: handleMessage has returned an error. */
  datatype Phase = Ready | Executing | Erred | Failing | Leaving(exit: Exit)

  /** `attempt` is the loop's variable: the attempts last returned by StartProcessing, 0 before that. */
  datatype Flight = Flight(body: Body, attempt: nat, phase: Phase)

  function Takeoff(body: Body): Flight {
    Flight(body, 0, Ready)
  }

  datatype Act =
    | Decode
    | Start(call: Call)
    | Finish(call: Call)
    | Relinquish(call: Call, message: string)
    | Bury(call: Call, message: string)
    | Retry

  predicate Can(settings: Settings, f: Flight, act: Act) {
    match act
    case Decode => f.phase.Ready? && f.body.Undecodable?
    case Start(_) => f.phase.Ready? && f.body.Decoded?
    case Finish(_) => f.phase.Executing? && f.body.Decoded? && !settings.Forces(f.body.envelope.eventType)
    case Relinquish(_, _) =>
      f.body.Decoded? && (f.phase.Erred? || (f.phase.Executing? && settings.Forces(f.body.envelope.eventType)))
    case Bury(_, _) => f.phase.Failing? && f.body.Decoded? && settings.GivesUp(f.attempt)
    case Retry => f.phase.Failing? && !settings.GivesUp(f.attempt)
  }

  /** The table after the act. */
  function Effect(ledger: Ledger, f: Flight, act: Act, now: int): Ledger {
    if f.body.Undecodable? then ledger
    else
      var e := f.body.envelope;
      match act
      case Start(call) => if call.Applied() then Started(ledger, e, now) else ledger
      case Finish(call) => if call.Applied() then SetDone(ledger, e.eventId, now) else ledger
      case Relinquish(call, message) => if call.Applied() then SetInProgress(ledger, e.eventId, message, now) else ledger
      case Bury(call, message) => if call.Applied() then SetDead(ledger, e.eventId, message, now) else ledger
      case _ => ledger
  }

  /** The delivery after the act. */
  function Onward(ledger: Ledger, f: Flight, act: Act, now: int): Flight {
    match act
    case Decode => f.(phase := Leaving(Undecoded))
    case Start(call) =>
      if !call.Succeeded? || f.body.Undecodable? then f.(phase := Failing)
      else
        var e := f.body.envelope;
        var after := Started(ledger, e, now);
        f.(attempt := after[e.eventId].attempts, phase := if Settles(ledger, e.eventId) then Leaving(Handled) else Executing)
    case Finish(call) => f.(phase := if call.Succeeded? then Leaving(Handled) else Erred)
    case Relinquish(_, _) => f.(phase := Failing)
    case Bury(_, _) => f.(phase := Leaving(GivenUp))
    case Retry => f.(phase := Ready)
  }

  /** The notification goes out. */
  predicate Notifies(f: Flight, f': Flight) {
    f.phase.Ready? && f'.phase.Executing?
  }

  // One delivery on its own.

  ghost predicate Acts(settings: Settings, ledger: Ledger, f: Flight, acts: seq<Act>, times: seq<int>)
    decreases |acts|
  {
    && |times| == |acts|
    && (acts == [] || (
          && Can(settings, f, acts[0])
          && Acts(settings, Effect(ledger, f, acts[0], times[0]), Onward(ledger, f, acts[0], times[0]), acts[1..], times[1..])))
  }

  ghost function LedgerAfter(ledger: Ledger, f: Flight, acts: seq<Act>, times: seq<int>): Ledger
    requires |times| == |acts|
    decreases |acts|
  {
    if acts == [] then ledger
    else LedgerAfter(Effect(ledger, f, acts[0], times[0]), Onward(ledger, f, acts[0], times[0]), acts[1..], times[1..])
  }

  ghost function FlightAfter(ledger: Ledger, f: Flight, acts: seq<Act>, times: seq<int>): Flight
    requires |times| == |acts|
    decreases |acts|
  {
    if acts == [] then f
    else FlightAfter(Effect(ledger, f, acts[0], times[0]), Onward(ledger, f, acts[0], times[0]), acts[1..], times[1..])
  }

  lemma {:induction false} ActsSnoc(settings: Settings, ledger: Ledger, f: Flight, acts: seq<Act>, times: seq<int>, act: Act, now: int)
    requires Acts(settings, ledger, f, acts, times) && Can(settings, FlightAfter(ledger, f, acts, times), act)
    ensures Acts(settings, ledger, f, acts + [act], times + [now])
    ensures LedgerAfter(ledger, f, acts + [act], times + [now])
      == Effect(LedgerAfter(ledger, f, acts, times), FlightAfter(ledger, f, acts, times), act, now)
    ensures FlightAfter(ledger, f, acts + [act], times + [now])
      == Onward(LedgerAfter(ledger, f, acts, times), FlightAfter(ledger, f, acts, times), act, now)
    decreases |acts|
  {
    if acts == [] {
      assert ([act])[1..] == [] && ([now])[1..] == [];
    } else {
      ActsSnoc(settings, Effect(ledger, f, acts[0], times[0]), Onward(ledger, f, acts[0], times[0]), acts[1..], times[1..], act, now);
      assert (acts + [act])[1..] == acts[1..] + [act] && (times + [now])[1..] == times[1..] + [now];
    }
  }

  /** The statements an act, and a sequence of acts, sends to the database. */
  function SentBy(body: Body, act: Act): seq<Issued> {
    if body.Undecodable? then []
    else
      var e := body.envelope;
      match act
      case Start(call) => [Issued(ToStart(e), call)]
      case Finish(call) => [Issued(ToDone(e.eventId), call)]
      case Relinquish(call, message) => [Issued(ToInProgress(e.eventId, message), call)]
      case Bury(call, message) => [Issued(ToDead(e.eventId, message), call)]
      case _ => []
  }

  ghost function Sent(body: Body, acts: seq<Act>): seq<Issued> {
    if acts == [] then [] else Sent(body, acts[..|acts| - 1]) + SentBy(body, acts[|acts| - 1])
  }

  /** How often StartProcessing is called, and how often with an error. */
  ghost function Starts(acts: seq<Act>): nat {
    if acts == [] then 0 else (if acts[0].Start? then 1 else 0) + Starts(acts[1..])
  }

  ghost function FailedStarts(acts: seq<Act>): nat {
    if acts == [] then 0 else (if acts[0].Start? && !acts[0].call.Succeeded? then 1 else 0) + FailedStarts(acts[1..])
  }

  function AttemptsSoFar(ledger: Ledger, eventId: string): nat {
    if eventId in ledger then ledger[eventId].attempts else 0
  }

  function Max(a: int, b: int): int {
    if a < b then b else a
  }

  /** At most this many calls of StartProcessing can still succeed. */
  ghost function StartsLeft(settings: Settings, ledger: Ledger, f: Flight): int {
    if f.phase.Leaving? || f.body.Undecodable? then 0
    else
      var a := AttemptsSoFar(ledger, f.body.envelope.eventId);
      if f.phase.Executing? || f.phase.Erred? then Max(0, settings.maxAttempts - a)
      else if settings.GivesUp(f.attempt) then 0
      else Max(1, settings.maxAttempts - a)
  }

  /** The loop's variable never runs ahead of the table, and it stops the loop once it reaches maxAttempts. */
  ghost predicate InStep(settings: Settings, ledger: Ledger, f: Flight) {
    if f.body.Undecodable? then f.phase.Ready? || f.phase.Leaving?
    else
      var a := AttemptsSoFar(ledger, f.body.envelope.eventId);
      && f.attempt <= a
      && (f.phase.Executing? || f.phase.Erred? ==> f.attempt == a)
      && (f.phase.Ready? ==> !settings.GivesUp(f.attempt))
  }

  lemma ActCost(settings: Settings, ledger: Ledger, f: Flight, act: Act, now: int)
    requires settings.maxAttempts > 0 && InStep(settings, ledger, f) && Can(settings, f, act)
    ensures
      var ledger', f' := Effect(ledger, f, act, now), Onward(ledger, f, act, now);
      && InStep(settings, ledger', f')
      && StartsLeft(settings, ledger', f') + (if act.Start? && act.call.Succeeded? then 1 else 0) <= StartsLeft(settings, ledger, f)
      && Rank(f') + 1 <= Rank(f) + (if act.Start? then 4 else 0)
  {
  }

  /** Acts that may follow before StartProcessing is called again. */
  ghost function Rank(f: Flight): nat {
    match f.phase
    case Ready => if f.body.Undecodable? then 1 else 0
    case Executing => 3
    case Erred => 2
    case Failing => 1
    case Leaving(_) => 0
  }

  lemma {:induction false} RetryCost(settings: Settings, ledger: Ledger, f: Flight, acts: seq<Act>, times: seq<int>)
    requires settings.maxAttempts > 0 && InStep(settings, ledger, f) && Acts(settings, ledger, f, acts, times)
    ensures Starts(acts) <= FailedStarts(acts) + StartsLeft(settings, ledger, f)
    ensures |acts| <= 4 * Starts(acts) + Rank(f)
    ensures InStep(settings, LedgerAfter(ledger, f, acts, times), FlightAfter(ledger, f, acts, times))
    decreases |acts|
  {
    if acts != [] {
      ActCost(settings, ledger, f, acts[0], times[0]);
      RetryCost(settings, Effect(ledger, f, acts[0], times[0]), Onward(ledger, f, acts[0], times[0]), acts[1..], times[1..]);
    }
  }

  /** The retry loop of a delivery ends, also when the persisted counter starts above maxAttempts: after d failing calls of
      StartProcessing and a attempts counted before, it calls StartProcessing at most d + max(1, maxAttempts - a) times.
      Until it leaves, there is always something for it to do, and once it leaves there is nothing. */
  lemma RetryLoopEnds(settings: Settings, ledger: Ledger, body: Body, acts: seq<Act>, times: seq<int>)
    requires settings.maxAttempts > 0 && Acts(settings, ledger, Takeoff(body), acts, times)
    ensures
      var before := if body.Decoded? then AttemptsSoFar(ledger, body.envelope.eventId) else 0;
      && Starts(acts) <= FailedStarts(acts) + Max(1, settings.maxAttempts - before)
      && |acts| <= 4 * (FailedStarts(acts) + Max(1, settings.maxAttempts - before)) + 1
    ensures
      var end := FlightAfter(ledger, Takeoff(body), acts, times);
      end.phase.Leaving? <==> forall act :: !Can(settings, end, act)
  {
    RetryCost(settings, ledger, Takeoff(body), acts, times);
    var end := FlightAfter(ledger, Takeoff(body), acts, times);
    if !end.phase.Leaving? {
      assert Can(settings, end, Decode) || Can(settings, end, Start(Succeeded)) || Can(settings, end, Finish(Succeeded))
          || Can(settings, end, Relinquish(Succeeded, "")) || Can(settings, end, Bury(Succeeded, "")) || Can(settings, end, Retry);
    }
  }

  // Exactly when it ends.

  /** How many calls of the database end with an error. */
  ghost function Faults(acts: seq<Act>): nat {
    if acts == [] then 0 else (if Faulty(acts[0]) then 1 else 0) + Faults(acts[1..])
  }

  predicate Faulty(act: Act) {
    (act.Start? || act.Finish? || act.Relinquish? || act.Bury?) && !act.call.Succeeded?
  }

  /** However the calls end, and apart from at most d calls of StartProcessing that fail, the delivery takes at most n acts. */
  ghost predicate EndsWithin(settings: Settings, ledger: Ledger, body: Body, d: nat, n: nat) {
    forall acts, times :: Acts(settings, ledger, Takeoff(body), acts, times) && FailedStarts(acts) <= d ==> |acts| <= n
  }

  /** With a settled event every call of StartProcessing that succeeds ends the delivery. */
  lemma {:induction false} SettledCost(settings: Settings, ledger: Ledger, f: Flight, acts: seq<Act>, times: seq<int>)
    requires f.body.Decoded? && Settles(ledger, f.body.envelope.eventId) && Acts(settings, ledger, f, acts, times)
    requires f.phase.Ready? || f.phase.Failing? || f.phase.Leaving?
    ensures |acts| <= 2 * FailedStarts(acts) + if f.phase.Leaving? then 0 else if f.phase.Ready? then 1 else 2
    decreases |acts|
  {
    if acts != [] {
      SettledCost(settings, Effect(ledger, f, acts[0], times[0]), Onward(ledger, f, acts[0], times[0]), acts[1..], times[1..]);
    }
  }

  /** What keeps a delivery going although StartProcessing succeeds: a forced failure, or else a failing call of MarkDone. */
  function KeepsOn(settings: Settings, f: Flight): Act
    requires f.body.Decoded?
  {
    match f.phase
    case Ready => Start(Succeeded)
    case Executing => if settings.Forces(f.body.envelope.eventType) then Relinquish(Succeeded, "forced failure") else Finish(FailedBefore)
    case Erred => Relinquish(Succeeded, "error")
    case _ => Retry
  }

  lemma {:induction false} RunsOn(settings: Settings, ledger: Ledger, f: Flight, n: nat) returns (acts: seq<Act>, times: seq<int>)
    requires settings.maxAttempts <= 0 && f.body.Decoded? && !f.phase.Leaving? && !Settles(ledger, f.body.envelope.eventId)
    ensures Acts(settings, ledger, f, acts, times) && |acts| == n && FailedStarts(acts) == 0
    ensures settings.Forces(f.body.envelope.eventType) ==> Faults(acts) == 0
    decreases n
  {
    if n == 0 {
      acts, times := [], [];
    } else {
      var act := KeepsOn(settings, f);
      var rest, later := RunsOn(settings, Effect(ledger, f, act, 0), Onward(ledger, f, act, 0), n - 1);
      acts, times := [act] + rest, [0] + later;
      assert acts[1..] == rest && times[1..] == later;
    }
  }

  /** When the retry loop is bound to end: apart from calls of StartProcessing that fail, of which there may be any number d,
      a delivery is bounded exactly when maxAttempts is positive, or the record cannot be decoded, or its event is already
      done or failed. Otherwise, with maxAttempts <= 0, forced failures or failing calls of MarkDone keep it going. */
  lemma RetryLoopEndsExactly(settings: Settings, ledger: Ledger, body: Body, d: nat)
    ensures (exists n :: EndsWithin(settings, ledger, body, d, n))
      <==> settings.maxAttempts > 0 || body.Undecodable? || Settles(ledger, body.envelope.eventId)
  {
    if settings.maxAttempts > 0 || body.Undecodable? || Settles(ledger, body.envelope.eventId) {
      var n := ActsAtMost(settings, ledger, body, d);
    } else if n: nat :| EndsWithin(settings, ledger, body, d, n) {
      var acts, times := RunsOn(settings, ledger, Takeoff(body), n + 1);
      assert false;
    }
  }

  lemma ActsAtMost(settings: Settings, ledger: Ledger, body: Body, d: nat) returns (n: nat)
    requires settings.maxAttempts > 0 || body.Undecodable? || Settles(ledger, body.envelope.eventId)
    ensures EndsWithin(settings, ledger, body, d, n)
  {
    n := 4 * (d + Max(1, settings.maxAttempts)) + 1;
    forall acts, times | Acts(settings, ledger, Takeoff(body), acts, times) && FailedStarts(acts) <= d
      ensures |acts| <= n
    {
      if body.Undecodable? {
        UndecodableCost(settings, ledger, Takeoff(body), acts, times);
      } else if Settles(ledger, body.envelope.eventId) {
        SettledCost(settings, ledger, Takeoff(body), acts, times);
      } else {
        RetryLoopEnds(settings, ledger, body, acts, times);
      }
    }
  }

  lemma {:induction false} UndecodableCost(settings: Settings, ledger: Ledger, f: Flight, acts: seq<Act>, times: seq<int>)
    requires f.body.Undecodable? && (f.phase.Ready? || f.phase.Leaving?) && Acts(settings, ledger, f, acts, times)
    ensures |acts| <= if f.phase.Leaving? then 0 else 1
    decreases |acts|
  {
    if acts != [] {
      UndecodableCost(settings, Effect(ledger, f, acts[0], times[0]), Onward(ledger, f, acts[0], times[0]), acts[1..], times[1..]);
    }
  }

  // When at most d calls of the database fail, of whatever kind.

  ghost predicate EndsWithinFaults(settings: Settings, ledger: Ledger, body: Body, d: nat, n: nat) {
    forall acts, times :: Acts(settings, ledger, Takeoff(body), acts, times) && Faults(acts) <= d ==> |acts| <= n
  }

  /** A turn that is not forced to fail fails only when a call does. */
  lemma {:induction false} UnforcedCost(settings: Settings, ledger: Ledger, f: Flight, acts: seq<Act>, times: seq<int>)
    requires f.body.Decoded? && !settings.Forces(f.body.envelope.eventType) && Acts(settings, ledger, f, acts, times)
    ensures |acts| <= 4 * Faults(acts) + UnforcedRank(f)
    decreases |acts|
  {
    if acts != [] {
      UnforcedCost(settings, Effect(ledger, f, acts[0], times[0]), Onward(ledger, f, acts[0], times[0]), acts[1..], times[1..]);
    }
  }

  function UnforcedRank(f: Flight): nat {
    match f.phase
    case Ready => 2
    case Executing => 1
    case Erred => 4
    case Failing => 3
    case Leaving(_) => 0
  }

  lemma {:induction false} FailedStartsAreFaults(acts: seq<Act>)
    ensures FailedStarts(acts) <= Faults(acts)
  {
    if acts != [] {
      FailedStartsAreFaults(acts[1..]);
    }
  }

  /** With finitely many failing database calls of any kind, a delivery is bounded also with maxAttempts <= 0, unless its event
      type is forced to fail. */
  lemma RetryLoopEndsAfterFaults(settings: Settings, ledger: Ledger, body: Body, d: nat)
    ensures (exists n :: EndsWithinFaults(settings, ledger, body, d, n))
      <==> || settings.maxAttempts > 0 || body.Undecodable? || Settles(ledger, body.envelope.eventId)
           || !Forced(settings, body.envelope.eventType)
  {
    if body.Decoded? {
      ForcesExactly(settings, body.envelope.eventType);
    }
    if settings.maxAttempts > 0 || body.Undecodable? || Settles(ledger, body.envelope.eventId) {
      var n := ActsAtMost(settings, ledger, body, d);
      forall acts, times | Acts(settings, ledger, Takeoff(body), acts, times) && Faults(acts) <= d
        ensures |acts| <= n
      {
        FailedStartsAreFaults(acts);
      }
      assert EndsWithinFaults(settings, ledger, body, d, n);
    } else if !settings.Forces(body.envelope.eventType) {
      forall acts, times | Acts(settings, ledger, Takeoff(body), acts, times) && Faults(acts) <= d
        ensures |acts| <= 4 * d + 2
      {
        UnforcedCost(settings, ledger, Takeoff(body), acts, times);
      }
      assert EndsWithinFaults(settings, ledger, body, d, 4 * d + 2);
    } else if n: nat :| EndsWithinFaults(settings, ledger, body, d, n) {
      var acts, times := RunsOn(settings, ledger, Takeoff(body), n + 1);
      assert false;
    }
  }

  /** While StartProcessing keeps returning errors the loop's variable stays 0, so the loop does not end:
      any number of turns is possible. */
  lemma {:induction false} OutageNeverGivesUp(settings: Settings, ledger: Ledger, e: Envelope, n: nat)
    returns (acts: seq<Act>, times: seq<int>)
    ensures Acts(settings, ledger, Takeoff(Decoded(e)), acts, times) && Starts(acts) == FailedStarts(acts) == n
    ensures FlightAfter(ledger, Takeoff(Decoded(e)), acts, times) == Takeoff(Decoded(e))
    ensures LedgerAfter(ledger, Takeoff(Decoded(e)), acts, times) == ledger
  {
    if n == 0 {
      acts, times := [], [];
    } else {
      var rest, later := OutageNeverGivesUp(settings, ledger, e, n - 1);
      acts, times := [Start(FailedBefore), Retry] + rest, [0, 0] + later;
      assert acts[1..][1..] == rest && times[1..][1..] == later;
    }
  }
}
