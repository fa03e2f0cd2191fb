/** The record that the consumer's methods keep of a delivery: its acts, each at its time, from the fetch on. */
module DeliveryLog {
  import opened Base
  import opened ProcessedEvents
  import opened Handling

  /** cmd/notification-service/main.go:368-377 */
  function Backoff(attempt: nat): (d: int)
    ensures 200 * MILLISECOND <= d <= 30 * SECOND
  {
    if attempt <= 1 then 200 * MILLISECOND
    else
      var d := [1, 2, 4, 8, 16, 32, 64][if attempt - 1 < 6 then attempt - 1 else 6] * SECOND;
      if d > 30 * SECOND then 30 * SECOND else d
  }

  /** The wait before attempt k + 1: a fifth of a second, then two seconds, doubling up to the fifth attempt, and half a minute
      from then on. */
  ghost function RetryDelay(k: int): int {
    if k <= 1 then 200_000
    else if k == 2 then 2_000_000
    else if k <= 5 then 2 * RetryDelay(k - 1)
    else 30_000_000
  }

  lemma BackoffExactly(k: nat)
    ensures Backoff(k) == RetryDelay(k)
    ensures k <= 1 ==> Backoff(k) == 200_000
    ensures k == 2 ==> Backoff(k) == 2_000_000
    ensures 2 <= k < 5 ==> Backoff(k + 1) == 2 * Backoff(k)
    ensures k >= 6 ==> Backoff(k) == 30_000_000
  {
    if 2 <= k <= 5 {
      assert RetryDelay(3) == 4_000_000 && RetryDelay(4) == 8_000_000 && RetryDelay(5) == 16_000_000;
      assert k == 2 || k == 3 || k == 4 || k == 5;
    }
  }

  /** The delivery of `body` that began at time `start`, with the table and the statements sent as they were then. */
  datatype Log = Log(body: Body, ledger: Ledger, sent: seq<Issued>, start: int, acts: seq<Act>, times: seq<int>)

  function Begun(body: Body, ledger: Ledger, sent: seq<Issued>, start: int): Log {
    Log(body, ledger, sent, start, [], [])
  }

  /** The one record continues the other. */
  ghost predicate Extends(log: Log, log': Log) {
    log'.body == log.body && log'.ledger == log.ledger && log'.sent == log.sent && log'.start == log.start
  }

  /** Acts that took place one after the other within [start, end]. */
  ghost predicate During(times: seq<int>, start: int, end: int) {
    && start <= end
    && (forall i :: 0 <= i < |times| ==> start <= times[i] <= end)
    && (forall i, j :: 0 <= i < j < |times| ==> times[i] <= times[j])
  }

  /** A retry comes no sooner after the act before it than the backoff for the attempt that failed. */
  ghost predicate WaitedAt(log: Log, i: nat)
    requires i < |log.acts| == |log.times|
  {
    log.acts[i].Retry? ==>
      i > 0 && log.times[i] - log.times[i - 1] >= RetryDelay(FlightAfter(log.ledger, Takeoff(log.body), log.acts[..i], log.times[..i]).attempt)
  }

  /** The record is right: the acts take the delivery to `f`, the table to `ledger` and the statements sent to `sent`, and
      every retry has waited for its backoff. */
  ghost predicate Tells(settings: Settings, log: Log, ledger: Ledger, sent: seq<Issued>, now: int, f: Flight) {
    && Acts(settings, log.ledger, Takeoff(log.body), log.acts, log.times)
    && LedgerAfter(log.ledger, Takeoff(log.body), log.acts, log.times) == ledger
    && FlightAfter(log.ledger, Takeoff(log.body), log.acts, log.times) == f
    && sent == log.sent + Sent(log.body, log.acts)
    && During(log.times, log.start, now)
    && forall i :: 0 <= i < |log.acts| ==> WaitedAt(log, i)
  }

  lemma Next(settings: Settings, log: Log, ledger: Ledger, sent: seq<Issued>, before: int, f: Flight, act: Act, now: int)
    returns (log': Log)
    requires Tells(settings, log, ledger, sent, before, f) && Can(settings, f, act) && before <= now
    requires act.Retry? ==> now - before >= RetryDelay(f.attempt)
    ensures Tells(settings, log', Effect(ledger, f, act, now), sent + SentBy(f.body, act), now, Onward(ledger, f, act, now))
    ensures Extends(log, log') && log'.acts == log.acts + [act]
  {
    log' := log.(acts := log.acts + [act], times := log.times + [now]);
    ActsSnoc(settings, log.ledger, Takeoff(log.body), log.acts, log.times, act, now);
    BodyStays(log.ledger, Takeoff(log.body), log.acts, log.times);
    SentSnoc(log.body, log.acts, act);
    DuringSnoc(log.times, log.start, before, now);
    WaitedSnoc(log, log', f, before, act, now);
  }

  lemma SentSnoc(body: Body, acts: seq<Act>, act: Act)
    ensures Sent(body, acts + [act]) == Sent(body, acts) + SentBy(body, act)
  {
    assert (acts + [act])[..|acts|] == acts;
  }

  lemma DuringSnoc(times: seq<int>, start: int, before: int, now: int)
    requires During(times, start, before) && before <= now
    ensures During(times + [now], start, now)
  {
  }

  lemma WaitedSnoc(log: Log, log': Log, f: Flight, before: int, act: Act, now: int)
    requires |log.acts| == |log.times| && FlightAfter(log.ledger, Takeoff(log.body), log.acts, log.times) == f
    requires log' == log.(acts := log.acts + [act], times := log.times + [now])
    requires During(log.times, log.start, before) && before <= now
    requires act.Retry? ==> f.phase.Failing? && now - before >= RetryDelay(f.attempt)
    requires forall i :: 0 <= i < |log.acts| ==> WaitedAt(log, i)
    ensures forall i :: 0 <= i < |log'.acts| ==> WaitedAt(log', i)
  {
    forall i | 0 <= i < |log'.acts|
      ensures WaitedAt(log', i)
    {
      assert log'.acts[..i] == log.acts[..i] && log'.times[..i] == log.times[..i];
      if i < |log.acts| {
        assert WaitedAt(log, i);
      } else {
        assert log.acts[..i] == log.acts && log.times[..i] == log.times;
      }
    }
  }

  lemma {:induction false} BodyStays(ledger: Ledger, f: Flight, acts: seq<Act>, times: seq<int>)
    requires |times| == |acts|
    ensures FlightAfter(ledger, f, acts, times).body == f.body
    decreases |acts|
  {
    if acts != [] {
      BodyStays(Effect(ledger, f, acts[0], times[0]), Onward(ledger, f, acts[0], times[0]), acts[1..], times[1..]);
    }
  }

  /** How often the loop has waited and tried again. */
  ghost function Retries(acts: seq<Act>): nat {
    if acts == [] then 0 else Retries(acts[..|acts| - 1]) + if acts[|acts| - 1].Retry? then 1 else 0
  }

  lemma RetriesSnoc(acts: seq<Act>, act: Act)
    ensures Retries(acts + [act]) == Retries(acts) + if act.Retry? then 1 else 0
  {
    assert (acts + [act])[..|acts|] == acts;
  }
}
