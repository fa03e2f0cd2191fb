/** Any number of relays over one outbox table and one topic, as a state machine.
    Every statement and every topic write is one step, so a run is any interleaving of them with crashes. */
module Relays {
  import opened Base
  import opened Outbox
  import opened Events
  import opened Tickets

  /** `latency`, `iteration` and `extra` are not settings of the relay. The first two bound, in timed runs, how long a claimed
      batch takes to reach its holder and how long one turn of the holder's loop lasts. One write may leave up to 1 + extra
      copies of its message in the topic: the Kafka client tries again by itself, and what it has sent may land late. */
  datatype Config = Config(maxAttempts: int, batchSize: int, processingTimeout: int, latency: nat, iteration: nat, extra: nat)

  /** The right to publish and mark a row: the row's id and its attempts as returned by the claim. */
  datatype Lease = Lease(id: nat, number: nat)

  /** How far the holder is with the first lease of its batch. */
  datatype Phase = Unsent | Retrying | Acked | Refused

  datatype Relay = Relay(batch: seq<Lease>, phase: Phase, since: int, deadline: int)

  const IDLE := Relay([], Unsent, 0, 0)

  /** What has happened to a row; no statement reads it.
      writes[k - 1] counts the topic writes made under lease k. */
  datatype History = History(resets: nat, requeued: set<nat>, resetAfter: set<nat>, claimedAt: seq<int>, writes: seq<nat>)

  const NO_HISTORY := History(0, {}, {}, [], [])

  /** `log` is the topic in append order and origin[i] is the row whose message log[i] is. */
  datatype State = State(
    now: int, tickets: map<string, Ticket>, rowOf: map<string, nat>, rows: Table, relays: map<nat, Relay>,
    log: seq<Message>, origin: seq<nat>, history: map<nat, History>)

  datatype Step =
    | Advance(t: int)
    | Create(ticket: Ticket, requestId: string, id: nat, eventId: string)
    | Reset(r: nat)
    | Claim(r: nat, ids: seq<nat>, locked: set<nat>)
    | Refuse(r: nat)
    | Write(r: nat, appended: bool, acked: bool, heals: bool)
    | Mark(r: nat, applied: bool, at: int, message: string)
    | Crash(r: nat)
    | Land(id: nat)

  ghost function Initial(relays: set<nat>): State {
    State(0, map[], map[], map[], map r | r in relays :: IDLE, [], [], map[])
  }

  predicate Idle(s: State, r: nat) {
    r in s.relays && s.relays[r].batch == []
  }

  predicate Busy(s: State, r: nat) {
    r in s.relays && s.relays[r].batch != []
  }

  /** cmd/outbox-relay/main.go:196-205; the shift count is at most 6. */
  function Backoff(attempt: int): (d: int)
    ensures 500 * MILLISECOND <= d <= 60 * SECOND
  {
    if attempt <= 1 then 500 * MILLISECOND
    else
      var d := Shift(if attempt - 1 < 6 then attempt - 1 else 6) * SECOND;
      if d > 60 * SECOND then 60 * SECOND else d
  }

  /** 1 << n */
  function Shift(n: nat): (power: nat)
    requires n <= 6
    ensures 1 <= power <= 64
    ensures n >= 1 ==> power >= 2
  {
    [1, 2, 4, 8, 16, 32, 64][n]
  }

  /** The wait before attempt k + 1: half a second, then two seconds, doubling up to the sixth attempt, and a minute from then on. */
  ghost function RetryDelay(k: int): int {
    if k <= 1 then 500_000
    else if k == 2 then 2_000_000
    else if k <= 6 then 2 * RetryDelay(k - 1)
    else 60_000_000
  }

  lemma BackoffExactly(k: int)
    ensures Backoff(k) == RetryDelay(k)
    ensures k <= 1 ==> Backoff(k) == 500_000
    ensures k == 2 ==> Backoff(k) == 2_000_000
    ensures 2 <= k < 6 ==> Backoff(k + 1) == 2 * Backoff(k)
    ensures k >= 7 ==> Backoff(k) == 60_000_000
  {
    if 2 <= k <= 6 {
      assert RetryDelay(3) == 4_000_000 && RetryDelay(4) == 8_000_000;
      assert RetryDelay(5) == 16_000_000 && RetryDelay(6) == 32_000_000;
      assert k == 2 || k == 3 || k == 4 || k == 5 || k == 6;
    }
  }

  predicate GivesUp(cfg: Config, number: nat) {
    cfg.maxAttempts > 0 && number >= cfg.maxAttempts
  }

  predicate Enabled(cfg: Config, s: State, step: Step) {
    match step
    case Advance(t) => s.now <= t
    case Create(ticket, _, id, eventId) => Fresh(s.tickets, s.rows, ticket.id, id, eventId)
    case Reset(r) => Idle(s, r)
    case Claim(r, ids, locked) => Idle(s, r) && Selects(s.rows, s.now, Limit(cfg.batchSize), locked, ids)
    case Refuse(r) => Busy(s, r) && s.relays[r].phase.Unsent?
    case Write(r, appended, acked, _) =>
      && Busy(s, r)
      && (s.relays[r].phase.Unsent? || s.relays[r].phase.Retrying?)
      && (acked ==> appended)
    case Mark(r, _, at, _) =>
      && Busy(s, r)
      && (s.relays[r].phase.Acked? || s.relays[r].phase.Refused?)
      && s.relays[r].since <= at <= s.now
    case Crash(r) => r in s.relays
    case Land(id) =>
      id in s.rows && id in s.history && Copies(s.log, s.rows[id].fields.eventId) < CopiesOf(cfg, Sum(s.history[id].writes))
  }

  function Copies(log: seq<Message>, eventId: string): nat {
    if log == [] then 0
    else Copies(log[..|log| - 1], eventId) + if log[|log| - 1].envelope.eventId == eventId then 1 else 0
  }

  /** The copies that this many writes may leave: (1 + extra) for each. */
  function CopiesOf(cfg: Config, writes: nat): nat {
    Times(writes, 1 + cfg.extra)
  }

  function Leases(rows: Table, ids: seq<nat>): seq<Lease>
    requires forall id :: id in ids ==> id in rows
  {
    seq(|ids|, i requires 0 <= i < |ids| => Lease(ids[i], rows[ids[i]].attempts + 1))
  }

  /** The statement the holder of a lease sends once it knows how the publishing went. */
  function Marked(cfg: Config, row: Row, number: nat, phase: Phase, at: int, message: string, now: int): Row {
    if phase.Acked? then SetSent(row, now)
    else if GivesUp(cfg, number) then SetFailed(row, message, now)
    else SetPending(row, at + Backoff(number), message, now)
  }

  predicate Requeues(cfg: Config, relay: Relay, applied: bool)
    requires relay.batch != []
  {
    applied && !relay.phase.Acked? && !GivesUp(cfg, relay.batch[0].number)
  }

  function Apply(cfg: Config, s: State, step: Step): State
    requires Enabled(cfg, s, step)
  {
    match step
    case Advance(t) => s.(now := t)
    case Create(ticket, requestId, id, eventId) =>
      s.(tickets := s.tickets[ticket.id := ticket],
         rowOf := s.rowOf[ticket.id := id],
         rows := s.rows[id := NewRow(FieldsOf(ticket, requestId, eventId, s.now), s.now)],
         history := s.history[id := NO_HISTORY])
    case Reset(r) => ApplyReset(cfg, s)
    case Claim(r, ids, _) => ApplyClaim(cfg, s, r, ids)
    case Refuse(r) =>
      s.(relays := s.relays[r := s.relays[r].(phase := Refused, since := s.now)])
    case Write(r, appended, acked, heals) => ApplyWrite(s, r, appended, acked, heals)
    case Mark(r, applied, at, message) => ApplyMark(cfg, s, r, applied, at, message)
    case Crash(r) => s.(relays := s.relays[r := IDLE])
    case Land(id) => s.(log := s.log + [MessageOf(s.rows[id].fields)], origin := s.origin + [id])
  }

  function ApplyReset(cfg: Config, s: State): State {
    var timeout := Timeout(cfg.processingTimeout);
    s.(rows := UnstickAll(s.rows, s.now, timeout),
       history := map id | id in s.history ::
         if id in s.rows && Stuck(s.rows[id], s.now, timeout)
         then s.history[id].(resets := s.history[id].resets + 1,
                             resetAfter := s.history[id].resetAfter + {s.rows[id].attempts})
         else s.history[id])
  }

  function ApplyClaim(cfg: Config, s: State, r: nat, ids: seq<nat>): State
    requires forall id :: id in ids ==> id in s.rows
  {
    s.(rows := TakeAll(s.rows, ids, s.now),
       relays := s.relays[r := Relay(Leases(s.rows, ids), Unsent, s.now, s.now + cfg.latency + cfg.iteration)],
       history := map id | id in s.history ::
         if id in ids
         then s.history[id].(claimedAt := s.history[id].claimedAt + [s.now], writes := s.history[id].writes + [0])
         else s.history[id])
  }

  function ApplyWrite(s: State, r: nat, appended: bool, acked: bool, heals: bool): State
    requires Busy(s, r)
  {
    var relay := s.relays[r];
    var lease := relay.batch[0];
    var phase := if acked then Acked else if relay.phase.Unsent? && heals then Retrying else Refused;
    var counted := CountWrite(s.history, lease);
    var s' := s.(relays := s.relays[r := relay.(phase := phase, since := s.now)], history := counted);
    if appended && lease.id in s.rows
    then s'.(log := s.log + [MessageOf(s.rows[lease.id].fields)], origin := s.origin + [lease.id])
    else s'
  }

  function CountWrite(history: map<nat, History>, lease: Lease): map<nat, History> {
    if lease.id in history && 1 <= lease.number <= |history[lease.id].writes| then
      var h := history[lease.id];
      history[lease.id := h.(writes := h.writes[lease.number - 1 := h.writes[lease.number - 1] + 1])]
    else history
  }

  function ApplyMark(cfg: Config, s: State, r: nat, applied: bool, at: int, message: string): State
    requires Busy(s, r)
  {
    var relay := s.relays[r];
    var lease := relay.batch[0];
    var s' := s.(relays := s.relays[r := Relay(relay.batch[1..], Unsent, s.now, s.now + cfg.iteration)]);
    if applied && lease.id in s.rows && lease.id in s.history then
      s'.(rows := s.rows[lease.id := Marked(cfg, s.rows[lease.id], lease.number, relay.phase, at, message, s.now)],
          history := if Requeues(cfg, relay, applied)
                     then s.history[lease.id := s.history[lease.id].(requeued := s.history[lease.id].requeued + {lease.number})]
                     else s.history)
    else s'
  }

  // Runs.

  predicate Run(cfg: Config, s: State, steps: seq<Step>)
    decreases |steps|
  {
    steps == [] || (Enabled(cfg, s, steps[0]) && Run(cfg, Apply(cfg, s, steps[0]), steps[1..]))
  }

  function Exec(cfg: Config, s: State, steps: seq<Step>): State
    requires Run(cfg, s, steps)
    decreases |steps|
  {
    if steps == [] then s else Exec(cfg, Apply(cfg, s, steps[0]), steps[1..])
  }

  lemma {:induction false} RunConcat(cfg: Config, s: State, first: seq<Step>, second: seq<Step>)
    requires Run(cfg, s, first) && Run(cfg, Exec(cfg, s, first), second)
    ensures Run(cfg, s, first + second)
    ensures Exec(cfg, s, first + second) == Exec(cfg, Exec(cfg, s, first), second)
    decreases |first|
  {
    if first == [] {
      assert first + second == second;
    } else {
      RunConcat(cfg, Apply(cfg, s, first[0]), first[1..], second);
      assert (first + second)[1..] == first[1..] + second;
    }
  }

  lemma RunSnoc(cfg: Config, s: State, steps: seq<Step>, step: Step)
    requires Run(cfg, s, steps) && Enabled(cfg, Exec(cfg, s, steps), step)
    ensures Run(cfg, s, steps + [step])
    ensures Exec(cfg, s, steps + [step]) == Apply(cfg, Exec(cfg, s, steps), step)
  {
    var end := Exec(cfg, s, steps);
    assert Run(cfg, Apply(cfg, end, step), [step][1..]);
    RunConcat(cfg, s, steps, [step]);
  }

  /** Every step of the run, with the state it is taken in, satisfies `ok`. */
  ghost predicate Along(cfg: Config, s: State, steps: seq<Step>, ok: (State, Step) -> bool)
    requires Run(cfg, s, steps)
    decreases |steps|
  {
    steps == [] || (ok(s, steps[0]) && Along(cfg, Apply(cfg, s, steps[0]), steps[1..], ok))
  }

  lemma {:induction false} AlongConcat(cfg: Config, s: State, first: seq<Step>, second: seq<Step>, ok: (State, Step) -> bool)
    requires Run(cfg, s, first) && Run(cfg, Exec(cfg, s, first), second)
    requires Along(cfg, s, first, ok) && Along(cfg, Exec(cfg, s, first), second, ok)
    ensures Run(cfg, s, first + second) && Along(cfg, s, first + second, ok)
    ensures Exec(cfg, s, first + second) == Exec(cfg, Exec(cfg, s, first), second)
    decreases |first|
  {
    RunConcat(cfg, s, first, second);
    if first == [] {
      assert first + second == second;
    } else {
      AlongConcat(cfg, Apply(cfg, s, first[0]), first[1..], second, ok);
      assert (first + second)[1..] == first[1..] + second;
    }
  }

  lemma AlongSnoc(cfg: Config, s: State, steps: seq<Step>, step: Step, ok: (State, Step) -> bool)
    requires Run(cfg, s, steps) && Along(cfg, s, steps, ok)
    requires Enabled(cfg, Exec(cfg, s, steps), step) && ok(Exec(cfg, s, steps), step)
    ensures Run(cfg, s, steps + [step]) && Along(cfg, s, steps + [step], ok)
    ensures Exec(cfg, s, steps + [step]) == Apply(cfg, Exec(cfg, s, steps), step)
  {
    var end := Exec(cfg, s, steps);
    assert Run(cfg, Apply(cfg, end, step), [step][1..]);
    assert Along(cfg, Apply(cfg, end, step), [step][1..], ok);
    AlongConcat(cfg, s, steps, [step], ok);
  }
}
