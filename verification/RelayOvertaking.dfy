/** The lease bound is exact: as soon as the processing timeout is shorter than the longest lease, two punctual relays
    without any database error can overwrite a sent row. */
module RelayOvertaking {
  import opened Base
  import opened Outbox
  import opened Tickets
  import opened Relays
  import opened RelayCounting
  import opened RelayLease
  import opened RelaySmooth

  function Name(n: nat): (name: string)
    ensures |name| == n
  {
    seq(n, _ => 'x')
  }

  /** n due rows, of which row 0 has been claimed this often before, and idle relays. */
  ghost predicate Populated(s: State, relays: set<nat>, n: nat, attempts: nat) {
    && s.relays.Keys == relays && (forall r :: r in s.relays ==> s.relays[r].batch == [])
    && (forall t :: t in s.tickets ==> |t| < n)
    && (forall id: nat :: id in s.rows <==> id < n)
    && (forall id :: id in s.rows ==> Due(s.rows[id], s.now) && |s.rows[id].fields.eventId| == id)
    && (0 in s.rows ==> s.rows[0].attempts == attempts)
  }

  lemma {:induction false} Populate(cfg: Config, s: State, relays: set<nat>, n: nat, attempts: nat) returns (steps: seq<Step>)
    requires n >= 1 && Populated(s, relays, 1, attempts)
    ensures Smoothly(cfg, s, steps) && Populated(Exec(cfg, s, steps), relays, n, attempts)
  {
    steps := [];
    if n > 1 {
      steps := Populate(cfg, s, relays, n - 1, attempts);
      var create := Create(Ticket(Name(n - 1), "", "", "open", 0, 0), "", n - 1, Name(n - 1));
      CreateNext(cfg, Exec(cfg, s, steps), relays, n - 1, attempts, create);
      Then(cfg, s, steps, create);
      steps := steps + [create];
    }
  }

  lemma CreateNext(cfg: Config, s: State, relays: set<nat>, n: nat, attempts: nat, create: Step)
    requires n >= 1 && Populated(s, relays, n, attempts)
    requires create == Create(Ticket(Name(n), "", "", "open", 0, 0), "", n, Name(n))
    ensures Enabled(cfg, s, create) && Populated(Apply(cfg, s, create), relays, n + 1, attempts)
  {
    assert Fresh(s.tickets, s.rows, Name(n), n, Name(n));
  }

  /** A holder publishes its first row at once and marks it sent. */
  lemma Publish(cfg: Config, s: State, r: nat) returns (steps: seq<Step>)
    requires WellFormed(s) && Busy(s, r) && s.relays[r].phase.Unsent?
    ensures Smoothly(cfg, s, steps)
    ensures
      var end := Exec(cfg, s, steps);
      var id := s.relays[r].batch[0].id;
      && id in s.rows
      && end.now == s.now
      && end.rows == s.rows[id := SetSent(s.rows[id], s.now)]
      && end.relays == s.relays[r := Relay(s.relays[r].batch[1..], Unsent, s.now, s.now + cfg.iteration)]
  {
    var write := Write(r, true, true, false);
    var mark := Mark(r, true, s.now, "");
    assert Issued(s.rows, s.relays[r].batch[0]);
    assert Exec(cfg, s, []) == s;
    Then(cfg, s, [], write);
    assert [] + [write] == [write];
    Then(cfg, s, [write], mark);
    steps := [write] + [mark];
  }

  /** Only relay r holds leases; every row outside its batch is sent. */
  ghost predicate Alone(s: State, r: nat) {
    && Busy(s, r)
    && (forall q :: q in s.relays && q != r ==> s.relays[q].batch == [])
    && s.relays[r].phase.Unsent?
    && s.relays[r].since <= s.now <= s.relays[r].deadline
    && (forall id :: id in s.rows && !s.rows[id].status.Sent? ==> exists i :: 0 <= i < |s.relays[r].batch| && s.relays[r].batch[i].id == id)
    && (forall i, j :: 0 <= i < j < |s.relays[r].batch| ==> s.relays[r].batch[i].id != s.relays[r].batch[j].id)
  }

  /** The holder takes its full time for every row but the last. */
  lemma {:induction false} Drain(cfg: Config, s: State, r: nat) returns (steps: seq<Step>)
    requires WellFormed(s) && Alone(s, r)
    ensures Smoothly(cfg, s, steps)
    ensures
      var end := Exec(cfg, s, steps);
      var last := s.relays[r].batch[|s.relays[r].batch| - 1];
      && WellFormed(end) && Alone(end, r) && end.relays.Keys == s.relays.Keys
      && end.relays[r].batch == [last]
      && end.relays[r].deadline == s.relays[r].deadline + Times(|s.relays[r].batch| - 1, cfg.iteration)
      && last.id in s.rows && last.id in end.rows && end.rows[last.id] == s.rows[last.id]
    decreases |s.relays[r].batch|
  {
    steps := [];
    var batch := s.relays[r].batch;
    assert Issued(s.rows, batch[|batch| - 1]);
    if |batch| == 1 {
      assert batch == [batch[0]];
    } else {
      var turn := FullTurn(cfg, s, r);
      var mid := Exec(cfg, s, turn);
      assert mid.relays[r].batch[|batch| - 2] == batch[|batch| - 1];
      var rest := Drain(cfg, mid, r);
      Join(cfg, s, turn, rest);
      steps := turn + rest;
    }
  }

  /** Relay r has dealt with the first of several rows; the rows of the others are as they were. */
  ghost predicate OneDown(cfg: Config, s: State, end: State, r: nat) {
    && Alone(s, r) && |s.relays[r].batch| > 1
    && Alone(end, r) && end.relays.Keys == s.relays.Keys
    && end.relays[r].batch == s.relays[r].batch[1..]
    && end.relays[r].deadline == s.relays[r].deadline + cfg.iteration
    && var last := s.relays[r].batch[|s.relays[r].batch| - 1].id;
       last in s.rows && last in end.rows && end.rows[last] == s.rows[last]
  }

  lemma FullTurn(cfg: Config, s: State, r: nat) returns (steps: seq<Step>)
    requires WellFormed(s) && Alone(s, r) && |s.relays[r].batch| > 1
    ensures Smoothly(cfg, s, steps) && WellFormed(Exec(cfg, s, steps)) && OneDown(cfg, s, Exec(cfg, s, steps), r)
  {
    var wait := Advance(s.relays[r].deadline);
    var late := WaitOut(cfg, s, r);
    var publish := Publish(cfg, late, r);
    Join(cfg, s, [wait], publish);
    steps := [wait] + publish;
    WellFormedRun(cfg, late, publish);
    TurnEnd(cfg, s, Exec(cfg, s, steps), r);
  }

  lemma TurnEnd(cfg: Config, s: State, end: State, r: nat)
    requires WellFormed(s) && Alone(s, r) && |s.relays[r].batch| > 1 && s.relays[r].batch[0].id in s.rows
    requires end.now == s.relays[r].deadline
    requires end.rows == s.rows[s.relays[r].batch[0].id := SetSent(s.rows[s.relays[r].batch[0].id], end.now)]
    requires end.relays == s.relays[r := Relay(s.relays[r].batch[1..], Unsent, end.now, end.now + cfg.iteration)]
    ensures OneDown(cfg, s, end, r)
  {
    assert Issued(s.rows, s.relays[r].batch[|s.relays[r].batch| - 1]);
    StillAlone(cfg, s, end, r, end.now);
  }

  lemma WaitOut(cfg: Config, s: State, r: nat) returns (late: State)
    requires WellFormed(s) && Alone(s, r) && s.relays[r].batch != []
    ensures late == s.(now := s.relays[r].deadline) && WellFormed(late)
    ensures Smoothly(cfg, s, [Advance(s.relays[r].deadline)]) && Exec(cfg, s, [Advance(s.relays[r].deadline)]) == late
  {
    var wait := Advance(s.relays[r].deadline);
    assert Exec(cfg, s, []) == s;
    Then(cfg, s, [], wait);
    assert [] + [wait] == [wait];
    WellFormedStep(cfg, s, wait);
    late := Apply(cfg, s, wait);
  }

  lemma StillAlone(cfg: Config, s: State, end: State, r: nat, t: int)
    requires Alone(s, r) && |s.relays[r].batch| > 1 && s.relays[r].batch[0].id in s.rows
    requires end.rows == s.rows[s.relays[r].batch[0].id := SetSent(s.rows[s.relays[r].batch[0].id], t)]
    requires end.relays == s.relays[r := Relay(s.relays[r].batch[1..], Unsent, end.now, end.now + cfg.iteration)]
    ensures Alone(end, r)
  {
    var batch := s.relays[r].batch;
    forall id | id in end.rows && !end.rows[id].status.Sent?
      ensures exists i :: 0 <= i < |end.relays[r].batch| && end.relays[r].batch[i].id == id
    {
      var i :| 0 <= i < |batch| && batch[i].id == id;
      assert end.relays[r].batch[i - 1].id == id;
    }
  }

  /** A second relay resets the last row, claims it and publishes it, all while the first still holds it. */
  lemma Overtake(cfg: Config, s: State, a: nat, b: nat) returns (steps: seq<Step>)
    requires WellFormed(s) && Alone(s, a) && |s.relays[a].batch| == 1 && b != a && b in s.relays
    requires Started(s.rows, s.relays[a].batch[0].id)
    requires s.relays[a].deadline > s.rows[s.relays[a].batch[0].id].startedAt.value + Timeout(cfg.processingTimeout)
    ensures Smoothly(cfg, s, steps)
    ensures
      var end := Exec(cfg, s, steps);
      && end.relays.Keys == s.relays.Keys
      && end.relays[a] == s.relays[a]
      && s.relays[a].batch[0].id in end.rows && end.rows[s.relays[a].batch[0].id].status.Sent?
      && end.history.Keys == end.rows.Keys
      && s.relays[a].since <= end.now
  {
    var retake := Retake(cfg, s, a, b);
    var taken := Exec(cfg, s, retake);
    WellFormedRun(cfg, s, retake);
    var publish := Publish(cfg, taken, b);
    Join(cfg, s, retake, publish);
    steps := retake + publish;
    WellFormedRun(cfg, s, steps);
  }

  lemma Retake(cfg: Config, s: State, a: nat, b: nat) returns (steps: seq<Step>)
    requires Alone(s, a) && |s.relays[a].batch| == 1 && b != a && b in s.relays
    requires Started(s.rows, s.relays[a].batch[0].id)
    requires s.relays[a].deadline > s.rows[s.relays[a].batch[0].id].startedAt.value + Timeout(cfg.processingTimeout)
    ensures Smoothly(cfg, s, steps)
    ensures
      var end := Exec(cfg, s, steps);
      && end.relays.Keys == s.relays.Keys
      && end.relays[a] == s.relays[a]
      && Busy(end, b) && end.relays[b].phase.Unsent? && end.relays[b].batch[0].id == s.relays[a].batch[0].id
      && s.relays[a].batch[0].id in end.rows
      && end.rows[s.relays[a].batch[0].id].attempts == s.rows[s.relays[a].batch[0].id].attempts + 1
      && s.relays[a].since <= end.now
  {
    var id := s.relays[a].batch[0].id;
    var wait, reset, claim := Advance(s.relays[a].deadline), Reset(b), Claim(b, [id], {});
    assert Exec(cfg, s, []) == s;
    Then(cfg, s, [], wait);
    assert [] + [wait] == [wait];
    var late := Apply(cfg, s, wait);
    Then(cfg, s, [wait], reset);
    var freed := Apply(cfg, late, reset);
    OnlyOneDue(cfg, late, freed, id);
    Then(cfg, s, [wait] + [reset], claim);
    steps := [wait] + [reset] + [claim];
    assert Apply(cfg, freed, claim).relays[b].batch[0].id == id;
  }

  ghost predicate Started(rows: Table, id: nat) {
    id in rows && rows[id].status.Processing? && rows[id].startedAt.Some?
  }

  lemma OnlyOneDue(cfg: Config, late: State, freed: State, id: nat)
    requires freed == ApplyReset(cfg, late)
    requires id in late.rows && Stuck(late.rows[id], late.now, Timeout(cfg.processingTimeout))
    requires forall other :: other in late.rows && other != id ==> late.rows[other].status.Sent?
    ensures Selects(freed.rows, freed.now, Limit(cfg.batchSize), {}, [id])
  {
    assert DueIds(freed.rows, freed.now) == {id};
    assert Elements([id]) == {id} by { assert id in [id]; }
  }

  /** The first holder's publishing fails, and its mark lands on the row the second has sent. */
  lemma StaleMark(cfg: Config, s: State, a: nat) returns (more: seq<Step>)
    requires Busy(s, a) && s.relays[a].phase.Unsent? && s.relays[a].since <= s.now && s.history.Keys == s.rows.Keys
    requires s.relays[a].batch[0].id in s.rows && s.rows[s.relays[a].batch[0].id].status.Sent?
    ensures Smoothly(cfg, s, more) && !KeepsEnded(s.rows, Exec(cfg, s, more).rows)
  {
    var id := s.relays[a].batch[0].id;
    var write, mark := Write(a, false, false, false), Mark(a, true, s.now, "");
    assert Exec(cfg, s, []) == s;
    Then(cfg, s, [], write);
    assert [] + [write] == [write];
    Then(cfg, s, [write], mark);
    more := [write] + [mark];
    var end := Exec(cfg, s, more);
    assert id in end.rows && !end.rows[id].status.Sent?;
  }

  /** A full batch, just claimed; the last of it is row 0. */
  ghost predicate Loaded(cfg: Config, s: State, a: nat, attempts: nat) {
    && Alone(s, a)
    && |s.relays[a].batch| == Limit(cfg.batchSize)
    && s.relays[a].batch[|s.relays[a].batch| - 1].id == 0
    && Started(s.rows, 0) && s.rows[0].attempts == attempts
    && s.relays[a].deadline == s.rows[0].startedAt.value + cfg.latency + cfg.iteration
  }

  lemma FillAndClaim(cfg: Config, relays: set<nat>, a: nat, attempts: nat) returns (steps: seq<Step>)
    requires a in relays && (cfg.maxAttempts > 0 ==> attempts < cfg.maxAttempts)
    ensures Smoothly(cfg, Initial(relays), steps)
    ensures
      var end := Exec(cfg, Initial(relays), steps);
      WellFormed(end) && end.relays.Keys == relays && Loaded(cfg, end, a, attempts + 1)
  {
    var fail := FailOften(cfg, relays, a, attempts);
    var one := Exec(cfg, Initial(relays), fail);
    assert Populated(one, relays, 1, attempts);
    var fill := Populate(cfg, one, relays, Limit(cfg.batchSize), attempts);
    Join(cfg, Initial(relays), fail, fill);
    var claim := ClaimFull(cfg, Exec(cfg, one, fill), relays, a, attempts);
    Then(cfg, Initial(relays), fail + fill, claim);
    steps := (fail + fill) + [claim];
    WellFormedRun(cfg, Initial(relays), steps);
  }

  lemma ClaimFull(cfg: Config, s: State, relays: set<nat>, a: nat, attempts: nat) returns (claim: Step)
    requires a in relays && Populated(s, relays, Limit(cfg.batchSize), attempts)
    ensures claim.Claim? && Enabled(cfg, s, claim)
    ensures Apply(cfg, s, claim).relays.Keys == relays && Loaded(cfg, Apply(cfg, s, claim), a, attempts + 1)
  {
    var n := Limit(cfg.batchSize);
    var ids: seq<nat> := seq(n, i requires 0 <= i < n => n - 1 - i);
    claim := ClaimBackwards(cfg, s, relays, a, attempts, ids);
    LoadedAfter(cfg, s, relays, a, attempts, ids);
  }

  lemma ClaimBackwards(cfg: Config, s: State, relays: set<nat>, a: nat, attempts: nat, ids: seq<nat>) returns (claim: Step)
    requires a in relays && Populated(s, relays, |ids|, attempts) && |ids| == Limit(cfg.batchSize)
    requires forall i :: 0 <= i < |ids| ==> ids[i] == |ids| - 1 - i
    ensures claim == Claim(a, ids, {}) && Enabled(cfg, s, claim)
    ensures forall id :: id in ids ==> id in s.rows
  {
    forall id | id in s.rows
      ensures id in ids
    {
      assert ids[|ids| - 1 - id] == id;
    }
    claim := Claim(a, ids, {});
  }

  lemma LoadedAfter(cfg: Config, s: State, relays: set<nat>, a: nat, attempts: nat, ids: seq<nat>)
    requires a in relays && Populated(s, relays, |ids|, attempts) && |ids| == Limit(cfg.batchSize)
    requires (forall i :: 0 <= i < |ids| ==> ids[i] == |ids| - 1 - i) && forall id :: id in ids ==> id in s.rows
    ensures Loaded(cfg, ApplyClaim(cfg, s, a, ids), a, attempts + 1)
  {
    var end := ApplyClaim(cfg, s, a, ids);
    forall id | id in end.rows
      ensures exists i :: 0 <= i < |end.relays[a].batch| && end.relays[a].batch[i].id == id
    {
      assert end.relays[a].batch[|ids| - 1 - id].id == id;
    }
    assert ids[|ids| - 1] in ids;
  }

  /** Relay a is late with row 0, the last of its batch: the row counts as stuck before a has to be done with it. */
  ghost predicate Late(cfg: Config, s: State, a: nat, attempts: nat) {
    && WellFormed(s) && Alone(s, a) && |s.relays[a].batch| == 1 && s.relays[a].batch[0].id == 0
    && Started(s.rows, 0) && s.rows[0].attempts == attempts
    && s.relays[a].deadline > s.rows[0].startedAt.value + Timeout(cfg.processingTimeout)
  }

  /** Below the bound a smooth run makes a relay late. */
  lemma FallBehind(cfg: Config, relays: set<nat>, a: nat, attempts: nat) returns (steps: seq<Step>)
    requires a in relays && Timeout(cfg.processingTimeout) < LongestLease(cfg)
    requires cfg.maxAttempts > 0 ==> attempts < cfg.maxAttempts
    ensures Smoothly(cfg, Initial(relays), steps)
    ensures Late(cfg, Exec(cfg, Initial(relays), steps), a, attempts + 1) && Exec(cfg, Initial(relays), steps).relays.Keys == relays
  {
    var claim := FillAndClaim(cfg, relays, a, attempts);
    var taken := Exec(cfg, Initial(relays), claim);
    var drain := Drain(cfg, taken, a);
    TimesProduct(Limit(cfg.batchSize) - 1, cfg.iteration);
    OneMore(Limit(cfg.batchSize) - 1, Limit(cfg.batchSize), cfg.iteration);
    Join(cfg, Initial(relays), claim, drain);
    steps := claim + drain;
  }

  /** Two relays, no crash, no database error and nobody late: a stale mark changes a sent row. */
  lemma Counterexample(cfg: Config, relays: set<nat>, a: nat, b: nat) returns (steps: seq<Step>, more: seq<Step>)
    requires a in relays && b in relays && a != b
    requires Timeout(cfg.processingTimeout) < LongestLease(cfg)
    ensures Smoothly(cfg, Initial(relays), steps)
    ensures Smoothly(cfg, Exec(cfg, Initial(relays), steps), more)
    ensures !KeepsEnded(Exec(cfg, Initial(relays), steps).rows, Exec(cfg, Exec(cfg, Initial(relays), steps), more).rows)
  {
    var behind := FallBehind(cfg, relays, a, 0);
    var late := Exec(cfg, Initial(relays), behind);
    var overtake := Overtake(cfg, late, a, b);
    Join(cfg, Initial(relays), behind, overtake);
    steps := behind + overtake;
    more := StaleMark(cfg, Exec(cfg, late, overtake), a);
  }

  ghost predicate EndedRowsStay(cfg: Config, relays: set<nat>) {
    forall steps, more :: Timed(cfg, Initial(relays), steps) && Timed(cfg, Exec(cfg, Initial(relays), steps), more) ==>
      KeepsEnded(Exec(cfg, Initial(relays), steps).rows, Exec(cfg, Exec(cfg, Initial(relays), steps), more).rows)
  }

  ghost predicate EndedRowsStaySmoothly(cfg: Config, relays: set<nat>) {
    forall steps, more :: Smoothly(cfg, Initial(relays), steps) && Smoothly(cfg, Exec(cfg, Initial(relays), steps), more) ==>
      KeepsEnded(Exec(cfg, Initial(relays), steps).rows, Exec(cfg, Exec(cfg, Initial(relays), steps), more).rows)
  }

  lemma LastingKeepsEnded(cfg: Config, relays: set<nat>, r: nat, steps: seq<Step>, more: seq<Step>)
    requires r in relays && LeasesLast(cfg, relays)
    requires Timed(cfg, Initial(relays), steps) && Timed(cfg, Exec(cfg, Initial(relays), steps), more)
    ensures KeepsEnded(Exec(cfg, Initial(relays), steps).rows, Exec(cfg, Exec(cfg, Initial(relays), steps), more).rows)
  {
    if |relays| == 1 {
      Singleton(relays, r);
      OneRelaySafe(cfg, r, steps, more);
    } else {
      PunctualSafe(cfg, relays, steps, more);
    }
  }

  /** Sent and failed rows are final in every punctual run exactly when there is one relay or the processing timeout covers the
      longest lease; and it takes no crash and no database error to see it. */
  lemma LeaseBoundExact(cfg: Config, relays: set<nat>, r: nat)
    requires r in relays
    ensures EndedRowsStay(cfg, relays) <==> LeasesLast(cfg, relays)
    ensures EndedRowsStaySmoothly(cfg, relays) <==> LeasesLast(cfg, relays)
    ensures
      var timeout := if cfg.processingTimeout > 0 then cfg.processingTimeout else 30_000_000;
      var batchSize := if cfg.batchSize > 0 then cfg.batchSize else 50;
      LeasesLast(cfg, relays) <==> |relays| == 1 || timeout >= cfg.latency + batchSize * cfg.iteration
  {
    if LeasesLast(cfg, relays) {
      forall steps, more | Timed(cfg, Initial(relays), steps) && Timed(cfg, Exec(cfg, Initial(relays), steps), more)
        ensures KeepsEnded(Exec(cfg, Initial(relays), steps).rows, Exec(cfg, Exec(cfg, Initial(relays), steps), more).rows)
      {
        LastingKeepsEnded(cfg, relays, r, steps, more);
      }
      forall steps, more | Smoothly(cfg, Initial(relays), steps) && Smoothly(cfg, Exec(cfg, Initial(relays), steps), more)
        ensures KeepsEnded(Exec(cfg, Initial(relays), steps).rows, Exec(cfg, Exec(cfg, Initial(relays), steps), more).rows)
      {
        SmoothIsTimed(cfg, Initial(relays), steps);
        SmoothIsTimed(cfg, Exec(cfg, Initial(relays), steps), more);
      }
    } else {
      var other := Another(relays, r);
      var steps, more := Counterexample(cfg, relays, r, other);
      SmoothIsTimed(cfg, Initial(relays), steps);
      SmoothIsTimed(cfg, Exec(cfg, Initial(relays), steps), more);
    }
  }

  /** The same for the limit on attempts: in smooth runs it holds exactly when it is a limit at all and leases last. */
  lemma LimitExact(cfg: Config, relays: set<nat>, r: nat)
    requires r in relays
    ensures LimitKept(cfg, relays) <==> cfg.maxAttempts > 0 && LeasesLast(cfg, relays)
  {
    if cfg.maxAttempts <= 0 {
      var steps := FailOften(cfg, relays, r, 1);
      assert 0 in Exec(cfg, Initial(relays), steps).rows;
    } else if LeasesLast(cfg, relays) {
      forall steps, id | Smoothly(cfg, Initial(relays), steps) && id in Exec(cfg, Initial(relays), steps).rows
        ensures Exec(cfg, Initial(relays), steps).rows[id].attempts <= cfg.maxAttempts
      {
        SmoothLimit(cfg, relays, steps, id);
      }
    } else {
      var other := Another(relays, r);
      var behind := FallBehind(cfg, relays, r, cfg.maxAttempts - 1);
      var late := Exec(cfg, Initial(relays), behind);
      var retake := Retake(cfg, late, r, other);
      Join(cfg, Initial(relays), behind, retake);
      assert 0 in Exec(cfg, Initial(relays), behind + retake).rows;
    }
  }

  /** A turn of the loop may wait for two topic writes of 5 seconds each, and for as many dead-letter writes if there is a
      topic for them; by default there is none. */
  const TWO_WRITES: int := 2 * 5 * SECOND

  /** The default settings, cmd/outbox-relay/main.go:41-44, do not meet the bound: a batch may be held for at least 500 seconds,
      a row counts as stuck after 30. So with two relays or more neither property holds. */
  lemma DefaultsOverwrite(relays: set<nat>, latency: nat, iteration: nat, extra: nat)
    requires |relays| >= 2 && iteration >= TWO_WRITES
    ensures !EndedRowsStaySmoothly(Config(10, 50, 30 * SECOND, latency, iteration, extra), relays)
    ensures !LimitKept(Config(10, 50, 30 * SECOND, latency, iteration, extra), relays)
  {
    var r :| r in relays;
    LeaseBoundExact(Config(10, 50, 30 * SECOND, latency, iteration, extra), relays, r);
    LimitExact(Config(10, 50, 30 * SECOND, latency, iteration, extra), relays, r);
  }
}
