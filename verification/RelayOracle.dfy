/** One relay, no crash and no database error: where each row ends is decided by which of its publish attempts succeed,
    however claims are batched, whenever rows arrive and however slowly the clock moves. */
module RelayOracle {
  import opened Base
  import opened Outbox
  import opened Relays
  import opened RelayCounting
  import opened RelayLease

  /** oracle(id, k): the k-th attempt to publish row id succeeds. */
  type Oracle = (nat, nat) -> bool

  ghost function Following(oracle: Oracle): (State, Step) -> bool {
    (s, step) => Follows(oracle, s, step)
  }

  ghost predicate Follows(oracle: Oracle, s: State, step: Step) {
    && !step.Crash?
    && (step.Mark? ==>
          && step.applied
          && (Busy(s, step.r) ==>
                (s.relays[step.r].phase.Acked? <==> oracle(s.relays[step.r].batch[0].id, s.relays[step.r].batch[0].number))))
  }

  /** The first n attempts fail. */
  ghost predicate Fails(oracle: Oracle, id: nat, n: nat) {
    forall k :: 1 <= k <= n ==> !oracle(id, k)
  }

  ghost predicate OnCourse(cfg: Config, oracle: Oracle, id: nat, row: Row)
    requires cfg.maxAttempts > 0
  {
    var n := row.attempts;
    match row.status
    case Pending => n < cfg.maxAttempts && Fails(oracle, id, n)
    case Processing => 1 <= n <= cfg.maxAttempts && Fails(oracle, id, n - 1)
    case Sent => 1 <= n <= cfg.maxAttempts && Fails(oracle, id, n - 1) && oracle(id, n)
    case Failed => n == cfg.maxAttempts && Fails(oracle, id, n)
  }

  ghost predicate AllOnCourse(cfg: Config, oracle: Oracle, rows: Table)
    requires cfg.maxAttempts > 0
  {
    forall id :: id in rows ==> OnCourse(cfg, oracle, id, rows[id])
  }

  /** No row is being processed without its holder. */
  ghost predicate NoOrphans(rows: Table, batch: seq<Lease>) {
    forall id :: id in rows && rows[id].status.Processing? ==> Lease(id, rows[id].attempts) in batch
  }

  ghost predicate Undisturbed(cfg: Config, oracle: Oracle, s: State, r: nat)
    requires cfg.maxAttempts > 0
  {
    && s.relays.Keys == {r}
    && WellFormed(s) && Current(s)
    && NoOrphans(s.rows, s.relays[r].batch)
    && AllOnCourse(cfg, oracle, s.rows)
  }

  lemma NoOrphansStep(cfg: Config, s: State, step: Step, oracle: Oracle, r: nat)
    requires s.relays.Keys == {r} && WellFormed(s) && NoOrphans(s.rows, s.relays[r].batch)
    requires Enabled(cfg, s, step) && Follows(oracle, s, step)
    ensures NoOrphans(Apply(cfg, s, step).rows, Apply(cfg, s, step).relays[r].batch)
  {
    match step
    case Claim(_, ids, _) => NoOrphansClaim(cfg, s, r, ids);
    case Mark(_, _, at, message) => NoOrphansMark(cfg, s, r, at, message);
    case _ => NoneMoreProcessing(cfg, s, step, r);
  }

  lemma NoOrphansMark(cfg: Config, s: State, r: nat, at: int, message: string)
    requires WellFormed(s) && Busy(s, r) && NoOrphans(s.rows, s.relays[r].batch)
    ensures NoOrphans(ApplyMark(cfg, s, r, true, at, message).rows, ApplyMark(cfg, s, r, true, at, message).relays[r].batch)
  {
    var batch := s.relays[r].batch;
    assert batch == [batch[0]] + batch[1..];
    assert Issued(s.rows, batch[0]);
  }

  /** Only claims put rows into processing, and only marks and crashes let go of leases. */
  lemma NoneMoreProcessing(cfg: Config, s: State, step: Step, r: nat)
    requires Enabled(cfg, s, step) && s.relays.Keys == {r} && !step.Claim? && !step.Mark? && !step.Crash?
    ensures r in Apply(cfg, s, step).relays && Apply(cfg, s, step).relays[r].batch == s.relays[r].batch
    ensures forall id :: id in Apply(cfg, s, step).rows && Apply(cfg, s, step).rows[id].status.Processing? ==>
      id in s.rows && s.rows[id].status.Processing? && Apply(cfg, s, step).rows[id].attempts == s.rows[id].attempts
  {
  }

  lemma NoOrphansClaim(cfg: Config, s: State, r: nat, ids: seq<nat>)
    requires Idle(s, r) && NoOrphans(s.rows, []) && forall id :: id in ids ==> id in s.rows
    ensures NoOrphans(ApplyClaim(cfg, s, r, ids).rows, ApplyClaim(cfg, s, r, ids).relays[r].batch)
  {
    var s' := ApplyClaim(cfg, s, r, ids);
    forall id | id in s'.rows && s'.rows[id].status.Processing?
      ensures Lease(id, s'.rows[id].attempts) in s'.relays[r].batch
    {
      assert id in ids;
      var i :| 0 <= i < |ids| && ids[i] == id;
      assert s'.relays[r].batch[i] == Lease(id, s'.rows[id].attempts);
    }
  }

  lemma OnCourseStep(cfg: Config, s: State, step: Step, oracle: Oracle, r: nat)
    requires cfg.maxAttempts > 0 && Undisturbed(cfg, oracle, s, r)
    requires Enabled(cfg, s, step) && Follows(oracle, s, step)
    ensures AllOnCourse(cfg, oracle, Apply(cfg, s, step).rows)
  {
    var s' := Apply(cfg, s, step);
    forall id | id in s'.rows
      ensures OnCourse(cfg, oracle, id, s'.rows[id])
    {
      RowOnCourse(cfg, s, step, oracle, r, id);
    }
  }

  lemma RowOnCourse(cfg: Config, s: State, step: Step, oracle: Oracle, r: nat, id: nat)
    requires cfg.maxAttempts > 0 && s.relays.Keys == {r} && Current(s)
    requires NoOrphans(s.rows, s.relays[r].batch) && AllOnCourse(cfg, oracle, s.rows)
    requires Enabled(cfg, s, step) && Follows(oracle, s, step) && id in Apply(cfg, s, step).rows
    ensures OnCourse(cfg, oracle, id, Apply(cfg, s, step).rows[id])
  {
    assert id in s.rows ==> OnCourse(cfg, oracle, id, s.rows[id]);
    match step
    case Mark(_, _, _, _) => MarkOnCourse(cfg, s, step, oracle, r, id);
    case Claim(_, _, _) => ClaimOnCourse(cfg, s, step, oracle, r, id);
    case Reset(_) => ResetOnCourse(cfg, s, oracle, r, id);
    case _ =>
  }

  lemma MarkOnCourse(cfg: Config, s: State, step: Step, oracle: Oracle, r: nat, id: nat)
    requires cfg.maxAttempts > 0 && step.Mark? && s.relays.Keys == {r} && Current(s)
    requires Enabled(cfg, s, step) && Follows(oracle, s, step) && id in s.rows && OnCourse(cfg, oracle, id, s.rows[id])
    ensures id in Apply(cfg, s, step).rows && OnCourse(cfg, oracle, id, Apply(cfg, s, step).rows[id])
  {
    assert Holds(s.rows, s.relays[r].batch[0]);
  }

  lemma ClaimOnCourse(cfg: Config, s: State, step: Step, oracle: Oracle, r: nat, id: nat)
    requires cfg.maxAttempts > 0 && step.Claim?
    requires Enabled(cfg, s, step) && id in s.rows && OnCourse(cfg, oracle, id, s.rows[id])
    ensures id in Apply(cfg, s, step).rows && OnCourse(cfg, oracle, id, Apply(cfg, s, step).rows[id])
  {
  }

  /** The relay is idle, so nothing is being processed. */
  lemma ResetOnCourse(cfg: Config, s: State, oracle: Oracle, r: nat, id: nat)
    requires cfg.maxAttempts > 0 && Idle(s, r) && NoOrphans(s.rows, s.relays[r].batch)
    requires id in s.rows && OnCourse(cfg, oracle, id, s.rows[id])
    ensures id in ApplyReset(cfg, s).rows && OnCourse(cfg, oracle, id, ApplyReset(cfg, s).rows[id])
  {
  }

  lemma {:induction false} UndisturbedRun(cfg: Config, oracle: Oracle, s: State, steps: seq<Step>, r: nat)
    requires cfg.maxAttempts > 0 && Undisturbed(cfg, oracle, s, r)
    requires Run(cfg, s, steps) && Along(cfg, s, steps, Following(oracle))
    ensures Undisturbed(cfg, oracle, Exec(cfg, s, steps), r)
    decreases |steps|
  {
    if steps != [] {
      OneRelayRespects(cfg, s, steps[0], r);
      WellFormedStep(cfg, s, steps[0]);
      CurrentStep(cfg, s, steps[0]);
      NoOrphansStep(cfg, s, steps[0], oracle, r);
      OnCourseStep(cfg, s, steps[0], oracle, r);
      UndisturbedRun(cfg, oracle, Apply(cfg, s, steps[0]), steps[1..], r);
    }
  }

  /** Sent at the first success among the first maxAttempts, failed after maxAttempts if there is none. */
  ghost predicate Verdict(cfg: Config, oracle: Oracle, id: nat, status: Status, attempts: nat) {
    if exists k :: 1 <= k <= cfg.maxAttempts && oracle(id, k)
    then status.Sent? && 1 <= attempts <= cfg.maxAttempts && oracle(id, attempts) && Fails(oracle, id, attempts - 1)
    else status.Failed? && attempts == cfg.maxAttempts
  }

  ghost function ClaimingTicks(steps: seq<Step>): nat {
    if steps == [] then 0
    else (if steps[0].Claim? && steps[0].ids != [] then 1 else 0) + ClaimingTicks(steps[1..])
  }

  /** Every row that has ended carries the oracle's verdict, and once the relay is idle after N * maxAttempts claiming
      ticks, N being the number of rows, every row has ended. */
  lemma OracleDecides(cfg: Config, oracle: Oracle, r: nat, steps: seq<Step>, n: nat)
    requires cfg.maxAttempts > 0
    requires Run(cfg, Initial({r}), steps) && Along(cfg, Initial({r}), steps, Following(oracle))
    requires forall id :: id in Exec(cfg, Initial({r}), steps).rows ==> id < n
    ensures
      var end := Exec(cfg, Initial({r}), steps);
      && (forall id :: id in end.rows && end.rows[id].status.Terminal() ==>
            Verdict(cfg, oracle, id, end.rows[id].status, end.rows[id].attempts))
      && (Idle(end, r) && ClaimingTicks(steps) >= cfg.maxAttempts * |end.rows| ==>
            forall id :: id in end.rows ==> end.rows[id].status.Terminal())
  {
    var end := Exec(cfg, Initial({r}), steps);
    UndisturbedRun(cfg, oracle, Initial({r}), steps, r);
    if Idle(end, r) && ClaimingTicks(steps) >= cfg.maxAttempts * |end.rows| {
      Exhausted(cfg, oracle, r, steps, n);
    }
  }

  ghost function AttemptsFor(rows: Table, ids: set<nat>): map<nat, int> {
    map id | id in ids :: if id in rows then rows[id].attempts else 0
  }

  lemma Exhausted(cfg: Config, oracle: Oracle, r: nat, steps: seq<Step>, n: nat)
    requires cfg.maxAttempts > 0
    requires Run(cfg, Initial({r}), steps)
    requires Undisturbed(cfg, oracle, Exec(cfg, Initial({r}), steps), r) && Idle(Exec(cfg, Initial({r}), steps), r)
    requires forall id :: id in Exec(cfg, Initial({r}), steps).rows ==> id < n
    requires ClaimingTicks(steps) >= cfg.maxAttempts * |Exec(cfg, Initial({r}), steps).rows|
    ensures forall id :: id in Exec(cfg, Initial({r}), steps).rows ==> Exec(cfg, Initial({r}), steps).rows[id].status.Terminal()
  {
    var end := Exec(cfg, Initial({r}), steps);
    TicksRaise(cfg, Initial({r}), steps, end.rows.Keys, n);
    SumToNonNegative(AttemptsFor(map[], end.rows.Keys), n);
    UsedUp(cfg, oracle, end.rows, n);
  }

  /** When the attempts of all rows add up to the most they can, every row has ended. */
  lemma UsedUp(cfg: Config, oracle: Oracle, rows: Table, n: nat)
    requires cfg.maxAttempts > 0 && AllOnCourse(cfg, oracle, rows) && NoOrphans(rows, [])
    requires forall id :: id in rows ==> id < n
    requires SumTo(AttemptsFor(rows, rows.Keys), n) >= cfg.maxAttempts * |rows|
    ensures forall id :: id in rows ==> rows[id].status.Terminal()
  {
    var attempts := AttemptsFor(rows, rows.Keys);
    assert attempts.Keys == rows.Keys;
    assert |attempts| == |attempts.Keys| == |rows.Keys| == |rows|;
    forall id | id in attempts
      ensures id < n && attempts[id] <= cfg.maxAttempts
    {
      assert OnCourse(cfg, oracle, id, rows[id]);
    }
    SumToTight(attempts, n, cfg.maxAttempts);
    forall id | id in rows
      ensures rows[id].status.Terminal()
    {
      assert attempts[id] == cfg.maxAttempts && OnCourse(cfg, oracle, id, rows[id]);
    }
  }

  lemma {:induction false} TicksRaise(cfg: Config, s: State, steps: seq<Step>, ids: set<nat>, n: nat)
    requires Run(cfg, s, steps) && Exec(cfg, s, steps).rows.Keys == ids && forall id :: id in ids ==> id < n
    ensures SumTo(AttemptsFor(Exec(cfg, s, steps).rows, ids), n) >= SumTo(AttemptsFor(s.rows, ids), n) + ClaimingTicks(steps)
    decreases |steps|
  {
    if steps != [] {
      TickRaises(cfg, s, steps, ids, n);
      TicksRaise(cfg, Apply(cfg, s, steps[0]), steps[1..], ids, n);
    }
  }

  lemma TickRaises(cfg: Config, s: State, steps: seq<Step>, ids: set<nat>, n: nat)
    requires steps != [] && Run(cfg, s, steps) && Exec(cfg, s, steps).rows.Keys == ids && forall id :: id in ids ==> id < n
    ensures SumTo(AttemptsFor(Apply(cfg, s, steps[0]).rows, ids), n)
              >= SumTo(AttemptsFor(s.rows, ids), n) + if steps[0].Claim? && steps[0].ids != [] then 1 else 0
  {
    var step := steps[0];
    if step.Claim? && step.ids != [] {
      KeysRemain(cfg, s, steps);
      ClaimRaises(s.rows, step.ids, s.now, ids, n);
    } else {
      GrowsStep(cfg, s, step);
      SumToMonotone(AttemptsFor(s.rows, ids), AttemptsFor(Apply(cfg, s, step).rows, ids), n);
    }
  }

  lemma ClaimRaises(rows: Table, picked: seq<nat>, now: int, ids: set<nat>, n: nat)
    requires picked != [] && rows.Keys <= ids && (forall id :: id in picked ==> id in rows) && forall id :: id in ids ==> id < n
    ensures SumTo(AttemptsFor(TakeAll(rows, picked, now), ids), n) >= SumTo(AttemptsFor(rows, ids), n) + 1
  {
    SumToPicked(AttemptsFor(rows, ids), AttemptsFor(TakeAll(rows, picked, now), ids), Elements(picked), n);
    assert picked[0] in Elements(picked);
  }

  lemma {:induction false} KeysRemain(cfg: Config, s: State, steps: seq<Step>)
    requires Run(cfg, s, steps)
    ensures s.rows.Keys <= Exec(cfg, s, steps).rows.Keys
    decreases |steps|
  {
    if steps != [] {
      GrowsStep(cfg, s, steps[0]);
      KeysRemain(cfg, Apply(cfg, s, steps[0]), steps[1..]);
    }
  }
}
