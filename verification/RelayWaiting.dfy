/** How often a due row can be passed over while older rows keep coming back. */
module RelayWaiting {
  import opened Base
  import opened Outbox
  import opened Relays
  import opened RelayCounting
  import opened RelayLease

  /** A claim that could have taken the row, and did not. */
  ghost predicate Missed(s: State, step: Step, id: nat) {
    step.Claim? && id in s.rows && Due(s.rows[id], s.now) && id !in step.locked && id !in step.ids
  }

  ghost function MissedClaims(cfg: Config, s: State, steps: seq<Step>, id: nat): nat
    requires Run(cfg, s, steps)
    decreases |steps|
  {
    if steps == [] then 0
    else (if Missed(s, steps[0], id) then 1 else 0) + MissedClaims(cfg, Apply(cfg, s, steps[0]), steps[1..], id)
  }

  /** Every row that may be taken before row id, which was created at `created`, belongs to `rivals`.
      When sent and failed rows are known to be final they need not belong to it. */
  ghost predicate Rivals(rows: Table, id: nat, created: int, rivals: set<nat>, final: bool) {
    && id in rows && rows[id].fields.createdAt == created
    && rivals <= rows.Keys
    && forall o :: o in rows && o != id && o !in rivals ==>
         rows[o].fields.createdAt > created || (final && rows[o].status.Terminal())
  }

  ghost function AttemptsOf(rows: Table, rivals: set<nat>): map<nat, int> {
    map o | o in rivals && o in rows :: rows[o].attempts
  }

  lemma MissedPicksRivals(cfg: Config, s: State, step: Step, id: nat, created: int, rivals: set<nat>, final: bool)
    requires Rivals(s.rows, id, created, rivals, final)
    requires Enabled(cfg, s, step) && Missed(s, step, id)
    ensures |step.ids| == Limit(cfg.batchSize) && Elements(step.ids) <= rivals
  {
    assert id !in Elements(step.ids) && id in DueIds(s.rows, s.now) - step.locked;
  }

  lemma RivalsStep(cfg: Config, s: State, step: Step, id: nat, created: int, rivals: set<nat>, final: bool)
    requires Rivals(s.rows, id, created, rivals, final) && s.now > created
    requires final ==> Current(s)
    requires Enabled(cfg, s, step)
    ensures Rivals(Apply(cfg, s, step).rows, id, created, rivals, final) && Apply(cfg, s, step).now > created
  {
    var s' := Apply(cfg, s, step);
    GrowsStep(cfg, s, step);
    NewRows(cfg, s, step);
    if final {
      AllowedStep(cfg, s, step);
      RivalsKept(s.rows, s'.rows, id, created, rivals, s.now);
    }
  }

  lemma NewRows(cfg: Config, s: State, step: Step)
    requires Enabled(cfg, s, step)
    ensures Apply(cfg, s, step).now >= s.now
    ensures forall o :: o in Apply(cfg, s, step).rows && o !in s.rows ==> Apply(cfg, s, step).rows[o].fields.createdAt == s.now
  {
  }

  lemma RivalsKept(rows: Table, rows': Table, id: nat, created: int, rivals: set<nat>, now: int)
    requires Rivals(rows, id, created, rivals, true) && Grows(rows, rows') && now > created
    requires forall o :: o in rows' && o !in rows ==> rows'[o].fields.createdAt == now
    requires forall o :: o in rows ==> Allowed(rows[o], rows'[o])
    ensures Rivals(rows', id, created, rivals, true)
  {
  }

  lemma StepCost(cfg: Config, s: State, step: Step, id: nat, created: int, rivals: set<nat>, n: nat, final: bool)
    requires Rivals(s.rows, id, created, rivals, final) && Enabled(cfg, s, step)
    requires forall o :: o in rivals ==> o < n
    ensures SumTo(AttemptsOf(Apply(cfg, s, step).rows, rivals), n)
              >= SumTo(AttemptsOf(s.rows, rivals), n) + if Missed(s, step, id) then Limit(cfg.batchSize) else 0
  {
    if Missed(s, step, id) {
      MissedPicksRivals(cfg, s, step, id, created, rivals, final);
      ClaimCosts(s.rows, step.ids, s.now, rivals, n);
    } else {
      GrowsStep(cfg, s, step);
      SumToMonotone(AttemptsOf(s.rows, rivals), AttemptsOf(Apply(cfg, s, step).rows, rivals), n);
    }
  }

  lemma ClaimCosts(rows: Table, ids: seq<nat>, now: int, rivals: set<nat>, n: nat)
    requires NoDup(ids) && Elements(ids) <= rivals <= rows.Keys && forall o :: o in rivals ==> o < n
    ensures SumTo(AttemptsOf(TakeAll(rows, ids, now), rivals), n) == SumTo(AttemptsOf(rows, rivals), n) + |ids|
  {
    NoDupCardinality(ids);
    forall o | o in rivals
      ensures o in ids <==> o in Elements(ids)
    {
    }
    SumToPicked(AttemptsOf(rows, rivals), AttemptsOf(TakeAll(rows, ids, now), rivals), Elements(ids), n);
  }

  lemma {:induction false} RunCost(cfg: Config, s: State, steps: seq<Step>, id: nat, created: int, rivals: set<nat>, n: nat, final: bool)
    requires Rivals(s.rows, id, created, rivals, final) && s.now > created && Run(cfg, s, steps)
    requires forall o :: o in rivals ==> o < n
    requires final ==> WellFormed(s) && Current(s) && Along(cfg, s, steps, Respecting(cfg))
    ensures SumTo(AttemptsOf(Exec(cfg, s, steps).rows, rivals), n)
              >= SumTo(AttemptsOf(s.rows, rivals), n) + MissedClaims(cfg, s, steps, id) * Limit(cfg.batchSize)
    decreases |steps|
  {
    if steps != [] {
      var next := Apply(cfg, s, steps[0]);
      StepCost(cfg, s, steps[0], id, created, rivals, n, final);
      RivalsStep(cfg, s, steps[0], id, created, rivals, final);
      if final {
        WellFormedStep(cfg, s, steps[0]);
        CurrentStep(cfg, s, steps[0]);
      }
      RunCost(cfg, next, steps[1..], id, created, rivals, n, final);
      if Missed(s, steps[0], id) {
        OneMore(MissedClaims(cfg, next, steps[1..], id), MissedClaims(cfg, s, steps, id), Limit(cfg.batchSize));
      }
    }
  }

  /** Room left for further claims of the rivals: maxAttempts plus the resets they get, less the attempts they have had. */
  ghost function Room(cfg: Config, rows: Table, end: map<nat, History>, rivals: set<nat>): map<nat, int> {
    map o | o in rivals && o in rows && o in end :: cfg.maxAttempts + end[o].resets - rows[o].attempts
  }

  lemma RoomCovers(cfg: Config, relays: set<nat>, past: seq<Step>, steps: seq<Step>, rivals: set<nat>, n: nat)
    requires cfg.maxAttempts > 0
    requires Run(cfg, Initial(relays), past) && Run(cfg, Exec(cfg, Initial(relays), past), steps)
    requires rivals <= Exec(cfg, Initial(relays), past).rows.Keys
    ensures
      var s := Exec(cfg, Initial(relays), past);
      var end := Exec(cfg, s, steps);
      SumTo(AttemptsOf(end.rows, rivals), n) - SumTo(AttemptsOf(s.rows, rivals), n)
        <= SumTo(Room(cfg, s.rows, end.history, rivals), n)
  {
    var s := Exec(cfg, Initial(relays), past);
    var end := Exec(cfg, s, steps);
    GrowsRun(cfg, s, steps);
    var most: map<nat, int> := map o | o in rivals && o in end.history :: cfg.maxAttempts + end.history[o].resets;
    forall o | o in rivals
      ensures o in end.history && end.rows[o].attempts <= most[o]
    {
      BoundAfter(cfg, relays, past, steps, o);
    }
    SumToMonotone(AttemptsOf(end.rows, rivals), most, n);
    SumToMinus(most, AttemptsOf(s.rows, rivals), Room(cfg, s.rows, end.history, rivals), n);
  }

  lemma BoundAfter(cfg: Config, relays: set<nat>, past: seq<Step>, steps: seq<Step>, id: nat)
    requires cfg.maxAttempts > 0
    requires Run(cfg, Initial(relays), past) && Run(cfg, Exec(cfg, Initial(relays), past), steps)
    requires id in Exec(cfg, Exec(cfg, Initial(relays), past), steps).rows
    ensures
      var end := Exec(cfg, Exec(cfg, Initial(relays), past), steps);
      id in end.history && end.rows[id].attempts <= cfg.maxAttempts + end.history[id].resets
  {
    RunConcat(cfg, Initial(relays), past, steps);
    AttemptsBound(cfg, relays, past + steps, id);
  }

  lemma {:induction false} GrowsRun(cfg: Config, s: State, steps: seq<Step>)
    requires Run(cfg, s, steps)
    ensures Grows(s.rows, Exec(cfg, s, steps).rows)
    decreases |steps|
  {
    if steps != [] {
      GrowsStep(cfg, s, steps[0]);
      GrowsRun(cfg, Apply(cfg, s, steps[0]), steps[1..]);
    }
  }

  ghost function Older(rows: Table, id: nat): set<nat>
    requires id in rows
  {
    set o | o in rows && o != id && rows[o].fields.createdAt <= rows[id].fields.createdAt
  }

  /** For any number of relays: each claim that passes over a due and unlocked row uses up a full batch of the room
      of the rows that are not younger. */
  lemma WaitingBound(cfg: Config, relays: set<nat>, past: seq<Step>, steps: seq<Step>, id: nat, n: nat)
    requires cfg.maxAttempts > 0
    requires Run(cfg, Initial(relays), past) && Run(cfg, Exec(cfg, Initial(relays), past), steps)
    requires id in Exec(cfg, Initial(relays), past).rows
    requires Exec(cfg, Initial(relays), past).rows[id].fields.createdAt < Exec(cfg, Initial(relays), past).now
    requires forall o :: o in Exec(cfg, Initial(relays), past).rows ==> o < n
    ensures
      var s := Exec(cfg, Initial(relays), past);
      MissedClaims(cfg, s, steps, id) * (if cfg.batchSize > 0 then cfg.batchSize else 50)
        <= SumTo(Room(cfg, s.rows, Exec(cfg, s, steps).history, Older(s.rows, id)), n)
  {
    var s := Exec(cfg, Initial(relays), past);
    var rivals := Older(s.rows, id);
    RunCost(cfg, s, steps, id, s.rows[id].fields.createdAt, rivals, n, false);
    RoomCovers(cfg, relays, past, steps, rivals, n);
  }

  /** What the older rows that are not sent or failed have left of their maxAttempts. */
  ghost function Backlog(cfg: Config, rows: Table, id: nat): map<nat, int>
    requires id in rows
  {
    map o | o in Older(rows, id) && !rows[o].status.Terminal() :: cfg.maxAttempts - rows[o].attempts
  }

  /** With one relay and no row ever reset, a due row is passed over at most floor(S / batchSize) times. */
  lemma OneRelayWaitingBound(cfg: Config, r: nat, past: seq<Step>, steps: seq<Step>, id: nat, n: nat)
    requires cfg.maxAttempts > 0
    requires Run(cfg, Initial({r}), past) && Run(cfg, Exec(cfg, Initial({r}), past), steps)
    requires id in Exec(cfg, Initial({r}), past).rows
    requires Exec(cfg, Initial({r}), past).rows[id].fields.createdAt < Exec(cfg, Initial({r}), past).now
    requires forall o :: o in Exec(cfg, Initial({r}), past).rows ==> o < n
    requires forall o :: o in Exec(cfg, Exec(cfg, Initial({r}), past), steps).history ==>
      Exec(cfg, Exec(cfg, Initial({r}), past), steps).history[o].resets == 0
    ensures
      var s := Exec(cfg, Initial({r}), past);
      MissedClaims(cfg, s, steps, id) <= SumTo(Backlog(cfg, s.rows, id), n) / (if cfg.batchSize > 0 then cfg.batchSize else 50)
  {
    var s := Exec(cfg, Initial({r}), past);
    var rivals := set o | o in Older(s.rows, id) && !s.rows[o].status.Terminal();
    OneRelayHolds(cfg, r, past);
    OneRelayAlong(cfg, s, steps, r);
    RunCost(cfg, s, steps, id, s.rows[id].fields.createdAt, rivals, n, true);
    RoomCovers(cfg, {r}, past, steps, rivals, n);
    RoomIsBacklog(cfg, s, steps, id, rivals);
    Quotient(MissedClaims(cfg, s, steps, id), Limit(cfg.batchSize), SumTo(Backlog(cfg, s.rows, id), n));
  }

  lemma OneRelayHolds(cfg: Config, r: nat, past: seq<Step>)
    requires Run(cfg, Initial({r}), past)
    ensures
      var s := Exec(cfg, Initial({r}), past);
      WellFormed(s) && Current(s) && s.relays.Keys == {r}
  {
    OneRelayAlong(cfg, Initial({r}), past, r);
    SafeRun(cfg, Initial({r}), past);
  }

  lemma RoomIsBacklog(cfg: Config, s: State, steps: seq<Step>, id: nat, rivals: set<nat>)
    requires WellFormed(s) && Run(cfg, s, steps) && id in s.rows
    requires rivals == set o | o in Older(s.rows, id) && !s.rows[o].status.Terminal()
    requires forall o :: o in Exec(cfg, s, steps).history ==> Exec(cfg, s, steps).history[o].resets == 0
    ensures Room(cfg, s.rows, Exec(cfg, s, steps).history, rivals) == Backlog(cfg, s.rows, id)
  {
    GrowsRun(cfg, s, steps);
    WellFormedRun(cfg, s, steps);
    var end := Exec(cfg, s, steps);
    var room, backlog := Room(cfg, s.rows, end.history, rivals), Backlog(cfg, s.rows, id);
    assert room.Keys == rivals && backlog.Keys == rivals;
    assert forall o :: o in rivals ==> room[o] == backlog[o];
  }

  lemma Quotient(a: nat, b: nat, c: int)
    requires b > 0 && a * b <= c
    ensures a <= c / b
  {
    if a > c / b {
      Overshoot(a, b, c);
    }
  }

  lemma Overshoot(a: nat, b: nat, c: int)
    requires b > 0 && a > c / b
    ensures a * b > c
  {
    var q := c / b;
    assert c < (q + 1) * b;
    assert a * b == (q + 1) * b + (a - q - 1) * b;
  }
}
