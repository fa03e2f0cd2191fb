/** Runs in which nothing goes wrong but publishing: no relay crashes or is late, and no mark fails. */
module RelaySmooth {
  import opened Base
  import opened Outbox
  import opened Tickets
  import opened Relays
  import opened RelayCounting
  import opened RelayLease

  ghost predicate Smooth(s: State, step: Step) {
    Punctual(s, step) && !step.Crash? && (step.Mark? ==> step.applied)
  }

  ghost predicate Smoothly(cfg: Config, s: State, steps: seq<Step>) {
    Run(cfg, s, steps) && Along(cfg, s, steps, Smooth)
  }

  lemma Then(cfg: Config, s: State, steps: seq<Step>, step: Step)
    requires Smoothly(cfg, s, steps) && Enabled(cfg, Exec(cfg, s, steps), step) && Smooth(Exec(cfg, s, steps), step)
    ensures Smoothly(cfg, s, steps + [step])
    ensures Exec(cfg, s, steps + [step]) == Apply(cfg, Exec(cfg, s, steps), step)
  {
    AlongSnoc(cfg, s, steps, step, Smooth);
  }

  lemma Join(cfg: Config, s: State, first: seq<Step>, second: seq<Step>)
    requires Smoothly(cfg, s, first) && Smoothly(cfg, Exec(cfg, s, first), second)
    ensures Smoothly(cfg, s, first + second)
    ensures Exec(cfg, s, first + second) == Exec(cfg, Exec(cfg, s, first), second)
  {
    AlongConcat(cfg, s, first, second, Smooth);
  }

  lemma {:induction false} SmoothIsTimed(cfg: Config, s: State, steps: seq<Step>)
    requires Smoothly(cfg, s, steps)
    ensures Timed(cfg, s, steps)
    decreases |steps|
  {
    if steps != [] {
      SmoothIsTimed(cfg, Apply(cfg, s, steps[0]), steps[1..]);
    }
  }

  // No row is reset when the timeout covers the longest lease.

  /** Every row that is being processed has a holder. */
  ghost predicate Manned(s: State) {
    forall id :: id in s.rows && s.rows[id].status.Processing? ==> HeldBySome(s, id)
  }

  ghost predicate HeldBySome(s: State, id: nat) {
    exists r, i :: r in s.relays && 0 <= i < |s.relays[r].batch| && s.relays[r].batch[i].id == id
  }

  lemma MannedStep(cfg: Config, s: State, step: Step)
    requires WellFormed(s) && Manned(s) && Enabled(cfg, s, step) && Smooth(s, step)
    ensures Manned(Apply(cfg, s, step))
  {
    var s' := Apply(cfg, s, step);
    forall id | id in s'.rows && s'.rows[id].status.Processing?
      ensures HeldBySome(s', id)
    {
      RowManned(cfg, s, step, id);
    }
  }

  lemma RowManned(cfg: Config, s: State, step: Step, id: nat)
    requires WellFormed(s) && Manned(s) && Enabled(cfg, s, step) && Smooth(s, step)
    requires id in Apply(cfg, s, step).rows && Apply(cfg, s, step).rows[id].status.Processing?
    ensures HeldBySome(Apply(cfg, s, step), id)
  {
    if step.Claim? && id in step.ids {
      var i :| 0 <= i < |step.ids| && step.ids[i] == id;
      assert Apply(cfg, s, step).relays[step.r].batch[i].id == id;
    } else {
      StillProcessing(cfg, s, step, id);
      var r, i :| r in s.relays && 0 <= i < |s.relays[r].batch| && s.relays[r].batch[i].id == id;
      StillHeld(cfg, s, step, id, r, i);
    }
  }

  lemma StillProcessing(cfg: Config, s: State, step: Step, id: nat)
    requires WellFormed(s) && Enabled(cfg, s, step) && Smooth(s, step) && !(step.Claim? && id in step.ids)
    requires id in Apply(cfg, s, step).rows && Apply(cfg, s, step).rows[id].status.Processing?
    ensures id in s.rows && s.rows[id].status.Processing?
    ensures step.Mark? ==> id != s.relays[step.r].batch[0].id
  {
    if step.Mark? {
      assert Issued(s.rows, s.relays[step.r].batch[0]);
    }
  }

  lemma StillHeld(cfg: Config, s: State, step: Step, id: nat, r: nat, i: nat)
    requires Enabled(cfg, s, step) && Smooth(s, step) && (step.Mark? ==> id != s.relays[step.r].batch[0].id)
    requires r in s.relays && i < |s.relays[r].batch| && s.relays[r].batch[i].id == id
    ensures HeldBySome(Apply(cfg, s, step), id)
  {
    var s' := Apply(cfg, s, step);
    if step.Mark? && step.r == r {
      assert s'.relays[r].batch[i - 1] == s.relays[r].batch[i];
    } else {
      assert s'.relays[r].batch == s.relays[r].batch;
    }
  }

  ghost predicate NeverReset(s: State) {
    forall id :: id in s.history ==> s.history[id].resets == 0
  }

  lemma NeverResetStep(cfg: Config, s: State, step: Step)
    requires Manned(s) && NeverReset(s) && Enabled(cfg, s, step) && Respects(cfg, s, step)
    ensures NeverReset(Apply(cfg, s, step))
  {
    if step.Reset? {
      forall id | id in s.rows
        ensures !Stuck(s.rows[id], s.now, Timeout(cfg.processingTimeout))
      {
        if s.rows[id].status.Processing? {
          assert HeldBySome(s, id);
        }
      }
    }
  }

  lemma {:induction false} SmoothRun(cfg: Config, s: State, steps: seq<Step>)
    requires WellFormed(s) && Manned(s) && NeverReset(s)
    requires Smoothly(cfg, s, steps) && Along(cfg, s, steps, Respecting(cfg))
    ensures NeverReset(Exec(cfg, s, steps))
    decreases |steps|
  {
    if steps != [] {
      WellFormedStep(cfg, s, steps[0]);
      MannedStep(cfg, s, steps[0]);
      NeverResetStep(cfg, s, steps[0]);
      SmoothRun(cfg, Apply(cfg, s, steps[0]), steps[1..]);
    }
  }

  ghost predicate LimitKept(cfg: Config, relays: set<nat>) {
    forall steps, id :: Smoothly(cfg, Initial(relays), steps) && id in Exec(cfg, Initial(relays), steps).rows ==>
      Exec(cfg, Initial(relays), steps).rows[id].attempts <= cfg.maxAttempts
  }

  /** Leases cannot run out: there is one relay, or the timeout covers the longest lease. */
  ghost predicate LeasesLast(cfg: Config, relays: set<nat>) {
    |relays| == 1 || Timeout(cfg.processingTimeout) >= LongestLease(cfg)
  }

  lemma LeasesLastRespects(cfg: Config, relays: set<nat>, steps: seq<Step>)
    requires LeasesLast(cfg, relays) && Timed(cfg, Initial(relays), steps)
    ensures Along(cfg, Initial(relays), steps, Respecting(cfg))
  {
    if |relays| == 1 {
      var r :| r in relays;
      Singleton(relays, r);
      OneRelayAlong(cfg, Initial(relays), steps, r);
    } else {
      PunctualRespects(cfg, Initial(relays), steps);
    }
  }

  /** In a smooth run no row is reset and none takes more than maxAttempts, if leases last. */
  lemma SmoothLimit(cfg: Config, relays: set<nat>, steps: seq<Step>, id: nat)
    requires cfg.maxAttempts > 0 && LeasesLast(cfg, relays)
    requires Smoothly(cfg, Initial(relays), steps) && id in Exec(cfg, Initial(relays), steps).rows
    ensures
      var end := Exec(cfg, Initial(relays), steps);
      id in end.history && end.history[id].resets == 0 && end.rows[id].attempts <= cfg.maxAttempts
  {
    SmoothIsTimed(cfg, Initial(relays), steps);
    LeasesLastRespects(cfg, relays, steps);
    SmoothRun(cfg, Initial(relays), steps);
    AttemptsBound(cfg, relays, steps, id);
  }

  // How a row climbs: publishing fails again and again.

  /** The table holds row 0 alone, and every relay is idle. */
  ghost predicate Ready(s: State, relays: set<nat>, attempts: nat, resets: nat) {
    && s.relays.Keys == relays && (forall r :: r in s.relays ==> s.relays[r].batch == [])
    && s.tickets.Keys == {""}
    && s.rows.Keys == {0} && s.history.Keys == {0}
    && Due(s.rows[0], s.now)
    && s.rows[0].attempts == attempts
    && s.rows[0].fields.eventId == ""
    && s.history[0].resets == resets
  }

  lemma ClaimAlone(cfg: Config, s: State, r: nat)
    requires Idle(s, r) && s.rows.Keys == {0} && Due(s.rows[0], s.now)
    ensures Enabled(cfg, s, Claim(r, [0], {}))
  {
    assert DueIds(s.rows, s.now) == {0};
    assert 0 in [0];
    assert Elements([0]) == {0};
  }

  /** A claim whose publishing fails, and the wait until the row is due again. */
  lemma FailAndWait(cfg: Config, s: State, relays: set<nat>, r: nat, attempts: nat, resets: nat) returns (steps: seq<Step>)
    requires r in relays && Ready(s, relays, attempts, resets) && !GivesUp(cfg, attempts + 1)
    ensures Smoothly(cfg, s, steps) && Ready(Exec(cfg, s, steps), relays, attempts + 1, resets)
  {
    ClaimAlone(cfg, s, r);
    var claim := Claim(r, [0], {});
    assert Exec(cfg, s, []) == s;
    Then(cfg, s, [], claim);
    assert [] + [claim] == [claim];
    var taken := Apply(cfg, s, claim);
    ClaimedAlone(cfg, s, relays, r, attempts, resets);
    var rest := RefuseAndWait(cfg, taken, relays, r, attempts, resets);
    Join(cfg, s, [claim], rest);
    steps := [claim] + rest;
  }

  lemma RefuseAndWait(cfg: Config, s: State, relays: set<nat>, r: nat, attempts: nat, resets: nat) returns (steps: seq<Step>)
    requires r in relays && Taken(s, relays, r, attempts, resets) && !GivesUp(cfg, attempts + 1)
    ensures Smoothly(cfg, s, steps) && Ready(Exec(cfg, s, steps), relays, attempts + 1, resets)
  {
    var refuse, mark, wait := Refuse(r), Mark(r, true, s.now, ""), Advance(s.now + 60 * SECOND);
    assert Exec(cfg, s, []) == s;
    Then(cfg, s, [], refuse);
    assert [] + [refuse] == [refuse];
    Then(cfg, s, [refuse], mark);
    Then(cfg, s, [refuse] + [mark], wait);
    steps := [refuse] + [mark] + [wait];
  }

  /** Relay r has just claimed row 0, the only one. */
  ghost predicate Taken(s: State, relays: set<nat>, r: nat, attempts: nat, resets: nat) {
    && s.relays.Keys == relays && r in relays && (forall q :: q in relays && q != r ==> s.relays[q].batch == [])
    && s.relays[r].batch == [Lease(0, attempts + 1)] && s.relays[r].phase.Unsent? && s.relays[r].since <= s.now
    && s.tickets.Keys == {""}
    && s.rows.Keys == {0} && s.history.Keys == {0}
    && s.rows[0].attempts == attempts + 1 && s.rows[0].fields.eventId == "" && s.history[0].resets == resets
  }

  lemma ClaimedAlone(cfg: Config, s: State, relays: set<nat>, r: nat, attempts: nat, resets: nat)
    requires r in relays && Ready(s, relays, attempts, resets)
    ensures Taken(ApplyClaim(cfg, s, r, [0]), relays, r, attempts, resets)
  {
    assert 0 in [0];
  }

  /** A single row that has failed this often. */
  lemma {:induction false} FailOften(cfg: Config, relays: set<nat>, r: nat, attempts: nat) returns (steps: seq<Step>)
    requires r in relays && (cfg.maxAttempts > 0 ==> attempts < cfg.maxAttempts)
    ensures Smoothly(cfg, Initial(relays), steps) && Ready(Exec(cfg, Initial(relays), steps), relays, attempts, 0)
    decreases attempts
  {
    if attempts == 0 {
      var create := Create(Ticket("", "", "", "open", 0, 0), "", 0, "");
      assert Exec(cfg, Initial(relays), []) == Initial(relays);
      Then(cfg, Initial(relays), [], create);
      steps := [] + [create];
    } else {
      steps := FailOften(cfg, relays, r, attempts - 1);
      var turn := FailAndWait(cfg, Exec(cfg, Initial(relays), steps), relays, r, attempts - 1, 0);
      Join(cfg, Initial(relays), steps, turn);
      steps := steps + turn;
    }
  }
}
