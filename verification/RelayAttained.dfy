/** The bound on attempts is attained: with every number of resets there is a run that uses it up. */
module RelayAttained {
  import opened Base
  import opened Outbox
  import opened Relays
  import opened RelayCounting
  import opened RelaySmooth

  ghost predicate Reaches(cfg: Config, s: State, steps: seq<Step>, relays: set<nat>, attempts: nat, resets: nat) {
    Run(cfg, s, steps) && Ready(Exec(cfg, s, steps), relays, attempts, resets)
  }

  /** A claim whose holder crashes, and the reset once the row counts as stuck. */
  lemma CrashAndReset(cfg: Config, s: State, relays: set<nat>, r: nat, attempts: nat, resets: nat) returns (steps: seq<Step>)
    requires r in relays && Ready(s, relays, attempts, resets)
    ensures Reaches(cfg, s, steps, relays, attempts + 1, resets + 1)
  {
    ClaimAlone(cfg, s, r);
    ClaimedAlone(cfg, s, relays, r, attempts, resets);
    var claim := Claim(r, [0], {});
    assert Exec(cfg, s, []) == s;
    RunSnoc(cfg, s, [], claim);
    assert [] + [claim] == [claim];
    var rest := Reclaim(cfg, Apply(cfg, s, claim), relays, r, attempts, resets);
    RunConcat(cfg, s, [claim], rest);
    steps := [claim] + rest;
  }

  /** The crash of the holder and the reset of its row. */
  lemma Reclaim(cfg: Config, s: State, relays: set<nat>, r: nat, attempts: nat, resets: nat) returns (steps: seq<Step>)
    requires Taken(s, relays, r, attempts, resets) && s.rows[0].status.Processing? && s.rows[0].startedAt == Some(s.now)
    ensures Reaches(cfg, s, steps, relays, attempts + 1, resets + 1)
  {
    var crash, wait, reset := Crash(r), Advance(s.now + Timeout(cfg.processingTimeout) + 1), Reset(r);
    assert Exec(cfg, s, []) == s;
    RunSnoc(cfg, s, [], crash);
    assert [] + [crash] == [crash];
    RunSnoc(cfg, s, [crash], wait);
    RunSnoc(cfg, s, [crash] + [wait], reset);
    steps := [crash] + [wait] + [reset];
  }

  lemma {:induction false} Climb(cfg: Config, relays: set<nat>, r: nat, attempts: nat, resets: nat) returns (steps: seq<Step>)
    requires r in relays && resets <= attempts && (cfg.maxAttempts > 0 ==> attempts - resets < cfg.maxAttempts)
    ensures Reaches(cfg, Initial(relays), steps, relays, attempts, resets)
    decreases resets
  {
    if resets == 0 {
      steps := FailOften(cfg, relays, r, attempts);
    } else {
      steps := Climb(cfg, relays, r, attempts - 1, resets - 1);
      var turn := CrashAndReset(cfg, Exec(cfg, Initial(relays), steps), relays, r, attempts - 1, resets - 1);
      RunConcat(cfg, Initial(relays), steps, turn);
      steps := steps + turn;
    }
  }

  /** `attempts <= maxAttempts` is false of rows that are reset, and by no fixed margin: for every number of resets there is a
      run, without database errors, that ends with attempts == maxAttempts + resets. */
  lemma BoundAttained(cfg: Config, relays: set<nat>, r: nat, resets: nat) returns (steps: seq<Step>)
    requires cfg.maxAttempts > 0 && r in relays
    ensures Run(cfg, Initial(relays), steps)
    ensures
      var end := Exec(cfg, Initial(relays), steps);
      && 0 in end.rows && 0 in end.history && end.history[0].resets == resets
      && end.rows[0].attempts == cfg.maxAttempts + resets
  {
    steps := Climb(cfg, relays, r, cfg.maxAttempts - 1 + resets, resets);
    var s := Exec(cfg, Initial(relays), steps);
    var claim := Claim(r, [0], {});
    ClaimAlone(cfg, s, r);
    assert 0 in [0];
    RunSnoc(cfg, Initial(relays), steps, claim);
    steps := steps + [claim];
  }

  /** No row that has been reset n times takes more attempts than this. */
  ghost predicate AtMost(cfg: Config, relays: set<nat>, n: nat, attempts: int) {
    forall steps, id ::
      Run(cfg, Initial(relays), steps) && id in Exec(cfg, Initial(relays), steps).rows && id in Exec(cfg, Initial(relays), steps).history
        && Exec(cfg, Initial(relays), steps).history[id].resets == n ==>
        Exec(cfg, Initial(relays), steps).rows[id].attempts <= attempts
  }

  /** maxAttempts + n is the least bound on the attempts of a row that is reset n times; in particular maxAttempts itself is a
      bound exactly for rows that are never reset. */
  lemma LeastBound(cfg: Config, relays: set<nat>, r: nat, n: nat, bound: int)
    requires cfg.maxAttempts > 0 && r in relays
    ensures AtMost(cfg, relays, n, bound) <==> cfg.maxAttempts + n <= bound
  {
    if cfg.maxAttempts + n <= bound {
      forall steps, id |
        Run(cfg, Initial(relays), steps) && id in Exec(cfg, Initial(relays), steps).rows && id in Exec(cfg, Initial(relays), steps).history
        && Exec(cfg, Initial(relays), steps).history[id].resets == n
        ensures Exec(cfg, Initial(relays), steps).rows[id].attempts <= bound
      {
        AttemptsBound(cfg, relays, steps, id);
      }
    } else {
      var steps := BoundAttained(cfg, relays, r, n);
    }
  }

  /** With maxAttempts <= 0 attempts have no bound, even without resets. */
  lemma BoundedExactly(cfg: Config, relays: set<nat>, r: nat)
    requires r in relays
    ensures (exists bound :: AtMost(cfg, relays, 0, bound)) <==> cfg.maxAttempts > 0
  {
    if cfg.maxAttempts > 0 {
      LeastBound(cfg, relays, r, 0, cfg.maxAttempts);
    } else if bound :| AtMost(cfg, relays, 0, bound) {
      var steps := Climb(cfg, relays, r, if bound < 0 then 0 else bound + 1, 0);
      assert false;
    }
  }
}
