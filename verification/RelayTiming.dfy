/** How long a row waits between two claims, in runs where leases are safe. */
module RelayTiming {
  import opened Base
  import opened Outbox
  import opened Relays
  import opened RelayCounting
  import opened RelayLease

  /** The wait that has to follow claim k: the backoff if the holder marked the row, the timeout if it was reset. */
  function Wait(cfg: Config, resetAfter: set<nat>, k: nat): int {
    if k in resetAfter then Timeout(cfg.processingTimeout) + 1 else Backoff(k)
  }

  ghost predicate Spaced(cfg: Config, row: Row, h: History)
    requires |h.claimedAt| == row.attempts
  {
    var n := row.attempts;
    && (forall k :: 1 <= k < n ==> h.claimedAt[k] - h.claimedAt[k - 1] >= Wait(cfg, h.resetAfter, k))
    && (forall k :: k in h.resetAfter ==> 1 <= k <= n)
    && (row.status.Pending? && n > 0 ==> row.nextRetryAt >= h.claimedAt[n - 1] + Wait(cfg, h.resetAfter, n))
    && (row.status.Processing? ==> n > 0 && n !in h.resetAfter && row.startedAt == Some(h.claimedAt[n - 1]))
  }

  ghost predicate AllSpaced(cfg: Config, rows: Table, history: map<nat, History>)
    requires RowsOk(rows, history)
  {
    forall id :: id in rows ==> Spaced(cfg, rows[id], history[id])
  }

  /** A holder looks at its clock after the claim. */
  /** Every row has its history and every lease its claim. */
  ghost predicate Founded(s: State) {
    RowsOk(s.rows, s.history) && AllIssued(s.rows, s.relays)
  }

  ghost predicate ClocksOk(s: State)
    requires Founded(s)
  {
    && (forall r, i :: r in s.relays && 0 <= i < |s.relays[r].batch| ==> ClaimTime(s, s.relays[r].batch[i]) <= s.relays[r].since)
    && (forall r :: r in s.relays && s.relays[r].batch != [] ==> s.relays[r].since <= s.now)
  }

  ghost function ClaimTime(s: State, l: Lease): int
    requires RowsOk(s.rows, s.history) && Issued(s.rows, l)
  {
    assert RowOk(s.rows[l.id], s.history[l.id]);
    s.history[l.id].claimedAt[l.number - 1]
  }

  lemma ClocksOkStep(cfg: Config, s: State, step: Step)
    requires Founded(s) && ClocksOk(s) && Enabled(cfg, s, step) && Founded(Apply(cfg, s, step))
    ensures ClocksOk(Apply(cfg, s, step))
  {
    var s' := Apply(cfg, s, step);
    forall r, i | r in s'.relays && 0 <= i < |s'.relays[r].batch|
      ensures ClaimTime(s', s'.relays[r].batch[i]) <= s'.relays[r].since <= s'.now
    {
      ClocksOkLease(cfg, s, step, r, i);
    }
    forall r | r in s'.relays && s'.relays[r].batch != []
      ensures s'.relays[r].since <= s'.now
    {
      ClocksOkLease(cfg, s, step, r, 0);
    }
  }

  lemma ClocksOkLease(cfg: Config, s: State, step: Step, r: nat, i: nat)
    requires Founded(s) && ClocksOk(s) && Enabled(cfg, s, step) && Founded(Apply(cfg, s, step))
    requires r in Apply(cfg, s, step).relays && i < |Apply(cfg, s, step).relays[r].batch|
    ensures ClaimTime(Apply(cfg, s, step), Apply(cfg, s, step).relays[r].batch[i])
              <= Apply(cfg, s, step).relays[r].since <= Apply(cfg, s, step).now
  {
    if step.Claim? && step.r == r {
      ClocksOkClaim(cfg, s, r, step.ids, i);
    } else {
      var l := Apply(cfg, s, step).relays[r].batch[i];
      SinceGrows(cfg, s, step, r);
      HeldBefore(s.relays[r].batch, Apply(cfg, s, step).relays[r].batch, i);
      assert Issued(s.rows, l) && ClaimTime(s, l) <= s.relays[r].since;
      ClaimTimeKept(cfg, s, step, l);
    }
  }

  lemma HeldBefore(before: seq<Lease>, after: seq<Lease>, i: nat)
    requires Shrinks(before, after) && i < |after|
    ensures exists j :: 0 <= j < |before| && before[j] == after[i]
  {
    if after == before {
      assert before[i] == after[i];
    } else {
      assert before[i + 1] == after[i];
    }
  }

  lemma ClocksOkClaim(cfg: Config, s: State, r: nat, ids: seq<nat>, i: nat)
    requires RowsOk(s.rows, s.history) && r in s.relays && i < |ids| && forall id :: id in ids ==> id in s.rows
    requires Founded(ApplyClaim(cfg, s, r, ids))
    ensures i < |ApplyClaim(cfg, s, r, ids).relays[r].batch|
    ensures ClaimTime(ApplyClaim(cfg, s, r, ids), ApplyClaim(cfg, s, r, ids).relays[r].batch[i]) == s.now
  {
    assert ids[i] in ids;
    assert RowOk(s.rows[ids[i]], s.history[ids[i]]);
  }

  lemma SinceGrows(cfg: Config, s: State, step: Step, r: nat)
    requires Enabled(cfg, s, step) && Busy(Apply(cfg, s, step), r) && !(step.Claim? && step.r == r)
    requires Busy(s, r) ==> s.relays[r].since <= s.now
    ensures Busy(s, r) && Shrinks(s.relays[r].batch, Apply(cfg, s, step).relays[r].batch)
    ensures s.relays[r].since <= Apply(cfg, s, step).relays[r].since <= Apply(cfg, s, step).now
  {
  }

  lemma ClaimTimeKept(cfg: Config, s: State, step: Step, l: Lease)
    requires RowsOk(s.rows, s.history) && Enabled(cfg, s, step) && Issued(s.rows, l)
    requires RowsOk(Apply(cfg, s, step).rows, Apply(cfg, s, step).history)
    ensures Issued(Apply(cfg, s, step).rows, l) && ClaimTime(Apply(cfg, s, step), l) == ClaimTime(s, l)
  {
    assert RowOk(s.rows[l.id], s.history[l.id]);
    GrowsStep(cfg, s, step);
    ClaimsKept(cfg, s, step, l.id);
  }

  lemma ClaimsKept(cfg: Config, s: State, step: Step, id: nat)
    requires Enabled(cfg, s, step) && id in s.history && id in s.rows
    ensures id in Apply(cfg, s, step).history && s.history[id].claimedAt <= Apply(cfg, s, step).history[id].claimedAt
  {
  }

  lemma AllSpacedStep(cfg: Config, s: State, step: Step)
    requires WellFormed(s) && Current(s) && ClocksOk(s) && AllSpaced(cfg, s.rows, s.history)
    requires Enabled(cfg, s, step) && WellFormed(Apply(cfg, s, step))
    ensures AllSpaced(cfg, Apply(cfg, s, step).rows, Apply(cfg, s, step).history)
  {
    var s' := Apply(cfg, s, step);
    forall id | id in s'.rows
      ensures Spaced(cfg, s'.rows[id], s'.history[id])
    {
      if id !in s.rows {
        assert s'.history[id] == NO_HISTORY;
      } else if step.Mark? && step.applied && s.relays[step.r].batch[0].id == id {
        SpacedMark(cfg, s, step);
      } else {
        SpacedRest(cfg, s, step, id);
      }
    }
  }

  lemma SpacedMark(cfg: Config, s: State, step: Step)
    requires WellFormed(s) && Current(s) && ClocksOk(s) && AllSpaced(cfg, s.rows, s.history)
    requires Enabled(cfg, s, step) && step.Mark? && step.applied && WellFormed(Apply(cfg, s, step))
    ensures
      var id := s.relays[step.r].batch[0].id;
      id in s.rows && Spaced(cfg, Apply(cfg, s, step).rows[id], Apply(cfg, s, step).history[id])
  {
    var head := s.relays[step.r].batch[0];
    assert Holds(s.rows, head) && Spaced(cfg, s.rows[head.id], s.history[head.id]);
    assert ClaimTime(s, head) <= s.relays[step.r].since;
  }

  lemma SpacedRest(cfg: Config, s: State, step: Step, id: nat)
    requires WellFormed(s) && AllSpaced(cfg, s.rows, s.history) && id in s.rows
    requires Enabled(cfg, s, step) && WellFormed(Apply(cfg, s, step))
    requires !(step.Mark? && step.applied && s.relays[step.r].batch[0].id == id)
    ensures Spaced(cfg, Apply(cfg, s, step).rows[id], Apply(cfg, s, step).history[id])
  {
    var s' := Apply(cfg, s, step);
    assert RowOk(s.rows[id], s.history[id]) && RowOk(s'.rows[id], s'.history[id]);
    assert Spaced(cfg, s.rows[id], s.history[id]);
    RowMoves(cfg, s, step, id);
    SpacedMoves(cfg, s.now, s.rows[id], s.history[id], s'.rows[id], s'.history[id]);
  }

  /** What can happen to a row without a mark: nothing, a reset or a claim. */
  ghost predicate Moves(cfg: Config, now: int, row: Row, h: History, row': Row, h': History) {
    || (row' == row && h'.claimedAt == h.claimedAt && h'.resetAfter == h.resetAfter)
    || (Stuck(row, now, Timeout(cfg.processingTimeout)) && row' == Unstick(row, now)
        && h'.claimedAt == h.claimedAt && h'.resetAfter == h.resetAfter + {row.attempts})
    || (Due(row, now) && row' == Take(row, now) && h'.claimedAt == h.claimedAt + [now] && h'.resetAfter == h.resetAfter)
  }

  lemma RowMoves(cfg: Config, s: State, step: Step, id: nat)
    requires RowsOk(s.rows, s.history) && Enabled(cfg, s, step) && id in s.rows
    requires RowsOk(Apply(cfg, s, step).rows, Apply(cfg, s, step).history)
    requires !(step.Mark? && step.applied && s.relays[step.r].batch[0].id == id)
    ensures Moves(cfg, s.now, s.rows[id], s.history[id], Apply(cfg, s, step).rows[id], Apply(cfg, s, step).history[id])
  {
    match step
    case Claim(r, ids, _) => ClaimMoves(cfg, s, r, ids, id);
    case Mark(r, applied, at, message) => MarkMoves(cfg, s, r, applied, at, message, id);
    case Reset(_) =>
    case _ => OtherMoves(cfg, s, step, id);
  }

  lemma ClaimMoves(cfg: Config, s: State, r: nat, ids: seq<nat>, id: nat)
    requires id in s.rows && id in s.history && forall other :: other in ids ==> other in s.rows && Due(s.rows[other], s.now)
    ensures
      var s' := ApplyClaim(cfg, s, r, ids);
      Moves(cfg, s.now, s.rows[id], s.history[id], s'.rows[id], s'.history[id])
  {
  }

  lemma MarkMoves(cfg: Config, s: State, r: nat, applied: bool, at: int, message: string, id: nat)
    requires Busy(s, r) && id in s.rows && id in s.history && !(applied && s.relays[r].batch[0].id == id)
    ensures
      var s' := ApplyMark(cfg, s, r, applied, at, message);
      id in s'.history && Moves(cfg, s.now, s.rows[id], s.history[id], s'.rows[id], s'.history[id])
  {
  }

  lemma OtherMoves(cfg: Config, s: State, step: Step, id: nat)
    requires Enabled(cfg, s, step) && !step.Claim? && !step.Mark? && !step.Reset? && id in s.rows && id in s.history
    ensures
      var s' := Apply(cfg, s, step);
      id in s'.rows && id in s'.history && s'.rows[id] == s.rows[id]
      && s'.history[id].claimedAt == s.history[id].claimedAt && s'.history[id].resetAfter == s.history[id].resetAfter
  {
  }

  lemma SpacedMoves(cfg: Config, now: int, row: Row, h: History, row': Row, h': History)
    requires RowOk(row, h) && RowOk(row', h') && Spaced(cfg, row, h) && Moves(cfg, now, row, h, row', h')
    ensures Spaced(cfg, row', h')
  {
    if row' == row && h'.claimedAt == h.claimedAt && h'.resetAfter == h.resetAfter {
      SpacedSame(cfg, row, h, h');
    } else if Stuck(row, now, Timeout(cfg.processingTimeout)) && row' == Unstick(row, now) {
      SpacedUnstick(cfg, now, row, h, h');
    } else {
      SpacedTake(cfg, now, row, h, h');
    }
  }

  lemma SpacedSame(cfg: Config, row: Row, h: History, h': History)
    requires RowOk(row, h) && RowOk(row, h') && Spaced(cfg, row, h) && h'.claimedAt == h.claimedAt && h'.resetAfter == h.resetAfter
    ensures Spaced(cfg, row, h')
  {
  }

  lemma SpacedUnstick(cfg: Config, now: int, row: Row, h: History, h': History)
    requires RowOk(row, h) && RowOk(Unstick(row, now), h') && Spaced(cfg, row, h) && Stuck(row, now, Timeout(cfg.processingTimeout))
    requires h'.claimedAt == h.claimedAt && h'.resetAfter == h.resetAfter + {row.attempts}
    ensures Spaced(cfg, Unstick(row, now), h')
  {
    forall k | 1 <= k < row.attempts
      ensures Wait(cfg, h'.resetAfter, k) == Wait(cfg, h.resetAfter, k)
    {
      assert k in h'.resetAfter <==> k in h.resetAfter;
    }
  }

  lemma SpacedTake(cfg: Config, now: int, row: Row, h: History, h': History)
    requires RowOk(row, h) && RowOk(Take(row, now), h') && Spaced(cfg, row, h) && Due(row, now)
    requires h'.claimedAt == h.claimedAt + [now] && h'.resetAfter == h.resetAfter
    ensures Spaced(cfg, Take(row, now), h')
  {
  }

  lemma {:induction false} SpacedRun(cfg: Config, s: State, steps: seq<Step>)
    requires WellFormed(s) && Current(s) && ClocksOk(s) && AllSpaced(cfg, s.rows, s.history)
    requires Run(cfg, s, steps) && Along(cfg, s, steps, Respecting(cfg))
    ensures WellFormed(Exec(cfg, s, steps)) && AllSpaced(cfg, Exec(cfg, s, steps).rows, Exec(cfg, s, steps).history)
    decreases |steps|
  {
    if steps != [] {
      WellFormedStep(cfg, s, steps[0]);
      CurrentStep(cfg, s, steps[0]);
      ClocksOkStep(cfg, s, steps[0]);
      AllSpacedStep(cfg, s, steps[0]);
      SpacedRun(cfg, Apply(cfg, s, steps[0]), steps[1..]);
    }
  }

  /** Claims k and k + 1 of a row lie at least backoff(k) apart, or more than the timeout if claim k ended in a reset:
      with one relay always, with more when the timeout covers the longest lease. */
  lemma RetryGap(cfg: Config, relays: set<nat>, steps: seq<Step>, id: nat, k: nat)
    requires Run(cfg, Initial(relays), steps)
    requires (exists r :: relays == {r}) ||
      (Timeout(cfg.processingTimeout) >= LongestLease(cfg) && Timed(cfg, Initial(relays), steps))
    requires id in Exec(cfg, Initial(relays), steps).rows
    requires 1 <= k < Exec(cfg, Initial(relays), steps).rows[id].attempts
    ensures
      var end := Exec(cfg, Initial(relays), steps);
      && id in end.history && k < |end.history[id].claimedAt|
      && end.history[id].claimedAt[k] - end.history[id].claimedAt[k - 1] >=
           if k !in end.history[id].resetAfter then RetryDelay(k)
           else 1 + if cfg.processingTimeout > 0 then cfg.processingTimeout else 30_000_000
  {
    if r :| relays == {r} {
      OneRelayAlong(cfg, Initial(relays), steps, r);
    } else {
      PunctualRespects(cfg, Initial(relays), steps);
    }
    SpacedRun(cfg, Initial(relays), steps);
    var end := Exec(cfg, Initial(relays), steps);
    GapOf(cfg, end.rows[id], end.history[id], k);
  }

  lemma GapOf(cfg: Config, row: Row, h: History, k: nat)
    requires RowOk(row, h) && Spaced(cfg, row, h) && 1 <= k < row.attempts
    ensures h.claimedAt[k] - h.claimedAt[k - 1] >=
      if k !in h.resetAfter then RetryDelay(k) else 1 + if cfg.processingTimeout > 0 then cfg.processingTimeout else 30_000_000
  {
    BackoffExactly(k);
  }

  // How the backoffs add up.

  ghost function TotalDelay(n: nat): int {
    if n == 0 then 0 else TotalDelay(n - 1) + RetryDelay(n)
  }

  lemma {:induction false} TotalDelayClosed(n: nat)
    requires n >= 6
    ensures TotalDelay(n) == 62_500_000 + 60_000_000 * (n - 6)
    decreases n
  {
    if n == 6 {
      assert RetryDelay(3) == 4_000_000 && RetryDelay(4) == 8_000_000;
      assert RetryDelay(5) == 16_000_000 && RetryDelay(6) == 32_000_000;
      assert TotalDelay(3) == 6_500_000;
      assert TotalDelay(6) == TotalDelay(3) + 56_000_000;
    } else {
      TotalDelayClosed(n - 1);
    }
  }

  ghost predicate NeverReset(s: State, id: nat) {
    id in s.history && s.history[id].resetAfter == {}
  }

  /** Claim n + 1 of a row that was never reset comes at least backoff(1) + ... + backoff(n) after claim 1. */
  lemma {:induction false} RetrySpan(cfg: Config, relays: set<nat>, steps: seq<Step>, id: nat, n: nat)
    requires Run(cfg, Initial(relays), steps)
    requires (exists r :: relays == {r}) ||
      (Timeout(cfg.processingTimeout) >= LongestLease(cfg) && Timed(cfg, Initial(relays), steps))
    requires id in Exec(cfg, Initial(relays), steps).rows
    requires n < Exec(cfg, Initial(relays), steps).rows[id].attempts
    requires NeverReset(Exec(cfg, Initial(relays), steps), id)
    ensures
      var end := Exec(cfg, Initial(relays), steps);
      && id in end.history && n < |end.history[id].claimedAt|
      && end.history[id].claimedAt[n] - end.history[id].claimedAt[0] >= TotalDelay(n)
    decreases n
  {
    var end := Exec(cfg, Initial(relays), steps);
    if n == 0 {
      WellFormedRun(cfg, Initial(relays), steps);
      assert RowOk(end.rows[id], end.history[id]);
    } else {
      RetrySpan(cfg, relays, steps, id, n - 1);
      RetryGap(cfg, relays, steps, id, n);
    }
  }
}
