/** When a lease is safe: every Mark statement finds the row as its holder claimed it, so sent and failed are final. */
module RelayLease {
  import opened Base
  import opened Outbox
  import opened Relays
  import opened RelayCounting

  /** The lease is the row's newest one and the row is still being processed under it. */
  ghost predicate Holds(rows: Table, l: Lease) {
    l.id in rows && rows[l.id].status.Processing? && rows[l.id].attempts == l.number
  }

  ghost predicate Current(s: State) {
    forall r, i :: r in s.relays && 0 <= i < |s.relays[r].batch| ==> Holds(s.rows, s.relays[r].batch[i])
  }

  /** The step does not take a row away from a holder by resetting it as stuck. */
  ghost predicate Respects(cfg: Config, s: State, step: Step) {
    step.Reset? ==>
      forall r, i :: r in s.relays && 0 <= i < |s.relays[r].batch| && s.relays[r].batch[i].id in s.rows ==>
        !Stuck(s.rows[s.relays[r].batch[i].id], s.now, Timeout(cfg.processingTimeout))
  }

  /** The moves the documentation promises. */
  ghost predicate Allowed(before: Row, after: Row) {
    || after == before
    || (before.status.Pending? && after.status.Processing? && after.attempts == before.attempts + 1)
    || (before.status.Processing? && !after.status.Processing? && after.attempts == before.attempts)
  }

  lemma CurrentStep(cfg: Config, s: State, step: Step)
    requires WellFormed(s) && Current(s) && Enabled(cfg, s, step) && Respects(cfg, s, step)
    ensures Current(Apply(cfg, s, step))
  {
    match step
    case Claim(r, ids, _) => CurrentClaim(cfg, s, r, ids);
    case Mark(r, applied, at, message) => CurrentMark(cfg, s, r, applied, at, message);
    case _ =>
  }

  lemma CurrentClaim(cfg: Config, s: State, r: nat, ids: seq<nat>)
    requires Current(s) && Idle(s, r)
    requires forall id :: id in ids ==> id in s.rows && s.rows[id].status.Pending?
    ensures Current(ApplyClaim(cfg, s, r, ids))
  {
    var s' := ApplyClaim(cfg, s, r, ids);
    forall i | 0 <= i < |s'.relays[r].batch|
      ensures Holds(s'.rows, s'.relays[r].batch[i])
    {
      assert ids[i] in ids;
    }
  }

  lemma CurrentMark(cfg: Config, s: State, r: nat, applied: bool, at: int, message: string)
    requires WellFormed(s) && Current(s) && Busy(s, r)
    ensures Current(ApplyMark(cfg, s, r, applied, at, message))
  {
    var s' := ApplyMark(cfg, s, r, applied, at, message);
    var head := s.relays[r].batch[0];
    forall q, i | q in s'.relays && 0 <= i < |s'.relays[q].batch|
      ensures Holds(s'.rows, s'.relays[q].batch[i])
    {
      var l := s'.relays[q].batch[i];
      if q == r {
        assert l == s.relays[r].batch[i + 1];
      } else {
        assert l in s.relays[q].batch && head in s.relays[r].batch;
      }
      assert l != head && Holds(s.rows, l) && Holds(s.rows, head);
    }
  }

  lemma AllowedStep(cfg: Config, s: State, step: Step)
    requires Current(s) && Enabled(cfg, s, step)
    ensures forall id :: id in s.rows ==> id in Apply(cfg, s, step).rows && Allowed(s.rows[id], Apply(cfg, s, step).rows[id])
  {
    if step.Mark? {
      assert Holds(s.rows, s.relays[step.r].batch[0]);
    }
  }

  ghost function Respecting(cfg: Config): (State, Step) -> bool {
    (s, step) => Respects(cfg, s, step)
  }

  /** No sent or failed row of the one table differs in the other. */
  ghost predicate KeepsEnded(rows: Table, rows': Table) {
    forall id :: id in rows && rows[id].status.Terminal() ==> id in rows' && rows'[id] == rows[id]
  }

  lemma {:induction false} SafeRun(cfg: Config, s: State, steps: seq<Step>)
    requires WellFormed(s) && Current(s)
    requires Run(cfg, s, steps) && Along(cfg, s, steps, Respecting(cfg))
    ensures WellFormed(Exec(cfg, s, steps)) && Current(Exec(cfg, s, steps))
    ensures KeepsEnded(s.rows, Exec(cfg, s, steps).rows)
    decreases |steps|
  {
    if steps != [] {
      var next := Apply(cfg, s, steps[0]);
      WellFormedStep(cfg, s, steps[0]);
      CurrentStep(cfg, s, steps[0]);
      AllowedStep(cfg, s, steps[0]);
      EndedOnce(s.rows, next.rows);
      SafeRun(cfg, next, steps[1..]);
      EndedOn(s.rows, next.rows, Exec(cfg, next, steps[1..]).rows);
    }
  }

  lemma EndedOnce(rows: Table, rows': Table)
    requires forall id :: id in rows ==> id in rows' && Allowed(rows[id], rows'[id])
    ensures KeepsEnded(rows, rows')
  {
  }

  lemma EndedOn(rows: Table, mid: Table, end: Table)
    requires KeepsEnded(rows, mid) && KeepsEnded(mid, end)
    ensures KeepsEnded(rows, end)
  {
  }

  // One relay.

  lemma OneRelayRespects(cfg: Config, s: State, step: Step, r: nat)
    requires s.relays.Keys == {r} && Enabled(cfg, s, step)
    ensures Respects(cfg, s, step) && Apply(cfg, s, step).relays.Keys == {r}
  {
  }

  lemma {:induction false} OneRelayAlong(cfg: Config, s: State, steps: seq<Step>, r: nat)
    requires s.relays.Keys == {r} && Run(cfg, s, steps)
    ensures Along(cfg, s, steps, Respecting(cfg)) && Exec(cfg, s, steps).relays.Keys == {r}
    decreases |steps|
  {
    if steps != [] {
      OneRelayRespects(cfg, s, steps[0], r);
      OneRelayAlong(cfg, Apply(cfg, s, steps[0]), steps[1..], r);
    }
  }

  /** With one relay, in every run with crashes and failed marks and whatever the clock does: a row in its batch is being
      processed under the lease it holds, rows move only as documented, and sent and failed rows never change again. */
  lemma OneRelaySafe(cfg: Config, r: nat, steps: seq<Step>, more: seq<Step>)
    requires Run(cfg, Initial({r}), steps)
    requires Run(cfg, Exec(cfg, Initial({r}), steps), more)
    ensures
      var mid := Exec(cfg, Initial({r}), steps);
      && Current(mid)
      && KeepsEnded(mid.rows, Exec(cfg, mid, more).rows)
      && (forall step, id :: Enabled(cfg, mid, step) && id in mid.rows ==>
            id in Apply(cfg, mid, step).rows && Allowed(mid.rows[id], Apply(cfg, mid, step).rows[id]))
  {
    OneRelayAlong(cfg, Initial({r}), steps, r);
    SafeRun(cfg, Initial({r}), steps);
    var mid := Exec(cfg, Initial({r}), steps);
    OneRelayAlong(cfg, mid, more, r);
    SafeRun(cfg, mid, more);
    forall step, id | Enabled(cfg, mid, step) && id in mid.rows
      ensures id in Apply(cfg, mid, step).rows && Allowed(mid.rows[id], Apply(cfg, mid, step).rows[id])
    {
      AllowedStep(cfg, mid, step);
    }
  }

  // Any number of relays, each keeping its deadlines.

  /** Time does not pass the deadline of a holder: its answer arrives, or its turn of the loop ends, before. */
  ghost predicate Punctual(s: State, step: Step) {
    step.Advance? ==> forall r :: Busy(s, r) ==> step.t <= s.relays[r].deadline
  }

  ghost predicate Timed(cfg: Config, s: State, steps: seq<Step>) {
    Run(cfg, s, steps) && Along(cfg, s, steps, Punctual)
  }

  /** The longest a lease may be held from its claim to its mark. */
  function LongestLease(cfg: Config): nat {
    cfg.latency + Limit(cfg.batchSize) * cfg.iteration
  }

  /** Even if every turn still to come takes its full time, the batch is marked before its rows count as stuck. */
  ghost predicate InTime(cfg: Config, now: int, rows: Table, relay: Relay) {
    relay.batch != [] ==>
      && now <= relay.deadline
      && forall i :: 0 <= i < |relay.batch| && relay.batch[i].id in rows ==>
           && rows[relay.batch[i].id].startedAt.Some?
           && relay.deadline + (|relay.batch| - 1) * cfg.iteration
                <= rows[relay.batch[i].id].startedAt.value + Timeout(cfg.processingTimeout)
  }

  ghost predicate AllInTime(cfg: Config, s: State) {
    forall r :: r in s.relays ==> InTime(cfg, s.now, s.rows, s.relays[r])
  }

  lemma InTimeRespects(cfg: Config, s: State, step: Step)
    requires AllInTime(cfg, s) && Enabled(cfg, s, step)
    ensures Respects(cfg, s, step)
  {
    forall r, i | r in s.relays && 0 <= i < |s.relays[r].batch| && s.relays[r].batch[i].id in s.rows
      ensures !Stuck(s.rows[s.relays[r].batch[i].id], s.now, Timeout(cfg.processingTimeout))
    {
      assert InTime(cfg, s.now, s.rows, s.relays[r]);
      NonNegative(|s.relays[r].batch| - 1, cfg.iteration);
    }
  }

  lemma NonNegative(a: int, b: int)
    requires a >= 0 && b >= 0
    ensures a * b >= 0
  {
  }

  lemma InTimeStep(cfg: Config, s: State, step: Step)
    requires Timeout(cfg.processingTimeout) >= LongestLease(cfg)
    requires WellFormed(s) && Current(s) && AllInTime(cfg, s) && Enabled(cfg, s, step) && Punctual(s, step)
    ensures AllInTime(cfg, Apply(cfg, s, step))
  {
    var s' := Apply(cfg, s, step);
    forall q | q in s'.relays
      ensures InTime(cfg, s'.now, s'.rows, s'.relays[q])
    {
      assert InTime(cfg, s.now, s.rows, s.relays[q]);
      if (step.Claim? || step.Mark?) && step.r == q {
        if step.Claim? {
          InTimeClaim(cfg, s, q, step.ids);
        } else {
          InTimeMark(cfg, s, step);
        }
      } else {
        InTimeRespects(cfg, s, step);
        InTimeOther(cfg, s, step, q);
      }
    }
  }

  lemma InTimeClaim(cfg: Config, s: State, r: nat, ids: seq<nat>)
    requires Timeout(cfg.processingTimeout) >= LongestLease(cfg)
    requires Idle(s, r) && |ids| <= Limit(cfg.batchSize)
    requires forall id :: id in ids ==> id in s.rows
    ensures InTime(cfg, s.now, ApplyClaim(cfg, s, r, ids).rows, ApplyClaim(cfg, s, r, ids).relays[r])
  {
    var s' := ApplyClaim(cfg, s, r, ids);
    var batch := s'.relays[r].batch;
    if batch != [] {
      LongestBatch(|batch|, Limit(cfg.batchSize), cfg.iteration);
      forall i | 0 <= i < |batch|
        ensures s'.rows[batch[i].id].startedAt == Some(s.now)
      {
        assert ids[i] in ids;
      }
    }
  }

  lemma LongestBatch(n: nat, limit: nat, d: nat)
    requires 0 < n <= limit
    ensures d + (n - 1) * d <= limit * d
  {
    assert d + (n - 1) * d == n * d;
    NonNegative(limit - n, d);
    assert limit * d == n * d + (limit - n) * d;
  }

  lemma InTimeMark(cfg: Config, s: State, step: Step)
    requires WellFormed(s) && Current(s) && AllInTime(cfg, s) && Enabled(cfg, s, step) && step.Mark?
    ensures InTime(cfg, s.now, Apply(cfg, s, step).rows, Apply(cfg, s, step).relays[step.r])
  {
    var s' := Apply(cfg, s, step);
    var batch := s.relays[step.r].batch;
    assert InTime(cfg, s.now, s.rows, s.relays[step.r]);
    var tail := batch[1..];
    assert |batch| - 1 == |tail|;
    assert |tail| * cfg.iteration == cfg.iteration + (|tail| - 1) * cfg.iteration;
    forall i | 0 <= i < |tail|
      ensures tail[i].id != batch[0].id && s'.rows[tail[i].id] == s.rows[batch[i + 1].id]
    {
      assert Holds(s.rows, batch[i + 1]) && Holds(s.rows, batch[0]) && NoDup(batch);
    }
  }

  lemma InTimeOther(cfg: Config, s: State, step: Step, q: nat)
    requires WellFormed(s) && Current(s) && q in s.relays && InTime(cfg, s.now, s.rows, s.relays[q])
    requires Enabled(cfg, s, step) && Punctual(s, step) && Respects(cfg, s, step)
    requires !((step.Claim? || step.Mark?) && step.r == q)
    ensures q in Apply(cfg, s, step).relays
    ensures InTime(cfg, Apply(cfg, s, step).now, Apply(cfg, s, step).rows, Apply(cfg, s, step).relays[q])
  {
    BeforeDeadline(cfg, s, step, q);
    SameHolder(cfg, s, step, q);
    var relay' := Apply(cfg, s, step).relays[q];
    forall i | 0 <= i < |relay'.batch|
      ensures relay'.batch[i].id in s.rows
      ensures Apply(cfg, s, step).rows[relay'.batch[i].id].startedAt == s.rows[relay'.batch[i].id].startedAt
    {
      SameStart(cfg, s, step, q, i);
    }
    InTimeSame(cfg, s.now, s.rows, s.relays[q], Apply(cfg, s, step).now, Apply(cfg, s, step).rows, relay');
  }

  lemma BeforeDeadline(cfg: Config, s: State, step: Step, q: nat)
    requires Enabled(cfg, s, step) && Punctual(s, step) && (Busy(s, q) ==> s.now <= s.relays[q].deadline)
    ensures Busy(s, q) ==> Apply(cfg, s, step).now <= s.relays[q].deadline
  {
  }

  lemma InTimeSame(cfg: Config, now: int, rows: Table, relay: Relay, now': int, rows': Table, relay': Relay)
    requires InTime(cfg, now, rows, relay) && (relay'.batch == [] || (relay'.batch == relay.batch && relay'.deadline == relay.deadline))
    requires relay.batch != [] ==> now' <= relay.deadline
    requires forall i :: 0 <= i < |relay'.batch| ==>
      && relay'.batch[i].id in rows && relay'.batch[i].id in rows'
      && rows'[relay'.batch[i].id].startedAt == rows[relay'.batch[i].id].startedAt
    ensures InTime(cfg, now', rows', relay')
  {
  }

  /** A step that is no claim or mark of relay q leaves its batch alone or drops it. */
  lemma SameHolder(cfg: Config, s: State, step: Step, q: nat)
    requires Enabled(cfg, s, step) && q in s.relays && !((step.Claim? || step.Mark?) && step.r == q)
    ensures
      var relay' := Apply(cfg, s, step).relays[q];
      relay'.batch == [] || (relay'.batch == s.relays[q].batch && relay'.deadline == s.relays[q].deadline)
  {
  }

  lemma SameStart(cfg: Config, s: State, step: Step, q: nat, i: nat)
    requires WellFormed(s) && Current(s) && Enabled(cfg, s, step) && Respects(cfg, s, step)
    requires q in s.relays && i < |s.relays[q].batch| && !((step.Claim? || step.Mark?) && step.r == q)
    ensures
      var id := s.relays[q].batch[i].id;
      && id in s.rows && id in Apply(cfg, s, step).rows
      && Apply(cfg, s, step).rows[id].startedAt == s.rows[id].startedAt
  {
    assert Holds(s.rows, s.relays[q].batch[i]);
    if step.Mark? {
      OthersHead(s, step.r, q, i);
    }
    StartStays(cfg, s, step, s.relays[q].batch[i].id);
  }

  lemma StartStays(cfg: Config, s: State, step: Step, id: nat)
    requires Enabled(cfg, s, step) && id in s.rows && s.rows[id].status.Processing?
    requires step.Mark? ==> s.relays[step.r].batch[0].id != id
    requires step.Reset? ==> !Stuck(s.rows[id], s.now, Timeout(cfg.processingTimeout))
    ensures id in Apply(cfg, s, step).rows && Apply(cfg, s, step).rows[id].startedAt == s.rows[id].startedAt
  {
  }

  lemma OthersHead(s: State, r: nat, q: nat, i: nat)
    requires WellFormed(s) && Current(s) && Busy(s, r) && q in s.relays && q != r && i < |s.relays[q].batch|
    ensures s.relays[r].batch[0].id != s.relays[q].batch[i].id
  {
    var head, l := s.relays[r].batch[0], s.relays[q].batch[i];
    assert Holds(s.rows, head) && Holds(s.rows, l) && l in s.relays[q].batch && head in s.relays[r].batch;
  }

  lemma {:induction false} PunctualRespects(cfg: Config, s: State, steps: seq<Step>)
    requires Timeout(cfg.processingTimeout) >= LongestLease(cfg)
    requires WellFormed(s) && Current(s) && AllInTime(cfg, s)
    requires Run(cfg, s, steps) && Along(cfg, s, steps, Punctual)
    ensures Along(cfg, s, steps, Respecting(cfg)) && AllInTime(cfg, Exec(cfg, s, steps))
    decreases |steps|
  {
    if steps != [] {
      InTimeRespects(cfg, s, steps[0]);
      WellFormedStep(cfg, s, steps[0]);
      CurrentStep(cfg, s, steps[0]);
      InTimeStep(cfg, s, steps[0]);
      PunctualRespects(cfg, Apply(cfg, s, steps[0]), steps[1..]);
    }
  }

  /** Lease safety for any number of relays, when the processing timeout covers the longest lease. */
  lemma PunctualSafe(cfg: Config, relays: set<nat>, steps: seq<Step>, more: seq<Step>)
    requires Timeout(cfg.processingTimeout) >= LongestLease(cfg)
    requires Timed(cfg, Initial(relays), steps) && Timed(cfg, Exec(cfg, Initial(relays), steps), more)
    ensures
      var mid := Exec(cfg, Initial(relays), steps);
      && Current(mid)
      && KeepsEnded(mid.rows, Exec(cfg, mid, more).rows)
      && (forall step, id :: Enabled(cfg, mid, step) && id in mid.rows ==>
            id in Apply(cfg, mid, step).rows && Allowed(mid.rows[id], Apply(cfg, mid, step).rows[id]))
  {
    PunctualRespects(cfg, Initial(relays), steps);
    SafeRun(cfg, Initial(relays), steps);
    var mid := Exec(cfg, Initial(relays), steps);
    PunctualRespects(cfg, mid, more);
    SafeRun(cfg, mid, more);
    forall step, id | Enabled(cfg, mid, step) && id in mid.rows
      ensures id in Apply(cfg, mid, step).rows && Allowed(mid.rows[id], Apply(cfg, mid, step).rows[id])
    {
      AllowedStep(cfg, mid, step);
    }
  }
}
