/** What every run of every number of relays keeps, and the bounds on attempts and topic writes that follow. */
module RelayCounting {
  import opened Base
  import opened Outbox
  import opened Relays

  ghost predicate RowOk(row: Row, h: History) {
    && |h.claimedAt| == row.attempts
    && |h.writes| == row.attempts
    && (row.status.Processing? <==> row.startedAt.Some?)
  }

  ghost predicate RowsOk(rows: Table, history: map<nat, History>) {
    history.Keys == rows.Keys && forall id :: id in rows ==> RowOk(rows[id], history[id])
  }

  ghost predicate Issued(rows: Table, l: Lease) {
    l.id in rows && 1 <= l.number <= rows[l.id].attempts
  }

  ghost predicate AllIssued(rows: Table, relays: map<nat, Relay>) {
    forall r, i :: r in relays && 0 <= i < |relays[r].batch| ==> Issued(rows, relays[r].batch[i])
  }

  /** Leases name claims that have happened, and no two holders share one. */
  ghost predicate LeasesOk(rows: Table, relays: map<nat, Relay>) {
    && AllIssued(rows, relays)
    && (forall r :: r in relays ==> NoDup(relays[r].batch))
    && (forall r, q, l :: r in relays && q in relays && l in relays[r].batch && l in relays[q].batch ==> r == q)
  }

  ghost predicate WellFormed(s: State) {
    RowsOk(s.rows, s.history) && LeasesOk(s.rows, s.relays)
  }

  ghost predicate Shrinks(before: seq<Lease>, after: seq<Lease>) {
    after == before || after == [] || (before != [] && after == before[1..])
  }

  lemma LeasesKept(rows: Table, relays: map<nat, Relay>, rows': Table, relays': map<nat, Relay>)
    requires LeasesOk(rows, relays)
    requires forall id :: id in rows ==> id in rows' && rows[id].attempts <= rows'[id].attempts
    requires forall r :: r in relays' ==> r in relays && Shrinks(relays[r].batch, relays'[r].batch)
    ensures LeasesOk(rows', relays')
  {
    forall r | r in relays'
      ensures NoDup(relays'[r].batch) && forall l :: l in relays'[r].batch ==> l in relays[r].batch && Issued(rows', l)
    {
      assert NoDup(relays[r].batch);
    }
  }

  /** Rows are never deleted, keep their fields, and never lose attempts. */
  ghost predicate Grows(rows: Table, rows': Table) {
    forall id :: id in rows ==> id in rows' && rows[id].fields == rows'[id].fields && rows[id].attempts <= rows'[id].attempts
  }

  lemma GrowsStep(cfg: Config, s: State, step: Step)
    requires Enabled(cfg, s, step)
    ensures Grows(s.rows, Apply(cfg, s, step).rows)
  {
  }

  lemma BatchesShrink(cfg: Config, s: State, step: Step)
    requires Enabled(cfg, s, step) && !step.Claim?
    ensures forall r :: r in Apply(cfg, s, step).relays ==>
      r in s.relays && Shrinks(s.relays[r].batch, Apply(cfg, s, step).relays[r].batch)
  {
  }

  lemma WellFormedStep(cfg: Config, s: State, step: Step)
    requires WellFormed(s) && Enabled(cfg, s, step)
    ensures WellFormed(Apply(cfg, s, step))
  {
    RowsOkStep(cfg, s, step);
    LeasesOkStep(cfg, s, step);
  }

  lemma {:induction false} WellFormedRun(cfg: Config, s: State, steps: seq<Step>)
    requires WellFormed(s) && Run(cfg, s, steps)
    ensures WellFormed(Exec(cfg, s, steps))
    decreases |steps|
  {
    if steps != [] {
      WellFormedStep(cfg, s, steps[0]);
      WellFormedRun(cfg, Apply(cfg, s, steps[0]), steps[1..]);
    }
  }

  lemma LeasesOkStep(cfg: Config, s: State, step: Step)
    requires WellFormed(s) && Enabled(cfg, s, step)
    ensures LeasesOk(Apply(cfg, s, step).rows, Apply(cfg, s, step).relays)
  {
    if step.Claim? {
      LeasesClaimed(cfg, s, step.r, step.ids);
    } else {
      var s' := Apply(cfg, s, step);
      GrowsStep(cfg, s, step);
      BatchesShrink(cfg, s, step);
      LeasesKept(s.rows, s.relays, s'.rows, s'.relays);
    }
  }

  lemma RowsOkStep(cfg: Config, s: State, step: Step)
    requires RowsOk(s.rows, s.history) && Enabled(cfg, s, step)
    ensures RowsOk(Apply(cfg, s, step).rows, Apply(cfg, s, step).history)
  {
    var s' := Apply(cfg, s, step);
    assert s'.history.Keys == s'.rows.Keys;
    forall id | id in s'.rows
      ensures RowOk(s'.rows[id], s'.history[id])
    {
      RowOkStep(cfg, s, step, id);
    }
  }

  lemma RowOkStep(cfg: Config, s: State, step: Step, id: nat)
    requires RowsOk(s.rows, s.history) && Enabled(cfg, s, step)
    requires id in Apply(cfg, s, step).rows && id in Apply(cfg, s, step).history
    ensures RowOk(Apply(cfg, s, step).rows[id], Apply(cfg, s, step).history[id])
  {
    assert id in s.rows ==> RowOk(s.rows[id], s.history[id]);
    match step
    case Mark(r, applied, at, message) => RowOkMark(cfg, s, r, applied, at, message, id);
    case Write(r, appended, acked, heals) => RowOkWrite(s, r, appended, acked, heals, id);
    case _ =>
  }

  lemma RowOkMark(cfg: Config, s: State, r: nat, applied: bool, at: int, message: string, id: nat)
    requires Busy(s, r) && id in s.rows && id in s.history && RowOk(s.rows[id], s.history[id])
    ensures
      var s' := ApplyMark(cfg, s, r, applied, at, message);
      id in s'.rows && id in s'.history && RowOk(s'.rows[id], s'.history[id])
  {
  }

  lemma RowOkWrite(s: State, r: nat, appended: bool, acked: bool, heals: bool, id: nat)
    requires Busy(s, r) && id in s.rows && id in s.history && RowOk(s.rows[id], s.history[id])
    ensures
      var s' := ApplyWrite(s, r, appended, acked, heals);
      id in s'.rows && id in s'.history && RowOk(s'.rows[id], s'.history[id])
  {
  }

  lemma LeasesClaimed(cfg: Config, s: State, r: nat, ids: seq<nat>)
    requires WellFormed(s) && Idle(s, r) && NoDup(ids)
    requires forall id :: id in ids ==> id in s.rows
    ensures LeasesOk(ApplyClaim(cfg, s, r, ids).rows, ApplyClaim(cfg, s, r, ids).relays)
  {
    var s' := ApplyClaim(cfg, s, r, ids);
    var batch := Leases(s.rows, ids);
    assert s'.relays[r].batch == batch;
    forall i | 0 <= i < |batch|
      ensures Issued(s'.rows, batch[i]) && !Issued(s.rows, batch[i])
    {
      assert ids[i] in ids;
    }
    forall q, l | q in s.relays && l in s.relays[q].batch
      ensures l !in batch && Issued(s'.rows, l)
    {
      assert Issued(s.rows, l);
    }
  }

  /** Every way back to pending is paid for: by the insert, by a lease numbered below maxAttempts, or by a reset.
      The last conjunct is where it matters that a lease marks at most once. */
  ghost predicate Counted(cfg: Config, s: State)
    requires WellFormed(s)
  {
    && (forall id :: id in s.rows ==> Paid(s.rows[id], s.history[id]))
    && (forall id, k :: id in s.rows && k in s.history[id].requeued ==>
          1 <= k <= s.rows[id].attempts && (cfg.maxAttempts > 0 ==> k < cfg.maxAttempts))
    && (forall r, i :: r in s.relays && 0 <= i < |s.relays[r].batch| ==>
          s.relays[r].batch[i].number !in s.history[s.relays[r].batch[i].id].requeued)
  }

  ghost predicate Paid(row: Row, h: History) {
    row.attempts + (if row.status.Pending? then 1 else 0) <= 1 + |h.requeued| + h.resets
  }

  lemma CountedStep(cfg: Config, s: State, step: Step)
    requires WellFormed(s) && Counted(cfg, s) && Enabled(cfg, s, step)
    requires WellFormed(Apply(cfg, s, step))
    ensures Counted(cfg, Apply(cfg, s, step))
  {
    match step
    case Claim(r, ids, _) => CountedClaim(cfg, s, r, ids);
    case Mark(r, applied, at, message) => CountedMark(cfg, s, r, applied, at, message);
    case Write(r, appended, acked, heals) => CountedWrite(cfg, s, r, appended, acked, heals);
    case Create(_, _, _, _) => CountedCreate(cfg, s, step);
    case Reset(_) => CountedReset(cfg, s);
    case Refuse(_) => CountedRelay(cfg, s, step);
    case Crash(_) => CountedRelay(cfg, s, step);
    case Advance(_) =>
    case Land(_) =>
  }

  lemma CountedCreate(cfg: Config, s: State, step: Step)
    requires step.Create?
    requires WellFormed(s) && Counted(cfg, s) && Enabled(cfg, s, step)
    requires WellFormed(Apply(cfg, s, step))
    ensures Counted(cfg, Apply(cfg, s, step))
  {
    assert forall r, i :: r in s.relays && 0 <= i < |s.relays[r].batch| ==> Issued(s.rows, s.relays[r].batch[i]);
  }

  lemma CountedReset(cfg: Config, s: State)
    requires WellFormed(s) && Counted(cfg, s) && WellFormed(ApplyReset(cfg, s))
    ensures Counted(cfg, ApplyReset(cfg, s))
  {
    var s' := ApplyReset(cfg, s);
    forall id | id in s.rows
      ensures s'.rows[id].attempts == s.rows[id].attempts && s'.history[id].requeued == s.history[id].requeued
      ensures Paid(s'.rows[id], s'.history[id])
    {
      assert Paid(s.rows[id], s.history[id]);
      if s.rows[id].status.Processing? {
        PaidReset(s.rows[id], s.history[id], s.now);
      }
    }
    CountedCarried(cfg, s, s');
  }

  lemma PaidReset(row: Row, h: History, now: int)
    requires Paid(row, h) && row.status.Processing?
    ensures Paid(Unstick(row, now), h.(resets := h.resets + 1, resetAfter := h.resetAfter + {row.attempts}))
  {
  }

  lemma CountedRelay(cfg: Config, s: State, step: Step)
    requires step.Refuse? || step.Crash?
    requires WellFormed(s) && Counted(cfg, s) && Enabled(cfg, s, step)
    requires WellFormed(Apply(cfg, s, step))
    ensures Counted(cfg, Apply(cfg, s, step))
  {
  }

  lemma CountedWrite(cfg: Config, s: State, r: nat, appended: bool, acked: bool, heals: bool)
    requires WellFormed(s) && Counted(cfg, s) && Busy(s, r) && WellFormed(ApplyWrite(s, r, appended, acked, heals))
    ensures Counted(cfg, ApplyWrite(s, r, appended, acked, heals))
  {
    var s' := ApplyWrite(s, r, appended, acked, heals);
    forall q | q in s'.relays
      ensures q in s.relays && s'.relays[q].batch == s.relays[q].batch
    {
    }
    forall id | id in s.rows
      ensures s'.history[id].requeued == s.history[id].requeued && Paid(s'.rows[id], s'.history[id])
    {
      assert Paid(s.rows[id], s.history[id]);
      WriteCounts(s.history, s.relays[r].batch[0], id);
    }
    CountedCarried(cfg, s, s');
  }

  lemma WriteCounts(history: map<nat, History>, lease: Lease, id: nat)
    requires id in history
    ensures
      var history' := CountWrite(history, lease);
      id in history' && history'[id].requeued == history[id].requeued && history'[id].resets == history[id].resets
  {
  }

  /** A step that leaves batches, attempts and requeued leases alone has to care for what is paid only. */
  lemma CountedCarried(cfg: Config, s: State, s': State)
    requires WellFormed(s) && WellFormed(s') && Counted(cfg, s) && s'.rows.Keys == s.rows.Keys
    requires forall q :: q in s'.relays ==> q in s.relays && s'.relays[q].batch == s.relays[q].batch
    requires forall id :: id in s.rows ==>
      && s'.rows[id].attempts == s.rows[id].attempts && s'.history[id].requeued == s.history[id].requeued
      && Paid(s'.rows[id], s'.history[id])
    ensures Counted(cfg, s')
  {
    forall r, i | r in s'.relays && 0 <= i < |s'.relays[r].batch|
      ensures s'.relays[r].batch[i].number !in s'.history[s'.relays[r].batch[i].id].requeued
    {
      assert Issued(s.rows, s.relays[r].batch[i]);
    }
  }

  lemma CountedClaim(cfg: Config, s: State, r: nat, ids: seq<nat>)
    requires WellFormed(s) && Counted(cfg, s) && Idle(s, r)
    requires forall id :: id in ids ==> id in s.rows && s.rows[id].status.Pending?
    requires WellFormed(ApplyClaim(cfg, s, r, ids))
    ensures Counted(cfg, ApplyClaim(cfg, s, r, ids))
  {
    var s' := ApplyClaim(cfg, s, r, ids);
    forall i | 0 <= i < |s'.relays[r].batch|
      ensures s'.relays[r].batch[i].number !in s'.history[s'.relays[r].batch[i].id].requeued
    {
      assert ids[i] in ids;
    }
  }

  lemma CountedMark(cfg: Config, s: State, r: nat, applied: bool, at: int, message: string)
    requires WellFormed(s) && Counted(cfg, s) && Enabled(cfg, s, Mark(r, applied, at, message))
    requires WellFormed(ApplyMark(cfg, s, r, applied, at, message))
    ensures Counted(cfg, ApplyMark(cfg, s, r, applied, at, message))
  {
    var s' := ApplyMark(cfg, s, r, applied, at, message);
    var head := s.relays[r].batch[0];
    assert Issued(s.rows, head);
    PaidMark(cfg, s, r, applied, at, message);
    RequeuedMark(cfg, s, r, applied, at, message);
    forall q, i | q in s'.relays && 0 <= i < |s'.relays[q].batch|
      ensures s'.relays[q].batch[i].number !in s'.history[s'.relays[q].batch[i].id].requeued
    {
      NotTheHead(cfg, s, r, applied, at, message, q, i);
    }
  }

  lemma RequeuedMark(cfg: Config, s: State, r: nat, applied: bool, at: int, message: string)
    requires WellFormed(s) && Counted(cfg, s) && Enabled(cfg, s, Mark(r, applied, at, message))
    ensures
      var s' := ApplyMark(cfg, s, r, applied, at, message);
      && s'.rows.Keys == s.rows.Keys && s'.history.Keys == s.history.Keys
      && forall id, k :: id in s'.rows && id in s'.history && k in s'.history[id].requeued ==>
           1 <= k <= s'.rows[id].attempts && (cfg.maxAttempts > 0 ==> k < cfg.maxAttempts)
  {
    assert Issued(s.rows, s.relays[r].batch[0]);
  }

  lemma PaidMark(cfg: Config, s: State, r: nat, applied: bool, at: int, message: string)
    requires WellFormed(s) && Counted(cfg, s) && Enabled(cfg, s, Mark(r, applied, at, message))
    ensures
      var s' := ApplyMark(cfg, s, r, applied, at, message);
      forall id :: id in s.rows ==> id in s'.rows && id in s'.history && Paid(s'.rows[id], s'.history[id])
  {
    var head := s.relays[r].batch[0];
    assert Issued(s.rows, head) && Paid(s.rows[head.id], s.history[head.id]);
  }

  /** A lease that is still held after a mark is not the one that marked. */
  lemma NotTheHead(cfg: Config, s: State, r: nat, applied: bool, at: int, message: string, q: nat, i: nat)
    requires WellFormed(s) && Busy(s, r) && q in s.relays
    requires i < |ApplyMark(cfg, s, r, applied, at, message).relays[q].batch|
    ensures
      var l := ApplyMark(cfg, s, r, applied, at, message).relays[q].batch[i];
      l != s.relays[r].batch[0] && exists j :: 0 <= j < |s.relays[q].batch| && s.relays[q].batch[j] == l
  {
    var head := s.relays[r].batch[0];
    if q == r {
      assert s.relays[r].batch[1..][i] == s.relays[r].batch[i + 1];
      assert NoDup(s.relays[r].batch);
    } else {
      assert s.relays[q].batch[i] in s.relays[q].batch && head in s.relays[r].batch;
    }
  }

  lemma {:induction false} CountedRun(cfg: Config, s: State, steps: seq<Step>)
    requires WellFormed(s) && Counted(cfg, s) && Run(cfg, s, steps)
    ensures WellFormed(Exec(cfg, s, steps)) && Counted(cfg, Exec(cfg, s, steps))
    decreases |steps|
  {
    if steps != [] {
      WellFormedStep(cfg, s, steps[0]);
      CountedStep(cfg, s, steps[0]);
      CountedRun(cfg, Apply(cfg, s, steps[0]), steps[1..]);
    }
  }

  /** Attempts never exceed maxAttempts by more than the number of times the row was reset as stuck,
      although a stale holder may send a sent or failed row back to pending. */
  lemma AttemptsBound(cfg: Config, relays: set<nat>, steps: seq<Step>, id: nat)
    requires cfg.maxAttempts > 0
    requires Run(cfg, Initial(relays), steps)
    requires id in Exec(cfg, Initial(relays), steps).rows
    ensures
      var end := Exec(cfg, Initial(relays), steps);
      id in end.history && end.rows[id].attempts <= cfg.maxAttempts + end.history[id].resets
  {
    CountedRun(cfg, Initial(relays), steps);
    var end := Exec(cfg, Initial(relays), steps);
    assert Paid(end.rows[id], end.history[id]);
    BoundedCardinality(end.history[id].requeued, 1, cfg.maxAttempts);
  }

  // No row is left behind.

  /** From this time on a row that is not sent or failed can be claimed, or be reset and then claimed. */
  function WakesAt(cfg: Config, row: Row): int
    requires row.status.Processing? ==> row.startedAt.Some?
  {
    if row.status.Processing? then row.startedAt.value + Timeout(cfg.processingTimeout) + 1 else row.nextRetryAt
  }

  lemma NeverStranded(cfg: Config, relays: set<nat>, steps: seq<Step>, r: nat, id: nat, t: int)
    requires Run(cfg, Initial(relays), steps) && id in Exec(cfg, Initial(relays), steps).rows
    requires !Exec(cfg, Initial(relays), steps).rows[id].status.Terminal()
    ensures
      var s := Exec(cfg, Initial(relays), steps);
      var row := s.rows[id];
      && (row.status.Processing? <==> row.startedAt.Some?)
      && (t >= WakesAt(cfg, row) <==> Due(row, t) || Stuck(row, t, Timeout(cfg.processingTimeout)))
      && (s.now >= WakesAt(cfg, row) && Idle(s, r) ==> Due(Apply(cfg, s, Reset(r)).rows[id], s.now))
    ensures
      var s := Exec(cfg, Initial(relays), steps);
      var row := s.rows[id];
      var timeout := if cfg.processingTimeout > 0 then cfg.processingTimeout else 30_000_000;
      && WakesAt(cfg, row) == (if row.startedAt.Some? then row.startedAt.value + timeout + 1 else row.nextRetryAt)
      && (Idle(s, r) && row.status == Processing ==>
            var after := Apply(cfg, s, Reset(r)).rows[id];
            if row.startedAt.value < s.now - timeout
            then after.status == Pending && after.nextRetryAt == s.now && after.attempts == row.attempts
            else after == row)
  {
    CountedRun(cfg, Initial(relays), steps);
    var s := Exec(cfg, Initial(relays), steps);
    assert RowOk(s.rows[id], s.history[id]);
  }

  // Topic writes.

  /** The writes the holder has made under the first lease of its batch are at most this. */
  function Made(phase: Phase): nat {
    if phase.Unsent? then 0 else if phase.Retrying? then 1 else 2
  }

  ghost function WritesOf(history: map<nat, History>, l: Lease): nat {
    if l.id in history && 1 <= l.number <= |history[l.id].writes| then history[l.id].writes[l.number - 1] else 0
  }

  ghost predicate WritesOk(s: State) {
    && (forall l: Lease :: WritesOf(s.history, l) <= 2)
    && (forall r, i :: r in s.relays && 0 <= i < |s.relays[r].batch| ==>
          WritesOf(s.history, s.relays[r].batch[i]) <= if i == 0 then Made(s.relays[r].phase) else 0)
  }

  lemma WritesOkStep(cfg: Config, s: State, step: Step)
    requires WellFormed(s) && WritesOk(s) && Enabled(cfg, s, step)
    ensures WritesOk(Apply(cfg, s, step))
  {
    match step
    case Write(r, appended, acked, heals) => WritesOkWrite(s, r, appended, acked, heals);
    case Claim(r, ids, _) => WritesOkClaim(cfg, s, r, ids);
    case Mark(r, applied, at, message) => WritesOkMark(cfg, s, r, applied, at, message);
    case _ => WritesOkRest(cfg, s, step);
  }

  lemma WritesOkRest(cfg: Config, s: State, step: Step)
    requires WellFormed(s) && WritesOk(s) && Enabled(cfg, s, step)
    requires !step.Write? && !step.Claim? && !step.Mark?
    ensures WritesOk(Apply(cfg, s, step))
  {
    var s' := Apply(cfg, s, step);
    assert forall l: Lease :: WritesOf(s'.history, l) == WritesOf(s.history, l);
  }

  lemma WritesOkMark(cfg: Config, s: State, r: nat, applied: bool, at: int, message: string)
    requires WritesOk(s) && Busy(s, r)
    ensures WritesOk(ApplyMark(cfg, s, r, applied, at, message))
  {
    var s' := ApplyMark(cfg, s, r, applied, at, message);
    assert forall l: Lease :: WritesOf(s'.history, l) == WritesOf(s.history, l);
    forall i | 0 <= i < |s'.relays[r].batch|
      ensures WritesOf(s'.history, s'.relays[r].batch[i]) <= 0
    {
      assert s'.relays[r].batch[i] == s.relays[r].batch[i + 1];
    }
  }

  lemma WritesOkClaim(cfg: Config, s: State, r: nat, ids: seq<nat>)
    requires WellFormed(s) && WritesOk(s) && Idle(s, r)
    requires forall id :: id in ids ==> id in s.rows
    ensures WritesOk(ApplyClaim(cfg, s, r, ids))
  {
    var s' := ApplyClaim(cfg, s, r, ids);
    forall l: Lease
      ensures WritesOf(s'.history, l) == WritesOf(s.history, l)
    {
    }
    forall i | 0 <= i < |s'.relays[r].batch|
      ensures WritesOf(s'.history, s'.relays[r].batch[i]) == 0
    {
      assert ids[i] in ids && RowOk(s.rows[ids[i]], s.history[ids[i]]);
    }
  }

  lemma WritesOkWrite(s: State, r: nat, appended: bool, acked: bool, heals: bool)
    requires WellFormed(s) && WritesOk(s) && Busy(s, r)
    requires s.relays[r].phase.Unsent? || s.relays[r].phase.Retrying?
    ensures WritesOk(ApplyWrite(s, r, appended, acked, heals))
  {
    var s' := ApplyWrite(s, r, appended, acked, heals);
    var head := s.relays[r].batch[0];
    assert Issued(s.rows, head) && RowOk(s.rows[head.id], s.history[head.id]);
    forall l: Lease
      ensures WritesOf(s'.history, l) == WritesOf(s.history, l) + if l == head then 1 else 0
    {
    }
    forall q, i | q in s'.relays && 0 <= i < |s'.relays[q].batch|
      ensures s'.relays[q].batch[i] == head ==> q == r && i == 0
    {
      assert head in s.relays[r].batch && s.relays[q].batch[i] in s.relays[q].batch;
    }
  }

  lemma {:induction false} WritesOkRun(cfg: Config, s: State, steps: seq<Step>)
    requires WellFormed(s) && WritesOk(s) && Run(cfg, s, steps)
    ensures WritesOk(Exec(cfg, s, steps))
    decreases |steps|
  {
    if steps != [] {
      WellFormedStep(cfg, s, steps[0]);
      WritesOkStep(cfg, s, steps[0]);
      WritesOkRun(cfg, Apply(cfg, s, steps[0]), steps[1..]);
    }
  }

  /** The topic is written to at most twice per claim of a row, hence at most 2 * (maxAttempts + resets) times for its event. */
  lemma WritesBound(cfg: Config, relays: set<nat>, steps: seq<Step>, id: nat)
    requires cfg.maxAttempts > 0
    requires Run(cfg, Initial(relays), steps)
    requires id in Exec(cfg, Initial(relays), steps).rows
    ensures
      var end := Exec(cfg, Initial(relays), steps);
      id in end.history && Sum(end.history[id].writes) <= 2 * (cfg.maxAttempts + end.history[id].resets)
  {
    AttemptsBound(cfg, relays, steps, id);
    CountedRun(cfg, Initial(relays), steps);
    WritesOkRun(cfg, Initial(relays), steps);
    var end := Exec(cfg, Initial(relays), steps);
    assert RowOk(end.rows[id], end.history[id]);
    forall k | 0 <= k < |end.history[id].writes|
      ensures end.history[id].writes[k] <= 2
    {
      assert WritesOf(end.history, Lease(id, k + 1)) <= 2;
    }
    SumAtMost(end.history[id].writes, 2);
  }
}
