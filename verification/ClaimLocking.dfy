/** ClaimPending under the row locks of `FOR UPDATE SKIP LOCKED`: calls that run side by side, taking one row lock at a time,
    have the effect of atomic claims. */
module ClaimLocking {
  import opened Base
  import opened Outbox
  import Relays

  /** A call that has not committed. `order` is its snapshot of the due rows, oldest first; order[..reached] has been looked at:
      `picked` is locked, `skipped` was locked by another call or no longer due. */
  datatype Claimant = Claimant(started: int, order: seq<nat>, reached: nat, picked: seq<nat>, skipped: set<nat>)

  /** `issued` collects the (id, attempts) pairs that committed calls returned. */
  datatype State = State(now: int, rows: Table, calls: map<nat, Claimant>, issued: set<Relays.Lease>)

  datatype Step =
    | Advance(t: int)
    | Begin(c: nat, order: seq<nat>)
    | Look(c: nat)
    | Commit(c: nat)
    | Abort(c: nat)
    | Insert(id: nat, row: Row)
    | Update(id: nat, row: Row)

  ghost predicate Locked(s: State, id: nat) {
    exists c :: c in s.calls && id in s.calls[c].picked
  }

  ghost predicate OldestFirst(rows: Table, order: seq<nat>) {
    && (forall i :: 0 <= i < |order| ==> order[i] in rows)
    && (forall i, j :: 0 <= i < j < |order| ==> rows[order[i]].fields.createdAt <= rows[order[j]].fields.createdAt)
  }

  ghost predicate Enabled(limit: nat, s: State, step: Step) {
    match step
    case Advance(t) => s.now <= t
    case Begin(c, order) =>
      c !in s.calls && NoDup(order) && Elements(order) == DueIds(s.rows, s.now) && OldestFirst(s.rows, order)
    case Look(c) => c in s.calls && s.calls[c].reached < |s.calls[c].order| && |s.calls[c].picked| < limit
    case Commit(c) => c in s.calls && (s.calls[c].reached >= |s.calls[c].order| || |s.calls[c].picked| >= limit)
    case Abort(c) => c in s.calls
    case Insert(id, row) => id !in s.rows && row.attempts == 0
    // Any other statement waits for the lock of the row, and none of them changes its attempts.
    case Update(id, row) =>
      id in s.rows && !Locked(s, id) && row.fields == s.rows[id].fields && row.attempts == s.rows[id].attempts
  }

  ghost function Apply(s: State, step: Step): State {
    match step
    case Advance(t) => s.(now := t)
    case Begin(c, order) => s.(calls := s.calls[c := Claimant(s.now, order, 0, [], {})])
    case Look(c) => if c in s.calls && s.calls[c].reached < |s.calls[c].order| then ApplyLook(s, c) else s
    case Commit(c) => if c in s.calls then ApplyCommit(s, c) else s
    case Abort(c) => s.(calls := s.calls - {c})
    case Insert(id, row) => s.(rows := s.rows[id := row])
    case Update(id, row) => s.(rows := s.rows[id := row])
  }

  ghost function ApplyLook(s: State, c: nat): State
    requires c in s.calls && s.calls[c].reached < |s.calls[c].order|
  {
    var call := s.calls[c];
    var id := call.order[call.reached];
    var next := call.(reached := call.reached + 1);
    if !Locked(s, id) && id in s.rows && Due(s.rows[id], call.started)
    then s.(calls := s.calls[c := next.(picked := call.picked + [id])])
    else s.(calls := s.calls[c := next.(skipped := call.skipped + {id})])
  }

  ghost function Returned(rows: Table, ids: seq<nat>): set<Relays.Lease> {
    set id | id in ids && id in rows :: Relays.Lease(id, rows[id].attempts + 1)
  }

  ghost function ApplyCommit(s: State, c: nat): State
    requires c in s.calls
  {
    var ids := s.calls[c].picked;
    s.(rows := TakeAll(s.rows, ids, s.calls[c].started), calls := s.calls - {c}, issued := s.issued + Returned(s.rows, ids))
  }

  ghost predicate CallOk(limit: nat, rows: Table, call: Claimant) {
    && call.reached <= |call.order|
    && NoDup(call.order) && OldestFirst(rows, call.order)
    && NoDup(call.picked) && |call.picked| <= limit
    && (forall id :: id in call.picked ==>
          id in call.order[..call.reached] && id !in call.skipped && id in rows && Due(rows[id], call.started))
    && (forall id :: id in call.skipped ==> id in call.order[..call.reached])
    && (forall i :: 0 <= i < call.reached ==> call.order[i] in call.picked || call.order[i] in call.skipped)
  }

  ghost predicate Inv(limit: nat, s: State) {
    && (forall c :: c in s.calls ==> CallOk(limit, s.rows, s.calls[c]))
    && (forall c, d, id :: c in s.calls && d in s.calls && id in s.calls[c].picked && id in s.calls[d].picked ==> c == d)
    && (forall l :: l in s.issued ==> l.id in s.rows && l.number <= s.rows[l.id].attempts)
  }

  lemma InvStep(limit: nat, s: State, step: Step)
    requires Inv(limit, s) && Enabled(limit, s, step)
    ensures Inv(limit, Apply(s, step))
  {
    match step
    case Look(c) => InvLook(limit, s, c);
    case Commit(c) => InvCommit(limit, s, c);
    case Update(id, row) =>
      forall c | c in s.calls
        ensures CallOk(limit, s.rows[id := row], s.calls[c])
      {
        assert CallOk(limit, s.rows, s.calls[c]) && id !in s.calls[c].picked;
      }
    case Insert(id, row) =>
      forall c | c in s.calls
        ensures CallOk(limit, s.rows[id := row], s.calls[c])
      {
        assert CallOk(limit, s.rows, s.calls[c]);
      }
    case _ =>
  }

  lemma InvLook(limit: nat, s: State, c: nat)
    requires Inv(limit, s) && Enabled(limit, s, Look(c))
    ensures Inv(limit, ApplyLook(s, c))
  {
    var s' := ApplyLook(s, c);
    LookOk(limit, s, c);
    OthersKeep(s, c);
    forall d, e, id | d in s'.calls && e in s'.calls && id in s'.calls[d].picked && id in s'.calls[e].picked
      ensures d == e
    {
      PicksApart(limit, s, c, d, id);
      PicksApart(limit, s, c, e, id);
    }
  }

  lemma OthersKeep(s: State, c: nat)
    requires c in s.calls && s.calls[c].reached < |s.calls[c].order|
    ensures ApplyLook(s, c).rows == s.rows && ApplyLook(s, c).issued == s.issued && ApplyLook(s, c).calls.Keys == s.calls.Keys
    ensures forall d :: d in s.calls && d != c ==> ApplyLook(s, c).calls[d] == s.calls[d]
  {
  }

  /** What a call has picked after the look was picked by it before, or by nobody. */
  lemma PicksApart(limit: nat, s: State, c: nat, d: nat, id: nat)
    requires Enabled(limit, s, Look(c)) && d in s.calls && id in ApplyLook(s, c).calls[d].picked
    ensures id in s.calls[d].picked || (d == c && !Locked(s, id))
  {
  }

  lemma LookOk(limit: nat, s: State, c: nat)
    requires Inv(limit, s) && Enabled(limit, s, Look(c))
    ensures CallOk(limit, s.rows, ApplyLook(s, c).calls[c])
  {
    var call := s.calls[c];
    var id := call.order[call.reached];
    assert CallOk(limit, s.rows, call);
    assert call.order[..call.reached + 1] == call.order[..call.reached] + [id];
    assert id !in call.order[..call.reached];
    var next := call.(reached := call.reached + 1);
    if !Locked(s, id) && id in s.rows && Due(s.rows[id], call.started) {
      assert ApplyLook(s, c).calls[c] == next.(picked := call.picked + [id]);
    } else {
      assert ApplyLook(s, c).calls[c] == next.(skipped := call.skipped + {id});
    }
  }

  lemma InvCommit(limit: nat, s: State, c: nat)
    requires Inv(limit, s) && Enabled(limit, s, Commit(c))
    ensures Inv(limit, ApplyCommit(s, c))
  {
    var s' := ApplyCommit(s, c);
    forall d | d in s'.calls
      ensures CallOk(limit, s'.rows, s'.calls[d])
    {
      CommitKeeps(limit, s, c, d);
    }
  }

  lemma CommitKeeps(limit: nat, s: State, c: nat, d: nat)
    requires Inv(limit, s) && c in s.calls && d in s.calls && c != d
    ensures CallOk(limit, ApplyCommit(s, c).rows, s.calls[d])
  {
    assert CallOk(limit, s.rows, s.calls[d]);
    assert forall id :: id in s.calls[d].picked ==> id !in s.calls[c].picked;
  }

  /** What a call may leave out of account: rows it found locked or no longer due, and rows that became due after its snapshot. */
  ghost function LeftOut(s: State, c: nat): set<nat>
    requires c in s.calls
  {
    s.calls[c].skipped + (DueIds(s.rows, s.calls[c].started) - Elements(s.calls[c].order))
  }

  ghost predicate Run(limit: nat, s: State, steps: seq<Step>)
    decreases |steps|
  {
    steps == [] || (Enabled(limit, s, steps[0]) && Run(limit, Apply(s, steps[0]), steps[1..]))
  }

  ghost function Exec(s: State, steps: seq<Step>): State
    decreases |steps|
  {
    if steps == [] then s else Exec(Apply(s, steps[0]), steps[1..])
  }

  lemma {:induction false} InvRun(limit: nat, s: State, steps: seq<Step>)
    requires Inv(limit, s) && Run(limit, s, steps)
    ensures Inv(limit, Exec(s, steps))
    decreases |steps|
  {
    if steps != [] {
      InvStep(limit, s, steps[0]);
      InvRun(limit, Apply(s, steps[0]), steps[1..]);
    }
  }

  ghost function Initial(rows: Table): State {
    State(0, rows, map[], {})
  }

  /** In every run of calls side by side, a call that commits does what one atomic claim at that moment does, and the leases
      it returns have never been returned before. */
  lemma CommitIsClaim(limit: nat, rows: Table, steps: seq<Step>, c: nat)
    requires limit > 0
    requires Run(limit, Initial(rows), steps) && Enabled(limit, Exec(Initial(rows), steps), Commit(c))
    ensures
      var s := Exec(Initial(rows), steps);
      var call := s.calls[c];
      && Selects(s.rows, call.started, limit, LeftOut(s, c), call.picked)
      && Apply(s, Commit(c)).rows == TakeAll(s.rows, call.picked, call.started)
      && Apply(s, Commit(c)).issued == s.issued + Elements(Relays.Leases(s.rows, call.picked))
      && s.issued !! Elements(Relays.Leases(s.rows, call.picked))
  {
    InvRun(limit, Initial(rows), steps);
    var s := Exec(Initial(rows), steps);
    var call := s.calls[c];
    assert CallOk(limit, s.rows, call);
    ReturnedLeases(s.rows, call.picked);
    Unreached(limit, s, c);
  }

  lemma ReturnedLeases(rows: Table, ids: seq<nat>)
    requires forall id :: id in ids ==> id in rows
    ensures Elements(Relays.Leases(rows, ids)) == Returned(rows, ids)
  {
    forall id | id in ids
      ensures Relays.Lease(id, rows[id].attempts + 1) in Relays.Leases(rows, ids)
    {
      var i :| 0 <= i < |ids| && ids[i] == id;
      assert Relays.Leases(rows, ids)[i] == Relays.Lease(id, rows[id].attempts + 1);
    }
  }

  /** A due row of the snapshot that was neither picked nor skipped has not been reached, so nothing picked is younger. */
  lemma Unreached(limit: nat, s: State, c: nat)
    requires Inv(limit, s) && Enabled(limit, s, Commit(c))
    ensures Selects(s.rows, s.calls[c].started, limit, LeftOut(s, c), s.calls[c].picked)
  {
    var call := s.calls[c];
    var available := DueIds(s.rows, call.started) - LeftOut(s, c);
    assert CallOk(limit, s.rows, call);
    forall id | id in call.picked
      ensures id in available
    {
      assert id in call.order[..call.reached];
    }
    forall id, p | id in available && id !in call.picked && p in call.picked
      ensures s.rows[p].fields.createdAt <= s.rows[id].fields.createdAt
    {
      var j :| 0 <= j < |call.order| && call.order[j] == id;
      var i :| 0 <= i < call.reached && call.order[i] == p;
      assert i < j;
    }
    if |call.picked| < limit {
      forall id | id in available
        ensures id in Elements(call.picked)
      {
        var j :| 0 <= j < |call.order| && call.order[j] == id;
      }
    }
  }
}
